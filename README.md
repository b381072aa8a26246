# p-info in Dafny

A verified model of `src/p-info.ts`, the core of p-info. p-info reports when a
process was started, given its pid:

- **Windows.** It runs a PowerShell `get-process` query. The query selects 62
  properties and converts the record to JSON. The code parses the JSON and turns
  the `StartTime` text `/Date(<ms>)/` into a JavaScript `Date`.
- **Linux and macOS.** It runs `ps -p <pid> -o lstart=` and keeps the first
  line of the output. It replaces commas with spaces and trims the line. It then
  asks `date` for the seconds since the epoch, using BSD syntax on darwin and
  GNU syntax elsewhere, and multiplies by 1000.
- **Dispatch.** `GetInfo` picks the path by platform.
- **Channel.** `GetInfoChannel` creates a persistent PowerShell runner on
  Windows and sends every query through it. Its `Close` closes that runner.

Everything is modelled as functions and lemmas:

- The operating system is a parameter `host: Host`, a function from an executor
  and a command to an outcome: standard output or a rejection.
- `JSON.parse` is a parameter `parse: JsonParser`.
- Each query returns a `Response`. It holds the steps taken, in order: the
  commands run and where they ran, a one-shot session disposed, a runner
  closed. It also holds the result.
- Commands are values (`Commands.Command`). Their exact text is
  `PInfo.CommandText`. That text is proved to determine the command, so a host
  that answers command texts is the same as one that answers `Command` values.

The JavaScript behaviour the code relies on is written out:

- `slice` with a negative end, `trim` with ECMAScript's whitespace set,
  `replace(/,/g, " ")`, `split` and `join` (module `JsText`).
- Unary `+` on a string, `String(n)` for an integer, and `new Date(ms)` with
  TimeClip's range of ±8.64e15 ms (module `JsNumber`).

The modules:

- `JsText`, `JsNumber`: the JavaScript string and number operations.
- `Commands`: the boundary with the operating system and the result types.
- `WindowsInfo`: `mapWindowsInfo` and `getWindowsInfo`.
- `PosixInfo`: `mapLinuxInfo` and `getLinuxInfo`.
- `PInfo`: `GetInfo`, `GetInfoChannel` and the command texts.

Where the code does not do what a caller would expect (a not-found error, a parse error, a validated pid, a disposed session), the model follows the code:

- **No "not found" error on POSIX.** `getLinuxInfo` raises
  `Cannot find process <pid>` only when splitting the `ps` output gives no
  line. `split` always gives at least one piece, so that branch never runs.
  The branch is kept in `PosixInfo.GetLinuxInfo`.
  `PInfo.NeverCannotFindProcess` proves it is unreachable.
- **A missing pid is not reported as missing.** `ps` exits with an error for a
  pid that does not exist, so the query fails with the rejected command.
  Empty `ps` output still reaches `date`, with an empty start text.
- **No parse error for a non-numeric date.** Output of `date` that is not a
  number gives an invalid `Date` (`InvalidDate`), not an error. Blank output
  gives the epoch.
- **The pid is not validated.** An integer pid is interpolated as it is given. A
  negative pid is written with its minus sign.
- **A one-shot session can leak.** When its invocation rejects, the one-shot
  PowerShell session is not disposed (`WindowsInfo.RejectedOneShotNotDisposed`).

## Model

| member | source | states |
|---|---|---|
| JsText.Slice | src/p-info.ts:77 | `slice` counts a negative index from the end (but not below 0) and caps any index at the length; the result is the characters from the clamped start up to the clamped end, and empty when the start is not before the end |
| JsText.SliceBetween | src/p-info.ts:77 | `slice(6, -2)` of a 6-character head, a middle and a 2-character tail is exactly the middle |
| JsText.SliceOfShort | src/p-info.ts:77 | `slice(6, -2)` of a string of at most 8 characters is empty |
| JsText.Trim | src/p-info.ts:107 | `trim` leaves no whitespace at either end |
| JsText.TrimRemovesWhitespace | src/p-info.ts:107 | the input is leading whitespace, then the trimmed text, then trailing whitespace: `trim` removes whitespace only, and only at the ends |
| JsText.TrimKeepsAbsent | src/p-info.ts:107 | a character absent from a string is absent from its trimmed form |
| JsText.TrimOfTrimmed | src/p-info.ts:107 | trimming a string with no whitespace at its ends returns it unchanged |
| JsText.TrimTrailing | src/p-info.ts:114 | trimming a trimmed text followed by whitespace gives back the text |
| JsText.ReplaceCommas | src/p-info.ts:107 | same length, no comma left, every comma becomes a space and every other character is kept |
| JsText.ReplaceCommasOfCommaFree | src/p-info.ts:107 | replacing commas in a comma-free string changes nothing |
| JsText.Split | src/p-info.ts:125 | splitting always yields at least one piece, even for the empty string |
| JsText.SplitJoin | src/p-info.ts:125 | no piece holds the separator, and joining the pieces with it gives back the input |
| JsText.FirstPieceBeforeSeparator | src/p-info.ts:125-129 | the first piece is exactly the text before the first separator |
| JsText.SplitWithoutSeparator | src/p-info.ts:125 | a string without the separator splits into itself alone |
| JsNumber.NatToDecimal | src/p-info.ts:84 | `String(n)` gives decimal digits that read back as `n`, with no leading zero except for `0` itself, which is exactly `"0"` |
| JsNumber.IntToDecimal | src/p-info.ts:84 | the text of an integer starts with `-` exactly when it is negative; the rest is the canonical digits of its magnitude (no leading zero, no `-0`); unary `+` reads the text back as the integer |
| JsNumber.ToNumber | src/p-info.ts:77 | unary `+` gives a number exactly when the trimmed text is blank or an optionally signed run of digits; a blank text is 0; otherwise the value is that of the trimmed numeral, so surrounding whitespace never changes it |
| JsNumber.NumeralValue | src/p-info.ts:114 | a numeral without surrounding whitespace has a value exactly when it is an optionally signed run of digits; its value is that of its digits read in base 10, negated after a `-` and unchanged after a `+`, so leading zeros do not change it |
| JsNumber.DecimalRoundTrip | src/p-info.ts:77 | unary `+` of `String(n)` is `n` for every integer `n` |
| JsNumber.DecimalLineRoundTrip | src/p-info.ts:114 | unary `+` of `String(n)` followed by whitespace is still `n` |
| JsNumber.BlankIsZero | src/p-info.ts:114 | unary `+` of a blank string is 0, not NaN |
| JsNumber.DecimalBeforeSeparator | src/p-info.ts:124 | `String(n)` before a separator that is not a digit or `-` is the first piece of the split, and reads back as `n` |
| JsNumber.DateOf | src/p-info.ts:77 | `new Date(v)` is valid exactly for integers within ±8.64e15 ms, and then holds `v` |
| Commands.PidAfterRoundTrip | src/p-info.ts:84 | a pid interpolated after a command's head, followed by a space, is read back from the command text |
| WindowsInfo.PropertiesSelectStartTime | src/p-info.ts:84 | the query selects 62 properties, and `StartTime` is the 52nd, as in the raw record at lines 11-72 |
| WindowsInfo.WindowsQuery | src/p-info.ts:84 | the query starts with `get-process -Id ` and ends with the selection of the 62 properties of `Properties` followed by `\| ConvertTo-Json` |
| WindowsInfo.QueryNamesPid | src/p-info.ts:84 | the query carries the pid in decimal right after `get-process -Id ` |
| WindowsInfo.SelectionEndsWithJson | src/p-info.ts:84 | whatever precedes it and whatever it selects, the selection clause ends with `\| ConvertTo-Json` |
| WindowsInfo.SelectedQueryNamesPid | src/p-info.ts:84 | after the head, the pid is read back whatever selection follows it, provided the selection starts with a space |
| WindowsInfo.WindowsExecutor | src/p-info.ts:87-94 | the shared runner is used exactly when one is supplied, and it is that runner; otherwise a one-shot session |
| WindowsInfo.DecodeStartTime | src/p-info.ts:77 | the date is valid exactly when the number between the first 6 and the last 2 characters is within ±8.64e15 ms, and then holds that number |
| WindowsInfo.DecodeJsonDate | src/p-info.ts:77 | decoding `/Date(<ms>)/` gives `new Date(ms)`, which is exactly `ms` when a `Date` can hold it |
| WindowsInfo.DecodeShortIsEpoch | src/p-info.ts:77 | a StartTime of at most 8 characters, such as `/Date()/`, decodes to the epoch |
| WindowsInfo.MapWindowsInfo | src/p-info.ts:74-79 | succeeds exactly when the record is an object whose StartTime is a string, and otherwise fails with a TypeError; keeps the same keys, makes StartTime the decoded `Date` and copies every other field unchanged |
| WindowsInfo.GetWindowsInfo | src/p-info.ts:82-98 | runs the query first, on the chosen executor; disposes a one-shot session exactly when it answered, and at most once; a rejected query gives that rejection, output that does not parse gives a syntax error on that output, and parsed output gives `mapWindowsInfo` of the parsed record |
| WindowsInfo.RejectedOneShotNotDisposed | src/p-info.ts:90-93 | when the one-shot invocation rejects, the only step is the query: the session is not disposed, and the rejection is the result |
| WindowsInfo.StartTimeRoundTrip | src/p-info.ts:74-98 | a record whose StartTime is PowerShell's envelope around `ms` yields a result whose start time is `ms` |
| PosixInfo.PsQuery | src/p-info.ts:124 | the `ps` command starts with `ps -p ` and ends with ` -o lstart=` |
| PosixInfo.PsQueryNamesPid | src/p-info.ts:124 | the `ps` command carries the pid in decimal right after `ps -p ` |
| PosixInfo.NormaliseStart | src/p-info.ts:107 | the normalised start text holds no comma and has no whitespace at either end |
| PosixInfo.NormaliseIdempotent | src/p-info.ts:107 | normalising twice is the same as normalising once |
| PosixInfo.DateCommand | src/p-info.ts:108-113 | the `date` command starts with the head and ends with the tail of the chosen syntax |
| PosixInfo.DateCommandCarriesStart | src/p-info.ts:108-113 | the start text is recovered unchanged from the `date` command, and the BSD and GNU forms differ at their seventh character |
| PosixInfo.DateCommandForPlatform | src/p-info.ts:109-113 | darwin gets exactly `date -j -f "%a %b %d %T %Y" "<start>" "+%s"`, and every other platform `date -d "<start>" +%s` |
| PosixInfo.SecondsToDate | src/p-info.ts:114 | the date is valid exactly when 1000 times the number `date` printed is within ±8.64e15 ms, and then holds that many milliseconds, a whole number of seconds |
| PosixInfo.SecondsRoundTrip | src/p-info.ts:114 | printed seconds followed by whitespace give a `Date` of 1000 times that many milliseconds |
| PosixInfo.BlankOutputIsEpoch | src/p-info.ts:114 | blank `date` output gives the epoch, not an invalid date |
| PosixInfo.MapLinuxInfo | src/p-info.ts:106-118 | runs exactly one `date` command, on the normalised start text in the platform's syntax; the result is that command's rejection, or its output read as seconds |
| PosixInfo.GetLinuxInfo | src/p-info.ts:123-129 | runs `ps` first and everything as a child process; never fails with `Cannot find process`; a rejected `ps` is the result; otherwise the first line of the output goes to `mapLinuxInfo` |
| PosixInfo.FirstLineOnly | src/p-info.ts:124-129 | whatever follows the first newline of the `ps` output, `date` is asked about the first line alone, normalised |
| PosixInfo.EmptyPsOutputReachesDate | src/p-info.ts:125-129 | empty `ps` output is not reported as a missing process: `date` is asked about an empty start text |
| PInfo.CommandText | src/p-info.ts:84-124 | each command's text starts with the head of its template: `get-process -Id `, `ps -p `, or the head of the chosen `date` syntax |
| PInfo.CommandTextRoundTrip | src/p-info.ts:84-124 | each of the three command templates can be read back into the command that built it |
| PInfo.CommandTextInjective | src/p-info.ts:84-124 | two different commands never have the same text |
| PInfo.GetInfo | src/p-info.ts:142-150 | runs nothing exactly on an unsupported platform, and then fails with that platform; on win32 the response is `getWindowsInfo`'s with the runner passed through, starting with the Windows query on the runner's executor; on linux and darwin it is `getLinuxInfo`'s, starting with `ps` |
| PInfo.UnsupportedPlatformMessage | src/p-info.ts:147-149 | an unsupported platform fails with `Unsupported platform <platform>` |
| PInfo.RunnerUsedIffSupplied | src/p-info.ts:142-150 | a shared runner is used exactly when the platform is win32 and that runner was passed in |
| PInfo.PosixIgnoresRunner | src/p-info.ts:145-146 | on linux and darwin neither the runner nor the JSON parser changes the outcome |
| PInfo.SuccessHasStartTime | src/p-info.ts:141-150 | every success carries a start time that is a `Date`, on either path |
| PInfo.NeverCannotFindProcess | src/p-info.ts:126-128 | no query ever fails with `Cannot find process` |
| PInfo.GetInfoChannel | src/p-info.ts:152-162 | a runner is created exactly on win32, and it is the new one |
| PInfo.ChannelQuery | src/p-info.ts:163-164 | a channel query is `GetInfo` with the channel's platform and captured runner; on win32 it starts with the Windows query on the channel's executor, and a channel holding a runner never opens or disposes of a one-shot session |
| PInfo.ChannelClose | src/p-info.ts:165-169 | `Close` closes the channel's runner if it has one, and does nothing otherwise |
| PInfo.ChannelRouting | src/p-info.ts:152-170 | on win32 each channel query runs on the channel's runner, never disposes a one-shot session, and `Close` closes that runner; elsewhere no runner is touched and `Close` does nothing |

## Left out

- `TransformChannel` from the pchannel package is not part of this model. It serialises the queries of a runner and of a channel in FIFO order, and its `Close` drains the queue before closing. A runner's `Close` is modelled as a single `CloseRunner` step. Queueing, draining and concurrency are not modelled.
- node-powershell sessions and `execPromise` (src/misc.ts) are process I/O. They are replaced by the `host` parameter. Each command's outcome is a function of the executor and the command, so the host is deterministic. stderr handling inside `execPromise` is not modelled.
- `JSON.parse` is a foreign parser. It is the `parse` parameter; `None` stands for a SyntaxError.
- JsNumber.NumeralValue: only optionally signed decimal integers are evaluated. Fractions, exponents, `0x`/`0b`/`0o` prefixes and `Infinity` read as NaN. JavaScript numbers are doubles, but integers here are unbounded, so precision loss above 2^53 is not modelled.
- JsNumber.IntToDecimal: `String(n)` switches to exponent notation at 1e21. This model always writes plain digits.
- WindowsInfo.MapWindowsInfo: a StartTime that is not a string is modelled as the TypeError of calling `slice` on it. For an array-valued StartTime, JavaScript would instead call `Array.prototype.slice`.
- The declared types of the raw Windows record's fields (src/p-info.ts:10-73) are not checked. The record is a map from field names to JSON values.
- The `String(...)` coercion at src/p-info.ts:107 is the identity, because the first line of the `ps` output is always a string.
- Strings are sequences of Unicode scalar values, while JavaScript strings are sequences of UTF-16 code units. So `slice(6, -2)` cuts at a different place when a character outside the Basic Multilingual Plane comes before the cut, and lone surrogates cannot be represented. PowerShell's `/Date(<ms>)/` envelope and command output made of ASCII behave the same in both.
- Pids are integers. The source's `pid` is a JavaScript `number`, so a fractional pid, `NaN` or `Infinity` would also be interpolated into the commands; those inputs are not modelled.
- The commented-out TableParser path (src/p-info.ts:130-138) and the test harness (src/p-info.ts:176-192) are dead code.
