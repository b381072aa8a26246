/**
 * The Linux and macOS path of p-info.ts: `ps` prints the process's start
 * time, the first line of its output is normalised, and `date` (BSD syntax on
 * darwin, GNU syntax elsewhere) turns it into seconds since the epoch.
 */
module PosixInfo {
  import opened JsText
  import opened JsNumber
  import opened Commands

  const PsHead: string := "ps -p "
  const PsTail: string := " -o lstart="

  /** The `ps` command that prints one process's start time without a header. */
  function PsQuery(pid: int): (q: string)
    ensures PsHead <= q && EndsWith(q, PsTail)
  {
    var q := PsHead + IntToDecimal(pid) + PsTail;
    assert q[|q| - |PsTail|..] == PsTail;
    q
  }

  /** The `ps` command carries the pid in decimal right after `ps -p `. */
  lemma PsQueryNamesPid(pid: int)
    ensures PidAfter(PsHead, PsQuery(pid)) == Integer(pid)
  {
    PidAfterRoundTrip(PsHead, pid, PsTail);
  }

  /** `String(info.STARTED).replace(/,/g, " ").trim()`: no comma and no whitespace at either end. */
  function NormaliseStart(started: string): (r: string)
    ensures ',' !in r && IsTrimmed(r)
  {
    var s := ReplaceCommas(started);
    TrimKeepsAbsent(s, ',');
    Trim(s)
  }

  /** Normalising twice is normalising once. */
  lemma NormaliseIdempotent(started: string)
    ensures NormaliseStart(NormaliseStart(started)) == NormaliseStart(started)
  {
    var t := NormaliseStart(started);
    ReplaceCommasOfCommaFree(t);
    TrimOfTrimmed(t);
  }

  function DateHead(bsd: bool): string {
    if bsd then "date -j -f \"%a %b %d %T %Y\" \"" else "date -d \""
  }

  function DateTail(bsd: bool): string {
    if bsd then "\" \"+%s\"" else "\" +%s"
  }

  /** The `date` command that prints the start text as seconds since the epoch, with the start text in double quotes. */
  function DateCommand(bsd: bool, start: string): (c: string)
    ensures DateHead(bsd) <= c && EndsWith(c, DateTail(bsd))
  {
    var c := DateHead(bsd) + start + DateTail(bsd);
    assert c[|c| - |DateTail(bsd)|..] == DateTail(bsd);
    c
  }

  /** The start text a `date` command of the given syntax carries: what lies between its head and its tail. */
  function DateStart(bsd: bool, command: string): string
    requires |DateHead(bsd)| + |DateTail(bsd)| <= |command|
  {
    command[|DateHead(bsd)|..|command| - |DateTail(bsd)|]
  }

  /** Every start text is carried unchanged by the command, and the two syntaxes differ from their seventh character on. */
  lemma DateCommandCarriesStart(bsd: bool, start: string)
    ensures var c := DateCommand(bsd, start);
      && |DateHead(bsd)| + |DateTail(bsd)| <= |c|
      && DateStart(bsd, c) == start
      && c[6] == (if bsd then 'j' else 'd')
  {
    var head, tail := DateHead(bsd), DateTail(bsd);
    var c := head + start + tail;
    assert c == DateCommand(bsd, start);
    assert c[|head|..|c| - |tail|] == start;
  }

  /** On darwin the BSD invocation with an explicit input format, on every other platform the GNU one. */
  lemma DateCommandForPlatform(platform: string, start: string)
    ensures platform == "darwin" ==>
      DateCommand(platform == "darwin", start) == "date -j -f \"%a %b %d %T %Y\" \"" + start + "\" \"+%s\""
    ensures platform != "darwin" ==>
      DateCommand(platform == "darwin", start) == "date -d \"" + start + "\" +%s"
  {
  }

  /** `new Date(+stdout * 1000)`: the seconds `date` printed, as milliseconds. */
  function SecondsToDate(stdout: string): (d: Instant)
    ensures d.At? ==> ToNumber(stdout).Integer? && d.ms == ToNumber(stdout).value * 1000
    ensures d.At? ==> d.ms % 1000 == 0 && -MaxTimeValue <= d.ms <= MaxTimeValue
    ensures var v := ToNumber(stdout);
      v.Integer? && -MaxTimeValue <= v.value * 1000 <= MaxTimeValue ==> d == At(v.value * 1000)
  {
    match ToNumber(stdout)
    case NaN => DateOf(NaN)
    case Integer(seconds) =>
      var ms := seconds * 1000;
      assert ms % 1000 == 0;
      DateOf(Integer(ms))
  }

  /** A decimal number of seconds followed by whitespace (the trailing newline) gives the date 1000 times that many milliseconds. */
  lemma SecondsRoundTrip(seconds: int, post: string)
    requires AllWhite(post)
    ensures SecondsToDate(IntToDecimal(seconds) + post) == DateOf(Integer(seconds * 1000))
    ensures -MaxTimeValue <= seconds * 1000 <= MaxTimeValue ==>
      SecondsToDate(IntToDecimal(seconds) + post) == At(seconds * 1000)
  {
    DecimalLineRoundTrip(seconds, post);
  }

  /** Output that is only whitespace gives the epoch, not an invalid date. */
  lemma BlankOutputIsEpoch(stdout: string)
    requires AllWhite(stdout)
    ensures SecondsToDate(stdout) == At(0)
  {
    BlankIsZero(stdout);
  }

  /** `mapLinuxInfo`: normalise the start text, ask the platform's `date` for its seconds, scale to milliseconds. */
  function MapLinuxInfo(platform: string, started: string, host: Host): (r: Response)
    ensures var cmd := DateToSeconds(platform == "darwin", NormaliseStart(started));
      && r.steps == [Run(ChildProcess, cmd)]
      && (host(ChildProcess, cmd).Rejected? ==> r.result == Err(CommandRejected(ChildProcess, host(ChildProcess, cmd).reason)))
      && (host(ChildProcess, cmd).Stdout? ==> r.result == Ok(PosixInfo(SecondsToDate(host(ChildProcess, cmd).text))))
  {
    var cmd := DateToSeconds(platform == "darwin", NormaliseStart(started));
    match host(ChildProcess, cmd)
    case Rejected(reason) => Response([Run(ChildProcess, cmd)], Err(CommandRejected(ChildProcess, reason)))
    case Stdout(text) => Response([Run(ChildProcess, cmd)], Ok(PosixInfo(SecondsToDate(text))))
  }

  /** `getLinuxInfo`: run `ps`, keep the first line of its output, and map it. */
  function GetLinuxInfo(platform: string, pid: int, host: Host): (r: Response)
    ensures |r.steps| >= 1 && r.steps[0] == Run(ChildProcess, ListStartTime(pid))
    ensures forall i :: 0 <= i < |r.steps| ==> r.steps[i].Run? && r.steps[i].via == ChildProcess
    ensures !(r.result.Err? && r.result.error.CannotFindProcess?)
    ensures var reply := host(ChildProcess, ListStartTime(pid));
      reply.Rejected? ==> r.steps == [r.steps[0]] && r.result == Err(CommandRejected(ChildProcess, reply.reason))
    ensures var reply := host(ChildProcess, ListStartTime(pid));
      reply.Stdout? ==>
        var m := MapLinuxInfo(platform, Split(reply.text, '\n')[0], host);
        r.steps == [r.steps[0]] + m.steps && r.result == m.result
  {
    var ps := ListStartTime(pid);
    var reply := host(ChildProcess, ps);
    if reply.Rejected? then Response([Run(ChildProcess, ps)], Err(CommandRejected(ChildProcess, reply.reason)))
    else
      var lines := Split(reply.text, '\n');
      if |lines| == 0 then Response([Run(ChildProcess, ps)], Err(CannotFindProcess(pid)))
      else
        var m := MapLinuxInfo(platform, lines[0], host);
        Response([Run(ChildProcess, ps), m.steps[0]], m.result)
  }

  /**
   * Only the first line of `ps` output matters: whatever follows the first
   * newline, the `date` command is asked about that line, normalised.
   */
  lemma FirstLineOnly(platform: string, pid: int, host: Host, line: string, rest: string)
    requires '\n' !in line
    requires host(ChildProcess, ListStartTime(pid)) == Stdout(line + "\n" + rest)
    ensures GetLinuxInfo(platform, pid, host).steps
         == [Run(ChildProcess, ListStartTime(pid)), Run(ChildProcess, DateToSeconds(platform == "darwin", NormaliseStart(line)))]
  {
    FirstPieceBeforeSeparator(line, '\n', rest);
  }

  /** Empty `ps` output is not reported as a missing process: `date` is asked about an empty start text. */
  lemma EmptyPsOutputReachesDate(platform: string, pid: int, host: Host)
    requires host(ChildProcess, ListStartTime(pid)) == Stdout("")
    ensures GetLinuxInfo(platform, pid, host).steps
         == [Run(ChildProcess, ListStartTime(pid)), Run(ChildProcess, DateToSeconds(platform == "darwin", ""))]
  {
    assert Split("", '\n') == [""];
    assert NormaliseStart("") == "" by { assert ReplaceCommas("") == ""; }
  }
}
