/**
 * The boundary between p-info.ts and the operating system. Every command the
 * code runs is answered by a `Host` function given as a parameter, so the
 * model is deterministic: it says which commands run, through which executor,
 * and what the code makes of their output.
 */
module Commands {
  import opened JsText
  import opened JsNumber

  datatype Option<T> = None | Some(value: T)

  /** Names one persistent PowerShell runner: a serialising channel over one shell session. */
  type RunnerId = nat

  /** Where a command runs. */
  datatype Executor =
    | SharedRunner(id: RunnerId)  // a persistent PowerShell runner supplied by the caller
    | OneShotShell                // a PowerShell session created for this one command
    | ChildProcess                // `exec` through `execPromise`

  /** How a command settles: the standard output it resolves with, or the reason it rejects with. */
  datatype Outcome = Stdout(text: string) | Rejected(reason: string)

  /**
   * A command p-info.ts builds, by the template it fills in. The exact text of
   * each is `CommandText` in module PInfo, which is proved injective, so a
   * command and its text determine each other.
   */
  datatype Command =
    | GetProcess(pid: int)                 // the PowerShell query for one process's record
    | ListStartTime(pid: int)              // `ps -p <pid> -o lstart=`
    | DateToSeconds(bsd: bool, start: string)  // `date` turning a start text into epoch seconds

  /** The pid a command text names after `head`: the text up to the next space, read as a number. */
  function PidAfter(head: string, command: string): Number {
    if |head| <= |command| && command[..|head|] == head then ToNumber(Split(command[|head|..], ' ')[0])
    else NaN
  }

  /** A head, a pid in decimal and a text that starts with a space: the pid is read back from the text. */
  lemma PidAfterRoundTrip(head: string, pid: int, tail: string)
    requires |tail| > 0 && tail[0] == ' '
    ensures PidAfter(head, head + IntToDecimal(pid) + tail) == Integer(pid)
  {
    var d := IntToDecimal(pid);
    var q := head + d + tail;
    assert q[..|head|] == head;
    assert q[|head|..] == d + [' '] + tail[1..];
    DecimalBeforeSeparator(pid, ' ', tail[1..]);
  }

  /** The operating system: the outcome of running a command through an executor. */
  type Host = (Executor, Command) -> Outcome

  /** What the code does to the outside world, in order. */
  datatype Step =
    | Run(via: Executor, command: Command)
    | DisposeShell           // `dispose()` of the one-shot PowerShell session
    | CloseRunner(id: RunnerId)

  /** A value produced by `JSON.parse`; a number keeps its literal text. */
  datatype Json =
    | JNull
    | JBool(b: bool)
    | JNumber(literal: string)
    | JString(s: string)
    | JArray(items: seq<Json>)
    | JObject(fields: map<string, Json>)

  /** `JSON.parse`: the parsed value, or `None` where it throws a SyntaxError. */
  type JsonParser = string -> Option<Json>

  /** Why a query fails. */
  datatype Failure =
    | CommandRejected(via: Executor, reason: string)
    | JsonSyntaxError(text: string)
    | StartTimeTypeError     // `info.StartTime.slice` on a record whose StartTime is not a string
    | CannotFindProcess(pid: int)
    | UnsupportedPlatform(platform: string)
  {
    /** The message of the two errors p-info.ts raises itself. */
    function Message(): string
      requires CannotFindProcess? || UnsupportedPlatform?
    {
      if CannotFindProcess? then "Cannot find process " + IntToDecimal(pid)
      else "Unsupported platform " + platform
    }
  }

  datatype Result<T> = Ok(value: T) | Err(error: Failure)

  /** A field of the Windows result: a value copied from the raw record, or a `Date`. */
  datatype Field = Value(json: Json) | Date(instant: Instant)

  /** The result of a query: the whole Windows record, or the POSIX start time alone. */
  datatype ProcessInfo =
    | WindowsInfo(fields: map<string, Field>)
    | PosixInfo(startTime: Instant)
  {
    /** The `StartTime` both variants carry, when it is a `Date`. */
    function StartTime(): Option<Instant> {
      match this
      case PosixInfo(t) => Some(t)
      case WindowsInfo(f) =>
        if "StartTime" in f && f["StartTime"].Date? then Some(f["StartTime"].instant) else None
    }
  }

  /** The steps a query took and how it settled. */
  datatype Response = Response(steps: seq<Step>, result: Result<ProcessInfo>)
}
