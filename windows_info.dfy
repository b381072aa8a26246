/**
 * The Windows path of p-info.ts: one `get-process` query piped through
 * `Select-Object` and `ConvertTo-Json`, run on the caller's persistent
 * PowerShell runner or on a one-shot session, and the mapping of the parsed
 * record that turns PowerShell's `/Date(<ms>)/` text into a `Date`.
 */
module WindowsInfo {
  import opened JsText
  import opened JsNumber
  import opened Commands

  /** The i-th property the query selects, in the order of the raw record's fields. */
  function PropertyName(i: nat): string
    requires i < 62
  {
    if i == 0 then "Name" else
    if i == 1 then "Id" else
    if i == 2 then "PriorityClass" else
    if i == 3 then "FileVersion" else
    if i == 4 then "HandleCount" else
    if i == 5 then "WorkingSet" else
    if i == 6 then "PagedMemorySize" else
    if i == 7 then "PrivateMemorySize" else
    if i == 8 then "VirtualMemorySize" else
    if i == 9 then "TotalProcessorTime" else
    if i == 10 then "SI" else
    if i == 11 then "Handles" else
    if i == 12 then "VM" else
    if i == 13 then "WS" else
    if i == 14 then "PM" else
    if i == 15 then "NPM" else
    if i == 16 then "Path" else
    if i == 17 then "Company" else
    if i == 18 then "CPU" else
    if i == 19 then "ProductVersion" else
    if i == 20 then "Description" else
    if i == 21 then "Product" else
    if i == 22 then "__NounName" else
    if i == 23 then "BasePriority" else
    if i == 24 then "ExitCode" else
    if i == 25 then "HasExited" else
    if i == 26 then "ExitTime" else
    if i == 27 then "Handle" else
    if i == 28 then "MachineName" else
    if i == 29 then "MainWindowHandle" else
    if i == 30 then "MainWindowTitle" else
    if i == 31 then "MaxWorkingSet" else
    if i == 32 then "MinWorkingSet" else
    if i == 33 then "NonpagedSystemMemorySize" else
    if i == 34 then "NonpagedSystemMemorySize64" else
    if i == 35 then "PagedMemorySize64" else
    if i == 36 then "PagedSystemMemorySize" else
    if i == 37 then "PagedSystemMemorySize64" else
    if i == 38 then "PeakPagedMemorySize" else
    if i == 39 then "PeakPagedMemorySize64" else
    if i == 40 then "PeakWorkingSet" else
    if i == 41 then "PeakWorkingSet64" else
    if i == 42 then "PeakVirtualMemorySize" else
    if i == 43 then "PeakVirtualMemorySize64" else
    if i == 44 then "PriorityBoostEnabled" else
    if i == 45 then "PrivateMemorySize64" else
    if i == 46 then "PrivilegedProcessorTime" else
    if i == 47 then "ProcessName" else
    if i == 48 then "ProcessorAffinity" else
    if i == 49 then "Responding" else
    if i == 50 then "SessionId" else
    if i == 51 then "StartTime" else
    if i == 52 then "SynchronizingObject" else
    if i == 53 then "UserProcessorTime" else
    if i == 54 then "VirtualMemorySize64" else
    if i == 55 then "EnableRaisingEvents" else
    if i == 56 then "StandardInput" else
    if i == 57 then "StandardOutput" else
    if i == 58 then "StandardError" else
    if i == 59 then "WorkingSet64" else
    if i == 60 then "Site" else
    "Container"
  }

  /** The properties the query selects, in order; the same names as the raw record's fields. */
  function Properties(): seq<string> {
    seq(62, i requires 0 <= i < 62 => PropertyName(i))
  }

  /** The query selects 62 properties, StartTime among them. */
  lemma PropertiesSelectStartTime()
    ensures |Properties()| == 62 && Properties()[51] == "StartTime"
  {
  }

  const QueryHead: string := "get-process -Id "
  const QueryTail: string := " | ConvertTo-Json"

  /** Everything after the pid: the selection of the given properties and the conversion to JSON. */
  function SelectClause(props: seq<string>): string {
    " | Select-Object -Property " + Join(props, ",") + QueryTail
  }

  /** The PowerShell command that fetches one process's record as JSON: it starts with `get-process -Id ` and ends with the conversion to JSON. */
  function WindowsQuery(pid: int): (q: string)
    ensures QueryHead <= q && EndsWith(q, QueryTail)
    ensures EndsWith(q, SelectClause(Properties()))
  {
    SelectionEndsWithJson(QueryHead + IntToDecimal(pid), Properties());
    EndsWithAppended(QueryHead + IntToDecimal(pid), SelectClause(Properties()));
    QueryHead + IntToDecimal(pid) + SelectClause(Properties())
  }

  /** The query carries the pid in decimal right after `get-process -Id `. */
  lemma QueryNamesPid(pid: int)
    ensures PidAfter(QueryHead, WindowsQuery(pid)) == Integer(pid)
  {
    var clause := SelectClause(Properties());
    assert clause[0] == ' ';
    SelectedQueryNamesPid(pid, clause);
  }

  /** Whatever comes before it and whatever it selects, the selection ends with the conversion to JSON. */
  lemma SelectionEndsWithJson(pre: string, props: seq<string>)
    ensures EndsWith(pre + SelectClause(props), QueryTail)
  {
    var mid := " | Select-Object -Property " + Join(props, ",");
    assert pre + SelectClause(props) == (pre + mid) + QueryTail;
  }

  /** A query whose selection starts with a space names the pid in decimal. */
  lemma SelectedQueryNamesPid(pid: int, clause: string)
    requires |clause| > 0 && clause[0] == ' '
    ensures PidAfter(QueryHead, QueryHead + IntToDecimal(pid) + clause) == Integer(pid)
  {
    PidAfterRoundTrip(QueryHead, pid, clause);
  }

  /** The runner used for the query: the caller's persistent runner if one is supplied, else a one-shot session. */
  function WindowsExecutor(runner: Option<RunnerId>): (via: Executor)
    ensures via.SharedRunner? <==> runner.Some?
    ensures runner.Some? ==> via.id == runner.value
    ensures runner.None? ==> via == OneShotShell
  {
    match runner
    case Some(id) => SharedRunner(id)
    case None => OneShotShell
  }

  /** PowerShell's JSON envelope for a date `ms` milliseconds after the Unix epoch. */
  function JsonDate(ms: int): string {
    "/Date(" + IntToDecimal(ms) + ")/"
  }

  /** `new Date(+s.slice(6, -2))`: the text between the first 6 and the last 2 characters, as milliseconds. */
  function DecodeStartTime(s: string): (d: Instant)
    ensures d.At? ==> -MaxTimeValue <= d.ms <= MaxTimeValue && ToNumber(Slice(s, 6, -2)) == Integer(d.ms)
    ensures var v := ToNumber(Slice(s, 6, -2));
      v.Integer? && -MaxTimeValue <= v.value <= MaxTimeValue ==> d == At(v.value)
  {
    DateOf(ToNumber(Slice(s, 6, -2)))
  }

  /** Decoding PowerShell's envelope gives back the milliseconds it wraps, when a `Date` can hold them. */
  lemma DecodeJsonDate(ms: int)
    ensures DecodeStartTime(JsonDate(ms)) == DateOf(Integer(ms))
    ensures -MaxTimeValue <= ms <= MaxTimeValue ==> DecodeStartTime(JsonDate(ms)) == At(ms)
  {
    var d := IntToDecimal(ms);
    SliceBetween("/Date(", d, ")/");
    assert Slice(JsonDate(ms), 6, -2) == d;
    DecimalRoundTrip(ms);
  }

  /** A start time of at most 8 characters, the empty envelope `/Date()/` among them, decodes to the epoch. */
  lemma DecodeShortIsEpoch(s: string)
    requires |s| <= 8
    ensures DecodeStartTime(s) == At(0)
  {
    SliceOfShort(s);
    BlankIsZero("");
  }

  /**
   * `{...info, StartTime: new Date(...)}`: defined when the parsed value is an
   * object whose StartTime is a string, and then the same fields, every one
   * copied unchanged except StartTime, which becomes the decoded date.
   */
  function MapWindowsInfo(raw: Json): (r: Result<ProcessInfo>)
    ensures r.Ok? <==> raw.JObject? && "StartTime" in raw.fields && raw.fields["StartTime"].JString?
    ensures r.Err? ==> r.error == StartTimeTypeError
    ensures r.Ok? ==> r.value.WindowsInfo? && r.value.fields.Keys == raw.fields.Keys
    ensures r.Ok? ==> r.value.fields["StartTime"] == Date(DecodeStartTime(raw.fields["StartTime"].s))
    ensures r.Ok? ==> forall k :: k in raw.fields && k != "StartTime" ==> r.value.fields[k] == Value(raw.fields[k])
  {
    if raw.JObject? && "StartTime" in raw.fields && raw.fields["StartTime"].JString? then
      var start := Date(DecodeStartTime(raw.fields["StartTime"].s));
      Ok(WindowsInfo(map k | k in raw.fields :: if k == "StartTime" then start else Value(raw.fields[k])))
    else
      Err(StartTimeTypeError)
  }

  /**
   * `getWindowsInfo`: run the query, dispose of a one-shot session once it has
   * answered, parse the answer and map the record.
   */
  function GetWindowsInfo(pid: int, runner: Option<RunnerId>, host: Host, parse: JsonParser): (r: Response)
    ensures |r.steps| >= 1 && r.steps[0] == Run(WindowsExecutor(runner), GetProcess(pid))
    ensures DisposeShell in r.steps <==> runner.None? && host(OneShotShell, GetProcess(pid)).Stdout?
    ensures forall i :: 0 < i < |r.steps| ==> r.steps[i] == DisposeShell
    ensures |r.steps| <= 2
    ensures r.result.Ok? <==>
      var reply := host(WindowsExecutor(runner), GetProcess(pid));
      && reply.Stdout?
      && parse(reply.text).Some?
      && MapWindowsInfo(parse(reply.text).value).Ok?
    ensures var reply := host(WindowsExecutor(runner), GetProcess(pid));
      reply.Rejected? ==> r.result == Err(CommandRejected(WindowsExecutor(runner), reply.reason))
    ensures var reply := host(WindowsExecutor(runner), GetProcess(pid));
      reply.Stdout? && parse(reply.text).None? ==> r.result == Err(JsonSyntaxError(reply.text))
    ensures var reply := host(WindowsExecutor(runner), GetProcess(pid));
      reply.Stdout? && parse(reply.text).Some? ==> r.result == MapWindowsInfo(parse(reply.text).value)
  {
    var via := WindowsExecutor(runner);
    var query := GetProcess(pid);
    var reply := host(via, query);
    var steps := if via == OneShotShell && reply.Stdout? then [Run(via, query), DisposeShell] else [Run(via, query)];
    match reply
    case Rejected(reason) => Response(steps, Err(CommandRejected(via, reason)))
    case Stdout(text) =>
      match parse(text)
      case None => Response(steps, Err(JsonSyntaxError(text)))
      case Some(raw) => Response(steps, MapWindowsInfo(raw))
  }

  /** A one-shot session whose invocation rejects is never disposed of. */
  lemma RejectedOneShotNotDisposed(pid: int, host: Host, parse: JsonParser)
    requires host(OneShotShell, GetProcess(pid)).Rejected?
    ensures GetWindowsInfo(pid, None, host, parse).steps == [Run(OneShotShell, GetProcess(pid))]
    ensures GetWindowsInfo(pid, None, host, parse).result
         == Err(CommandRejected(OneShotShell, host(OneShotShell, GetProcess(pid)).reason))
  {
  }

  /** A record with PowerShell's envelope around `ms` yields a result whose StartTime is that instant. */
  lemma StartTimeRoundTrip(pid: int, runner: Option<RunnerId>, host: Host, parse: JsonParser,
                           fields: map<string, Json>, ms: int)
    requires host(WindowsExecutor(runner), GetProcess(pid)).Stdout?
    requires parse(host(WindowsExecutor(runner), GetProcess(pid)).text) == Some(JObject(fields))
    requires "StartTime" in fields && fields["StartTime"] == JString(JsonDate(ms))
    requires -MaxTimeValue <= ms <= MaxTimeValue
    ensures GetWindowsInfo(pid, runner, host, parse).result.Ok?
    ensures GetWindowsInfo(pid, runner, host, parse).result.value.StartTime() == Some(At(ms))
  {
    DecodeJsonDate(ms);
  }
}
