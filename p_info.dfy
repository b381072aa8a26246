/**
 * The entry points of p-info.ts: `GetInfo` picks the Windows or the POSIX path
 * by platform, and `GetInfoChannel` creates a persistent PowerShell runner on
 * Windows, routes every query through it and closes it on `Close`. Also the
 * exact text of every command, proved injective, which ties the `Command`
 * values of the model to the strings the code builds.
 */
module PInfo {
  import opened JsText
  import opened JsNumber
  import opened Commands
  import WindowsInfo
  import PosixInfo

  /** The text of a command, as the code interpolates it: it starts with the head of its template. */
  function CommandText(c: Command): (text: string)
    ensures c.GetProcess? ==> WindowsInfo.QueryHead <= text
    ensures c.ListStartTime? ==> PosixInfo.PsHead <= text
    ensures c.DateToSeconds? ==> PosixInfo.DateHead(c.bsd) <= text
  {
    match c
    case GetProcess(pid) => WindowsInfo.WindowsQuery(pid)
    case ListStartTime(pid) => PosixInfo.PsQuery(pid)
    case DateToSeconds(bsd, start) => PosixInfo.DateCommand(bsd, start)
  }

  /** Reads a command back from its text: by its head, then the pid or the start text it carries. */
  function ParseCommand(text: string): Option<Command> {
    match PidAfter(WindowsInfo.QueryHead, text)
    case Integer(pid) => Some(GetProcess(pid))
    case NaN =>
      match PidAfter(PosixInfo.PsHead, text)
      case Integer(pid) => Some(ListStartTime(pid))
      case NaN =>
        if IsDateCommand(true, text) then Some(DateToSeconds(true, PosixInfo.DateStart(true, text)))
        else if IsDateCommand(false, text) then Some(DateToSeconds(false, PosixInfo.DateStart(false, text)))
        else None
  }

  predicate IsDateCommand(bsd: bool, text: string) {
    var head, tail := PosixInfo.DateHead(bsd), PosixInfo.DateTail(bsd);
    |head| + |tail| <= |text| && text[..|head|] == head
  }

  /** Every command is read back from its text. */
  lemma CommandTextRoundTrip(c: Command)
    ensures ParseCommand(CommandText(c)) == Some(c)
  {
    match c
    case GetProcess(pid) => WindowsInfo.QueryNamesPid(pid);
    case ListStartTime(pid) => PsRoundTrip(pid);
    case DateToSeconds(bsd, start) => DateRoundTrip(bsd, start);
  }

  lemma PsRoundTrip(pid: int)
    ensures ParseCommand(PosixInfo.PsQuery(pid)) == Some(ListStartTime(pid))
  {
    var text := PosixInfo.PsQuery(pid);
    PosixInfo.PsQueryNamesPid(pid);
    Prefix(PosixInfo.PsHead, IntToDecimal(pid) + PosixInfo.PsTail);
    NotAfterHead(WindowsInfo.QueryHead, text);
  }

  lemma DateRoundTrip(bsd: bool, start: string)
    ensures ParseCommand(PosixInfo.DateCommand(bsd, start)) == Some(DateToSeconds(bsd, start))
  {
    var text := PosixInfo.DateCommand(bsd, start);
    PosixInfo.DateCommandCarriesStart(bsd, start);
    Prefix(PosixInfo.DateHead(bsd), start + PosixInfo.DateTail(bsd));
    NotAfterHead(WindowsInfo.QueryHead, text);
    NotAfterHead(PosixInfo.PsHead, text);
    if !bsd {
      var head := PosixInfo.DateHead(true);
      if |head| <= |text| {
        assert text[..|head|][6] != head[6];
      }
    }
  }

  /** A text that starts with `a` has `a` as its prefix and its first character. */
  lemma Prefix(a: string, b: string)
    requires |a| > 0
    ensures (a + b)[..|a|] == a && (a + b)[0] == a[0]
  {
  }

  /** A text whose first character differs from a head's is not read as a pid after that head. */
  lemma NotAfterHead(head: string, text: string)
    requires |head| > 0 && |text| > 0 && head[0] != text[0]
    ensures PidAfter(head, text) == NaN
  {
    if |head| <= |text| {
      assert text[..|head|][0] != head[0];
    }
  }

  /** Different commands have different texts, so a host answering texts answers commands. */
  lemma CommandTextInjective(c1: Command, c2: Command)
    requires CommandText(c1) == CommandText(c2)
    ensures c1 == c2
  {
    CommandTextRoundTrip(c1);
    CommandTextRoundTrip(c2);
  }

  /** The platforms p-info.ts has a path for. */
  predicate IsSupported(platform: string) {
    platform == "win32" || platform == "linux" || platform == "darwin"
  }

  /**
   * `GetInfo`: the Windows path on win32 with the runner passed through, the
   * POSIX path on linux and darwin, and an error naming the platform elsewhere.
   */
  function GetInfo(platform: string, pid: int, runner: Option<RunnerId>, host: Host, parse: JsonParser): (r: Response)
    ensures r.steps == [] <==> !IsSupported(platform)
    ensures !IsSupported(platform) ==> r.result == Err(UnsupportedPlatform(platform))
    ensures platform == "win32" ==> r.steps[0] == Run(WindowsInfo.WindowsExecutor(runner), GetProcess(pid))
    ensures platform == "linux" || platform == "darwin" ==> r.steps[0] == Run(ChildProcess, ListStartTime(pid))
    ensures platform == "win32" ==> r == WindowsInfo.GetWindowsInfo(pid, runner, host, parse)
    ensures platform == "linux" || platform == "darwin" ==> r == PosixInfo.GetLinuxInfo(platform, pid, host)
  {
    if platform == "win32" then WindowsInfo.GetWindowsInfo(pid, runner, host, parse)
    else if platform == "linux" || platform == "darwin" then PosixInfo.GetLinuxInfo(platform, pid, host)
    else Response([], Err(UnsupportedPlatform(platform)))
  }

  /** An unsupported platform fails with `Unsupported platform <platform>` and runs nothing. */
  lemma UnsupportedPlatformMessage(platform: string, pid: int, runner: Option<RunnerId>, host: Host, parse: JsonParser)
    requires !IsSupported(platform)
    ensures GetInfo(platform, pid, runner, host, parse).result.Err?
    ensures GetInfo(platform, pid, runner, host, parse).result.error.Message() == "Unsupported platform " + platform
  {
  }

  /** Whether any step runs a command on the shared runner `id`. */
  predicate UsesRunner(steps: seq<Step>, id: RunnerId) {
    exists i :: 0 <= i < |steps| && steps[i].Run? && steps[i].via == SharedRunner(id)
  }

  /** The shared runner is used exactly on win32 when it is the one supplied. */
  lemma RunnerUsedIffSupplied(platform: string, pid: int, runner: Option<RunnerId>, host: Host, parse: JsonParser, id: RunnerId)
    ensures UsesRunner(GetInfo(platform, pid, runner, host, parse).steps, id) <==> platform == "win32" && runner == Some(id)
  {
    if platform == "win32" {
      var r := WindowsInfo.GetWindowsInfo(pid, runner, host, parse);
      assert GetInfo(platform, pid, runner, host, parse) == r;
      if runner == Some(id) {
        assert r.steps[0].Run? && r.steps[0].via == SharedRunner(id);
      } else {
        assert r.steps[0].via != SharedRunner(id);
      }
    } else if platform == "linux" || platform == "darwin" {
      assert GetInfo(platform, pid, runner, host, parse) == PosixInfo.GetLinuxInfo(platform, pid, host);
    }
  }

  /** On linux and darwin the runner and the JSON parser make no difference. */
  lemma PosixIgnoresRunner(platform: string, pid: int, host: Host,
                           runner1: Option<RunnerId>, parse1: JsonParser,
                           runner2: Option<RunnerId>, parse2: JsonParser)
    requires platform == "linux" || platform == "darwin"
    ensures GetInfo(platform, pid, runner1, host, parse1) == GetInfo(platform, pid, runner2, host, parse2)
  {
  }

  /** Every successful result carries a StartTime that is a `Date`, on either path. */
  lemma SuccessHasStartTime(platform: string, pid: int, runner: Option<RunnerId>, host: Host, parse: JsonParser)
    ensures var r := GetInfo(platform, pid, runner, host, parse);
      r.result.Ok? ==> r.result.value.StartTime().Some?
  {
    if platform == "win32" {
      var r := WindowsInfo.GetWindowsInfo(pid, runner, host, parse);
      assert GetInfo(platform, pid, runner, host, parse) == r;
      if r.result.Ok? {
        var reply := host(WindowsInfo.WindowsExecutor(runner), GetProcess(pid));
        var raw := parse(reply.text).value;
        assert r.result == WindowsInfo.MapWindowsInfo(raw);
        assert "StartTime" in r.result.value.fields && r.result.value.fields["StartTime"].Date?;
      }
    } else if platform == "linux" || platform == "darwin" {
      var r := PosixInfo.GetLinuxInfo(platform, pid, host);
      assert GetInfo(platform, pid, runner, host, parse) == r;
    }
  }

  /** The `Cannot find process` error is never raised: splitting the `ps` output always yields a first line. */
  lemma NeverCannotFindProcess(platform: string, pid: int, runner: Option<RunnerId>, host: Host, parse: JsonParser)
    ensures var r := GetInfo(platform, pid, runner, host, parse);
      !(r.result.Err? && r.result.error.CannotFindProcess?)
  {
  }

  /** What `GetInfoChannel` captures: the platform, and the runner it created, which exists on win32 only. */
  datatype InfoChannel = InfoChannel(platform: string, runner: Option<RunnerId>)

  /** `GetInfoChannel`: a runner over a new PowerShell session (named `created`) is created iff the platform is win32. */
  function GetInfoChannel(platform: string, created: RunnerId): (ch: InfoChannel)
    ensures ch.platform == platform
    ensures ch.runner.Some? <==> platform == "win32"
    ensures ch.runner.Some? ==> ch.runner.value == created
  {
    InfoChannel(platform, if platform == "win32" then Some(created) else None)
  }

  /**
   * A query on the channel: `GetInfo` with the captured runner. A channel that
   * holds a runner never opens, and so never disposes of, a one-shot session.
   */
  function ChannelQuery(ch: InfoChannel, pid: int, host: Host, parse: JsonParser): (r: Response)
    ensures ch.platform == "win32" ==> |r.steps| > 0 && r.steps[0] == Run(WindowsInfo.WindowsExecutor(ch.runner), GetProcess(pid))
    ensures ch.runner.Some? ==> DisposeShell !in r.steps && Run(OneShotShell, GetProcess(pid)) !in r.steps
    ensures r == GetInfo(ch.platform, pid, ch.runner, host, parse)
  {
    assert IsSupported("win32");
    GetInfo(ch.platform, pid, ch.runner, host, parse)
  }

  /** The channel's `Close`: it closes the runner if one was created, and does nothing otherwise. */
  function ChannelClose(ch: InfoChannel): (steps: seq<Step>)
    ensures steps == [] <==> ch.runner.None?
    ensures ch.runner.Some? ==> steps == [CloseRunner(ch.runner.value)]
  {
    match ch.runner
    case Some(id) => [CloseRunner(id)]
    case None => []
  }

  /**
   * On win32 every query of a channel runs on the channel's own runner and never
   * opens a one-shot session, and `Close` closes that runner; on every other
   * platform no query touches a runner and `Close` does nothing.
   */
  lemma ChannelRouting(platform: string, created: RunnerId, pid: int, host: Host, parse: JsonParser)
    ensures var ch := GetInfoChannel(platform, created);
      var r := ChannelQuery(ch, pid, host, parse);
      && (platform == "win32" ==>
            && r.steps[0] == Run(SharedRunner(created), GetProcess(pid))
            && DisposeShell !in r.steps
            && ChannelClose(ch) == [CloseRunner(created)])
      && (platform != "win32" ==>
            && (forall id: RunnerId :: !UsesRunner(r.steps, id))
            && ChannelClose(ch) == [])
  {
    var ch := GetInfoChannel(platform, created);
    forall id: RunnerId ensures UsesRunner(ChannelQuery(ch, pid, host, parse).steps, id) <==> platform == "win32" && ch.runner == Some(id) {
      RunnerUsedIffSupplied(platform, pid, ch.runner, host, parse, id);
    }
  }
}
