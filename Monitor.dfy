/** The manager of the system resource monitor used by the tests
    (org.kurento.test.monitor.SystemMonitorManager): whether the media server
    is remote, where it is, the one-line commands sent to the remote monitor,
    and the startup probe. */
module Monitor {
  import opened Wrappers
  import opened Strings

  /** The media server is remote iff its ws URI mentions neither "localhost"
      nor "127.0.0.1". */
  function IsKmsRemote(wsUri: string): (r: bool)
    ensures r <==> (forall j :: !OccursAt(wsUri, "localhost", j)) && (forall j :: !OccursAt(wsUri, "127.0.0.1", j))
  {
    !Contains(wsUri, "localhost") && !Contains(wsUri, "127.0.0.1")
  }

  /** Where `substring` starts: just after the first "//", or at 1 when there
      is none (`indexOf` gives -1). */
  ghost predicate HostStart(u: string, b: int) {
    || (b == 1 && forall j :: !OccursAt(u, "//", j))
    || (2 <= b && OccursAt(u, "//", b - 2) && forall j :: 0 <= j < b - 2 ==> !OccursAt(u, "//", j))
  }

  /** Where `substring` ends: at the last ':', or at -1 when there is none. */
  ghost predicate HostEnd(u: string, e: int) {
    || (e == -1 && ':' !in u)
    || (0 <= e < |u| && u[e] == ':' && ':' !in u[e + 1..])
  }

  /** `wsUri.substring(wsUri.indexOf("//") + 2, wsUri.lastIndexOf(":"))`;
      None where `substring` throws, that is where the last ':' comes before
      the start (or there is no ':' at all). */
  function RemoteHost(wsUri: string): (r: Option<string>)
    ensures forall b, e :: HostStart(wsUri, b) && HostEnd(wsUri, e) ==>
      (r.Some? <==> b <= e) && (r.Some? ==> r.value == wsUri[b..e])
  {
    HostBoundsAre(wsUri);
    var begin := IndexOf(wsUri, "//") + 2;
    var end := LastIndexOf(wsUri, ":");
    if 0 <= begin <= end <= |wsUri| then Some(wsUri[begin..end]) else None
  }

  /** The start and the end of the slice are what `indexOf` and `lastIndexOf`
      give. */
  lemma HostBoundsAre(u: string)
    ensures forall b :: HostStart(u, b) ==> b == IndexOf(u, "//") + 2
    ensures forall e :: HostEnd(u, e) ==> e == LastIndexOf(u, ":")
  {
    forall b | HostStart(u, b) ensures b == IndexOf(u, "//") + 2 {
      if b != 1 || exists j :: OccursAt(u, "//", j) {
        IndexOfIs(u, "//", b - 2);
      }
    }
    forall e | HostEnd(u, e) ensures e == LastIndexOf(u, ":") {
      if e == -1 {
        forall j ensures !OccursAt(u, ":", j) {
          OccursAtChar(u, ':', j);
          if 0 <= j < |u| {
            assert u[j] in u;
          }
        }
      } else {
        LastColon(u, e);
      }
    }
  }

  /** Every URI has a slice start and a slice end, so the contract of
      `RemoteHost` always applies. */
  lemma HostBoundsExist(u: string)
    ensures HostStart(u, IndexOf(u, "//") + 2) && HostEnd(u, LastIndexOf(u, ":"))
  {
    HostStartExists(u);
    HostEndExists(u);
  }

  lemma HostStartExists(u: string)
    ensures HostStart(u, IndexOf(u, "//") + 2)
  {
    var k := IndexOf(u, "//");
    if k != -1 {
      assert OccursAt(u, "//", k);
      assert forall j :: 0 <= j < k ==> !OccursAt(u, "//", j);
    }
  }

  lemma HostEndExists(u: string)
    ensures HostEnd(u, LastIndexOf(u, ":"))
  {
    var e := LastIndexOf(u, ":");
    forall j | e < j < |u| ensures u[j] != ':' {
      OccursAtChar(u, ':', j);
    }
    if e != -1 {
      OccursAtChar(u, ':', e);
      var tail := u[e + 1..];
      forall k | 0 <= k < |tail| ensures tail[k] != ':' {
        assert tail[k] == u[e + 1 + k];
      }
    }
  }

  /** In `scheme//rest` with no '/' in the scheme, the first "//" is the
      one after the scheme. */
  lemma FirstDoubleSlash(scheme: string, rest: string)
    requires '/' !in scheme
    ensures IndexOf(scheme + "//" + rest, "//") == |scheme|
  {
    var u := scheme + "//" + rest;
    assert u[|scheme|..|scheme| + 2] == "//";
    forall j | 0 <= j < |scheme| ensures !OccursAt(u, "//", j) {
      if OccursAt(u, "//", j) {
        OccursAtHead(u, "//", j);
      }
    }
    IndexOfIs(u, "//", |scheme|);
  }

  /** A ':' with none after it is the last one. */
  lemma LastColon(u: string, m: int)
    requires 0 <= m < |u| && u[m] == ':' && ':' !in u[m + 1..]
    ensures LastIndexOf(u, ":") == m
  {
    OccursAtChar(u, ':', m);
    forall j | m < j ensures !OccursAt(u, ":", j) {
      OccursAtChar(u, ':', j);
      if j < |u| {
        assert u[m + 1..][j - m - 1] == u[j];
      }
    }
    LastIndexOfIs(u, ":", m);
  }

  /** For a URI `scheme//host:rest` whose scheme has no '/' and whose rest has
      no ':', the host is exactly what lies between "//" and the last ':'. */
  lemma RemoteHostOf(scheme: string, host: string, rest: string)
    requires '/' !in scheme && ':' !in rest
    ensures RemoteHost(scheme + "//" + host + ":" + rest) == Some(host)
  {
    var tail := host + ":" + rest;
    var u := scheme + "//" + host + ":" + rest;
    assert u == scheme + "//" + tail;
    FirstDoubleSlash(scheme, tail);
    var m := |scheme| + 2 + |host|;
    assert u[m] == ':';
    assert u[m + 1..] == rest;
    LastColon(u, m);
    assert u[|scheme| + 2..m] == host;
  }

  /** Without a port (no ':' after "//"), the host cannot be sliced out and the
      manager's constructor fails. */
  lemma RemoteHostNeedsPort(scheme: string, rest: string)
    requires '/' !in scheme && ':' !in rest
    ensures RemoteHost(scheme + "//" + rest) == None
  {
    var u := scheme + "//" + rest;
    var k := |scheme|;
    FirstDoubleSlash(scheme, rest);
    var l := LastIndexOf(u, ":");
    if l >= k + 2 {
      OccursAtChar(u, ':', l);
    } else if l >= k {
      OccursAtChar(u, ':', l);
    }
  }

  /** What the manager asks of a system monitor, remote or local. */
  datatype Request =
    | Start
    | Stop
    | WriteResults(path: string)
    | IncrementNumClients
    | DecrementNumClients
    | AddCurrentLatency(latency: int)
    | IncrementLatencyErrors
    | SetSamplingTime(samplingTime: int)
    | Destroy

  /** A command word: characters from 'A' up only, so it holds no space and
      no line break (both sort below 'A'). */
  type Word = s: string | forall i :: 0 <= i < |s| ==> s[i] >= 'A' witness ""

  const StartWord: Word := "start"
  const StopWord: Word := "stop"
  const WriteResultsWord: Word := "writeResults"
  const IncrementNumClientsWord: Word := "incrementNumClients"
  const DecrementNumClientsWord: Word := "decrementNumClients"
  const AddCurrentLatencyWord: Word := "addCurrentLatency"
  const IncrementLatencyErrorsWord: Word := "incrementLatencyErrors"
  const SetSamplingTimeWord: Word := "setSamplingTime"
  const DestroyWord: Word := "destroy"

  /** The command word of a request. */
  function Name(r: Request): Word {
    match r
    case Start => StartWord
    case Stop => StopWord
    case WriteResults(_) => WriteResultsWord
    case IncrementNumClients => IncrementNumClientsWord
    case DecrementNumClients => DecrementNumClientsWord
    case AddCurrentLatency(_) => AddCurrentLatencyWord
    case IncrementLatencyErrors => IncrementLatencyErrorsWord
    case SetSamplingTime(_) => SetSamplingTimeWord
    case Destroy => DestroyWord
  }

  /** The argument of a request that takes one, as text. */
  function Argument(r: Request): Option<string> {
    match r
    case WriteResults(path) => Some(path)
    case AddCurrentLatency(n) => Some(Decimal(n))
    case SetSamplingTime(n) => Some(Decimal(n))
    case _ => None
  }

  /** The line `sendMessage` writes for a request: its command word, then, for
      a request with an argument, one space and the argument. */
  function Line(r: Request): (l: string)
    ensures Name(r) <= l
    ensures ' ' in l <==> Argument(r).Some?
    ensures Argument(r).Some? ==> l[|Name(r)|] == ' ' && l[|Name(r)| + 1..] == Argument(r).value
  {
    WordIsPlain(Name(r));
    match Argument(r)
    case None => Name(r)
    case Some(a) => Name(r) + " " + a
  }

  /** How the line protocol is read: the command word up to the first space,
      the argument after it. */
  function ParseLine(line: string): Option<Request> {
    var k := IndexOf(line, " ");
    if k == -1 then
      if line == StartWord then Some(Start)
      else if line == StopWord then Some(Stop)
      else if line == IncrementNumClientsWord then Some(IncrementNumClients)
      else if line == DecrementNumClientsWord then Some(DecrementNumClients)
      else if line == IncrementLatencyErrorsWord then Some(IncrementLatencyErrors)
      else if line == DestroyWord then Some(Destroy)
      else None
    else
      var name, arg := line[..k], line[k + 1..];
      if name == WriteResultsWord then Some(WriteResults(arg))
      else if name == AddCurrentLatencyWord then
        match ParseDecimal(arg)
        case None => None
        case Some(n) => Some(AddCurrentLatency(n))
      else if name == SetSamplingTimeWord then
        match ParseDecimal(arg)
        case None => None
        case Some(n) => Some(SetSamplingTime(n))
      else None
  }

  predicate HasLineBreak(s: string) {
    '\n' in s || '\r' in s
  }

  /** A command word holds neither a space nor a line break. */
  lemma WordIsPlain(w: Word)
    ensures ' ' !in w && !HasLineBreak(w)
  {
  }

  /** A line with an argument reads back as its command word and argument. */
  lemma SplitLine(name: string, a: string)
    requires ' ' !in name
    ensures var line := name + " " + a;
      IndexOf(line, " ") == |name| && line[..|name|] == name && line[|name| + 1..] == a
  {
    FirstSpace(name, a);
    var line := name + " " + a;
    assert line[..|name|] == name;
    assert line[|name| + 1..] == a;
  }

  /** Every line reads back as the request it was written for, so different
      requests never produce the same line. */
  lemma LineRoundTrip(r: Request)
    ensures ParseLine(Line(r)) == Some(r)
  {
    WordIsPlain(Name(r));
    match r
    case WriteResults(path) =>
      SplitLine(WriteResultsWord, path);
    case AddCurrentLatency(n) =>
      SplitLine(AddCurrentLatencyWord, Decimal(n));
      DecimalRoundTrip(n);
    case SetSamplingTime(n) =>
      SplitLine(SetSamplingTimeWord, Decimal(n));
      DecimalRoundTrip(n);
    case _ =>
      NoSpace(Name(r));
  }

  lemma LineBreakConcat(a: string, b: string)
    ensures HasLineBreak(a + b) <==> HasLineBreak(a) || HasLineBreak(b)
  {
    if HasLineBreak(a + b) {
      var i :| 0 <= i < |a + b| && (a + b)[i] in "\n\r";
      if i >= |a| {
        assert b[i - |a|] == (a + b)[i];
      }
    }
  }

  lemma DecimalHasNoLineBreak(n: int)
    ensures !HasLineBreak(Decimal(n))
  {
  }

  /** A request is sent as exactly one line: the line holds no line break
      unless the path given to `writeResults` does. */
  lemma LineIsOneLine(r: Request)
    ensures HasLineBreak(Line(r)) <==> r.WriteResults? && HasLineBreak(r.path)
  {
    var name := Name(r);
    WordIsPlain(name);
    match Argument(r)
    case None =>
    case Some(a) =>
      LineBreakConcat(name + " ", a);
      LineBreakConcat(name, " ");
      if r.AddCurrentLatency? {
        DecimalHasNoLineBreak(r.latency);
      } else if r.SetSamplingTime? {
        DecimalHasNoLineBreak(r.samplingTime);
      }
  }

  /** The connection attempts of the startup probe. */
  const MaxAttempts: nat := 600

  /** What `new Socket(host, port)` does on one attempt: connects, throws
      ConnectException (retried after 100 ms), or throws another IOException
      (which escapes the probe). */
  datatype Attempt = Connected | Refused | Failed

  datatype ProbeResult =
    | Available(attempts: nat)
    | NotAvailable
    | ProbeFailed(attempts: nat)

  /** Attempt `k` is the first one that is not refused, and its outcome is `a`. */
  ghost predicate FirstOutcome(connect: nat -> Attempt, k: nat, a: Attempt) {
    k < MaxAttempts && connect(k) == a && forall j :: 0 <= j < k ==> connect(j) == Refused
  }

  /** The first attempt that is not refused is unique. */
  lemma FirstOutcomeUnique(connect: nat -> Attempt, k: nat, a: Attempt)
    requires a != Refused && FirstOutcome(connect, k, a)
    ensures forall k2: nat, a2 :: FirstOutcome(connect, k2, a2) && a2 != Refused ==> k2 == k && a2 == a
  {
  }

  /** The wait in `startRemoteKms` for the remote monitor's socket. `connect(i)`
      is the outcome of attempt `i`. */
  method Probe(connect: nat -> Attempt) returns (r: ProbeResult)
    ensures r.Available? ==>
      1 <= r.attempts <= MaxAttempts && connect(r.attempts - 1) == Connected
      && forall j :: 0 <= j < r.attempts - 1 ==> connect(j) == Refused
    ensures r.ProbeFailed? ==>
      1 <= r.attempts <= MaxAttempts && connect(r.attempts - 1) == Failed
      && forall j :: 0 <= j < r.attempts - 1 ==> connect(j) == Refused
    ensures r.NotAvailable? <==> forall j :: 0 <= j < MaxAttempts ==> connect(j) == Refused
    ensures r.Available? <==> exists k :: FirstOutcome(connect, k, Connected)
    ensures r.ProbeFailed? <==> exists k :: FirstOutcome(connect, k, Failed)
  {
    var i := 0;
    while i < MaxAttempts
      invariant 0 <= i <= MaxAttempts
      invariant forall j :: 0 <= j < i ==> connect(j) == Refused
    {
      var outcome := connect(i);
      if outcome == Connected {
        break;
      } else if outcome == Failed {
        assert FirstOutcome(connect, i, Failed);
        FirstOutcomeUnique(connect, i, Failed);
        return ProbeFailed(i + 1);
      }
      i := i + 1;
    }
    if i == MaxAttempts {
      return NotAvailable;
    }
    assert FirstOutcome(connect, i, Connected);
    FirstOutcomeUnique(connect, i, Connected);
    return Available(i + 1);
  }

  /** The shell command that starts the remote monitor from the copied classes. */
  function StartMonitorCommand(tmpFolder: string, monitorPort: int): (c: string)
    ensures exists port ::
              && ParseDecimal(port) == Some(monitorPort)
              && c == "java -cp " + tmpFolder + " org.kurento.test.monitor.SystemMonitor " + port
                      + " > " + tmpFolder + "/monitor.log 2>&1"
  {
    DecimalRoundTrip(monitorPort);
    "java -cp " + tmpFolder + " org.kurento.test.monitor.SystemMonitor " + Decimal(monitorPort)
    + " > " + tmpFolder + "/monitor.log 2>&1"
  }

  /** The SSH connection to a remote media server. */
  datatype RemoteKms = RemoteKms(host: string, tmpFolder: string)

  /** What the manager does over the SSH connection. */
  datatype SshAction =
    | Exec(command: seq<string>)
    | GetFile(localPath: string, remoteFolder: string)
    | Disconnect

  /** A call on the local SystemMonitor. */
  datatype LocalCall = Call(request: Request) | AddJs

  /** Why the constructor throws. */
  datatype SetupError = HostNotSliceable | MonitorNotAvailable | MonitorConnectFailed

  class SystemMonitorManager {
    /** The SSH connection; None when the media server is local. */
    const remoteKms: Option<RemoteKms>
    const monitorPort: int
    /** Lines sent to the remote monitor, in order. */
    var sent: seq<string>
    /** Actions on the SSH connection, in order. */
    var ssh: seq<SshAction>
    /** Calls on the local monitor, in order. */
    var local: seq<LocalCall>

    constructor (remoteKms: Option<RemoteKms>, monitorPort: int, ssh: seq<SshAction>, monitorRate: int)
      ensures this.remoteKms == remoteKms && this.monitorPort == monitorPort
      ensures sent == [] && this.ssh == ssh && local == [Call(Request.SetSamplingTime(monitorRate))]
    {
      this.remoteKms := remoteKms;
      this.monitorPort := monitorPort;
      sent := [];
      this.ssh := ssh;
      local := [Call(Request.SetSamplingTime(monitorRate))];
    }

    /** The public constructor. For a remote server it slices the host out of
        the ws URI, starts the monitor over SSH and probes its socket; the
        local monitor is always created and given the sampling rate.
        `tmpFolder` is the folder `createTmpFolder` made on the server, and
        `issued` what was done over SSH, whether or not construction
        succeeds (on failure the connection is left open). */
    static method Create(wsUri: string, monitorPort: int, monitorRate: int, tmpFolder: string, connect: nat -> Attempt)
      returns (r: Result<SystemMonitorManager, SetupError>, issued: seq<SshAction>)
      ensures !IsKmsRemote(wsUri) ==>
        r.Ok? && r.value.remoteKms == None && issued == []
      ensures IsKmsRemote(wsUri) && RemoteHost(wsUri).None? ==>
        r == Err(HostNotSliceable) && issued == []
      ensures IsKmsRemote(wsUri) && RemoteHost(wsUri).Some? ==>
        && issued == [Exec(["sh", "-c", StartMonitorCommand(tmpFolder, monitorPort)])]
        && r != Err(HostNotSliceable)
        && (r.Ok? <==> exists k :: FirstOutcome(connect, k, Connected))
        && (r == Err(MonitorConnectFailed) <==> exists k :: FirstOutcome(connect, k, Failed))
        && (r == Err(MonitorNotAvailable) <==> forall j :: 0 <= j < MaxAttempts ==> connect(j) == Refused)
        && (r.Ok? ==> r.value.remoteKms == Some(RemoteKms(RemoteHost(wsUri).value, tmpFolder)))
      ensures r.Ok? ==>
        fresh(r.value) && r.value.monitorPort == monitorPort && r.value.ssh == issued
        && r.value.sent == [] && r.value.local == [Call(Request.SetSamplingTime(monitorRate))]
    {
      if !IsKmsRemote(wsUri) {
        var m := new SystemMonitorManager(None, monitorPort, [], monitorRate);
        return Ok(m), [];
      }
      var host := RemoteHost(wsUri);
      if host.None? {
        return Err(HostNotSliceable), [];
      }
      issued := [Exec(["sh", "-c", StartMonitorCommand(tmpFolder, monitorPort)])];
      var probe := Probe(connect);
      match probe {
        case NotAvailable =>
          return Err(MonitorNotAvailable), issued;
        case ProbeFailed(_) =>
          return Err(MonitorConnectFailed), issued;
        case Available(_) =>
      }
      var m := new SystemMonitorManager(Some(RemoteKms(host.value, tmpFolder)), monitorPort, issued, monitorRate);
      r := Ok(m);
    }

    /** Remote: the request's line is sent; local: the local monitor is called. */
    ghost predicate Dispatched(oldSent: seq<string>, oldLocal: seq<LocalCall>, r: Request, call: LocalCall)
      reads this
    {
      if remoteKms.Some? then sent == oldSent + [Line(r)] && local == oldLocal
      else sent == oldSent && local == oldLocal + [call]
    }

    /** `sendMessage`: one line to the remote monitor. */
    method SendMessage(line: string)
      modifies this
      ensures sent == old(sent) + [line] && ssh == old(ssh) && local == old(local)
    {
      sent := sent + [line];
    }

    method Start()
      modifies this
      ensures Dispatched(old(sent), old(local), Request.Start, Call(Request.Start)) && ssh == old(ssh)
    {
      if remoteKms.Some? {
        SendMessage(Line(Request.Start));
      } else {
        local := local + [Call(Request.Start)];
      }
    }

    /** Remote: the monitor is told to write into the SSH temporary folder and
        that folder's results file is fetched into `csvFile`. */
    method WriteResults(csvFile: string)
      modifies this
      ensures remoteKms.Some? ==>
        sent == old(sent) + [Line(Request.WriteResults(remoteKms.value.tmpFolder))] && local == old(local)
        && ssh == old(ssh) + [GetFile(csvFile, remoteKms.value.tmpFolder)]
      ensures remoteKms.None? ==>
        sent == old(sent) && local == old(local) + [Call(Request.WriteResults(csvFile))] && ssh == old(ssh)
    {
      if remoteKms.Some? {
        SendMessage(Line(Request.WriteResults(remoteKms.value.tmpFolder)));
        ssh := ssh + [GetFile(csvFile, remoteKms.value.tmpFolder)];
      } else {
        local := local + [Call(Request.WriteResults(csvFile))];
      }
    }

    method Stop()
      modifies this
      ensures Dispatched(old(sent), old(local), Request.Stop, Call(Request.Stop)) && ssh == old(ssh)
    {
      if remoteKms.Some? {
        SendMessage(Line(Request.Stop));
      } else {
        local := local + [Call(Request.Stop)];
      }
    }

    method IncrementNumClients()
      modifies this
      ensures Dispatched(old(sent), old(local), Request.IncrementNumClients, Call(Request.IncrementNumClients)) && ssh == old(ssh)
    {
      if remoteKms.Some? {
        SendMessage(Line(Request.IncrementNumClients));
      } else {
        local := local + [Call(Request.IncrementNumClients)];
      }
    }

    method DecrementNumClients()
      modifies this
      ensures Dispatched(old(sent), old(local), Request.DecrementNumClients, Call(Request.DecrementNumClients)) && ssh == old(ssh)
    {
      if remoteKms.Some? {
        SendMessage(Line(Request.DecrementNumClients));
      } else {
        local := local + [Call(Request.DecrementNumClients)];
      }
    }

    method AddCurrentLatency(latency: int)
      modifies this
      ensures Dispatched(old(sent), old(local), Request.AddCurrentLatency(latency), Call(Request.AddCurrentLatency(latency)))
      ensures ssh == old(ssh)
    {
      if remoteKms.Some? {
        SendMessage(Line(Request.AddCurrentLatency(latency)));
      } else {
        local := local + [Call(Request.AddCurrentLatency(latency))];
      }
    }

    method IncrementLatencyErrors()
      modifies this
      ensures Dispatched(old(sent), old(local), Request.IncrementLatencyErrors, Call(Request.IncrementLatencyErrors)) && ssh == old(ssh)
    {
      if remoteKms.Some? {
        SendMessage(Line(Request.IncrementLatencyErrors));
      } else {
        local := local + [Call(Request.IncrementLatencyErrors)];
      }
    }

    method SetSamplingTime(samplingTime: int)
      modifies this
      ensures Dispatched(old(sent), old(local), Request.SetSamplingTime(samplingTime), Call(Request.SetSamplingTime(samplingTime)))
      ensures ssh == old(ssh)
    {
      if remoteKms.Some? {
        SendMessage(Line(Request.SetSamplingTime(samplingTime)));
      } else {
        local := local + [Call(Request.SetSamplingTime(samplingTime))];
      }
    }

    /** Remote: "destroy" is sent and the SSH connection stopped; local: nothing. */
    method Destroy()
      modifies this
      ensures remoteKms.Some? ==>
        sent == old(sent) + [Line(Request.Destroy)] && ssh == old(ssh) + [Disconnect] && local == old(local)
      ensures remoteKms.None? ==> sent == old(sent) && ssh == old(ssh) && local == old(local)
    {
      if remoteKms.Some? {
        SendMessage(Line(Request.Destroy));
        ssh := ssh + [Disconnect];
      }
    }

    /** RTC statistics go to the local monitor even when the server is remote. */
    method AddJs()
      modifies this
      ensures local == old(local) + [LocalCall.AddJs] && sent == old(sent) && ssh == old(ssh)
    {
      local := local + [LocalCall.AddJs];
    }
  }
}
