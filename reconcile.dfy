/** The pure part of `Manager` in internal/service/manager.go: which records a
    pass keeps, the errors it reports, and the outcome of the reload signaler.
    The file system, the JSON decoder and the operating system are given as
    outcomes of each step rather than performed. */
module Reconcile {
  import opened Outcomes
  import opened ServiceModel
  import opened GoFmt
  import opened NginxConfig

  /** A record is kept iff name, host, path and protocol are non-empty and the
      port is not 0, that is, iff none of its five fields holds its zero value.
      Negative ports pass, and the path is not required to begin with '/'. */
  predicate IsValid(s: Service): (valid: bool)
    ensures valid <==> forall f: Field :: !HoldsZeroValue(s, f)
  {
    assert s.name == "" || s.host == "" || s.port == 0 || s.path == "" || s.protocol == "" <==>
           HoldsZeroValue(s, Name) || HoldsZeroValue(s, Host) || HoldsZeroValue(s, Port)
           || HoldsZeroValue(s, Path) || HoldsZeroValue(s, Protocol);
    !(s.name == "" || s.host == "" || s.port == 0 || s.path == "" || s.protocol == "")
  }

  /** The filter admits a negative port and a path without a leading '/'. */
  lemma ValidityIsLax()
    ensures IsValid(Service("svc", "10.0.0.1", -1, "a", "http"))
    ensures !IsValid(Service("svc", "10.0.0.1", 0, "/a", "http"))
  {
  }

  /** What happened to one enumerated file: it could not be read, its trimmed
      content did not decode as a record, or it decoded to `service`. */
  datatype FileOutcome = ReadFailed | ParseFailed | Parsed(service: Service)

  predicate IsAccepted(f: FileOutcome) {
    f.Parsed? && IsValid(f.service)
  }

  /** The records a pass keeps from the files enumerated so far: the valid
      ones, in enumeration order. */
  function Accepted(files: seq<FileOutcome>): (ss: seq<Service>)
    ensures |ss| <= |files|
    ensures forall s :: s in ss ==> IsValid(s)
  {
    if files == [] then []
    else
      var last := files[|files| - 1];
      Accepted(files[..|files| - 1]) + (if IsAccepted(last) then [last.service] else [])
  }

  /** A file's outcome does not depend on the files before it: the records of
      two runs of files are those of the first run followed by those of the second. */
  lemma {:induction false} AcceptedAppend(a: seq<FileOutcome>, b: seq<FileOutcome>)
    ensures Accepted(a + b) == Accepted(a) + Accepted(b)
  {
    if b == [] {
      assert a + b == a;
    } else {
      var ab := a + b;
      assert ab[..|ab| - 1] == a + b[..|b| - 1];
      AcceptedAppend(a, b[..|b| - 1]);
    }
  }

  /** A record is in the set iff it is valid and some enumerated file decoded to it. */
  lemma {:induction false} AcceptedMembers(files: seq<FileOutcome>, s: Service)
    ensures s in Accepted(files) <==> IsValid(s) && exists i :: 0 <= i < |files| && files[i] == Parsed(s)
  {
    if IsValid(s) && files != [] {
      var n := |files| - 1;
      var init := files[..n];
      AcceptedMembers(init, s);
      var last := if IsAccepted(files[n]) then [files[n].service] else [];
      assert Accepted(files) == Accepted(init) + last;
      assert s in last <==> files[n] == Parsed(s);
      if exists i :: 0 <= i < |init| && init[i] == Parsed(s) {
        var i :| 0 <= i < |init| && init[i] == Parsed(s);
        assert files[i] == Parsed(s);
      }
      if exists i :: 0 <= i < |files| && files[i] == Parsed(s) {
        var i :| 0 <= i < |files| && files[i] == Parsed(s);
        if i < n { assert init[i] == Parsed(s); }
      }
    }
  }

  /** The positions, in enumeration order, of the files whose record is kept. */
  function AcceptedPositions(files: seq<FileOutcome>): seq<nat> {
    if files == [] then []
    else AcceptedPositions(files[..|files| - 1]) + (if IsAccepted(files[|files| - 1]) then [|files| - 1] else [])
  }

  /** The set is exactly the records of the valid files, one per file, in the
      order the files were enumerated: position k of the set holds the record
      of the k-th accepted file, the positions increase, and every file not
      among them was unreadable, undecodable or invalid. */
  lemma {:induction false} AcceptedInOrder(files: seq<FileOutcome>)
    ensures var pos := AcceptedPositions(files);
            && |pos| == |Accepted(files)|
            && (forall k :: 0 <= k < |pos| ==> pos[k] < |files| && files[pos[k]] == Parsed(Accepted(files)[k]))
            && (forall k, l :: 0 <= k < l < |pos| ==> pos[k] < pos[l])
            && (forall i :: 0 <= i < |files| ==> (i in pos <==> IsAccepted(files[i])))
  {
    if files != [] {
      var n := |files| - 1;
      var init := files[..n];
      AcceptedInOrder(init);
      var pos, ipos := AcceptedPositions(files), AcceptedPositions(init);
      var ss, iss := Accepted(files), Accepted(init);
      var kept := IsAccepted(files[n]);
      assert pos == ipos + (if kept then [n] else []);
      assert ss == iss + (if kept then [files[n].service] else []);
      forall k | 0 <= k < |pos|
        ensures pos[k] < |files| && files[pos[k]] == Parsed(ss[k])
      {
        if k < |ipos| {
          assert pos[k] == ipos[k] && ss[k] == iss[k];
          assert files[ipos[k]] == init[ipos[k]];
        }
      }
      forall k, l | 0 <= k < l < |pos|
        ensures pos[k] < pos[l]
      {
        if l == |ipos| {
          assert pos[k] == ipos[k] < n;
        }
      }
      forall i | 0 <= i < |files|
        ensures i in pos <==> IsAccepted(files[i])
      {
        if i < n {
          assert files[i] == init[i];
          assert i in pos <==> i in ipos;
        }
      }
    }
  }

  /** The errors a pass reports. `GenerateFailed` wraps the error of config
      generation, as "failed to generate nginx config: %w" does. */
  datatype Error =
    | ListFilesFailed
    | CreateConfigFailed
    | ExecuteTemplateFailed
    | ReadPidFailed
    | ParsePidFailed
    | FindProcessFailed
    | SignalFailed
    | GenerateFailed(cause: Error)

  /** The reload signaler: read the PID file (`None` when reading fails),
      parse the PID, find the process, deliver SIGHUP. The first stage that
      fails decides the error; on success the result is the signalled PID. */
  function Reload(pidFile: Option<string>, processFound: bool, signalDelivered: bool): (r: Result<int, Error>)
    ensures r.Success? ==> pidFile.Some? && ScanInt(pidFile.value) == Some(r.value) && processFound && signalDelivered
    ensures r.Failure? ==> r.error in {ReadPidFailed, ParsePidFailed, FindProcessFailed, SignalFailed}
  {
    match pidFile
    case None => Failure(ReadPidFailed)
    case Some(text) =>
      match ScanInt(text)
      case None => Failure(ParsePidFailed)
      case Some(pid) =>
        if !processFound then Failure(FindProcessFailed)
        else if !signalDelivered then Failure(SignalFailed)
        else Success(pid)
  }

  /** Reload succeeds iff all four stages succeed, and then it signals the PID
      the file holds. Otherwise the first failing stage names the error,
      whatever the outcomes of the stages after it. */
  lemma ReloadStages(pidFile: Option<string>, processFound: bool, signalDelivered: bool)
    ensures var r := Reload(pidFile, processFound, signalDelivered);
            && (r.Success? <==> pidFile.Some? && ScanInt(pidFile.value).Some? && processFound && signalDelivered)
            && (r.Success? ==> r.value == ScanInt(pidFile.value).value)
            && (pidFile.None? ==> r == Failure(ReadPidFailed))
            && (pidFile.Some? && ScanInt(pidFile.value).None? ==> r == Failure(ParsePidFailed))
            && (pidFile.Some? && ScanInt(pidFile.value).Some? && !processFound ==> r == Failure(FindProcessFailed))
            && (pidFile.Some? && ScanInt(pidFile.value).Some? && processFound && !signalDelivered ==>
                  r == Failure(SignalFailed))
  {
  }

  /** A PID file holding a PID as nginx writes it (the number and a newline)
      lets the reload reach the process with that PID. */
  lemma ReloadSignalsWrittenPid(pid: int)
    requires 0 < pid <= MaxInt
    ensures Reload(Some(IntToDecimal(pid) + "\n"), true, true) == Success(pid)
  {
    ScanPrintedInt(pid, "\n");
  }

  /** No valid file means an empty set. */
  lemma {:induction false} NoValidFileKeepsNothing(files: seq<FileOutcome>)
    requires forall i :: 0 <= i < |files| ==> !IsAccepted(files[i])
    ensures Accepted(files) == []
  {
    if files != [] {
      NoValidFileKeepsNothing(files[..|files| - 1]);
    }
  }

  /** No valid file (no file at all included) renders the bare frame. */
  lemma NoValidFileRendersFrame(files: seq<FileOutcome>)
    requires forall i :: 0 <= i < |files| ==> !IsAccepted(files[i])
    ensures Render(ServiceConfig(Accepted(files))) == Frame("", "")
  {
    NoValidFileKeepsNothing(files);
  }

  /** How writing the configuration ended: the file could not be created, the
      template execution failed after `written` characters, or all was written. */
  datatype WriteOutcome = CreateFailed | ExecuteFailed(written: nat) | Written

  /** Directory listing (`filepath.Glob`): an error, or the outcomes of the matched files in order. */
  datatype GlobOutcome = GlobFailed | Matched(files: seq<FileOutcome>)

  /** The outcomes of the I/O a reconciliation pass performs, in the order it performs it. */
  datatype World = World(
    glob: GlobOutcome,
    write: WriteOutcome,
    pidFile: Option<string>,
    processFound: bool,
    signalDelivered: bool)

  /** The state of the file at the configuration path, as this reconciler
      leaves it: not yet touched, holding the complete rendering of a service
      set, or truncated by a write that failed after `written` characters. */
  datatype ConfigFile = Untouched | Complete(config: ServiceConfig) | Partial(config: ServiceConfig, written: nat)

  /** The file after writing the rendering of `config`. */
  function ConfigFileAfter(before: ConfigFile, config: ServiceConfig, write: WriteOutcome): ConfigFile {
    match write
    case CreateFailed => before
    case ExecuteFailed(n) => Partial(config, n)
    case Written => Complete(config)
  }

  /** The first `n` characters of `text`, or all of it when it is shorter. */
  function Truncate(text: string, n: nat): string {
    text[..if n < |text| then n else |text|]
  }

  /** What a write that stops after `n` characters leaves: a prefix of the
      text, no longer than `n`, and empty when nothing was written. */
  lemma TruncateIsPrefix(text: string, n: nat)
    ensures Truncate(text, n) <= text && |Truncate(text, n)| <= n
    ensures n == 0 ==> Truncate(text, n) == ""
    ensures n >= |text| ==> Truncate(text, n) == text
  {
  }

  /** The text of the file; `None` for content this reconciler has not written. */
  function FileText(file: ConfigFile): Option<string> {
    match file
    case Untouched => None
    case Complete(config) => Some(Render(config))
    case Partial(config, n) => Some(Truncate(Render(config), n))
  }

  /** Only a failure to create the file leaves its previous content in place.
      Creating the file truncates it, so a failed execution leaves the
      rendering cut after the characters written (by `TruncateIsPrefix`, an
      empty file when nothing was written, not the previous configuration);
      a complete write leaves exactly the rendering. */
  lemma ConfigFileAfterWrite(before: ConfigFile, config: ServiceConfig, write: WriteOutcome)
    ensures var after := FileText(ConfigFileAfter(before, config, write));
            && (write.CreateFailed? ==> after == FileText(before))
            && (write.ExecuteFailed? ==> after == Some(Truncate(Render(config), write.written)))
            && (write.Written? ==> after == Some(Render(config)))
  {
  }

  /** The PIDs a configuration generation delivers SIGHUP to: the reload runs
      only once the whole configuration has been written. */
  function Signalled(world: World): seq<int> {
    if world.write.Written? then
      match Reload(world.pidFile, world.processFound, world.signalDelivered)
      case Success(pid) => [pid]
      case Failure(_) => []
    else []
  }

  /** The error of `generateConfig`: that of creating or executing, else the
      reload's error, returned unwrapped. */
  function GenerateError(world: World): (err: Option<Error>)
    ensures err.None? <==> world.write.Written? && Reload(world.pidFile, world.processFound, world.signalDelivered).Success?
    ensures world.write.CreateFailed? ==> err == Some(CreateConfigFailed)
    ensures world.write.ExecuteFailed? ==> err == Some(ExecuteTemplateFailed)
    ensures var r := Reload(world.pidFile, world.processFound, world.signalDelivered);
            world.write.Written? && r.Failure? ==> err == Some(r.error)
  {
    match world.write
    case CreateFailed => Some(CreateConfigFailed)
    case ExecuteFailed(_) => Some(ExecuteTemplateFailed)
    case Written =>
      match Reload(world.pidFile, world.processFound, world.signalDelivered)
      case Success(_) => None
      case Failure(e) => Some(e)
  }

  /** The error of a whole pass. With no matched file the generation error is
      returned as it is; with at least one it is wrapped. */
  function PassError(world: World): (err: Option<Error>)
    ensures err.None? <==> world.glob.Matched? && GenerateError(world).None?
    ensures err.Some? && err.value.GenerateFailed? ==> GenerateError(world) == Some(err.value.cause)
  {
    match world.glob
    case GlobFailed => Some(ListFilesFailed)
    case Matched(files) =>
      var e := GenerateError(world);
      if |files| == 0 || e.None? then e else Some(GenerateFailed(e.value))
  }

  /** A pass reports success iff the directory was listed, the whole
      configuration was written and nginx was signalled. A listing error is
      reported as such; with no matched file a generation error is reported as
      it is, with at least one it is wrapped. */
  lemma PassErrorCases(world: World)
    ensures PassError(world).None? <==> world.glob.Matched? && world.write.Written?
                                        && Reload(world.pidFile, world.processFound, world.signalDelivered).Success?
    ensures PassError(world).None? <==> world.glob.Matched? && |Signalled(world)| == 1
    ensures world.glob.GlobFailed? ==> PassError(world) == Some(ListFilesFailed)
    ensures world.glob.Matched? && |world.glob.files| == 0 ==> PassError(world) == GenerateError(world)
    ensures world.glob.Matched? && |world.glob.files| > 0 && PassError(world).Some? ==>
              PassError(world) == Some(GenerateFailed(GenerateError(world).value))
  {
  }
}
