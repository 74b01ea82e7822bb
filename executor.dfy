/** `process_device` of src/run-python-script.py: one device's copy / run / fetch-manifest /
    fetch-artifacts workflow. Every external command is answered by an oracle; the state of the local
    manifest file after its fetch is an input. */
module RemoteExecutor {
  import opened PyText
  import opened PyValues
  import opened Notable
  import opened Selection

  /** An argument vector, as handed to `subprocess.run`. */
  type Cmd = seq<string>

  /** What `run_cmd` returns: the exit code and the captured stdout and stderr. */
  datatype Reply = Reply(rc: int, out: string, err: string)

  /** The remote side: the reply to a command, given the commands this device issued before it. */
  type Oracle = (seq<Cmd>, Cmd) -> Reply

  /** The local manifest file once its fetch returned: missing, decoded, or the text of the
      exception that reading or decoding it raised. */
  datatype ManifestFile = Absent | Decoded(content: Value) | Undecodable(error: string)

  /** Everything outside the script that one device's run depends on. */
  datatype Remote = Remote(run: Oracle, manifest: ManifestFile)

  /** What `process_device` returns, together with the commands it issued, in order. */
  datatype Outcome = Outcome(msg: string, ok: bool, issued: seq<Cmd>)

  /** The artifact list a manifest names, or the text of the exception validating it raised. */
  datatype Files = Paths(paths: seq<Value>) | Invalid(error: string)

  /** Logs, success flag and issued commands while artifacts are fetched. */
  datatype Progress = Progress(logs: seq<string>, ok: bool, issued: seq<Cmd>)

  const SkipMessage: string := "Skipping device without host or id."
  const RemoteScript: string := "/tmp/run-script.py"
  const RemoteManifest: string := "/tmp/script_outputs.json"

  /** `Path(dir) / name` for a normalised `dir` and a one-segment `name`. */
  function JoinPath(dir: string, name: string): string {
    if name == "" || name == "." then dir
    else if dir != [] && dir[|dir| - 1] == '/' then dir + name
    else dir + "/" + name
  }

  function Scp(src: string, dst: string): Cmd {
    ["scp", "-o", "BatchMode=yes", src, dst]
  }

  function CopyScript(host: string, scriptPath: string): Cmd {
    Scp(scriptPath, host + ":" + RemoteScript)
  }

  function RunScript(host: string): Cmd {
    ["ssh", "-o", "BatchMode=yes", host, "python3 " + RemoteScript]
  }

  /** The manifest goes to a local file named after the device in the temporary directory, which
      every worker shares: two devices of the same name write the same file. */
  function FetchManifest(host: string, tmpDir: string, name: string): Cmd {
    Scp(host + ":" + RemoteManifest, JoinPath(tmpDir, "script_outputs_" + name + ".json"))
  }

  /** Each artifact lands in the destination directory under its base name. */
  function FetchArtifact(host: string, destDir: string, path: string): Cmd {
    Scp(host + ":" + path, JoinPath(destDir, Basename(path)))
  }

  /** `collect_notable(out, err)` for one reply. */
  function Diagnostics(r: Reply): seq<string> {
    Notables(AllLines([r.out, r.err]))
  }

  /** The `try` block of lines 77-85: `files` becomes a list of paths or the manifest is invalid. */
  function ManifestPaths(m: ManifestFile): (r: Files)
    requires !m.Absent?
    ensures m.Undecodable? ==> r == Invalid(m.error)
    ensures m.Decoded? && !m.content.PyDict? ==>
              r == Invalid("'" + TypeName(m.content) + "' object has no attribute 'get'")
    ensures m.Decoded? && m.content.PyDict? ==>
              var f := Field(m.content.entries, "files");
              (!Truthy(f) ==> r == Paths([])) &&
              (Truthy(f) && f.PyStr? ==> r == Paths([f])) &&
              (Truthy(f) && f.PyList? ==> r == Paths(f.items)) &&
              (Truthy(f) && !f.PyStr? && !f.PyList? ==> r == Invalid("files is not a list or string"))
  {
    match m
    case Undecodable(e) => Invalid(e)
    case Decoded(v) =>
      if !v.PyDict? then Invalid("'" + TypeName(v) + "' object has no attribute 'get'")
      else
        var files := Or(Field(v.entries, "files"), PyList([]));
        if files.PyStr? then Paths([files])
        else if files.PyList? then Paths(files.items)
        else Invalid("files is not a list or string")
  }

  /** The messages of the four early returns and the line logged for a failed artifact fetch. */
  function CopyFailed(name: string, host: string): string {
    name + ": failed to copy script to " + host
  }

  function RunFailed(name: string, host: string): string {
    name + ": failed to execute script on " + host
  }

  function ManifestMissing(name: string, host: string): string {
    name + ": failed to retrieve /tmp/script_outputs.json from " + host
  }

  function ManifestInvalid(name: string, host: string, error: string): string {
    name + ": invalid manifest from " + host + ": " + error
  }

  function FetchFailure(name: string, path: string, host: string): string {
    name + ": failed to retrieve " + path + " from " + host
  }

  /** One artifact fetch: its diagnostics are logged, then a failure line when it failed. */
  function Fetch(path: string, host: string, name: string, destDir: string, run: Oracle, p: Progress)
    : (q: Progress)
    ensures q.issued == p.issued + [FetchArtifact(host, destDir, path)]
    ensures q.ok <==> p.ok && run(p.issued, FetchArtifact(host, destDir, path)).rc == 0
  {
    var c := FetchArtifact(host, destDir, path);
    var r := run(p.issued, c);
    var failed := if r.rc != 0 then [FetchFailure(name, path, host)] else [];
    Progress(p.logs + Diagnostics(r) + failed, p.ok && r.rc == 0, p.issued + [c])
  }

  /** One path of the manifest's list: an empty one is skipped, any other is fetched. */
  function Visit(path: string, host: string, name: string, destDir: string, run: Oracle, p: Progress): Progress {
    if path == "" then p else Fetch(path, host, name, destDir, run, p)
  }

  /** `str(path)` of every element of the manifest's list. */
  function Texts(vs: seq<Value>): (r: seq<string>)
    ensures |r| == |vs| && forall i :: 0 <= i < |vs| ==> r[i] == Text(vs[i])
  {
    seq(|vs|, i requires 0 <= i < |vs| => Text(vs[i]))
  }

  /** The artifact loop of lines 91-103 over the rendered paths, from progress `p` on; a failed
      fetch does not stop it. */
  function FetchAll(paths: seq<string>, host: string, name: string, destDir: string, run: Oracle,
                    p: Progress): Progress
    decreases |paths|
  {
    if paths == [] then p
    else FetchAll(paths[1..], host, name, destDir, run, Visit(paths[0], host, name, destDir, run, p))
  }

  /** The returned message: the logs joined by newlines, or `done` when there are none. */
  function Message(logs: seq<string>): string {
    if logs == [] then "done" else Join("\n", logs)
  }

  /** The address a device is reached at and the name it is reported under. */
  function HostText(device: Dict): string {
    Text(Target(device))
  }

  function NameText(device: Dict): string {
    Text(Or(Field(device, "id"), Target(device)))
  }

  /** `process_device` as a function of the device and its remote side: a device without an address
      is skipped, any other runs the workflow. */
  function Process(device: Dict, dataDir: string, scriptPath: string, tmpDir: string, remote: Remote)
    : Outcome
  {
    if !Truthy(Target(device)) then Outcome(SkipMessage, false, [])
    else Workflow(HostText(device), NameText(device), dataDir, scriptPath, tmpDir, remote)
  }

  /** The three setup commands, in order. */
  function SetupCmds(host: string, name: string, scriptPath: string, tmpDir: string): seq<Cmd> {
    [CopyScript(host, scriptPath), RunScript(host), FetchManifest(host, tmpDir, name)]
  }

  /** The workflow for a device reached at `host` and reported as `name`, one stage per step. */
  function Workflow(host: string, name: string, dataDir: string, scriptPath: string, tmpDir: string,
                    remote: Remote): Outcome
  {
    var cs := SetupCmds(host, name, scriptPath, tmpDir);
    var r1 := remote.run([], cs[0]);
    if r1.rc != 0 then Outcome(CopyFailed(name, host), false, cs[..1])
    else AfterCopy(host, name, dataDir, cs, remote, Diagnostics(r1))
  }

  /** Past a successful copy: the remote run. */
  function AfterCopy(host: string, name: string, dataDir: string, cs: seq<Cmd>, remote: Remote,
                     logs: seq<string>): Outcome
    requires |cs| == 3
  {
    var r2 := remote.run(cs[..1], cs[1]);
    if r2.rc != 0 then Outcome(RunFailed(name, host), false, cs[..2])
    else AfterRun(host, name, dataDir, cs, remote, logs + Diagnostics(r2))
  }

  /** Past a successful run: the manifest fetch and its validation. */
  function AfterRun(host: string, name: string, dataDir: string, cs: seq<Cmd>, remote: Remote,
                    logs: seq<string>): Outcome
    requires |cs| == 3
  {
    var r3 := remote.run(cs[..2], cs[2]);
    if r3.rc != 0 || remote.manifest.Absent? then Outcome(ManifestMissing(name, host), false, cs)
    else
      match ManifestPaths(remote.manifest)
      case Invalid(e) => Outcome(ManifestInvalid(name, host, e), false, cs)
      case Paths(paths) =>
        Artifacts(Texts(paths), host, name, dataDir, remote.run, Progress(logs + Diagnostics(r3), true, cs))
  }

  /** The artifact loop and the returned message. */
  function Artifacts(paths: seq<string>, host: string, name: string, dataDir: string, run: Oracle,
                     start: Progress): Outcome
  {
    var p := FetchAll(paths, host, name, JoinPath(dataDir, "images"), run, start);
    Outcome(Message(p.logs), p.ok, p.issued)
  }

  /** `process_device(device, data_dir, script_path)`. */
  method ProcessDevice(device: Dict, dataDir: string, scriptPath: string, tmpDir: string, remote: Remote)
    returns (outcome: Outcome)
    requires TextOrNone(device, "id") && TextOrNone(device, "host")
    ensures outcome == Process(device, dataDir, scriptPath, tmpDir, remote)
  {
    var deviceId := Field(device, "id");
    var hostValue := Target(device);
    if !Truthy(hostValue) {
      return Outcome(SkipMessage, false, []);
    }
    var host := hostValue.s;
    var name := Text(Or(deviceId, hostValue));
    outcome := RunWorkflow(host, name, dataDir, scriptPath, tmpDir, remote);
  }

  /** The body of `process_device` past the address check: the script copy. */
  method RunWorkflow(host: string, name: string, dataDir: string, scriptPath: string, tmpDir: string,
                     remote: Remote)
    returns (outcome: Outcome)
    ensures outcome == Workflow(host, name, dataDir, scriptPath, tmpDir, remote)
  {
    ghost var cs := SetupCmds(host, name, scriptPath, tmpDir);
    var cmd := CopyScript(host, scriptPath);
    var reply := remote.run([], cmd);
    var logs := Diagnose(reply);
    if reply.rc != 0 {
      assert [cmd] == cs[..1];
      return Outcome(CopyFailed(name, host), false, [cmd]);
    }
    outcome := RunStage(host, name, dataDir, tmpDir, cs, remote, [cmd], logs);
  }

  /** The remote run, once the copy succeeded. */
  method RunStage(host: string, name: string, dataDir: string, tmpDir: string, ghost cs: seq<Cmd>,
                  remote: Remote, issued: seq<Cmd>, logs: seq<string>)
    returns (outcome: Outcome)
    requires |cs| == 3 && issued == cs[..1] && cs[1] == RunScript(host)
    requires cs[2] == FetchManifest(host, tmpDir, name)
    ensures outcome == AfterCopy(host, name, dataDir, cs, remote, logs)
  {
    var cmd := RunScript(host);
    var reply := remote.run(issued, cmd);
    var now := issued + [cmd];
    var notable := Diagnose(reply);
    if reply.rc != 0 {
      assert now == cs[..2];
      return Outcome(RunFailed(name, host), false, now);
    }
    assert now == cs[..2];
    outcome := ManifestStage(host, name, dataDir, tmpDir, cs, remote, now, logs + notable);
  }

  /** The manifest fetch, its validation and the artifact loop, once the run succeeded. */
  method ManifestStage(host: string, name: string, dataDir: string, tmpDir: string, ghost cs: seq<Cmd>,
                       remote: Remote, issued: seq<Cmd>, logs: seq<string>)
    returns (outcome: Outcome)
    requires |cs| == 3 && issued == cs[..2] && cs[2] == FetchManifest(host, tmpDir, name)
    ensures outcome == AfterRun(host, name, dataDir, cs, remote, logs)
  {
    var cmd := FetchManifest(host, tmpDir, name);
    var reply := remote.run(issued, cmd);
    var now := issued + [cmd];
    var notable := Diagnose(reply);
    assert now == cs;
    if reply.rc != 0 || remote.manifest.Absent? {
      return Outcome(ManifestMissing(name, host), false, now);
    }
    var files: seq<Value>;
    match ManifestPaths(remote.manifest) {
      case Invalid(e) =>
        return Outcome(ManifestInvalid(name, host, e), false, now);
      case Paths(ps) =>
        files := ps;
    }
    var p := FetchArtifacts(files, host, name, JoinPath(dataDir, "images"), remote.run,
                            Progress(logs + notable, true, now));
    if p.logs != [] {
      outcome := Outcome(Join("\n", p.logs), p.ok, p.issued);
    } else {
      outcome := Outcome("done", p.ok, p.issued);
    }
  }

  /** `collect_notable(out, err)` on one reply. */
  method Diagnose(r: Reply) returns (notable: seq<string>)
    ensures notable == Diagnostics(r)
  {
    notable := CollectNotable([r.out, r.err]);
  }

  /** The artifact loop, one path at a time. */
  method FetchArtifacts(files: seq<Value>, host: string, name: string, destDir: string, run: Oracle,
                        start: Progress)
    returns (p: Progress)
    ensures p == FetchAll(Texts(files), host, name, destDir, run, start)
  {
    var logs, success, issued := start.logs, start.ok, start.issued;
    ghost var paths := Texts(files);
    var i := 0;
    while i < |files|
      invariant 0 <= i <= |files|
      invariant FetchAll(paths[i..], host, name, destDir, run, Progress(logs, success, issued))
             == FetchAll(paths, host, name, destDir, run, start)
    {
      ghost var before := Progress(logs, success, issued);
      FetchAllStep(paths, i, host, name, destDir, run, before);
      var pathStr := Text(files[i]);
      if pathStr != "" {
        var cmd := FetchArtifact(host, destDir, pathStr);
        var reply := run(issued, cmd);
        issued := issued + [cmd];
        var notable := Diagnose(reply);
        logs := logs + notable;
        if reply.rc != 0 {
          logs := logs + [FetchFailure(name, pathStr, host)];
          success := false;
        }
        assert Progress(logs, success, issued) == Fetch(pathStr, host, name, destDir, run, before);
      }
      assert Progress(logs, success, issued) == Visit(paths[i], host, name, destDir, run, before);
      i := i + 1;
    }
    p := Progress(logs, success, issued);
  }

  /** One turn of the artifact loop. */
  lemma FetchAllStep(paths: seq<string>, i: nat, host: string, name: string, destDir: string, run: Oracle,
                     p: Progress)
    requires i < |paths|
    ensures FetchAll(paths[i..], host, name, destDir, run, p)
         == FetchAll(paths[i + 1..], host, name, destDir, run, Visit(paths[i], host, name, destDir, run, p))
  {
    assert paths[i..][0] == paths[i] && paths[i..][1..] == paths[i + 1..];
  }

  // ---------------------------------------------------------------------------------------------
  // The workflow's promises

  /** A device with neither host nor id is skipped without a command; any other device issues at
      least the script copy. */
  lemma SkipsExactlyAddresslessDevices(device: Dict, dataDir: string, scriptPath: string, tmpDir: string,
                                       remote: Remote)
    ensures var o := Process(device, dataDir, scriptPath, tmpDir, remote);
            (o.issued == []) <==> !Truthy(Field(device, "host")) && !Truthy(Field(device, "id"))
    ensures var o := Process(device, dataDir, scriptPath, tmpDir, remote);
            o.issued == [] ==> o == Outcome(SkipMessage, false, [])
  {
    if Truthy(Target(device)) {
      var host, name := HostText(device), NameText(device);
      var o := Workflow(host, name, dataDir, scriptPath, tmpDir, remote);
      WorkflowStartsWithCopy(host, name, dataDir, scriptPath, tmpDir, remote);
    }
  }

  /** Every workflow issues the script copy first. */
  lemma WorkflowStartsWithCopy(host: string, name: string, dataDir: string, scriptPath: string, tmpDir: string,
                               remote: Remote)
    ensures var o := Workflow(host, name, dataDir, scriptPath, tmpDir, remote);
            o.issued != [] && o.issued[0] == CopyScript(host, scriptPath)
  {
    var cs := SetupCmds(host, name, scriptPath, tmpDir);
    if Setup(host, name, scriptPath, tmpDir, remote) {
      ArtifactPhaseIs(host, name, dataDir, scriptPath, tmpDir, remote);
      var start := Progress(SetupLogs(host, name, scriptPath, tmpDir, remote), true, cs);
      FetchKeepsIssued(Texts(ManifestPaths(remote.manifest).paths), host, name, JoinPath(dataDir, "images"),
                       remote.run, start);
    }
  }

  /** A failed script copy ends the run: one command issued, a fixed message, failure. */
  lemma CopyFailureStops(host: string, name: string, dataDir: string, scriptPath: string, tmpDir: string,
                         remote: Remote)
    requires remote.run([], CopyScript(host, scriptPath)).rc != 0
    ensures Workflow(host, name, dataDir, scriptPath, tmpDir, remote)
         == Outcome(name + ": failed to copy script to " + host, false, [CopyScript(host, scriptPath)])
  {
  }

  /** A failed remote run ends the run after the copy and the run: fixed message, failure. */
  lemma RunFailureStops(host: string, name: string, dataDir: string, scriptPath: string, tmpDir: string,
                        remote: Remote)
    requires remote.run([], CopyScript(host, scriptPath)).rc == 0
    requires remote.run([CopyScript(host, scriptPath)], RunScript(host)).rc != 0
    ensures Workflow(host, name, dataDir, scriptPath, tmpDir, remote)
         == Outcome(name + ": failed to execute script on " + host, false, [CopyScript(host, scriptPath), RunScript(host)])
  {
    var cs := SetupCmds(host, name, scriptPath, tmpDir);
    assert cs[..1] == [cs[0]] && cs[..2] == [cs[0], cs[1]];
  }

  /** Copy and run succeeded. */
  predicate Ran(host: string, name: string, scriptPath: string, tmpDir: string, remote: Remote) {
    var cs := SetupCmds(host, name, scriptPath, tmpDir);
    remote.run([], cs[0]).rc == 0 && remote.run(cs[..1], cs[1]).rc == 0
  }

  /** Copy, run and manifest fetch succeeded and the manifest validated. */
  predicate Setup(host: string, name: string, scriptPath: string, tmpDir: string, remote: Remote) {
    var cs := SetupCmds(host, name, scriptPath, tmpDir);
    Ran(host, name, scriptPath, tmpDir, remote) && remote.run(cs[..2], cs[2]).rc == 0
    && !remote.manifest.Absent? && ManifestPaths(remote.manifest).Paths?
  }

  /** A manifest fetch that fails, or leaves no local file, ends the run before any artifact fetch. */
  lemma ManifestFailureStops(host: string, name: string, dataDir: string, scriptPath: string, tmpDir: string,
                             remote: Remote)
    requires Ran(host, name, scriptPath, tmpDir, remote)
    requires var cs := SetupCmds(host, name, scriptPath, tmpDir);
             remote.run(cs[..2], cs[2]).rc != 0 || remote.manifest.Absent?
    ensures Workflow(host, name, dataDir, scriptPath, tmpDir, remote)
         == Outcome(ManifestMissing(name, host), false, SetupCmds(host, name, scriptPath, tmpDir))
  {
  }

  /** An invalid manifest ends the run after three commands, naming the validation error. */
  lemma InvalidManifestStops(host: string, name: string, dataDir: string, scriptPath: string, tmpDir: string,
                             remote: Remote)
    requires Ran(host, name, scriptPath, tmpDir, remote)
    requires var cs := SetupCmds(host, name, scriptPath, tmpDir); remote.run(cs[..2], cs[2]).rc == 0
    requires !remote.manifest.Absent? && ManifestPaths(remote.manifest).Invalid?
    ensures Workflow(host, name, dataDir, scriptPath, tmpDir, remote)
         == Outcome(name + ": invalid manifest from " + host + ": " + ManifestPaths(remote.manifest).error, false,
                    SetupCmds(host, name, scriptPath, tmpDir))
  {
  }

  /** The non-empty paths of a list, in order. */
  function NonEmptyPaths(paths: seq<string>): seq<string>
  {
    if paths == [] then []
    else (if paths[0] == "" then [] else [paths[0]]) + NonEmptyPaths(paths[1..])
  }

  /** The artifact commands for a list of paths, in order. */
  function FetchCmds(host: string, destDir: string, paths: seq<string>): (r: seq<Cmd>)
    ensures |r| == |paths|
  {
    if paths == [] then [] else [FetchArtifact(host, destDir, paths[0])] + FetchCmds(host, destDir, paths[1..])
  }

  /** The artifact loop keeps what came before and fetches every non-empty path, in list order,
      whatever the earlier fetches returned. */
  lemma {:induction false} FetchKeepsIssued(paths: seq<string>, host: string, name: string, destDir: string,
                                            run: Oracle, p: Progress)
    ensures FetchAll(paths, host, name, destDir, run, p).issued
         == p.issued + FetchCmds(host, destDir, NonEmptyPaths(paths))
    decreases |paths|
  {
    if paths != [] {
      var q := Visit(paths[0], host, name, destDir, run, p);
      assert FetchAll(paths, host, name, destDir, run, p) == FetchAll(paths[1..], host, name, destDir, run, q);
      FetchKeepsIssued(paths[1..], host, name, destDir, run, q);
      var rest := FetchCmds(host, destDir, NonEmptyPaths(paths[1..]));
      if paths[0] != "" {
        var c := FetchArtifact(host, destDir, paths[0]);
        assert NonEmptyPaths(paths) == [paths[0]] + NonEmptyPaths(paths[1..]);
        assert FetchCmds(host, destDir, NonEmptyPaths(paths)) == [c] + rest;
        assert q.issued == p.issued + [c];
        assert (p.issued + [c]) + rest == p.issued + ([c] + rest);
      } else {
        assert NonEmptyPaths(paths) == NonEmptyPaths(paths[1..]);
      }
    }
  }

  /** The reply the oracle gave to the `k`-th command of a history. */
  function ReplyAt(run: Oracle, issued: seq<Cmd>, k: nat): Reply
    requires k < |issued|
  {
    run(issued[..k], issued[k])
  }

  /** Every fetch from position `from` on returned 0. */
  predicate AllSucceeded(run: Oracle, issued: seq<Cmd>, from: nat) {
    forall k :: from <= k < |issued| ==> ReplyAt(run, issued, k).rc == 0
  }

  /** The loop's flag stays set exactly when it was set and every artifact fetch succeeded. */
  lemma {:induction false} FetchSuccess(paths: seq<string>, host: string, name: string, destDir: string,
                                        run: Oracle, p: Progress)
    ensures var q := FetchAll(paths, host, name, destDir, run, p);
            q.ok <==> p.ok && AllSucceeded(run, q.issued, |p.issued|)
    decreases |paths|
  {
    if paths != [] {
      var p' := Visit(paths[0], host, name, destDir, run, p);
      var q := FetchAll(paths, host, name, destDir, run, p);
      FetchSuccess(paths[1..], host, name, destDir, run, p');
      FetchKeepsIssued(paths[1..], host, name, destDir, run, p');
      if paths[0] != "" {
        var n := |p.issued|;
        assert q.issued[..n + 1] == p'.issued;
        assert q.issued[..n] == p.issued && q.issued[n] == p'.issued[n];
        assert AllSucceeded(run, q.issued, n) <==>
               ReplyAt(run, q.issued, n).rc == 0 && AllSucceeded(run, q.issued, n + 1);
      }
    } else {
      assert AllSucceeded(run, p.issued, |p.issued|);
    }
  }

  /** One fetch keeps the earlier logs and, when it fails, ends them with its failure line. */
  lemma FetchLogs(path: string, host: string, name: string, destDir: string, run: Oracle, p: Progress)
    ensures var q := Fetch(path, host, name, destDir, run, p);
            p.logs <= q.logs &&
            (run(p.issued, FetchArtifact(host, destDir, path)).rc != 0 ==>
               q.logs != [] && q.logs[|q.logs| - 1] == FetchFailure(name, path, host))
  {
  }

  /** The artifact loop only appends to the logs. */
  lemma {:induction false} FetchKeepsLogs(paths: seq<string>, host: string, name: string, destDir: string,
                                          run: Oracle, p: Progress)
    ensures p.logs <= FetchAll(paths, host, name, destDir, run, p).logs
    decreases |paths|
  {
    if paths != [] {
      var p' := Visit(paths[0], host, name, destDir, run, p);
      FetchKeepsLogs(paths[1..], host, name, destDir, run, p');
      if paths[0] != "" {
        FetchLogs(paths[0], host, name, destDir, run, p);
      }
    }
  }

  /** The `j`-th fetched path failed and its failure line is missing from `logs`. */
  predicate Unlogged(run: Oracle, issued: seq<Cmd>, from: nat, ps: seq<string>, logs: seq<string>,
                     name: string, host: string, j: int) {
    0 <= j < |ps| && from + j < |issued| && ReplyAt(run, issued, from + j).rc != 0
    && FetchFailure(name, ps[j], host) !in logs
  }

  /** Every failed artifact fetch leaves a log line naming its path. */
  lemma {:induction false} FetchFailuresLogged(paths: seq<string>, host: string, name: string, destDir: string,
                                               run: Oracle, p: Progress, j: int)
    ensures var q := FetchAll(paths, host, name, destDir, run, p);
            !Unlogged(run, q.issued, |p.issued|, NonEmptyPaths(paths), q.logs, name, host, j)
    decreases |paths|
  {
    if paths != [] {
      var p' := Visit(paths[0], host, name, destDir, run, p);
      var q := FetchAll(paths, host, name, destDir, run, p);
      assert q == FetchAll(paths[1..], host, name, destDir, run, p');
      var ps := NonEmptyPaths(paths);
      if paths[0] == "" {
        assert ps == NonEmptyPaths(paths[1..]);
        FetchFailuresLogged(paths[1..], host, name, destDir, run, p, j);
      } else {
        var path := paths[0];
        var n := |p.issued|;
        assert ps == [path] + NonEmptyPaths(paths[1..]);
        if j == 0 {
          FetchKeepsIssued(paths[1..], host, name, destDir, run, p');
          FetchKeepsLogs(paths[1..], host, name, destDir, run, p');
          FetchLogs(path, host, name, destDir, run, p);
          assert q.issued[..n] == p.issued && q.issued[n] == p'.issued[n];
          if ReplyAt(run, q.issued, n).rc != 0 {
            assert q.logs[|p'.logs| - 1] == p'.logs[|p'.logs| - 1];
          }
        } else {
          FetchFailuresLogged(paths[1..], host, name, destDir, run, p', j - 1);
          assert n + j == |p'.issued| + (j - 1);
          assert 0 < j < |ps| ==> ps[j] == NonEmptyPaths(paths[1..])[j - 1];
        }
      }
    }
  }

  /** No log line is empty or the word `done`. */
  predicate CleanLogs(logs: seq<string>) {
    forall l :: l in logs ==> l != [] && l != "done"
  }

  lemma DiagnosticsClean(r: Reply)
    ensures CleanLogs(Diagnostics(r))
  {
    forall x | x in Diagnostics(r) ensures x != [] && x != "done" {
      NotablesMembers(AllLines([r.out, r.err]), x);
      var l :| l in AllLines([r.out, r.err]) && IsNotable(l) && Strip(l) == x;
      StrippedNotable(l);
    }
  }

  /** The loop keeps logs clean, and once the flag is cleared a log line explains why. */
  lemma {:induction false} FetchExplainsFailure(paths: seq<string>, host: string, name: string, destDir: string,
                                                run: Oracle, p: Progress)
    requires CleanLogs(p.logs) && (!p.ok ==> p.logs != [])
    ensures var q := FetchAll(paths, host, name, destDir, run, p);
            CleanLogs(q.logs) && (!q.ok ==> q.logs != [])
    decreases |paths|
  {
    if paths != [] {
      var path := paths[0];
      if path != "" {
        var r := run(p.issued, FetchArtifact(host, destDir, path));
        DiagnosticsClean(r);
        assert |FetchFailure(name, path, host)| > 4;
      }
      FetchExplainsFailure(paths[1..], host, name, destDir, run, Visit(paths[0], host, name, destDir, run, p));
    }
  }

  /** Joining two or more lines puts a newline into the message. */
  lemma {:induction false} JoinHasNewline(parts: seq<string>)
    requires |parts| >= 2
    ensures '\n' in Join("\n", parts)
  {
    var j := Join("\n", parts);
    assert j == parts[0] + "\n" + Join("\n", parts[1..]);
    assert j[|parts[0]|] == '\n';
  }

  /** The message is `done` exactly when nothing was logged, and it is never empty. */
  lemma MessageDone(logs: seq<string>)
    requires CleanLogs(logs)
    ensures Message(logs) == "done" <==> logs == []
    ensures Message(logs) != []
  {
    if |logs| >= 2 {
      JoinHasNewline(logs);
      assert '\n' !in "done";
      assert Join("\n", logs) == logs[0] + "\n" + Join("\n", logs[1..]);
      assert logs[0] in logs;
    } else if |logs| == 1 {
      assert logs[0] in logs;
    }
  }

  /** The logs the artifact phase starts from. */
  function SetupLogs(host: string, name: string, scriptPath: string, tmpDir: string, remote: Remote)
    : seq<string>
  {
    var cs := SetupCmds(host, name, scriptPath, tmpDir);
    Diagnostics(remote.run([], cs[0])) + Diagnostics(remote.run(cs[..1], cs[1]))
      + Diagnostics(remote.run(cs[..2], cs[2]))
  }

  lemma SetupLogsClean(host: string, name: string, scriptPath: string, tmpDir: string, remote: Remote)
    ensures CleanLogs(SetupLogs(host, name, scriptPath, tmpDir, remote))
  {
    var cs := SetupCmds(host, name, scriptPath, tmpDir);
    DiagnosticsClean(remote.run([], cs[0]));
    DiagnosticsClean(remote.run(cs[..1], cs[1]));
    DiagnosticsClean(remote.run(cs[..2], cs[2]));
  }

  /** When the manifest validates, the run is the artifact loop from the setup's logs and commands. */
  lemma ArtifactPhaseIs(host: string, name: string, dataDir: string, scriptPath: string, tmpDir: string,
                        remote: Remote)
    requires Setup(host, name, scriptPath, tmpDir, remote)
    ensures var q := FetchAll(Texts(ManifestPaths(remote.manifest).paths), host, name,
                              JoinPath(dataDir, "images"), remote.run,
                              Progress(SetupLogs(host, name, scriptPath, tmpDir, remote), true,
                                       SetupCmds(host, name, scriptPath, tmpDir)));
            Workflow(host, name, dataDir, scriptPath, tmpDir, remote) == Outcome(Message(q.logs), q.ok, q.issued)
  {
  }

  /** A failed run always carries a message worth showing: never empty, never `done`; a run reported
      as `done` was a success. */
  lemma FailureIsReported(device: Dict, dataDir: string, scriptPath: string, tmpDir: string, remote: Remote)
    ensures var o := Process(device, dataDir, scriptPath, tmpDir, remote);
            o.msg != [] && (!o.ok ==> o.msg != "done")
  {
    if Truthy(Target(device)) {
      var host, name := HostText(device), NameText(device);
      if Setup(host, name, scriptPath, tmpDir, remote) {
        ArtifactPhaseReported(host, name, dataDir, scriptPath, tmpDir, remote);
      } else {
        EarlyStopReported(host, name, dataDir, scriptPath, tmpDir, remote);
      }
    }
  }

  lemma EarlyStopReported(host: string, name: string, dataDir: string, scriptPath: string, tmpDir: string,
                          remote: Remote)
    requires !Setup(host, name, scriptPath, tmpDir, remote)
    ensures var o := Workflow(host, name, dataDir, scriptPath, tmpDir, remote);
            |o.msg| > 4 && !o.ok
  {
    assert |CopyFailed(name, host)| > 4 && |RunFailed(name, host)| > 4 && |ManifestMissing(name, host)| > 4;
    assert forall e :: |ManifestInvalid(name, host, e)| > 4;
  }

  lemma ArtifactPhaseReported(host: string, name: string, dataDir: string, scriptPath: string, tmpDir: string,
                              remote: Remote)
    requires Setup(host, name, scriptPath, tmpDir, remote)
    ensures var o := Workflow(host, name, dataDir, scriptPath, tmpDir, remote);
            o.msg != [] && (!o.ok ==> o.msg != "done")
  {
    var cs := SetupCmds(host, name, scriptPath, tmpDir);
    ArtifactPhaseIs(host, name, dataDir, scriptPath, tmpDir, remote);
    SetupLogsClean(host, name, scriptPath, tmpDir, remote);
    var start := Progress(SetupLogs(host, name, scriptPath, tmpDir, remote), true, cs);
    var paths := Texts(ManifestPaths(remote.manifest).paths);
    var q := FetchAll(paths, host, name, JoinPath(dataDir, "images"), remote.run, start);
    FetchExplainsFailure(paths, host, name, JoinPath(dataDir, "images"), remote.run, start);
    MessageDone(q.logs);
  }

  /** Once the manifest validates, the issued commands are the three setup steps then one fetch per
      non-empty path, in list order; the run succeeds exactly when every artifact fetch returned 0;
      and the message names every failed fetch. */
  lemma ArtifactPhase(host: string, name: string, dataDir: string, scriptPath: string, tmpDir: string,
                      remote: Remote)
    requires Setup(host, name, scriptPath, tmpDir, remote)
    ensures var o := Workflow(host, name, dataDir, scriptPath, tmpDir, remote);
            var ps := NonEmptyPaths(Texts(ManifestPaths(remote.manifest).paths));
            o.issued == SetupCmds(host, name, scriptPath, tmpDir) + FetchCmds(host, JoinPath(dataDir, "images"), ps)
            && (o.ok <==> AllSucceeded(remote.run, o.issued, 3))
            && forall j :: 0 <= j < |ps| && ReplyAt(remote.run, o.issued, 3 + j).rc != 0 ==>
                 Contains(o.msg, FetchFailure(name, ps[j], host))
  {
    var paths := Texts(ManifestPaths(remote.manifest).paths);
    var destDir := JoinPath(dataDir, "images");
    var start := Progress(SetupLogs(host, name, scriptPath, tmpDir, remote), true, SetupCmds(host, name, scriptPath, tmpDir));
    ArtifactPhaseIs(host, name, dataDir, scriptPath, tmpDir, remote);
    FetchKeepsIssued(paths, host, name, destDir, remote.run, start);
    FetchSuccess(paths, host, name, destDir, remote.run, start);
    var q := FetchAll(paths, host, name, destDir, remote.run, start);
    var ps := NonEmptyPaths(paths);
    forall j | 0 <= j < |ps| && ReplyAt(remote.run, q.issued, 3 + j).rc != 0
      ensures Contains(Message(q.logs), FetchFailure(name, ps[j], host))
    {
      FetchFailuresLogged(paths, host, name, destDir, remote.run, start, j);
      JoinContains(q.logs, FetchFailure(name, ps[j], host));
    }
  }
}
