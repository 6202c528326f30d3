// What an agent reports back about a build: `onBuildSuccess` (storing
// the output files, completion bookkeeping, freeing the agent, pruning
// old build folders) and `onBuildFailed`, from lib/server/sockets/Agent.js.

module AgentReports {
  import opened Wrappers
  import opened Strings
  import opened Builds
  import opened Messages
  import opened Coordinator
  import opened AgentSessions
  import ServerUtils

  // ---------------------------------------------------------------------
  // Renaming the output files
  // ---------------------------------------------------------------------

  /** The name an output file is stored under: its `name`, or else the
      basename of its path. */
  function GivenName(f: FileEntry): string {
    if f.name != "" then f.name else Basename(f.file)
  }

  /** `[number, number && '.' || '', name].join('')` */
  function OutputName(number: string, f: FileEntry): string {
    number + (if number != "" then "." else "") + GivenName(f)
  }

  function Renamed(fs: seq<FileEntry>, number: string): seq<FileEntry> {
    seq(|fs|, i requires 0 <= i < |fs| => fs[i].(file := OutputName(number, fs[i])))
  }

  /** Each output file gets the build number, a dot and its given name
      when the build has a number, and just its given name otherwise;
      nothing else about it changes. */
  lemma RenamedNames(fs: seq<FileEntry>, number: string)
    ensures var r := Renamed(fs, number);
            |r| == |fs|
            && (forall i :: 0 <= i < |fs| ==> r[i] == fs[i].(file := r[i].file))
            && (number != "" ==> forall i :: 0 <= i < |fs| ==> r[i].file == number + "." + GivenName(fs[i]))
            && (number == "" ==> forall i :: 0 <= i < |fs| ==> r[i].file == GivenName(fs[i]))
  {
  }

  /** The `forEach` that renames the output files. */
  method RenameOutputs(fs: seq<FileEntry>, number: string) returns (out: seq<FileEntry>)
    ensures out == Renamed(fs, number)
  {
    out := [];
    var i := 0;
    while i < |fs|
      invariant 0 <= i <= |fs| && |out| == i
      invariant forall k :: 0 <= k < i ==> out[k] == fs[k].(file := OutputName(number, fs[k]))
    {
      var name := if fs[i].name != "" then fs[i].name else Basename(fs[i].file);
      out := out + [fs[i].(file := number + (if number != "" then "." else "") + name)];
      i := i + 1;
    }
  }

  // ---------------------------------------------------------------------
  // Finding the build an agent reports on
  // ---------------------------------------------------------------------

  /** What `findBuildById(responseBuild)` gives for a response object: the
      registered build, the response object itself, or a throw. */
  datatype Lookup = Registered(ref: BuildRef) | ItSelf | Throws

  /** The lookup as `findBuildById` does it on a response whose `id` is
      `id` ("" for none): `this.builds[build.id] || build.id && build`. */
  function FindResponseAsWritten(st: State, id: string): Lookup {
    if id == "" then Throws
    else if id in st.ids then Registered(st.ids[id])
    else ItSelf
  }

  /** How a handler ended: it ran to its end in state `st`, or it threw,
      leaving the state `st` it had reached. */
  datatype Handled = Ran(st: State) | Threw(st: State)

  /** `onBuildSuccess(responseBuild)` as written, up to the creation of the
      output folder. A registered build goes on as `AfterBuildSuccess`
      does. The response object itself passes the `!build` guard, but it is
      a plain serialised build: it has no `master` and no `Id` method, so
      `build.Id()` throws before anything is logged or stored. A response
      without an id makes `findBuildById` throw. */
  function AfterBuildSuccessAsWritten(st: State, cfg: Config, a: AgentRef, id: string, outputs: seq<FileEntry>): Handled
    requires Core(st) && a in st.sessions
  {
    match FindResponseAsWritten(st, id)
    case Registered(_) => Ran(AfterBuildSuccess(st, cfg, a, id, outputs))
    case ItSelf => Threw(st)
    case Throws => Threw(st)
  }

  /** A response about a build that is not registered gets the response
      object back, so the `!build` guard of `onBuildSuccess` never fires
      for it, whereas the lookup by id finds nothing. As written the
      handler then throws at `build.Id()` with the state unchanged: no
      error is logged, no output stored; the corrected handler logs one
      error and changes no build. */
  lemma UnknownResponseNotGuarded(st: State, cfg: Config, a: AgentRef, id: string, outputs: seq<FileEntry>)
    requires Core(st) && a in st.sessions
    requires id != "" && id !in st.ids
    ensures FindResponseAsWritten(st, id) == ItSelf
    ensures FindBuildById(st, id).None?
    ensures AfterBuildSuccessAsWritten(st, cfg, a, id, outputs) == Threw(st)
    ensures var res := AfterBuildSuccess(st, cfg, a, id, outputs);
            res.heap == st.heap && |res.logs| == |st.logs| + 1 && res.logs[0].priority == Error
  {
    BuildSuccessUnknown(st, cfg, a, id, outputs);
  }

  /** A registered response is found by both lookups. */
  lemma RegisteredResponseFound(st: State, id: string)
    requires id != "" && id in st.ids
    ensures FindResponseAsWritten(st, id) == Registered(st.ids[id])
    ensures FindBuildById(st, id) == Some(st.ids[id])
  {
  }

  // ---------------------------------------------------------------------
  // onBuildSuccess: the synchronous part
  // ---------------------------------------------------------------------

  const NotDefinedTemplate: string := "Build with id {2} is not defined on the server"
  const ReceivedTemplate: string := "Files received. Storing them on the server"

  /** The folder a build's outputs go to: named after its master's `Id()`,
      or its own when that is empty or it has no master. */
  function FolderName(h: Heap, r: BuildRef): string
    requires r in h
  {
    var b := h[r];
    var mid := if b.master.Some? && b.master.value in h then Id(h[b.master.value]) else "";
    if mid != "" then mid else Id(b)
  }

  function OutputFolder(cfg: Config, h: Heap, r: BuildRef): string
    requires r in h
  {
    Resolve(cfg.location, FolderName(h, r))
  }

  function WithOutputs(st: State, r: BuildRef, fs: seq<FileEntry>): (res: State)
    requires Core(st) && r in st.heap
    ensures Core(res) && res.heap.Keys == st.heap.Keys
    ensures res.sessions == st.sessions
  {
    WithBuild(st, r, st.heap[r].(outputFiles := fs))
  }

  method SetOutputs(s: Server, r: BuildRef, fs: seq<FileEntry>)
    requires Core(s.St()) && r in s.heap
    modifies s
    ensures s.St() == WithOutputs(old(s.St()), r, fs)
  {
    SetBuild(s, r, s.heap[r].(outputFiles := fs));
  }

  /** `onBuildSuccess(responseBuild)` up to the creation of the output
      folder: an unknown build is only logged; a known one logs where its
      files go and takes the renamed output files. */
  function AfterBuildSuccess(st: State, cfg: Config, a: AgentRef, id: string, outputs: seq<FileEntry>): (res: State)
    requires Core(st) && a in st.sessions
    ensures Core(res) && res.heap.Keys == st.heap.Keys
  {
    var f := FindBuildById(st, id);
    if f.None? then AfterLog(st, Make(NoSubject, AgentSender(st.sessions[a]), "A", Error, NotDefinedTemplate, [id]), None)
    else
      var r := f.value;
      var st1 := AfterAgentLog(st, a, r, Info, ReceivedTemplate, [OutputFolder(cfg, st.heap, r)]);
      WithOutputs(st1, r, Renamed(outputs, st.heap[r].conf.number))
  }

  /** Returns the build found and the folder its outputs go to, which the
      continuations below carry along. */
  method BuildSuccess(s: Server, cfg: Config, a: AgentRef, id: string, outputs: seq<FileEntry>)
    returns (found: Option<BuildRef>, folder: string)
    requires Core(s.St()) && a in s.sessions
    modifies s
    ensures s.St() == AfterBuildSuccess(old(s.St()), cfg, a, id, outputs)
    ensures found == FindBuildById(old(s.St()), id)
    ensures found.Some? ==> found.value in old(s.heap) && folder == OutputFolder(cfg, old(s.heap), found.value)
  {
    found := FindBuildById(s.St(), id);
    if found.None? {
      folder := "";
      s.Log(Make(NoSubject, AgentSender(s.sessions[a]), "A", Error, NotDefinedTemplate, [id]), None);
      return;
    }
    var r := found.value;
    folder := OutputFolder(cfg, s.heap, r);
    var renamed := RenameOutputs(outputs, s.heap[r].conf.number);
    AgentLog(s, a, r, Info, ReceivedTemplate, [folder]);
    SetOutputs(s, r, renamed);
  }

  /** A known build keeps everything but its log and takes the renamed
      output files; the agents and the queue are untouched. */
  lemma BuildSuccessFound(st: State, cfg: Config, a: AgentRef, id: string, outputs: seq<FileEntry>)
    requires Core(st) && a in st.sessions && FindBuildById(st, id).Some?
    ensures var r := st.ids[id];
            var res := AfterBuildSuccess(st, cfg, a, id, outputs);
            res.heap[r] == st.heap[r].(outputFiles := Renamed(outputs, st.heap[r].conf.number),
                                       conf := st.heap[r].conf.(logs := res.heap[r].conf.logs))
            && res.sessions == st.sessions && res.queue == st.queue && res.ids == st.ids
  {
    var r := st.ids[id];
    AgentLogKeeps(st, a, r, Info, ReceivedTemplate, [OutputFolder(cfg, st.heap, r)], r);
  }

  /** An unknown build changes no build: one error is logged. */
  lemma BuildSuccessUnknown(st: State, cfg: Config, a: AgentRef, id: string, outputs: seq<FileEntry>)
    requires Core(st) && a in st.sessions && FindBuildById(st, id).None?
    ensures var res := AfterBuildSuccess(st, cfg, a, id, outputs);
            res.heap == st.heap && res.sessions == st.sessions && res.queue == st.queue
            && |res.logs| == |st.logs| + 1 && res.logs[0].priority == Error && res.logs[1..] == st.logs
  {
  }

  // ---------------------------------------------------------------------
  // onBuildSuccess: the output folder is made
  // ---------------------------------------------------------------------

  const FolderFailedTemplate: string := "error creating folder {2} on the cordova build server\n{3}"

  /** `fs.mkdirs(locationPath, ...)` called back with `mkdir` ("None" for
      no error). On an error the build fails; otherwise the output files
      are written, which `AfterOutputsWritten` models. */
  function AfterFolderMade(st: State, cfg: Config, a: AgentRef, r: BuildRef, folder: string, mkdir: Option<string>): (res: State)
    requires Core(st) && a in st.sessions && r in st.heap
    ensures Core(res) && res.heap.Keys == st.heap.Keys
    ensures res.sessions == st.sessions
  {
    if mkdir.None? then st
    else
      var st1 := AfterAgentLog(st, a, r, Error, FolderFailedTemplate, [folder, mkdir.value]);
      AfterUpdateBuildStatus(st1, cfg, Obj(r), "failed", false)
  }

  method FolderMade(s: Server, cfg: Config, a: AgentRef, r: BuildRef, folder: string, mkdir: Option<string>)
    requires Core(s.St()) && a in s.sessions && r in s.heap
    modifies s
    ensures s.St() == AfterFolderMade(old(s.St()), cfg, a, r, folder, mkdir)
  {
    if mkdir.Some? {
      AgentLog(s, a, r, Error, FolderFailedTemplate, [folder, mkdir.value]);
      s.UpdateBuildStatus(cfg, Obj(r), "failed", false);
    }
  }

  /** A folder that cannot be made fails the build, and the agent is left
      busy with it. */
  lemma FolderFailedEffect(st: State, cfg: Config, a: AgentRef, r: BuildRef, folder: string, err: string)
    requires Core(st) && a in st.sessions && r in st.heap
    ensures var res := AfterFolderMade(st, cfg, a, r, folder, Some(err));
            res.heap[r].conf.status == "failed" && res.heap[r].outputFiles == st.heap[r].outputFiles
            && res.sessions == st.sessions && res.queue == st.queue
  {
    var st1 := AfterAgentLog(st, a, r, Error, FolderFailedTemplate, [folder, err]);
    AgentLogKeeps(st, a, r, Error, FolderFailedTemplate, [folder, err], r);
    assert "failed" != "deleted";
    StatusStep(st1, cfg, r, "failed");
  }

  // ---------------------------------------------------------------------
  // onBuildSuccess: the output files are written
  // ---------------------------------------------------------------------

  const OutputsLocationTemplate: string := "the cordova build agent worker output files on {0} [a]"
  const OutputsFailedTemplate: string := "error saving build output files on the cordova build server\n{3}"
  const UnreadableSuffix: string := " could not be read... continuing anyway!"
  const AlsoSendingTemplate: string := "Also sending the output files to the client"
  const DoneTemplate: string := "Build done, ready for a new one."

  function OutputsLocation(b: Build): string {
    Format(OutputsLocationTemplate, [PlatformText(b.conf.platform)])
  }

  /** A status the completion check counts as finished. */
  predicate Done(status: string) {
    status == "success" || status == "failed"
  }

  /** `masterBuild.platforms.every(...)`: every child of `m` is done. */
  predicate AllDone(h: Heap, m: BuildRef) {
    m in h && h[m].platforms.Some? && forall c :: c in h[m].platforms.value ==> c in h && Done(h[c].conf.status)
  }

  /** The build at `r` with `conf.completed` set to `now`. */
  function Completed(st: State, r: BuildRef, now: int): (res: State)
    requires Core(st) && r in st.heap
    ensures Core(res) && res.heap.Keys == st.heap.Keys
    ensures res.sessions == st.sessions
  {
    WithBuild(st, r, st.heap[r].(conf := st.heap[r].conf.(completed := Some(now))))
  }

  method SetCompleted(s: Server, r: BuildRef, now: int)
    requires Core(s.St()) && r in s.heap
    modifies s
    ensures s.St() == Completed(old(s.St()), r, now)
  {
    SetBuild(s, r, s.heap[r].(conf := s.heap[r].conf.(completed := Some(now))));
  }

  /** Writing failed: the output files are freed and the build fails. */
  function AfterWriteFailed(st: State, cfg: Config, a: AgentRef, r: BuildRef, err: string): (res: State)
    requires Core(st) && a in st.sessions && r in st.heap
    ensures Core(res) && res.heap.Keys == st.heap.Keys
    ensures res.sessions == st.sessions
  {
    var st1 := WithOutputs(st, r, ServerUtils.Freed(st.heap[r].outputFiles));
    var st2 := AfterAgentLog(st1, a, r, Error, OutputsFailedTemplate, [err]);
    AfterUpdateBuildStatus(st2, cfg, Obj(r), "failed", false)
  }

  /** The master of a build whose children are all done is completed, and
      the master's `build.json` (read as `json`, `None` when it cannot be
      read) is added to the build's output files. */
  function AfterMasterDone(st: State, a: AgentRef, r: BuildRef, m: BuildRef, folder: string, now: int,
                           json: Option<string>): (res: State)
    requires Core(st) && a in st.sessions && r in st.heap && m in st.heap
    ensures Core(res) && res.heap.Keys == st.heap.Keys
    ensures res.sessions == st.sessions
  {
    var st1 := Completed(st, m, now);
    if json.Some? then WithOutputs(st1, r, st1.heap[r].outputFiles + [FileEntry("build.json", "", "", json)])
    else AfterAgentLog(st1, a, r, Error, Resolve(folder, "build.json") + UnreadableSuffix, [])
  }

  /** Writing succeeded: the build is completed at `now` and succeeds,
      and its master is completed when all its children are done. */
  function AfterSucceeded(st: State, cfg: Config, a: AgentRef, r: BuildRef, folder: string, now: int,
                          json: Option<string>): (res: State)
    requires Core(st) && a in st.sessions && r in st.heap
    ensures Core(res) && res.heap.Keys == st.heap.Keys
    ensures res.sessions == st.sessions
  {
    var st2 := AfterSuccessStatus(st, cfg, r, now);
    var mb := st.heap[r].master;
    if mb.Some? && AllDone(st2.heap, mb.value) then AfterMasterDone(st2, a, r, mb.value, folder, now, json)
    else st2
  }

  /** `build.conf.completed = new Date()`, then the build succeeds. */
  function AfterSuccessStatus(st: State, cfg: Config, r: BuildRef, now: int): (res: State)
    requires Core(st) && r in st.heap
    ensures Core(res) && res.heap.Keys == st.heap.Keys && res.sessions == st.sessions
  {
    AfterUpdateBuildStatus(Completed(st, r, now), cfg, Obj(r), "success", false)
  }

  /** The options of the serialisation sent to the client. */
  function ReportOptions(save: bool): Options {
    Options(false, save, false, save)
  }

  /** The build is announced to its client, if it has one. */
  function AfterNotified(st: State, a: AgentRef, r: BuildRef): (res: State)
    requires Core(st) && a in st.sessions && r in st.heap
    ensures Core(res) && res.heap.Keys == st.heap.Keys && res.sessions == st.sessions
  {
    var b := st.heap[r];
    var st1 := if b.conf.save then AfterAgentLog(st, a, r, Info, AlsoSendingTemplate, []) else st;
    var st2 := if b.client.Some? then
                 st1.(events := st1.events + [Emit(ClientPeer(b.client.value), "build-success",
                                                   WireOf(Serialize(st1.heap, r, ReportOptions(b.conf.save), NoOptions)))])
               else st1;
    CoreFrom(st1, st2);
    st2
  }

  /** The build is reported to its client, and its output files freed. */
  function AfterReported(st: State, a: AgentRef, r: BuildRef): (res: State)
    requires Core(st) && a in st.sessions && r in st.heap
    ensures Core(res) && res.heap.Keys == st.heap.Keys
    ensures res.sessions == st.sessions
  {
    var st1 := AfterNotified(st, a, r);
    var st2 := AfterAgentLog(st1, a, r, Info, DoneTemplate, []);
    WithOutputs(st2, r, ServerUtils.Freed(st2.heap[r].outputFiles))
  }

  /** `writeFiles(locationPath, outputFiles, ..., true, done)`, with
      `remake` the outcome of its own `mkdirs` and `fails` the writes that
      fail, then `done(err)` up to the call of `cleanLastFolders`. */
  function AfterOutputsWritten(st: State, cfg: Config, a: AgentRef, r: BuildRef, folder: string,
                               remake: Option<string>, fails: map<string, string>, now: int,
                               json: Option<string>): (res: State)
    requires Core(st) && a in st.sessions && r in st.heap
    ensures Core(res) && res.heap.Keys == st.heap.Keys
  {
    var b := st.heap[r];
    var outcome := ServerUtils.WriteOutcome(folder, b.outputFiles, OutputsLocation(b), ServerUtils.Given(true), remake, fails);
    AfterWriteDone(st, cfg, a, r, folder, outcome.0, outcome.1, now, json)
  }

  /** `done(err)` of `writeFiles`, once the files `out` are written. */
  function AfterWriteDone(st: State, cfg: Config, a: AgentRef, r: BuildRef, folder: string,
                          out: seq<FileEntry>, err: Option<string>, now: int, json: Option<string>): (res: State)
    requires Core(st) && a in st.sessions && r in st.heap
    ensures Core(res) && res.heap.Keys == st.heap.Keys
  {
    var st1 := WithOutputs(st, r, out);
    if err.Some? then AfterWriteFailed(st1, cfg, a, r, err.value)
    else AfterReported(AfterSucceeded(st1, cfg, a, r, folder, now, json), a, r)
  }

  method WriteFailed(s: Server, cfg: Config, a: AgentRef, r: BuildRef, err: string)
    requires Core(s.St()) && a in s.sessions && r in s.heap
    modifies s
    ensures s.St() == AfterWriteFailed(old(s.St()), cfg, a, r, err)
  {
    var freed := ServerUtils.FreeMemFiles(s.heap[r].outputFiles);
    SetOutputs(s, r, freed);
    AgentLog(s, a, r, Error, OutputsFailedTemplate, [err]);
    s.UpdateBuildStatus(cfg, Obj(r), "failed", false);
  }

  method MasterDone(s: Server, a: AgentRef, r: BuildRef, m: BuildRef, folder: string, now: int, json: Option<string>)
    requires Core(s.St()) && a in s.sessions && r in s.heap && m in s.heap
    modifies s
    ensures s.St() == AfterMasterDone(old(s.St()), a, r, m, folder, now, json)
  {
    SetCompleted(s, m, now);
    if json.Some? {
      SetOutputs(s, r, s.heap[r].outputFiles + [FileEntry("build.json", "", "", json)]);
    } else {
      AgentLog(s, a, r, Error, Resolve(folder, "build.json") + UnreadableSuffix, []);
    }
  }

  /** Whether every child of the master `m` is done. */
  method ChildrenDone(s: Server, m: BuildRef) returns (done: bool)
    requires Core(s.St()) && m in s.heap && s.heap[m].platforms.Some?
    ensures done == AllDone(s.heap, m)
  {
    var cs := s.heap[m].platforms.value;
    assert LinksOk(s.heap, m);
    done := true;
    var i := 0;
    while i < |cs|
      invariant 0 <= i <= |cs|
      invariant done <==> forall k :: 0 <= k < i ==> Done(s.heap[cs[k]].conf.status)
    {
      var status := s.heap[cs[i]].conf.status;
      if status != "success" && status != "failed" {
        done := false;
        return;
      }
      i := i + 1;
    }
  }

  method Succeeded(s: Server, cfg: Config, a: AgentRef, r: BuildRef, folder: string, now: int, json: Option<string>)
    requires Core(s.St()) && a in s.sessions && r in s.heap
    modifies s
    ensures s.St() == AfterSucceeded(old(s.St()), cfg, a, r, folder, now, json)
  {
    var mb := s.heap[r].master;
    assert LinksOk(s.heap, r);
    SetCompleted(s, r, now);
    s.UpdateBuildStatus(cfg, Obj(r), "success", false);
    if mb.Some? && s.heap[mb.value].platforms.Some? {
      var done := ChildrenDone(s, mb.value);
      if done {
        MasterDone(s, a, r, mb.value, folder, now, json);
      }
    }
  }

  method Notify(s: Server, a: AgentRef, r: BuildRef)
    requires Core(s.St()) && a in s.sessions && r in s.heap
    modifies s
    ensures s.St() == AfterNotified(old(s.St()), a, r)
  {
    var save := s.heap[r].conf.save;
    var client := s.heap[r].client;
    if save {
      AgentLog(s, a, r, Info, AlsoSendingTemplate, []);
    }
    if client.Some? {
      s.events := s.events + [Emit(ClientPeer(client.value), "build-success",
                                   WireOf(Serialize(s.heap, r, ReportOptions(save), NoOptions)))];
    }
  }

  method Reported(s: Server, a: AgentRef, r: BuildRef)
    requires Core(s.St()) && a in s.sessions && r in s.heap
    modifies s
    ensures s.St() == AfterReported(old(s.St()), a, r)
  {
    Notify(s, a, r);
    AgentLog(s, a, r, Info, DoneTemplate, []);
    var freed := ServerUtils.FreeMemFiles(s.heap[r].outputFiles);
    SetOutputs(s, r, freed);
  }

  method OutputsWritten(s: Server, cfg: Config, a: AgentRef, r: BuildRef, folder: string,
                        remake: Option<string>, fails: map<string, string>, disk: ServerUtils.Disk, now: int,
                        json: Option<string>)
    returns (disk': ServerUtils.Disk)
    requires Core(s.St()) && a in s.sessions && r in s.heap
    modifies s
    ensures s.St() == AfterOutputsWritten(old(s.St()), cfg, a, r, folder, remake, fails, now, json)
    ensures disk' == if remake.Some? then disk else ServerUtils.DiskAfter(old(s.heap[r].outputFiles), folder, fails, disk)
  {
    var out, err;
    out, disk', err := ServerUtils.WriteFiles(folder, s.heap[r].outputFiles, OutputsLocation(s.heap[r]),
                                              ServerUtils.Given(true), remake, fails, disk);
    WriteDone(s, cfg, a, r, folder, out, err, now, json);
  }

  method WriteDone(s: Server, cfg: Config, a: AgentRef, r: BuildRef, folder: string,
                   out: seq<FileEntry>, err: Option<string>, now: int, json: Option<string>)
    requires Core(s.St()) && a in s.sessions && r in s.heap
    modifies s
    ensures s.St() == AfterWriteDone(old(s.St()), cfg, a, r, folder, out, err, now, json)
  {
    SetOutputs(s, r, out);
    ghost var st1 := s.St();
    if err.Some? {
      WriteFailed(s, cfg, a, r, err.value);
    } else {
      Succeeded(s, cfg, a, r, folder, now, json);
      Reported(s, a, r);
    }
  }

  // ---------------------------------------------------------------------
  // onBuildSuccess: old folders are pruned, the build is saved
  // ---------------------------------------------------------------------

  const CleanFailedTemplate: string := "Error while cleaning up last {2} folders in SERVER builds output folder {3}:\n{4}"

  /** The `err` that `cleanLastFolders` hands to `done`. */
  function CleanError(clean: ServerUtils.CleanResult): Option<string> {
    match clean
    case Nothing => None
    case Failed(reason) => Some(reason)
    case Removed(e, _) => e
  }

  /** The `stats` it hands to `done`: the folders it removed. */
  function Stats(clean: ServerUtils.CleanResult): seq<ServerUtils.PathStat> {
    if clean.Removed? then clean.removed else []
  }

  /** Where a child build is saved once its agent reports on it. */
  function PlatformJsonPath(folder: string, b: Build): string {
    Resolve(folder, "build." + PlatformText(b.conf.platform) + ".json")
  }

  /** The callback of `cleanLastFolders` on the builds folder:
      an error is logged, then the build is saved next to its outputs.
      It takes what `done` receives; when an `fs.stat` fails the cleanup
      crashes (`ServerUtils.Crashed`) and this callback never runs. */
  function AfterCleaned(st: State, cfg: Config, a: AgentRef, r: BuildRef, folder: string,
                        clean: ServerUtils.CleanResult): (res: State)
    requires Core(st) && a in st.sessions && r in st.heap
    ensures Core(res) && res.heap.Keys == st.heap.Keys && res.sessions == st.sessions
  {
    var err := CleanError(clean);
    var st1 := if err.Some? then AfterAgentLog(st, a, r, Debug, CleanFailedTemplate, [IntText(cfg.keep), cfg.location, err.value])
               else st;
    var st2 := st1.(events := st1.events + [Saved(r, PlatformJsonPath(folder, st.heap[r]))]);
    CoreFrom(st1, st2);
    st2
  }

  method Cleaned(s: Server, cfg: Config, a: AgentRef, r: BuildRef, folder: string, clean: ServerUtils.CleanResult)
    requires Core(s.St()) && a in s.sessions && r in s.heap
    modifies s
    ensures s.St() == AfterCleaned(old(s.St()), cfg, a, r, folder, clean)
  {
    var path := PlatformJsonPath(folder, s.heap[r]);
    var err := CleanError(clean);
    if err.Some? {
      AgentLog(s, a, r, Debug, CleanFailedTemplate, [IntText(cfg.keep), cfg.location, err.value]);
    }
    s.events := s.events + [Saved(r, path)];
  }

  /** A failed save is logged at debug level, with the error as message. */
  function AfterSaveLogged(st: State, a: AgentRef, r: BuildRef, err: Option<string>): (res: State)
    requires Core(st) && a in st.sessions && r in st.heap
    ensures Core(res) && res.heap.Keys == st.heap.Keys && res.sessions == st.sessions
  {
    if err.Some? then AfterAgentLog(st, a, r, Debug, err.value, []) else st
  }

  method SaveLogged(s: Server, a: AgentRef, r: BuildRef, err: Option<string>)
    requires Core(s.St()) && a in s.sessions && r in s.heap
    modifies s
    ensures s.St() == AfterSaveLogged(old(s.St()), a, r, err)
  {
    if err.Some? {
      AgentLog(s, a, r, Debug, err.value, []);
    }
  }

  /** The agent is free for another build and `ready`. */
  function AfterFreed(st: State, a: AgentRef): (res: State)
    requires Core(st) && a in st.sessions
    ensures Core(res) && res.heap == st.heap && res.ids == st.ids && res.queue == st.queue
    ensures a in res.sessions && res.sessions[a].busy.None? && res.sessions[a].status == "ready"
    ensures res.sessions.Keys == st.sessions.Keys
  {
    var st1 := SetBusy(st, a, None);
    CoreFrom(st, st1);
    var st2 := AfterUpdateAgentStatus(st1, a, "ready", "");
    CoreFrom(st1, st2);
    st2
  }

  method Free(s: Server, a: AgentRef)
    requires Core(s.St()) && a in s.sessions
    modifies s
    ensures s.St() == AfterFreed(old(s.St()), a)
  {
    s.sessions := s.sessions[a := s.sessions[a].(busy := None)];
    UpdateAgentStatus(s, a, "ready", "");
  }

  /** The callback of `build.save`: the agent is freed, then the builds
      whose folders were pruned are deleted. */
  function AfterSaved(st: State, cfg: Config, a: AgentRef, r: BuildRef, err: Option<string>,
                      clean: ServerUtils.CleanResult): (res: State)
    requires Core(st) && a in st.sessions && r in st.heap
    ensures Core(res) && res.heap.Keys == st.heap.Keys
  {
    AfterDeleteStale(AfterFreed(AfterSaveLogged(st, a, r, err), a), cfg, Stats(clean))
  }

  method SaveDone(s: Server, cfg: Config, a: AgentRef, r: BuildRef, err: Option<string>, clean: ServerUtils.CleanResult)
    requires Core(s.St()) && a in s.sessions && r in s.heap
    modifies s
    ensures s.St() == AfterSaved(old(s.St()), cfg, a, r, err, clean)
  {
    SaveLogged(s, a, r, err);
    Free(s, a);
    DeleteStale(s, cfg, Stats(clean));
  }

  /** The id of the build a pruned folder belongs to: the folder's name. */
  function FolderId(stat: ServerUtils.PathStat): string {
    Basename(stat.filepath)
  }

  /** The build a pruned folder is named after, if registered, is deleted
      quietly. */
  function AfterDeleteFolder(st: State, cfg: Config, stat: ServerUtils.PathStat): (res: State)
    requires Core(st)
    ensures Core(res) && res.heap.Keys == st.heap.Keys && SameAgents(st, res)
  {
    var f := FindBuildById(st, FolderId(stat));
    if f.Some? then AfterUpdateBuildStatus(st, cfg, Obj(f.value), "deleted", true) else st
  }

  /** `stats.forEach(...)`: the pruned folders, in order. */
  function AfterDeleteStale(st: State, cfg: Config, stats: seq<ServerUtils.PathStat>): (res: State)
    requires Core(st)
    ensures Core(res) && res.heap.Keys == st.heap.Keys && SameAgents(st, res)
    decreases |stats|
  {
    if stats == [] then st
    else AfterDeleteFolder(AfterDeleteStale(st, cfg, stats[..|stats| - 1]), cfg, stats[|stats| - 1])
  }

  method DeleteStale(s: Server, cfg: Config, stats: seq<ServerUtils.PathStat>)
    requires Core(s.St())
    modifies s
    ensures s.St() == AfterDeleteStale(old(s.St()), cfg, stats)
  {
    ghost var st0 := s.St();
    var i := 0;
    while i < |stats|
      invariant 0 <= i <= |stats|
      invariant s.St() == AfterDeleteStale(st0, cfg, stats[..i])
    {
      assert stats[..i + 1][..i] == stats[..i];
      DeleteFolder(s, cfg, stats[i]);
      i := i + 1;
    }
    assert stats[..|stats|] == stats;
  }

  method DeleteFolder(s: Server, cfg: Config, stat: ServerUtils.PathStat)
    requires Core(s.St())
    modifies s
    ensures s.St() == AfterDeleteFolder(old(s.St()), cfg, stat)
  {
    var f := FindBuildById(s.St(), FolderId(stat));
    if f.Some? {
      s.UpdateBuildStatus(cfg, Obj(f.value), "deleted", true);
    }
  }

  /** The lookup key as written: `path.basename(stat.path)`, where the
      entries `cleanLastFolders` reports have a `filepath` and no `path`,
      and Node's `path.basename(undefined)` is the text "undefined". */
  function FolderIdAsWritten(stat: ServerUtils.PathStat): string {
    "undefined"
  }

  function AfterDeleteFolderAsWritten(st: State, cfg: Config, stat: ServerUtils.PathStat): (res: State)
    requires Core(st)
    ensures Core(res)
  {
    var f := FindBuildById(st, FolderIdAsWritten(stat));
    if f.Some? then AfterUpdateBuildStatus(st, cfg, Obj(f.value), "deleted", true) else st
  }

  /** As written, no pruned folder leads to a deletion (unless some build
      has the id "undefined"). */
  lemma AsWrittenDeletesNothing(st: State, cfg: Config, stat: ServerUtils.PathStat)
    requires Core(st) && "undefined" !in st.ids
    ensures AfterDeleteFolderAsWritten(st, cfg, stat) == st
  {
  }

  /** Deleting a folder's build unregisters it and never registers
      anything, and no build's id changes. */
  lemma DeleteFolderShrinks(st: State, cfg: Config, stat: ServerUtils.PathStat)
    requires Core(st)
    ensures var res := AfterDeleteFolder(st, cfg, stat);
            (forall k :: k in res.ids ==> k in st.ids && res.ids[k] == st.ids[k])
            && (forall q :: q in st.heap ==> res.heap[q].id == st.heap[q].id)
  {
    var f := FindBuildById(st, FolderId(stat));
    if f.Some? {
      var r := f.value;
      DeletedFound(st, cfg, r, true);
      var st1 := AfterLogOnMaster(st, r, "deleted", true);
      assert st1 == st;
      assert LinksOk(st.heap, r);
      if st.heap[r].master.Some? {
        DeleteChild(st, r);
      } else if st.heap[r].platforms.Some? {
        DeleteRoot(st, r);
      } else {
        DeleteLone(st, r);
      }
    }
  }

  /** Every registered id names its own build. */
  predicate IdsMatch(st: State) {
    forall k :: k in st.ids ==> st.ids[k] in st.heap && st.heap[st.ids[k]].id == k
  }

  /** A pruned folder named after a registered build leaves that build
      unregistered. */
  lemma FolderBuildDeleted(st: State, cfg: Config, stat: ServerUtils.PathStat)
    requires Core(st) && IdsMatch(st) && FolderId(stat) != ""
    ensures var res := AfterDeleteFolder(st, cfg, stat);
            FolderId(stat) !in res.ids && IdsMatch(res)
  {
    var k := FolderId(stat);
    DeleteFolderShrinks(st, cfg, stat);
    if k in st.ids {
      var r := st.ids[k];
      DeletedFound(st, cfg, r, true);
      assert AfterLogOnMaster(st, r, "deleted", true) == st;
      assert LinksOk(st.heap, r);
      if st.heap[r].master.Some? {
        DeleteChild(st, r);
      } else if st.heap[r].platforms.Some? {
        DeleteRoot(st, r);
      } else {
        DeleteLone(st, r);
      }
    }
  }

  /** No id is registered that was not before. */
  predicate Shrunk(st: State, res: State) {
    forall k :: k in res.ids ==> k in st.ids
  }

  /** One folder: the id map only shrinks, and the folder's build is
      unregistered. */
  lemma FolderStep(st: State, cfg: Config, stat: ServerUtils.PathStat)
    requires Core(st) && IdsMatch(st)
    ensures var res := AfterDeleteFolder(st, cfg, stat);
            IdsMatch(res) && Shrunk(st, res) && (FolderId(stat) != "" ==> FolderId(stat) !in res.ids)
  {
    DeleteFolderShrinks(st, cfg, stat);
    if FolderId(stat) != "" {
      FolderBuildDeleted(st, cfg, stat);
    }
  }

  /** Every pruned folder named after a registered build leaves that
      build unregistered, whatever the order of the folders. */
  lemma {:induction false} StaleBuildsDeleted(st: State, cfg: Config, stats: seq<ServerUtils.PathStat>)
    requires Core(st) && IdsMatch(st)
    ensures var res := AfterDeleteStale(st, cfg, stats);
            IdsMatch(res) && Shrunk(st, res)
            && forall i :: 0 <= i < |stats| && FolderId(stats[i]) != "" ==> FolderId(stats[i]) !in res.ids
    decreases |stats|
  {
    if stats != [] {
      var init := stats[..|stats| - 1];
      var last := stats[|stats| - 1];
      StaleBuildsDeleted(st, cfg, init);
      var mid := AfterDeleteStale(st, cfg, init);
      FolderStep(mid, cfg, last);
      var res := AfterDeleteFolder(mid, cfg, last);
      assert AfterDeleteStale(st, cfg, stats) == res;
      forall i | 0 <= i < |stats| && FolderId(stats[i]) != "" ensures FolderId(stats[i]) !in res.ids {
        if i < |init| {
          assert init[i] == stats[i];
          assert FolderId(init[i]) !in mid.ids;
        } else {
          assert stats[i] == last;
        }
      }
    }
  }

  // ---------------------------------------------------------------------
  // Properties of onBuildSuccess
  // ---------------------------------------------------------------------

  /** Setting the status of a child changes no other child's status and
      neither the master's children nor its completion time. */
  lemma SiblingsKept(st: State, cfg: Config, r: BuildRef, status: string)
    requires Core(st) && r in st.heap && st.heap[r].master.Some? && status != "deleted"
    ensures var res := AfterUpdateBuildStatus(st, cfg, Obj(r), status, false);
            var m := st.heap[r].master.value;
            m in st.heap && m != r && st.heap[m].platforms.Some? && m in res.heap
            && res.heap[m].platforms == st.heap[m].platforms
            && res.heap[m].conf.completed == st.heap[m].conf.completed
            && res.heap[r].conf.status == status
            && (forall c :: c in st.heap && c != r && c != m ==> res.heap[c].conf.status == st.heap[c].conf.status)
  {
    ObjFound(st, cfg, r, status, false);
    assert LinksOk(st.heap, r);
    var m := st.heap[r].master.value;
    var st1 := AfterLogOnMaster(st, r, status, false);
    forall q | q in st.heap ensures q in st1.heap && st1.heap[q] == st.heap[q].(conf := st.heap[q].conf.(logs := st1.heap[q].conf.logs)) {
      LogOnMasterKeeps(st, r, status, false, q);
    }
    UpdateChild(st1.heap, r, status, cfg.location);
    FoundKeeps(st, cfg, r, status, false, m);
  }

  /** Every child of `m` is done once `r` has the given status. */
  predicate DoneWith(h: Heap, m: BuildRef, r: BuildRef, status: string)
    requires m in h && h[m].platforms.Some?
  {
    forall c :: c in h[m].platforms.value ==> c in h && Done(if c == r then status else h[c].conf.status)
  }

  /** After a child's status update, the completion check on its master
      holds exactly when every child is done, the child counted with its
      new status. */
  lemma AllDoneAfter(st: State, cfg: Config, r: BuildRef, status: string)
    requires Core(st) && r in st.heap && st.heap[r].master.Some? && status != "deleted"
    ensures var res := AfterUpdateBuildStatus(st, cfg, Obj(r), status, false);
            var m := st.heap[r].master.value;
            m in st.heap && st.heap[m].platforms.Some?
            && (AllDone(res.heap, m) <==> DoneWith(st.heap, m, r, status))
  {
    SiblingsKept(st, cfg, r, status);
    var res := AfterUpdateBuildStatus(st, cfg, Obj(r), status, false);
    var m := st.heap[r].master.value;
    assert LinksOk(st.heap, r) && LinksOk(st.heap, m);
    var ps := st.heap[m].platforms.value;
    forall c | c in ps
      ensures c in st.heap && c in res.heap
      ensures res.heap[c].conf.status == if c == r then status else st.heap[c].conf.status
    {
      assert st.heap[c].master == Some(m);
    }
    DoneWithIff(st.heap, res.heap, m, r, status);
  }

  /** When the children's statuses in `h'` are those of `h`, `r`'s
      replaced by `status`, the children are all done in `h'` exactly when
      they are in `h` with `r` counted as `status`. */
  lemma DoneWithIff(h: Heap, h': Heap, m: BuildRef, r: BuildRef, status: string)
    requires m in h && m in h' && h[m].platforms.Some? && h'[m].platforms == h[m].platforms
    requires forall c :: c in h[m].platforms.value ==>
               c in h && c in h' && h'[c].conf.status == (if c == r then status else h[c].conf.status)
    ensures AllDone(h', m) <==> DoneWith(h, m, r, status)
  {
  }

  /** The success status step: the build succeeds and keeps its new
      completion time. */
  lemma SuccessStatusMarks(st: State, cfg: Config, r: BuildRef, now: int)
    requires Core(st) && r in st.heap
    ensures var res := AfterSuccessStatus(st, cfg, r, now);
            res.heap[r].conf.status == "success" && res.heap[r].conf.completed == Some(now)
  {
    assert "success" != "deleted";
    StatusStep(Completed(st, r, now), cfg, r, "success");
  }

  /** Completing the master keeps the build's status and completion time. */
  lemma MasterDoneEffect(st: State, a: AgentRef, r: BuildRef, m: BuildRef, folder: string, now: int, json: Option<string>)
    requires Core(st) && a in st.sessions && r in st.heap && m in st.heap && m != r
    ensures var res := AfterMasterDone(st, a, r, m, folder, now, json);
            res.heap[m].conf.completed == Some(now)
            && res.heap[r].conf.status == st.heap[r].conf.status && res.heap[r].conf.completed == st.heap[r].conf.completed
  {
    var st1 := Completed(st, m, now);
    if json.None? {
      var t := Resolve(folder, "build.json") + UnreadableSuffix;
      AgentLogKeeps(st1, a, r, Error, t, [], r);
      AgentLogKeeps(st1, a, r, Error, t, [], m);
    }
  }

  /** On success the build is completed at `now` and succeeds. */
  lemma SucceededMarks(st: State, cfg: Config, a: AgentRef, r: BuildRef, folder: string, now: int, json: Option<string>)
    requires Core(st) && a in st.sessions && r in st.heap
    ensures var res := AfterSucceeded(st, cfg, a, r, folder, now, json);
            res.heap[r].conf.status == "success" && res.heap[r].conf.completed == Some(now)
  {
    SuccessStatusMarks(st, cfg, r, now);
    var st2 := AfterSuccessStatus(st, cfg, r, now);
    var mb := st.heap[r].master;
    if mb.Some? && AllDone(st2.heap, mb.value) {
      assert LinksOk(st.heap, r);
      MasterDoneEffect(st2, a, r, mb.value, folder, now, json);
    }
  }

  /** Stamping a child's completion time changes neither its master nor
      the statuses of its siblings. */
  lemma CompletedKeepsMaster(st: State, r: BuildRef, now: int, m: BuildRef, status: string)
    requires Core(st) && r in st.heap && m in st.heap && m != r && st.heap[m].platforms.Some?
    ensures var res := Completed(st, r, now);
            res.heap[m] == st.heap[m] && (DoneWith(res.heap, m, r, status) <==> DoneWith(st.heap, m, r, status))
  {
    var res := Completed(st, r, now);
    assert res.heap == st.heap[r := st.heap[r].(conf := st.heap[r].conf.(completed := Some(now)))];
  }

  /** The master of a child that succeeds is completed at `now` exactly
      when all its children are done, the child counted as `success`;
      otherwise its completion time is left alone. */
  lemma MasterCompletion(st: State, cfg: Config, a: AgentRef, r: BuildRef, folder: string, now: int, json: Option<string>)
    requires Core(st) && a in st.sessions && r in st.heap && st.heap[r].master.Some?
    ensures var res := AfterSucceeded(st, cfg, a, r, folder, now, json);
            var m := st.heap[r].master.value;
            m in st.heap && st.heap[m].platforms.Some? && m in res.heap
            && res.heap[m].conf.completed
               == if DoneWith(st.heap, m, r, "success") then Some(now) else st.heap[m].conf.completed
  {
    var m := st.heap[r].master.value;
    var st1 := Completed(st, r, now);
    assert LinksOk(st.heap, r);
    CompletedKeepsMaster(st, r, now, m, "success");
    assert "success" != "deleted";
    AllDoneAfter(st1, cfg, r, "success");
    SiblingsKept(st1, cfg, r, "success");
    var st2 := AfterSuccessStatus(st, cfg, r, now);
    if AllDone(st2.heap, m) {
      MasterDoneEffect(st2, a, r, m, folder, now, json);
    }
  }

  /** A failed write frees the output files and fails the build, and the
      agent is left busy with it. */
  lemma WriteFailedEffect(st: State, cfg: Config, a: AgentRef, r: BuildRef, err: string)
    requires Core(st) && a in st.sessions && r in st.heap
    ensures var res := AfterWriteFailed(st, cfg, a, r, err);
            res.heap[r].conf.status == "failed" && res.heap[r].outputFiles == ServerUtils.Freed(st.heap[r].outputFiles)
            && res.sessions == st.sessions && res.queue == st.queue
  {
    var st1 := WithOutputs(st, r, ServerUtils.Freed(st.heap[r].outputFiles));
    AgentLogKeeps(st1, a, r, Error, OutputsFailedTemplate, [err], r);
    var st2 := AfterAgentLog(st1, a, r, Error, OutputsFailedTemplate, [err]);
    assert "failed" != "deleted";
    StatusStep(st2, cfg, r, "failed");
  }

  /** A build with a client is announced to it by the last event, with
      its output files and their contents exactly when it asked to `save`
      them. */
  lemma ClientNotified(st: State, a: AgentRef, r: BuildRef)
    requires Core(st) && a in st.sessions && r in st.heap && st.heap[r].client.Some?
    ensures var ev := AfterNotified(st, a, r).events;
            var b := st.heap[r];
            |ev| > 0 && ev[|ev| - 1].Emit? && ev[|ev| - 1].to == ClientPeer(b.client.value)
            && ev[|ev| - 1].name == "build-success" && ev[|ev| - 1].payload.WireOf?
            && ev[|ev| - 1].payload.wire.outputFiles
               == (if b.conf.save then Some(WireOutputs(b.outputFiles, true)) else None)
  {
    if st.heap[r].conf.save {
      AgentLogKeeps(st, a, r, Info, AlsoSendingTemplate, [], r);
    }
  }

  /** The report frees the build's output files, keeps its status and
      leaves the agent busy. */
  lemma ReportedEffect(st: State, a: AgentRef, r: BuildRef)
    requires Core(st) && a in st.sessions && r in st.heap
    ensures var res := AfterReported(st, a, r);
            res.heap[r].outputFiles == ServerUtils.Freed(st.heap[r].outputFiles)
            && res.heap[r].conf.status == st.heap[r].conf.status && res.sessions == st.sessions
  {
    if st.heap[r].conf.save {
      AgentLogKeeps(st, a, r, Info, AlsoSendingTemplate, [], r);
    }
    var n := AfterNotified(st, a, r);
    AgentLogKeeps(n, a, r, Info, DoneTemplate, [], r);
  }

  /** After the announcement no event is taken back. */
  lemma ReportedKeepsNotice(st: State, a: AgentRef, r: BuildRef)
    requires Core(st) && a in st.sessions && r in st.heap
    ensures var n := AfterNotified(st, a, r);
            var res := AfterReported(st, a, r);
            |n.events| <= |res.events| && res.events[..|n.events|] == n.events
  {
    var n := AfterNotified(st, a, r);
    AgentLogAppends(n, a, r, Info, DoneTemplate, []);
  }

  /** Once the build is saved the agent is free and `ready`, whatever
      the pruning deleted. */
  lemma SavedFrees(st: State, cfg: Config, a: AgentRef, r: BuildRef, err: Option<string>, clean: ServerUtils.CleanResult)
    requires Core(st) && a in st.sessions && r in st.heap
    ensures var res := AfterSaved(st, cfg, a, r, err, clean);
            a in res.sessions && res.sessions[a].busy.None? && res.sessions[a].status == "ready"
  {
  }

  // ---------------------------------------------------------------------
  // onBuildFailed
  // ---------------------------------------------------------------------

  const NotIdentifiedTemplate: string := "The build {0} was requested to be failing but we couldn't identify such build"

  /** The master of the build at `r` is completed at `now` when all its
      children are done. */
  function MarkMasterIfDone(st: State, r: BuildRef, now: int): (res: State)
    requires Core(st) && r in st.heap
    ensures Core(res) && res.heap.Keys == st.heap.Keys && res.sessions == st.sessions
  {
    var mb := st.heap[r].master;
    if mb.Some? && AllDone(st.heap, mb.value) then Completed(st, mb.value, now) else st
  }

  /** A build that is not failed yet fails, and the agent is freed. */
  function FailAndFree(st: State, cfg: Config, a: AgentRef, r: BuildRef): (res: State)
    requires Core(st) && a in st.sessions && r in st.heap
    ensures Core(res) && res.heap.Keys == st.heap.Keys && res.sessions.Keys == st.sessions.Keys
  {
    if st.heap[r].conf.status != "failed" then AfterFreed(AfterUpdateBuildStatus(st, cfg, Obj(r), "failed", false), a)
    else st
  }

  /** `onBuildFailed(build)`, with the completion check after the build
      is marked failed: an unknown build only logs an error; a known one
      fails (unless it already has), its master is completed when all its
      children are done, and it is saved. */
  function AfterBuildFailed(st: State, cfg: Config, a: AgentRef, id: string, now: int): (res: State)
    requires Core(st) && a in st.sessions
    ensures Core(res) && res.heap.Keys == st.heap.Keys
  {
    if id !in st.ids then AfterLog(st, Make(SubjectId(id), AgentSender(st.sessions[a]), "A", Error, NotIdentifiedTemplate, []), None)
    else
      var r := st.ids[id];
      var st1 := MarkMasterIfDone(FailAndFree(st, cfg, a, r), r, now);
      var st2 := st1.(events := st1.events + [Saved(r, PlatformJsonPath(OutputFolder(cfg, st.heap, r), st.heap[r]))]);
      CoreFrom(st1, st2);
      st2
  }

  /** `onBuildFailed(build)` as written, with the completion check before
      the build is marked failed. */
  function AfterBuildFailedAsWritten(st: State, cfg: Config, a: AgentRef, id: string, now: int): (res: State)
    requires Core(st) && a in st.sessions
    ensures Core(res) && res.heap.Keys == st.heap.Keys
  {
    if id !in st.ids then AfterLog(st, Make(SubjectId(id), AgentSender(st.sessions[a]), "A", Error, NotIdentifiedTemplate, []), None)
    else
      var r := st.ids[id];
      var st1 := FailAndFree(MarkMasterIfDone(st, r, now), cfg, a, r);
      var st2 := st1.(events := st1.events + [Saved(r, PlatformJsonPath(OutputFolder(cfg, st.heap, r), st.heap[r]))]);
      CoreFrom(st1, st2);
      st2
  }

  method FailFree(s: Server, cfg: Config, a: AgentRef, r: BuildRef)
    requires Core(s.St()) && a in s.sessions && r in s.heap
    modifies s
    ensures s.St() == FailAndFree(old(s.St()), cfg, a, r)
  {
    if s.heap[r].conf.status != "failed" {
      s.UpdateBuildStatus(cfg, Obj(r), "failed", false);
      Free(s, a);
    }
  }

  method MarkMaster(s: Server, r: BuildRef, now: int)
    requires Core(s.St()) && r in s.heap
    modifies s
    ensures s.St() == MarkMasterIfDone(old(s.St()), r, now)
  {
    var mb := s.heap[r].master;
    assert LinksOk(s.heap, r);
    if mb.Some? && s.heap[mb.value].platforms.Some? {
      var done := ChildrenDone(s, mb.value);
      if done {
        SetCompleted(s, mb.value, now);
      }
    }
  }

  /** Returns the build found, whose `save` callback `SaveLogged` is. */
  method BuildFailed(s: Server, cfg: Config, a: AgentRef, id: string, now: int) returns (found: Option<BuildRef>)
    requires Core(s.St()) && a in s.sessions
    modifies s
    ensures s.St() == AfterBuildFailed(old(s.St()), cfg, a, id, now)
    ensures found == if id in old(s.ids) then Some(old(s.ids)[id]) else None
  {
    if id !in s.ids {
      s.Log(Make(SubjectId(id), AgentSender(s.sessions[a]), "A", Error, NotIdentifiedTemplate, []), None);
      return None;
    }
    var r := s.ids[id];
    found := Some(r);
    var path := PlatformJsonPath(OutputFolder(cfg, s.heap, r), s.heap[r]);
    FailFree(s, cfg, a, r);
    MarkMaster(s, r, now);
    s.events := s.events + [Saved(r, path)];
  }

  /** A failure report for an unknown build only logs an error. */
  lemma BuildFailedUnknown(st: State, cfg: Config, a: AgentRef, id: string, now: int)
    requires Core(st) && a in st.sessions && id !in st.ids
    ensures var res := AfterBuildFailed(st, cfg, a, id, now);
            res.heap == st.heap && res.sessions == st.sessions && res.queue == st.queue
            && |res.logs| == |st.logs| + 1 && res.logs[0].priority == Error && res.logs[1..] == st.logs
  {
  }

  /** After `FailAndFree` the build is failed and keeps its master; the
      agent is freed if the build was not failed, and else nothing
      changes. */
  lemma FailAndFreeStatus(st: State, cfg: Config, a: AgentRef, r: BuildRef)
    requires Core(st) && a in st.sessions && r in st.heap
    ensures var res := FailAndFree(st, cfg, a, r);
            res.heap[r].conf.status == "failed" && res.heap[r].master == st.heap[r].master
            && (st.heap[r].conf.status != "failed" ==>
                  a in res.sessions && res.sessions[a].busy.None? && res.sessions[a].status == "ready")
            && (st.heap[r].conf.status == "failed" ==> res == st)
  {
    if st.heap[r].conf.status != "failed" {
      assert "failed" != "deleted";
      StatusStep(st, cfg, r, "failed");
    }
  }

  /** `FailAndFree` keeps the master's completion time, and afterwards the
      master's children are all done exactly when they are once the build
      counts as `failed`. */
  lemma FailAndFreeMaster(st: State, cfg: Config, a: AgentRef, r: BuildRef)
    requires Core(st) && a in st.sessions && r in st.heap && st.heap[r].master.Some?
    ensures var res := FailAndFree(st, cfg, a, r);
            var m := st.heap[r].master.value;
            m in st.heap && st.heap[m].platforms.Some? && m in res.heap
            && res.heap[m].conf.completed == st.heap[m].conf.completed
            && (AllDone(res.heap, m) <==> DoneWith(st.heap, m, r, "failed"))
  {
    var m := st.heap[r].master.value;
    assert LinksOk(st.heap, r);
    if st.heap[r].conf.status != "failed" {
      assert "failed" != "deleted";
      AllDoneAfter(st, cfg, r, "failed");
      SiblingsKept(st, cfg, r, "failed");
    } else {
      assert AllDone(st.heap, m) <==> DoneWith(st.heap, m, r, "failed");
    }
  }

  /** The completion check stamps the master, if all its children are
      done, and nothing else. */
  lemma MarkMasterEffect(st: State, r: BuildRef, now: int)
    requires Core(st) && r in st.heap
    ensures var res := MarkMasterIfDone(st, r, now);
            res.heap[r] == st.heap[r] && res.events == st.events
            && (st.heap[r].master.Some? ==>
                  var m := st.heap[r].master.value;
                  m in st.heap && m in res.heap
                  && res.heap[m].conf.completed == if AllDone(st.heap, m) then Some(now) else st.heap[m].conf.completed)
  {
    assert LinksOk(st.heap, r);
    var mb := st.heap[r].master;
    if mb.Some? && AllDone(st.heap, mb.value) {
      var m := mb.value;
      var res := Completed(st, m, now);
      assert res.heap == st.heap[m := st.heap[m].(conf := st.heap[m].conf.(completed := Some(now)))];
    }
  }

  /** A known build ends up failed and is saved next to its master's
      outputs; if it was not failed before, the agent is freed and
      `ready`, otherwise no agent changes. */
  lemma BuildFailedFrees(st: State, cfg: Config, a: AgentRef, id: string, now: int)
    requires Core(st) && a in st.sessions && id in st.ids
    ensures var res := AfterBuildFailed(st, cfg, a, id, now);
            var r := st.ids[id];
            r in res.heap && res.heap[r].conf.status == "failed"
            && (st.heap[r].conf.status != "failed" ==>
                  a in res.sessions && res.sessions[a].busy.None? && res.sessions[a].status == "ready")
            && (st.heap[r].conf.status == "failed" ==> res.sessions == st.sessions)
            && |res.events| > 0
            && res.events[|res.events| - 1] == Saved(r, PlatformJsonPath(OutputFolder(cfg, st.heap, r), st.heap[r]))
  {
    var r := st.ids[id];
    FailAndFreeStatus(st, cfg, a, r);
    MarkMasterEffect(FailAndFree(st, cfg, a, r), r, now);
  }

  /** A failed build's master is completed at `now` exactly when all its
      children are done, the failed build counted as `failed`; otherwise
      its completion time is left alone. */
  lemma BuildFailedCompletion(st: State, cfg: Config, a: AgentRef, id: string, now: int)
    requires Core(st) && a in st.sessions && id in st.ids && st.heap[st.ids[id]].master.Some?
    ensures var res := AfterBuildFailed(st, cfg, a, id, now);
            var r := st.ids[id];
            var m := st.heap[r].master.value;
            m in st.heap && st.heap[m].platforms.Some? && m in res.heap
            && res.heap[m].conf.completed
               == if DoneWith(st.heap, m, r, "failed") then Some(now) else st.heap[m].conf.completed
  {
    var r := st.ids[id];
    FailAndFreeStatus(st, cfg, a, r);
    FailAndFreeMaster(st, cfg, a, r);
    MarkMasterEffect(FailAndFree(st, cfg, a, r), r, now);
  }

  /** As written, the completion check runs before the build is marked
      failed: when the failing build is the last child not done, its
      master is never completed, while the corrected order completes it. */
  lemma AsWrittenMissesLastFailure(st: State, cfg: Config, a: AgentRef, id: string, now: int)
    requires Core(st) && a in st.sessions && id in st.ids
    requires st.heap[st.ids[id]].master.Some? && !Done(st.heap[st.ids[id]].conf.status)
    requires var r := st.ids[id];
             var m := st.heap[r].master.value;
             m in st.heap && st.heap[m].platforms.Some? && r in st.heap[m].platforms.value
             && st.heap[m].conf.completed.None? && DoneWith(st.heap, m, r, "failed")
    ensures var m := st.heap[st.ids[id]].master.value;
            AfterBuildFailedAsWritten(st, cfg, a, id, now).heap[m].conf.completed.None?
            && AfterBuildFailed(st, cfg, a, id, now).heap[m].conf.completed == Some(now)
  {
    var r := st.ids[id];
    var m := st.heap[r].master.value;
    assert !AllDone(st.heap, m);
    assert MarkMasterIfDone(st, r, now) == st;
    assert "failed" != "deleted";
    SiblingsKept(st, cfg, r, "failed");
    BuildFailedCompletion(st, cfg, a, id, now);
  }
}
