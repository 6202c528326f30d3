/** The agent process (`AgentWorker`): it holds the build it is working on,
    gates everything it sends on that build not being cancelled, accepts
    builds from the coordinator, classifies the outcome of the commands it
    runs, and reports success (uploading the output files) or failure.

    Socket emission is recorded in `sent`, in order, and the requests to
    write `build.<platform>.json` in `saved`; disk contents, globbing and
    command outcomes are parameters of the continuations that receive
    them. */
module AgentWorkers {
  import opened Wrappers
  import opened Strings
  import opened Builds
  import opened Messages
  import ServerUtils

  /** What the agent emits on its socket. */
  datatype Emit =
    | Building(id: string)
    | LogMsg(m: Msg)
    | Uploading(id: string)
    | Succeeded(w: Wire)
    | Failed(w: Wire)

  /** The settings the agent was started with: `keep`, `reuseworkfolder`,
      `conf.platform` (as used in its cleanup message) and `agentwork` ("" when
      not given). */
  datatype AgentConf = AgentConf(keep: int, reuse: bool, platform: string, agentwork: string)

  /** The object a `build` event carries: nothing, or a deserialised build
      (conf absent or present). */
  datatype Payload = NoPayload | Payload(conf: Option<Conf>, id: string, masterId: string, files: seq<FileEntry>)

  /** How `onBuild` ended: a platform sequence was started, the build was
      reported as failed, or the handler stopped with an exception. */
  datatype Dispatch = Started(platform: string) | Refused | Threw

  /** An error handed to an `exec` callback: its `code` (0 when it has
      none) and its `message`. */
  datatype ExecError = ExecError(code: int, message: string)

  const Cancelled: string := "cancelled"

  /** Whether the agent may emit: no current build, or one that is not
      cancelled. */
  predicate Open(b: Option<Build>) {
    b.None? || b.value.conf.status != Cancelled
  }

  /** The events `emit` lets through for the current build `b`. */
  function Gate(b: Option<Build>, es: seq<Emit>): (r: seq<Emit>)
    ensures Open(b) ==> r == es
    ensures !Open(b) ==> r == []
  {
    if Open(b) then es else []
  }

  /** Gating a list is gating its parts. */
  lemma GateAppend(b: Option<Build>, xs: seq<Emit>, ys: seq<Emit>)
    ensures Gate(b, xs + ys) == Gate(b, xs) + Gate(b, ys)
  {
  }

  /** A log message from the agent worker `worker` (its `id`; it has no
      `name`), with signature `AW`. */
  function AW(worker: string, about: Subject, priority: int, template: string, args: seq<string>): Msg {
    Make(about, SenderObj(worker, ""), "AW", priority, template, args)
  }

  function Regarding(b: Build): Subject {
    SubjectBuild(b.id, b.conf.number)
  }

  /** `conf.platform` as text, as it is put into the save path and the
      log messages; a list is joined with commas. */
  function PlatformName(c: Conf): string {
    PlatformText(c.platform)
  }

  /** Whether the `switch` on `conf.platform` has a case for it: it
      compares with `===`, so only a single platform name can match. */
  predicate Supported(c: Conf) {
    c.platform.One? && c.platform.name in {"wp8", "android", "ios"}
  }

  /** A build with no master object and no children, as every build on an
      agent is. */
  predicate Standalone(b: Build) {
    b.master.None? && b.platforms.None?
  }

  /** The one-build heap `serialize` is evaluated in. */
  function Alone(b: Build): (h: Heap)
    requires Standalone(b)
    ensures Wf(h) && 0 in h && h[0] == b
  {
    map[0 := b]
  }

  /** `build.serialize(opts)` of a build on the agent. */
  function Wired(b: Build, opts: Options): Wire
    requires Standalone(b)
  {
    Serialize(Alone(b), 0, opts, NoOptions)
  }

  /** `path.resolve(build.locationPath, 'build.' + platform + '.json')`. */
  function SavePath(location: string, b: Build): string {
    Resolve(location, "build." + PlatformName(b.conf) + ".json")
  }

  // ---------------------------------------------------------------------
  // Messages
  // ---------------------------------------------------------------------

  const CannotCreateFolder: string := "Cannot create folder: {2}"
  const FailedBanner: string := "*** BUILD FAILED on {2} ***"
  const UnknownPlatform: string := "unknown platform"
  const NoPlatformGiven: string := "No platform was specified for the requested build!"
  const Unsupported: string := "Platform '{2}' was requested for this build but this agent doesn't support it!"
  const ExitedWith: string := "process exited with error code {2}"
  const ErrorOut: string := "error:\n{2}"
  const StderrOut: string := "stderror:\n{2}"
  const GlobFailed: string := "error globbing {2}"
  const ReadingOutputs: string := "[Agent WORKER] cordova build agent worker output files"
  const UploadingResults: string := "Uploading results file(s) to cordova build server..."

  /** The platform the failure banner names. */
  function BannerPlatform(b: Build): string {
    if PlatformGiven(b.conf.platform) then PlatformName(b.conf) else UnknownPlatform
  }

  /** The build after `buildFailed`: its input files lose their contents. */
  function Freed(b: Build): (b': Build)
    ensures b'.conf == b.conf && b'.id == b.id && b'.masterId == b.masterId
    ensures b'.master == b.master && b'.platforms == b.platforms && b'.outputFiles == b.outputFiles
    ensures |b'.files| == |b.files|
    ensures forall i :: 0 <= i < |b.files| ==> b'.files[i] == b.files[i].(content := None)
  {
    b.(files := ServerUtils.Freed(b.files))
  }

  /** What `buildFailed` emits for a build that is not cancelled: the
      error (the message with the stack appended), the banner, then
      `build-failed` with the serialised build. */
  function FailureReport(worker: string, b: Build, text: string, args: seq<string>): (es: seq<Emit>)
    requires Standalone(b)
    ensures |es| == 3 && es[2] == Failed(Wired(Freed(b), NoOptions))
    ensures es[0] == LogMsg(AW(worker, Regarding(b), Error, text, args))
    ensures es[1] == LogMsg(AW(worker, Regarding(b), Error, FailedBanner, [BannerPlatform(b)]))
  {
    [LogMsg(AW(worker, Regarding(b), Error, text, args)),
     LogMsg(AW(worker, Regarding(b), Error, FailedBanner, [BannerPlatform(b)])),
     Failed(Wired(Freed(b), NoOptions))]
  }

  // ---------------------------------------------------------------------
  // exec: exit classification
  // ---------------------------------------------------------------------

  /** The callback's test `err && (!err.code || err.code !== 1)`. */
  predicate ErrFails(err: Option<ExecError>) {
    err.Some? && err.value.code != 1
  }

  /** The `close` handler's test `code && code !== 1`. */
  predicate ExitFails(code: int) {
    code != 0 && code != 1
  }

  /** Exit code 1 is never a failure, any other non-zero code is, and an
      error without a code fails like one with a code other than 1. */
  lemma ExitClassification(code: int, message: string)
    ensures !ExitFails(1) && !ErrFails(Some(ExecError(1, message)))
    ensures code != 0 && code != 1 ==> ExitFails(code) && ErrFails(Some(ExecError(code, message)))
    ensures ExitFails(code) <==> code !in {0, 1}
    ensures ErrFails(Some(ExecError(0, message))) && !ErrFails(None)
  {
  }

  /** The text of an error object, as `String(err)` gives it. */
  function ErrText(e: ExecError): string {
    "Error: " + e.message
  }

  /** `err && err.message || ''`. */
  function ErrMessage(err: Option<ExecError>): string {
    if err.Some? then err.value.message else ""
  }

  /** The messages the `exec` callback logs, in order. */
  function ExecLogs(worker: string, b: Build, err: Option<ExecError>, stdout: string, stderr: string): (es: seq<Emit>)
    ensures |es| <= 3
    ensures stdout == "" && !ErrFails(err) && stderr == "" ==> es == []
    ensures stdout != "" ==> es != [] && es[0] == LogMsg(AW(worker, Regarding(b), BuildLog, "{2}", [stdout]))
  {
    (if stdout != "" then [LogMsg(AW(worker, Regarding(b), BuildLog, "{2}", [stdout]))] else [])
    + (if ErrFails(err) then [LogMsg(AW(worker, Regarding(b), Error, ErrorOut, [ErrText(err.value)]))] else [])
    + (if stderr != "" && !Contains(ErrMessage(err), stderr)
       then [LogMsg(AW(worker, Regarding(b), Error, StderrOut, [stderr]))] else [])
  }

  /** Whether the `exec` callback fails the build: any output on stderr, or
      an error that fails. */
  predicate ExecFails(err: Option<ExecError>, stderr: string) {
    stderr != "" || ErrFails(err)
  }

  /** A chunk of standard output that mentions `error:` in any case. */
  predicate MentionsError(data: string) {
    Contains(LowerAll(data), "error:")
  }

  // ---------------------------------------------------------------------
  // uploadFiles
  // ---------------------------------------------------------------------

  /** The extensions whose output files get the configured name. */
  predicate Packaged(ext: string) {
    ext == ".ipa" || ext == ".apk" || ext == ".xap"
  }

  /** An output file after the `switch` on its extension: a package gets
      `conf.name` plus its extension as `name`, when a name is configured. */
  function Label(f: FileEntry, name: string): (g: FileEntry)
    ensures g.file == f.file && g.group == f.group && g.content == f.content
    ensures name != "" && Packaged(Extname(f.file)) ==> g.name == name + Extname(f.file)
    ensures !(name != "" && Packaged(Extname(f.file))) ==> g == f
  {
    if name != "" && Packaged(Extname(f.file)) then f.(name := name + Extname(f.file)) else f
  }

  /** An output file as it is uploaded: labelled, with its base name. */
  function Ship(f: FileEntry, name: string): FileEntry {
    Label(f, name).(file := Basename(f.file))
  }

  /** `file.content.data.length`, 0 for a file without content. */
  function Size(f: FileEntry): nat {
    if f.content.Some? then |f.content.value| else 0
  }

  function TotalSize(fs: seq<FileEntry>): nat
    decreases |fs|
  {
    if fs == [] then 0 else TotalSize(fs[..|fs| - 1]) + Size(fs[|fs| - 1])
  }

  /** The output files as the agent keeps them after the upload: labelled,
      with their full paths and without contents. */
  function Kept(fs: seq<FileEntry>, name: string): (r: seq<FileEntry>)
    ensures |r| == |fs|
    ensures forall i :: 0 <= i < |fs| ==> r[i] == Label(fs[i], name).(content := None)
  {
    seq(|fs|, i requires 0 <= i < |fs| => Label(fs[i], name).(content := None))
  }

  /** The output files as they are uploaded. */
  function Shipped(fs: seq<FileEntry>, name: string): (r: seq<FileEntry>)
    ensures |r| == |fs|
    ensures forall i :: 0 <= i < |fs| ==> r[i] == Ship(fs[i], name)
  {
    seq(|fs|, i requires 0 <= i < |fs| => Ship(fs[i], name))
  }

  const Upload := Options(false, true, false, true)

  /** `build.conf.name` ("" when unset). */
  function ConfName(b: Build): string {
    if "name" in b.conf.keys then b.conf.keys["name"] else ""
  }

  /** The upload sends base names with contents, while the files the agent
      keeps have their full paths back and no contents. */
  lemma UploadedNames(b: Build, fs: seq<FileEntry>, i: nat)
    requires Standalone(b) && i < |fs|
    ensures var w := Wired(b.(outputFiles := Shipped(fs, ConfName(b))), Upload);
            w.outputFiles.Some? && |w.outputFiles.value| == |fs|
            && w.outputFiles.value[i].file == Basename(fs[i].file)
            && w.outputFiles.value[i].content == fs[i].content
            && (forall k :: 0 <= k < |w.outputFiles.value[i].file| ==> w.outputFiles.value[i].file[k] != '/')
    ensures Kept(fs, ConfName(b))[i].file == fs[i].file && Kept(fs, ConfName(b))[i].content.None?
  {
    var b' := b.(outputFiles := Shipped(fs, ConfName(b)));
    assert Wired(b', Upload).outputFiles == Some(WireOutputs(b'.outputFiles, true));
  }

  // ---------------------------------------------------------------------
  // The worker
  // ---------------------------------------------------------------------

  class AgentWorker {
    const id: string
    const conf: AgentConf
    var workFolder: string
    var build: Option<Build>
    var location: string
    var sent: seq<Emit>
    var saved: seq<string>

    /** `new AgentWorker(conf)`; `id` is the generated `shortid`. */
    constructor (id: string, conf: AgentConf)
      ensures this.id == id && this.conf == conf
      ensures workFolder == (if conf.agentwork != "" then conf.agentwork else "work")
      ensures build.None? && sent == [] && saved == [] && Valid()
    {
      this.id := id;
      this.conf := conf;
      workFolder := if conf.agentwork != "" then conf.agentwork else "work";
      build := None;
      location := "";
      sent := [];
      saved := [];
    }

    /** Every build the worker holds is a standalone one. */
    predicate Valid()
      reads this
    {
      build.Some? ==> Standalone(build.value)
    }

    /** Whether the current build is cancelled. */
    predicate Halted()
      reads this
    {
      !Open(build)
    }

    /** `emit(event, payload)`: sent unless the current build is cancelled;
        the result says whether it was. */
    method Send(e: Emit) returns (ok: bool)
      modifies this`sent
      ensures ok == Open(build)
      ensures sent == old(sent) + Gate(build, [e])
    {
      ok := Open(build);
      if ok {
        sent := sent + [e];
      }
    }

    /** `log(build, priority, message, args...)`: the message goes out
        through `emit`. */
    method Log(about: Subject, priority: int, template: string, args: seq<string>)
      modifies this`sent
      ensures sent == old(sent) + Gate(build, [LogMsg(AW(id, about, priority, template, args))])
    {
      var _ := Send(LogMsg(AW(id, about, priority, template, args)));
    }

    /** `ensureWorkFolder(done)`: `mkdirErr` is the outcome of creating the
        folder, handed on to `done`; a failure is logged first. */
    method EnsureWorkFolder(mkdirErr: Option<string>) returns (err: Option<string>)
      modifies this`sent
      ensures err == mkdirErr
      ensures mkdirErr.None? ==> sent == old(sent)
      ensures mkdirErr.Some? ==>
        sent == old(sent) + Gate(build, [LogMsg(AW(id, NoSubject, Error, CannotCreateFolder, [workFolder]))])
    {
      if mkdirErr.Some? {
        Log(NoSubject, Error, CannotCreateFolder, [workFolder]);
      }
      err := mkdirErr;
    }

    /** `onCancelBuild()`: the current build becomes `cancelled`. The
        source's `this.exec.kill()` reaches the prototype method `exec`,
        which has no `kill`; the exception is swallowed, so no process is
        stopped. With no current build the handler throws and nothing
        changes. */
    method OnCancelBuild()
      requires Valid()
      modifies this`build
      ensures old(build).Some? ==> build == Some(SetStatus(old(build).value, Cancelled))
      ensures old(build).None? ==> build == old(build)
      ensures Valid() && Halted() == old(build).Some?
    {
      if build.Some? {
        build := Some(SetStatus(build.value, Cancelled));
      }
    }

    /** `buildFailed(build, err, args...)` for the current build: nothing
        once it is cancelled; otherwise the error text (with the `stack`
        appended) and a banner are logged, the input files are freed,
        `build.<platform>.json` is saved and `build-failed` is emitted. */
    method BuildFailed(text: string, args: seq<string>, stack: string)
      requires Valid() && build.Some?
      modifies this`build, this`sent, this`saved
      ensures Valid()
      ensures old(build.value.conf.status) == Cancelled ==>
        build == old(build) && sent == old(sent) && saved == old(saved)
      ensures old(build.value.conf.status) != Cancelled ==>
        build == Some(Freed(old(build.value)))
        && saved == old(saved) + [SavePath(location, old(build.value))]
        && sent == old(sent) + FailureReport(id, old(build.value), text + "\n" + stack, args)
    {
      var b := build.value;
      if b.conf.status == Cancelled {
        return;
      }
      Log(Regarding(b), Error, text + "\n" + stack, args);
      Log(Regarding(b), Error, FailedBanner, [BannerPlatform(b)]);
      var files := ServerUtils.FreeMemFiles(b.files);
      build := Some(b.(files := files));
      saved := saved + [SavePath(location, b)];
      var _ := Send(Failed(Wired(build.value, NoOptions)));
    }

    /** The part of `uploadFiles` that talks to the coordinator: the size
        announcement, the renaming, and `build-success`. */
    method Announce(b: Build, outputFiles: seq<FileEntry>, sizeText: string)
      returns (paths: seq<string>, shipped: seq<FileEntry>)
      requires Standalone(b)
      modifies this`sent
      ensures |paths| == |outputFiles| && forall i :: 0 <= i < |outputFiles| ==> paths[i] == outputFiles[i].file
      ensures shipped == Shipped(outputFiles, ConfName(b))
      ensures sent == old(sent) + Gate(build, UploadReport(id, b, outputFiles, sizeText))
    {
      NoteSize(b, outputFiles, sizeText);
      paths, shipped := Rename(outputFiles, ConfName(b));
      var done := Succeeded(Wired(b.(outputFiles := shipped), Upload));
      var _ := Send(done);
      GateAppend(build, SizeNote(id, b, outputFiles, sizeText), [done]);
    }

    /** The size announcement of `uploadFiles`, logged only when the
        output files are not empty. */
    method NoteSize(b: Build, outputFiles: seq<FileEntry>, sizeText: string)
      modifies this`sent
      ensures sent == old(sent) + Gate(build, SizeNote(id, b, outputFiles, sizeText))
    {
      var size := SizeOf(outputFiles);
      if size != 0 {
        Log(Regarding(b), Info, UploadingResults + sizeText, []);
      } else {
        assert Gate(build, []) == [];
      }
    }

    /** `onBuild(build)`. A payload with a platform (a non-empty name, or
        a list, which is truthy even when empty) becomes the current build,
        located in the work folder (reuse mode) or in a folder named after
        its `Id()`, and is started when its platform is the name `wp8`,
        `android` or `ios`; any other platform, a list included, is
        failed. `building` is
        emitted before the new build replaces the old one, so the old
        build's status decides whether it is sent. A missing payload, or
        one without `conf`, makes `buildFailed` throw at its first line,
        which reads `build.conf.status`, so nothing is sent. A payload with
        a `conf` but no platform is refused with the intended failure
        report (see `RejectAsWritten` for what the source does). */
    method OnBuild(p: Payload, freshId: string, stack: string) returns (d: Dispatch)
      requires Valid()
      modifies this`build, this`sent, this`saved, this`location
      ensures Valid()
      ensures (p.NoPayload? || p.conf.None?) ==>
        d == Threw && sent == old(sent) && build == old(build) && saved == old(saved)
      ensures p.Payload? && p.conf.Some? && !PlatformGiven(p.conf.value.platform) ==>
        d == Refused && build == old(build) && saved == old(saved)
        && sent == old(sent) + RejectIntended(id, old(build), p, NoPlatformGiven, stack)
      ensures p.Payload? && p.conf.Some? && PlatformGiven(p.conf.value.platform) ==>
        location == (if conf.reuse then workFolder else Resolve(workFolder, Id(Accepted(p, freshId))))
      ensures p.Payload? && p.conf.Some? && Supported(p.conf.value) ==>
        d == Started(PlatformName(p.conf.value)) && build == Some(Accepted(p, freshId))
        && sent == old(sent) + Gate(old(build), [Building(p.id)]) && saved == old(saved)
      ensures p.Payload? && p.conf.Some? && PlatformGiven(p.conf.value.platform) && !Supported(p.conf.value) ==>
        d == Refused
        && (p.conf.value.status == Cancelled ==>
              build == Some(Accepted(p, freshId)) && saved == old(saved)
              && sent == old(sent) + Gate(old(build), [Building(p.id)]))
        && (p.conf.value.status != Cancelled ==>
              build == Some(Freed(Accepted(p, freshId)))
              && saved == old(saved) + [SavePath(location, Accepted(p, freshId))]
              && sent == old(sent) + Gate(old(build), [Building(p.id)]) + FailureReport(id, Accepted(p, freshId), Unsupported + "\n" + stack, [PlatformName(p.conf.value)]))
    {
      if p.NoPayload? || p.conf.None? {
        return Threw;
      }
      if !PlatformGiven(p.conf.value.platform) {
        RejectPayload(p, NoPlatformGiven, stack);
        return Refused;
      }
      var _ := Send(Building(p.id));
      var b := Accepted(p, freshId);
      build := Some(b);
      location := if conf.reuse then workFolder else Resolve(workFolder, Id(b));
      if Supported(b.conf) {
        d := Started(PlatformName(b.conf));
      } else {
        BuildFailed(Unsupported, [PlatformName(b.conf)], stack);
        d := Refused;
      }
    }

    /** The intended report for a payload that cannot be built. */
    method RejectPayload(p: Payload, why: string, stack: string)
      requires p.Payload?
      modifies this`sent
      ensures sent == old(sent) + RejectIntended(id, build, p, why, stack)
    {
      if PayloadCancelled(p) {
        return;
      }
      var b := AsBuild(p);
      Log(Regarding(b), Error, why + "\n" + stack, []);
      Log(Regarding(b), Error, FailedBanner, [BannerPlatform(b)]);
      sent := sent + [Failed(Wired(Freed(b), NoOptions))];
    }

    /** The `exec` callback `(err, stdout, stderr)` for the current build:
        nothing once it is cancelled; otherwise the output and the error
        are logged, the caller's callback runs (not modelled), and the
        build fails when there was output on stderr or an error that
        fails. */
    method ExecFinished(err: Option<ExecError>, stdout: string, stderr: string, stack: string)
      requires Valid() && build.Some?
      modifies this`build, this`sent, this`saved
      ensures Valid()
      ensures old(build.value.conf.status) == Cancelled ==> sent == old(sent) && build == old(build) && saved == old(saved)
      ensures old(build.value.conf.status) != Cancelled ==>
        (ExecFails(err, stderr) ==>
          sent == old(sent) + ExecLogs(id, old(build.value), err, stdout, stderr)
                  + FailureReport(id, old(build.value), "\n" + stack, []))
        && (!ExecFails(err, stderr) ==>
          sent == old(sent) + ExecLogs(id, old(build.value), err, stdout, stderr) && build == old(build))
    {
      var b := build.value;
      if b.conf.status == Cancelled {
        return;
      }
      // each message goes through `log`, whose gate is open here
      sent := sent + ExecLogs(id, b, err, stdout, stderr);
      if ExecFails(err, stderr) {
        BuildFailed("", [], stack);
        assert "" + "\n" == "\n";
      }
    }

    /** The `close` handler of an executed command: a code other than 0
        and 1 fails the build with `exitCodeError` (or the default
        message). */
    method ExecClosed(code: int, exitCodeError: string, stack: string)
      requires Valid() && build.Some?
      modifies this`build, this`sent, this`saved
      ensures Valid()
      ensures (old(build.value.conf.status) == Cancelled || !ExitFails(code)) ==>
        sent == old(sent) && build == old(build) && saved == old(saved)
      ensures old(build.value.conf.status) != Cancelled && ExitFails(code) ==>
        sent == old(sent) + FailureReport(id, old(build.value),
                  (if exitCodeError != "" then exitCodeError else ExitedWith) + "\n" + stack, [IntText(code)])
    {
      if build.value.conf.status == Cancelled {
        return;
      }
      if ExitFails(code) {
        BuildFailed(if exitCodeError != "" then exitCodeError else ExitedWith, [IntText(code)], stack);
      }
    }

    /** A chunk of the command's standard output: one that mentions
        `error:` fails the build, any other is logged. */
    method ExecStdout(data: string, stack: string)
      requires Valid() && build.Some?
      modifies this`build, this`sent, this`saved
      ensures Valid()
      ensures MentionsError(data) && old(build.value.conf.status) != Cancelled ==>
        sent == old(sent) + FailureReport(id, old(build.value), data + "\n" + stack, [])
      ensures !MentionsError(data) ==>
        build == old(build)
        && sent == old(sent) + Gate(build, [LogMsg(AW(id, Regarding(build.value), BuildLog, data, []))])
    {
      if MentionsError(data) {
        BuildFailed(data, [], stack);
      } else {
        Log(Regarding(build.value), BuildLog, data, []);
      }
    }

    /** A chunk of the command's standard error, logged as an error. */
    method ExecStderr(data: string)
      requires Valid() && build.Some?
      modifies this`sent
      ensures sent == old(sent) + Gate(build, [LogMsg(AW(id, Regarding(build.value), Error, data, []))])
    {
      Log(Regarding(build.value), Error, data, []);
    }

    /** `buildSuccess(build, globFiles)` once the glob has run: nothing for
        a cancelled build; a glob error fails the build; otherwise the
        found files (resolved in the build's folder) are announced with
        `uploading` and read from `disk`. The read files and the read error
        are handed to `FilesRead`. */
    method Globbed(globErr: bool, found: seq<string>, globFiles: seq<string>, disk: ServerUtils.Disk, stack: string)
      returns (read: seq<FileEntry>, readErr: Option<string>)
      requires Valid() && build.Some?
      modifies this`build, this`sent, this`saved
      ensures Valid()
      ensures old(build.value.conf.status) == Cancelled ==> sent == old(sent) && build == old(build) && saved == old(saved)
      ensures old(build.value.conf.status) != Cancelled && globErr ==>
        sent == old(sent) + FailureReport(id, old(build.value), GlobFailed + "\n" + stack, [Join(globFiles, ",")])
      ensures old(build.value.conf.status) != Cancelled && !globErr ==>
        sent == old(sent) + [Uploading(old(build.value).id)] && build == old(build)
        && |read| == |found|
        && (forall i :: 0 <= i < |found| ==>
              read[i] == ServerUtils.ReadFile(Located(location, found[i]), disk))
    {
      read, readErr := [], None;
      if build.value.conf.status == Cancelled {
        return;
      }
      if globErr {
        BuildFailed(GlobFailed, [Join(globFiles, ",")], stack);
        return;
      }
      var files := LocatedAll(location, found);
      var _ := Send(Uploading(build.value.id));
      read, readErr := ServerUtils.ReadFiles(files, ReadingOutputs, disk);
    }

    /** The `readFiles` callback: nothing for a cancelled build; a read
        error fails the build; otherwise the files are uploaded. */
    method FilesRead(files: seq<FileEntry>, readErr: Option<string>, sizeText: string, stack: string)
      requires Valid() && build.Some?
      modifies this`build, this`sent, this`saved
      ensures Valid()
      ensures old(build.value.conf.status) == Cancelled ==> sent == old(sent) && build == old(build) && saved == old(saved)
      ensures old(build.value.conf.status) != Cancelled && readErr.Some? ==>
        sent == old(sent) + FailureReport(id, old(build.value), readErr.value + "\n" + stack, [])
      ensures old(build.value.conf.status) != Cancelled && readErr.None? ==>
        build == Some(old(build.value).(outputFiles := Kept(files, ConfName(old(build.value)))))
        && saved == old(saved) + [SavePath(location, old(build.value))]
        && sent == old(sent) + UploadReport(id, old(build.value), files, sizeText)
    {
      if build.value.conf.status == Cancelled {
        return;
      }
      if readErr.Some? {
        var _ := ServerUtils.FreeMemFiles(files);
        BuildFailed(readErr.value, [], stack);
        return;
      }
      UploadFiles(files, sizeText);
    }

    /** `uploadFiles(build, outputFiles)`: the output files become the
        build's; a non-empty total size is announced (`sizeText` is the
        text the `filesize` package makes of it); every file is labelled
        and renamed to its base name, `build-success` is emitted with the
        contents, the full paths are restored, the contents freed and
        `build.<platform>.json` saved. */
    method UploadFiles(outputFiles: seq<FileEntry>, sizeText: string)
      requires Valid() && build.Some?
      modifies this`build, this`sent, this`saved
      ensures Valid()
      ensures build == Some(old(build.value).(outputFiles := Kept(outputFiles, ConfName(old(build.value)))))
      ensures saved == old(saved) + [SavePath(location, old(build.value))]
      ensures sent == old(sent) + Gate(old(build), UploadReport(id, old(build.value), outputFiles, sizeText))
    {
      var b := build.value;
      var name := ConfName(b);
      var paths, shipped := Announce(b, outputFiles, sizeText);
      var restored := Restore(shipped, paths);
      var freed := ServerUtils.FreeMemFiles(restored);
      KeptIs(outputFiles, name, shipped, paths, restored, freed);
      build := Some(b.(outputFiles := freed));
      saved := saved + [SavePath(location, b)];
    }
  }

  // ---------------------------------------------------------------------
  // Helpers of onBuild
  // ---------------------------------------------------------------------

  /** The payload as the build object `buildFailed` receives in the
      source: its conf (an empty one when absent), id and files. */
  function AsBuild(p: Payload): (b: Build)
    requires p.Payload?
    ensures Standalone(b) && b.id == p.id
  {
    Build(if p.conf.Some? then p.conf.value else Conf("", NoPlatform, "", [], None, None, false, map[]),
          p.id, p.masterId, None, None, p.files, [], None, None)
  }

  /** `new Build(build.conf, null, this, build.conf.platform, build.files,
      null, build.id, build.masterId)`. */
  function Accepted(p: Payload, freshId: string): (b: Build)
    requires p.Payload? && p.conf.Some?
    ensures Standalone(b) && b.conf == p.conf.value && b.files == p.files && b.outputFiles == []
    ensures b.id == (if p.id != "" then p.id else freshId) && b.masterId == p.masterId
  {
    NewBuild(p.conf.value, None, None, p.conf.value.platform, p.files, [], p.id, MasterIdString(p.masterId), freshId)
  }

  /** What the source sends for a payload with a `conf` but without a
      platform: `buildFailed` gets the raw payload, logs the error and the
      banner (through the old build's gate), then throws before
      `build-failed` goes out: at `freeMemFiles(build.files)` when the
      payload has no files, and otherwise at
      `path.resolve(build.locationPath, …)`, since a raw payload has no
      `locationPath`. A payload already `cancelled` returns at once. */
  function RejectAsWritten(worker: string, prev: Option<Build>, p: Payload, why: string, stack: string): seq<Emit>
    requires p.Payload?
  {
    if PayloadCancelled(p) then [] else RejectLogs(worker, prev, p, why, stack)
  }

  predicate PayloadCancelled(p: Payload)
    requires p.Payload?
  {
    p.conf.Some? && p.conf.value.status == Cancelled
  }

  /** The error and the banner `buildFailed` logs about the payload. */
  function RejectLogs(worker: string, prev: Option<Build>, p: Payload, why: string, stack: string): seq<Emit>
    requires p.Payload?
  {
    Gate(prev, [LogMsg(AW(worker, Regarding(AsBuild(p)), Error, why + "\n" + stack, [])),
               LogMsg(AW(worker, Regarding(AsBuild(p)), Error, FailedBanner, [BannerPlatform(AsBuild(p))]))])
  }

  /** The evident intent: the payload is reported as failed. */
  function RejectIntended(worker: string, prev: Option<Build>, p: Payload, why: string, stack: string): seq<Emit>
    requires p.Payload?
  {
    if PayloadCancelled(p) then []
    else RejectLogs(worker, prev, p, why, stack) + [Failed(Wired(Freed(AsBuild(p)), NoOptions))]
  }

  /** As written, the coordinator never hears that the build failed. */
  lemma RejectAsWrittenNeverReports(worker: string, prev: Option<Build>, p: Payload, why: string, stack: string)
    requires p.Payload?
    ensures forall e :: e in RejectAsWritten(worker, prev, p, why, stack) ==> e.LogMsg?
  {
  }

  /** The intended refusal of a payload that is not cancelled ends with
      `build-failed` for the payload's id, whatever the previous build's
      status; it differs from the code as written by that report alone. */
  lemma RejectIntendedReports(worker: string, prev: Option<Build>, p: Payload, why: string, stack: string)
    requires p.Payload?
    ensures var es := RejectIntended(worker, prev, p, why, stack);
            !PayloadCancelled(p) ==>
              es != [] && es[|es| - 1].Failed? && es[|es| - 1].w.id == p.id
              && es[..|es| - 1] == RejectAsWritten(worker, prev, p, why, stack)
    ensures PayloadCancelled(p) ==> RejectIntended(worker, prev, p, why, stack) == RejectAsWritten(worker, prev, p, why, stack) == []
  {
  }

  /** After a cancelled build, `building` is not announced for the next
      one, since the gate still looks at the old build. */
  lemma BuildingGatedByOldBuild(prev: Build, id: string)
    requires prev.conf.status == Cancelled
    ensures Gate(Some(prev), [Building(id)]) == []
  {
  }

  // ---------------------------------------------------------------------
  // Helpers of buildSuccess and uploadFiles
  // ---------------------------------------------------------------------

  /** `{file: path.resolve(workFolder, file)}`. */
  function Located(location: string, path: string): FileEntry {
    FileEntry(Resolve(location, path), "", "", None)
  }

  function LocatedAll(location: string, paths: seq<string>): (r: seq<FileEntry>)
    ensures |r| == |paths| && forall i :: 0 <= i < |paths| ==> r[i] == Located(location, paths[i])
  {
    seq(|paths|, i requires 0 <= i < |paths| => Located(location, paths[i]))
  }

  /** What `uploadFiles` emits: the size announcement when the contents
      are not empty, then `build-success` with the shipped files. */
  function UploadReport(worker: string, b: Build, fs: seq<FileEntry>, sizeText: string): (es: seq<Emit>)
    requires Standalone(b)
    ensures es != [] && es[|es| - 1] == Succeeded(Wired(b.(outputFiles := Shipped(fs, ConfName(b))), Upload))
    ensures |es| == (if TotalSize(fs) != 0 then 2 else 1)
  {
    SizeNote(worker, b, fs, sizeText) + [Succeeded(Wired(b.(outputFiles := Shipped(fs, ConfName(b))), Upload))]
  }

  /** The size announcement, made only when some output file has contents. */
  function SizeNote(worker: string, b: Build, fs: seq<FileEntry>, sizeText: string): seq<Emit> {
    if TotalSize(fs) != 0 then [LogMsg(AW(worker, Regarding(b), Info, UploadingResults + sizeText, []))] else []
  }

  /** The size loop of `uploadFiles`. */
  method SizeOf(fs: seq<FileEntry>) returns (size: nat)
    ensures size == TotalSize(fs)
  {
    size := 0;
    var i := 0;
    while i < |fs|
      invariant 0 <= i <= |fs| && size == TotalSize(fs[..i])
    {
      assert fs[..i + 1][..i] == fs[..i];
      size := size + Size(fs[i]);
      i := i + 1;
    }
    assert fs[..|fs|] == fs;
  }

  /** The first `forEach` of `uploadFiles`: remember each path, label the
      file and keep only its base name. */
  method Rename(fs: seq<FileEntry>, name: string) returns (paths: seq<string>, out: seq<FileEntry>)
    ensures |paths| == |fs| && forall i :: 0 <= i < |fs| ==> paths[i] == fs[i].file
    ensures out == Shipped(fs, name)
  {
    paths, out := [], [];
    var i := 0;
    while i < |fs|
      invariant 0 <= i <= |fs| && |paths| == i && |out| == i
      invariant forall k :: 0 <= k < i ==> paths[k] == fs[k].file && out[k] == Ship(fs[k], name)
    {
      var f := fs[i];
      paths := paths + [f.file];
      var g := Label(f, name);
      out := out + [g.(file := Basename(g.file))];
      i := i + 1;
    }
  }

  /** The second `forEach`: every file gets its remembered path back. */
  method Restore(fs: seq<FileEntry>, paths: seq<string>) returns (out: seq<FileEntry>)
    requires |paths| == |fs|
    ensures |out| == |fs| && forall i :: 0 <= i < |fs| ==> out[i] == fs[i].(file := paths[i])
  {
    out := [];
    var i := 0;
    while i < |fs|
      invariant 0 <= i <= |fs| && |out| == i
      invariant forall k :: 0 <= k < i ==> out[k] == fs[k].(file := paths[k])
    {
      out := out + [fs[i].(file := paths[i])];
      i := i + 1;
    }
  }

  /** Renaming, restoring and freeing leaves the labelled files with their
      own paths and no contents. */
  lemma KeptIs(fs: seq<FileEntry>, name: string, shipped: seq<FileEntry>, paths: seq<string>,
               restored: seq<FileEntry>, freed: seq<FileEntry>)
    requires |paths| == |fs| && forall i :: 0 <= i < |fs| ==> paths[i] == fs[i].file
    requires shipped == Shipped(fs, name)
    requires |restored| == |fs| && forall i :: 0 <= i < |fs| ==> restored[i] == shipped[i].(file := paths[i])
    requires freed == ServerUtils.Freed(restored)
    ensures freed == Kept(fs, name)
  {
  }
}
