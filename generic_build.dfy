/** The build sequence an agent runs for one build (`GenericBuild`): a
    chain of callbacks `s1Cleanup` ... `s8BuildExecuted`, each of which
    does nothing once the build is cancelled.

    Each stage is a method. Its inputs are the outcome of the I/O the
    previous stage asked for; its result `Step` names the I/O it asks for
    now and the stage that receives the outcome (or says that it stopped).
    The build, its location and its log go through the agent
    (`AgentWorker`) the sequence belongs to, as they do in the source,
    where `this.build` is the agent's current build object. */
module GenericBuilds {
  import opened Wrappers
  import opened Strings
  import opened Builds
  import opened Messages
  import opened AgentWorkers
  import ServerUtils

  // ---------------------------------------------------------------------
  // Stages and steps
  // ---------------------------------------------------------------------

  /** The continuations of the sequence. */
  datatype Stage =
    | CleanupDone         // s1CleanupDone
    | EmptyWorkFolder     // s2EmptyWorkFolder
    | WriteFiles          // s3WriteFiles
    | ProcessFiles        // s4ProcessFiles
    | AllFilesExtracted   // s6AllFilesExtracted
    | ModifyConfigXML     // s6ModifyConfigXML
    | ConfigRead          // the readFile callback of s6ModifyConfigXML
    | ConfigWritten       // the writeFile callback of s6ModifyConfigXML
    | BuildCordova        // s7BuildCordova
    | BuildExecuted       // s8BuildExecuted

  /** The I/O a stage asks for. */
  datatype Request =
    | CleanLastFolders(keep: int, pattern: string)
    | EnsureWorkFolder
    | Empty(glob: string)
    | Written(err: Option<string>)
    | Extract(archives: seq<string>, into: string)
    | FilesDoneHook
    | ReadConfig(path: string)
    | WriteConfig(path: string, text: string)
    | PreBuildHook
    | Run(cmd: string, cwd: string)

  /** Where a stage leaves the sequence: stopped because the build is
      cancelled, handed to the agent's `buildFailed`, waiting for a
      request, finished (the `done` hook runs), or left to the
      `onExecutingCordovaBuild` hook, which builds by itself. */
  datatype Step = Halt | Failing | Await(req: Request, next: Stage) | Done | HookBuilds

  /** Which hooks the platform sequence passed. */
  datatype Hooks = Hooks(filesDone: bool, preCordovaBuild: bool)

  /** The placeholder `{k}` for a digit `k`. */
  function Slot(k: nat): string
    requires k < 10
  {
    ['{', ('0' as int + k) as char, '}']
  }

  /** `cordova build {0} {1} --{2}`. */
  const DefaultCommand: string := "cordova build " + (Slot(0) + (" " + (Slot(1) + (" --" + (Slot(2) + "")))))

  const CleanupFailed: string := "Error while cleaning up last {2} folders in AGENT {3} working folder {4}:\n{5}"
  const EnsureFailed: string := "error creating the working folder {2}\n{3}"
  const CleaningFailed: string := "error cleaning the working folder {2}\n{3}"
  const AgentworkerOn: string := "the agentworker on {0}"
  const SavingFailed: string := "error while saving files on agent worker:\n{2}"
  const ExtractingFor: string := "extracting archives for {2}..."
  const ExtractingTo: string := "extracting {2} to {3}"
  const ExtractFailed: string := "error extracting archive files\n{2}"
  const ChangingBundle: string := "Changing bundleid to {2} in config.xml"
  const ReadingFailed: string := "error reading {2}\n{3}"
  const WritingFailed: string := "error writing bundleid {2} into {3}\n{4}"
  const StartFailed: string := "error starting build\n{2}"
  const BuildingOn: string := "building cordova on {2}..."
  const Executing: string := "Executing {2}"
  const ExitedWithCode: string := "child process exited with code "

  // ---------------------------------------------------------------------
  // The emptying glob
  // ---------------------------------------------------------------------

  /** The glob `s2EmptyWorkFolder` removes: the location, a `/` unless it
      already ends in `/` or `\`, then `*`. */
  function EmptyGlob(location: string): (g: string)
  {
    (if EndsWith(location, "/") || EndsWith(location, "\\") then location else location + "/") + "*"
  }

  /** The glob names everything directly inside the location. */
  lemma EmptyGlobShape(location: string)
    ensures var g := EmptyGlob(location);
            StartsWith(g, location) && g[|g| - 1] == '*' && |g| >= 2
            && (g[|g| - 2] == '/' || g[|g| - 2] == '\\')
            && (|g| == |location| + 1 <==> (EndsWith(location, "/") || EndsWith(location, "\\")))
  {
    var g := EmptyGlob(location);
    if EndsWith(location, "/") || EndsWith(location, "\\") {
      assert g == location + "*";
      assert g[..|location|] == location;
    } else {
      assert g == location + "/" + "*";
      assert g[..|location|] == location;
    }
  }

  // ---------------------------------------------------------------------
  // The bundle id and its rewrite
  // ---------------------------------------------------------------------

  function Setting(c: Conf, key: string): string {
    if key in c.keys then c.keys[key] else ""
  }

  /** `conf[platform + 'bundleid'] || conf.bundleid`. */
  function BundleId(c: Conf): (id: string)
    ensures Setting(c, PlatformName(c) + "bundleid") != "" ==> id == Setting(c, PlatformName(c) + "bundleid")
    ensures Setting(c, PlatformName(c) + "bundleid") == "" ==> id == Setting(c, "bundleid")
  {
    var own := Setting(c, PlatformName(c) + "bundleid");
    if own != "" then own else Setting(c, "bundleid")
  }

  const WidgetOpen: string := "<widget id="

  predicate IsQuote(c: char) {
    c == '"' || c == '\''
  }

  /** The characters `.` does not match. */
  predicate LineEnd(c: char) {
    c == '\n' || c == '\r' || c == '\U{2028}' || c == '\U{2029}'
  }

  /** Where the lazy `.*?(\"|\')` from position `j` ends: the first quote
      at or after `j`, or -1 when a line end or the end of `s` comes
      first. */
  function CloseFrom(s: string, j: nat): (k: int)
    requires j <= |s|
    ensures k == -1 || (j <= k < |s| && IsQuote(s[k]))
    decreases |s| - j
  {
    if j == |s| then -1
    else if IsQuote(s[j]) then j
    else if LineEnd(s[j]) then -1
    else CloseFrom(s, j + 1)
  }

  /** The length of the match of `/<widget id\=(\"|\').*?(\"|\')/` at the
      start of `s`, 0 when there is none. */
  function MatchLength(s: string): (n: nat)
    ensures n == 0 || 13 <= n <= |s|
  {
    if StartsWith(s, WidgetOpen) && |s| > 12 && IsQuote(s[11]) && CloseFrom(s, 12) >= 0
    then CloseFrom(s, 12) + 1
    else 0
  }

  function Replacement(id: string): string {
    WidgetOpen + "\"" + id + "\""
  }

  /** `data.replace(/<widget id\=(\"|\').*?(\"|\')/g, '<widget id="' + id + '"')`:
      matches are replaced from left to right, and the search goes on
      after each match. */
  function Rewrite(s: string, id: string): string
    decreases |s|
  {
    if s == [] then []
    else if MatchLength(s) > 0 then Replacement(id) + Rewrite(s[MatchLength(s)..], id)
    else [s[0]] + Rewrite(s[1..], id)
  }

  /** A text without `<widget id=` is left as it is. */
  lemma {:induction false} RewriteUntouched(s: string, id: string)
    requires !Contains(s, WidgetOpen)
    ensures Rewrite(s, id) == s
    decreases |s|
  {
    if s != [] {
      assert !StartsWith(s, WidgetOpen);
      RewriteUntouched(s[1..], id);
    }
  }

  /** The quote that closes a value of `n` characters without quotes or
      line ends. */
  lemma {:induction false} CloseAfter(s: string, j: nat, n: nat)
    requires j + n < |s| && IsQuote(s[j + n])
    requires forall k :: j <= k < j + n ==> !IsQuote(s[k]) && !LineEnd(s[k])
    ensures CloseFrom(s, j) == j + n
    decreases n
  {
    if n > 0 {
      CloseAfter(s, j + 1, n - 1);
    }
  }

  /** A widget id in either kind of quotes (the value holding neither
      quotes nor line ends) is replaced by the bundle id, and the rewrite
      goes on after it. */
  lemma RewriteWidget(open: char, v: string, close: char, rest: string, id: string)
    requires IsQuote(open) && IsQuote(close)
    requires forall k :: 0 <= k < |v| ==> !IsQuote(v[k]) && !LineEnd(v[k])
    ensures Rewrite(WidgetOpen + [open] + v + [close] + rest, id) == Replacement(id) + Rewrite(rest, id)
  {
    var s := WidgetOpen + [open] + v + [close] + rest;
    assert s[..11] == WidgetOpen;
    assert s[11] == open;
    assert s[12 + |v|] == close;
    forall k | 12 <= k < 12 + |v|
      ensures !IsQuote(s[k]) && !LineEnd(s[k])
    {
      assert s[k] == v[k - 12];
    }
    CloseAfter(s, 12, |v|);
    assert s[13 + |v|..] == rest;
  }

  // ---------------------------------------------------------------------
  // The command line
  // ---------------------------------------------------------------------

  const IosFilter: string := " | egrep -A 5 -i \"(error|warning|succeeded|fail|codesign|running|return)\""
  const AndroidFilter: string := "\"(error|warning|success|sign)\""

  /** The command `s7BuildCordova` runs: the template with the platform,
      the hook's arguments (or "") and the build mode (or `release`),
      followed on iOS and Android by the log pipeline; `linux` is
      `os.platform() === 'linux'`, and `tee` and `egrep` are the bundled
      tools used elsewhere. */
  function CommandLine(template: string, platform: string, args: string, mode: string,
                       location: string, linux: bool, tee: string, egrep: string): string
  {
    var cmd := Format(template, [platform, args, if mode != "" then mode else "release"]);
    if platform == "ios" then
      cmd + " | tee \"" + Resolve(location, "build.ios.xcodebuild.log") + "\"" + IosFilter
    else if platform == "android" then
      if linux then cmd + " | tee \"build.android.log\" | egrep -i -A 6 " + AndroidFilter
      else cmd + " | \"" + tee + "\" \"build.android.log\" | \"" + egrep + "\" -i -A 6 " + AndroidFilter
    else cmd
  }

  /** The default template with its three arguments. */
  lemma DefaultFormat(platform: string, args: string, mode: string)
    ensures Format(DefaultCommand, [platform, args, mode]) == "cordova build " + platform + " " + args + " --" + mode
  {
    var xs := [platform, args, mode];
    FormatTagged(" --", 2, "", xs);
    FormatTagged(" ", 1, " --" + (Slot(2) + ""), xs);
    FormatTagged("cordova build ", 0, " " + (Slot(1) + (" --" + (Slot(2) + ""))), xs);
  }

  /** The default template gives `cordova build <platform> <args>
      --<mode>`, with `release` when no mode is set; the log pipeline is
      appended on iOS and Android only. */
  lemma DefaultCommandLine(platform: string, args: string, mode: string, location: string,
                           linux: bool, tee: string, egrep: string)
    ensures StartsWith(CommandLine(DefaultCommand, platform, args, mode, location, linux, tee, egrep),
                       "cordova build " + platform + " " + args + " --" + (if mode != "" then mode else "release"))
    ensures platform != "ios" && platform != "android" ==>
              CommandLine(DefaultCommand, platform, args, mode, location, linux, tee, egrep)
              == "cordova build " + platform + " " + args + " --" + (if mode != "" then mode else "release")
  {
    var m := if mode != "" then mode else "release";
    DefaultFormat(platform, args, m);
    var plain := "cordova build " + platform + " " + args + " --" + m;
    var c := CommandLine(DefaultCommand, platform, args, mode, location, linux, tee, egrep);
    assert c == plain + c[|plain|..];
  }

  // ---------------------------------------------------------------------
  // Output of the cordova build
  // ---------------------------------------------------------------------

  /** The first line end of `s`, or its length. */
  function FirstLineEnd(s: string): (p: nat)
    ensures p <= |s| && (p < |s| ==> LineEnd(s[p]))
    ensures forall k :: 0 <= k < p ==> !LineEnd(s[k])
    decreases |s|
  {
    if s == [] then 0
    else if LineEnd(s[0]) then 0
    else 1 + FirstLineEnd(s[1..])
  }

  /** A position where the multiline `$` matches. */
  predicate EolAt(s: string, e: nat) {
    e == |s| || (e < |s| && LineEnd(s[e]))
  }

  /** `data.replace(/\r?\n?$/m, '')`: the first match is at the first line
      end (or at the end); there `\r\n`, or a lone `\r` or `\n`, is removed
      when another line end or the end of the text follows it. */
  function TrimEol(s: string): string {
    var p := FirstLineEnd(s);
    if p + 1 < |s| && s[p] == '\r' && s[p + 1] == '\n' && EolAt(s, p + 2) then s[..p] + s[p + 2..]
    else if p < |s| && (s[p] == '\r' || s[p] == '\n') && EolAt(s, p + 1) then s[..p] + s[p + 1..]
    else s
  }

  /** A chunk that is one line followed by `\n`, `\r\n` or `\r` loses the
      line break. */
  lemma TrimEolOneLine(t: string, eol: string)
    requires forall k :: 0 <= k < |t| ==> !LineEnd(t[k])
    requires eol in {"\n", "\r\n", "\r"}
    ensures TrimEol(t + eol) == t
  {
    var s := t + eol;
    assert forall k :: 0 <= k < |t| ==> s[k] == t[k];
    assert FirstLineEnd(s) == |t| by {
      FirstLineEndAt(s, |t|);
    }
    assert s[..|t|] == t;
  }

  /** A chunk of several lines ending in `\n` or `\r` keeps its trailing
      line break, because the multiline pattern matches at the first line
      end, where it finds nothing to remove. */
  lemma TrimEolMultiLine(a: string, b: string, eol: string)
    requires forall k :: 0 <= k < |a| ==> !LineEnd(a[k])
    requires |b| > 0 && forall k :: 0 <= k < |b| ==> !LineEnd(b[k])
    requires eol in {"\n", "\r"}
    ensures TrimEol(a + eol + b + eol) == a + eol + b + eol
  {
    var s := a + eol + b + eol;
    assert forall k :: 0 <= k < |a| ==> s[k] == a[k];
    assert s[|a|] == eol[0] && s[|a| + 1] == b[0];
    FirstLineEndAt(s, |a|);
  }

  /** With `\r\n` line ends it is the first line's `\r` that goes: the
      pattern matches it at the first line end, right before that line's
      `\n`. */
  lemma TrimEolMultiLineCrLf(a: string, b: string)
    requires forall k :: 0 <= k < |a| ==> !LineEnd(a[k])
    requires |b| > 0 && forall k :: 0 <= k < |b| ==> !LineEnd(b[k])
    ensures TrimEol(a + "\r\n" + b + "\r\n") == a + "\n" + b + "\r\n"
  {
    var s := a + "\r\n" + b + "\r\n";
    assert forall k :: 0 <= k < |a| ==> s[k] == a[k];
    assert s[|a|] == '\r' && s[|a| + 1] == '\n' && s[|a| + 2] == b[0];
    FirstLineEndAt(s, |a|);
    assert s[..|a|] == a;
    assert s[|a| + 1..] == "\n" + b + "\r\n";
  }

  lemma {:induction false} FirstLineEndAt(s: string, p: nat)
    requires p < |s| && LineEnd(s[p])
    requires forall k :: 0 <= k < p ==> !LineEnd(s[k])
    ensures FirstLineEnd(s) == p
    decreases p
  {
    if p > 0 {
      FirstLineEndAt(s[1..], p - 1);
    }
  }

  /** The priority the source passes for build output, `Msg.build_output`,
      is not one of the `Msg` constants: it is `undefined`, which no
      priority test matches. */
  const UndefinedPriority: int := 0

  /** A chunk of build output as the source logs it: the chunk is the
      template. */
  function OutputNoteAsWritten(worker: string, b: Build, data: string): Msg {
    AW(worker, Regarding(b), UndefinedPriority, data, [])
  }

  /** A chunk of build output as evidently intended: a `buildLog` message,
      as the agent's own `exec` logs its output. */
  function OutputNote(worker: string, b: Build, data: string): Msg {
    AW(worker, Regarding(b), BuildLog, data, [])
  }

  /** As written, build output is rendered behind the signature prefix,
      unlike every other build log line, so a plain line is never shown
      as itself. */
  lemma AsWrittenOutputPrefixed(worker: string, b: Build, data: string)
    requires NoBraces(data)
    ensures !OmitsPrefix(OutputNoteAsWritten(worker, b, data), Unset)
    ensures Render(OutputNoteAsWritten(worker, b, data), Unset) != data
  {
    var m := OutputNoteAsWritten(worker, b, data);
    assert [m.senderId, m.buildId] + m.args == [m.senderId, m.buildId];
    FormatPlain(data, [m.senderId, m.buildId]);
    RenderWithPrefix(m, Unset);
    assert |Render(m, Unset)| > |data|;
  }

  /** The intended note of a plain line is rendered as the line itself. */
  lemma OutputUnprefixed(worker: string, b: Build, data: string)
    requires NoBraces(data)
    ensures OmitsPrefix(OutputNote(worker, b, data), Unset)
    ensures Render(OutputNote(worker, b, data), Unset) == data
  {
    var m := OutputNote(worker, b, data);
    assert [m.senderId, m.buildId] + m.args == [m.senderId, m.buildId];
    FormatPlain(data, [m.senderId, m.buildId]);
    RenderWithoutPrefix(m, Unset);
  }

  // ---------------------------------------------------------------------
  // The failure of s2EmptyWorkFolder
  // ---------------------------------------------------------------------

  /** The build object turned into text, as `err + '\n'` does with it. */
  const ObjectText: string := "[object Object]"

  /** What the source logs when the work folder cannot be created: it
      passes the build to `buildFailed` a second time, so the build object
      takes the place of the message, and the message, folder and error
      become unused arguments. */
  function EnsureFailureAsWritten(worker: string, b: Build, folder: string, err: string, stack: string): Msg {
    AW(worker, Regarding(b), Error, ObjectText + "\n" + stack, [EnsureFailed, folder, err])
  }

  /** The message evidently intended. */
  function EnsureFailure(worker: string, b: Build, folder: string, err: string, stack: string): Msg {
    AW(worker, Regarding(b), Error, EnsureFailed + "\n" + stack, [folder, err])
  }

  /** As written, the text logged is the object text and the stack: the
      reason and the folder are lost. */
  lemma EnsureFailureAsWrittenLosesReason(worker: string, b: Build, folder: string, err: string, stack: string)
    requires NoBraces(stack)
    ensures Text(EnsureFailureAsWritten(worker, b, folder, err, stack)) == ObjectText + "\n" + stack
  {
    var t := ObjectText + "\n" + stack;
    forall i | 0 <= i < |t|
      ensures t[i] != '{'
    {
      if i >= |ObjectText| + 1 {
        assert t[i] == stack[i - |ObjectText| - 1];
      }
    }
    var m := EnsureFailureAsWritten(worker, b, folder, err, stack);
    FormatPlain(t, [m.senderId, m.buildId] + m.args);
  }

  /** The intended text names the folder and the error. */
  lemma EnsureFailureNamesFolder(worker: string, b: Build, folder: string, err: string, stack: string)
    requires NoBraces(stack)
    ensures Text(EnsureFailure(worker, b, folder, err, stack))
            == "error creating the working folder " + folder + "\n" + err + "\n" + stack
  {
    var m := EnsureFailure(worker, b, folder, err, stack);
    var xs := [m.senderId, m.buildId] + m.args;
    assert xs[2] == folder && xs[3] == err;
    var tail := "\n" + stack;
    forall i | 0 <= i < |tail|
      ensures tail[i] != '{'
    {
      if i >= 1 {
        assert tail[i] == stack[i - 1];
      }
    }
    assert EnsureFailed + "\n" + stack
           == "error creating the working folder " + (['{', ('0' as int + 2) as char, '}'] + ("\n" + (['{', ('0' as int + 3) as char, '}'] + tail)));
    FormatTagged("error creating the working folder ", 2, "\n" + (['{', ('0' as int + 3) as char, '}'] + tail), xs);
    FormatTagged("\n", 3, tail, xs);
    FormatPlain(tail, xs);
  }

  // ---------------------------------------------------------------------
  // The extraction notes
  // ---------------------------------------------------------------------

  /** The notes `s5ExtractFile` logs, one per file, in order. */
  function ExtractNotes(worker: string, b: Build, files: seq<FileEntry>, location: string): (es: seq<Emit>)
    ensures |es| == |files|
    decreases |files|
  {
    if files == [] then []
    else ExtractNotes(worker, b, files[..|files| - 1], location)
         + [LogMsg(AW(worker, Regarding(b), Debug, ExtractingTo, [files[|files| - 1].file, location]))]
  }

  function Paths(files: seq<FileEntry>): (r: seq<string>)
    ensures |r| == |files| && forall i :: 0 <= i < |files| ==> r[i] == files[i].file
  {
    seq(|files|, i requires 0 <= i < |files| => files[i].file)
  }

  // ---------------------------------------------------------------------
  // The sequence
  // ---------------------------------------------------------------------

  /** The callback of the emptying glob: a glob error goes on as if the
      folder were empty, and a removal error is handed on. */
  function Emptied(globFailed: bool, removeErr: Option<string>): (err: Option<string>)
    ensures globFailed ==> err.None?
    ensures !globFailed ==> err == removeErr
  {
    if globFailed then None else removeErr
  }

  /** How `s3WriteFiles` names the agent in a write error:
      `AgentworkerOn` formatted with the platform. */
  function LocationNote(b: Build): string {
    "the agentworker on " + PlatformName(b.conf)
  }

  /** `LocationNote` is the formatted `AgentworkerOn`. */
  lemma LocationNoteFormatted(b: Build)
    ensures LocationNote(b) == Format(AgentworkerOn, [PlatformName(b.conf)])
  {
    assert AgentworkerOn == "the agentworker on " + (Slot(0) + "");
    FormatTagged("the agentworker on ", 0, "", [PlatformName(b.conf)]);
  }

  /** The build after its files are written into `location`: each entry
      points at its file there and has lost its contents. */
  function WrittenBuild(b: Build, location: string, mkdir: Option<string>, fails: map<string, string>): Build {
    b.(files := ServerUtils.WriteOutcome(location, b.files, LocationNote(b), ServerUtils.Omitted, mkdir, fails).0)
  }

  /** Writing changes only the files of the build: once the folder
      exists, each entry points at its stored name inside the location
      and has lost its contents, whether or not its write failed. */
  lemma WrittenBuildFiles(b: Build, location: string, mkdir: Option<string>, fails: map<string, string>)
    ensures var b' := WrittenBuild(b, location, mkdir, fails);
            b'.id == b.id && b'.conf == b.conf && |b'.files| == |b.files|
            && (mkdir.Some? ==> b' == b)
            && (mkdir.None? ==> forall i :: 0 <= i < |b.files| ==>
                  b'.files[i].file == Resolve(location, ServerUtils.StoredName(b.files[i].file))
                  && b'.files[i].content.None? && b'.files[i].name == b.files[i].name)
  {
  }

  /** The disk after `writeFiles`: untouched when the folder could not be
      created. */
  function DiskWritten(b: Build, location: string, mkdir: Option<string>, fails: map<string, string>,
                       disk: ServerUtils.Disk): ServerUtils.Disk
  {
    if mkdir.Some? then disk else ServerUtils.DiskAfter(b.files, location, fails, disk)
  }

  /** The error `writeFiles` reports. */
  function WriteFailure(b: Build, location: string, mkdir: Option<string>, fails: map<string, string>): Option<string> {
    ServerUtils.WriteOutcome(location, b.files, LocationNote(b), ServerUtils.Omitted, mkdir, fails).1
  }

  /** The two notes before the command runs. */
  function BuildNotes(worker: string, b: Build, cmd: string): (es: seq<Emit>)
    ensures |es| == 2 && es[1] == LogMsg(AW(worker, Regarding(b), Status, Executing, [cmd]))
  {
    [LogMsg(AW(worker, Regarding(b), Info, BuildingOn, [PlatformName(b.conf)])),
     LogMsg(AW(worker, Regarding(b), Status, Executing, [cmd]))]
  }

  /** The notes of `s8BuildExecuted`, in order: the output as build
      output, then what the agent's own `exec` logs for an error and for
      the standard error. */
  function ExecutedNotes(worker: string, b: Build, err: Option<ExecError>, stdout: string, stderr: string): seq<Emit> {
    (if stdout != "" then [LogMsg(OutputNote(worker, b, stdout))] else []) + ExecLogs(worker, b, err, "", stderr)
  }

  class GenericBuild {
    const agent: AgentWorker
    const hooks: Hooks
    var command: string

    /** `new GenericBuild(build, agent, filesDone, done,
        onExecutingCordovaBuild, command)` up to its last line, which
        `Start` runs. */
    constructor (agent: AgentWorker, hooks: Hooks, command: string)
      ensures this.agent == agent && this.hooks == hooks
      ensures this.command == (if command != "" then command else DefaultCommand)
    {
      this.agent := agent;
      this.hooks := hooks;
      this.command := if command != "" then command else DefaultCommand;
    }

    /** The state every stage needs: the agent holds the build. */
    predicate Ready()
      reads this, agent
    {
      agent.Valid() && agent.build.Some?
    }

    /** Whether the build is cancelled. */
    predicate Cancelled()
      reads this, agent
      requires Ready()
    {
      agent.build.value.conf.status == AgentWorkers.Cancelled
    }

    /** The command `s7BuildCordova` formats for the build. The operating
        system and the paths of the bundled tools are fixed here: Linux,
        with `tee` and `egrep` on the path. */
    function Command(args: string): string
      reads this, agent
      requires Ready()
    {
      var c := agent.build.value.conf;
      CommandLine(command, PlatformName(c), args, Setting(c, "buildmode"), agent.location, true, "tee", "egrep")
    }

    /** Where `s6DecideExecuteCordovaBuild` goes when the build is not
        cancelled: to the `onExecutingCordovaBuild` hook, or straight to
        the build with no arguments. */
    function Decided(): Step
      reads this, agent
      requires Ready()
    {
      if hooks.preCordovaBuild then Await(PreBuildHook, BuildCordova)
      else Await(Run(Command(""), agent.location), BuildExecuted)
    }

    /** What it logs on the way. */
    function DecidedNotes(): seq<Emit>
      reads this, agent
      requires Ready()
    {
      if hooks.preCordovaBuild then [] else BuildNotes(agent.id, agent.build.value, Command(""))
    }

    /** The last line of the constructor: in reuse mode the work folder is
        ensured and the files written straight away; otherwise the
        sequence starts with the cleanup. */
    method Start() returns (step: Step)
      requires Ready()
      ensures agent.conf.reuse ==> step == Await(EnsureWorkFolder, WriteFiles)
      ensures !agent.conf.reuse && !Cancelled() ==>
        step == Await(CleanLastFolders(agent.conf.keep, agent.workFolder + "/*"), CleanupDone)
      ensures !agent.conf.reuse && Cancelled() ==> step == Halt
    {
      if agent.conf.reuse {
        return Await(EnsureWorkFolder, WriteFiles);
      }
      step := S1Cleanup();
    }

    /** `s1Cleanup`: ask to prune the old build folders. */
    method S1Cleanup() returns (step: Step)
      requires Ready()
      ensures Cancelled() ==> step == Halt
      ensures !Cancelled() ==> step == Await(CleanLastFolders(agent.conf.keep, agent.workFolder + "/*"), CleanupDone)
    {
      if Cancelled() {
        return Halt;
      }
      step := Await(CleanLastFolders(agent.conf.keep, agent.workFolder + "/*"), CleanupDone);
    }

    /** `s1CleanupDone(err)`: a cleanup error is only logged; then the
        work folder is ensured. It runs only when `cleanLastFolders` calls
        `done`, never after a failed `fs.stat` crashed it. */
    method S1CleanupDone(err: Option<string>) returns (step: Step)
      requires Ready()
      modifies agent`sent
      ensures Cancelled() ==> step == Halt && agent.sent == old(agent.sent)
      ensures !Cancelled() ==> step == Await(EnsureWorkFolder, EmptyWorkFolder)
      ensures !Cancelled() && err.None? ==> agent.sent == old(agent.sent)
      ensures !Cancelled() && err.Some? ==>
        agent.sent == old(agent.sent)
          + [LogMsg(AW(agent.id, Regarding(agent.build.value), Debug, CleanupFailed,
                       [IntText(agent.conf.keep), agent.conf.platform, agent.workFolder, err.value]))]
    {
      if Cancelled() {
        return Halt;
      }
      if err.Some? {
        agent.Log(Regarding(agent.build.value), Debug, CleanupFailed,
                  [IntText(agent.conf.keep), agent.conf.platform, agent.workFolder, err.value]);
      }
      step := Await(EnsureWorkFolder, EmptyWorkFolder);
    }

    /** `s2EmptyWorkFolder(err)`: a missing work folder fails the build
        (with the message evidently intended; see
        `EnsureFailureAsWritten`); otherwise everything in the build's
        location is removed. */
    method S2EmptyWorkFolder(err: Option<string>, stack: string) returns (step: Step)
      requires Ready()
      modifies agent`build, agent`sent, agent`saved
      ensures Ready()
      ensures old(Cancelled()) ==>
        step == Halt && agent.sent == old(agent.sent) && agent.build == old(agent.build) && agent.saved == old(agent.saved)
      ensures !old(Cancelled()) && err.Some? ==>
        step == Failing && agent.build == Some(Freed(old(agent.build.value)))
        && agent.saved == old(agent.saved) + [SavePath(agent.location, old(agent.build.value))]
        && agent.sent == old(agent.sent) + FailureReport(agent.id, old(agent.build.value),
                                                         EnsureFailed + "\n" + stack, [agent.workFolder, err.value])
      ensures !old(Cancelled()) && err.None? ==>
        step == Await(Empty(EmptyGlob(agent.location)), WriteFiles)
        && agent.sent == old(agent.sent) && agent.build == old(agent.build) && agent.saved == old(agent.saved)
    {
      if Cancelled() {
        return Halt;
      }
      if err.Some? {
        agent.BuildFailed(EnsureFailed, [agent.workFolder, err.value], stack);
        return Failing;
      }
      step := Await(Empty(EmptyGlob(agent.location)), WriteFiles);
    }

    /** `s3WriteFiles(err)`: an error fails the build; otherwise the build's
        files are written into its location (`mkdir` and `fails` are the
        outcomes of the disk operations), which rewrites the entries of
        the build in place, and `s4ProcessFiles` receives the write
        error. */
    method S3WriteFiles(err: Option<string>, mkdir: Option<string>, fails: map<string, string>,
                        disk: ServerUtils.Disk, stack: string)
      returns (step: Step, disk': ServerUtils.Disk)
      requires Ready()
      modifies agent`build, agent`sent, agent`saved
      ensures Ready()
      ensures old(Cancelled()) ==>
        step == Halt && agent.sent == old(agent.sent) && agent.build == old(agent.build) && disk' == disk
      ensures !old(Cancelled()) && err.Some? ==>
        step == Failing && disk' == disk
        && agent.sent == old(agent.sent) + FailureReport(agent.id, old(agent.build.value),
                                                         CleaningFailed + "\n" + stack, [agent.workFolder, err.value])
      ensures !old(Cancelled()) && err.None? ==>
        step == Await(Written(WriteFailure(old(agent.build.value), agent.location, mkdir, fails)), ProcessFiles)
        && agent.build == Some(WrittenBuild(old(agent.build.value), agent.location, mkdir, fails))
        && disk' == DiskWritten(old(agent.build.value), agent.location, mkdir, fails, disk)
        && agent.sent == old(agent.sent) && agent.saved == old(agent.saved)
    {
      if Cancelled() {
        return Halt, disk;
      }
      if err.Some? {
        agent.BuildFailed(CleaningFailed, [agent.workFolder, err.value], stack);
        return Failing, disk;
      }
      step, disk' := WriteBuildFiles(mkdir, fails, disk);
    }

    /** The `writeFiles` call of `s3WriteFiles`. */
    method WriteBuildFiles(mkdir: Option<string>, fails: map<string, string>, disk: ServerUtils.Disk)
      returns (step: Step, disk': ServerUtils.Disk)
      requires Ready()
      modifies agent`build
      ensures Ready()
      ensures step == Await(Written(WriteFailure(old(agent.build.value), agent.location, mkdir, fails)), ProcessFiles)
      ensures agent.build == Some(WrittenBuild(old(agent.build.value), agent.location, mkdir, fails))
      ensures disk' == DiskWritten(old(agent.build.value), agent.location, mkdir, fails, disk)
    {
      // the outcome of `writeFiles`, as `ServerUtils.WriteFiles` computes it
      var b := agent.build.value;
      agent.build := Some(WrittenBuild(b, agent.location, mkdir, fails));
      disk' := DiskWritten(b, agent.location, mkdir, fails, disk);
      step := Await(Written(WriteFailure(b, agent.location, mkdir, fails)), ProcessFiles);
    }

    /** `s4ProcessFiles(err)`: a write error fails the build; otherwise
        every file is extracted into the location, each with its own note
        (`s5ExtractFile`), and the first extraction error goes to
        `s6AllFilesExtracted`. */
    method S4ProcessFiles(err: Option<string>, stack: string) returns (step: Step)
      requires Ready()
      modifies agent`build, agent`sent, agent`saved
      ensures Ready()
      ensures old(Cancelled()) ==> step == Halt && agent.sent == old(agent.sent) && agent.build == old(agent.build)
      ensures !old(Cancelled()) && err.Some? ==>
        step == Failing
        && agent.sent == old(agent.sent) + FailureReport(agent.id, old(agent.build.value),
                                                         SavingFailed + "\n" + stack, [err.value])
      ensures !old(Cancelled()) && err.None? ==>
        step == Await(Extract(Paths(agent.build.value.files), agent.location), AllFilesExtracted)
        && agent.build == old(agent.build)
        && agent.sent == old(agent.sent)
             + [LogMsg(AW(agent.id, Regarding(agent.build.value), Info, ExtractingFor, [PlatformName(agent.build.value.conf)]))]
             + ExtractNotes(agent.id, agent.build.value, agent.build.value.files, agent.location)
    {
      if Cancelled() {
        return Halt;
      }
      if err.Some? {
        agent.BuildFailed(SavingFailed, [err.value], stack);
        return Failing;
      }
      var b := agent.build.value;
      agent.Log(Regarding(b), Info, ExtractingFor, [PlatformName(b.conf)]);
      NoteEach(b.files);
      step := Await(Extract(Paths(b.files), agent.location), AllFilesExtracted);
    }

    /** The `async.each` over the files: `s5ExtractFile` logs a note for
        each (the build is not cancelled, so each passes its check) and
        asks for the extraction. */
    method NoteEach(files: seq<FileEntry>)
      requires Ready() && !Cancelled()
      modifies agent`sent
      ensures agent.sent == old(agent.sent) + ExtractNotes(agent.id, agent.build.value, files, agent.location)
    {
      var i := 0;
      while i < |files|
        invariant 0 <= i <= |files|
        invariant agent.sent == old(agent.sent) + ExtractNotes(agent.id, agent.build.value, files[..i], agent.location)
      {
        assert files[..i + 1][..i] == files[..i];
        agent.Log(Regarding(agent.build.value), Debug, ExtractingTo, [files[i].file, agent.location]);
        i := i + 1;
      }
      assert files[..|files|] == files;
    }

    /** `s6AllFilesExtracted(err)`: an extraction error fails the build;
        otherwise the `filesDone` hook runs, or the config is modified
        straight away. */
    method S6AllFilesExtracted(err: Option<string>, stack: string) returns (step: Step)
      requires Ready()
      modifies this`command, agent`build, agent`sent, agent`saved
      ensures Ready() && command == old(command)
      ensures old(Cancelled()) ==> step == Halt && agent.sent == old(agent.sent) && agent.build == old(agent.build)
      ensures !old(Cancelled()) && err.Some? ==>
        step == Failing
        && agent.sent == old(agent.sent) + FailureReport(agent.id, old(agent.build.value),
                                                         ExtractFailed + "\n" + stack, [err.value])
      ensures !old(Cancelled()) && err.None? ==> agent.build == old(agent.build)
      ensures !old(Cancelled()) && err.None? && hooks.filesDone ==>
        step == Await(FilesDoneHook, ModifyConfigXML) && agent.sent == old(agent.sent)
      ensures !old(Cancelled()) && err.None? && !hooks.filesDone ==> step == ConfigStep() && agent.sent == old(agent.sent) + ConfigNotes()
    {
      if Cancelled() {
        return Halt;
      }
      if err.Some? {
        agent.BuildFailed(ExtractFailed, [err.value], stack);
        return Failing;
      }
      if hooks.filesDone {
        return Await(FilesDoneHook, ModifyConfigXML);
      }
      step := S6ModifyConfigXML("");
    }

    /** Where `s6ModifyConfigXML` goes when the build is not cancelled:
        with a bundle id, to reading `config.xml`; without one, on to the
        decision to build. */
    function ConfigStep(): Step
      reads this, agent
      requires Ready()
    {
      if BundleId(agent.build.value.conf) != "" then Await(ReadConfig(Resolve(agent.location, "config.xml")), ConfigRead)
      else Decided()
    }

    /** What it logs on the way. */
    function ConfigNotes(): seq<Emit>
      reads this, agent
      requires Ready()
    {
      if BundleId(agent.build.value.conf) != ""
      then [LogMsg(AW(agent.id, Regarding(agent.build.value), Info, ChangingBundle, [BundleId(agent.build.value.conf)]))]
      else DecidedNotes()
    }

    /** `s6ModifyConfigXML(cmd)`: a non-empty command from the `filesDone`
        hook replaces the build command (even for a cancelled build);
        then, unless the build is cancelled, the config is read for
        rewriting when there is a bundle id, and left alone otherwise. */
    method S6ModifyConfigXML(cmd: string) returns (step: Step)
      requires Ready()
      modifies this`command, agent`sent
      ensures command == (if cmd != "" then cmd else old(command))
      ensures Cancelled() ==> step == Halt && agent.sent == old(agent.sent)
      ensures !Cancelled() ==> step == ConfigStep() && agent.sent == old(agent.sent) + ConfigNotes()
    {
      command := if cmd != "" then cmd else command;
      if Cancelled() {
        return Halt;
      }
      var id := BundleId(agent.build.value.conf);
      if id != "" {
        agent.Log(Regarding(agent.build.value), Info, ChangingBundle, [id]);
        return Await(ReadConfig(Resolve(agent.location, "config.xml")), ConfigRead);
      }
      step := S6DeleteHooks();
    }

    /** The `readFile` callback: a read error fails the build; otherwise
        every widget id in the text is replaced by the bundle id and the
        result is written back. */
    method ConfigWasRead(readErr: Option<string>, data: string, stack: string) returns (step: Step)
      requires Ready()
      modifies agent`build, agent`sent, agent`saved
      ensures Ready()
      ensures readErr.Some? ==> step == Failing
      ensures readErr.Some? && old(Cancelled()) ==>
        agent.sent == old(agent.sent) && agent.build == old(agent.build) && agent.saved == old(agent.saved)
      ensures readErr.Some? && !old(Cancelled()) ==>
        agent.sent == old(agent.sent) + FailureReport(agent.id, old(agent.build.value), ReadingFailed + "\n" + stack,
                                                      [Resolve(agent.location, "config.xml"), readErr.value])
        && agent.build == Some(Freed(old(agent.build.value)))
        && agent.saved == old(agent.saved) + [SavePath(agent.location, old(agent.build.value))]
      ensures readErr.None? ==>
        step == Await(WriteConfig(Resolve(agent.location, "config.xml"), Rewrite(data, BundleId(agent.build.value.conf))),
                      ConfigWritten)
        && agent.sent == old(agent.sent) && agent.build == old(agent.build) && agent.saved == old(agent.saved)
    {
      var path := Resolve(agent.location, "config.xml");
      if readErr.Some? {
        agent.BuildFailed(ReadingFailed, [path, readErr.value], stack);
        return Failing;
      }
      step := Await(WriteConfig(path, Rewrite(data, BundleId(agent.build.value.conf))), ConfigWritten);
    }

    /** The `writeFile` callback: a write error fails the build; otherwise
        the sequence goes on. */
    method ConfigWasWritten(writeErr: Option<string>, stack: string) returns (step: Step)
      requires Ready()
      modifies agent`build, agent`sent, agent`saved
      ensures Ready()
      ensures writeErr.Some? ==> step == Failing
      ensures writeErr.Some? && old(Cancelled()) ==>
        agent.sent == old(agent.sent) && agent.build == old(agent.build) && agent.saved == old(agent.saved)
      ensures writeErr.Some? && !old(Cancelled()) ==>
        agent.sent == old(agent.sent) + FailureReport(agent.id, old(agent.build.value), WritingFailed + "\n" + stack,
                                                      [BundleId(old(agent.build.value).conf), Resolve(agent.location, "config.xml"), writeErr.value])
        && agent.build == Some(Freed(old(agent.build.value)))
        && agent.saved == old(agent.saved) + [SavePath(agent.location, old(agent.build.value))]
      ensures writeErr.None? ==> agent.build == old(agent.build) && agent.saved == old(agent.saved)
      ensures writeErr.None? && Cancelled() ==> step == Halt && agent.sent == old(agent.sent)
      ensures writeErr.None? && !Cancelled() ==> step == Decided() && agent.sent == old(agent.sent) + DecidedNotes()
    {
      if writeErr.Some? {
        agent.BuildFailed(WritingFailed, [BundleId(agent.build.value.conf), Resolve(agent.location, "config.xml"), writeErr.value], stack);
        return Failing;
      }
      step := S6DeleteHooks();
    }

    /** `s6DeleteHooks`: the removal of `hooks/**/*.bat` under the work
        folder runs on its own; the decision to build follows at once. */
    method S6DeleteHooks() returns (step: Step)
      requires Ready()
      modifies agent`sent
      ensures Cancelled() ==> step == Halt && agent.sent == old(agent.sent)
      ensures !Cancelled() ==> step == Decided() && agent.sent == old(agent.sent) + DecidedNotes()
    {
      step := S6DecideExecuteCordovaBuild();
    }

    /** `s6DecideExecuteCordovaBuild`: with an `onExecutingCordovaBuild`
        hook the hook decides; without one the standard build runs. */
    method S6DecideExecuteCordovaBuild() returns (step: Step)
      requires Ready()
      modifies agent`sent
      ensures Cancelled() ==> step == Halt && agent.sent == old(agent.sent)
      ensures !Cancelled() ==> step == Decided() && agent.sent == old(agent.sent) + DecidedNotes()
    {
      if Cancelled() {
        return Halt;
      }
      if hooks.preCordovaBuild {
        return Await(PreBuildHook, BuildCordova);
      }
      step := Launch("");
    }

    /** The hook's answer `(err, executeStandardCordovaBuild, args)`: the
        standard build runs unless the hook passed `false`. */
    method HookAnswered(err: Option<string>, execute: Option<bool>, args: string, stack: string) returns (step: Step)
      requires Ready()
      modifies agent`build, agent`sent, agent`saved
      ensures Ready()
      ensures execute == Some(false) ==>
        step == HookBuilds && agent.sent == old(agent.sent) && agent.build == old(agent.build) && agent.saved == old(agent.saved)
      ensures execute != Some(false) && old(Cancelled()) ==>
        step == Halt && agent.sent == old(agent.sent) && agent.build == old(agent.build) && agent.saved == old(agent.saved)
      ensures execute != Some(false) && !old(Cancelled()) && err.Some? ==>
        step == Failing
        && agent.sent == old(agent.sent) + FailureReport(agent.id, old(agent.build.value), StartFailed + "\n" + stack, [err.value])
        && agent.build == Some(Freed(old(agent.build.value)))
        && agent.saved == old(agent.saved) + [SavePath(agent.location, old(agent.build.value))]
      ensures execute != Some(false) && !old(Cancelled()) && err.None? ==>
        step == Await(Run(Command(args), agent.location), BuildExecuted)
        && agent.sent == old(agent.sent) + BuildNotes(agent.id, agent.build.value, Command(args))
        && agent.build == old(agent.build) && agent.saved == old(agent.saved)
    {
      if execute == Some(false) {
        return HookBuilds;
      }
      step := S7BuildCordova(err, args, stack);
    }

    /** `s7BuildCordova(err, args)`: an error from the hook fails the
        build; otherwise the command is logged and run in the location. */
    method S7BuildCordova(err: Option<string>, args: string, stack: string) returns (step: Step)
      requires Ready()
      modifies agent`build, agent`sent, agent`saved
      ensures Ready()
      ensures old(Cancelled()) ==>
        step == Halt && agent.sent == old(agent.sent) && agent.build == old(agent.build) && agent.saved == old(agent.saved)
      ensures !old(Cancelled()) && err.Some? ==>
        step == Failing
        && agent.sent == old(agent.sent) + FailureReport(agent.id, old(agent.build.value), StartFailed + "\n" + stack, [err.value])
        && agent.build == Some(Freed(old(agent.build.value)))
        && agent.saved == old(agent.saved) + [SavePath(agent.location, old(agent.build.value))]
      ensures !old(Cancelled()) && err.None? ==>
        step == Await(Run(Command(args), agent.location), BuildExecuted)
        && agent.sent == old(agent.sent) + BuildNotes(agent.id, agent.build.value, Command(args))
        && agent.build == old(agent.build) && agent.saved == old(agent.saved)
    {
      if Cancelled() {
        return Halt;
      }
      if err.Some? {
        agent.BuildFailed(StartFailed, [err.value], stack);
        return Failing;
      }
      step := Launch(args);
    }

    /** The part of `s7BuildCordova` after its checks: two notes and the
        command. */
    method Launch(args: string) returns (step: Step)
      requires Ready() && !Cancelled()
      modifies agent`sent
      ensures step == Await(Run(Command(args), agent.location), BuildExecuted)
      ensures agent.sent == old(agent.sent) + BuildNotes(agent.id, agent.build.value, Command(args))
    {
      var b := agent.build.value;
      agent.Log(Regarding(b), Info, BuildingOn, [PlatformName(b.conf)]);
      var cmd := Command(args);
      agent.Log(Regarding(b), Status, Executing, [cmd]);
      step := Await(Run(cmd, agent.location), BuildExecuted);
    }

    /** The `close` handler of the build command: a code other than 0 and
        1 fails the build. */
    method Closed(code: int, stack: string)
      requires Ready()
      modifies agent`build, agent`sent, agent`saved
      ensures Ready()
      ensures old(Cancelled()) || !ExitFails(code) ==> agent.sent == old(agent.sent) && agent.build == old(agent.build)
      ensures !old(Cancelled()) && ExitFails(code) ==>
        agent.sent == old(agent.sent) + FailureReport(agent.id, old(agent.build.value), ExitedWithCode + IntText(code) + "\n" + stack, [])
    {
      if Cancelled() {
        return;
      }
      if ExitFails(code) {
        agent.BuildFailed(ExitedWithCode + IntText(code), [], stack);
      }
    }

    /** A chunk of the command's standard output, logged as build output
        without its line break (see `TrimEol`); the agent's `log` drops it
        once the build is cancelled. */
    method Stdout(data: string)
      requires Ready()
      modifies agent`sent
      ensures Cancelled() ==> agent.sent == old(agent.sent)
      ensures !Cancelled() ==> agent.sent == old(agent.sent) + [LogMsg(OutputNote(agent.id, agent.build.value, TrimEol(data)))]
    {
      agent.Log(Regarding(agent.build.value), BuildLog, TrimEol(data), []);
    }

    /** A chunk of the command's standard error: one that says `BUILD
        FAILED` fails the build, any other is logged as an error. */
    method Stderr(data: string, stack: string)
      requires Ready()
      modifies agent`build, agent`sent, agent`saved
      ensures Ready()
      ensures old(Cancelled()) ==> agent.sent == old(agent.sent) && agent.build == old(agent.build)
      ensures !old(Cancelled()) && Contains(TrimEol(data), "BUILD FAILED") ==>
        agent.sent == old(agent.sent) + FailureReport(agent.id, old(agent.build.value), TrimEol(data) + "\n" + stack, [])
      ensures !old(Cancelled()) && !Contains(TrimEol(data), "BUILD FAILED") ==>
        agent.build == old(agent.build)
        && agent.sent == old(agent.sent) + [LogMsg(AW(agent.id, Regarding(agent.build.value), Error, TrimEol(data), []))]
    {
      var d := TrimEol(data);
      if Contains(d, "BUILD FAILED") {
        agent.BuildFailed(d, [], stack);
      } else {
        agent.Log(Regarding(agent.build.value), Error, d, []);
      }
    }

    /** `s8BuildExecuted(err, stdout, stderr)`: the output and the error
        are logged; an error that fails (see `ErrFails`) fails the build
        with no message of its own (`undefined`), otherwise the `done` hook
        runs. Unlike the agent's own `exec`, output on the standard error
        alone does not fail the build. */
    method S8BuildExecuted(err: Option<ExecError>, stdout: string, stderr: string, stack: string) returns (step: Step)
      requires Ready()
      modifies agent`build, agent`sent, agent`saved
      ensures Ready()
      ensures old(Cancelled()) ==> step == Halt && agent.sent == old(agent.sent) && agent.build == old(agent.build)
      ensures !old(Cancelled()) && ErrFails(err) ==>
        step == Failing
        && agent.sent == old(agent.sent) + ExecutedNotes(agent.id, old(agent.build.value), err, stdout, stderr)
                         + FailureReport(agent.id, old(agent.build.value), "undefined\n" + stack, [])
      ensures !old(Cancelled()) && !ErrFails(err) ==>
        step == Done && agent.build == old(agent.build)
        && agent.sent == old(agent.sent) + ExecutedNotes(agent.id, old(agent.build.value), err, stdout, stderr)
    {
      if Cancelled() {
        return Halt;
      }
      var b := agent.build.value;
      // each note goes through `log`, whose gate is open here
      agent.sent := agent.sent + ExecutedNotes(agent.id, b, err, stdout, stderr);
      if ErrFails(err) {
        agent.BuildFailed("undefined", [], stack);
        assert "undefined" + "\n" == "undefined\n";
        return Failing;
      }
      step := Done;
    }
  }

  /** The intended message of `s2EmptyWorkFolder` is the first event of the
      failure report it sends. */
  lemma EnsureFailureReported(worker: string, b: Build, folder: string, err: string, stack: string)
    requires Standalone(b)
    ensures FailureReport(worker, b, EnsureFailed + "\n" + stack, [folder, err])[0]
            == LogMsg(EnsureFailure(worker, b, folder, err, stack))
  {
  }
}
