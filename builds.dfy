/** The build entity shared by the coordinator: its status order, the two
    forms of its constructor, `Id`, `serialize` and `updateStatus`.

    Build objects are referenced from several places at once (the id map,
    the builds list, the queue, an agent's `busy` field, a master's
    `platforms`), so they are kept in a heap `map<BuildRef, Build>` and
    every such field holds a `BuildRef`: two fields that point to the same
    object hold the same reference. */
module Builds {
  import opened Wrappers
  import opened Strings
  import Messages

  type BuildRef = nat
  type AgentRef = nat
  type ClientRef = nat

  // ---------------------------------------------------------------------
  // Status order
  // ---------------------------------------------------------------------

  const Statuses: seq<string> :=
    ["unknown", "cancelled", "success", "planned", "queued", "uploading", "building", "failed"]

  /** `statuses.indexOf(s)`. */
  function IndexOf(s: string): (i: int)
    ensures -1 <= i < |Statuses|
    ensures i >= 0 ==> Statuses[i] == s
    ensures i == -1 <==> s !in Statuses
  {
    IndexIn(Statuses, s)
  }

  function IndexIn(xs: seq<string>, s: string): (i: int)
    ensures -1 <= i < |xs|
    ensures i >= 0 ==> xs[i] == s && forall k :: 0 <= k < i ==> xs[k] != s
    ensures i == -1 <==> s !in xs
  {
    if xs == [] then -1
    else if xs[0] == s then 0
    else
      var j := IndexIn(xs[1..], s);
      if j == -1 then -1 else j + 1
  }

  // ---------------------------------------------------------------------
  // Data
  // ---------------------------------------------------------------------

  /** A transferred file: its path, its group ("" for none), the name an
      agent gives an output file ("" for none) and its base64 content. */
  datatype FileEntry = FileEntry(file: string, group: string, name: string, content: Option<string>)

  /** `conf.platform`: unset, one platform (a child, or an agent build),
      or the list of requested platforms (a master). */
  datatype PlatformConf = NoPlatform | One(name: string) | Many(names: seq<string>)

  /** `conf.platform` as text: a list is joined with commas. */
  function PlatformText(p: PlatformConf): string {
    match p
    case NoPlatform => ""
    case One(name) => name
    case Many(names) => Join(names, ",")
  }

  /** Whether `conf.platform` is truthy: set and not the empty string. A
      list is an object, so even an empty list is. */
  predicate PlatformGiven(p: PlatformConf) {
    p.Many? || (p.One? && p.name != "")
  }

  /** The configuration object of a build. Empty strings stand for unset
      fields; `keys` holds the remaining string-valued settings, such as
      `bundleid`, `androidbundleid` or `name`. */
  datatype Conf = Conf(status: string, platform: PlatformConf, number: string,
                       logs: seq<Messages.Msg>, started: Option<int>, completed: Option<int>,
                       save: bool, keys: map<string, string>)

  datatype Build = Build(conf: Conf, id: string, masterId: string,
                         master: Option<BuildRef>, platforms: Option<seq<BuildRef>>,
                         files: seq<FileEntry>, outputFiles: seq<FileEntry>,
                         client: Option<ClientRef>, agent: Option<AgentRef>)

  type Heap = map<BuildRef, Build>

  /** The shape every build graph has: a master link leads to a build in
      the heap that has no master itself and has a list of children, and
      every child reference is in the heap. */
  predicate Wf(h: Heap) {
    forall r :: r in h ==> LinksOk(h, r)
  }

  /** The links of the build at `r`: its master is a root with children,
      and each of its own children is in the heap with `r` as master. */
  predicate LinksOk(h: Heap, r: BuildRef)
    requires r in h
  {
    var b := h[r];
    (b.master.Some? ==> b.master.value in h && h[b.master.value].master.None? && h[b.master.value].platforms.Some?)
    && (b.platforms.Some? ==> forall c :: c in b.platforms.value ==> c in h && h[c].master == Some(r))
  }

  /** Replacing a build by one with the same links keeps the shape. */
  lemma WfAfterWrite(h: Heap, r: BuildRef, b: Build)
    requires Wf(h) && r in h
    requires b.master == h[r].master && b.platforms == h[r].platforms
    ensures Wf(h[r := b])
  {
    var h' := h[r := b];
    forall q | q in h' ensures LinksOk(h', q) {
      assert LinksOk(h, q);
    }
  }

  function SetStatus(b: Build, s: string): Build {
    b.(conf := b.conf.(status := s))
  }

  // ---------------------------------------------------------------------
  // Constructor (eight-argument form) and Id
  // ---------------------------------------------------------------------

  /** The `masterId` argument: absent, a master object, or a bare id. */
  datatype MasterArg = NoMaster | MasterObject(ref: BuildRef, masterIdOf: string) | MasterIdString(text: string)

  /** `new Build(conf, client, agent, platform, files, outputFiles, id,
      masterId)`; `freshId` is the `shortid` used when `id` is empty. */
  function NewBuild(conf: Conf, client: Option<ClientRef>, agent: Option<AgentRef>, platform: PlatformConf,
                    files: seq<FileEntry>, outputFiles: seq<FileEntry>, id: string, master: MasterArg,
                    freshId: string): (b: Build)
    ensures b.conf.platform == platform
    ensures b.conf == conf.(platform := platform)
    ensures b.id == (if id != "" then id else freshId)
    ensures b.master == (if master.MasterObject? then Some(master.ref) else None)
    ensures b.masterId == (match master
                           case NoMaster => ""
                           case MasterObject(_, mid) => mid
                           case MasterIdString(text) => text)
    ensures b.platforms.None? && b.files == files && b.outputFiles == outputFiles
  {
    Build(conf.(platform := platform), if id != "" then id else freshId,
          match master
          case NoMaster => ""
          case MasterObject(_, mid) => mid
          case MasterIdString(text) => text,
          if master.MasterObject? then Some(master.ref) else None,
          None, files, outputFiles, client, agent)
  }

  /** `Id()`: the build number when there is one, otherwise the id. */
  function Id(b: Build): string {
    if b.conf.number != "" then b.conf.number else b.id
  }

  lemma IdChoice(b: Build)
    ensures b.conf.number != "" ==> Id(b) == b.conf.number
    ensures b.conf.number == "" ==> Id(b) == b.id
  {
  }

  // ---------------------------------------------------------------------
  // serialize
  // ---------------------------------------------------------------------

  /** The options object of `serialize`; all fields false stands for an
      absent object. */
  datatype Options = Options(files: bool, outputFiles: bool, platforms: bool, content: bool)

  const NoOptions := Options(false, false, false, false)

  /** A serialised file: `{file, group}` for input files and `{file}` for
      output files (group ""), with `content` when requested. */
  datatype WireFile = WireFile(file: string, group: string, content: Option<string>)

  /** The plain object `serialize` returns ("" for an absent `masterId`). */
  datatype Wire = Wire(conf: Conf, id: string, masterId: string,
                       files: Option<seq<WireFile>>, outputFiles: Option<seq<WireFile>>,
                       platforms: Option<seq<Wire>>)

  function WireInput(f: FileEntry, content: bool): WireFile {
    WireFile(f.file, f.group, if content then f.content else None)
  }

  function WireOutput(f: FileEntry, content: bool): WireFile {
    WireFile(f.file, "", if content then f.content else None)
  }

  function WireInputs(fs: seq<FileEntry>, content: bool): (r: seq<WireFile>)
    ensures |r| == |fs|
    ensures forall i :: 0 <= i < |fs| ==> r[i] == WireInput(fs[i], content)
  {
    if fs == [] then [] else [WireInput(fs[0], content)] + WireInputs(fs[1..], content)
  }

  function WireOutputs(fs: seq<FileEntry>, content: bool): (r: seq<WireFile>)
    ensures |r| == |fs|
    ensures forall i :: 0 <= i < |fs| ==> r[i] == WireOutput(fs[i], content)
  {
    if fs == [] then [] else [WireOutput(fs[0], content)] + WireOutputs(fs[1..], content)
  }

  /** How many levels of `platforms` a call may still serialise. */
  function Depth(opts: Options, childOpts: Options): nat {
    if opts.platforms then 1 + (if childOpts.platforms then 1 else 0) else 0
  }

  /** `serialize(opts, childOpts)`: each child is serialised with
      `childOpts` and no options for its own children. */
  function Serialize(h: Heap, r: BuildRef, opts: Options, childOpts: Options): (w: Wire)
    requires Wf(h) && r in h
    ensures w.conf == h[r].conf && w.id == h[r].id && w.masterId == h[r].masterId
    ensures w.files == (if opts.files then Some(WireInputs(h[r].files, opts.content)) else None)
    ensures w.outputFiles == (if opts.outputFiles then Some(WireOutputs(h[r].outputFiles, opts.content)) else None)
    ensures w.platforms.Some? <==> opts.platforms && h[r].platforms.Some?
    ensures w.platforms.Some? ==> |w.platforms.value| == |h[r].platforms.value|
    decreases Depth(opts, childOpts), 0, 0
  {
    var b := h[r];
    assert LinksOk(h, r);
    Wire(b.conf, b.id, b.masterId,
         if opts.files then Some(WireInputs(b.files, opts.content)) else None,
         if opts.outputFiles then Some(WireOutputs(b.outputFiles, opts.content)) else None,
         if opts.platforms && b.platforms.Some? then Some(SerializeAll(h, b.platforms.value, childOpts)) else None)
  }

  function SerializeAll(h: Heap, cs: seq<BuildRef>, opts: Options): (ws: seq<Wire>)
    requires Wf(h) && forall c :: c in cs ==> c in h
    ensures |ws| == |cs|
    ensures forall i :: 0 <= i < |cs| ==> ws[i] == Serialize(h, cs[i], opts, NoOptions)
    decreases Depth(opts, NoOptions), 1, |cs|
  {
    if cs == [] then [] else [Serialize(h, cs[0], opts, NoOptions)] + SerializeAll(h, cs[1..], opts)
  }

  /** Without options only `conf`, `id` and `masterId` are present. */
  lemma SerializeBare(h: Heap, r: BuildRef)
    requires Wf(h) && r in h
    ensures Serialize(h, r, NoOptions, NoOptions) ==
            Wire(h[r].conf, h[r].id, h[r].masterId, None, None, None)
  {
  }

  /** File contents appear in a serialisation only when asked for. */
  lemma SerializeContent(h: Heap, r: BuildRef, opts: Options, childOpts: Options)
    requires Wf(h) && r in h && !opts.content
    ensures var w := Serialize(h, r, opts, childOpts);
            (w.files.Some? ==> forall i :: 0 <= i < |w.files.value| ==> w.files.value[i].content.None?)
            && (w.outputFiles.Some? ==> forall i :: 0 <= i < |w.outputFiles.value| ==> w.outputFiles.value[i].content.None?)
  {
  }

  /** The options `save` writes `build.json` with. */
  const SaveOptions := Options(true, true, true, false)
  const SaveChildOptions := Options(true, true, false, false)

  // ---------------------------------------------------------------------
  // Constructor (one-argument form): reviving a serialised build
  // ---------------------------------------------------------------------

  function ReviveFile(w: WireFile): FileEntry {
    FileEntry(w.file, w.group, "", w.content)
  }

  function ReviveFiles(ws: Option<seq<WireFile>>): (r: seq<FileEntry>)
    ensures ws.Some? ==> |r| == |ws.value| && forall i :: 0 <= i < |r| ==> r[i] == ReviveFile(ws.value[i])
    ensures ws.None? ==> r == []
  {
    if ws.None? then [] else ReviveSeq(ws.value)
  }

  function ReviveSeq(ws: seq<WireFile>): (r: seq<FileEntry>)
    ensures |r| == |ws| && forall i :: 0 <= i < |r| ==> r[i] == ReviveFile(ws[i])
  {
    if ws == [] then [] else [ReviveFile(ws[0])] + ReviveSeq(ws[1..])
  }

  function PlatformOf(c: Conf): PlatformConf {
    c.platform
  }

  /** The build of `new Build(w)` before its children are attached: the
      eight-argument constructor on the fields of `w`, a bare `masterId`
      string giving only `masterId`. */
  function ReviveOne(w: Wire, freshId: string): Build {
    NewBuild(w.conf, None, None, PlatformOf(w.conf), ReviveFiles(w.files), ReviveFiles(w.outputFiles),
             w.id, if w.masterId != "" then MasterIdString(w.masterId) else NoMaster, freshId)
  }

  /** The one-argument constructor keeps the serialised id (or takes the
      generated one), the configuration and the `masterId`, and links to
      no master and no children. */
  lemma ReviveOneFields(w: Wire, id: string)
    ensures var b := ReviveOne(w, id);
            b.id == (if w.id != "" then w.id else id) && b.conf == w.conf && b.masterId == w.masterId
            && b.master.None? && b.platforms.None?
            && b.files == ReviveFiles(w.files) && b.outputFiles == ReviveFiles(w.outputFiles)
  {
  }

  /** A revived child: linked to the root at `root`. */
  function ReviveChild(w: Wire, id: string, root: BuildRef): Build {
    ReviveOne(w, id).(master := Some(root))
  }

  function ChildCount(w: Wire): nat {
    if w.platforms.Some? then |w.platforms.value| else 0
  }

  /** `new Build(w)`: allocates the root at `next` and one build per
      serialised child at the following references, each child's `master`
      set to the root; returns the new heap and the next free reference.
      `gen(r)` is the id generated for a build allocated at `r` whose
      serialised id is empty. The children are revived with the
      one-argument constructor as well; children of children are not
      revived, since a child never lists children of its own. */
  function Revive(h: Heap, next: BuildRef, w: Wire, gen: BuildRef -> string): (Heap, BuildRef)
    requires forall q :: q in h ==> q < next
  {
    (ReviveHeap(h, next, w, gen), next + 1 + ChildCount(w))
  }

  function RevivedRoot(next: BuildRef, w: Wire, gen: BuildRef -> string): Build {
    ReviveOne(w, gen(next)).(platforms := if w.platforms.Some? then Some(Refs(next + 1, ChildCount(w))) else None)
  }

  function ReviveHeap(h: Heap, next: BuildRef, w: Wire, gen: BuildRef -> string): Heap {
    map q: nat | q <= next + ChildCount(w) && (q in h || next <= q) ::
      if q in h then h[q] else if q == next then RevivedRoot(next, w, gen)
      else ReviveChild(w.platforms.value[q - next - 1], gen(q), next)
  }

  /** What `new Build(w)` leaves at reference `q`. */
  lemma ReviveAt(h: Heap, next: BuildRef, w: Wire, gen: BuildRef -> string, q: BuildRef)
    requires forall p :: p in h ==> p < next
    ensures var h' := ReviveHeap(h, next, w, gen);
            (q in h' <==> q in h || next <= q <= next + ChildCount(w))
            && (q in h ==> h'[q] == h[q])
            && (q == next ==> h'[q] == RevivedRoot(next, w, gen))
            && (next < q <= next + ChildCount(w) ==> h'[q] == ReviveChild(w.platforms.value[q - next - 1], gen(q), next))
  {
    var h' := ReviveHeap(h, next, w, gen);
    assert q in h' <==> q in h || next <= q <= next + ChildCount(w);
    if q in h {
      assert h'[q] == h[q];
    } else if q == next {
      assert h'[q] == RevivedRoot(next, w, gen);
    }
  }

  /** The references `from`, `from + 1`, ..., `from + n - 1`. */
  function Refs(from: nat, n: nat): (rs: seq<BuildRef>)
    ensures |rs| == n && forall i :: 0 <= i < n ==> rs[i] == from + i
  {
    if n == 0 then [] else Refs(from, n - 1) + [from + n - 1]
  }

  /** After `new Build(w)` the root is at `next`, has no master, and lists
      children exactly when `w` does: as many as `w` lists, at the
      references that follow the root. */
  lemma ReviveShape(h: Heap, next: BuildRef, w: Wire, gen: BuildRef -> string)
    requires forall q :: q in h ==> q < next
    ensures var h' := Revive(h, next, w, gen).0;
            next in h' && h'[next].master.None?
            && (w.platforms.Some? <==> h'[next].platforms.Some?)
            && (w.platforms.Some? ==>
                  h'[next].platforms.value == Refs(next + 1, |w.platforms.value|))
  {
    ReviveAt(h, next, w, gen, next);
    ReviveOneFields(w, gen(next));
  }

  /** The `i`-th revived child, at `next + 1 + i`, is a build whose
      `master` is the root and whose id and configuration come from the
      `i`-th serialised child. */
  lemma ReviveKid(h: Heap, next: BuildRef, w: Wire, gen: BuildRef -> string, i: nat)
    requires forall q :: q in h ==> q < next
    requires w.platforms.Some? && i < |w.platforms.value|
    ensures var h' := Revive(h, next, w, gen).0;
            var k := next + 1 + i;
            k in h' && h'[k].master == Some(next)
            && h'[k].id == (if w.platforms.value[i].id != "" then w.platforms.value[i].id else gen(k))
            && h'[k].conf == w.platforms.value[i].conf
  {
    var k := next + 1 + i;
    var x := w.platforms.value[i];
    ReviveAt(h, next, w, gen, k);
    assert k - next - 1 == i;
    var h' := ReviveHeap(h, next, w, gen);
    assert h'[k] == ReviveChild(x, gen(k), next);
    ReviveOneFields(x, gen(k));
  }

  /** Reviving a build keeps the heap's shape and every existing build. */
  lemma ReviveWf(h: Heap, next: BuildRef, w: Wire, gen: BuildRef -> string)
    requires forall q :: q in h ==> q < next
    requires Wf(h)
    ensures var h' := Revive(h, next, w, gen).0;
            Wf(h') && (forall q :: q in h ==> q in h' && h'[q] == h[q])
            && (forall q :: q in h' ==> q < Revive(h, next, w, gen).1)
  {
    var h' := ReviveHeap(h, next, w, gen);
    forall q | q in h ensures q in h' && h'[q] == h[q] {
      ReviveAt(h, next, w, gen, q);
    }
    forall q | q in h' ensures q < next + 1 + ChildCount(w) {
      ReviveAt(h, next, w, gen, q);
    }
    forall q | q in h' ensures LinksOk(h', q) {
      ReviveAt(h, next, w, gen, q);
      if q in h {
        OldLinksKept(h, h', q);
      } else if q == next {
        RootLinks(h, next, w, gen);
      } else {
        ReviveAt(h, next, w, gen, next);
      }
    }
  }

  lemma OldLinksKept(h: Heap, h': Heap, q: BuildRef)
    requires Wf(h) && q in h
    requires forall p :: p in h ==> p in h' && h'[p] == h[p]
    ensures LinksOk(h', q)
  {
    assert LinksOk(h, q);
    if h[q].platforms.Some? {
      forall c | c in h[q].platforms.value ensures c in h' && h'[c].master == Some(q) {
      }
    }
  }

  lemma RootLinks(h: Heap, next: BuildRef, w: Wire, gen: BuildRef -> string)
    requires forall q :: q in h ==> q < next
    ensures var h' := ReviveHeap(h, next, w, gen);
            next in h' && LinksOk(h', next)
  {
    var h' := ReviveHeap(h, next, w, gen);
    ReviveAt(h, next, w, gen, next);
    if w.platforms.Some? {
      var refs := Refs(next + 1, ChildCount(w));
      forall c | c in refs ensures c in h' && h'[c].master == Some(next) {
        var i :| 0 <= i < |refs| && refs[i] == c;
        assert c == next + 1 + i;
        ReviveAt(h, next, w, gen, c);
      }
    }
  }

  /** An input file as `build.json` keeps it: path and group, without the
      name an agent gives it and without content. */
  function SavedInput(f: FileEntry): FileEntry {
    f.(name := "", content := None)
  }

  /** An output file as `build.json` keeps it: only its path. */
  function SavedOutput(f: FileEntry): FileEntry {
    f.(group := "", name := "", content := None)
  }

  /** Input files serialised without contents come back as saved. */
  lemma ReviveInputs(fs: seq<FileEntry>)
    ensures var r := ReviveFiles(Some(WireInputs(fs, false)));
            |r| == |fs| && forall i :: 0 <= i < |fs| ==> r[i] == SavedInput(fs[i])
  {
  }

  /** Output files serialised without contents come back as saved. */
  lemma ReviveOutputs(fs: seq<FileEntry>)
    ensures var r := ReviveFiles(Some(WireOutputs(fs, false)));
            |r| == |fs| && forall i :: 0 <= i < |fs| ==> r[i] == SavedOutput(fs[i])
  {
  }

  /** What a build revived from a serialisation made with the save
      options keeps of the build at `r`: its configuration, its
      `masterId`, its files as saved, and its id when it had one. */
  predicate SavedAs(h: Heap, r: BuildRef, b: Build, freshId: string)
    requires r in h
  {
    b.conf == h[r].conf && b.masterId == h[r].masterId
    && b.id == (if h[r].id != "" then h[r].id else freshId)
    && |b.files| == |h[r].files| && (forall i :: 0 <= i < |b.files| ==> b.files[i] == SavedInput(h[r].files[i]))
    && |b.outputFiles| == |h[r].outputFiles|
    && (forall i :: 0 <= i < |b.outputFiles| ==> b.outputFiles[i] == SavedOutput(h[r].outputFiles[i]))
  }

  /** One build's fields survive serialising with the save options and
      reviving. */
  lemma ReviveOneSaved(h: Heap, r: BuildRef, opts: Options, childOpts: Options, id: string)
    requires Wf(h) && r in h && opts.files && opts.outputFiles && !opts.content
    ensures SavedAs(h, r, ReviveOne(Serialize(h, r, opts, childOpts), id), id)
  {
    var w := Serialize(h, r, opts, childOpts);
    ReviveOneFields(w, id);
    ReviveInputs(h[r].files);
    ReviveOutputs(h[r].outputFiles);
  }

  /** The `i`-th child of a build saved with the save options comes back
      at `next + 1 + i`, linked to the revived root, with the
      configuration, id and files of the saved child. */
  lemma SavedChildRevived(h: Heap, r: BuildRef, h0: Heap, next: BuildRef, gen: BuildRef -> string, i: nat)
    requires Wf(h) && r in h && h[r].platforms.Some? && i < |h[r].platforms.value|
    requires forall q :: q in h0 ==> q < next
    ensures var h' := Revive(h0, next, Serialize(h, r, SaveOptions, SaveChildOptions), gen).0;
            var k := next + 1 + i;
            k in h' && h[r].platforms.value[i] in h
            && h'[k].master == Some(next) && SavedAs(h, h[r].platforms.value[i], h'[k], gen(k))
  {
    var w := Serialize(h, r, SaveOptions, SaveChildOptions);
    var c := h[r].platforms.value[i];
    var k := next + 1 + i;
    assert LinksOk(h, r);
    assert c in h[r].platforms.value;
    var x := w.platforms.value[i];
    assert x == Serialize(h, c, SaveChildOptions, NoOptions);
    ReviveAt(h0, next, w, gen, k);
    assert k - next - 1 == i;
    assert ReviveHeap(h0, next, w, gen)[k] == ReviveChild(x, gen(k), next);
    ReviveOneSaved(h, c, SaveChildOptions, NoOptions, gen(k));
  }

  /** `save` followed by `new Build(JSON.parse(...))`, as a server start
      does with `build.json`: the root comes back at `next` without a
      master and with its configuration, id, `masterId` and files as
      saved; it lists children exactly when the saved build did, as many,
      and the `i`-th of them comes back at `next + 1 + i`, linked to the
      root, with the configuration, id and files of the saved build's
      `i`-th child. */
  lemma SaveReviveRoundTrip(h: Heap, r: BuildRef, h0: Heap, next: BuildRef, gen: BuildRef -> string)
    requires Wf(h) && r in h
    requires forall q :: q in h0 ==> q < next
    ensures var h' := Revive(h0, next, Serialize(h, r, SaveOptions, SaveChildOptions), gen).0;
            next in h' && h'[next].master.None? && SavedAs(h, r, h'[next], gen(next))
            && (h'[next].platforms.Some? <==> h[r].platforms.Some?)
            && (h[r].platforms.Some? ==>
                  |h'[next].platforms.value| == |h[r].platforms.value|
                  && forall i :: 0 <= i < |h[r].platforms.value| ==>
                       var k := next + 1 + i;
                       h'[next].platforms.value[i] == k && k in h' && h[r].platforms.value[i] in h
                       && h'[k].master == Some(next) && SavedAs(h, h[r].platforms.value[i], h'[k], gen(k)))
  {
    var w := Serialize(h, r, SaveOptions, SaveChildOptions);
    var h' := Revive(h0, next, w, gen).0;
    ReviveShape(h0, next, w, gen);
    ReviveAt(h0, next, w, gen, next);
    ReviveOneSaved(h, r, SaveOptions, SaveChildOptions, gen(next));
    assert h'[next] == RevivedRoot(next, w, gen);
    if h[r].platforms.Some? {
      var cs := h[r].platforms.value;
      forall i | 0 <= i < |cs|
        ensures var k := next + 1 + i;
                h'[next].platforms.value[i] == k && k in h' && cs[i] in h
                && h'[k].master == Some(next) && SavedAs(h, cs[i], h'[k], gen(k))
      {
        SavedChildRevived(h, r, h0, next, gen, i);
      }
    }
  }

  // ---------------------------------------------------------------------
  // updateStatus
  // ---------------------------------------------------------------------

  /** The index in `Statuses` of a child's status; -1 for a status that is
      not listed. */
  function ChildIndex(h: Heap, c: BuildRef): int {
    if c in h then IndexOf(h[c].conf.status) else -1
  }

  /** The highest index among the children's statuses, starting from 0
      (`unknown`) so unlisted statuses never lower it. */
  function MaxIndex(h: Heap, cs: seq<BuildRef>): (m: nat)
    ensures m < |Statuses|
    decreases |cs|
  {
    if cs == [] then 0
    else
      var m := MaxIndex(h, cs[..|cs| - 1]);
      var i := ChildIndex(h, cs[|cs| - 1]);
      if i > m then i else m
  }

  /** One more child looked at, for the loop that computes `MaxIndex`. */
  lemma MaxIndexStep(h: Heap, cs: seq<BuildRef>, i: nat)
    requires i < |cs|
    ensures var m := MaxIndex(h, cs[..i]);
            var ci := ChildIndex(h, cs[i]);
            MaxIndex(h, cs[..i + 1]) == if ci > m then ci else m
  {
    assert cs[..i + 1][..i] == cs[..i];
  }

  /** `MaxIndex` is the highest index of a listed child status, or 0 when
      no child has one. */
  lemma {:induction false} MaxIndexIsHighest(h: Heap, cs: seq<BuildRef>)
    ensures forall c :: c in cs ==> ChildIndex(h, c) <= MaxIndex(h, cs)
    ensures MaxIndex(h, cs) == 0 || exists c :: c in cs && ChildIndex(h, c) == MaxIndex(h, cs)
    decreases |cs|
  {
    if cs != [] {
      var init := cs[..|cs| - 1];
      MaxIndexIsHighest(h, init);
      assert cs == init + [cs[|cs| - 1]];
      forall c | c in cs ensures ChildIndex(h, c) <= MaxIndex(h, cs) {
        if c in init {
        } else {
          assert c == cs[|cs| - 1];
        }
      }
      if MaxIndex(h, cs) != 0 && MaxIndex(h, cs) != MaxIndex(h, init) {
        assert ChildIndex(h, cs[|cs| - 1]) == MaxIndex(h, cs);
      }
      if MaxIndex(h, cs) != 0 && MaxIndex(h, cs) == MaxIndex(h, init) {
        var c :| c in init && ChildIndex(h, c) == MaxIndex(h, init);
        assert c in cs;
      }
    }
  }

  /** The status a master gets from its children. */
  function MasterStatus(h: Heap, m: BuildRef): string
    requires m in h && h[m].platforms.Some?
  {
    Statuses[MaxIndex(h, h[m].platforms.value)]
  }

  /** Where `updateStatus` saves a root build. */
  function BuildJsonPath(location: string, b: Build): string {
    Resolve(Resolve(location, Id(b)), "build.json")
  }

  /** `updateStatus(s, location)` on the build at `r`: the new heap and the
      builds saved, with the paths they are saved to. A child recomputes
      its master's status and updates the master only when that status
      changes; a root is saved only when its own status changes. */
  function UpdateStatus(h: Heap, r: BuildRef, s: string, location: string): (res: (Heap, seq<(BuildRef, string)>))
    requires Wf(h) && r in h
    ensures Wf(res.0) && res.0.Keys == h.Keys
    decreases if h[r].master.Some? then 1 else 0
  {
    var b := h[r];
    var h1 := h[r := SetStatus(b, s)];
    WfAfterWrite(h, r, SetStatus(b, s));
    assert LinksOk(h, r);
    if b.master.Some? then
      var m := b.master.value;
      var ms := MasterStatus(h1, m);
      if h1[m].conf.status != ms then UpdateStatus(h1, m, ms, location) else (h1, [])
    else (h1, if b.conf.status != s then [(r, BuildJsonPath(location, b))] else [])
  }

  /** A build that differs from another at most in its status and its log. */
  predicate SameButStatus(b: Build, b': Build) {
    b' == b.(conf := b.conf.(status := b'.conf.status, logs := b'.conf.logs))
  }

  /** `updateStatus` changes statuses and nothing else. */
  lemma UpdateStatusKeeps(h: Heap, r: BuildRef, s: string, location: string, q: BuildRef)
    requires Wf(h) && r in h && q in h
    ensures var h' := UpdateStatus(h, r, s, location).0;
            q in h' && h'[q] == h[q].(conf := h[q].conf.(status := h'[q].conf.status))
    decreases if h[r].master.Some? then 1 else 0
  {
    var b := h[r];
    var h1 := h[r := SetStatus(b, s)];
    WfAfterWrite(h, r, SetStatus(b, s));
    assert LinksOk(h, r);
    if b.master.Some? {
      var m := b.master.value;
      var ms := MasterStatus(h1, m);
      if h1[m].conf.status != ms {
        UpdateStatusKeeps(h1, m, ms, location, q);
      }
    }
  }

  /** A root build: its status becomes `s`, nothing else changes, and it
      is saved exactly when its status changed. */
  lemma UpdateRoot(h: Heap, r: BuildRef, s: string, location: string)
    requires Wf(h) && r in h && h[r].master.None?
    ensures var (h', saves) := UpdateStatus(h, r, s, location);
            h' == h[r := SetStatus(h[r], s)]
            && (saves == [] <==> h[r].conf.status == s)
            && (saves != [] ==> saves == [(r, BuildJsonPath(location, h[r]))])
  {
  }

  /** A child build: its status becomes `s`, its master's status becomes
      the highest status among the master's children (the child's new
      status included), no other build changes, and the master is saved
      exactly when its status changed. */
  lemma UpdateChild(h: Heap, r: BuildRef, s: string, location: string)
    requires Wf(h) && r in h && h[r].master.Some?
    ensures var m := h[r].master.value;
            var h1 := h[r := SetStatus(h[r], s)];
            var (h', saves) := UpdateStatus(h, r, s, location);
            m != r
            && h'[r] == SetStatus(h[r], s)
            && h'[m] == SetStatus(h[m], MasterStatus(h1, m))
            && (forall q :: q in h && q != r && q != m ==> h'[q] == h[q])
            && (saves == [] <==> h[m].conf.status == MasterStatus(h1, m))
            && (saves != [] ==> saves == [(m, BuildJsonPath(location, h[m]))])
  {
    var m := h[r].master.value;
    assert LinksOk(h, r);
    var h1 := h[r := SetStatus(h[r], s)];
    WfAfterWrite(h, r, SetStatus(h[r], s));
    if h1[m].conf.status != MasterStatus(h1, m) {
      UpdateRoot(h1, m, MasterStatus(h1, m), location);
    }
  }

  /** Setting the same status a second time changes nothing and saves
      nothing. */
  lemma UpdateTwice(h: Heap, r: BuildRef, s: string, location: string)
    requires Wf(h) && r in h
    ensures var (h1, _) := UpdateStatus(h, r, s, location);
            UpdateStatus(h1, r, s, location) == (h1, [])
  {
    var (h1, _) := UpdateStatus(h, r, s, location);
    if h[r].master.Some? {
      UpdateChild(h, r, s, location);
      var m := h[r].master.value;
      assert h1[r] == SetStatus(h[r], s);
      assert h1[r := SetStatus(h1[r], s)] == h1;
      assert h1[r].master == Some(m);
      MasterStatusAfter(h, h1, r, m, s);
    } else {
      UpdateRoot(h, r, s, location);
      assert h1[r := SetStatus(h1[r], s)] == h1;
    }
  }

  /** After a child's update, the master's status already equals the one
      its children give. */
  lemma MasterStatusAfter(h: Heap, h1: Heap, r: BuildRef, m: BuildRef, s: string)
    requires Wf(h) && r in h && h[r].master == Some(m)
    requires h1.Keys == h.Keys && m != r
    requires h1[r] == SetStatus(h[r], s)
    requires h1[m] == SetStatus(h[m], MasterStatus(h[r := SetStatus(h[r], s)], m))
    requires forall q :: q in h && q != r && q != m ==> h1[q] == h[q]
    ensures m in h1 && h1[m].platforms.Some?
    ensures h1[m].conf.status == MasterStatus(h1, m)
  {
    assert LinksOk(h, r);
    var h0 := h[r := SetStatus(h[r], s)];
    var cs := h[m].platforms.value;
    assert h1[m].platforms == h[m].platforms;
    assert LinksOk(h, m);
    forall c | c in cs ensures ChildIndex(h1, c) == ChildIndex(h0, c) {
      assert h[c].master == Some(m);
    }
    MaxIndexSame(h0, h1, cs);
  }

  /** `MaxIndex` only depends on the children's statuses. */
  lemma {:induction false} MaxIndexSame(h: Heap, h': Heap, cs: seq<BuildRef>)
    requires forall c :: c in cs ==> ChildIndex(h, c) == ChildIndex(h', c)
    ensures MaxIndex(h, cs) == MaxIndex(h', cs)
    decreases |cs|
  {
    if cs != [] {
      var init := cs[..|cs| - 1];
      assert forall c :: c in init ==> c in cs;
      MaxIndexSame(h, h', init);
    }
  }
}
