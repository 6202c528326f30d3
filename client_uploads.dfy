/** The upload half of a client's session (lib/server/sockets/Client.js):
    `onUploadBuild`, which stores the uploaded files of a registered build
    under its `input` folder, and its continuation `saveFiles`, which
    queues the build on each of its platforms with the files meant for
    that platform.

    The outcome of the folder creation and of each write is a parameter
    (`mkdir`, `fails`), as in `ServerUtils.WriteFiles`; `saveFiles` runs
    later, as a handler of its own, with the error the writes reported. */
module ClientUploads {
  import opened Wrappers
  import opened Strings
  import opened Builds
  import opened Messages
  import opened Coordinator
  import opened ClientSessions
  import ServerUtils

  /** The location text `writeFiles` reports its errors with. */
  const ServerName: string := "the cordova build server"

  // ---------------------------------------------------------------------
  // The files of one platform
  // ---------------------------------------------------------------------

  /** A file goes to the child on platform `p` when it has no group or its
      group is that platform. */
  predicate MeantFor(f: FileEntry, p: PlatformConf) {
    f.group == "" || p == One(f.group)
  }

  /** The files a child on platform `p` gets, in upload order. */
  function ForPlatform(files: seq<FileEntry>, p: PlatformConf): seq<FileEntry>
    decreases |files|
  {
    if files == [] then []
    else
      var f := files[|files| - 1];
      ForPlatform(files[..|files| - 1], p) + (if MeantFor(f, p) then [f] else [])
  }

  /** A file is among the child's exactly when it was uploaded and is meant
      for the child's platform. */
  lemma {:induction false} ForPlatformIff(files: seq<FileEntry>, p: PlatformConf, f: FileEntry)
    ensures f in ForPlatform(files, p) <==> f in files && MeantFor(f, p)
    decreases |files|
  {
    if files != [] {
      var init := files[..|files| - 1];
      ForPlatformIff(init, p, f);
      assert files == init + [files[|files| - 1]];
    }
  }

  /** The selection keeps the upload order: selecting from two lists one
      after the other is selecting from their concatenation. */
  lemma {:induction false} ForPlatformAppend(a: seq<FileEntry>, b: seq<FileEntry>, p: PlatformConf)
    ensures ForPlatform(a + b, p) == ForPlatform(a, p) + ForPlatform(b, p)
    decreases |b|
  {
    if b == [] {
      assert a + b == a;
    } else {
      var init := b[..|b| - 1];
      ForPlatformAppend(a, init, p);
      assert (a + b)[..|a + b| - 1] == a + init;
      assert (a + b)[|a + b| - 1] == b[|b| - 1];
    }
  }

  /** Files without a group go to every platform. */
  lemma {:induction false} UngroupedEverywhere(files: seq<FileEntry>, p: PlatformConf)
    requires forall i :: 0 <= i < |files| ==> files[i].group == ""
    ensures ForPlatform(files, p) == files
    decreases |files|
  {
    if files != [] {
      var init := files[..|files| - 1];
      assert forall i :: 0 <= i < |init| ==> init[i] == files[i];
      UngroupedEverywhere(init, p);
      assert files == init + [files[|files| - 1]];
    }
  }

  /** The inner `forEach` of `saveFiles`, which pushes a copy of each file
      meant for the child. */
  method SelectFiles(files: seq<FileEntry>, p: PlatformConf) returns (out: seq<FileEntry>)
    ensures out == ForPlatform(files, p)
  {
    out := [];
    var i := 0;
    while i < |files|
      invariant 0 <= i <= |files|
      invariant out == ForPlatform(files[..i], p)
    {
      assert files[..i + 1][..i] == files[..i];
      if MeantFor(files[i], p) {
        out := out + [files[i]];
      }
      i := i + 1;
    }
    assert files[..|files|] == files;
  }

  // ---------------------------------------------------------------------
  // saveFiles: one child
  // ---------------------------------------------------------------------

  /** Two build graphs with the same builds, apart from statuses, logs and
      files. */
  predicate Kept(h: Heap, h': Heap) {
    h'.Keys == h.Keys
    && forall q :: q in h ==>
         h'[q] == h[q].(conf := h[q].conf.(status := h'[q].conf.status, logs := h'[q].conf.logs), files := h'[q].files)
  }

  lemma KeptTrans(h: Heap, h': Heap, h'': Heap)
    requires Kept(h, h') && Kept(h', h'')
    ensures Kept(h, h'')
  {
  }

  function ChildQueuedMsg(b: Build, who: Sender): Msg {
    Make(SubjectOf(b), who, "C", Info, ChildQueuedTemplate, [PlatformText(b.conf.platform)])
  }

  /** The child at `k` with the files meant for it. */
  function WithFiles(st: State, files: seq<FileEntry>, k: BuildRef): (res: State)
    requires Core(st) && k in st.heap
    ensures Core(res) && res.heap.Keys == st.heap.Keys
  {
    var b := st.heap[k];
    WfAfterWrite(st.heap, k, b.(files := ForPlatform(files, b.conf.platform)));
    st.(heap := st.heap[k := b.(files := ForPlatform(files, b.conf.platform))])
  }

  /** The child at `k` once it is `queued`, quietly, and on the queue. */
  function Enqueued(st: State, cfg: Config, files: seq<FileEntry>, k: BuildRef): (res: State)
    requires Core(st) && k in st.heap
    ensures Core(res) && res.heap.Keys == st.heap.Keys
  {
    var st2 := AfterUpdateBuildStatus(WithFiles(st, files, k), cfg, Obj(k), "queued", true);
    st2.(queue := st2.queue + [k])
  }

  /** One turn of the outer `forEach` of `saveFiles`: the child gets the
      root's files meant for its platform, becomes `queued` without a log
      on its master, goes on the queue, and the client is told. */
  function AfterQueueChild(st: State, cfg: Config, files: seq<FileEntry>, k: BuildRef, c: ClientRef, who: Sender)
    : (res: State)
    requires Core(st) && k in st.heap
    ensures Core(res) && res.heap.Keys == st.heap.Keys
  {
    var st3 := Enqueued(st, cfg, files, k);
    LogKeys(st3, ChildQueuedMsg(st3.heap[k], who), Some(ClientPeer(c)));
    AfterLog(st3, ChildQueuedMsg(st3.heap[k], who), Some(ClientPeer(c)))
  }

  /** A turn changes statuses, logs and the child's files only, appends
      the child to the queue, and leaves the registry as it is. */
  lemma QueueChildKeeps(st: State, cfg: Config, files: seq<FileEntry>, k: BuildRef, c: ClientRef, who: Sender)
    requires Core(st) && k in st.heap
    ensures Kept(st.heap, AfterQueueChild(st, cfg, files, k, c, who).heap)
  {
    var st1 := WithFiles(st, files, k);
    var st2 := AfterUpdateBuildStatus(st1, cfg, Obj(k), "queued", true);
    var st3 := Enqueued(st, cfg, files, k);
    ObjFound(st1, cfg, k, "queued", true);
    forall q | q in st.heap
      ensures st3.heap[q] == st.heap[q].(conf := st.heap[q].conf.(status := st3.heap[q].conf.status, logs := st3.heap[q].conf.logs), files := st3.heap[q].files)
    {
      FoundKeeps(st1, cfg, k, "queued", true, q);
    }
    forall q | q in st.heap
      ensures AfterQueueChild(st, cfg, files, k, c, who).heap[q]
              == st3.heap[q].(conf := st3.heap[q].conf.(logs := AfterQueueChild(st, cfg, files, k, c, who).heap[q].conf.logs))
    {
      LogKeeps(st3, ChildQueuedMsg(st3.heap[k], who), Some(ClientPeer(c)), q);
    }
  }

  /** A turn appends the child to the queue and leaves the registry as it
      is. */
  lemma QueueChildLists(st: State, cfg: Config, files: seq<FileEntry>, k: BuildRef, c: ClientRef, who: Sender)
    requires Core(st) && k in st.heap
    ensures AfterQueueChild(st, cfg, files, k, c, who).queue == st.queue + [k]
    ensures AfterQueueChild(st, cfg, files, k, c, who).ids == st.ids
    ensures AfterQueueChild(st, cfg, files, k, c, who).builds == st.builds
  {
    var st1 := WithFiles(st, files, k);
    ObjFound(st1, cfg, k, "queued", true);
    FoundKeeps(st1, cfg, k, "queued", true, k);
  }

  /** A turn leaves the child `queued` with the files meant for its
      platform. */
  lemma QueueChildSets(st: State, cfg: Config, files: seq<FileEntry>, k: BuildRef, c: ClientRef, who: Sender)
    requires Core(st) && k in st.heap
    ensures k in AfterQueueChild(st, cfg, files, k, c, who).heap
    ensures AfterQueueChild(st, cfg, files, k, c, who).heap[k].conf.status == "queued"
    ensures AfterQueueChild(st, cfg, files, k, c, who).heap[k].files == ForPlatform(files, st.heap[k].conf.platform)
  {
    var st1 := WithFiles(st, files, k);
    var st3 := Enqueued(st, cfg, files, k);
    ObjFound(st1, cfg, k, "queued", true);
    FoundKeeps(st1, cfg, k, "queued", true, k);
    FoundStatus(st1, cfg, k, "queued", true);
    LogKeeps(st3, ChildQueuedMsg(st3.heap[k], who), Some(ClientPeer(c)), k);
  }

  /** A turn for a child of `m` leaves the status of every build other than
      that child and `m` as it was, and the files of every other build. */
  lemma QueueChildLeaves(st: State, cfg: Config, files: seq<FileEntry>, k: BuildRef, c: ClientRef, who: Sender,
                         q: BuildRef)
    requires Core(st) && k in st.heap && q in st.heap && q != k
    ensures q in AfterQueueChild(st, cfg, files, k, c, who).heap
    ensures AfterQueueChild(st, cfg, files, k, c, who).heap[q].files == st.heap[q].files
    ensures st.heap[k].master.Some? && q != st.heap[k].master.value
            ==> AfterQueueChild(st, cfg, files, k, c, who).heap[q].conf.status == st.heap[q].conf.status
  {
    var st1 := WithFiles(st, files, k);
    var st3 := Enqueued(st, cfg, files, k);
    ObjFound(st1, cfg, k, "queued", true);
    FoundKeeps(st1, cfg, k, "queued", true, q);
    if st.heap[k].master.Some? && q != st.heap[k].master.value {
      UpdateLeavesOthers(st1, cfg, k, "queued", true, q);
    }
    LogKeeps(st3, ChildQueuedMsg(st3.heap[k], who), Some(ClientPeer(c)), q);
  }

  /** After a turn for a child of `m`, `m`'s status is the one its
      children give. */
  lemma QueueChildMaster(st: State, cfg: Config, files: seq<FileEntry>, k: BuildRef, c: ClientRef, who: Sender)
    requires Core(st) && k in st.heap && st.heap[k].master.Some?
    ensures var m := st.heap[k].master.value;
            var h := AfterQueueChild(st, cfg, files, k, c, who).heap;
            m in h && h[m].platforms.Some? && h[m].conf.status == MasterStatus(h, m)
  {
    var m := st.heap[k].master.value;
    var st1 := WithFiles(st, files, k);
    var st3 := Enqueued(st, cfg, files, k);
    var h := AfterQueueChild(st, cfg, files, k, c, who).heap;
    StatusDelegated(st1, cfg, k, "queued", true);
    assert m in st3.heap && st3.heap[m].platforms.Some? && st3.heap[m].conf.status == MasterStatus(st3.heap, m);
    var cs := st3.heap[m].platforms.value;
    forall q | q in st3.heap
      ensures q in h && h[q] == st3.heap[q].(conf := st3.heap[q].conf.(logs := h[q].conf.logs))
    {
      LogKeeps(st3, ChildQueuedMsg(st3.heap[k], who), Some(ClientPeer(c)), q);
    }
    forall q | q in cs ensures ChildIndex(st3.heap, q) == ChildIndex(h, q) {
    }
    MaxIndexSame(st3.heap, h, cs);
  }

  // ---------------------------------------------------------------------
  // saveFiles: all children
  // ---------------------------------------------------------------------

  /** The outer `forEach` over the children `cs`, in order. */
  function AfterQueueChildren(st: State, cfg: Config, files: seq<FileEntry>, cs: seq<BuildRef>, c: ClientRef,
                              who: Sender): (res: State)
    requires Core(st) && forall k :: k in cs ==> k in st.heap
    ensures Core(res) && res.heap.Keys == st.heap.Keys
    decreases |cs|
  {
    if cs == [] then st
    else
      assert forall k :: k in cs[..|cs| - 1] ==> k in cs;
      var st1 := AfterQueueChildren(st, cfg, files, cs[..|cs| - 1], c, who);
      AfterQueueChild(st1, cfg, files, cs[|cs| - 1], c, who)
  }

  /** The children's turns change statuses, logs and the children's files
      only. */
  lemma {:induction false} QueueChildrenKept(st: State, cfg: Config, files: seq<FileEntry>, cs: seq<BuildRef>,
                                             c: ClientRef, who: Sender)
    requires Core(st) && forall k :: k in cs ==> k in st.heap
    ensures Kept(st.heap, AfterQueueChildren(st, cfg, files, cs, c, who).heap)
    decreases |cs|
  {
    if cs != [] {
      var init := cs[..|cs| - 1];
      assert forall k :: k in init ==> k in cs;
      QueueChildrenKept(st, cfg, files, init, c, who);
      var st1 := AfterQueueChildren(st, cfg, files, init, c, who);
      QueueChildKeeps(st1, cfg, files, cs[|cs| - 1], c, who);
      KeptTrans(st.heap, st1.heap, AfterQueueChildren(st, cfg, files, cs, c, who).heap);
    }
  }

  /** The children go on the queue once each, in order, and the registry
      is untouched. */
  lemma {:induction false} QueueChildrenQueue(st: State, cfg: Config, files: seq<FileEntry>, cs: seq<BuildRef>,
                                              c: ClientRef, who: Sender)
    requires Core(st) && forall k :: k in cs ==> k in st.heap
    ensures AfterQueueChildren(st, cfg, files, cs, c, who).queue == st.queue + cs
    ensures AfterQueueChildren(st, cfg, files, cs, c, who).ids == st.ids
    ensures AfterQueueChildren(st, cfg, files, cs, c, who).builds == st.builds
    decreases |cs|
  {
    if cs != [] {
      var init := cs[..|cs| - 1];
      assert forall k :: k in init ==> k in cs;
      QueueChildrenQueue(st, cfg, files, init, c, who);
      var st1 := AfterQueueChildren(st, cfg, files, init, c, who);
      QueueChildLists(st1, cfg, files, cs[|cs| - 1], c, who);
      AppendLast(st.queue, cs);
    }
  }

  lemma AppendLast(q: seq<BuildRef>, cs: seq<BuildRef>)
    requires cs != []
    ensures q + cs == (q + cs[..|cs| - 1]) + [cs[|cs| - 1]]
  {
    assert cs == cs[..|cs| - 1] + [cs[|cs| - 1]];
  }

  /** Children of the root at `r`. */
  predicate ChildrenOfRoot(h: Heap, r: BuildRef, cs: seq<BuildRef>) {
    r in h && h[r].master.None? && forall k :: k in cs ==> k in h && h[k].master == Some(r)
  }

  lemma ChildrenOfRootKept(h: Heap, h': Heap, r: BuildRef, cs: seq<BuildRef>)
    requires ChildrenOfRoot(h, r, cs) && Kept(h, h')
    ensures ChildrenOfRoot(h', r, cs)
  {
  }

  /** Build `q` is `queued` and holds `files`. */
  predicate QueuedWith(h: Heap, q: BuildRef, files: seq<FileEntry>) {
    q in h && h[q].conf.status == "queued" && h[q].files == files
  }

  /** Each of the children ends `queued`, with the files meant for its
      platform. */
  lemma {:induction false} QueueChildrenEach(st: State, cfg: Config, files: seq<FileEntry>, cs: seq<BuildRef>,
                                             c: ClientRef, who: Sender, r: BuildRef, q: BuildRef)
    requires Core(st) && ChildrenOfRoot(st.heap, r, cs) && q in cs
    ensures QueuedWith(AfterQueueChildren(st, cfg, files, cs, c, who).heap, q, ForPlatform(files, st.heap[q].conf.platform))
    decreases |cs|
  {
    var init := cs[..|cs| - 1];
    if q == cs[|cs| - 1] {
      QueueLastSets(st, cfg, files, cs, c, who, r);
    } else {
      assert forall x :: x in init ==> x in cs;
      assert q in init by {
        assert cs == init + [cs[|cs| - 1]];
      }
      QueueChildrenEach(st, cfg, files, init, c, who, r, q);
      QueueLastLeaves(st, cfg, files, cs, c, who, r, q, ForPlatform(files, st.heap[q].conf.platform));
    }
  }

  /** The last child's turn leaves it `queued` with its files. */
  lemma QueueLastSets(st: State, cfg: Config, files: seq<FileEntry>, cs: seq<BuildRef>, c: ClientRef, who: Sender,
                      r: BuildRef)
    requires Core(st) && ChildrenOfRoot(st.heap, r, cs) && cs != []
    ensures QueuedWith(AfterQueueChildren(st, cfg, files, cs, c, who).heap, cs[|cs| - 1],
                       ForPlatform(files, st.heap[cs[|cs| - 1]].conf.platform))
  {
    var init := cs[..|cs| - 1];
    var k := cs[|cs| - 1];
    assert forall x :: x in init ==> x in cs;
    var st1 := AfterQueueChildren(st, cfg, files, init, c, who);
    QueueChildrenKept(st, cfg, files, init, c, who);
    assert st1.heap[k].conf.platform == st.heap[k].conf.platform;
    QueueChildSets(st1, cfg, files, k, c, who);
  }

  /** The last child's turn leaves an earlier child as it was. */
  lemma QueueLastLeaves(st: State, cfg: Config, files: seq<FileEntry>, cs: seq<BuildRef>, c: ClientRef, who: Sender,
                        r: BuildRef, q: BuildRef, fs: seq<FileEntry>)
    requires Core(st) && ChildrenOfRoot(st.heap, r, cs) && cs != [] && q in cs && q != cs[|cs| - 1]
    requires forall x :: x in cs[..|cs| - 1] ==> x in st.heap
    requires QueuedWith(AfterQueueChildren(st, cfg, files, cs[..|cs| - 1], c, who).heap, q, fs)
    ensures QueuedWith(AfterQueueChildren(st, cfg, files, cs, c, who).heap, q, fs)
  {
    var init := cs[..|cs| - 1];
    var k := cs[|cs| - 1];
    var st1 := AfterQueueChildren(st, cfg, files, init, c, who);
    QueueChildrenKept(st, cfg, files, init, c, who);
    assert st1.heap[k].master == Some(r) && q != r;
    QueueChildLeaves(st1, cfg, files, k, c, who, q);
  }

  /** `queued` is the fifth status. */
  lemma QueuedIndex()
    ensures IndexOf("queued") == 4
  {
    assert Statuses[4] == "queued";
    assert forall i :: 0 <= i < 4 ==> Statuses[i] != "queued";
  }

  /** A non-empty list of children that all have the same listed status
      gives their master that status. */
  lemma {:induction false} AllSame(h: Heap, cs: seq<BuildRef>, status: string)
    requires IndexOf(status) >= 0
    requires cs != [] && forall k :: k in cs ==> k in h && h[k].conf.status == status
    ensures MaxIndex(h, cs) == IndexOf(status)
    decreases |cs|
  {
    var init := cs[..|cs| - 1];
    assert ChildIndex(h, cs[|cs| - 1]) == IndexOf(status);
    if init != [] {
      assert forall k :: k in init ==> k in cs;
      AllSame(h, init, status);
    }
  }

  /** After the last turn, the root's status is the one its children
      give. */
  lemma QueueChildrenMaster(st: State, cfg: Config, files: seq<FileEntry>, cs: seq<BuildRef>, c: ClientRef,
                            who: Sender, r: BuildRef)
    requires Core(st) && ChildrenOfRoot(st.heap, r, cs) && cs != []
    ensures var h := AfterQueueChildren(st, cfg, files, cs, c, who).heap;
            r in h && h[r].platforms.Some? && h[r].conf.status == MasterStatus(h, r)
  {
    var init := cs[..|cs| - 1];
    assert forall x :: x in init ==> x in cs;
    var st1 := AfterQueueChildren(st, cfg, files, init, c, who);
    QueueChildrenKept(st, cfg, files, init, c, who);
    ChildrenOfRootKept(st.heap, st1.heap, r, cs);
    QueueChildMaster(st1, cfg, files, cs[|cs| - 1], c, who);
  }

  /** The loop of `saveFiles` over the children. */
  method QueueChildren(s: Server, cfg: Config, files: seq<FileEntry>, cs: seq<BuildRef>, c: ClientRef, who: Sender)
    requires Core(s.St()) && forall k :: k in cs ==> k in s.heap
    modifies s
    ensures s.St() == AfterQueueChildren(old(s.St()), cfg, files, cs, c, who)
  {
    ghost var st0 := s.St();
    var i := 0;
    while i < |cs|
      invariant 0 <= i <= |cs|
      invariant s.St() == AfterQueueChildren(st0, cfg, files, cs[..i], c, who)
    {
      QueueChildrenStep(st0, cfg, files, cs, c, who, i);
      QueueChild(s, cfg, files, cs[i], c, who);
      i := i + 1;
    }
    assert cs[..|cs|] == cs;
  }

  /** One more turn. */
  lemma QueueChildrenStep(st: State, cfg: Config, files: seq<FileEntry>, cs: seq<BuildRef>, c: ClientRef, who: Sender,
                          i: nat)
    requires Core(st) && (forall k :: k in cs ==> k in st.heap) && i < |cs|
    ensures cs[i] in AfterQueueChildren(st, cfg, files, cs[..i], c, who).heap
    ensures AfterQueueChildren(st, cfg, files, cs[..i + 1], c, who)
            == AfterQueueChild(AfterQueueChildren(st, cfg, files, cs[..i], c, who), cfg, files, cs[i], c, who)
  {
    assert cs[..i + 1][..i] == cs[..i];
  }

  /** One turn of the loop. */
  method QueueChild(s: Server, cfg: Config, files: seq<FileEntry>, k: BuildRef, c: ClientRef, who: Sender)
    requires Core(s.St()) && k in s.heap
    modifies s
    ensures s.St() == AfterQueueChild(old(s.St()), cfg, files, k, c, who)
  {
    var b := s.heap[k];
    var selected := SelectFiles(files, b.conf.platform);
    WfAfterWrite(s.heap, k, b.(files := selected));
    s.heap := s.heap[k := b.(files := selected)];
    s.UpdateBuildStatus(cfg, Obj(k), "queued", true);
    s.queue := s.queue + [k];
    s.Log(ChildQueuedMsg(s.heap[k], who), Some(ClientPeer(c)));
  }

  // ---------------------------------------------------------------------
  // saveFiles
  // ---------------------------------------------------------------------

  function SaveFailedMsg(b: Build, who: Sender, err: string): Msg {
    Make(SubjectOf(b), who, "C", Error, SaveFailedTemplate, [err])
  }

  function QueuedOnMsg(b: Build, who: Sender): Msg {
    Make(SubjectOf(b), who, "C", Status, QueuedOnTemplate, [PlatformText(b.conf.platform)])
  }

  /** The root once it is `queued`, before its children are. */
  function RootQueued(st: State, cfg: Config, r: BuildRef, c: ClientRef, who: Sender): (res: State)
    requires Core(st) && r in st.heap
    ensures Core(res) && res.heap.Keys == st.heap.Keys
  {
    var st1 := AfterLog(st, QueuedOnMsg(st.heap[r], who), Some(ClientPeer(c)));
    LogKeys(st, QueuedOnMsg(st.heap[r], who), Some(ClientPeer(c)));
    AfterUpdateBuildStatus(st1, cfg, Obj(r), "queued", false)
  }

  /** `saveFiles(err, build)` for the build at `r`: an error is reported
      and fails the build; otherwise the build is `queued`, then each of
      its children in turn. A build without a list of children throws at
      the `forEach`, once it is queued. */
  function AfterSaveFiles(st: State, cfg: Config, r: BuildRef, err: Option<string>, c: ClientRef, who: Sender)
    : (res: State)
    requires Core(st) && r in st.heap
    ensures Core(res) && res.heap.Keys == st.heap.Keys
  {
    if err.Some? then
      var st1 := AfterLog(st, SaveFailedMsg(st.heap[r], who, err.value), Some(ClientPeer(c)));
      LogKeys(st, SaveFailedMsg(st.heap[r], who, err.value), Some(ClientPeer(c)));
      AfterUpdateBuildStatus(st1, cfg, Obj(r), "failed", false)
    else
      var st2 := RootQueued(st, cfg, r, c, who);
      if st2.heap[r].platforms.None? then st2
      else
        assert LinksOk(st2.heap, r);
        AfterQueueChildren(st2, cfg, st2.heap[r].files, st2.heap[r].platforms.value, c, who)
  }

  /** A write error fails the build and queues nothing. */
  lemma SaveFailedMarks(st: State, cfg: Config, r: BuildRef, err: string, c: ClientRef, who: Sender)
    requires Core(st) && r in st.heap
    ensures r in AfterSaveFiles(st, cfg, r, Some(err), c, who).heap
    ensures AfterSaveFiles(st, cfg, r, Some(err), c, who).heap[r].conf.status == "failed"
    ensures AfterSaveFiles(st, cfg, r, Some(err), c, who).queue == st.queue
  {
    var st1 := AfterLog(st, SaveFailedMsg(st.heap[r], who, err), Some(ClientPeer(c)));
    LogKeys(st, SaveFailedMsg(st.heap[r], who, err), Some(ClientPeer(c)));
    StatusDelegated(st1, cfg, r, "failed", false);
  }

  /** Queuing the root keeps the build graph but for statuses and logs, and
      leaves the lists of the server as they were. */
  lemma RootQueuedKeeps(st: State, cfg: Config, r: BuildRef, c: ClientRef, who: Sender)
    requires Core(st) && r in st.heap
    ensures var res := RootQueued(st, cfg, r, c, who);
            Kept(st.heap, res.heap) && res.queue == st.queue && res.ids == st.ids && res.builds == st.builds
            && r in res.heap && res.heap[r].conf.status == "queued"
  {
    var st1 := AfterLog(st, QueuedOnMsg(st.heap[r], who), Some(ClientPeer(c)));
    LogKeys(st, QueuedOnMsg(st.heap[r], who), Some(ClientPeer(c)));
    ObjFound(st1, cfg, r, "queued", false);
    StatusDelegated(st1, cfg, r, "queued", false);
    forall q | q in st.heap
      ensures RootQueued(st, cfg, r, c, who).heap[q]
              == st.heap[q].(conf := st.heap[q].conf.(status := RootQueued(st, cfg, r, c, who).heap[q].conf.status,
                                                      logs := RootQueued(st, cfg, r, c, who).heap[q].conf.logs),
                             files := RootQueued(st, cfg, r, c, who).heap[q].files)
    {
      LogKeeps(st, QueuedOnMsg(st.heap[r], who), Some(ClientPeer(c)), q);
      FoundKeeps(st1, cfg, r, "queued", false, q);
    }
  }

  /** With the files saved, the children of the build go on the queue
      once each, in their order, and nothing else does. */
  lemma SaveQueuesChildren(st: State, cfg: Config, r: BuildRef, c: ClientRef, who: Sender)
    requires Core(st) && r in st.heap && st.heap[r].platforms.Some?
    ensures AfterSaveFiles(st, cfg, r, None, c, who).queue == st.queue + st.heap[r].platforms.value
  {
    var st2 := RootQueued(st, cfg, r, c, who);
    RootQueuedKeeps(st, cfg, r, c, who);
    assert LinksOk(st2.heap, r);
    QueueChildrenQueue(st2, cfg, st2.heap[r].files, st2.heap[r].platforms.value, c, who);
  }

  /** With the files saved, each child of a root is `queued` and holds
      exactly the root's files meant for its platform, in upload order. */
  lemma SaveQueuesChild(st: State, cfg: Config, r: BuildRef, c: ClientRef, who: Sender, q: BuildRef)
    requires Core(st) && r in st.heap && st.heap[r].master.None? && st.heap[r].platforms.Some?
    requires q in st.heap[r].platforms.value
    ensures q in AfterSaveFiles(st, cfg, r, None, c, who).heap
    ensures AfterSaveFiles(st, cfg, r, None, c, who).heap[q].conf.status == "queued"
    ensures AfterSaveFiles(st, cfg, r, None, c, who).heap[q].files
            == ForPlatform(st.heap[r].files, st.heap[q].conf.platform)
  {
    var st2 := RootQueued(st, cfg, r, c, who);
    RootQueuedKeeps(st, cfg, r, c, who);
    assert LinksOk(st.heap, r);
    var cs := st.heap[r].platforms.value;
    assert ChildrenOfRoot(st2.heap, r, cs);
    QueueChildrenEach(st2, cfg, st2.heap[r].files, cs, c, who, r, q);
  }

  /** With the files saved, a root ends `queued`: directly when it has no
      children, and through its children, all `queued`, otherwise. */
  lemma SaveQueuesRoot(st: State, cfg: Config, r: BuildRef, c: ClientRef, who: Sender)
    requires Core(st) && r in st.heap && st.heap[r].master.None? && st.heap[r].platforms.Some?
    ensures r in AfterSaveFiles(st, cfg, r, None, c, who).heap
    ensures AfterSaveFiles(st, cfg, r, None, c, who).heap[r].conf.status == "queued"
  {
    var st2 := RootQueued(st, cfg, r, c, who);
    RootQueuedKeeps(st, cfg, r, c, who);
    assert LinksOk(st.heap, r);
    var cs := st.heap[r].platforms.value;
    if cs != [] {
      var h := AfterSaveFiles(st, cfg, r, None, c, who).heap;
      assert ChildrenOfRoot(st2.heap, r, cs);
      QueueChildrenMaster(st2, cfg, st2.heap[r].files, cs, c, who, r);
      QueueChildrenKept(st2, cfg, st2.heap[r].files, cs, c, who);
      forall k | k in cs ensures k in h && h[k].conf.status == "queued" {
        SaveQueuesChild(st, cfg, r, c, who, k);
      }
      QueuedIndex();
      AllSame(h, cs, "queued");
      assert h[r].platforms.value == cs;
    }
  }

  /** `saveFiles(err, build)` */
  method SaveFiles(s: Server, cfg: Config, r: BuildRef, err: Option<string>, c: ClientRef, who: Sender)
    requires Core(s.St()) && r in s.heap
    modifies s
    ensures s.St() == AfterSaveFiles(old(s.St()), cfg, r, err, c, who)
  {
    if err.Some? {
      s.Log(SaveFailedMsg(s.heap[r], who, err.value), Some(ClientPeer(c)));
      s.UpdateBuildStatus(cfg, Obj(r), "failed", false);
      return;
    }
    s.Log(QueuedOnMsg(s.heap[r], who), Some(ClientPeer(c)));
    s.UpdateBuildStatus(cfg, Obj(r), "queued", false);
    if s.heap[r].platforms.None? {
      return;
    }
    assert LinksOk(s.heap, r);
    QueueChildren(s, cfg, s.heap[r].files, s.heap[r].platforms.value, c, who);
  }

  // ---------------------------------------------------------------------
  // onUploadBuild
  // ---------------------------------------------------------------------

  /** The folder a build's uploaded files are written to: `input` under
      the folder named after the build's `Id()`. */
  function InputFolder(cfg: Config, b: Build): string {
    Resolve(Resolve(cfg.location, Id(b)), "input")
  }

  /** The `saveFiles` call `onUploadBuild` leaves behind: the build and the
      error the writes reported. */
  datatype Pending = Pending(r: BuildRef, err: Option<string>)

  function UnknownUploadMsg(req: Request, who: Sender): Msg {
    Make(RequestSubject(req), who, "C", Error, UnknownUploadTemplate, [])
  }

  /** The build at `r` holding the uploaded files once they are written
      into its input folder (or as they came, when the folder could not be
      made), with the error for `saveFiles`. */
  function Stored(st: State, cfg: Config, r: BuildRef, files: seq<FileEntry>, mkdir: Option<string>,
                  fails: map<string, string>): (res: (State, Pending))
    requires Core(st) && r in st.heap
    ensures Core(res.0) && res.0.heap.Keys == st.heap.Keys && res.1.r == r
  {
    var b := st.heap[r];
    var out := ServerUtils.WriteOutcome(InputFolder(cfg, b), files, ServerName, ServerUtils.Omitted, mkdir, fails);
    WfAfterWrite(st.heap, r, b.(files := out.0));
    (st.(heap := st.heap[r := b.(files := out.0)]), Pending(r, out.1))
  }

  /** `onUploadBuild(build)`: the request is validated; an accepted one
      naming no registered build is reported (and throws when it has no
      id), one naming a registered build hands its files to `writeFiles`,
      whose outcome `saveFiles` receives. */
  function AfterUploadBuild(st: State, cfg: Config, req: Request, c: ClientRef, clientIds: map<ClientRef, string>,
                            mkdir: Option<string>, fails: map<string, string>): (res: (State, Option<Pending>))
    requires Core(st)
    ensures Core(res.0) && res.0.heap.Keys == st.heap.Keys
    ensures res.1.Some? ==> res.1.value.r in res.0.heap
  {
    var v := AfterValidate(st, cfg, req, c, clientIds);
    if v.1 != Accepted then (v.0, None)
    else if RequestKey(req) !in v.0.ids then
      if LogThrows(req) then (v.0, None)
      else
        LogKeys(v.0, UnknownUploadMsg(req, ClientSessions.Who(c, clientIds)), Some(ClientPeer(c)));
        (AfterLog(v.0, UnknownUploadMsg(req, ClientSessions.Who(c, clientIds)), Some(ClientPeer(c))), None)
    else
      var out := Stored(v.0, cfg, v.0.ids[RequestKey(req)], req.files, mkdir, fails);
      (out.0, Some(out.1))
  }

  /** An upload naming no registered build stores nothing and queues
      nothing: every build keeps everything but its log. */
  lemma UploadUnknownStoresNothing(st: State, cfg: Config, req: Request, c: ClientRef, clientIds: map<ClientRef, string>,
                                   mkdir: Option<string>, fails: map<string, string>)
    requires Core(st) && RequestKey(req) !in st.ids
    ensures AfterUploadBuild(st, cfg, req, c, clientIds, mkdir, fails).1.None?
    ensures AfterUploadBuild(st, cfg, req, c, clientIds, mkdir, fails).0.queue == st.queue
    ensures AfterUploadBuild(st, cfg, req, c, clientIds, mkdir, fails).0.ids == st.ids
    ensures forall q :: q in st.heap ==> AfterUploadBuild(st, cfg, req, c, clientIds, mkdir, fails).0.heap[q].files
                                         == st.heap[q].files
  {
    var v := AfterValidate(st, cfg, req, c, clientIds);
    ValidateKeepsFiles(st, cfg, req, c, clientIds);
    if v.1 == Accepted && !LogThrows(req) {
      var m := UnknownUploadMsg(req, ClientSessions.Who(c, clientIds));
      forall q | q in st.heap
        ensures AfterLog(v.0, m, Some(ClientPeer(c))).heap[q].files == st.heap[q].files
      {
        LogKeeps(v.0, m, Some(ClientPeer(c)), q);
      }
    }
  }

  /** Validation changes no build's files, the queue or the registry. */
  lemma ValidateKeepsFiles(st: State, cfg: Config, req: Request, c: ClientRef, clientIds: map<ClientRef, string>)
    requires Core(st)
    ensures AfterValidate(st, cfg, req, c, clientIds).0.queue == st.queue
    ensures AfterValidate(st, cfg, req, c, clientIds).0.ids == st.ids
    ensures forall q :: q in st.heap ==> AfterValidate(st, cfg, req, c, clientIds).0.heap[q].files == st.heap[q].files
  {
    var v := AfterValidate(st, cfg, req, c, clientIds).1;
    if v == Accepted {
      ValidateAcceptOnlyWarns(st, cfg, req, c, clientIds);
    } else if v == Rejected {
      RejectKeepsFiles(st, cfg, req, c, clientIds);
    }
  }

  lemma RejectKeepsFiles(st: State, cfg: Config, req: Request, c: ClientRef, clientIds: map<ClientRef, string>)
    requires Core(st) && AfterValidate(st, cfg, req, c, clientIds).1 == Rejected
    ensures AfterValidate(st, cfg, req, c, clientIds).0.queue == st.queue
    ensures AfterValidate(st, cfg, req, c, clientIds).0.ids == st.ids
    ensures forall q :: q in st.heap ==> AfterValidate(st, cfg, req, c, clientIds).0.heap[q].files == st.heap[q].files
  {
    var who := ClientSessions.Who(c, clientIds);
    var m := Make(RequestSubject(req), who, "C", Error, Refusal(req).value, []);
    var st1 := AfterLog(st, m, Some(ClientPeer(c)));
    LogKeys(st, m, Some(ClientPeer(c)));
    var t := Target(st1, RequestArg(req));
    forall q | q in st.heap ensures st1.heap[q].files == st.heap[q].files {
      LogKeeps(st, m, Some(ClientPeer(c)), q);
    }
    if t.None? {
      NotFoundOnlyLogs(st1, cfg, RequestArg(req), "failed", false);
    } else {
      forall q | q in st.heap
        ensures AfterUpdateBuildStatus(st1, cfg, RequestArg(req), "failed", false).heap[q].files == st1.heap[q].files
      {
        FoundKeeps(st1, cfg, t.value, "failed", false, q);
      }
      FoundKeeps(st1, cfg, t.value, "failed", false, t.value);
    }
  }

  /** An accepted upload naming a registered build gives that build the
      uploaded files, each moved to the build's input folder under its
      base name and without its content, or the files as they came when
      the folder could not be made; `saveFiles` then gets the error, which
      is absent exactly when the folder was made and every file was
      written. Nothing is queued yet. */
  lemma UploadStores(st: State, cfg: Config, req: Request, c: ClientRef, clientIds: map<ClientRef, string>,
                     mkdir: Option<string>, fails: map<string, string>)
    requires Core(st) && RequestKey(req) in st.ids && AfterValidate(st, cfg, req, c, clientIds).1 == Accepted
    ensures var r := st.ids[RequestKey(req)];
            var res := AfterUploadBuild(st, cfg, req, c, clientIds, mkdir, fails);
            var folder := InputFolder(cfg, st.heap[r]);
            res.1 == Some(Pending(r, res.1.value.err)) && r in res.0.heap
            && res.0.heap[r].files == (if mkdir.Some? then req.files else ServerUtils.WrittenAll(req.files, folder, ServerUtils.Omitted))
            && (res.1.value.err.None? <==> mkdir.None? && ServerUtils.FirstWriteError(req.files, folder, fails).None?)
            && res.0.queue == st.queue && res.0.ids == st.ids
  {
    var r := st.ids[RequestKey(req)];
    var v := AfterValidate(st, cfg, req, c, clientIds);
    ValidateAcceptOnlyWarns(st, cfg, req, c, clientIds);
    assert v.0.heap[r].id == st.heap[r].id && v.0.heap[r].conf.number == st.heap[r].conf.number;
  }

  /** A written file sits in the input folder under the text after the
      last separator of its path, and its content is freed. */
  lemma UploadedFile(f: FileEntry, folder: string)
    ensures ServerUtils.WrittenFile(f, folder, ServerUtils.Omitted).file == Resolve(folder, ServerUtils.StoredName(f.file))
    ensures ServerUtils.WrittenFile(f, folder, ServerUtils.Omitted).content.None?
    ensures ServerUtils.WrittenFile(f, folder, ServerUtils.Omitted).group == f.group
  {
  }

  /** `onUploadBuild(build)`; `disk'` is the disk once the writes are
      done. */
  method UploadBuild(s: Server, cfg: Config, req: Request, c: ClientRef, clientIds: map<ClientRef, string>,
                     mkdir: Option<string>, fails: map<string, string>, disk: ServerUtils.Disk)
    returns (pending: Option<Pending>, folder: string, disk': ServerUtils.Disk)
    requires Core(s.St())
    modifies s
    ensures (s.St(), pending) == AfterUploadBuild(old(s.St()), cfg, req, c, clientIds, mkdir, fails)
    ensures disk' == if pending.None? || mkdir.Some? then disk else ServerUtils.DiskAfter(req.files, folder, fails, disk)
  {
    folder := "";
    disk' := disk;
    var v := Validate(s, cfg, req, c, clientIds);
    if v != Accepted {
      return None, folder, disk';
    }
    var key := RequestKey(req);
    if key !in s.ids {
      if !LogThrows(req) {
        s.Log(UnknownUploadMsg(req, ClientSessions.Who(c, clientIds)), Some(ClientPeer(c)));
      }
      return None, folder, disk';
    }
    var p;
    p, folder, disk' := Store(s, cfg, s.ids[key], req.files, mkdir, fails, disk);
    pending := Some(p);
  }

  /** The `writeFiles` call of `onUploadBuild`, for the build at `r`. */
  method Store(s: Server, cfg: Config, r: BuildRef, files: seq<FileEntry>, mkdir: Option<string>,
               fails: map<string, string>, disk: ServerUtils.Disk)
    returns (p: Pending, folder: string, disk': ServerUtils.Disk)
    requires Core(s.St()) && r in s.heap
    modifies s
    ensures (s.St(), p) == Stored(old(s.St()), cfg, r, files, mkdir, fails)
    ensures folder == InputFolder(cfg, old(s.heap)[r])
    ensures disk' == if mkdir.Some? then disk else ServerUtils.DiskAfter(files, folder, fails, disk)
  {
    var b := s.heap[r];
    folder := InputFolder(cfg, b);
    var out, err;
    out, disk', err := ServerUtils.WriteFiles(folder, files, ServerName, ServerUtils.Omitted, mkdir, fails, disk);
    WfAfterWrite(s.heap, r, b.(files := out));
    s.heap := s.heap[r := b.(files := out)];
    p := Pending(r, err);
  }
}
