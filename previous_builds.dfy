/** `Server.prototype.readPreviousBuilds` (lib/server/Server.js): the
    `build.json` files found under the builds folder are sorted, read and
    parsed concurrently, and once every read has finished, or the first one
    has failed, the builds parsed so far are registered in the sorted order
    of their paths, each child indexed by its id.

    The disk is a map from path to what parsing that file gives; the order
    in which the reads finish is a parameter. */
module PreviousBuilds {
  import opened Wrappers
  import opened Strings
  import opened Builds
  import opened Messages
  import opened Coordinator

  // ---------------------------------------------------------------------
  // `builds.sort()`: the default order of strings
  // ---------------------------------------------------------------------

  /** `a` sorts strictly before `b`: a proper prefix, or a smaller
      character at the first difference. Characters are compared by code
      point, where JavaScript compares UTF-16 code units; the two orders
      differ only for characters above U+FFFF, which are one character
      here and a surrogate pair there. */
  predicate Before(a: string, b: string)
    decreases |a|
  {
    |b| > 0 && (|a| == 0 || a[0] < b[0] || (a[0] == b[0] && Before(a[1..], b[1..])))
  }

  lemma {:induction false} BeforeTotal(a: string, b: string)
    ensures a == b || Before(a, b) || Before(b, a)
    decreases |a|
  {
    if |a| > 0 && |b| > 0 && a[0] == b[0] {
      BeforeTotal(a[1..], b[1..]);
      if a[1..] == b[1..] {
        assert a == [a[0]] + a[1..] && b == [b[0]] + b[1..];
      }
    }
  }

  lemma {:induction false} BeforeAsymmetric(a: string, b: string)
    requires Before(a, b)
    ensures !Before(b, a)
    decreases |a|
  {
    if |a| > 0 && a[0] == b[0] {
      BeforeAsymmetric(a[1..], b[1..]);
    }
  }

  lemma {:induction false} BeforeTransitive(a: string, b: string, c: string)
    requires Before(a, b) && Before(b, c)
    ensures Before(a, c)
    decreases |a|
  {
    if |a| > 0 && a[0] == b[0] && b[0] == c[0] {
      BeforeTransitive(a[1..], b[1..], c[1..]);
    }
  }

  /** Not sorting after is transitive. */
  lemma NotAfterTransitive(a: string, b: string, c: string)
    requires !Before(b, a) && !Before(c, b)
    ensures !Before(c, a)
  {
    BeforeTotal(a, b);
    BeforeTotal(b, c);
    if a != b && b != c {
      BeforeTransitive(a, b, c);
      BeforeAsymmetric(a, c);
    } else if a != b {
      BeforeAsymmetric(a, b);
    } else if b != c {
      BeforeAsymmetric(b, c);
    }
  }

  predicate Ordered(xs: seq<string>) {
    forall i, j :: 0 <= i < j < |xs| ==> !Before(xs[j], xs[i])
  }

  function Insert(x: string, xs: seq<string>): (r: seq<string>)
    ensures multiset(r) == multiset(xs) + multiset{x}
  {
    if xs == [] then [x]
    else if Before(xs[0], x) then
      assert xs == [xs[0]] + xs[1..];
      [xs[0]] + Insert(x, xs[1..])
    else [x] + xs
  }

  lemma {:induction false} InsertOrdered(x: string, xs: seq<string>)
    requires Ordered(xs)
    ensures Ordered(Insert(x, xs))
  {
    if xs != [] {
      if Before(xs[0], x) {
        InsertOrdered(x, xs[1..]);
        var rest := Insert(x, xs[1..]);
        forall j | 0 <= j < |rest| ensures !Before(rest[j], xs[0]) {
          assert rest[j] in multiset(rest);
          if rest[j] == x {
            BeforeAsymmetric(xs[0], x);
          } else {
            assert rest[j] in multiset(xs[1..]);
            var k :| 0 <= k < |xs[1..]| && xs[1..][k] == rest[j];
            assert xs[k + 1] == rest[j];
          }
        }
      } else {
        forall j | 0 <= j < |xs| ensures !Before(xs[j], x) {
          if j > 0 {
            NotAfterTransitive(x, xs[0], xs[j]);
          }
        }
      }
    }
  }

  /** `paths.sort()`, the default order: a permutation of the paths in
      which no path sorts after a later one. */
  function SortPaths(xs: seq<string>): (r: seq<string>)
    ensures multiset(r) == multiset(xs) && Ordered(r)
  {
    if xs == [] then []
    else
      assert xs == [xs[0]] + xs[1..];
      InsertOrdered(xs[0], SortPaths(xs[1..]));
      Insert(xs[0], SortPaths(xs[1..]))
  }

  // ---------------------------------------------------------------------
  // The reads
  // ---------------------------------------------------------------------

  /** What reading and `JSON.parse`-ing one file gives. A file that cannot
      be read is `Unparsable` too, since parsing the missing data throws. */
  datatype Read = Parsed(wire: Wire) | Unparsable(error: string)

  /** What `JSON.parse(undefined)` throws. */
  const MissingError: string := "SyntaxError: Unexpected token u in JSON at position 0"

  /** What reading the file at `p` gives: a path that is not on the disk
      cannot be parsed. */
  function ReadOf(disk: map<string, Read>, p: string): Read {
    if p in disk then disk[p] else Unparsable(MissingError)
  }

  /** What the reads have produced when the final callback runs: the
      heap with the revived builds, the next free reference,
      `orderedBuilds` (path to revived root), the length of `loadedBuilds`
      and the error that ended the loop, if any. */
  datatype Loading = Loading(heap: Heap, next: BuildRef, at: map<string, BuildRef>, count: nat,
                             failure: Option<string>)

  /** Every reference in use is below the next free one. */
  predicate Below(h: Heap, next: BuildRef) {
    forall q :: q in h ==> q < next
  }

  /** The reads finishing in the order `finished`: each parsed file is
      revived with `new Build(json)` and recorded; the first failure calls
      the final callback, so what finishes after it is never seen. */
  function Loaded(h: Heap, next: BuildRef, disk: map<string, Read>, finished: seq<string>,
                  gen: BuildRef -> string): (l: Loading)
    requires Wf(h) && Below(h, next)
    ensures Wf(l.heap) && Below(l.heap, l.next)
    ensures forall q :: q in h ==> q in l.heap && l.heap[q] == h[q]
    ensures forall p :: p in l.at ==> l.at[p] in l.heap
    decreases |finished|
  {
    if finished == [] then Loading(h, next, map[], 0, None)
    else
      var init := finished[..|finished| - 1];
      var l := Loaded(h, next, disk, init, gen);
      var p := finished[|finished| - 1];
      if l.failure.Some? then l
      else if ReadOf(disk, p).Unparsable? then l.(failure := Some(ReadOf(disk, p).error))
      else
        var w := ReadOf(disk, p).wire;
        ReviveWf(l.heap, l.next, w, gen);
        ReviveShape(l.heap, l.next, w, gen);
        var (h', next') := Revive(l.heap, l.next, w, gen);
        Loading(h', next', l.at[p := l.next], l.count + 1, None)
  }

  lemma LoadedStep(h: Heap, next: BuildRef, disk: map<string, Read>, finished: seq<string>,
                   gen: BuildRef -> string, i: nat)
    requires Wf(h) && Below(h, next) && i < |finished|
    ensures var l := Loaded(h, next, disk, finished[..i], gen);
            var p := finished[i];
            Loaded(h, next, disk, finished[..i + 1], gen)
            == if l.failure.Some? then l
               else if ReadOf(disk, p).Unparsable? then l.(failure := Some(ReadOf(disk, p).error))
               else Loading(Revive(l.heap, l.next, ReadOf(disk, p).wire, gen).0, Revive(l.heap, l.next, ReadOf(disk, p).wire, gen).1,
                            l.at[p := l.next], l.count + 1, None)
  {
    assert finished[..i + 1][..i] == finished[..i];
  }

  /** The loop ends without an error exactly when every read that
      finished parsed. */
  lemma {:induction false} LoadedNoFailure(h: Heap, next: BuildRef, disk: map<string, Read>, finished: seq<string>,
                                           gen: BuildRef -> string)
    requires Wf(h) && Below(h, next)
    ensures Loaded(h, next, disk, finished, gen).failure.None? <==> forall p :: p in finished ==> ReadOf(disk, p).Parsed?
    decreases |finished|
  {
    if finished != [] {
      var init := finished[..|finished| - 1];
      assert finished == init + [finished[|finished| - 1]];
      LoadedNoFailure(h, next, disk, init, gen);
    }
  }

  /** Every recorded path was read and parsed. */
  lemma {:induction false} LoadedPaths(h: Heap, next: BuildRef, disk: map<string, Read>, finished: seq<string>,
                                       gen: BuildRef -> string, p: string)
    requires Wf(h) && Below(h, next)
    requires p in Loaded(h, next, disk, finished, gen).at
    ensures p in finished && ReadOf(disk, p).Parsed?
    decreases |finished|
  {
    var init := finished[..|finished| - 1];
    var last := finished[|finished| - 1];
    assert finished == init + [last];
    if p in Loaded(h, next, disk, init, gen).at {
      LoadedPaths(h, next, disk, init, gen, p);
    }
  }

  /** Every recorded root was revived as a root with the configuration of
      its file. */
  lemma {:induction false} LoadedRoots(h: Heap, next: BuildRef, disk: map<string, Read>, finished: seq<string>,
                                       gen: BuildRef -> string, p: string)
    requires Wf(h) && Below(h, next)
    requires p in Loaded(h, next, disk, finished, gen).at
    ensures var l := Loaded(h, next, disk, finished, gen);
            ReadOf(disk, p).Parsed? && l.heap[l.at[p]].conf == ReadOf(disk, p).wire.conf
            && l.heap[l.at[p]].master.None?
    decreases |finished|
  {
    var init := finished[..|finished| - 1];
    var last := finished[|finished| - 1];
    var l := Loaded(h, next, disk, init, gen);
    if l.failure.None? && ReadOf(disk, last).Parsed? {
      var w := ReadOf(disk, last).wire;
      ReviveWf(l.heap, l.next, w, gen);
      if p == last {
        ReviveAt(l.heap, l.next, w, gen, l.next);
        ReviveOneFields(w, gen(l.next));
      } else {
        LoadedRoots(h, next, disk, init, gen, p);
      }
    } else {
      LoadedRoots(h, next, disk, init, gen, p);
    }
  }

  /** Without an error, every path read has its root recorded and
      `loadedBuilds` holds one build per read. */
  lemma {:induction false} LoadedAll(h: Heap, next: BuildRef, disk: map<string, Read>, finished: seq<string>,
                                     gen: BuildRef -> string)
    requires Wf(h) && Below(h, next)
    requires Loaded(h, next, disk, finished, gen).failure.None?
    ensures var l := Loaded(h, next, disk, finished, gen);
            l.count == |finished| && forall p :: p in finished ==> p in l.at
    decreases |finished|
  {
    if finished != [] {
      var init := finished[..|finished| - 1];
      assert finished == init + [finished[|finished| - 1]];
      assert forall q :: q in init ==> q in finished;
      LoadedAll(h, next, disk, init, gen);
    }
  }

  /** Once the first read has failed, what finishes later changes
      nothing. */
  lemma {:induction false} LoadedStopped(h: Heap, next: BuildRef, disk: map<string, Read>, finished: seq<string>,
                                         gen: BuildRef -> string, i: nat)
    requires Wf(h) && Below(h, next) && i <= |finished|
    requires Loaded(h, next, disk, finished[..i], gen).failure.Some?
    ensures Loaded(h, next, disk, finished, gen) == Loaded(h, next, disk, finished[..i], gen)
    decreases |finished| - i
  {
    if i < |finished| {
      LoadedStep(h, next, disk, finished, gen, i);
      LoadedStopped(h, next, disk, finished, gen, i + 1);
    } else {
      assert finished[..i] == finished;
    }
  }

  // ---------------------------------------------------------------------
  // Registration
  // ---------------------------------------------------------------------

  /** `build.platforms.forEach(c => builds[c.id] = c)`: every child is
      indexed by its id; every other key keeps its build unless a child
      took it. */
  function IndexChildren(ids: map<string, BuildRef>, h: Heap, cs: seq<BuildRef>): (res: map<string, BuildRef>)
    requires forall c :: c in cs ==> c in h
    ensures ids.Keys <= res.Keys
    ensures forall c :: c in cs ==> h[c].id in res
    ensures forall k :: k in res ==> (k in ids && res[k] == ids[k]) || (res[k] in cs && h[res[k]].id == k)
    decreases |cs|
  {
    if cs == [] then ids
    else
      var init := cs[..|cs| - 1];
      var c := cs[|cs| - 1];
      assert cs == init + [c];
      IndexChildren(ids, h, init)[h[c].id := c]
  }

  /** One root of `orderedBuilds` registered: pushed on `builds`, indexed
      by its id, and its children indexed by theirs. */
  function AddRoot(st: State, r: BuildRef): (res: State)
    requires Core(st) && r in st.heap
    ensures res == st.(ids := res.ids, builds := res.builds) && Core(res)
  {
    assert LinksOk(st.heap, r);
    var b := st.heap[r];
    var ids := st.ids[b.id := r];
    st.(builds := st.builds + [r], ids := if b.platforms.Some? then IndexChildren(ids, st.heap, b.platforms.value) else ids)
  }

  /** The roots of `at`, in the order of `sorted`. */
  function Picked(sorted: seq<string>, at: map<string, BuildRef>): (rs: seq<BuildRef>)
    ensures forall r :: r in rs ==> exists p :: p in at && at[p] == r
    decreases |sorted|
  {
    if sorted == [] then []
    else
      var init := sorted[..|sorted| - 1];
      var p := sorted[|sorted| - 1];
      Picked(init, at) + if p in at then [at[p]] else []
  }

  /** The final callback's `builds.forEach`: the roots of `orderedBuilds`
      registered in the order of the sorted paths. */
  function AfterRegister(st: State, sorted: seq<string>, at: map<string, BuildRef>): (res: State)
    requires Core(st) && forall p :: p in at ==> at[p] in st.heap
    ensures res == st.(ids := res.ids, builds := res.builds) && Core(res)
    decreases |sorted|
  {
    if sorted == [] then st
    else
      var st1 := AfterRegister(st, sorted[..|sorted| - 1], at);
      var p := sorted[|sorted| - 1];
      if p in at then AddRoot(st1, at[p]) else st1
  }

  /** The roots are pushed in the order of the sorted paths, after the
      roots already registered. */
  lemma {:induction false} RegisterAppends(st: State, sorted: seq<string>, at: map<string, BuildRef>)
    requires Core(st) && forall p :: p in at ==> at[p] in st.heap
    ensures AfterRegister(st, sorted, at).builds == st.builds + Picked(sorted, at)
    decreases |sorted|
  {
    if sorted != [] {
      RegisterAppends(st, sorted[..|sorted| - 1], at);
    }
  }

  /** No key is lost, a key keeps its build or names a build with that id;
      the id of every
      registered root, and of each of its children, is a key. */
  predicate IndexedFrom(st: State, res: State, roots: seq<BuildRef>)
    requires Core(st) && Core(res) && res.heap == st.heap
  {
    IndexedBy(st.heap, st.ids, res.ids, roots)
  }

  /** `IndexedFrom` on the builds and the id maps before and after. */
  predicate IndexedBy(h: Heap, ids: map<string, BuildRef>, ids': map<string, BuildRef>, roots: seq<BuildRef>) {
    ids.Keys <= ids'.Keys
    && (forall k :: k in ids' ==> (k in ids && ids'[k] == ids[k]) || (ids'[k] in h && h[ids'[k]].id == k))
    && (forall r :: r in roots ==> r in h && h[r].id in ids')
    && (forall r, c :: r in roots && r in h && h[r].platforms.Some? && c in h[r].platforms.value ==>
          c in h && h[c].id in ids')
  }

  lemma AddRootIndexes(st: State, r: BuildRef)
    requires Core(st) && r in st.heap
    ensures IndexedFrom(st, AddRoot(st, r), [r])
  {
    assert LinksOk(st.heap, r);
  }

  lemma IndexedGrows(h: Heap, ids: map<string, BuildRef>, mid: map<string, BuildRef>, ids': map<string, BuildRef>,
                     roots: seq<BuildRef>, r: BuildRef)
    requires IndexedBy(h, ids, mid, roots) && IndexedBy(h, mid, ids', [r])
    ensures IndexedBy(h, ids, ids', roots + [r])
  {
    var all := roots + [r];
    forall k | k in ids'
      ensures (k in ids && ids'[k] == ids[k]) || (ids'[k] in h && h[ids'[k]].id == k)
    {
      if !(k in mid && ids'[k] == mid[k]) {
        assert ids'[k] in h && h[ids'[k]].id == k;
      }
    }
    forall r' | r' in all
      ensures r' in h && h[r'].id in ids'
    {
      if r' != r {
        assert r' in roots;
        assert h[r'].id in mid;
      }
    }
    forall r', c | r' in all && r' in h && h[r'].platforms.Some? && c in h[r'].platforms.value
      ensures c in h && h[c].id in ids'
    {
      if r' != r {
        assert r' in roots;
        assert h[c].id in mid;
      }
    }
  }

  /** Registering indexes every registered root and each of its children
      by its id, and every key names a build with that id or is as it
      was. */
  lemma {:induction false} RegisterIndexes(st: State, sorted: seq<string>, at: map<string, BuildRef>)
    requires Core(st) && forall p :: p in at ==> at[p] in st.heap
    ensures var res := AfterRegister(st, sorted, at);
            IndexedFrom(st, res, Picked(sorted, at))
    decreases |sorted|
  {
    if sorted != [] {
      var init := sorted[..|sorted| - 1];
      var p := sorted[|sorted| - 1];
      RegisterIndexes(st, init, at);
      var mid := AfterRegister(st, init, at);
      if p in at {
        AddRootIndexes(mid, at[p]);
        IndexedGrows(st.heap, st.ids, mid.ids, AddRoot(mid, at[p]).ids, Picked(init, at), at[p]);
      } else {
        assert Picked(sorted, at) == Picked(init, at);
      }
    }
  }

  // ---------------------------------------------------------------------
  // readPreviousBuilds
  // ---------------------------------------------------------------------

  const LoadedTemplate: string := "{2} previous build(s) were successfully read from the disk"
  const ReadFailedTemplate: string := "an error occurred while trying to read previous build(s) from the disk\n{2}"

  function LoadedMsg(count: nat): Msg {
    Make(NoSubject, NoSender, "S", Debug, LoadedTemplate, [NatText(count)])
  }

  function ReadFailedMsg(error: string): Msg {
    Make(NoSubject, NoSender, "S", Debug, ReadFailedTemplate, [error])
  }

  /** What the reads need: `Core`, and every reference in use below the
      next free one. */
  predicate Fresh(st: State) {
    Core(st) && Below(st.heap, st.next)
  }

  /** The final callback once the reads are done: the roots registered in
      sorted path order, the count logged when anything was read, the
      error logged when a read failed; both at debug level. */
  function AfterLoaded(st: State, sorted: seq<string>, l: Loading): (res: State)
    requires Core(st) && forall p :: p in l.at ==> l.at[p] in st.heap
    ensures Core(res)
  {
    var st1 := AfterRegister(st, sorted, l.at);
    var st2 := if l.count > 0 then AfterLog(st1, LoadedMsg(l.count), None) else st1;
    if l.failure.Some? then AfterLog(st2, ReadFailedMsg(l.failure.value), None) else st2
  }

  /** `readPreviousBuilds(err, paths)` when the reads finish in the order
      `finished`; `gen` gives the id of a revived build whose file has
      none. */
  function AfterReadPrevious(st: State, paths: seq<string>, disk: map<string, Read>, finished: seq<string>,
                             gen: BuildRef -> string): (res: State)
    requires Fresh(st)
    ensures Core(res)
  {
    var l := Loaded(st.heap, st.next, disk, finished, gen);
    AfterLoaded(st.(heap := l.heap, next := l.next), SortPaths(paths), l)
  }

  /** The roots of `at` for sorted paths that all have one. */
  lemma {:induction false} PickedAll(sorted: seq<string>, at: map<string, BuildRef>)
    requires forall p :: p in sorted ==> p in at
    ensures var rs := Picked(sorted, at);
            |rs| == |sorted| && forall k :: 0 <= k < |sorted| ==> rs[k] == at[sorted[k]]
    decreases |sorted|
  {
    if sorted != [] {
      var init := sorted[..|sorted| - 1];
      assert forall p :: p in init ==> p in sorted;
      PickedAll(init, at);
    }
  }

  /** Logs without a build id change no build and no registration. */
  lemma LoadedLogs(st: State, sorted: seq<string>, l: Loading)
    requires Core(st) && forall p :: p in l.at ==> l.at[p] in st.heap
    ensures var res := AfterLoaded(st, sorted, l);
            var reg := AfterRegister(st, sorted, l.at);
            res.heap == st.heap && res.ids == reg.ids && res.builds == reg.builds
            && res.logs == (if l.failure.Some? then [ReadFailedMsg(l.failure.value)] else [])
                           + (if l.count > 0 then [LoadedMsg(l.count)] else []) + st.logs
  {
    var st1 := AfterRegister(st, sorted, l.at);
    if l.count > 0 {
      UnattachedLog(st1, LoadedMsg(l.count));
    }
    var st2 := if l.count > 0 then AfterLog(st1, LoadedMsg(l.count), None) else st1;
    if l.failure.Some? {
      UnattachedLog(st2, ReadFailedMsg(l.failure.value));
    }
  }

  /** A message about no build only goes to the top of the server log. */
  lemma UnattachedLog(st: State, m: Msg)
    requires Core(st) && m.buildId == ""
    ensures var r := AfterLog(st, m, None);
            r.heap == st.heap && r.ids == st.ids && r.builds == st.builds && r.logs == [m] + st.logs
  {
  }

  /** When every read parses, the loop ends without an error, having
      read one file per path and recorded a root for each. */
  lemma AllLoaded(st: State, paths: seq<string>, disk: map<string, Read>, finished: seq<string>,
                  gen: BuildRef -> string)
    requires Fresh(st) && multiset(finished) == multiset(paths)
    requires forall p :: p in paths ==> ReadOf(disk, p).Parsed?
    ensures var l := Loaded(st.heap, st.next, disk, finished, gen);
            l.failure.None? && l.count == |paths| && forall p :: p in SortPaths(paths) ==> p in l.at
  {
    var l := Loaded(st.heap, st.next, disk, finished, gen);
    var sorted := SortPaths(paths);
    forall p | p in finished ensures ReadOf(disk, p).Parsed? {
      assert p in multiset(paths);
    }
    LoadedNoFailure(st.heap, st.next, disk, finished, gen);
    LoadedAll(st.heap, st.next, disk, finished, gen);
    assert |finished| == |paths| by {
      assert |multiset(finished)| == |multiset(paths)|;
    }
    forall p | p in sorted ensures p in l.at {
      assert p in multiset(sorted);
      assert p in multiset(finished);
    }
  }

  /** The root registered `k`-th after those of `st` is a build with the
      configuration of the `k`-th sorted path's file and no master. */
  predicate RootAt(base: seq<BuildRef>, res: State, sorted: seq<string>, disk: map<string, Read>, k: nat)
    requires k < |sorted| && |res.builds| == |base| + |sorted|
  {
    var r := res.builds[|base| + k];
    r in res.heap && ReadOf(disk, sorted[k]).Parsed?
    && res.heap[r].conf == ReadOf(disk, sorted[k]).wire.conf && res.heap[r].master.None?
  }

  /** The roots registered after those of `st` are one per sorted path,
      in that order. */
  predicate RegisteredInOrder(base: seq<BuildRef>, res: State, sorted: seq<string>, disk: map<string, Read>) {
    |res.builds| == |base| + |sorted|
    && forall k: nat :: k < |sorted| ==> RootAt(base, res, sorted, disk, k)
  }

  /** Each recorded root revived from its path's file. */
  predicate RevivedFrom(h: Heap, sorted: seq<string>, at: map<string, BuildRef>, disk: map<string, Read>) {
    forall p :: p in sorted ==>
      p in at && at[p] in h && ReadOf(disk, p).Parsed? && h[at[p]].conf == ReadOf(disk, p).wire.conf
      && h[at[p]].master.None?
  }

  /** Registering the revived roots in sorted order puts them in that
      order after the roots already there. */
  lemma PickedInOrder(base: seq<BuildRef>, h: Heap, res: State, sorted: seq<string>, at: map<string, BuildRef>,
                      disk: map<string, Read>)
    requires RevivedFrom(h, sorted, at, disk)
    requires res.builds == base + Picked(sorted, at) && res.heap == h
    ensures RegisteredInOrder(base, res, sorted, disk)
  {
    PickedAll(sorted, at);
    forall k: nat | k < |sorted| ensures RootAt(base, res, sorted, disk, k) {
      assert res.builds[|base| + k] == at[sorted[k]];
      assert sorted[k] in sorted;
    }
  }

  /** When every read parses, one root per path is registered, in the
      sorted order of the paths, each with the configuration of its file. */
  lemma SortedRegistration(st: State, paths: seq<string>, disk: map<string, Read>, finished: seq<string>,
                           gen: BuildRef -> string)
    requires Fresh(st) && multiset(finished) == multiset(paths)
    requires forall p :: p in paths ==> ReadOf(disk, p).Parsed?
    ensures RegisteredInOrder(st.builds, AfterReadPrevious(st, paths, disk, finished, gen), SortPaths(paths), disk)
  {
    var l := Loaded(st.heap, st.next, disk, finished, gen);
    var sorted := SortPaths(paths);
    RevivedAll(st, paths, disk, finished, gen);
    var st1 := st.(heap := l.heap, next := l.next);
    LoadedLogs(st1, sorted, l);
    RegisterAppends(st1, sorted, l.at);
    PickedInOrder(st.builds, l.heap, AfterLoaded(st1, sorted, l), sorted, l.at, disk);
  }

  /** When every read parses, the number of files read is logged, and
      nothing else. */
  lemma CountLogged(st: State, paths: seq<string>, disk: map<string, Read>, finished: seq<string>,
                    gen: BuildRef -> string)
    requires Fresh(st) && multiset(finished) == multiset(paths)
    requires forall p :: p in paths ==> ReadOf(disk, p).Parsed?
    ensures AfterReadPrevious(st, paths, disk, finished, gen).logs
            == (if |paths| > 0 then [LoadedMsg(|paths|)] else []) + st.logs
  {
    var l := Loaded(st.heap, st.next, disk, finished, gen);
    AllLoaded(st, paths, disk, finished, gen);
    LoadedLogs(st.(heap := l.heap, next := l.next), SortPaths(paths), l);
  }

  /** When every read parses, every sorted path has its root revived from
      its file. */
  lemma RevivedAll(st: State, paths: seq<string>, disk: map<string, Read>, finished: seq<string>,
                   gen: BuildRef -> string)
    requires Fresh(st) && multiset(finished) == multiset(paths)
    requires forall p :: p in paths ==> ReadOf(disk, p).Parsed?
    ensures var l := Loaded(st.heap, st.next, disk, finished, gen);
            l.failure.None? && l.count == |paths| && RevivedFrom(l.heap, SortPaths(paths), l.at, disk)
  {
    var l := Loaded(st.heap, st.next, disk, finished, gen);
    AllLoaded(st, paths, disk, finished, gen);
    forall p | p in SortPaths(paths)
      ensures p in l.at && l.at[p] in l.heap && ReadOf(disk, p).Parsed?
              && l.heap[l.at[p]].conf == ReadOf(disk, p).wire.conf && l.heap[l.at[p]].master.None?
    {
      LoadedRoots(st.heap, st.next, disk, finished, gen, p);
    }
  }

  /** Two registrations in the same sorted order register builds of the
      same configurations, position by position. */
  lemma SameOrderSameRoots(st: State, res1: State, res2: State, sorted: seq<string>, disk: map<string, Read>)
    requires RegisteredInOrder(st.builds, res1, sorted, disk) && RegisteredInOrder(st.builds, res2, sorted, disk)
    ensures |res1.builds| == |res2.builds|
    ensures forall k :: |st.builds| <= k < |res1.builds| ==>
              res1.builds[k] in res1.heap && res2.builds[k] in res2.heap
              && res1.heap[res1.builds[k]].conf == res2.heap[res2.builds[k]].conf
  {
    forall k | |st.builds| <= k < |res1.builds|
      ensures res1.builds[k] in res1.heap && res2.builds[k] in res2.heap
              && res1.heap[res1.builds[k]].conf == res2.heap[res2.builds[k]].conf
    {
      var j := k - |st.builds|;
      assert RootAt(st.builds, res1, sorted, disk, j) && RootAt(st.builds, res2, sorted, disk, j);
    }
  }

  /** The order in which the reads finish does not change which roots are
      registered or in which order, when every read parses. */
  lemma CompletionOrderIrrelevant(st: State, paths: seq<string>, disk: map<string, Read>,
                                  finished1: seq<string>, finished2: seq<string>, gen: BuildRef -> string)
    requires Fresh(st) && multiset(finished1) == multiset(paths) && multiset(finished2) == multiset(paths)
    requires forall p :: p in paths ==> ReadOf(disk, p).Parsed?
    ensures var res1 := AfterReadPrevious(st, paths, disk, finished1, gen);
            var res2 := AfterReadPrevious(st, paths, disk, finished2, gen);
            |res1.builds| == |res2.builds| && res1.logs == res2.logs
            && forall k :: |st.builds| <= k < |res1.builds| ==>
                 res1.builds[k] in res1.heap && res2.builds[k] in res2.heap
                 && res1.heap[res1.builds[k]].conf == res2.heap[res2.builds[k]].conf
  {
    SortedRegistration(st, paths, disk, finished1, gen);
    SortedRegistration(st, paths, disk, finished2, gen);
    CountLogged(st, paths, disk, finished1, gen);
    CountLogged(st, paths, disk, finished2, gen);
    SameOrderSameRoots(st, AfterReadPrevious(st, paths, disk, finished1, gen),
                       AfterReadPrevious(st, paths, disk, finished2, gen), SortPaths(paths), disk);
  }

  /** Every registered root, and each of its children, is indexed by its
      id, and every other key is as it was. */
  lemma ChildrenIndexed(st: State, paths: seq<string>, disk: map<string, Read>, finished: seq<string>,
                        gen: BuildRef -> string)
    requires Fresh(st)
    ensures var res := AfterReadPrevious(st, paths, disk, finished, gen);
            var l := Loaded(st.heap, st.next, disk, finished, gen);
            res.heap == l.heap && |st.builds| <= |res.builds| && st.ids.Keys <= res.ids.Keys
            && (forall k :: k in res.ids ==> (k in st.ids && res.ids[k] == st.ids[k]) || res.heap[res.ids[k]].id == k)
            && (forall r :: r in res.builds[|st.builds|..] ==> r in res.heap && res.heap[r].id in res.ids)
            && (forall r, c ::
                  r in res.builds[|st.builds|..] && r in res.heap && res.heap[r].platforms.Some? && c in res.heap[r].platforms.value
                  ==> c in res.heap && res.heap[c].id in res.ids)
  {
    var l := Loaded(st.heap, st.next, disk, finished, gen);
    var sorted := SortPaths(paths);
    var st1 := st.(heap := l.heap, next := l.next);
    LoadedLogs(st1, sorted, l);
    RegisterAppends(st1, sorted, l.at);
    RegisterIndexes(st1, sorted, l.at);
    var res := AfterReadPrevious(st, paths, disk, finished, gen);
    assert res.builds[|st.builds|..] == Picked(sorted, l.at);
  }

  /** What finishes after the first failed read changes nothing: the final
      callback has already run, registering only what was parsed before,
      and the error is the newest log. */
  lemma FirstFailureEnds(st: State, paths: seq<string>, disk: map<string, Read>, finished: seq<string>,
                         gen: BuildRef -> string, i: nat)
    requires Fresh(st) && i < |finished| && ReadOf(disk, finished[i]).Unparsable?
    requires forall j :: 0 <= j < i ==> ReadOf(disk, finished[j]).Parsed?
    ensures var res := AfterReadPrevious(st, paths, disk, finished, gen);
            res == AfterReadPrevious(st, paths, disk, finished[..i + 1], gen)
            && res.logs[0] == ReadFailedMsg(ReadOf(disk, finished[i]).error)
  {
    LoadedStep(st.heap, st.next, disk, finished, gen, i);
    var l0 := Loaded(st.heap, st.next, disk, finished[..i], gen);
    LoadedNoFailure(st.heap, st.next, disk, finished[..i], gen);
    LoadedStopped(st.heap, st.next, disk, finished, gen, i + 1);
    var l := Loaded(st.heap, st.next, disk, finished, gen);
    LoadedLogs(st.(heap := l.heap, next := l.next), SortPaths(paths), l);
  }

  // ---------------------------------------------------------------------
  // The handler on the server object
  // ---------------------------------------------------------------------

  /** The reads, finishing in the order `finished`. */
  method Load(s: Server, disk: map<string, Read>, finished: seq<string>, gen: BuildRef -> string)
    returns (at: map<string, BuildRef>, count: nat, failure: Option<string>)
    requires Fresh(s.St())
    modifies s
    ensures var l := Loaded(old(s.heap), old(s.next), disk, finished, gen);
            s.St() == old(s.St()).(heap := l.heap, next := l.next)
            && at == l.at && count == l.count && failure == l.failure
  {
    ghost var h0, n0 := s.heap, s.next;
    at, count, failure := map[], 0, None;
    var i := 0;
    while i < |finished| && failure.None?
      invariant 0 <= i <= |finished|
      invariant Loading(s.heap, s.next, at, count, failure) == Loaded(h0, n0, disk, finished[..i], gen)
      invariant s.St() == old(s.St()).(heap := s.heap, next := s.next)
    {
      LoadedStep(h0, n0, disk, finished, gen, i);
      var read := ReadOf(disk, finished[i]);
      if read.Unparsable? {
        failure := Some(read.error);
      } else {
        var (h', next') := Revive(s.heap, s.next, read.wire, gen);
        at := at[finished[i] := s.next];
        count := count + 1;
        s.heap, s.next := h', next';
      }
      i := i + 1;
    }
    if failure.Some? {
      LoadedStopped(h0, n0, disk, finished, gen, i);
    } else {
      assert finished[..i] == finished;
    }
  }

  /** The children indexed one by one. */
  method IndexEach(s: Server, cs: seq<BuildRef>)
    requires forall c :: c in cs ==> c in s.heap
    modifies s
    ensures s.St() == old(s.St()).(ids := IndexChildren(old(s.ids), old(s.heap), cs))
  {
    var i := 0;
    while i < |cs|
      invariant 0 <= i <= |cs|
      invariant s.St() == old(s.St()).(ids := IndexChildren(old(s.ids), old(s.heap), cs[..i]))
    {
      assert cs[..i + 1][..i] == cs[..i];
      s.ids := s.ids[s.heap[cs[i]].id := cs[i]];
      i := i + 1;
    }
    assert cs[..i] == cs;
  }

  /** One root registered, then its children indexed. */
  method RegisterRoot(s: Server, r: BuildRef)
    requires Core(s.St()) && r in s.heap
    modifies s
    ensures s.St() == AddRoot(old(s.St()), r)
  {
    assert LinksOk(s.heap, r);
    var b := s.heap[r];
    s.builds := s.builds + [r];
    s.ids := s.ids[b.id := r];
    if b.platforms.Some? {
      IndexEach(s, b.platforms.value);
    }
  }

  /** The final callback's `forEach` over the sorted paths. */
  method Register(s: Server, sorted: seq<string>, at: map<string, BuildRef>)
    requires Core(s.St()) && forall p :: p in at ==> at[p] in s.heap
    modifies s
    ensures s.St() == AfterRegister(old(s.St()), sorted, at)
  {
    ghost var st0 := s.St();
    var i := 0;
    while i < |sorted|
      invariant 0 <= i <= |sorted|
      invariant s.St() == AfterRegister(st0, sorted[..i], at)
    {
      assert sorted[..i + 1][..i] == sorted[..i];
      if sorted[i] in at {
        RegisterRoot(s, at[sorted[i]]);
      }
      i := i + 1;
    }
    assert sorted[..i] == sorted;
  }

  method ReadPreviousBuilds(s: Server, paths: seq<string>, disk: map<string, Read>, finished: seq<string>,
                            gen: BuildRef -> string)
    requires Fresh(s.St())
    modifies s
    ensures s.St() == AfterReadPrevious(old(s.St()), paths, disk, finished, gen)
  {
    var sorted := SortPaths(paths);
    var at, count, failure := Load(s, disk, finished, gen);
    ghost var l := Loading(s.heap, s.next, at, count, failure);
    Register(s, sorted, at);
    if count > 0 {
      s.Log(LoadedMsg(count), None);
    }
    if failure.Some? {
      s.Log(ReadFailedMsg(failure.value), None);
    }
  }
}
