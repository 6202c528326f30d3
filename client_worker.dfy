/** The command-line client (`ClientWorker`): the list of input files it
    builds from its grouped arguments, the build number it requests, and
    the count of finished platforms after which it disconnects. */
module ClientWorkers {
  import opened Wrappers
  import opened Strings
  import opened Builds

  /** The characters `/;|,/` splits on. */
  const Separators: set<char> := {';', ','}

  // ---------------------------------------------------------------------
  // parseGroupFiles
  // ---------------------------------------------------------------------

  /** The pieces of a list that are not empty, in order. */
  function NonEmpty(xs: seq<string>): (r: seq<string>)
    ensures |r| <= |xs|
    decreases |xs|
  {
    if xs == [] then []
    else NonEmpty(xs[..|xs| - 1]) + (if xs[|xs| - 1] != [] then [xs[|xs| - 1]] else [])
  }

  /** The file names one argument entry stands for: its pieces between
      `;` and `,`, the empty ones dropped. */
  function Pieces(entry: string): seq<string> {
    NonEmpty(Split(entry, Separators))
  }

  /** The entries for some file names, all in one group. */
  function Entries(names: seq<string>, group: string): (r: seq<FileEntry>)
    ensures |r| == |names|
    decreases |names|
  {
    if names == [] then []
    else Entries(names[..|names| - 1], group) + [FileEntry(names[|names| - 1], group, "", None)]
  }

  /** The pieces kept are non-empty pieces of the list. */
  lemma {:induction false} NonEmptyKeeps(xs: seq<string>)
    ensures forall i :: 0 <= i < |NonEmpty(xs)| ==> NonEmpty(xs)[i] != [] && NonEmpty(xs)[i] in xs
    decreases |xs|
  {
    if xs != [] {
      NonEmptyKeeps(xs[..|xs| - 1]);
      forall i | 0 <= i < |NonEmpty(xs)|
        ensures NonEmpty(xs)[i] != [] && NonEmpty(xs)[i] in xs
      {
        var prev := NonEmpty(xs[..|xs| - 1]);
        if i < |prev| {
          assert NonEmpty(xs)[i] == prev[i];
          assert prev[i] in xs[..|xs| - 1];
        }
      }
    }
  }

  /** Each entry is the name at the same place, in the group. */
  lemma {:induction false} EntriesAt(names: seq<string>, group: string)
    ensures forall i :: 0 <= i < |names| ==> Entries(names, group)[i] == FileEntry(names[i], group, "", None)
    decreases |names|
  {
    if names != [] {
      EntriesAt(names[..|names| - 1], group);
    }
  }

  /** The entries of one group's argument list, entry by entry. */
  function EntriesOf(list: seq<string>, group: string): seq<FileEntry>
    decreases |list|
  {
    if list == [] then []
    else EntriesOf(list[..|list| - 1], group) + Entries(Pieces(list[|list| - 1]), group)
  }

  /** The group the `forEach` index gives: none (`""`, for `null`) for the
      first list, `files`, and the list's own name for the others. */
  function GroupLabel(groups: seq<string>, g: nat): string
    requires g < |groups|
  {
    if g == 0 then "" else groups[g]
  }

  /** What `parseGroupFiles` has collected after the first `n` groups of
      `['files'].concat(conf.platforms)`; `None` once a group has no list
      in the configuration, where `conf[group].forEach` throws. */
  function Collected(groups: seq<string>, n: nat, lists: map<string, seq<string>>): Option<seq<FileEntry>>
    requires n <= |groups|
    decreases n
  {
    if n == 0 then Some([])
    else
      var prev := Collected(groups, n - 1, lists);
      if prev.None? || groups[n - 1] !in lists then None
      else Some(prev.value + EntriesOf(lists[groups[n - 1]], GroupLabel(groups, n - 1)))
  }

  /** The files of the platform groups, from the first platform on. */
  function PlatformEntries(platforms: seq<string>, lists: map<string, seq<string>>): Option<seq<FileEntry>>
    decreases |platforms|
  {
    if platforms == [] then Some([])
    else if platforms[0] !in lists then None
    else
      var rest := PlatformEntries(platforms[1..], lists);
      if rest.None? then None else Some(EntriesOf(lists[platforms[0]], platforms[0]) + rest.value)
  }

  /** The list `parseGroupFiles` builds, stated group by group: the
      generic files first, without a group, then each platform's files
      under that platform, in `conf.platforms` order. */
  function GroupFiles(platforms: seq<string>, lists: map<string, seq<string>>): Option<seq<FileEntry>> {
    if "files" !in lists then None
    else
      var rest := PlatformEntries(platforms, lists);
      if rest.None? then None else Some(EntriesOf(lists["files"], "") + rest.value)
  }

  /** `parseGroupFiles(conf)`: the nested `forEach` loops over the groups,
      their entries and the pieces of each entry. `None` stands for the
      `TypeError` a group without a list raises. */
  method ParseGroupFiles(platforms: seq<string>, lists: map<string, seq<string>>)
    returns (r: Option<seq<FileEntry>>)
    ensures r == GroupFiles(platforms, lists)
  {
    var groups := ["files"] + platforms;
    var files: seq<FileEntry> := [];
    var g := 0;
    while g < |groups|
      invariant 0 <= g <= |groups|
      invariant Collected(groups, g, lists) == Some(files)
    {
      if groups[g] !in lists {
        CollectedStops(groups, g, |groups|, lists);
        CollectedIsGroupFiles(platforms, lists);
        return None;
      }
      var list := lists[groups[g]];
      var before := files;
      files := AddGroup(before, list, GroupLabel(groups, g));
      CollectedStep(groups, g, lists, before);
      g := g + 1;
    }
    assert groups[..] == groups;
    CollectedIsGroupFiles(platforms, lists);
    r := Some(files);
  }

  /** The entry loop of one group: every entry's pieces, in order, with
      the group's label. */
  method AddGroup(before: seq<FileEntry>, list: seq<string>, tag: string) returns (files: seq<FileEntry>)
    ensures files == before + EntriesOf(list, tag)
  {
    files := before;
    var k := 0;
    while k < |list|
      invariant 0 <= k <= |list|
      invariant files == before + EntriesOf(list[..k], tag)
    {
      files := AddEntry(before, list, k, tag, files);
      k := k + 1;
    }
    assert list[..|list|] == list;
  }

  /** The body of the entry loop: the entry is split and each non-empty
      piece pushed. */
  method AddEntry(before: seq<FileEntry>, list: seq<string>, k: nat, tag: string, files: seq<FileEntry>)
    returns (files': seq<FileEntry>)
    requires k < |list| && files == before + EntriesOf(list[..k], tag)
    ensures files' == before + EntriesOf(list[..k + 1], tag)
  {
    var pieces := Split(list[k], Separators);
    files' := files;
    var j := 0;
    while j < |pieces|
      invariant 0 <= j <= |pieces|
      invariant files' == files + Entries(NonEmpty(pieces[..j]), tag)
    {
      files' := PushPiece(files, pieces, j, tag, files');
      j := j + 1;
    }
    assert pieces[..|pieces|] == pieces;
    EntryStep(list, k, tag);
  }

  /** The body of the piece loop: a non-empty piece is pushed. */
  method PushPiece(files: seq<FileEntry>, pieces: seq<string>, j: nat, tag: string, acc: seq<FileEntry>)
    returns (acc': seq<FileEntry>)
    requires j < |pieces| && acc == files + Entries(NonEmpty(pieces[..j]), tag)
    ensures acc' == files + Entries(NonEmpty(pieces[..j + 1]), tag)
  {
    PieceStep(pieces, j, tag);
    acc' := acc;
    if |pieces[j]| != 0 {
      acc' := acc + [FileEntry(pieces[j], tag, "", None)];
    }
  }

  lemma PieceStep(pieces: seq<string>, j: nat, tag: string)
    requires j < |pieces|
    ensures Entries(NonEmpty(pieces[..j + 1]), tag)
            == Entries(NonEmpty(pieces[..j]), tag) + (if pieces[j] != [] then [FileEntry(pieces[j], tag, "", None)] else [])
  {
    assert pieces[..j + 1][..j] == pieces[..j];
    var xs := NonEmpty(pieces[..j]);
    if pieces[j] != [] {
      var ys := xs + [pieces[j]];
      assert NonEmpty(pieces[..j + 1]) == ys;
      assert ys[..|ys| - 1] == xs;
    } else {
      assert NonEmpty(pieces[..j + 1]) == xs + [];
      assert xs + [] == xs;
    }
  }

  lemma EntryStep(list: seq<string>, k: nat, tag: string)
    requires k < |list|
    ensures EntriesOf(list[..k + 1], tag) == EntriesOf(list[..k], tag) + Entries(Pieces(list[k]), tag)
  {
    assert list[..k + 1][..k] == list[..k];
  }

  lemma CollectedStep(groups: seq<string>, g: nat, lists: map<string, seq<string>>, files: seq<FileEntry>)
    requires g < |groups| && groups[g] in lists && Collected(groups, g, lists) == Some(files)
    ensures Collected(groups, g + 1, lists) == Some(files + EntriesOf(lists[groups[g]], GroupLabel(groups, g)))
  {
  }

  /** Once a group is missing, nothing is collected. */
  lemma {:induction false} CollectedStops(groups: seq<string>, g: nat, n: nat, lists: map<string, seq<string>>)
    requires g < n <= |groups| && groups[g] !in lists
    ensures Collected(groups, n, lists).None?
    decreases n
  {
    if n > g + 1 {
      CollectedStops(groups, g, n - 1, lists);
    }
  }

  /** Adding a platform at the end of the list adds its files at the
      end. */
  lemma {:induction false} PlatformEntriesSnoc(ps: seq<string>, p: string, lists: map<string, seq<string>>)
    ensures PlatformEntries(ps + [p], lists)
            == if PlatformEntries(ps, lists).None? || p !in lists then None
               else Some(PlatformEntries(ps, lists).value + EntriesOf(lists[p], p))
    decreases |ps|
  {
    if ps != [] {
      assert (ps + [p])[1..] == ps[1..] + [p];
      assert (ps + [p])[0] == ps[0];
      PlatformEntriesSnoc(ps[1..], p, lists);
      var rest := PlatformEntries(ps[1..], lists);
      if ps[0] in lists && rest.Some? && p in lists {
        var e0 := EntriesOf(lists[ps[0]], ps[0]);
        var last := EntriesOf(lists[p], p);
        Assoc(e0, rest.value, last);
      }
    } else {
      assert [p][1..] == [];
      if p in lists {
        assert EntriesOf(lists[p], p) + [] == EntriesOf(lists[p], p);
        assert [] + EntriesOf(lists[p], p) == EntriesOf(lists[p], p);
      }
    }
  }

  /** The loop's list, built group by group, is the one stated from the
      front. */
  lemma {:induction false} CollectedPrefix(platforms: seq<string>, k: nat, lists: map<string, seq<string>>)
    requires k <= |platforms|
    ensures Collected(["files"] + platforms, k + 1, lists) == Front(platforms, k, lists)
    decreases k
  {
    if k > 0 {
      CollectedPrefix(platforms, k - 1, lists);
      FrontGrows(platforms, k, lists);
    } else {
      FrontFirst(platforms, lists);
    }
  }

  /** The front-stated list of the generic files and the first `k`
      platforms. */
  function Front(platforms: seq<string>, k: nat, lists: map<string, seq<string>>): Option<seq<FileEntry>>
    requires k <= |platforms|
  {
    if "files" !in lists || PlatformEntries(platforms[..k], lists).None? then None
    else Some(EntriesOf(lists["files"], "") + PlatformEntries(platforms[..k], lists).value)
  }

  lemma FrontFirst(platforms: seq<string>, lists: map<string, seq<string>>)
    ensures Collected(["files"] + platforms, 1, lists) == Front(platforms, 0, lists)
  {
    var groups := ["files"] + platforms;
    assert groups[0] == "files" && GroupLabel(groups, 0) == "";
    assert platforms[..0] == [];
    if "files" in lists {
      var fe := EntriesOf(lists["files"], "");
      assert [] + fe == fe + [];
    }
  }

  lemma FrontGrows(platforms: seq<string>, k: nat, lists: map<string, seq<string>>)
    requires 0 < k <= |platforms|
    requires Collected(["files"] + platforms, k, lists) == Front(platforms, k - 1, lists)
    ensures Collected(["files"] + platforms, k + 1, lists) == Front(platforms, k, lists)
  {
    var groups := ["files"] + platforms;
    var p := platforms[k - 1];
    var before := PlatformEntries(platforms[..k - 1], lists);
    assert platforms[..k] == platforms[..k - 1] + [p];
    PlatformEntriesSnoc(platforms[..k - 1], p, lists);
    assert groups[k] == p;
    if "files" in lists && before.Some? && p in lists {
      var fe := EntriesOf(lists["files"], "");
      var last := EntriesOf(lists[p], p);
      CollectedStep(groups, k, lists, fe + before.value);
      assert GroupLabel(groups, k) == p;
      Assoc(fe, before.value, last);
    }
  }

  lemma Assoc(a: seq<FileEntry>, b: seq<FileEntry>, c: seq<FileEntry>)
    ensures (a + b) + c == a + (b + c)
  {
  }

  lemma CollectedIsGroupFiles(platforms: seq<string>, lists: map<string, seq<string>>)
    ensures Collected(["files"] + platforms, |platforms| + 1, lists) == GroupFiles(platforms, lists)
  {
    CollectedPrefix(platforms, |platforms|, lists);
    assert platforms[..|platforms|] == platforms;
  }

  /** The list is missing exactly when `files` or one of the platforms has
      no argument list. */
  lemma {:induction false} PlatformEntriesDefined(platforms: seq<string>, lists: map<string, seq<string>>)
    ensures PlatformEntries(platforms, lists).Some? <==> forall i :: 0 <= i < |platforms| ==> platforms[i] in lists
    decreases |platforms|
  {
    if platforms != [] {
      PlatformEntriesDefined(platforms[1..], lists);
      assert forall i :: 1 <= i < |platforms| ==> platforms[i] == platforms[1..][i - 1];
    }
  }

  lemma GroupFilesDefined(platforms: seq<string>, lists: map<string, seq<string>>)
    ensures GroupFiles(platforms, lists).Some?
            <==> "files" in lists && forall i :: 0 <= i < |platforms| ==> platforms[i] in lists
  {
    PlatformEntriesDefined(platforms, lists);
  }

  /** Every entry of a group's list is in that group, has a non-empty name
      without separators, and carries no content yet. */
  lemma {:induction false} EntriesOfShape(list: seq<string>, group: string)
    ensures forall e :: e in EntriesOf(list, group) ==>
              e.group == group && e.file != [] && e.content.None? && NoSeparator(e.file)
    decreases |list|
  {
    if list != [] {
      EntriesOfShape(list[..|list| - 1], group);
      var entry := list[|list| - 1];
      SplitNoSeparators(entry, Separators);
      var es := Entries(Pieces(entry), group);
      EntriesAt(Pieces(entry), group);
      NonEmptyKeeps(Split(entry, Separators));
      forall e | e in es
        ensures e.group == group && e.file != [] && e.content.None? && NoSeparator(e.file)
      {
        var i :| 0 <= i < |es| && es[i] == e;
        var p := Pieces(entry)[i];
        assert p in Split(entry, Separators);
      }
    }
  }

  predicate NoSeparator(s: string) {
    forall i :: 0 <= i < |s| ==> s[i] !in Separators
  }

  /** Every platform entry is in the group of one of the platforms. */
  lemma {:induction false} PlatformEntriesShape(platforms: seq<string>, lists: map<string, seq<string>>)
    requires PlatformEntries(platforms, lists).Some?
    ensures forall e :: e in PlatformEntries(platforms, lists).value ==>
              e.group in platforms && e.file != [] && e.content.None? && NoSeparator(e.file)
    decreases |platforms|
  {
    if platforms != [] {
      PlatformEntriesShape(platforms[1..], lists);
      EntriesOfShape(lists[platforms[0]], platforms[0]);
      forall e | e in PlatformEntries(platforms[1..], lists).value
        ensures e.group in platforms
      {
        assert e.group in platforms[1..];
      }
    }
  }

  /** The files from the `files` list come first, without a group; every
      later file belongs to one of the platforms; and no name is empty or
      holds a separator. */
  lemma GroupFilesShape(platforms: seq<string>, lists: map<string, seq<string>>)
    requires GroupFiles(platforms, lists).Some?
    ensures var fs := GroupFiles(platforms, lists).value;
            var n := |EntriesOf(lists["files"], "")|;
            n <= |fs| && fs[..n] == EntriesOf(lists["files"], "")
            && (forall i :: 0 <= i < n ==> fs[i].group == "")
            && (forall i :: n <= i < |fs| ==> fs[i].group in platforms)
            && (forall i :: 0 <= i < |fs| ==> fs[i].file != [] && NoSeparator(fs[i].file) && fs[i].content.None?)
  {
    var generic := EntriesOf(lists["files"], "");
    var rest := PlatformEntries(platforms, lists).value;
    var fs := GroupFiles(platforms, lists).value;
    assert fs == generic + rest;
    EntriesOfShape(lists["files"], "");
    PlatformEntriesShape(platforms, lists);
    forall i | 0 <= i < |fs|
      ensures (i < |generic| ==> fs[i].group == "") && (i >= |generic| ==> fs[i].group in platforms)
      ensures fs[i].file != [] && NoSeparator(fs[i].file) && fs[i].content.None?
    {
      if i < |generic| {
        assert fs[i] == generic[i] && generic[i] in generic;
      } else {
        assert fs[i] == rest[i - |generic|] && rest[i - |generic|] in rest;
      }
    }
  }

  // ---------------------------------------------------------------------
  // The build number
  // ---------------------------------------------------------------------

  /** `number.substr(2)` when the number starts with `0.`. */
  function StripZeroDot(number: string): (r: string)
    ensures StartsWith(number, "0.") ==> number == "0." + r
    ensures !StartsWith(number, "0.") ==> r == number
  {
    if StartsWith(number, "0.") then number[2..] else number
  }

  // ---------------------------------------------------------------------
  // The worker
  // ---------------------------------------------------------------------

  /** The command-line options the worker reads: the platforms of
      `conf.platforms` (whose lists `parseGroupFiles` reads), the argument
      lists by group, the platforms requested (`conf.build`), the build
      number (`""` when unset), whether to save the outputs, and whether
      the process serves anything else (`listen.server`, `listen.agent`
      or `listen.git`). */
  datatype ClientConf = ClientConf(platforms: seq<string>, lists: map<string, seq<string>>, build: seq<string>,
                                   number: string, save: bool, serving: bool)

  /** What the worker sends to the coordinator. `RegisterBuild` is
      `build.serialize()` without options: the id and the configuration,
      whose platform is the list requested, whose number is the stripped
      one, and into which the command-line options are copied, the raw
      file lists of every group among them. The parsed file entries are
      not part of it; they go only with `upload-build`. */
  datatype ClientEvent =
    | Register(id: string, save: bool)
    | RegisterBuild(id: string, number: string, platforms: seq<string>, lists: map<string, seq<string>>)
    | Reading(count: nat, plural: string)

  class ClientWorker {
    const id: string
    const conf: ClientConf
    var files: seq<FileEntry>
    var number: string
    var built: nat
    var buildCompleted: bool
    var connected: bool
    var exited: bool
    var sent: seq<ClientEvent>

    /** `new ClientWorker(conf)` with `id` for `shortid.generate()`. The
        source's constructor throws when a group has no list; no worker
        exists then. */
    constructor (id: string, conf: ClientConf)
      requires GroupFiles(conf.platforms, conf.lists).Some?
      ensures this.id == id && this.conf == conf
      ensures files == GroupFiles(conf.platforms, conf.lists).value
      ensures number == conf.number && built == 0 && !buildCompleted
      ensures !connected && !exited && sent == []
      ensures Valid()
    {
      this.id := id;
      this.conf := conf;
      var r := ParseGroupFiles(conf.platforms, conf.lists);
      files := r.value;
      number := conf.number;
      built := 0;
      buildCompleted := false;
      connected := false;
      exited := false;
      sent := [];
    }

    /** The build is completed exactly when at least one platform has
        reported and the count has reached the number requested. */
    predicate Valid()
      reads this
    {
      buildCompleted == (built > 0 && built >= |conf.build|)
    }

    /** `onConnect()`: a number starting with `0.` loses the prefix; the
        client registers; the build is registered, with the raw file
        lists of its configuration but none of the parsed entries, and the
        files are read only when it is not completed yet. */
    method OnConnect()
      requires Valid()
      modifies this`number, this`connected, this`sent
      ensures Valid() && connected
      ensures number == StripZeroDot(old(number))
      ensures buildCompleted ==> sent == old(sent) + [Register(id, conf.save)]
      ensures !buildCompleted ==>
        sent == old(sent) + [Register(id, conf.save), RegisterBuild(id, number, conf.build, conf.lists),
                             Reading(|files|, if |files| == 1 then "" else "s")]
    {
      connected := true;
      number := StripZeroDot(number);
      sent := sent + [Register(id, conf.save)];
      if !buildCompleted {
        sent := sent + [RegisterBuild(id, number, conf.build, conf.lists)];
        sent := sent + [Reading(|files|, if |files| == 1 then "" else "s")];
      }
    }

    /** `disconnect()`: the build is marked completed and the socket
        closed; the process exits unless it serves something else. */
    method Disconnect()
      modifies this`buildCompleted, this`connected, this`exited
      ensures buildCompleted && !connected
      ensures exited == (old(exited) || !conf.serving)
    {
      buildCompleted := true;
      connected := false;
      if !conf.serving {
        exited := true;
      }
    }

    /** `onBuildFailed()`: one more platform has reported; the client
        disconnects once the count reaches the number requested. */
    method OnBuildFailed()
      requires Valid()
      modifies this`built, this`buildCompleted, this`connected, this`exited
      ensures Valid()
      ensures built == old(built) + 1
      ensures buildCompleted == (built >= |conf.build|)
      ensures built >= |conf.build| ==> !connected && exited == (old(exited) || !conf.serving)
      ensures built < |conf.build| ==> connected == old(connected) && exited == old(exited)
    {
      built := built + 1;
      if built >= |conf.build| {
        Disconnect();
      }
    }

    /** `done(err)`, the end of a success report: the same count. */
    method Done()
      requires Valid()
      modifies this`built, this`buildCompleted, this`connected, this`exited
      ensures Valid()
      ensures built == old(built) + 1
      ensures buildCompleted == (built >= |conf.build|)
      ensures built >= |conf.build| ==> !connected && exited == (old(exited) || !conf.serving)
      ensures built < |conf.build| ==> connected == old(connected) && exited == old(exited)
    {
      built := built + 1;
      if built >= |conf.build| {
        Disconnect();
      }
    }

    /** `onBuildSuccess(build)`: without saving, `done`; with saving, the
        outputs are written (`writeErr` is the outcome) and a failure goes
        to `onBuildFailed`, a success on to `done` after the cleanup and
        the log file. Either way the report is counted once. */
    method OnBuildSuccess(writeErr: Option<string>)
      requires Valid()
      modifies this`built, this`buildCompleted, this`connected, this`exited
      ensures Valid()
      ensures built == old(built) + 1
      ensures buildCompleted == (built >= |conf.build|)
      ensures built >= |conf.build| ==> !connected && exited == (old(exited) || !conf.serving)
      ensures built < |conf.build| ==> connected == old(connected) && exited == old(exited)
    {
      if conf.save && writeErr.Some? {
        OnBuildFailed();
      } else {
        Done();
      }
    }
  }
}
