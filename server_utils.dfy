/** File transfer helpers shared by the server and the agent
    (`serverUtils`): writing transferred files into a folder, freeing their
    in-memory contents, reading files into base64 contents, and choosing
    which old build folders to prune.

    The file I/O is a parameter: `Disk` maps a path to its bytes, a
    `map<string, string>` of failures gives the error a write or a removal
    reports, and `async.each` is a sequential loop that handles every file
    and reports the first error in list order. */
module ServerUtils {
  import opened Wrappers
  import opened Strings
  import Lists
  import opened Base64
  import opened Builds

  type Disk = map<string, seq<byte>>

  // ---------------------------------------------------------------------
  // Stored file names
  // ---------------------------------------------------------------------

  /** `s.replace(/\\/g, '/')`. */
  function Slashed(s: string): (r: string)
    ensures |r| == |s|
    ensures forall i :: 0 <= i < |s| ==> r[i] == (if s[i] == '\\' then '/' else s[i])
  {
    if s == [] then [] else Slashed(s[..|s| - 1]) + [if s[|s| - 1] == '\\' then '/' else s[|s| - 1]]
  }

  predicate IsSeparator(c: char) {
    c == '/' || c == '\\'
  }

  /** The name a transferred file is stored under: the text after the last
      `/` or `\` of its path. */
  function StoredName(path: string): string
    decreases |path|
  {
    if path == [] || IsSeparator(path[|path| - 1]) then []
    else StoredName(path[..|path| - 1]) + [path[|path| - 1]]
  }

  /** The stored name is what `.replace(/\\/g, '/').replace(/.*\//, '')`
      leaves of the path. */
  lemma {:induction false} StoredNameIsReplace(path: string)
    ensures StoredName(path) == AfterLastSlash(Slashed(path))
    decreases |path|
  {
    if path != [] {
      var init := path[..|path| - 1];
      StoredNameIsReplace(init);
      SlashedInit(path);
    }
  }

  lemma SlashedInit(path: string)
    requires path != []
    ensures Slashed(path)[..|path| - 1] == Slashed(path[..|path| - 1])
    ensures Slashed(path)[|path| - 1] == '/' <==> IsSeparator(path[|path| - 1])
    ensures !IsSeparator(path[|path| - 1]) ==> Slashed(path)[|path| - 1] == path[|path| - 1]
  {
    var init := Slashed(path[..|path| - 1]);
    assert (init + [Slashed(path)[|path| - 1]])[..|path| - 1] == init;
  }

  /** The stored name holds no separator of either kind and is the tail of
      the path. */
  lemma {:induction false} StoredNameIsTail(path: string)
    ensures var n := StoredName(path);
            (forall i :: 0 <= i < |n| ==> !IsSeparator(n[i]))
            && |n| <= |path| && path[|path| - |n|..] == n
    decreases |path|
  {
    if path != [] && !IsSeparator(path[|path| - 1]) {
      var init := path[..|path| - 1];
      StoredNameIsTail(init);
      var n := StoredName(init);
      assert path[|path| - |n| - 1..] == path[|path| - |n| - 1..|path| - 1] + [path[|path| - 1]];
      assert path[|path| - |n| - 1..|path| - 1] == init[|init| - |n|..];
    }
  }

  /** A path without separators is stored under its own name. */
  lemma {:induction false} StoredNamePlain(path: string)
    requires forall i :: 0 <= i < |path| ==> !IsSeparator(path[i])
    ensures StoredName(path) == path
    decreases |path|
  {
    if path != [] {
      StoredNamePlain(path[..|path| - 1]);
    }
  }

  // ---------------------------------------------------------------------
  // writeFiles
  // ---------------------------------------------------------------------

  /** The fourth argument of `writeFiles`: left out (a function was passed
      in its place, taken as `done`) or a flag. */
  datatype FreeArg = Omitted | Given(doNotFreeMem: bool)

  predicate KeepsContent(free: FreeArg) {
    free.Given? && free.doNotFreeMem
  }

  /** The error `new Buffer(file.content.data, 'base64')` throws for a file
      without content. */
  const NoContentError: string := "TypeError: Cannot read property 'data' of undefined"

  /** A file after `writeFiles`: its path is the stored name inside
      `folder`, and it keeps its content only when `doNotFreeMem` is set. */
  function WrittenFile(f: FileEntry, folder: string, free: FreeArg): (g: FileEntry)
    ensures g.file == Resolve(folder, StoredName(f.file)) && g.group == f.group && g.name == f.name
    ensures g.content == (if KeepsContent(free) then f.content else None)
  {
    var moved := f.(file := Resolve(folder, StoredName(f.file)));
    if KeepsContent(free) then moved else moved.(content := None)
  }

  /** The error writing one file reports: a missing content, or the write's
      own failure. */
  function WriteError(f: FileEntry, folder: string, fails: map<string, string>): Option<string> {
    var target := Resolve(folder, StoredName(f.file));
    if f.content.None? then Some(NoContentError)
    else if target in fails then Some(fails[target])
    else None
  }

  /** The disk after writing the files in order. */
  function DiskAfter(files: seq<FileEntry>, folder: string, fails: map<string, string>, disk: Disk): Disk
    decreases |files|
  {
    if files == [] then disk
    else
      WriteOne(DiskAfter(files[..|files| - 1], folder, fails, disk), files[|files| - 1], folder, fails)
  }

  /** The disk after writing one file, which only a failed write leaves as
      it was. */
  function WriteOne(d: Disk, f: FileEntry, folder: string, fails: map<string, string>): Disk {
    if WriteError(f, folder, fails).None? then d[Resolve(folder, StoredName(f.file)) := Decode(f.content.value)] else d
  }

  /** The first error among the writes, in list order. */
  function FirstWriteError(files: seq<FileEntry>, folder: string, fails: map<string, string>): Option<string>
    decreases |files|
  {
    if files == [] then None
    else
      var e := FirstWriteError(files[..|files| - 1], folder, fails);
      if e.Some? then e else WriteError(files[|files| - 1], folder, fails)
  }

  const CreateFolderFailed: string := "error creating folder {0} on {1}\n{2}"
  const SaveFilesFailed: string := "error saving cordova build files to {0} on {1}\n{2}"

  /** The files after writing them all into `folder`. */
  function WrittenAll(files: seq<FileEntry>, folder: string, free: FreeArg): (r: seq<FileEntry>)
    ensures |r| == |files| && forall i :: 0 <= i < |files| ==> r[i] == WrittenFile(files[i], folder, free)
  {
    seq(|files|, i requires 0 <= i < |files| => WrittenFile(files[i], folder, free))
  }

  /** The files and the error `writeFiles` hands to `done`, for the
      specifications of its callers. */
  function WriteOutcome(folder: string, files: seq<FileEntry>, locationMsg: string, free: FreeArg,
                        mkdir: Option<string>, fails: map<string, string>): (seq<FileEntry>, Option<string>)
  {
    if mkdir.Some? then (files, Some(Format(CreateFolderFailed, [folder, locationMsg, mkdir.value])))
    else
      var e := FirstWriteError(files, folder, fails);
      (WrittenAll(files, folder, free), if e.Some? then Some(Format(SaveFilesFailed, [folder, locationMsg, e.value])) else None)
  }

  /** `writeFiles(folder, files, locationMsg, doNotFreeMem, done)`:
      `mkdir` is the outcome of creating the folder. */
  method WriteFiles(folder: string, files: seq<FileEntry>, locationMsg: string, free: FreeArg,
                    mkdir: Option<string>, fails: map<string, string>, disk: Disk)
    returns (out: seq<FileEntry>, disk': Disk, err: Option<string>)
    ensures (out, err) == WriteOutcome(folder, files, locationMsg, free, mkdir, fails)
    ensures disk' == if mkdir.Some? then disk else DiskAfter(files, folder, fails, disk)
  {
    if mkdir.Some? {
      return files, disk, Some(Format(CreateFolderFailed, [folder, locationMsg, mkdir.value]));
    }
    var first;
    out, disk', first := WriteEach(folder, files, free, fails, disk);
    err := if first.Some? then Some(Format(SaveFilesFailed, [folder, locationMsg, first.value])) else None;
    assert out == WrittenAll(files, folder, free);
  }

  /** The `async.each` part of `writeFiles`, one file after the other. */
  method WriteEach(folder: string, files: seq<FileEntry>, free: FreeArg, fails: map<string, string>, disk: Disk)
    returns (out: seq<FileEntry>, disk': Disk, first: Option<string>)
    ensures |out| == |files| && forall i :: 0 <= i < |files| ==> out[i] == WrittenFile(files[i], folder, free)
    ensures disk' == DiskAfter(files, folder, fails, disk)
    ensures first == FirstWriteError(files, folder, fails)
  {
    out, disk', first := [], disk, None;
    var i := 0;
    while i < |files|
      invariant 0 <= i <= |files| && |out| == i
      invariant forall k :: 0 <= k < i ==> out[k] == WrittenFile(files[k], folder, free)
      invariant disk' == DiskAfter(files[..i], folder, fails, disk)
      invariant first == FirstWriteError(files[..i], folder, fails)
    {
      WriteStep(files, folder, fails, disk, i);
      var moved, e;
      moved, disk', e := WriteOneFile(folder, files[i], free, fails, disk');
      Appended(out, moved, files, i, folder, free);
      out := out + [moved];
      if first.None? {
        first := e;
      }
      i := i + 1;
    }
    assert files[..|files|] == files;
  }

  /** One more moved file at the end of the list. */
  lemma Appended(out: seq<FileEntry>, moved: FileEntry, files: seq<FileEntry>, i: nat, folder: string, free: FreeArg)
    requires i < |files| && |out| == i && forall k :: 0 <= k < i ==> out[k] == WrittenFile(files[k], folder, free)
    requires moved == WrittenFile(files[i], folder, free)
    ensures forall k :: 0 <= k < i + 1 ==> (out + [moved])[k] == WrittenFile(files[k], folder, free)
  {
  }

  /** One more file written, for the loop of `WriteEach`. */
  lemma WriteStep(files: seq<FileEntry>, folder: string, fails: map<string, string>, disk: Disk, i: nat)
    requires i < |files|
    ensures DiskAfter(files[..i + 1], folder, fails, disk) == WriteOne(DiskAfter(files[..i], folder, fails, disk), files[i], folder, fails)
    ensures var e := FirstWriteError(files[..i], folder, fails);
            FirstWriteError(files[..i + 1], folder, fails) == if e.Some? then e else WriteError(files[i], folder, fails)
  {
    assert files[..i + 1][..i] == files[..i];
  }

  /** The body `async.each` runs for one file. */
  method WriteOneFile(folder: string, f: FileEntry, free: FreeArg, fails: map<string, string>, disk: Disk)
    returns (moved: FileEntry, disk': Disk, e: Option<string>)
    ensures moved == WrittenFile(f, folder, free) && e == WriteError(f, folder, fails)
    ensures disk' == WriteOne(disk, f, folder, fails)
  {
    var target := Resolve(folder, StoredName(f.file));
    moved, disk', e := f.(file := target), disk, None;
    if f.content.None? {
      e := Some(NoContentError);
    } else {
      var data := Decode(f.content.value);
      if target in fails {
        e := Some(fails[target]);
      } else {
        disk' := disk[target := data];
      }
      if !KeepsContent(free) {
        moved := moved.(content := None);
      }
    }
  }

  /** Writing reports an error exactly when some file has no content or
      its write fails. */
  lemma {:induction false} WriteErrorIff(files: seq<FileEntry>, folder: string, fails: map<string, string>)
    ensures FirstWriteError(files, folder, fails).None? <==>
              forall i :: 0 <= i < |files| ==>
                files[i].content.Some? && Resolve(folder, StoredName(files[i].file)) !in fails
    decreases |files|
  {
    if files != [] {
      var init := files[..|files| - 1];
      WriteErrorIff(init, folder, fails);
      assert forall i :: 0 <= i < |init| ==> init[i] == files[i];
    }
  }

  /** Distinct stored names give distinct paths inside one folder. */
  lemma ResolveInjective(folder: string, a: string, b: string)
    requires a != b
    ensures Resolve(folder, a) != Resolve(folder, b)
  {
    var pa, pb := folder + "/" + a, folder + "/" + b;
    assert pa[|folder| + 1..] == a && pb[|folder| + 1..] == b;
  }

  /** The bytes on disk at a file's stored path are the decoded content of
      that file when it is the last of the list stored there. */
  lemma {:induction false} WrittenBytes(files: seq<FileEntry>, folder: string, fails: map<string, string>, disk: Disk, i: nat)
    requires i < |files| && files[i].content.Some?
    requires Resolve(folder, StoredName(files[i].file)) !in fails
    requires forall j :: i < j < |files| ==> StoredName(files[j].file) != StoredName(files[i].file)
    ensures var d := DiskAfter(files, folder, fails, disk);
            var target := Resolve(folder, StoredName(files[i].file));
            target in d && d[target] == Decode(files[i].content.value)
    decreases |files|
  {
    var init := files[..|files| - 1];
    var last := files[|files| - 1];
    var target := Resolve(folder, StoredName(files[i].file));
    if i < |files| - 1 {
      assert init[i] == files[i];
      forall j | i < j < |init| ensures StoredName(init[j].file) != StoredName(init[i].file) {
        assert init[j] == files[j];
      }
      WrittenBytes(init, folder, fails, disk, i);
      ResolveInjective(folder, StoredName(last.file), StoredName(files[i].file));
      var d := DiskAfter(init, folder, fails, disk);
      assert DiskAfter(files, folder, fails, disk) ==
             if WriteError(last, folder, fails).None? then d[Resolve(folder, StoredName(last.file)) := Decode(last.content.value)] else d;
    }
  }

  /** Paths no file is stored under keep their bytes. */
  lemma {:induction false} UntouchedPaths(files: seq<FileEntry>, folder: string, fails: map<string, string>, disk: Disk, p: string)
    requires forall i :: 0 <= i < |files| ==> Resolve(folder, StoredName(files[i].file)) != p
    ensures (p in DiskAfter(files, folder, fails, disk)) == (p in disk)
    ensures p in disk ==> DiskAfter(files, folder, fails, disk)[p] == disk[p]
    decreases |files|
  {
    if files != [] {
      UntouchedPaths(files[..|files| - 1], folder, fails, disk, p);
    }
  }

  /** With the fourth argument left out, contents are freed as with
      `doNotFreeMem` false. */
  lemma OmittedFrees(f: FileEntry, folder: string)
    ensures WrittenFile(f, folder, Omitted) == WrittenFile(f, folder, Given(false))
    ensures WrittenFile(f, folder, Omitted).content.None?
  {
  }

  // ---------------------------------------------------------------------
  // freeMemFiles
  // ---------------------------------------------------------------------

  /** `freeMemFiles(files)`: every file loses its content and keeps
      everything else. */
  method FreeMemFiles(files: seq<FileEntry>) returns (out: seq<FileEntry>)
    ensures out == Freed(files)
    ensures |out| == |files|
    ensures forall i :: 0 <= i < |files| ==> out[i].content.None?
    ensures forall i :: 0 <= i < |files| ==>
              out[i].file == files[i].file && out[i].group == files[i].group && out[i].name == files[i].name
  {
    out := [];
    var i := 0;
    while i < |files|
      invariant 0 <= i <= |files| && |out| == i
      invariant forall k :: 0 <= k < i ==> out[k] == files[k].(content := None)
    {
      out := out + [files[i].(content := None)];
      i := i + 1;
    }
  }

  /** The files of `FreeMemFiles`, as a function for the specifications of
      its callers. */
  function Freed(files: seq<FileEntry>): (r: seq<FileEntry>)
    ensures |r| == |files|
    ensures forall i :: 0 <= i < |files| ==> r[i] == files[i].(content := None)
  {
    if files == [] then [] else [files[0].(content := None)] + Freed(files[1..])
  }

  // ---------------------------------------------------------------------
  // readFiles
  // ---------------------------------------------------------------------

  /** The error a read of a missing file reports. */
  function ReadError(path: string): string {
    "ENOENT, open '" + path + "'"
  }

  /** A file after `readFiles`: one found on disk gets the base64
      encoding of its bytes as content. */
  function ReadFile(f: FileEntry, disk: Disk): (g: FileEntry)
    ensures g.file == f.file && g.group == f.group && g.name == f.name
    ensures g.content == (if f.file in disk then Some(Encode(disk[f.file])) else f.content)
  {
    if f.file in disk then f.(content := Some(Encode(disk[f.file]))) else f
  }

  /** The files after `readFiles`, as a function for the specifications of
      its callers. */
  function ReadAll(files: seq<FileEntry>, disk: Disk): (r: seq<FileEntry>)
    ensures |r| == |files| && forall i :: 0 <= i < |files| ==> r[i] == ReadFile(files[i], disk)
  {
    if files == [] then [] else [ReadFile(files[0], disk)] + ReadAll(files[1..], disk)
  }

  /** The first file missing on disk, as the read error it reports. */
  function FirstReadError(files: seq<FileEntry>, disk: Disk): Option<string>
    decreases |files|
  {
    if files == [] then None
    else
      var e := FirstReadError(files[..|files| - 1], disk);
      var f := files[|files| - 1];
      if e.Some? then e else if f.file in disk then None else Some(ReadError(f.file))
  }

  const ReadFilesFailed: string := "error reading build input files on {0}\n{1}"

  /** `readFiles(files, locationMsg, done)`. */
  method ReadFiles(files: seq<FileEntry>, locationMsg: string, disk: Disk)
    returns (out: seq<FileEntry>, err: Option<string>)
    ensures |out| == |files| && forall i :: 0 <= i < |files| ==> out[i] == ReadFile(files[i], disk)
    ensures var e := FirstReadError(files, disk);
            err == (if e.Some? then Some(Format(ReadFilesFailed, [locationMsg, e.value])) else None)
  {
    out := [];
    var first: Option<string> := None;
    var i := 0;
    while i < |files|
      invariant 0 <= i <= |files| && |out| == i
      invariant forall k :: 0 <= k < i ==> out[k] == ReadFile(files[k], disk)
      invariant first == FirstReadError(files[..i], disk)
    {
      ReadStep(files, disk, i);
      var f := files[i];
      var g := f;
      if f.file in disk {
        var data := Encode(disk[f.file]);
        g := f.(content := Some(data));
      } else if first.None? {
        first := Some(ReadError(f.file));
      }
      ReadAppended(out, g, files, i, disk);
      out := out + [g];
      i := i + 1;
    }
    assert files[..|files|] == files;
    err := if first.Some? then Some(Format(ReadFilesFailed, [locationMsg, first.value])) else None;
  }

  /** One more read file at the end of the list. */
  lemma ReadAppended(out: seq<FileEntry>, g: FileEntry, files: seq<FileEntry>, i: nat, disk: Disk)
    requires i < |files| && |out| == i && forall k :: 0 <= k < i ==> out[k] == ReadFile(files[k], disk)
    requires g == ReadFile(files[i], disk)
    ensures forall k :: 0 <= k < i + 1 ==> (out + [g])[k] == ReadFile(files[k], disk)
  {
  }

  /** One more file read, for the loop of `ReadFiles`. */
  lemma ReadStep(files: seq<FileEntry>, disk: Disk, i: nat)
    requires i < |files|
    ensures var e := FirstReadError(files[..i], disk);
            FirstReadError(files[..i + 1], disk)
            == if e.Some? then e else if files[i].file in disk then None else Some(ReadError(files[i].file))
  {
    assert files[..i + 1][..i] == files[..i];
  }

  /** Reading fails exactly when some file is missing on disk. */
  lemma {:induction false} ReadErrorIff(files: seq<FileEntry>, disk: Disk)
    ensures FirstReadError(files, disk).None? <==> forall i :: 0 <= i < |files| ==> files[i].file in disk
    decreases |files|
  {
    if files != [] {
      var init := files[..|files| - 1];
      ReadErrorIff(init, disk);
      assert forall i :: 0 <= i < |init| ==> init[i] == files[i];
    }
  }

  /** Writing what was read puts back the original bytes: a file read from
      `path` and written into `folder` holds the bytes that were at `path`,
      unless a later file of the list has the same stored name. */
  lemma ReadThenWrite(files: seq<FileEntry>, read: seq<FileEntry>, disk: Disk, folder: string,
                      fails: map<string, string>, target: Disk, i: nat)
    requires |read| == |files| && forall k :: 0 <= k < |files| ==> read[k] == ReadFile(files[k], disk)
    requires i < |files| && files[i].file in disk
    requires Resolve(folder, StoredName(files[i].file)) !in fails
    requires forall j :: i < j < |files| ==> StoredName(files[j].file) != StoredName(files[i].file)
    ensures var written := DiskAfter(read, folder, fails, target);
            var p := Resolve(folder, StoredName(files[i].file));
            p in written && written[p] == disk[files[i].file]
  {
    WrittenBytes(read, folder, fails, target, i);
    DecodeEncode(disk[files[i].file]);
  }

  // ---------------------------------------------------------------------
  // cleanLastFolders
  // ---------------------------------------------------------------------

  /** A globbed path with the outcome of its `fs.stat`. */
  datatype PathStat = PathStat(filepath: string, mtime: int, isDir: bool)

  /** The directories among the entries, in order. */
  function Dirs(xs: seq<PathStat>): (r: seq<PathStat>)
    ensures |r| <= |xs|
    ensures forall k :: 0 <= k < |r| ==> r[k].isDir
    ensures multiset(r) <= multiset(xs)
    decreases |xs|
  {
    if xs == [] then []
    else
      var init := Dirs(xs[..|xs| - 1]);
      assert xs == xs[..|xs| - 1] + [xs[|xs| - 1]];
      if xs[|xs| - 1].isDir then init + [xs[|xs| - 1]] else init
  }

  /** Every directory entry is kept by `Dirs`. */
  lemma {:induction false} DirsKeepsDirs(xs: seq<PathStat>)
    ensures forall x :: x in xs && x.isDir ==> x in Dirs(xs)
    decreases |xs|
  {
    if xs != [] {
      DirsKeepsDirs(xs[..|xs| - 1]);
      assert xs == xs[..|xs| - 1] + [xs[|xs| - 1]];
    }
  }

  predicate NewestFirst(xs: seq<PathStat>) {
    forall i, j :: 0 <= i < j < |xs| ==> xs[i].mtime >= xs[j].mtime
  }

  /** Inserts `x` after every leading entry strictly newer than it, so
      before the entries as old as it. */
  function Insert(x: PathStat, xs: seq<PathStat>): (r: seq<PathStat>)
    ensures |r| == |xs| + 1
    ensures multiset(r) == multiset(xs) + multiset{x}
    decreases |xs|
  {
    if xs == [] then [x]
    else if xs[0].mtime > x.mtime then
      assert xs == [xs[0]] + xs[1..];
      [xs[0]] + Insert(x, xs[1..])
    else [x] + xs
  }

  lemma {:induction false} InsertSorted(x: PathStat, xs: seq<PathStat>)
    requires NewestFirst(xs)
    ensures NewestFirst(Insert(x, xs))
    decreases |xs|
  {
    if xs != [] && xs[0].mtime > x.mtime {
      var rest := Insert(x, xs[1..]);
      InsertSorted(x, xs[1..]);
      forall e | e in rest ensures xs[0].mtime >= e.mtime {
        InsertFrom(x, xs[1..], e);
        if e != x {
          var j :| 0 <= j < |xs[1..]| && xs[1..][j] == e;
          assert xs[j + 1] == e;
        }
      }
      ConsSorted(xs[0], rest);
    }
  }

  /** `Insert` adds only `x`. */
  lemma InsertFrom(x: PathStat, xs: seq<PathStat>, e: PathStat)
    requires e in Insert(x, xs)
    ensures e == x || e in xs
  {
    assert e in multiset(Insert(x, xs));
  }

  /** An entry at least as new as every entry of a sorted list can go in
      front of it. */
  lemma ConsSorted(h: PathStat, rest: seq<PathStat>)
    requires NewestFirst(rest) && forall e :: e in rest ==> h.mtime >= e.mtime
    ensures NewestFirst([h] + rest)
  {
    var r := [h] + rest;
    forall i, j | 0 <= i < j < |r| ensures r[i].mtime >= r[j].mtime {
      if i == 0 {
        assert r[j] == rest[j - 1];
        assert r[j] in rest;
      } else {
        assert r[i] == rest[i - 1] && r[j] == rest[j - 1];
      }
    }
  }

  /** `sort((a, b) => b.stats.mtime - a.stats.mtime)`: newest first,
      entries with equal times in their original order. */
  function ByAge(xs: seq<PathStat>): (r: seq<PathStat>)
    ensures |r| == |xs|
    ensures multiset(r) == multiset(xs)
    decreases |xs|
  {
    if xs == [] then []
    else
      assert xs == [xs[0]] + xs[1..];
      Insert(xs[0], ByAge(xs[1..]))
  }

  /** The entries of `xs` whose time is `t`, in order. */
  function WithTime(xs: seq<PathStat>, t: int): seq<PathStat>
    decreases |xs|
  {
    if xs == [] then []
    else (if xs[0].mtime == t then [xs[0]] else []) + WithTime(xs[1..], t)
  }

  /** Inserting `x` puts it before the entries as old as it. */
  lemma {:induction false} InsertWithTime(x: PathStat, xs: seq<PathStat>, t: int)
    ensures WithTime(Insert(x, xs), t) == (if x.mtime == t then [x] else []) + WithTime(xs, t)
    decreases |xs|
  {
    if xs == [] {
      WithTimeCons(x, [], t);
    } else if xs[0].mtime > x.mtime {
      InsertWithTime(x, xs[1..], t);
      PassNewer(x, xs[0], xs[1..], Insert(x, xs[1..]), t);
      assert xs == [xs[0]] + xs[1..];
    } else {
      WithTimeCons(x, xs, t);
    }
  }

  /** Passing over an entry newer than `x` keeps `x` before the entries
      as old as it. */
  lemma PassNewer(x: PathStat, y: PathStat, ys: seq<PathStat>, rest: seq<PathStat>, t: int)
    requires y.mtime > x.mtime
    requires WithTime(rest, t) == (if x.mtime == t then [x] else []) + WithTime(ys, t)
    ensures WithTime([y] + rest, t) == (if x.mtime == t then [x] else []) + WithTime([y] + ys, t)
  {
    WithTimeCons(y, rest, t);
    WithTimeCons(y, ys, t);
  }

  lemma WithTimeCons(y: PathStat, ys: seq<PathStat>, t: int)
    ensures WithTime([y] + ys, t) == (if y.mtime == t then [y] else []) + WithTime(ys, t)
  {
    assert ([y] + ys)[1..] == ys;
  }

  /** The sort is stable: entries with the same time keep their input
      order, as V8's sort does. */
  lemma {:induction false} ByAgeStable(xs: seq<PathStat>, t: int)
    ensures WithTime(ByAge(xs), t) == WithTime(xs, t)
    decreases |xs|
  {
    if xs != [] {
      ByAgeStable(xs[1..], t);
      InsertWithTime(xs[0], ByAge(xs[1..]), t);
    }
  }

  /** Two directories of the same age come out of the sort in the order
      they were listed. */
  lemma ByAgeTie(a: PathStat, b: PathStat)
    requires a.mtime == b.mtime
    ensures ByAge([a, b]) == [a, b]
  {
    assert [a, b][1..] == [b];
    assert ByAge([b]) == [b];
  }

  /** The sort puts the newest entries first. */
  lemma {:induction false} ByAgeSorted(xs: seq<PathStat>)
    ensures NewestFirst(ByAge(xs))
    decreases |xs|
  {
    if xs != [] {
      ByAgeSorted(xs[1..]);
      InsertSorted(xs[0], ByAge(xs[1..]));
    }
  }

  /** The entries `cleanLastFolders(keepLast, …)` deletes and reports. */
  function Pruned(keepLast: int, xs: seq<PathStat>): seq<PathStat> {
    var sorted := ByAge(Dirs(xs));
    if keepLast <= 0 then [] else if keepLast >= |sorted| then [] else sorted[keepLast..]
  }

  /** How the glob and the `fs.stat` calls went: a glob error, a failed
      `fs.stat` of one of the globbed paths, or the globbed paths with
      their stats. */
  datatype Listing =
    | GlobFailed(error: string)
    | StatFailed(filepath: string, error: string)
    | Listed(entries: seq<PathStat>)

  /** What `cleanLastFolders` passes to `done`: `done()`, `done(err)`, or
      `done(err, removed)`. */
  datatype CleanResult = Nothing | Failed(reason: string) | Removed(removeError: Option<string>, removed: seq<PathStat>)

  /** How `cleanLastFolders` ends: `done` is called with a result, or the
      `fs.stat` callback of a path that failed to stat throws at
      `filestats.isDirectory()`, an uncaught exception, and `done` is never
      called. */
  datatype Cleanup = Crashed | Done(result: CleanResult)

  /** `cleanLastFolders(keepLast, glob, done)`: `removeFails` gives the
      error of each removal that fails. A glob error is handed to `done`;
      a failed `fs.stat` crashes before `done` runs. */
  method CleanLastFolders(keepLast: int, listing: Listing, removeFails: map<string, string>)
    returns (out: Cleanup)
    ensures keepLast <= 0 ==> out == Done(Nothing)
    ensures keepLast > 0 && listing.GlobFailed? ==> out == Done(Failed(listing.error))
    ensures keepLast > 0 && listing.StatFailed? ==> out == Crashed
    ensures keepLast > 0 && listing.Listed? && listing.entries == [] ==> out == Done(Nothing)
    ensures keepLast > 0 && listing.Listed? && listing.entries != [] ==>
              out.Done? && out.result.Removed? && out.result.removed == Pruned(keepLast, listing.entries)
              && (out.result.removeError.None? <==>
                    forall k :: 0 <= k < |out.result.removed| ==> out.result.removed[k].filepath !in removeFails)
  {
    if keepLast <= 0 {
      return Done(Nothing);
    }
    if listing.GlobFailed? {
      return Done(Failed(listing.error));
    }
    if listing.StatFailed? {
      return Crashed;
    }
    var paths := listing.entries;
    if paths == [] {
      return Done(Nothing);
    }
    var dirs := FilterDirs(paths);
    var sorted := ByAge(dirs);
    var doomed := if keepLast >= |sorted| then [] else sorted[keepLast..];
    var first := RemoveEach(doomed, removeFails);
    return Done(Removed(first, doomed));
  }

  /** `sPaths.filter(sPath => sPath.isDir)`. */
  method FilterDirs(paths: seq<PathStat>) returns (dirs: seq<PathStat>)
    ensures dirs == Dirs(paths)
  {
    dirs := [];
    var i := 0;
    while i < |paths|
      invariant 0 <= i <= |paths|
      invariant dirs == Dirs(paths[..i])
    {
      DirsStep(paths, i);
      if paths[i].isDir {
        dirs := dirs + [paths[i]];
      }
      i := i + 1;
    }
    assert paths[..|paths|] == paths;
  }

  /** One more entry filtered, for the loop of `FilterDirs`. */
  lemma DirsStep(paths: seq<PathStat>, i: nat)
    requires i < |paths|
    ensures Dirs(paths[..i + 1]) == if paths[i].isDir then Dirs(paths[..i]) + [paths[i]] else Dirs(paths[..i])
  {
    assert paths[..i + 1][..i] == paths[..i];
  }

  /** The `fs.remove` calls: the first error among them, if any. */
  method RemoveEach(doomed: seq<PathStat>, removeFails: map<string, string>) returns (first: Option<string>)
    ensures first.None? <==> forall k :: 0 <= k < |doomed| ==> doomed[k].filepath !in removeFails
    ensures first.Some? ==> exists k :: 0 <= k < |doomed| && doomed[k].filepath in removeFails
                                        && first.value == removeFails[doomed[k].filepath]
  {
    first := None;
    var k := 0;
    while k < |doomed|
      invariant 0 <= k <= |doomed|
      invariant first.None? <==> forall j :: 0 <= j < k ==> doomed[j].filepath !in removeFails
      invariant first.Some? ==> exists j :: 0 <= j < k && doomed[j].filepath in removeFails
                                             && first.value == removeFails[doomed[j].filepath]
    {
      if first.None? && doomed[k].filepath in removeFails {
        first := Some(removeFails[doomed[k].filepath]);
      }
      k := k + 1;
    }
  }

  /** The pruning rule, first part: only directories are deleted; a
      positive `keepLast` deletes all but that many; a `keepLast` of zero
      or less deletes nothing. */
  lemma PrunedDirs(keepLast: int, xs: seq<PathStat>)
    ensures var p := Pruned(keepLast, xs);
            var dirs := Dirs(xs);
            (forall k :: 0 <= k < |p| ==> p[k].isDir && p[k] in xs)
            && (keepLast <= 0 ==> p == [])
            && (keepLast > 0 ==> |p| == if |dirs| > keepLast then |dirs| - keepLast else 0)
  {
    var dirs := Dirs(xs);
    var sorted := ByAge(dirs);
    var p := Pruned(keepLast, xs);
    forall k | 0 <= k < |p| ensures p[k].isDir && p[k] in xs {
      assert p[k] == sorted[keepLast + k];
      assert sorted[keepLast + k] in multiset(dirs);
    }
  }

  /** The pruning rule, second part: every directory is either kept or
      deleted, and each kept one is at least as new as each deleted one. */
  lemma PrunedKeepsNewest(keepLast: int, xs: seq<PathStat>)
    requires keepLast > 0 && |Dirs(xs)| > keepLast
    ensures var p := Pruned(keepLast, xs);
            var kept := ByAge(Dirs(xs))[..keepLast];
            multiset(kept) + multiset(p) == multiset(Dirs(xs))
            && forall a, b :: a in kept && b in p ==> a.mtime >= b.mtime
  {
    var dirs := Dirs(xs);
    var sorted := ByAge(dirs);
    ByAgeSorted(dirs);
    var p := Pruned(keepLast, xs);
    assert p == sorted[keepLast..];
    Lists.MultisetSplit(sorted, keepLast);
    SortedSplit(sorted, keepLast);
  }

  /** In a list sorted newest first, every entry before a cut is at least
      as new as every entry after it. */
  lemma SortedSplit(s: seq<PathStat>, n: nat)
    requires NewestFirst(s) && n <= |s|
    ensures forall a, b :: a in s[..n] && b in s[n..] ==> a.mtime >= b.mtime
  {
    forall a, b | a in s[..n] && b in s[n..] ensures a.mtime >= b.mtime {
      var i :| 0 <= i < n && s[..n][i] == a;
      var j :| 0 <= j < |s| - n && s[n..][j] == b;
      assert s[i] == a && s[n + j] == b;
    }
  }
}
