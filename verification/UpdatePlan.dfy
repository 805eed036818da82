/** The plan of an update: which files and directories of the unpacked update are copied, and where to. */
module UpdatePlan {
  /** A path inside the update as its names from the top. */
  type Rel = seq<string>

  /** How reading a directory goes: to its end, not at all, or with an error after the names read so far. */
  datatype Listing = Listed | CannotOpen(missing: bool) | Breaks

  /** The names of a directory are those of its entries, without the two for itself and its parent. */
  datatype Node = File | Dir(names: seq<string>, listing: Listing)

  /** What exists, by path. An entry of a directory that is not a key cannot be examined; on Windows there is none such,
      since what an entry is comes with its name. */
  type FileSystem = map<string, Node>

  /** `base` is the path of the folder of updates with its separator. */
  datatype Config = Config(windows: bool, base: string, newLayout: bool, target: string,
                            exeName: string, updaterName: string)
  {
    function Sep(): char { if windows then '\\' else '/' }
    function Root(): string { base + if newLayout then "temp" else "ready" }
    function TData(): string { Root() + [Sep()] + "tdata" }
    function ReadyFile(): string { base + "temp" + [Sep()] + "ready" }
    function Binary(): string { if windows then "Telegram.exe" else "Telegram" }
  }

  // ---- Names and paths ----

  predicate ValidName(c: Config, name: string) {
    name != "" && '/' !in name && c.Sep() !in name
  }

  predicate ValidRel(c: Config, rel: Rel) { forall name :: name in rel ==> ValidName(c, name) }

  function Init(rel: Rel): Rel
    requires rel != []
  {
    rel[..|rel| - 1]
  }

  function Last(rel: Rel): string
    requires rel != []
  {
    rel[|rel| - 1]
  }

  function Path(c: Config, rel: Rel): string {
    if rel == [] then c.Root() else Path(c, Init(rel)) + [c.Sep()] + Last(rel)
  }

  /** The path below the top. */
  function Below(c: Config, rel: Rel): string {
    if rel == [] then "" else if |rel| == 1 then rel[0] else Below(c, Init(rel)) + [c.Sep()] + Last(rel)
  }

  function Lower(ch: char): char {
    if 'A' <= ch <= 'Z' then (ch as int + 32) as char else ch
  }

  function Lowered(s: string): string {
    seq(|s|, i requires 0 <= i < |s| => Lower(s[i]))
  }

  predicate Equal(a: string, b: string) { Lowered(a) == Lowered(b) }

  lemma {:induction false} PathIsBelow(c: Config, rel: Rel)
    requires rel != []
    ensures Path(c, rel) == c.Root() + [c.Sep()] + Below(c, rel)
  {
    if |rel| > 1 {
      PathIsBelow(c, Init(rel));
    } else {
      assert Init(rel) == [];
    }
  }

  lemma LastSeparator(p: string, n: string, sep: char)
    requires sep !in n
    ensures (p + [sep] + n)[|p|] == sep
    ensures forall i :: |p| < i < |p + [sep] + n| ==> (p + [sep] + n)[i] != sep
  {
    forall i | |p| < i < |p + [sep] + n| ensures (p + [sep] + n)[i] != sep {
      assert (p + [sep] + n)[i] == n[i - |p| - 1];
    }
  }

  lemma SplitsOnce(p: string, n: string, q: string, m: string, sep: char)
    requires p + [sep] + n == q + [sep] + m && sep !in n && sep !in m
    ensures p == q && n == m
  {
    var s := p + [sep] + n;
    LastSeparator(p, n, sep);
    LastSeparator(q, m, sep);
    assert |p| == |q|;
    assert p == s[..|p|] && q == s[..|q|] && n == s[|p| + 1..] && m == s[|q| + 1..];
  }

  lemma {:induction false} BelowLonger(c: Config, rel: Rel)
    requires ValidRel(c, rel) && |rel| > 1
    ensures c.Sep() in Below(c, rel)
  {
    var below := Below(c, rel);
    assert below[|Below(c, Init(rel))|] == c.Sep();
  }

  /** A path below the top has one reading. */
  lemma {:induction false} BelowInjective(c: Config, a: Rel, b: Rel)
    requires ValidRel(c, a) && ValidRel(c, b) && a != [] && b != [] && Below(c, a) == Below(c, b)
    ensures a == b
    decreases |a|
  {
    assert a[0] in a && b[0] in b;
    if |a| > 1 && |b| > 1 {
      assert Last(a) in a && Last(b) in b;
      SplitsOnce(Below(c, Init(a)), Last(a), Below(c, Init(b)), Last(b), c.Sep());
      BelowInjective(c, Init(a), Init(b));
      assert a == Init(a) + [Last(a)] && b == Init(b) + [Last(b)];
    } else if |a| > 1 {
      BelowLonger(c, a);
      assert false;
    } else if |b| > 1 {
      BelowLonger(c, b);
      assert false;
    }
  }

  lemma PathInjective(c: Config, a: Rel, b: Rel)
    requires ValidRel(c, a) && ValidRel(c, b) && Path(c, a) == Path(c, b)
    ensures a == b
  {
    if a != [] {
      PathIsBelow(c, a);
    }
    if b != [] {
      PathIsBelow(c, b);
    }
    if a != [] && b != [] {
      assert Below(c, a) == Path(c, a)[|c.Root()| + 1..] && Below(c, b) == Path(c, b)[|c.Root()| + 1..];
      BelowInjective(c, a, b);
    }
  }

  // ---- What belongs to the update ----

  ghost predicate WellFormed(c: Config, fs: FileSystem) {
    forall p :: p in fs && fs[p].Dir? ==>
      && (forall name :: name in fs[p].names ==> ValidName(c, name))
      && (forall i, j :: 0 <= i < j < |fs[p].names| ==> fs[p].names[i] != fs[p].names[j])
  }

  predicate Opens(fs: FileSystem, p: string) { p in fs && fs[p].Dir? && !fs[p].listing.CannotOpen? }

  /** An entry that a directory lists, other than the one left out at the top. */
  predicate ListedIn(c: Config, fs: FileSystem, rel: Rel)
    requires rel != []
  {
    && Opens(fs, Path(c, Init(rel))) && Last(rel) in fs[Path(c, Init(rel))].names
    && rel != ["tdata"] && Path(c, rel) in fs
  }

  /** The directories of the update: the top, and what directories of the update list. */
  predicate Folder(c: Config, fs: FileSystem, rel: Rel) {
    rel == [] || (Folder(c, fs, Init(rel)) && ListedIn(c, fs, rel) && fs[Path(c, rel)].Dir?)
  }

  predicate Regular(c: Config, fs: FileSystem, rel: Rel) {
    rel != [] && Folder(c, fs, Init(rel)) && ListedIn(c, fs, rel) && fs[Path(c, rel)].File?
  }

  /** The file that only marks the update as complete. */
  predicate Marker(c: Config, rel: Rel) {
    c.newLayout && |rel| == 1 && if c.windows then Equal(rel[0], "ready") else rel[0] == "ready"
  }

  predicate IsUpdater(c: Config, rel: Rel) { Equal(c.target + Below(c, rel), c.updaterName) }

  predicate IsBinary(c: Config, rel: Rel) { |rel| == 1 && Equal(rel[0], c.Binary()) }

  function Target(c: Config, rel: Rel): string {
    if IsBinary(c, rel) && c.exeName != c.Binary() then c.target + c.exeName else c.target + Below(c, rel)
  }

  predicate Wanted(c: Config, fs: FileSystem, rel: Rel) { Regular(c, fs, rel) && !Marker(c, rel) }

  function ForcedDir(c: Config, rel: Rel): string { c.target + Below(c, rel) + [c.Sep()] }

  lemma {:induction false} FolderValid(c: Config, fs: FileSystem, rel: Rel)
    requires WellFormed(c, fs) && Folder(c, fs, rel)
    ensures ValidRel(c, rel)
  {
    if rel != [] {
      FolderValid(c, fs, Init(rel));
      assert rel == Init(rel) + [Last(rel)];
    }
  }

  /** Nothing in the update is inside the folder left out. */
  lemma {:induction false} OutsideTData(c: Config, fs: FileSystem, rel: Rel)
    requires Folder(c, fs, rel) && rel != []
    ensures rel[0] != "tdata"
  {
    if |rel| > 1 {
      OutsideTData(c, fs, Init(rel));
    } else {
      assert rel == [rel[0]];
    }
  }

  // ---- The tests on strings say what they should about names ----

  predicate SkipsTData(c: Config, path: string) {
    var tdata := c.TData();
    |path| >= |tdata| && path[..|tdata|] == tdata && (|path| <= |tdata| || path[|tdata|] == '/')
  }

  lemma {:induction false} BelowStarts(c: Config, rel: Rel)
    requires rel != []
    ensures |rel[0]| <= |Below(c, rel)| && Below(c, rel)[..|rel[0]|] == rel[0]
    ensures |rel| > 1 ==> |rel[0]| < |Below(c, rel)| && Below(c, rel)[|rel[0]|] == c.Sep()
    ensures |rel| == 1 ==> Below(c, rel) == rel[0]
  {
    if |rel| > 1 {
      BelowStarts(c, Init(rel));
    }
  }

  lemma SkipIsTData(c: Config, rel: Rel)
    requires ValidRel(c, rel) && rel != [] && (|rel| > 1 ==> rel[0] != "tdata")
    ensures SkipsTData(c, Path(c, rel)) <==> rel == ["tdata"]
  {
    var path, top, below := Path(c, rel), c.Root() + [c.Sep()], Below(c, rel);
    PathIsBelow(c, rel);
    BelowStarts(c, rel);
    assert c.TData() == top + "tdata" && path == top + below;
    assert rel[0] in rel;
    hide Path, Below;
    StartsWith(top, below, "tdata");
    if SkipsTData(c, path) {
      TopName(below, rel[0], c.Sep());
      assert |rel| == 1 ==> rel == [rel[0]];
    }
  }

  lemma StartsWith(top: string, below: string, name: string)
    ensures |top + below| >= |top + name| && (top + below)[..|top + name|] == top + name
       <==> |below| >= |name| && below[..|name|] == name
    ensures |below| > |name| ==> (top + below)[|top + name|] == below[|name|]
  {
    if |below| >= |name| {
      assert (top + below)[..|top + name|] == top + below[..|name|];
      assert (top + below[..|name|])[|top|..] == below[..|name|] && (top + name)[|top|..] == name;
    }
  }

  /** The first name of a path that begins with the folder left out is that folder's. */
  lemma TopName(below: string, name: string, sep: char)
    requires '/' !in name && |name| <= |below| && below[..|name|] == name && sep !in "tdata"
    requires below == name || (|name| < |below| && below[|name|] == sep)
    requires |below| >= 5 && below[..5] == "tdata" && (|below| > 5 ==> below[5] == '/')
    ensures name == "tdata"
  {
    Without(below, name, '/');
    Without(below, "tdata", sep);
    assert |name| == 5;
  }

  lemma Without(below: string, name: string, ch: char)
    requires ch !in name && |name| <= |below| && below[..|name|] == name
    ensures forall i :: 0 <= i < |name| ==> below[i] != ch
  {
    forall i | 0 <= i < |name| ensures below[i] != ch {
      assert name[i] == below[i] && name[i] in name;
    }
  }

  predicate SkipsReady(c: Config, path: string) {
    if c.windows then Equal(path, c.ReadyFile()) else path == c.ReadyFile()
  }

  lemma EqualEnds(p: string, a: string, b: string)
    ensures Equal(p + a, p + b) <==> Equal(a, b)
  {
    assert forall s :: Lowered(p + s) == Lowered(p) + Lowered(s) by {
      forall s ensures Lowered(p + s) == Lowered(p) + Lowered(s) {}
    }
    if Lowered(p + a) == Lowered(p + b) {
      assert Lowered(a) == (Lowered(p) + Lowered(a))[|p|..] && Lowered(b) == (Lowered(p) + Lowered(b))[|p|..];
    }
  }

  lemma LowerKeepsSep(c: Config, a: string, b: string)
    requires Equal(a, b) && c.Sep() !in b
    ensures c.Sep() !in a
  {
    forall i | 0 <= i < |a| ensures a[i] != c.Sep() {
      assert Lowered(a)[i] == Lowered(b)[i] && b[i] in b;
    }
  }

  lemma SkipIsMarker(c: Config, rel: Rel)
    requires ValidRel(c, rel) && rel != []
    ensures SkipsReady(c, Path(c, rel)) <==> Marker(c, rel)
  {
    var path, below := Path(c, rel), Below(c, rel);
    PathIsBelow(c, rel);
    BelowStarts(c, rel);
    if c.newLayout {
      var p := c.base + "temp" + [c.Sep()];
      assert path == p + below && c.ReadyFile() == p + "ready";
      EqualEnds(p, below, "ready");
      assert path == c.ReadyFile() ==> path[|p|..] == c.ReadyFile()[|p|..];
      if |rel| > 1 {
        BelowLonger(c, rel);
        if Equal(below, "ready") {
          LowerKeepsSep(c, below, "ready");
        }
      }
    } else {
      assert path[|c.base|] == 'r' && c.ReadyFile()[|c.base|] == 't';
      assert Lowered(path)[|c.base|] == 'r' && |c.ReadyFile()| > |c.base| && Lowered(c.ReadyFile())[|c.base|] == 't';
    }
  }

  lemma SameBinary(c: Config, rel: Rel)
    requires ValidRel(c, rel) && rel != []
    ensures Equal(c.target + Below(c, rel), c.target + c.Binary()) <==> IsBinary(c, rel)
  {
    EqualEnds(c.target, Below(c, rel), c.Binary());
    BelowStarts(c, rel);
    if |rel| > 1 {
      BelowLonger(c, rel);
      if Equal(Below(c, rel), c.Binary()) {
        LowerKeepsSep(c, Below(c, rel), c.Binary());
      }
    }
  }

  // ---- One directory ----

  ghost predicate Distinct(rels: seq<Rel>) {
    forall i, j :: 0 <= i < j < |rels| ==> rels[i] != rels[j]
  }

  /** The entries of a directory up to some number of names. */
  ghost predicate Child(c: Config, fs: FileSystem, rel: Rel, count: nat, x: Rel)
    requires Opens(fs, Path(c, rel)) && count <= |fs[Path(c, rel)].names|
  {
    x != [] && Init(x) == rel && Last(x) in fs[Path(c, rel)].names[..count]
  }

  ghost predicate Scanned(c: Config, fs: FileSystem, rel: Rel, count: nat, dirs: seq<Rel>, files: seq<Rel>)
    requires Opens(fs, Path(c, rel)) && count <= |fs[Path(c, rel)].names|
  {
    && Distinct(dirs) && Distinct(files)
    && (forall x :: x in dirs <==> Child(c, fs, rel, count, x) && Folder(c, fs, x))
    && (forall x :: x in files <==> Child(c, fs, rel, count, x) && Wanted(c, fs, x))
    && (forall x :: Child(c, fs, rel, count, x) && Regular(c, fs, x) ==> !IsUpdater(c, x))
  }

  ghost predicate PathsOf(c: Config, rels: seq<Rel>, paths: seq<string>) {
    |rels| == |paths| && forall i :: 0 <= i < |rels| ==> paths[i] == Path(c, rels[i])
  }

  ghost predicate TargetsOf(c: Config, rels: seq<Rel>, paths: seq<string>) {
    |rels| == |paths| && forall i :: 0 <= i < |rels| ==> paths[i] == Target(c, rels[i])
  }

  datatype Verdict = Skipped | SubDir | Bad | Copied(from: string, to: string) | Ignored

  /** One entry of a directory. */
  method ScanEntry(c: Config, fs: FileSystem, dir: string, name: string, ghost rel: Rel) returns (v: Verdict)
    requires WellFormed(c, fs) && Folder(c, fs, rel) && dir == Path(c, rel)
    requires Opens(fs, dir) && name in fs[dir].names
    ensures v == var x := rel + [name];
      if Folder(c, fs, x) then SubDir
      else if !Regular(c, fs, x) then Skipped
      else if IsUpdater(c, x) then Bad
      else if Marker(c, x) then Ignored
      else Copied(Path(c, x), Target(c, x))
  {
    ghost var x := rel + [name];
    assert Init(x) == rel && Last(x) == name;
    FolderValid(c, fs, rel);
    if rel != [] {
      OutsideTData(c, fs, rel);
    }
    SkipIsTData(c, x);
    SkipIsMarker(c, x);
    SameBinary(c, x);
    PathIsBelow(c, x);
    var root := c.Root();
    var path := dir + [c.Sep()] + name;
    assert path == Path(c, x);
    var tdata := c.TData();
    if |path| >= |tdata| && path[..|tdata|] == tdata && (|path| <= |tdata| || path[|tdata|] == '/') {
      return Skipped;
    }
    if path !in fs { return Skipped; }
    if fs[path].Dir? { return SubDir; }
    var to := c.target + path[|root| + 1..];
    assert path[|root| + 1..] == Below(c, x);
    if Equal(to, c.updaterName) { return Bad; }
    if Equal(to, c.target + c.Binary()) && c.exeName != c.Binary() {
      to := c.target + c.exeName;
    }
    if SkipsReady(c, path) { return Ignored; }
    return Copied(path, to);
  }

  lemma ChildStep(c: Config, fs: FileSystem, rel: Rel, k: nat, x: Rel)
    requires Opens(fs, Path(c, rel)) && k < |fs[Path(c, rel)].names|
    ensures Child(c, fs, rel, k + 1, x) <==> Child(c, fs, rel, k, x) || x == rel + [fs[Path(c, rel)].names[k]]
  {
    var names, y := fs[Path(c, rel)].names, rel + [fs[Path(c, rel)].names[k]];
    assert names[..k + 1] == names[..k] + [names[k]];
    assert Init(y) == rel && Last(y) == names[k];
    if x != [] {
      assert x == Init(x) + [Last(x)];
    }
  }

  lemma ScanStep(c: Config, fs: FileSystem, rel: Rel, k: nat, dirs: seq<Rel>, files: seq<Rel>, dirs': seq<Rel>,
                 files': seq<Rel>)
    requires WellFormed(c, fs) && Opens(fs, Path(c, rel)) && k < |fs[Path(c, rel)].names|
    requires Scanned(c, fs, rel, k, dirs, files)
    requires var x := rel + [fs[Path(c, rel)].names[k]];
      && dirs' == (if Folder(c, fs, x) then dirs + [x] else dirs)
      && files' == (if Wanted(c, fs, x) then files + [x] else files)
      && (Regular(c, fs, x) ==> !IsUpdater(c, x))
    ensures Scanned(c, fs, rel, k + 1, dirs', files')
  {
    hide Folder, Wanted, Regular, IsUpdater;
    var names, x := fs[Path(c, rel)].names, rel + [fs[Path(c, rel)].names[k]];
    assert !Child(c, fs, rel, k, x) by {
      assert Last(x) == names[k];
    }
    assert x !in dirs && x !in files;
    forall y ensures Child(c, fs, rel, k + 1, y) <==> Child(c, fs, rel, k, y) || y == x {
      ChildStep(c, fs, rel, k, y);
    }
    hide Child;
  }

  lemma NoPaths(c: Config)
    ensures PathsOf(c, [], []) && TargetsOf(c, [], [])
  {}

  lemma PathsNext(c: Config, rels: seq<Rel>, paths: seq<string>, x: Rel)
    requires PathsOf(c, rels, paths)
    ensures PathsOf(c, rels + [x], paths + [Path(c, x)])
  {
    hide Path;
  }

  lemma TargetsNext(c: Config, rels: seq<Rel>, paths: seq<string>, x: Rel)
    requires TargetsOf(c, rels, paths)
    ensures TargetsOf(c, rels + [x], paths + [Target(c, x)])
  {
    hide Target;
  }

  method ScanDir(c: Config, fs: FileSystem, dir: string, ghost rel: Rel)
    returns (bad: bool, subdirs: seq<string>, from: seq<string>, to: seq<string>,
             ghost dirs: seq<Rel>, ghost files: seq<Rel>)
    requires WellFormed(c, fs) && Folder(c, fs, rel) && dir == Path(c, rel) && Opens(fs, dir)
    ensures bad ==> exists x :: Regular(c, fs, x) && IsUpdater(c, x)
    ensures !bad ==> Scanned(c, fs, rel, |fs[dir].names|, dirs, files)
    ensures !bad ==> PathsOf(c, dirs, subdirs) && PathsOf(c, files, from) && TargetsOf(c, files, to)
  {
    subdirs, from, to, dirs, files := [], [], [], [], [];
    ScanStart(c, fs, rel);
    NoPaths(c);
    hide Child, Scanned, Target, PathsOf, TargetsOf, Path;
    var names := fs[dir].names;
    for k := 0 to |names|
      invariant Scanned(c, fs, rel, k, dirs, files)
      invariant PathsOf(c, dirs, subdirs) && PathsOf(c, files, from) && TargetsOf(c, files, to)
    {
      var v := ScanEntry(c, fs, dir, names[k], rel);
      ghost var x := rel + [names[k]];
      assert Init(x) == rel && Last(x) == names[k];
      ghost var dirs', files' := dirs, files;
      assert Folder(c, fs, x) ==> !Regular(c, fs, x);
      hide Folder, Regular, Below, IsUpdater, Wanted, Marker;
      PathsNext(c, dirs, subdirs, x);
      PathsNext(c, files, from, x);
      TargetsNext(c, files, to, x);
      match v {
        case Skipped =>
        case Ignored =>
        case Bad => return true, [], [], [], [], [];
        case SubDir =>
          subdirs := subdirs + [dir + [c.Sep()] + names[k]];
          dirs' := dirs + [x];
        case Copied(f, t) =>
          from, to := from + [f], to + [t];
          files' := files + [x];
      }
      ScanStep(c, fs, rel, k, dirs, files, dirs', files');
      dirs, files := dirs', files';
    }
    bad := false;
  }

  lemma ScanStart(c: Config, fs: FileSystem, rel: Rel)
    requires Opens(fs, Path(c, rel))
    ensures Scanned(c, fs, rel, 0, [], [])
  {}

  // ---- The whole tree ----

  predicate Reads(c: Config, fs: FileSystem, p: string) { Opens(fs, p) && (c.windows ==> !fs[p].listing.Breaks?) }

  /** Every directory of the update can be read, and no file of it would replace the updater. */
  ghost predicate Clean(c: Config, fs: FileSystem) {
    && (forall x :: Folder(c, fs, x) ==> Reads(c, fs, Path(c, x)))
    && (forall x :: Regular(c, fs, x) ==> !IsUpdater(c, x))
  }

  ghost predicate ParentFirst(done: seq<Rel>) {
    forall i :: 0 <= i < |done| && done[i] != [] ==> Init(done[i]) in done[..i]
  }

  ghost predicate FoundIn(queue: seq<Rel>, done: seq<Rel>) {
    forall x :: x in queue && x != [] ==> Init(x) in done
  }

  ghost predicate Closed(c: Config, fs: FileSystem, done: seq<Rel>, all: seq<Rel>) {
    forall x :: Folder(c, fs, x) && x != [] && Init(x) in done ==> x in all
  }

  /** The directories already read and those still waiting. */
  ghost predicate Walk(c: Config, fs: FileSystem, done: seq<Rel>, queue: seq<Rel>) {
    && Distinct(done + queue) && |done + queue| > 0 && (done + queue)[0] == []
    && (forall x :: x in done + queue ==> Folder(c, fs, x))
    && (forall x :: x in done ==> Reads(c, fs, Path(c, x)))
    && FoundIn(queue, done) && ParentFirst(done) && Closed(c, fs, done, done + queue)
  }

  ghost predicate Gathered(c: Config, fs: FileSystem, done: seq<Rel>, files: seq<Rel>) {
    && Distinct(files)
    && (forall x :: x in files <==> x != [] && Init(x) in done && Wanted(c, fs, x))
    && (forall x :: x != [] && Init(x) in done && Regular(c, fs, x) ==> !IsUpdater(c, x))
  }

  lemma FolderIsChild(c: Config, fs: FileSystem, x: Rel)
    requires x != [] && (Folder(c, fs, x) || Regular(c, fs, x))
    ensures Opens(fs, Path(c, Init(x)))
    ensures Child(c, fs, Init(x), |fs[Path(c, Init(x))].names|, x)
  {
    var names := fs[Path(c, Init(x))].names;
    assert names[..|names|] == names;
  }

  lemma DistinctConcat(a: seq<Rel>, b: seq<Rel>)
    requires Distinct(a) && Distinct(b) && forall x :: x in b ==> x !in a
    ensures Distinct(a + b)
  {
    forall i, j | 0 <= i < j < |a + b| ensures (a + b)[i] != (a + b)[j] {
      assert i < |a| ==> (a + b)[i] in a;
      assert j >= |a| ==> (a + b)[j] in b;
    }
  }

  lemma WalkStart(c: Config, fs: FileSystem)
    ensures Walk(c, fs, [], [[]]) && Gathered(c, fs, [], [])
  {
    var none: seq<Rel> := [];
    assert none + [[]] == [[]];
  }

  /** What waits, or has been read, was found in a directory read. */
  lemma ParentsDone(c: Config, fs: FileSystem, done: seq<Rel>, queue: seq<Rel>, x: Rel)
    requires Walk(c, fs, done, queue) && x in done + queue && x != []
    ensures Init(x) in done
  {
    hide Folder;
    if x in done {
      var i :| 0 <= i < |done| && done[i] == x;
      assert Init(x) in done[..i];
    }
  }

  lemma NotDone(c: Config, fs: FileSystem, done: seq<Rel>, rel: Rel, rest: seq<Rel>)
    requires Walk(c, fs, done, [rel] + rest)
    ensures rel !in done && rel in done + ([rel] + rest)
  {
    var all := done + ([rel] + rest);
    assert all[|done|] == rel;
    forall i | 0 <= i < |done| ensures done[i] != rel {
      assert all[i] == done[i];
    }
  }

  lemma OrderStep(done: seq<Rel>, rel: Rel)
    requires ParentFirst(done) && (rel != [] ==> Init(rel) in done)
    ensures ParentFirst(done + [rel])
  {
    var d := done + [rel];
    forall i | 0 <= i < |d| && d[i] != [] ensures Init(d[i]) in d[..i] {
      if i < |done| {
        assert d[..i] == done[..i];
      } else {
        assert d[..i] == done;
      }
    }
  }

  lemma ClosedStep(c: Config, fs: FileSystem, done: seq<Rel>, rel: Rel, all: seq<Rel>, dirs: seq<Rel>, files: seq<Rel>)
    requires Closed(c, fs, done, all) && Opens(fs, Path(c, rel))
    requires Scanned(c, fs, rel, |fs[Path(c, rel)].names|, dirs, files)
    ensures Closed(c, fs, done + [rel], all + dirs)
  {
    forall x | Folder(c, fs, x) && x != [] && Init(x) == rel ensures x in dirs {
      FolderIsChild(c, fs, x);
    }
  }

  lemma Regroup<T>(done: seq<T>, next: T, rest: seq<T>, more: seq<T>)
    ensures (done + [next]) + (rest + more) == (done + ([next] + rest)) + more
  {}

  lemma WalkDistinct(c: Config, fs: FileSystem, done: seq<Rel>, rel: Rel, rest: seq<Rel>, dirs: seq<Rel>)
    requires Walk(c, fs, done, [rel] + rest) && Distinct(dirs)
    requires forall x :: x in dirs ==> x != [] && Init(x) == rel
    ensures Distinct((done + [rel]) + (rest + dirs))
  {
    var all := done + ([rel] + rest);
    NotDone(c, fs, done, rel, rest);
    hide Folder, Distinct;
    forall x | x in dirs ensures x !in all {
      if x in all {
        ParentsDone(c, fs, done, [rel] + rest, x);
        assert false;
      }
    }
    assert Distinct(all);
    DistinctConcat(all, dirs);
    Regroup(done, rel, rest, dirs);
  }

  ghost predicate FoldersIn(c: Config, fs: FileSystem, rel: Rel, dirs: seq<Rel>) {
    forall x :: x in dirs ==> x != [] && Init(x) == rel && Folder(c, fs, x)
  }

  lemma ScannedDirs(c: Config, fs: FileSystem, rel: Rel, dirs: seq<Rel>, files: seq<Rel>)
    requires Opens(fs, Path(c, rel)) && Scanned(c, fs, rel, |fs[Path(c, rel)].names|, dirs, files)
    ensures FoldersIn(c, fs, rel, dirs) && Distinct(dirs)
  {}

  lemma FoundStep(c: Config, fs: FileSystem, done: seq<Rel>, rel: Rel, rest: seq<Rel>, dirs: seq<Rel>)
    requires FoundIn([rel] + rest, done) && FoldersIn(c, fs, rel, dirs)
    ensures FoundIn(rest + dirs, done + [rel]) && (rel != [] ==> Init(rel) in done)
  {
    hide Folder;
    assert rel in [rel] + rest;
    forall x | x in rest + dirs && x != [] ensures Init(x) in done + [rel] {
      assert x in rest ==> x in [rel] + rest;
    }
  }

  lemma MembersStep(c: Config, fs: FileSystem, done: seq<Rel>, rel: Rel, rest: seq<Rel>, dirs: seq<Rel>)
    requires FoldersIn(c, fs, rel, dirs) && forall x :: x in done + ([rel] + rest) ==> Folder(c, fs, x)
    ensures forall x :: x in (done + [rel]) + (rest + dirs) ==> Folder(c, fs, x)
  {
    hide Folder;
  }

  lemma WalkStep(c: Config, fs: FileSystem, done: seq<Rel>, rel: Rel, rest: seq<Rel>, dirs: seq<Rel>, files: seq<Rel>)
    requires Walk(c, fs, done, [rel] + rest) && Reads(c, fs, Path(c, rel))
    requires Scanned(c, fs, rel, |fs[Path(c, rel)].names|, dirs, files)
    ensures Walk(c, fs, done + [rel], rest + dirs)
  {
    var all := done + ([rel] + rest);
    Regroup(done, rel, rest, dirs);
    ScannedDirs(c, fs, rel, dirs, files);
    ClosedStep(c, fs, done, rel, all, dirs, files);
    hide Folder, Distinct, Closed, ParentFirst, FoundIn, Scanned, Path;
    WalkDistinct(c, fs, done, rel, rest, dirs);
    FoundStep(c, fs, done, rel, rest, dirs);
    OrderStep(done, rel);
    MembersStep(c, fs, done, rel, rest, dirs);
    hide FoldersIn, Opens;
    assert forall x :: x in done + [rel] ==> Reads(c, fs, Path(c, x));
  }

  lemma GatheredStep(c: Config, fs: FileSystem, done: seq<Rel>, gathered: seq<Rel>, rel: Rel, dirs: seq<Rel>,
                     files: seq<Rel>)
    requires Gathered(c, fs, done, gathered) && rel !in done && Opens(fs, Path(c, rel))
    requires Scanned(c, fs, rel, |fs[Path(c, rel)].names|, dirs, files)
    ensures Gathered(c, fs, done + [rel], gathered + files)
  {
    hide Folder, ListedIn, IsUpdater;
    forall x | x in files ensures x !in gathered {}
    DistinctConcat(gathered, files);
    forall x | x != [] && Init(x) == rel && Regular(c, fs, x) ensures Child(c, fs, rel, |fs[Path(c, rel)].names|, x) {
      FolderIsChild(c, fs, x);
    }
    hide Regular;
  }

  lemma {:induction false} AllDone(c: Config, fs: FileSystem, done: seq<Rel>, x: Rel)
    requires Walk(c, fs, done, []) && Folder(c, fs, x)
    ensures x in done
    decreases |x|
  {
    assert done + [] == done;
    if x != [] {
      AllDone(c, fs, done, Init(x));
    } else {
      assert done[0] == [];
    }
  }

  datatype Outcome = Plan(from: seq<string>, to: seq<string>, forced: seq<string>) | Fails(cleans: bool) | NotReady

  ghost predicate ForcedOf(c: Config, folders: seq<Rel>, forced: seq<string>) {
    |folders| == |forced| && forall i :: 0 <= i < |folders| ==> forced[i] == ForcedDir(c, folders[i])
  }

  /** Every directory is below the top and comes after the one that holds it. */
  ghost predicate AfterParents(folders: seq<Rel>) {
    forall i :: 0 <= i < |folders| ==> folders[i] != [] && (|folders[i]| == 1 || Init(folders[i]) in folders[..i])
  }

  lemma ParentAt(folders: seq<Rel>, i: nat)
    requires AfterParents(folders) && i < |folders|
    ensures folders[i] != [] && (|folders[i]| == 1 || Init(folders[i]) in folders[..i])
  {}

  /** Every wanted file once, with its target; every directory below the top once, after the one that holds it. */
  ghost predicate Complete(c: Config, fs: FileSystem, out: Outcome, folders: seq<Rel>, files: seq<Rel>) {
    && out.Plan? && Distinct(folders) && Distinct(files)
    && (forall x :: x in files <==> Wanted(c, fs, x))
    && (forall x :: x in folders <==> x != [] && Folder(c, fs, x))
    && AfterParents(folders)
    && PathsOf(c, files, out.from) && TargetsOf(c, files, out.to) && ForcedOf(c, folders, out.forced)
  }

  lemma DropTop(done: seq<Rel>)
    requires Distinct(done) && done != [] && done[0] == [] && ParentFirst(done)
    ensures Distinct(done[1..]) && forall x :: x in done[1..] <==> x in done && x != []
    ensures AfterParents(done[1..])
  {
    assert done == [done[0]] + done[1..];
    forall i | 0 <= i < |done[1..]|
      ensures done[1..][i] != [] && (|done[1..][i]| == 1 || Init(done[1..][i]) in done[1..][..i])
    {
      var x := done[1..][i];
      assert x == done[i + 1] && done[0] != done[i + 1];
      assert Init(x) in done[..i + 1];
      assert done[..i + 1] == [done[0]] + done[1..][..i];
    }
  }

  lemma WalkIsComplete(c: Config, fs: FileSystem, done: seq<Rel>, files: seq<Rel>, out: Outcome)
    requires Walk(c, fs, done, []) && Gathered(c, fs, done, files)
    requires out.Plan? && PathsOf(c, files, out.from) && TargetsOf(c, files, out.to) && ForcedSoFar(c, done, out.forced)
    requires done != []
    ensures Complete(c, fs, out, done[1..], files) && Clean(c, fs)
  {
    NothingMissed(c, fs, done);
    assert done + [] == done;
    hide Folder, Regular, Target, IsUpdater, PathsOf, TargetsOf, ForcedOf, Path, Below, Reads;
    DropTop(done);
    hide Distinct;
  }

  lemma NothingMissed(c: Config, fs: FileSystem, done: seq<Rel>)
    requires Walk(c, fs, done, [])
    ensures forall x :: Folder(c, fs, x) ==> x in done
    ensures forall x :: Regular(c, fs, x) ==> x != [] && Init(x) in done
  {
    hide Walk;
    forall x | Folder(c, fs, x) ensures x in done {
      AllDone(c, fs, done, x);
    }
    forall x | Regular(c, fs, x) ensures x != [] && Init(x) in done {
      assert Folder(c, fs, Init(x));
    }
  }

  lemma PathsConcat(c: Config, a: seq<Rel>, p: seq<string>, b: seq<Rel>, q: seq<string>)
    ensures PathsOf(c, a, p) && PathsOf(c, b, q) ==> PathsOf(c, a + b, p + q)
    ensures TargetsOf(c, a, p) && TargetsOf(c, b, q) ==> TargetsOf(c, a + b, p + q)
  {
    hide Path, Target;
  }

  lemma PathsPop(c: Config, rels: seq<Rel>, paths: seq<string>)
    requires PathsOf(c, rels, paths) && paths != []
    ensures rels != [] && paths[0] == Path(c, rels[0]) &&
      PathsOf(c, rels[1..], paths[1..]) && rels == [rels[0]] + rels[1..]
  {
    hide Path;
  }

  ghost predicate Visited(c: Config, visited: set<string>, done: seq<Rel>) {
    forall p :: p in visited ==> exists x :: x in done && Path(c, x) == p
  }

  lemma VisitedStep(c: Config, visited: set<string>, done: seq<Rel>, rel: Rel)
    requires Visited(c, visited, done)
    ensures Visited(c, visited + {Path(c, rel)}, done + [rel])
  {
    hide Path;
    forall p | p in visited + {Path(c, rel)} ensures exists x :: x in done + [rel] && Path(c, x) == p {
      if p in visited {
        var x :| x in done && Path(c, x) == p;
        assert x in done + [rel];
      } else {
        assert rel in done + [rel];
      }
    }
  }

  /** Lists the update. A plan comes out if and only if all of it can be read and has no updater. */
  method Enumerate(c: Config, fs: FileSystem) returns (out: Outcome, ghost folders: seq<Rel>, ghost files: seq<Rel>)
    requires WellFormed(c, fs)
    ensures out.Plan? <==> Clean(c, fs)
    ensures out.Plan? ==> Complete(c, fs, out, folders, files)
    ensures out.NotReady? ==> c.windows && exists x :: Folder(c, fs, x) && !Opens(fs, Path(c, x))
    ensures out == Fails(false) ==> !c.windows && exists x :: Folder(c, fs, x) && !Opens(fs, Path(c, x))
    ensures out == Fails(true) ==>
      || (exists x :: Regular(c, fs, x) && IsUpdater(c, x))
      || (c.windows && exists x :: Folder(c, fs, x) && !Reads(c, fs, Path(c, x)))
  {
    var dirs := [c.Root()];
    var from, to, forced: seq<string> := [], [], [];
    ghost var done: seq<Rel>, queue: seq<Rel>, gathered: seq<Rel>, visited: set<string> := [], [[]], [], {};
    WalkStart(c, fs);
    assert dirs == [Path(c, [])];
    assert PathsOf(c, queue, dirs) && PathsOf(c, gathered, from) && TargetsOf(c, gathered, to) &&
      Visited(c, visited, done);
    hide Walk, Gathered, Folder, Regular, Child, Target, Scanned, Clean, Complete, IsUpdater,
         Path, Below, PathsOf, TargetsOf,
         ForcedSoFar, Visited;
    while dirs != []
      invariant Walk(c, fs, done, queue) && Gathered(c, fs, done, gathered)
      invariant PathsOf(c, queue, dirs) && PathsOf(c, gathered, from) && TargetsOf(c, gathered, to)
      invariant ForcedSoFar(c, done, forced)
      invariant visited <= fs.Keys && Visited(c, visited, done)
      decreases |fs.Keys - visited|
    {
      PathsPop(c, queue, dirs);
      var dir := dirs[0];
      dirs := dirs[1..];
      ghost var rel, rest := queue[0], queue[1..];
      PopFacts(c, fs, done, rel, rest, visited);
      ghost var before := forced;
      if |dir| > |c.Root()| + 1 {
        var toDir := c.target + dir[|c.Root()| + 1..] + [c.Sep()];
        forced := forced + [toDir];
      }
      ForcedStep(c, done, rel, before, forced);
      if dir !in fs || !fs[dir].Dir? || fs[dir].listing.CannotOpen? {
        out := if !c.windows then Fails(false)
               else if dir !in fs || !fs[dir].Dir? || fs[dir].listing.missing then NotReady else Fails(true);
        assert Folder(c, fs, rel) && !Opens(fs, Path(c, rel));
        NotClean(c, fs, rel);
        folders, files := [], [];
        return;
      }
      var bad, subdirs, from', to', dirs', files' := ScanDir(c, fs, dir, rel);
      if bad {
        BadIsNotClean(c, fs);
        return Fails(true), [], [];
      }
      if c.windows && fs[dir].listing.Breaks? {
        assert Folder(c, fs, rel) && !Reads(c, fs, Path(c, rel));
        NotClean(c, fs, rel);
        return Fails(true), [], [];
      }
      WalkStep(c, fs, done, rel, rest, dirs', files');
      GatheredStep(c, fs, done, gathered, rel, dirs', files');
      VisitedStep(c, visited, done, rel);
      Shrinks(fs.Keys, visited, dir);
      PathsConcat(c, rest, dirs, dirs', subdirs);
      PathsConcat(c, gathered, from, files', from');
      PathsConcat(c, gathered, to, files', to');
      dirs, from, to := dirs + subdirs, from + from', to + to';
      done, queue, gathered := done + [rel], rest + dirs', gathered + files';
      visited := visited + {dir};
    }
    QueueEmpty(c, queue, dirs);
    out := Plan(from, to, forced);
    WalkNonEmpty(c, fs, done);
    WalkIsComplete(c, fs, done, gathered, out);
    folders, files := done[1..], gathered;
  }

  lemma QueueEmpty(c: Config, queue: seq<Rel>, dirs: seq<string>)
    requires PathsOf(c, queue, dirs) && dirs == []
    ensures queue == []
  {}

  lemma NotClean(c: Config, fs: FileSystem, x: Rel)
    requires Folder(c, fs, x) && !Reads(c, fs, Path(c, x))
    ensures !Clean(c, fs)
  {}

  lemma BadIsNotClean(c: Config, fs: FileSystem)
    requires exists x :: Regular(c, fs, x) && IsUpdater(c, x)
    ensures !Clean(c, fs)
  {}

  lemma WalkNonEmpty(c: Config, fs: FileSystem, done: seq<Rel>)
    requires Walk(c, fs, done, [])
    ensures done != []
  {
    assert done + [] == done;
  }

  lemma PopFacts(c: Config, fs: FileSystem, done: seq<Rel>, rel: Rel, rest: seq<Rel>, visited: set<string>)
    requires WellFormed(c, fs) && Walk(c, fs, done, [rel] + rest)
    requires Visited(c, visited, done)
    ensures Folder(c, fs, rel) && rel !in done && (done == [] <==> rel == [])
    ensures Path(c, rel) !in visited
    ensures rel == [] ==> Path(c, rel) == c.Root()
    ensures rel != [] ==> |Path(c, rel)| > |c.Root()| + 1
    ensures rel != [] ==> c.target + Path(c, rel)[|c.Root()| + 1..] + [c.Sep()] == ForcedDir(c, rel)
  {
    var all := done + ([rel] + rest);
    NotDone(c, fs, done, rel, rest);
    assert all[|done|] == rel;
    assert done != [] ==> all[0] == done[0] && all[0] != all[|done|];
    FolderValid(c, fs, rel);
    if Path(c, rel) in visited {
      var x :| x in done && Path(c, x) == Path(c, rel);
      assert x in all;
      FolderValid(c, fs, x);
      PathInjective(c, x, rel);
    }
    if rel != [] {
      PathIsBelow(c, rel);
      BelowStarts(c, rel);
      assert rel[0] in rel;
    }
  }

  ghost predicate ForcedSoFar(c: Config, done: seq<Rel>, forced: seq<string>) {
    if done == [] then forced == [] else ForcedOf(c, done[1..], forced)
  }

  lemma ForcedStep(c: Config, done: seq<Rel>, rel: Rel, before: seq<string>, after: seq<string>)
    requires (done == [] <==> rel == []) && ForcedSoFar(c, done, before)
    requires rel == [] ==> after == before
    requires rel != [] ==> after == before + [ForcedDir(c, rel)]
    ensures ForcedSoFar(c, done + [rel], after)
  {
    if done != [] {
      assert (done + [rel])[1..] == done[1..] + [rel];
    }
  }

  lemma Shrinks(all: set<string>, visited: set<string>, p: string)
    requires p in all && p !in visited
    ensures |all - (visited + {p})| < |all - visited|
  {
    assert all - visited == (all - (visited + {p})) + {p};
  }

  // ---- What the plan is good for ----

  predicate Renamed(c: Config, rel: Rel) { IsBinary(c, rel) && c.exeName != c.Binary() }

  /** Two files are copied to one place only if both are taken for the binary, or one is and the other already has
      the name the binary is to get. */
  lemma TargetsCollide(c: Config, a: Rel, b: Rel)
    requires ValidRel(c, a) && ValidRel(c, b) && a != [] && b != [] && a != b
    ensures Target(c, a) == Target(c, b) <==>
      || (Renamed(c, a) && Renamed(c, b))
      || (Renamed(c, a) && Below(c, b) == c.exeName)
      || (Renamed(c, b) && Below(c, a) == c.exeName)
  {
    var x := if Renamed(c, a) then c.exeName else Below(c, a);
    var y := if Renamed(c, b) then c.exeName else Below(c, b);
    assert x == Target(c, a)[|c.target|..] && y == Target(c, b)[|c.target|..];
    if Below(c, a) == Below(c, b) {
      BelowInjective(c, a, b);
    }
    if !Renamed(c, a) && !Renamed(c, b) {
      assert Below(c, a) != Below(c, b);
    }
  }

  /** An update with the binary and a file that has the name the binary is to get: both are copied to one place. */
  lemma CollidingUpdate()
    ensures var c := Config(false, "u/", true, "opt/", "tg", "opt/Updater");
      var fs := map["u/temp" := Dir(["Telegram", "tg"], Listed), "u/temp/Telegram" := File, "u/temp/tg" := File];
      && Wanted(c, fs, ["Telegram"]) && Wanted(c, fs, ["tg"])
      && Target(c, ["Telegram"]) == "opt/tg" == Target(c, ["tg"])
  {
    var c := Config(false, "u/", true, "opt/", "tg", "opt/Updater");
    var fs := map["u/temp" := Dir(["Telegram", "tg"], Listed), "u/temp/Telegram" := File, "u/temp/tg" := File];
    assert c.Root() == "u/temp";
    assert Init(["Telegram"]) == [] && Init(["tg"]) == [];
    assert Path(c, ["Telegram"]) == "u/temp/Telegram" && Path(c, ["tg"]) == "u/temp/tg";
    assert fs["u/temp"].names[0] == "Telegram" && fs["u/temp"].names[1] == "tg";
    assert Folder(c, fs, []);
    assert Equal("Telegram", "Telegram");
    assert !Equal("tg", "Telegram") by { assert |Lowered("tg")| != |Lowered("Telegram")|; }
  }

  // ---- Making a path ----

  predicate EndsName(path: string, i: nat) { 0 < i < |path| && path[i] == '/' && path[i - 1] != '/' }

  function Prefixes(path: string, n: nat): seq<string>
    requires n <= |path|
  {
    if n == 0 then []
    else Prefixes(path, n - 1) + (if EndsName(path, n - 1) then [path[..n - 1]] else [])
  }

  /** All the directories made are prefixes that end a name, shorter ones first, and none is left out. */
  lemma {:induction false} PrefixesAre(path: string, n: nat)
    requires n <= |path|
    ensures forall p :: p in Prefixes(path, n) <==> exists i :: 0 <= i < n && EndsName(path, i) && p == path[..i]
    ensures forall i, j :: 0 <= i < j < |Prefixes(path, n)| ==> |Prefixes(path, n)[i]| < |Prefixes(path, n)[j]|
  {
    if n > 0 {
      PrefixesAre(path, n - 1);
      var init := Prefixes(path, n - 1);
      forall i | 0 <= i < |init| ensures |init[i]| < n - 1 {
        assert init[i] in init;
      }
    }
  }

  /** What the disk does: whether a directory can be made after those made before, whether what is at a target can be
      cleared away, and whether copying succeeds within the tries allowed. */
  datatype Disk = Disk(makes: (seq<string>, string) -> bool, clears: string -> bool, copies: (string, string) -> bool)

  /** One directory after the other can be made. */
  predicate MakesAll(d: Disk, before: seq<string>, dirs: seq<string>) {
    forall i :: 0 <= i < |dirs| ==> d.makes(before + dirs[..i], dirs[i])
  }

  lemma MakesMore(d: Disk, before: seq<string>, first: seq<string>, rest: seq<string>)
    ensures MakesAll(d, before, first + rest) <==> MakesAll(d, before, first) && MakesAll(d, before + first, rest)
  {
    var dirs := first + rest;
    forall i | 0 <= i < |first| ensures before + dirs[..i] == before + first[..i] && dirs[i] == first[i] {
      assert dirs[..i] == first[..i];
    }
    forall i | 0 <= i < |rest|
      ensures before + dirs[..|first| + i] == before + first + rest[..i] && dirs[|first| + i] == rest[i]
    {
      assert dirs[..|first| + i] == first + rest[..i];
    }
    if MakesAll(d, before, dirs) {
      forall i | 0 <= i < |rest| ensures d.makes(before + first + rest[..i], rest[i]) {
        assert d.makes(before + dirs[..|first| + i], dirs[|first| + i]);
      }
    }
    if MakesAll(d, before, first) && MakesAll(d, before + first, rest) {
      forall i | 0 <= i < |dirs| ensures d.makes(before + dirs[..i], dirs[i]) {
        if i >= |first| {
          assert d.makes(before + first + rest[..i - |first|], rest[i - |first|]);
        }
      }
    }
  }

  /** Every directory named on the way to a path, and the path itself. */
  function Chain(path: string): seq<string> { Prefixes(path, |path|) + [path] }

  lemma MakesStep(d: Disk, before: seq<string>, dirs: seq<string>, n: nat)
    requires n < |dirs| && MakesAll(d, before, dirs[..n])
    ensures d.makes(before + dirs[..n], dirs[n]) <==> MakesAll(d, before, dirs[..n + 1])
    ensures !d.makes(before + dirs[..n], dirs[n]) ==> !MakesAll(d, before, dirs)
  {
    MakesMore(d, before, dirs[..n], [dirs[n]]);
    assert dirs[..n + 1] == dirs[..n] + [dirs[n]];
    assert [dirs[n]][..0] == [] && before + dirs[..n] + [] == before + dirs[..n];
  }

  /** Makes the directories of a path one after the other, up to the first that cannot be made. */
  method MkPath(path: string, d: Disk, before: seq<string>) returns (ok: bool, made: seq<string>)
    ensures ok <==> MakesAll(d, before, Chain(path))
    ensures made <= Chain(path) && (ok ==> made == Chain(path))
    ensures !ok ==> |made| < |Chain(path)| && !d.makes(before + made, Chain(path)[|made|])
  {
    hide MakesAll;
    made := [];
    ghost var all := Chain(path);
    MakesNone(d, before);
    var start := 0;
    for i := 0 to |path|
      invariant start <= i && (start > 0 ==> path[start - 1] == '/')
      invariant forall j :: start <= j < i ==> path[j] != '/'
      invariant made == Prefixes(path, i) && MakesAll(d, before, made)
    {
      PrefixesGrow(path, i + 1, |path|);
      if path[i] == '/' {
        if i != start {
          assert EndsName(path, i);
          assert Prefixes(path, i + 1) == made + [path[..i]] && Prefixes(path, i + 1) <= all;
          assert made == all[..|made|] && all[|made|] == path[..i];
          MakesStep(d, before, all, |made|);
          if !d.makes(before + made, path[..i]) { return false, made; }
          made := made + [path[..i]];
          assert made == all[..|made|];
        }
        start := i + 1;
      }
    }
    assert made == all[..|made|] && all[|made|] == path && all[..|all|] == all;
    MakesStep(d, before, all, |made|);
    ok := d.makes(before + made, path);
    if ok {
      made := made + [path];
    }
  }

  lemma MakesOne(d: Disk, before: seq<string>, dir: string)
    ensures MakesAll(d, before, [dir]) <==> d.makes(before, dir)
  {
    assert before + [dir][..0] == before;
  }

  lemma MakesNone(d: Disk, before: seq<string>)
    ensures MakesAll(d, before, [])
  {}

  lemma {:induction false} PrefixesGrow(path: string, n: nat, m: nat)
    requires n <= m <= |path|
    ensures Prefixes(path, n) <= Prefixes(path, m)
  {
    if n < m {
      PrefixesGrow(path, n, m - 1);
    }
  }

  // ---- The update ----

  function Pairs(from: seq<string>, to: seq<string>): seq<(string, string)>
    requires |from| == |to|
  {
    seq(|from|, i requires 0 <= i < |from| => (from[i], to[i]))
  }

  /** The directories made for those of the plan: on Linux with all above them, on Windows they alone. */
  function Forced(c: Config, forced: seq<string>): seq<string> {
    if forced == [] then [] else Forced(c, forced[..|forced| - 1]) + MadeFor(c, forced[|forced| - 1])
  }

  function MadeFor(c: Config, dir: string): seq<string> { if c.windows then [dir] else Chain(dir) }

  lemma ForcedNext(c: Config, d: Disk, before: seq<string>, forced: seq<string>, i: nat)
    requires i < |forced| && MakesAll(d, before, Forced(c, forced[..i]))
    ensures var done, next := Forced(c, forced[..i]), MadeFor(c, forced[i]);
      && Forced(c, forced[..i + 1]) == done + next && done + next <= Forced(c, forced)
      && (MakesAll(d, before + done, next) <==> MakesAll(d, before, done + next))
      && (!MakesAll(d, before + done, next) ==> !MakesAll(d, before, Forced(c, forced)))
  {
    hide MakesAll, MadeFor;
    var done, next, all := Forced(c, forced[..i]), MadeFor(c, forced[i]), Forced(c, forced);
    ForcedGrows(c, forced, i + 1);
    assert forced[..i + 1][..i] == forced[..i];
    MakesMore(d, before, done, next);
    MakesMore(d, before, done + next, all[|done + next|..]);
    assert all == done + next + all[|done + next|..];
  }

  lemma {:induction false} ForcedGrows(c: Config, forced: seq<string>, n: nat)
    requires n <= |forced|
    ensures Forced(c, forced[..n]) <= Forced(c, forced)
    decreases |forced| - n
  {
    if n < |forced| {
      ForcedGrows(c, forced, n + 1);
      assert forced[..n + 1][..n] == forced[..n];
    } else {
      assert forced[..n] == forced;
    }
  }

  lemma ForcedNone(c: Config)
    ensures forall forced: seq<string> :: forced == [] ==> Forced(c, forced) == []
  {}

  lemma {:induction false} ForcedOnWindows(c: Config, forced: seq<string>)
    requires c.windows
    ensures Forced(c, forced) == forced
  {
    if forced != [] {
      ForcedOnWindows(c, forced[..|forced| - 1]);
    }
  }

  /** A disk on which making a directory fails only for want of the one above it; the target itself is there. */
  ghost predicate NeedsOnlyParents(c: Config, d: Disk) {
    forall made: seq<string>, rel: Rel :: ParentMade(c, made, rel) ==> d.makes(made, ForcedDir(c, rel))
  }

  predicate ParentMade(c: Config, made: seq<string>, rel: Rel) {
    rel != [] && (|rel| == 1 || ForcedDir(c, Init(rel)) in made)
  }

  lemma ParentSuffices(c: Config, d: Disk, made: seq<string>, rel: Rel)
    requires NeedsOnlyParents(c, d) && ParentMade(c, made, rel)
    ensures d.makes(made, ForcedDir(c, rel))
  {
    hide ParentMade, ForcedDir;
  }

  /** On such a disk making one level at a time, as Windows does, makes every directory of a plan, and then the
      directory of every file is there. */
  lemma SingleLevelSuffices(c: Config, fs: FileSystem, out: Outcome, folders: seq<Rel>, files: seq<Rel>, d: Disk,
                            before: seq<string>)
    requires c.windows && Complete(c, fs, out, folders, files) && NeedsOnlyParents(c, d)
    ensures MakesAll(d, before, Forced(c, out.forced))
    ensures forall x :: x in files ==> ParentMade(c, Forced(c, out.forced), x)
  {
    ForcedOnWindows(c, out.forced);
    assert AfterParents(folders) && ForcedOf(c, folders, out.forced);
    forall x | x in files ensures ParentMade(c, out.forced, x) {
      assert Wanted(c, fs, x);
      FileHasParent(c, fs, folders, out.forced, x);
    }
    hide *;
    LevelsMade(c, folders, out.forced, d, before);
  }

  lemma LevelsMade(c: Config, folders: seq<Rel>, forced: seq<string>, d: Disk, before: seq<string>)
    requires AfterParents(folders) && ForcedOf(c, folders, forced) && NeedsOnlyParents(c, d)
    ensures MakesAll(d, before, forced)
  {
    forall i | 0 <= i < |forced| ensures d.makes(before + forced[..i], forced[i]) {
      assert forced[i] == ForcedDir(c, folders[i]);
      hide *;
      ParentForced(c, folders, forced, i, before);
      ParentSuffices(c, d, before + forced[..i], folders[i]);
    }
  }

  lemma ParentForced(c: Config, folders: seq<Rel>, forced: seq<string>, i: nat, before: seq<string>)
    requires AfterParents(folders) && ForcedOf(c, folders, forced) && i < |folders|
    ensures ParentMade(c, before + forced[..i], folders[i])
  {
    hide ForcedDir, ForcedOf, AfterParents;
    ParentAt(folders, i);
    if |folders[i]| > 1 {
      ForcedWith(c, folders, forced, i, Init(folders[i]));
    }
  }

  lemma FileHasParent(c: Config, fs: FileSystem, folders: seq<Rel>, forced: seq<string>, x: Rel)
    requires ForcedOf(c, folders, forced) && Wanted(c, fs, x)
    requires forall y :: y != [] && Folder(c, fs, y) ==> y in folders
    ensures ParentMade(c, forced, x)
  {
    WantedIn(c, fs, x);
    hide ForcedDir, Wanted, Folder;
    if |x| > 1 {
      assert folders[..|folders|] == folders && forced[..|forced|] == forced;
      hide ForcedOf;
      ForcedWith(c, folders, forced, |folders|, Init(x));
    }
  }

  lemma WantedIn(c: Config, fs: FileSystem, x: Rel)
    requires Wanted(c, fs, x)
    ensures x != [] && Folder(c, fs, Init(x))
  {}

  lemma ForcedWith(c: Config, folders: seq<Rel>, forced: seq<string>, n: nat, rel: Rel)
    requires ForcedOf(c, folders, forced) && n <= |folders| && rel in folders[..n]
    ensures ForcedDir(c, rel) in forced[..n]
  {
    hide ForcedDir;
    var j :| 0 <= j < n && folders[..n][j] == rel;
    assert forced[..n][j] == ForcedDir(c, rel);
  }

  predicate Copies(c: Config, d: Disk, from: string, to: string) {
    (c.windows || d.clears(to)) && d.copies(from, to)
  }

  class Updater {
    const c: Config
    /** The directories made and the files copied so far, and how often the folder of updates was deleted. */
    var made: seq<string>
    var copied: seq<(string, string)>
    var cleaned: nat

    constructor (config: Config)
      ensures c == config && made == [] && copied == [] && cleaned == 0
    {
      c, made, copied, cleaned := config, [], [], 0;
    }

    method ForceDir(dir: string, d: Disk) returns (ok: bool)
      modifies this`made
      ensures ok <==> MakesAll(d, old(made), MadeFor(c, dir))
      ensures exists new_ :: new_ <= MadeFor(c, dir) && made == old(made) + new_ && (ok ==> new_ == MadeFor(c, dir))
    {
      hide MakesAll, Prefixes;
      if c.windows {
        MakesOne(d, made, dir);
        ok := d.makes(made, dir);
        assert [] <= MadeFor(c, dir) && made == made + [];
        if ok {
          made := made + [dir];
        }
      } else {
        var new_;
        ok, new_ := MkPath(dir, d, made);
        made := made + new_;
      }
    }

    method ForceDirs(forced: seq<string>, d: Disk) returns (ok: bool)
      modifies this`made
      ensures ok <==> MakesAll(d, old(made), Forced(c, forced))
      ensures old(made) <= made <= old(made) + Forced(c, forced)
      ensures ok ==> made == old(made) + Forced(c, forced)
    {
      hide MakesAll, MadeFor, Forced;
      ForcedNone(c);
      MakesNone(d, made);
      for i := 0 to |forced|
        invariant made == old(made) + Forced(c, forced[..i]) && MakesAll(d, old(made), Forced(c, forced[..i]))
      {
        ForcedNext(c, d, old(made), forced, i);
        ok := ForceDir(forced[i], d);
        if !ok { return false; }
      }
      assert forced[..|forced|] == forced;
      ok := true;
    }

    method CopyFiles(from: seq<string>, to: seq<string>, d: Disk) returns (ok: bool)
      requires |from| == |to|
      modifies this`copied
      ensures ok <==> forall i :: 0 <= i < |from| ==> Copies(c, d, from[i], to[i])
      ensures exists n: nat :: n <= |from| && copied == old(copied) + Pairs(from, to)[..n] && (ok ==> n == |from|)
    {
      for i := 0 to |from|
        invariant copied == old(copied) + Pairs(from, to)[..i]
        invariant forall j :: 0 <= j < i ==> Copies(c, d, from[j], to[j])
      {
        if !c.windows {
          if !d.clears(to[i]) {
            assert !Copies(c, d, from[i], to[i]);
            return false;
          }
        }
        if !d.copies(from[i], to[i]) {
          assert !Copies(c, d, from[i], to[i]);
          return false;
        }
        copied := copied + [(from[i], to[i])];
        assert Pairs(from, to)[..i + 1] == Pairs(from, to)[..i] + [(from[i], to[i])];
      }
      assert Pairs(from, to)[..|from|] == Pairs(from, to);
      ok := true;
    }

    /** Nothing is made or copied unless the whole update was read and has no updater; on success everything of the
        plan is there, and only on success. */
    method Update(fs: FileSystem, d: Disk)
      returns (ok: bool, ghost plan: Outcome, ghost folders: seq<Rel>, ghost files: seq<Rel>)
      requires WellFormed(c, fs)
      modifies this
      ensures plan.Plan? <==> Clean(c, fs)
      ensures !plan.Plan? ==> made == old(made) && copied == old(copied) && (ok <==> plan.NotReady?)
      ensures plan.Plan? ==> Complete(c, fs, plan, folders, files) && |plan.from| == |plan.to|
      ensures plan.Plan? ==>
        (ok <==>
          (&& MakesAll(d, old(made), Forced(c, plan.forced))
           && (forall i :: 0 <= i < |plan.from| ==> Copies(c, d, plan.from[i], plan.to[i]))))
      ensures plan.Plan? && ok ==>
        made == old(made) + Forced(c, plan.forced) && copied == old(copied) + Pairs(plan.from, plan.to)
      ensures copied != old(copied) ==> plan.Plan? && made == old(made) + Forced(c, plan.forced)
      ensures cleaned == old(cleaned) + if plan.Plan? || plan == Fails(true) then 1 else 0
    {
      var out;
      out, folders, files := Enumerate(c, fs);
      plan := out;
      match out {
        case NotReady => return true, plan, folders, files;
        case Fails(cleans) =>
          if cleans { cleaned := cleaned + 1; }
          return false, plan, folders, files;
        case Plan(from, to, forced) =>
          hide Clean, Copies, MakesAll, WellFormed, Forced;
          assert |from| == |to|;
          hide Complete;
          ok := ForceDirs(forced, d);
          if ok {
            ok := CopyFiles(from, to, d);
            assert ok ==> Pairs(from, to)[..|from|] == Pairs(from, to);
          }
          cleaned := cleaned + 1;
      }
    }
  }
}
