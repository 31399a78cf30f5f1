/** `create_data_files` of construct.py: the manifest builder. It reads a
    mapping from dataset name to directory, walks every directory that
    exists, keeps the `.obj` files, optionally rewrites their paths
    relative to a server root, truncates each list to a sample cap and
    returns the dataset name -> path list mapping. */
module Construct {
  import opened Wrappers
  import opened Dicts
  import opened PosixPath

  /** One `(root, dirs, files)` triple yielded by `os.walk`; the names of
      the sub-directories only steer the walk, whose order is an input. */
  datatype WalkStep = WalkStep(root: string, files: seq<string>)

  /** What the builder observes of the machine it runs on. */
  datatype FileSystem = FileSystem(
    // the paths for which `os.path.exists` holds
    existing: set<string>,
    // what `os.walk(p)` yields, for the paths where it yields anything
    walks: map<string, seq<WalkStep>>,
    // the files that `json.load` reads as an object of strings
    documents: map<string, Dict<string>>,
    // `os.path.relpath(path, start)`; None where it raises ValueError
    relpath: (string, string) -> Option<string>)

  predicate Exists(fs: FileSystem, path: string) {
    path in fs.existing
  }

  function Walk(fs: FileSystem, path: string): seq<WalkStep> {
    if path in fs.walks then fs.walks[path] else []
  }

  /** The dataset name -> directory mapping. */
  type Sources = Dict<string>

  /** The dataset name -> path list mapping written to data_files.json. */
  type Manifest = Dict<seq<string>>

  /** The `use_relative_paths` and `server_root` arguments. */
  datatype PathOptions = PathOptions(useRelativePaths: bool, serverRoot: Option<string>)

  /** The exceptions `create_data_files` raises. */
  datatype BuildError =
    | BothSourcesGiven              // the ValueError of line 16
    | SourceFileMissing(path: string)   // the failed assert of line 20
    | SourceFileUnreadable(path: string) // `open`/`json.load` failing on an existing path

  /** Python truthiness of an optional string. */
  predicate Truthy(s: Option<string>) {
    s.Some? && s.value != ""
  }

  /** Lines 40-46: the path that gets recorded for one collected file. A
      path is replaced only by what a successful `relpath` against a truthy
      server root returns. */
  function Convert(fs: FileSystem, opts: PathOptions, path: string): (r: string)
    ensures r != path ==>
      opts.useRelativePaths && Truthy(opts.serverRoot) && fs.relpath(path, opts.serverRoot.value) == Some(r)
    ensures opts.useRelativePaths && Truthy(opts.serverRoot) && fs.relpath(path, opts.serverRoot.value).Some? ==>
      r == fs.relpath(path, opts.serverRoot.value).value
  {
    if opts.useRelativePaths && Truthy(opts.serverRoot) then
      match fs.relpath(path, opts.serverRoot.value)
      case Some(rel) => rel
      case None => path
    else path
  }

  predicate IsObjName(name: string) {
    EndsWith(name, ".obj")
  }

  /** The paths collected from one walk step, in listed order (lines 35-48). */
  function StepPaths(fs: FileSystem, opts: PathOptions, root: string, files: seq<string>): seq<string> {
    if files == [] then []
    else
      (if IsObjName(files[0]) then [Convert(fs, opts, Join(root, files[0]))] else [])
      + StepPaths(fs, opts, root, files[1..])
  }

  /** The paths collected from a whole walk, step after step (lines 33-48). */
  function ObjPaths(fs: FileSystem, opts: PathOptions, walk: seq<WalkStep>): seq<string> {
    if walk == [] then []
    else StepPaths(fs, opts, walk[0].root, walk[0].files) + ObjPaths(fs, opts, walk[1..])
  }

  lemma {:induction false} StepPathsConcat(fs: FileSystem, opts: PathOptions, root: string, a: seq<string>, b: seq<string>)
    ensures StepPaths(fs, opts, root, a + b) == StepPaths(fs, opts, root, a) + StepPaths(fs, opts, root, b)
  {
    if a != [] {
      assert (a + b)[0] == a[0] && (a + b)[1..] == a[1..] + b;
      var head := if IsObjName(a[0]) then [Convert(fs, opts, Join(root, a[0]))] else [];
      var rest, tail := StepPaths(fs, opts, root, a[1..]), StepPaths(fs, opts, root, b);
      assert StepPaths(fs, opts, root, a + b) == head + StepPaths(fs, opts, root, a[1..] + b);
      assert StepPaths(fs, opts, root, a) == head + rest;
      StepPathsConcat(fs, opts, root, a[1..], b);
      assert head + (rest + tail) == (head + rest) + tail;
    } else {
      assert a + b == b;
    }
  }

  /** Walk order is kept: what an earlier part of the walk yields comes
      first, in full. */
  lemma {:induction false} ObjPathsConcat(fs: FileSystem, opts: PathOptions, a: seq<WalkStep>, b: seq<WalkStep>)
    ensures ObjPaths(fs, opts, a + b) == ObjPaths(fs, opts, a) + ObjPaths(fs, opts, b)
  {
    if a != [] {
      assert (a + b)[0] == a[0] && (a + b)[1..] == a[1..] + b;
      ObjPathsConcat(fs, opts, a[1..], b);
    } else {
      assert a + b == b;
    }
  }

  /** The directory-and-name pairs of one walk step, in listed order. */
  function StepEntries(root: string, files: seq<string>): (r: seq<(string, string)>)
    ensures |r| == |files|
    ensures forall j :: 0 <= j < |files| ==> r[j] == (root, files[j])
  {
    seq(|files|, j requires 0 <= j < |files| => (root, files[j]))
  }

  /** Every directory-and-name pair of a walk, in walk order. */
  function Listing(walk: seq<WalkStep>): (r: seq<(string, string)>)
    ensures forall e :: e in r <==>
      exists i, j :: 0 <= i < |walk| && 0 <= j < |walk[i].files| && e == (walk[i].root, walk[i].files[j])
  {
    if walk == [] then []
    else StepEntries(walk[0].root, walk[0].files) + Listing(walk[1..])
  }

  /** The listed pairs whose name ends with `.obj`, in order. */
  function ObjEntries(entries: seq<(string, string)>): (r: seq<(string, string)>)
    ensures forall e :: e in r <==> e in entries && IsObjName(e.1)
  {
    if entries == [] then []
    else (if IsObjName(entries[0].1) then [entries[0]] else []) + ObjEntries(entries[1..])
  }

  function PathsOf(fs: FileSystem, opts: PathOptions, entries: seq<(string, string)>): (r: seq<string>)
    ensures |r| == |entries|
    ensures forall k :: 0 <= k < |entries| ==> r[k] == Convert(fs, opts, Join(entries[k].0, entries[k].1))
  {
    seq(|entries|, k requires 0 <= k < |entries| => Convert(fs, opts, Join(entries[k].0, entries[k].1)))
  }

  lemma PathsOfConcat(fs: FileSystem, opts: PathOptions, a: seq<(string, string)>, b: seq<(string, string)>)
    ensures PathsOf(fs, opts, a + b) == PathsOf(fs, opts, a) + PathsOf(fs, opts, b)
  {
  }

  lemma {:induction false} ObjEntriesConcat(a: seq<(string, string)>, b: seq<(string, string)>)
    ensures ObjEntries(a + b) == ObjEntries(a) + ObjEntries(b)
  {
    if a != [] {
      assert (a + b)[0] == a[0] && (a + b)[1..] == a[1..] + b;
      ObjEntriesConcat(a[1..], b);
    } else {
      assert a + b == b;
    }
  }

  lemma {:induction false} StepPathsAsFilter(fs: FileSystem, opts: PathOptions, root: string, files: seq<string>)
    ensures StepPaths(fs, opts, root, files) == PathsOf(fs, opts, ObjEntries(StepEntries(root, files)))
  {
    var pairs := StepEntries(root, files);
    if files != [] {
      var tail := StepEntries(root, files[1..]);
      assert pairs == [pairs[0]] + tail;
      ObjEntriesConcat([pairs[0]], tail);
      StepPathsAsFilter(fs, opts, root, files[1..]);
      var head := if IsObjName(files[0]) then [pairs[0]] else [];
      assert [pairs[0]][1..] == [];
      assert ObjEntries([pairs[0]]) == head;
      assert ObjEntries(pairs) == head + ObjEntries(tail);
      PathsOfConcat(fs, opts, head, ObjEntries(tail));
      assert PathsOf(fs, opts, head) == if IsObjName(files[0]) then [Convert(fs, opts, Join(root, files[0]))] else [];
    }
  }

  /** The reference reading of lines 34-48: list every file of the walk in
      walk order, keep those whose name ends with `.obj` (a literal,
      case-sensitive suffix), and turn each into its joined, possibly
      rewritten, path. Nothing is reordered, dropped or repeated. */
  lemma {:induction false} ObjPathsAsFilter(fs: FileSystem, opts: PathOptions, walk: seq<WalkStep>)
    ensures ObjPaths(fs, opts, walk) == PathsOf(fs, opts, ObjEntries(Listing(walk)))
  {
    if walk != [] {
      var pairs := StepEntries(walk[0].root, walk[0].files);
      StepPathsAsFilter(fs, opts, walk[0].root, walk[0].files);
      ObjPathsAsFilter(fs, opts, walk[1..]);
      ObjEntriesConcat(pairs, Listing(walk[1..]));
      PathsOfConcat(fs, opts, ObjEntries(pairs), ObjEntries(Listing(walk[1..])));
    }
  }

  /** File names as `os.walk` lists them never hold a separator. */
  predicate PlainNames(walk: seq<WalkStep>) {
    forall i, j :: 0 <= i < |walk| && 0 <= j < |walk[i].files| ==> '/' !in walk[i].files[j]
  }

  /** Every collected path comes from a listed `.obj` name. */
  lemma CollectedPathOrigin(fs: FileSystem, opts: PathOptions, walk: seq<WalkStep>, p: string)
    returns (i: nat, j: nat)
    requires p in ObjPaths(fs, opts, walk)
    ensures i < |walk| && j < |walk[i].files| && IsObjName(walk[i].files[j])
    ensures p == Convert(fs, opts, Join(walk[i].root, walk[i].files[j]))
  {
    ObjPathsAsFilter(fs, opts, walk);
    var entries := ObjEntries(Listing(walk));
    var k :| 0 <= k < |entries| && p == PathsOf(fs, opts, entries)[k];
    assert entries[k] in entries;
    i, j :| 0 <= i < |walk| && 0 <= j < |walk[i].files| && entries[k] == (walk[i].root, walk[i].files[j]);
  }

  /** Every listed `.obj` name is collected. */
  lemma ListedObjCollected(fs: FileSystem, opts: PathOptions, walk: seq<WalkStep>, i: nat, j: nat)
    requires i < |walk| && j < |walk[i].files| && IsObjName(walk[i].files[j])
    ensures Convert(fs, opts, Join(walk[i].root, walk[i].files[j])) in ObjPaths(fs, opts, walk)
  {
    ObjPathsAsFilter(fs, opts, walk);
    var entries := ObjEntries(Listing(walk));
    var e := (walk[i].root, walk[i].files[j]);
    assert e in Listing(walk);
    assert e in entries;
    var k :| 0 <= k < |entries| && entries[k] == e;
    assert PathsOf(fs, opts, entries)[k] == Convert(fs, opts, Join(walk[i].root, walk[i].files[j]));
  }

  /** Without the relative rewrite, every recorded path ends with `.obj`
      and its basename is the listed file name. */
  lemma PlainPathsAreObjFiles(fs: FileSystem, opts: PathOptions, walk: seq<WalkStep>, p: string)
    requires !opts.useRelativePaths || !Truthy(opts.serverRoot)
    requires PlainNames(walk)
    requires p in ObjPaths(fs, opts, walk)
    ensures EndsWith(p, ".obj")
    ensures IsObjName(Basename(p))
  {
    var i, j := CollectedPathOrigin(fs, opts, walk, p);
    var name := walk[i].files[j];
    BasenameOfJoin(walk[i].root, name);
    assert p[|p| - |name|..] == name;
    assert p[|p| - 4..] == name[|name| - 4..];
  }

  /** Without the relative rewrite, the basename of every recorded path is
      one of the file names the walk listed. */
  lemma CollectedBasename(fs: FileSystem, opts: PathOptions, walk: seq<WalkStep>, p: string)
    requires !opts.useRelativePaths || !Truthy(opts.serverRoot)
    requires PlainNames(walk)
    requires p in ObjPaths(fs, opts, walk)
    ensures exists i, j :: 0 <= i < |walk| && 0 <= j < |walk[i].files| && Basename(p) == walk[i].files[j]
  {
    var i, j := CollectedPathOrigin(fs, opts, walk, p);
    BasenameOfJoin(walk[i].root, walk[i].files[j]);
  }

  /** Both directions at once: a path is collected exactly when some walk
      step lists a name ending with `.obj` that joins and rewrites to it. */
  lemma CollectedPaths(fs: FileSystem, opts: PathOptions, walk: seq<WalkStep>, p: string)
    ensures p in ObjPaths(fs, opts, walk) <==>
      exists i, j :: 0 <= i < |walk| && 0 <= j < |walk[i].files| && IsObjName(walk[i].files[j])
                  && p == Convert(fs, opts, Join(walk[i].root, walk[i].files[j]))
  {
    if p in ObjPaths(fs, opts, walk) {
      var i, j := CollectedPathOrigin(fs, opts, walk, p);
    }
    forall i, j | 0 <= i < |walk| && 0 <= j < |walk[i].files| && IsObjName(walk[i].files[j])
      ensures Convert(fs, opts, Join(walk[i].root, walk[i].files[j])) in ObjPaths(fs, opts, walk)
    {
      ListedObjCollected(fs, opts, walk, i, j);
    }
  }

  /** The files collected for one dataset directory, before truncation. */
  function Found(fs: FileSystem, opts: PathOptions, path: string): seq<string> {
    ObjPaths(fs, opts, Walk(fs, path))
  }

  /** `s[:n]` for a non-negative `n`: the first `n` elements, or all of
      them when there are fewer. */
  function Take(s: seq<string>, n: nat): (r: seq<string>)
    ensures |r| == if n <= |s| then n else |s|
    ensures r == s[..|r|]
  {
    if n <= |s| then s[..n] else s
  }

  /** The names of the datasets whose directory exists, in input order. */
  function ExistingNames(fs: FileSystem, sources: seq<(string, string)>): (names: seq<string>)
    ensures forall n :: n in names <==> exists i :: 0 <= i < |sources| && sources[i].0 == n && Exists(fs, sources[i].1)
  {
    if sources == [] then []
    else
      var rest := ExistingNames(fs, sources[1..]);
      var names := (if Exists(fs, sources[0].1) then [sources[0].0] else []) + rest;
      assert forall i :: 1 <= i < |sources| ==> sources[i] == sources[1..][i - 1];
      names
  }

  /** The loop of lines 29-52 over the datasets still to visit, given the
      cap as it stands: a dataset whose directory does not exist is
      skipped; otherwise its files are found, the cap becomes the given
      one or, when there is none yet, that dataset's count (line 50), and
      the list is cut to the cap (line 51). The output holds exactly the
      existing datasets, in input order. */
  function BuildFrom(fs: FileSystem, opts: PathOptions, sources: Sources, cap: Option<nat>): (m: Manifest)
    ensures Keys(m) == ExistingNames(fs, sources)
  {
    if sources == [] then []
    else
      var rest: Sources := sources[1..];
      if !Exists(fs, sources[0].1) then BuildFrom(fs, opts, rest, cap)
      else
        var found := Found(fs, opts, sources[0].1);
        var n := cap.GetOr(|found|);
        var tail := BuildFrom(fs, opts, rest, Some(n));
        assert sources[0].0 !in Keys(tail);
        Cons(sources[0].0, Take(found, n), tail);
        [(sources[0].0, Take(found, n))] + tail
  }

  /** The number of files found for the first dataset whose directory
      exists, if any does. */
  function FirstFoundCount(fs: FileSystem, opts: PathOptions, sources: seq<(string, string)>): Option<nat> {
    if sources == [] then None
    else if Exists(fs, sources[0].1) then Some(|Found(fs, opts, sources[0].1)|)
    else FirstFoundCount(fs, opts, sources[1..])
  }

  /** The cap every existing dataset is cut to: the given one, or else the
      count of the first existing dataset, which line 50 stores in
      `num_samples` for all later iterations. */
  function EffectiveCap(fs: FileSystem, opts: PathOptions, sources: seq<(string, string)>, cap: Option<nat>): Option<nat> {
    if cap.Some? then cap else FirstFoundCount(fs, opts, sources)
  }

  /** The entry of an existing dataset: its found files cut to the
      effective cap. */
  lemma {:induction false} BuildEntry(fs: FileSystem, opts: PathOptions, sources: Sources, cap: Option<nat>, i: nat)
    requires i < |sources| && Exists(fs, sources[i].1)
    ensures EffectiveCap(fs, opts, sources, cap).Some?
    ensures Lookup(BuildFrom(fs, opts, sources, cap), sources[i].0)
         == Some(Take(Found(fs, opts, sources[i].1), EffectiveCap(fs, opts, sources, cap).value))
  {
    var rest: Sources := sources[1..];
    if !Exists(fs, sources[0].1) {
      assert rest[i - 1] == sources[i];
      BuildEntry(fs, opts, rest, cap, i - 1);
    } else {
      var found := Found(fs, opts, sources[0].1);
      var n := cap.GetOr(|found|);
      var tail := BuildFrom(fs, opts, rest, Some(n));
      assert EffectiveCap(fs, opts, sources, cap) == Some(n);
      LookupCons(sources[0].0, Take(found, n), tail, sources[i].0);
      if i > 0 {
        assert rest[i - 1] == sources[i];
        BuildEntry(fs, opts, rest, Some(n), i - 1);
      }
    }
  }

  /** A dataset is in the output exactly when some input entry names it
      and its directory exists. */
  lemma BuildKeys(fs: FileSystem, opts: PathOptions, sources: Sources, cap: Option<nat>, name: string)
    ensures Lookup(BuildFrom(fs, opts, sources, cap), name).Some? <==>
      exists i :: 0 <= i < |sources| && sources[i].0 == name && Exists(fs, sources[i].1)
  {
  }

  lemma {:induction false} FirstFoundAt(fs: FileSystem, opts: PathOptions, sources: seq<(string, string)>, first: nat)
    requires first < |sources| && Exists(fs, sources[first].1)
    requires forall l :: 0 <= l < first ==> !Exists(fs, sources[l].1)
    ensures FirstFoundCount(fs, opts, sources) == Some(|Found(fs, opts, sources[first].1)|)
  {
    if first > 0 {
      assert !Exists(fs, sources[0].1);
      assert sources[1..][first - 1] == sources[first];
      FirstFoundAt(fs, opts, sources[1..], first - 1);
    }
  }

  /** With an explicit cap N (lines 50-51), an existing dataset's list is
      the first min(N, found) of its files in walk order. */
  lemma ExplicitCap(fs: FileSystem, opts: PathOptions, sources: Sources, n: nat, i: nat)
    requires i < |sources| && Exists(fs, sources[i].1)
    ensures var found := Found(fs, opts, sources[i].1);
            var count := if n <= |found| then n else |found|;
            Lookup(BuildFrom(fs, opts, sources, Some(n)), sources[i].0) == Some(found[..count])
  {
    BuildEntry(fs, opts, sources, Some(n), i);
  }

  /** Without a cap, line 50 overwrites `num_samples` with the count of
      the first existing dataset: that dataset keeps all its files and
      every later one is cut to that count. */
  lemma NoCapCarriesFirstCount(fs: FileSystem, opts: PathOptions, sources: Sources, first: nat, i: nat)
    requires first <= i < |sources| && Exists(fs, sources[first].1) && Exists(fs, sources[i].1)
    requires forall l :: 0 <= l < first ==> !Exists(fs, sources[l].1)
    ensures Lookup(BuildFrom(fs, opts, sources, None), sources[first].0) == Some(Found(fs, opts, sources[first].1))
    ensures Lookup(BuildFrom(fs, opts, sources, None), sources[i].0)
         == Some(Take(Found(fs, opts, sources[i].1), |Found(fs, opts, sources[first].1)|))
  {
    var count := |Found(fs, opts, sources[first].1)|;
    FirstFoundAt(fs, opts, sources, first);
    assert EffectiveCap(fs, opts, sources, None) == Some(count);
    BuildEntry(fs, opts, sources, None, first);
    assert Take(Found(fs, opts, sources[first].1), count) == Found(fs, opts, sources[first].1);
    BuildEntry(fs, opts, sources, None, i);
  }

  /** `if not data_json` (line 18): a missing or empty mapping counts as
      not given. */
  predicate MappingGiven(dataJson: Option<Sources>) {
    dataJson.Some? && dataJson.value != []
  }

  /** Line 19: the mapping file read when no mapping is given. */
  function SourceFile(dataJsonPath: Option<string>): string {
    if Truthy(dataJsonPath) then dataJsonPath.value else "data.json"
  }

  /** Lines 14-25: the dataset mapping `create_data_files` works on, or the
      error it raises first. */
  function ResolveSources(fs: FileSystem, dataJson: Option<Sources>, dataJsonPath: Option<string>): (r: Result<Sources, BuildError>)
    ensures dataJson.Some? && dataJsonPath.Some? ==> r == Failure(BothSourcesGiven)
    ensures r.Failure? <==>
      (dataJson.Some? && dataJsonPath.Some?)
      || (!MappingGiven(dataJson) && (!Exists(fs, SourceFile(dataJsonPath)) || SourceFile(dataJsonPath) !in fs.documents))
    ensures r.Success? && MappingGiven(dataJson) ==> r.value == dataJson.value
    ensures r.Success? && !MappingGiven(dataJson) ==> r.value == fs.documents[SourceFile(dataJsonPath)]
    ensures r.Failure? && r.error.SourceFileMissing? ==>
      r.error.path == SourceFile(dataJsonPath) && !Exists(fs, r.error.path)
    ensures !(dataJson.Some? && dataJsonPath.Some?) && !MappingGiven(dataJson) && !Exists(fs, SourceFile(dataJsonPath)) ==>
      r == Failure(SourceFileMissing(SourceFile(dataJsonPath)))
  {
    if dataJson.Some? && dataJsonPath.Some? then Failure(BothSourcesGiven)
    else if !MappingGiven(dataJson) then
      var file := SourceFile(dataJsonPath);
      if !Exists(fs, file) then Failure(SourceFileMissing(file))
      else if file !in fs.documents then Failure(SourceFileUnreadable(file))
      else Success(fs.documents[file])
    else Success(dataJson.value)
  }

  /** What `create_data_files` leaves in data_files.json, or the error it
      raises. */
  function DataFiles(fs: FileSystem, dataJson: Option<Sources>, dataJsonPath: Option<string>,
                     opts: PathOptions, numSamples: Option<nat>): Result<Manifest, BuildError>
  {
    match ResolveSources(fs, dataJson, dataJsonPath)
    case Failure(e) => Failure(e)
    case Success(sources) => Success(BuildFrom(fs, opts, sources, numSamples))
  }

  /** Lines 35-48 for one walk step: the path of every `.obj` file of
      the step, in listed order. */
  method CollectStep(fs: FileSystem, opts: PathOptions, root: string, files: seq<string>) returns (paths: seq<string>)
    ensures paths == StepPaths(fs, opts, root, files)
  {
    paths := [];
    var f := 0;
    while f < |files|
      invariant f <= |files|
      invariant paths == StepPaths(fs, opts, root, files[..f])
    {
      var file := files[f];
      StepPathsConcat(fs, opts, root, files[..f], [file]);
      assert files[..f + 1] == files[..f] + [file];
      if IsObjName(file) {
        var filePath := Join(root, file);
        if opts.useRelativePaths && Truthy(opts.serverRoot) {
          var rel := fs.relpath(filePath, opts.serverRoot.value);
          if rel.Some? {
            filePath := rel.value;
          }
        }
        paths := paths + [filePath];
      }
      f := f + 1;
    }
    assert files[..f] == files;
  }

  /** Lines 33-48: the paths of all `.obj` files of a walk, step after
      step. */
  method CollectObjPaths(fs: FileSystem, opts: PathOptions, walk: seq<WalkStep>) returns (allFiles: seq<string>)
    ensures allFiles == ObjPaths(fs, opts, walk)
  {
    allFiles := [];
    var s := 0;
    while s < |walk|
      invariant s <= |walk|
      invariant allFiles == ObjPaths(fs, opts, walk[..s])
    {
      var paths := CollectStep(fs, opts, walk[s].root, walk[s].files);
      ObjPathsConcat(fs, opts, walk[..s], [walk[s]]);
      assert walk[..s + 1] == walk[..s] + [walk[s]];
      allFiles := allFiles + paths;
      s := s + 1;
    }
    assert walk[..s] == walk;
  }

  /** One turn of the dataset loop, as `BuildFrom` takes it. */
  lemma BuildFromFirst(fs: FileSystem, opts: PathOptions, todo: Sources, cap: Option<nat>)
    requires todo != []
    ensures DistinctKeys(todo[1..])
    ensures !Exists(fs, todo[0].1) ==> BuildFrom(fs, opts, todo, cap) == BuildFrom(fs, opts, todo[1..], cap)
    ensures Exists(fs, todo[0].1) ==>
      var found := Found(fs, opts, todo[0].1);
      var n := cap.GetOr(|found|);
      BuildFrom(fs, opts, todo, cap) == [(todo[0].0, Take(found, n))] + BuildFrom(fs, opts, todo[1..], Some(n))
  {
  }

  /** Lines 27-52: the loop over the datasets, in mapping order. */
  method BuildManifest(fs: FileSystem, opts: PathOptions, data: Sources, numSamples: Option<nat>)
    returns (dataFiles: Manifest)
    ensures dataFiles == BuildFrom(fs, opts, data, numSamples)
  {
    dataFiles := [];
    var cap: Option<nat> := numSamples;
    var i := 0;
    ghost var whole := BuildFrom(fs, opts, data, numSamples);
    while i < |data|
      invariant i <= |data|
      invariant dataFiles + BuildFrom(fs, opts, data[i..], cap) == whole
    {
      var datasetName, datasetPath := data[i].0, data[i].1;
      SuffixIsDict(data, i);
      BuildFromFirst(fs, opts, data[i..], cap);
      assert data[i..][1..] == data[i + 1..];
      if !Exists(fs, datasetPath) {
        i := i + 1;
        continue;
      }
      var allFiles := CollectObjPaths(fs, opts, Walk(fs, datasetPath));
      var n := if cap.Some? then cap.value else |allFiles|;
      cap := Some(n);
      allFiles := Take(allFiles, n);
      NewKey(dataFiles, datasetName, allFiles, BuildFrom(fs, opts, data[i + 1..], cap), whole);
      dataFiles := dataFiles + [(datasetName, allFiles)];
      i := i + 1;
    }
    assert data[i..] == [];
  }

  /** `create_data_files` (lines 5-52, without the file output). */
  method CreateDataFiles(fs: FileSystem, dataJson: Option<Sources>, dataJsonPath: Option<string>,
                         useRelativePaths: bool, serverRoot: Option<string>, numSamples: Option<nat>)
    returns (r: Result<Manifest, BuildError>)
    ensures r == DataFiles(fs, dataJson, dataJsonPath, PathOptions(useRelativePaths, serverRoot), numSamples)
  {
    if dataJson.Some? && dataJsonPath.Some? {
      return Failure(BothSourcesGiven);
    }
    var data: Sources;
    if dataJson.None? || dataJson.value == [] {
      var file := if dataJsonPath.Some? && dataJsonPath.value != "" then dataJsonPath.value else "data.json";
      if !Exists(fs, file) {
        return Failure(SourceFileMissing(file));
      }
      if file !in fs.documents {
        return Failure(SourceFileUnreadable(file));
      }
      data := fs.documents[file];
    } else {
      data := dataJson.value;
    }
    var dataFiles := BuildManifest(fs, PathOptions(useRelativePaths, serverRoot), data, numSamples);
    return Success(dataFiles);
  }

  /** An existing directory with no `.obj` file still gets its key, with
      an empty list. */
  lemma EmptyDatasetKept(fs: FileSystem, opts: PathOptions, sources: Sources, cap: Option<nat>, i: nat)
    requires i < |sources| && Exists(fs, sources[i].1)
    requires forall s :: s in Walk(fs, sources[i].1) ==> forall f :: f in s.files ==> !IsObjName(f)
    ensures Lookup(BuildFrom(fs, opts, sources, cap), sources[i].0) == Some([])
  {
    var walk := Walk(fs, sources[i].1);
    if Found(fs, opts, sources[i].1) != [] {
      var p := Found(fs, opts, sources[i].1)[0];
      var a, b := CollectedPathOrigin(fs, opts, walk, p);
    }
    BuildEntry(fs, opts, sources, cap, i);
  }
}
