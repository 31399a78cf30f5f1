/** The script of compare.py: build the manifest for an origin and a
    prediction directory, then order every dataset's list by file name. */
module Compare {
  import opened Wrappers
  import opened Dicts
  import opened PosixPath
  import opened Construct

  /** Lines 28-31, `{ori_key: ori_dir, pred_key: pred_dir}`: two entries
      in that order, or, when the keys coincide, one entry holding the
      later value. */
  function SourceMapping(oriKey: string, oriDir: string, predKey: string, predDir: string): (r: Sources)
    ensures oriKey != predKey ==> r == [(oriKey, oriDir), (predKey, predDir)]
    ensures oriKey == predKey ==> r == [(predKey, predDir)]
  {
    var none: Sources := [];
    var first: Sources := [(oriKey, oriDir)];
    assert Keys(none) == [];
    assert Assign(none, oriKey, oriDir) == first;
    assert Keys(first) == [oriKey];
    if oriKey != predKey then
      assert Assign(first, predKey, predDir) == first + [(predKey, predDir)];
      Assign(first, predKey, predDir)
    else
      assert Assign(first, predKey, predDir)[0] == (predKey, predDir);
      Assign(first, predKey, predDir)
  }

  /** Ordered by non-decreasing `key`, every pair compared. */
  predicate SortedByKey(key: string -> string, s: seq<string>) {
    forall i, j :: 0 <= i < j < |s| ==> StrLe(key(s[i]), key(s[j]))
  }

  /** The paths of `s` whose key is `b`, in their order in `s`. */
  function WithKey(key: string -> string, s: seq<string>, b: string): seq<string> {
    if s == [] then []
    else (if key(s[0]) == b then [s[0]] else []) + WithKey(key, s[1..], b)
  }

  /** The group of `b` holds exactly the paths of `s` whose key is `b`. */
  lemma {:induction false} WithKeyMembers(key: string -> string, s: seq<string>, b: string)
    ensures forall x :: x in WithKey(key, s, b) <==> x in s && key(x) == b
  {
    if s != [] {
      WithKeyMembers(key, s[1..], b);
      assert s == [s[0]] + s[1..];
    }
  }

  /** Put `x` in front of the first path whose key is not smaller. */
  function Insert(key: string -> string, x: string, s: seq<string>): seq<string> {
    if s == [] || StrLe(key(x), key(s[0])) then [x] + s
    else [s[0]] + Insert(key, x, s[1..])
  }

  lemma WithKeyCons(key: string -> string, y: string, t: seq<string>, b: string)
    ensures WithKey(key, [y] + t, b) == (if key(y) == b then [y] else []) + WithKey(key, t, b)
  {
    assert ([y] + t)[1..] == t;
  }

  /** Insertion adds `x` and nothing else. */
  lemma {:induction false} InsertPermutes(key: string -> string, x: string, s: seq<string>)
    ensures multiset(Insert(key, x, s)) == multiset(s) + multiset{x}
  {
    if s != [] && !StrLe(key(x), key(s[0])) {
      InsertPermutes(key, x, s[1..]);
      assert s == [s[0]] + s[1..];
    }
  }

  /** Insertion puts `x` before every path sharing its key and leaves the
      order of the others alone. */
  lemma {:induction false} InsertStable(key: string -> string, x: string, s: seq<string>, b: string)
    ensures WithKey(key, Insert(key, x, s), b)
            == if key(x) == b then [x] + WithKey(key, s, b) else WithKey(key, s, b)
  {
    if s == [] || StrLe(key(x), key(s[0])) {
      WithKeyCons(key, x, s, b);
    } else {
      var y, t := s[0], s[1..];
      assert s == [y] + t;
      assert Insert(key, x, s) == [y] + Insert(key, x, t);
      StrLeReflexive(key(x));
      var hx := if key(x) == b then [x] else [];
      var hy := if key(y) == b then [y] else [];
      var w := WithKey(key, t, b);
      InsertStable(key, x, t, b);
      WithKeyCons(key, y, Insert(key, x, t), b);
      WithKeyCons(key, y, t, b);
      assert WithKey(key, Insert(key, x, s), b) == hy + (hx + w);
      assert WithKey(key, s, b) == hy + w;
      assert hx == [] || hy == [];
      if hx == [] {
        assert hx + w == w;
      } else {
        assert hy + (hx + w) == hx + w;
      }
    }
  }

  /** A path whose key is at most every key of a sorted list can go in
      front of it. */
  lemma ConsSorted(key: string -> string, y: string, r: seq<string>)
    requires SortedByKey(key, r)
    requires forall z :: z in r ==> StrLe(key(y), key(z))
    ensures SortedByKey(key, [y] + r)
  {
    var yr := [y] + r;
    forall i, j | 0 <= i < j < |yr|
      ensures StrLe(key(yr[i]), key(yr[j]))
    {
      assert yr[j] == r[j - 1];
      if i > 0 {
        assert yr[i] == r[i - 1];
      }
    }
  }

  /** In a list ordered by key, the first path has the least key. */
  lemma FirstIsLeast(key: string -> string, t: seq<string>, x: string)
    requires SortedByKey(key, t) && x in t
    ensures StrLe(key(t[0]), key(x))
  {
    var i :| 0 <= i < |t| && t[i] == x;
    if i == 0 { StrLeReflexive(key(x)); }
  }

  /** The tail of a list ordered by key is ordered by key. */
  lemma SortedTail(key: string -> string, t: seq<string>)
    requires t != [] && SortedByKey(key, t)
    ensures SortedByKey(key, t[1..])
  {
    forall i, j | 0 <= i < j < |t| - 1
      ensures StrLe(key(t[1..][i]), key(t[1..][j]))
    {
      assert t[1..][i] == t[i + 1] && t[1..][j] == t[j + 1];
    }
  }

  /** A lower bound on every key of `t` and on `x`'s key bounds every key
      after insertion. */
  lemma InsertBounded(key: string -> string, y: string, x: string, t: seq<string>)
    requires StrLe(key(y), key(x))
    requires forall z :: z in t ==> StrLe(key(y), key(z))
    ensures forall z :: z in Insert(key, x, t) ==> StrLe(key(y), key(z))
  {
    InsertPermutes(key, x, t);
    forall z | z in Insert(key, x, t)
      ensures StrLe(key(y), key(z))
    {
      assert z in multiset(Insert(key, x, t));
      assert z == x || z in t;
    }
  }

  /** Insertion keeps a sorted list sorted. */
  lemma {:induction false} InsertSorted(key: string -> string, x: string, s: seq<string>)
    requires SortedByKey(key, s)
    ensures SortedByKey(key, Insert(key, x, s))
  {
    if s == [] || StrLe(key(x), key(s[0])) {
      forall z | z in s
        ensures StrLe(key(x), key(z))
      {
        FirstIsLeast(key, s, z);
        StrLeTransitive(key(x), key(s[0]), key(z));
      }
      ConsSorted(key, x, s);
    } else {
      var y, t := s[0], s[1..];
      assert Insert(key, x, s) == [y] + Insert(key, x, t);
      SortedTail(key, s);
      InsertSorted(key, x, t);
      StrLeTotal(key(x), key(y));
      forall z | z in t
        ensures StrLe(key(y), key(z))
      {
        assert s == [y] + t;
        FirstIsLeast(key, s, z);
      }
      InsertBounded(key, y, x, t);
      ConsSorted(key, y, Insert(key, x, t));
    }
  }

  /** `sorted(files, key=key)`: a stable sort by key, here by insertion. */
  function SortByKey(key: string -> string, s: seq<string>): seq<string> {
    if s == [] then [] else Insert(key, s[0], SortByKey(key, s[1..]))
  }

  /** The sorted list is a permutation of the input, ordered by
      non-decreasing key, and the paths sharing a key keep their relative
      order. */
  lemma {:induction false} SortByKeySpec(key: string -> string, s: seq<string>)
    ensures multiset(SortByKey(key, s)) == multiset(s)
    ensures SortedByKey(key, SortByKey(key, s))
    ensures forall b :: WithKey(key, SortByKey(key, s), b) == WithKey(key, s, b)
  {
    if s != [] {
      var sortedRest := SortByKey(key, s[1..]);
      SortByKeySpec(key, s[1..]);
      InsertPermutes(key, s[0], sortedRest);
      InsertSorted(key, s[0], sortedRest);
      assert s == [s[0]] + s[1..];
      forall b
        ensures WithKey(key, SortByKey(key, s), b) == WithKey(key, s, b)
      {
        InsertStable(key, s[0], sortedRest, b);
        WithKeyCons(key, s[0], s[1..], b);
      }
    }
  }

  /** A list with no path under any key is empty. */
  lemma NoGroupsEmpty(key: string -> string, t: seq<string>)
    requires forall b :: WithKey(key, t, b) == []
    ensures t == []
  {
    if t != [] {
      WithKeyMembers(key, t, key(t[0]));
      assert false;
    }
  }

  /** Dropping the same head from two lists with the same keyed groups
      leaves lists with the same keyed groups. */
  lemma TailsSameGroups(key: string -> string, t: seq<string>, u: seq<string>)
    requires t != [] && u != [] && t[0] == u[0]
    requires forall b :: WithKey(key, t, b) == WithKey(key, u, b)
    ensures forall b :: WithKey(key, t[1..], b) == WithKey(key, u[1..], b)
  {
    forall b
      ensures WithKey(key, t[1..], b) == WithKey(key, u[1..], b)
    {
      var head := if key(t[0]) == b then [t[0]] else [];
      assert WithKey(key, t, b) == head + WithKey(key, t[1..], b);
      assert WithKey(key, u, b) == head + WithKey(key, u[1..], b);
      assert (head + WithKey(key, t[1..], b))[|head|..] == WithKey(key, t[1..], b);
      assert (head + WithKey(key, u[1..], b))[|head|..] == WithKey(key, u[1..], b);
    }
  }

  /** Two lists ordered by key that agree on the paths of every key, in
      order, are the same list. */
  lemma {:induction false} SortedWithSameGroupsEqual(key: string -> string, t: seq<string>, u: seq<string>)
    requires SortedByKey(key, t) && SortedByKey(key, u)
    requires forall b :: WithKey(key, t, b) == WithKey(key, u, b)
    ensures t == u
  {
    if t == [] {
      NoGroupsEmpty(key, u);
    } else if u == [] {
      NoGroupsEmpty(key, t);
    } else {
      var k, k' := key(t[0]), key(u[0]);
      WithKeyMembers(key, t, k);
      WithKeyMembers(key, u, k);
      WithKeyMembers(key, t, k');
      WithKeyMembers(key, u, k');
      assert t[0] in WithKey(key, u, k);
      FirstIsLeast(key, u, t[0]);
      assert u[0] in WithKey(key, t, k');
      FirstIsLeast(key, t, u[0]);
      StrLeAntisymmetric(k, k');
      assert WithKey(key, t, k)[0] == t[0];
      assert WithKey(key, u, k)[0] == u[0];
      TailsSameGroups(key, t, u);
      SortedTail(key, t);
      SortedTail(key, u);
      SortedWithSameGroupsEqual(key, t[1..], u[1..]);
      assert t == [t[0]] + t[1..];
      assert u == [u[0]] + u[1..];
    }
  }

  /** Any stable sort by key, Python's `sorted` among them, gives the list
      `SortByKey` gives. */
  lemma StableSortIsUnique(key: string -> string, s: seq<string>, t: seq<string>)
    requires SortedByKey(key, t)
    requires forall b :: WithKey(key, t, b) == WithKey(key, s, b)
    ensures t == SortByKey(key, s)
  {
    SortByKeySpec(key, s);
    SortedWithSameGroupsEqual(key, t, SortByKey(key, s));
  }

  /** Line 46, `sorted(files, key=lambda x: os.path.basename(x))`. */
  function SortByBasename(s: seq<string>): seq<string> {
    SortByKey(Basename, s)
  }

  /** Every dataset's list sorted by basename, keys and their order as
      they are. */
  function SortAll(m: Manifest): (r: Manifest)
    ensures Keys(r) == Keys(m)
    ensures |r| == |m| && forall i :: 0 <= i < |m| ==> r[i] == (m[i].0, SortByBasename(m[i].1))
  {
    if m == [] then []
    else
      var rest: Manifest := m[1..];
      assert Keys(m) == [m[0].0] + Keys(rest);
      var r := [(m[0].0, SortByBasename(m[0].1))] + SortAll(rest);
      assert Keys(r) == [m[0].0] + Keys(SortAll(rest));
      r
  }

  /** Sorting changes no key: a dataset is present after sorting exactly
      when it was before, and its list is then the sorted list. */
  lemma SortAllLookup(m: Manifest, k: string)
    ensures Lookup(SortAll(m), k) == if Lookup(m, k).Some? then Some(SortByBasename(Lookup(m, k).value)) else None
  {
    if Lookup(m, k).Some? {
      var i :| 0 <= i < |m| && m[i].0 == k;
      assert SortAll(m)[i] == (k, SortByBasename(m[i].1));
    }
  }

  /** Lines 43-47: replace every dataset's list, key by key in manifest
      order, by its sort by basename. */
  method SortEachByBasename(dataFiles: Manifest) returns (sorted: Manifest)
    ensures sorted == SortAll(dataFiles)
  {
    sorted := dataFiles;
    var i := 0;
    while i < |dataFiles|
      invariant i <= |dataFiles|
      invariant Keys(sorted) == Keys(dataFiles)
      invariant forall j :: 0 <= j < i ==> sorted[j] == (dataFiles[j].0, SortByBasename(dataFiles[j].1))
      invariant forall j :: i <= j < |dataFiles| ==> sorted[j] == dataFiles[j]
    {
      var key := dataFiles[i].0;
      var files := Lookup(sorted, key).value;
      files := SortByBasename(files);
      ghost var before := sorted;
      sorted := Assign(sorted, key, files);
      forall j | 0 <= j < |dataFiles|
        ensures sorted[j] == if j == i then (key, files) else before[j]
      {
        assert sorted[j].0 == before[j].0;
        assert Lookup(sorted, sorted[j].0) == Some(sorted[j].1);
        if j != i {
          assert Lookup(before, before[j].0) == Some(before[j].1);
        }
      }
      i := i + 1;
    }
    assert Keys(sorted) == Keys(SortAll(dataFiles));
  }

  /** What compare.py leaves in `data_files.json`: the manifest of the
      two-entry mapping, every list sorted by basename. */
  function Comparison(fs: FileSystem, oriKey: string, oriDir: string, predKey: string, predDir: string,
                      opts: PathOptions, numSamples: Option<nat>): Manifest
  {
    SortAll(BuildFrom(fs, opts, SourceMapping(oriKey, oriDir, predKey, predDir), numSamples))
  }

  /** compare.py as a whole: the manifest for the two directories, built
      with no mapping file, then sorted. It cannot fail, since the
      mapping it passes is never empty. */
  method Compare(fs: FileSystem, oriKey: string, oriDir: string, predKey: string, predDir: string,
                 useRelativePaths: bool, serverRoot: Option<string>, numSamples: Option<nat>)
    returns (dataFiles: Manifest)
    ensures dataFiles == Comparison(fs, oriKey, oriDir, predKey, predDir, PathOptions(useRelativePaths, serverRoot), numSamples)
  {
    var dataJson := SourceMapping(oriKey, oriDir, predKey, predDir);
    var built := CreateDataFiles(fs, Some(dataJson), None, useRelativePaths, serverRoot, numSamples);
    assert built.Success?;
    dataFiles := SortEachByBasename(built.value);
  }

  /** The datasets of the comparison are the two keys whose directories
      exist, the origin first. */
  lemma ComparisonKeys(fs: FileSystem, oriKey: string, oriDir: string, predKey: string, predDir: string,
                       opts: PathOptions, numSamples: Option<nat>)
    requires oriKey != predKey
    ensures Keys(Comparison(fs, oriKey, oriDir, predKey, predDir, opts, numSamples))
         == (if Exists(fs, oriDir) then [oriKey] else []) + (if Exists(fs, predDir) then [predKey] else [])
  {
    var sources := SourceMapping(oriKey, oriDir, predKey, predDir);
    var keys := Keys(BuildFrom(fs, opts, sources, numSamples));
    assert |sources| == 2 && sources[0] == (oriKey, oriDir) && sources[1] == (predKey, predDir);
    assert sources[1..][1..] == [];
    assert ExistingNames(fs, sources[1..][1..]) == [];
    assert ExistingNames(fs, sources[1..]) == if Exists(fs, predDir) then [predKey] else [];
  }

  /** With `--num_samples N` the prediction's list is the first N files in
      walk order, then sorted: truncation comes before sorting, so it keeps
      the first files found, not the smallest names. */
  lemma ComparisonCapped(fs: FileSystem, oriKey: string, oriDir: string, predKey: string, predDir: string,
                         opts: PathOptions, n: nat)
    requires Exists(fs, predDir)
    ensures Lookup(Comparison(fs, oriKey, oriDir, predKey, predDir, opts, Some(n)), predKey)
         == Some(SortByBasename(Take(Found(fs, opts, predDir), n)))
  {
    var sources := SourceMapping(oriKey, oriDir, predKey, predDir);
    var p := |sources| - 1;
    assert sources[p] == (predKey, predDir);
    BuildEntry(fs, opts, sources, Some(n), p);
    SortAllLookup(BuildFrom(fs, opts, sources, Some(n)), predKey);
  }

  /** Without `--num_samples` the origin keeps all its files and the
      prediction keeps no more files than the origin found. */
  lemma ComparisonUncapped(fs: FileSystem, oriKey: string, oriDir: string, predKey: string, predDir: string,
                           opts: PathOptions)
    requires oriKey != predKey && Exists(fs, oriDir) && Exists(fs, predDir)
    ensures Lookup(Comparison(fs, oriKey, oriDir, predKey, predDir, opts, None), oriKey)
         == Some(SortByBasename(Found(fs, opts, oriDir)))
    ensures Lookup(Comparison(fs, oriKey, oriDir, predKey, predDir, opts, None), predKey)
         == Some(SortByBasename(Take(Found(fs, opts, predDir), |Found(fs, opts, oriDir)|)))
  {
    var sources := SourceMapping(oriKey, oriDir, predKey, predDir);
    NoCapCarriesFirstCount(fs, opts, sources, 0, 1);
    SortAllLookup(BuildFrom(fs, opts, sources, None), oriKey);
    SortAllLookup(BuildFrom(fs, opts, sources, None), predKey);
  }
}
