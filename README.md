# Manifest builder of the 3D viewer, modelled in Dafny

The viewer's manifest builder (construct.py's `create_data_files`) takes a
mapping from dataset name to directory. It walks every directory that
exists and collects the files whose name ends with `.obj`. It can rewrite
each path relative to a server root, and it cuts each dataset's list to a
sample cap. The result is a mapping from dataset name to an ordered list
of paths, written to `data_files.json`. The compare.py script calls the
builder for an origin and a prediction directory, then sorts each list by
file basename.

The model has five modules:

- `Wrappers` holds `Option` and `Result`.
- `Dicts` models Python's insertion-ordered `dict` with string keys. A dict
  is a sequence of items with distinct keys. `Lookup` is `d[k]`, with
  `None` where Python raises `KeyError`. `Assign` is `d[k] = v`.
- `PosixPath` holds `str.endswith` (`EndsWith`), POSIX `os.path.join`
  (`Join`) and `os.path.basename` (`Basename`), and Python's string order
  `<=` (`StrLe`) with its order laws.
- `Construct` models `create_data_files`. The file system is an input
  value, `FileSystem`. It gives the paths `os.path.exists` accepts, what
  `os.walk` yields for each path, the parsed contents of mapping files, and
  `os.path.relpath` as a partial function (None where it raises
  `ValueError`). `DataFiles` and `BuildFrom` are the pure specification.
  `CreateDataFiles`, `BuildManifest`, `CollectObjPaths` and `CollectStep`
  are the loops of the source, each proved equal to that specification.
- `Compare` models compare.py: the two-entry source mapping, the stable
  sort `sorted(files, key=...)`, the loop that re-sorts every list, and the
  whole script. The sort is stated for any key function. The script uses
  it with `Basename` as the key.

With no cap, the code sets `num_samples` inside the dataset loop
(construct.py:50). The first existing dataset's count therefore becomes
the cap for every later dataset. The model follows the code. This differs
from the "(default: all)" help text at compare.py:18.
`NoCapCarriesFirstCount` and `Compare.ComparisonUncapped` state the
behaviour as written.

## Model

| member | source | states |
|---|---|---|
| `Construct.ResolveSources` | construct.py:14-25 | Passing both a mapping and a path is `BothSourcesGiven`, even when the mapping is empty. A missing or empty mapping means the file is read, either the given path if non-empty or `data.json`, and this fails exactly when that file is missing or unreadable. A missing file is always reported as missing, before any read. A given non-empty mapping is used as it is. |
| `Construct.CreateDataFiles` | construct.py:5-52 | The method, which has the argument checks and the dataset loop, returns exactly `DataFiles`: the error of `ResolveSources`, or `BuildFrom` over the resolved mapping with the given cap. |
| `Construct.BuildManifest` | construct.py:27-52 | The dataset loop, which skips, walks, carries the cap forward and adds one entry per dataset, yields `BuildFrom` over the whole mapping. |
| `Construct.CollectObjPaths` | construct.py:33-48 | The nested walk loops yield `ObjPaths` of the walk. |
| `Construct.CollectStep` | construct.py:35-48 | The loop over one step's file names yields `StepPaths` of that step. |
| `Construct.Convert` | construct.py:40-46 | A path changes only when `use_relative_paths` is set, the server root is truthy, and `relpath` succeeds, and then it becomes what `relpath` returned. If `relpath` fails, the joined path is kept. |
| `Construct.ObjPathsAsFilter` | construct.py:34-48 | Collecting gives exactly this: list every (root, name) pair of the walk in walk order, keep the pairs whose name ends with `.obj`, then join and convert each one. Nothing is reordered, dropped or repeated. |
| `Construct.ObjPathsConcat` | construct.py:34-48 | Walk order is kept. Everything collected from an earlier part of the walk comes before everything from a later part. |
| `Construct.StepPathsConcat` | construct.py:35-48 | Within a step, listed order is kept. Earlier file names come first. |
| `Construct.CollectedPaths` | construct.py:34-48 | A path is collected if and only if some step lists a case-sensitive `.obj` name that joins and converts to that path. |
| `Construct.PlainPathsAreObjFiles` | construct.py:36-37 | Without rewriting, every collected path ends with `.obj`, and so does its basename. |
| `Construct.CollectedBasename` | construct.py:34-37 | Without rewriting, the basename of every collected path is one of the file names the walk listed. |
| `Construct.BuildFrom` | construct.py:29-52 | The output keys are exactly the names whose directory exists, in input order, with no repeats. |
| `Construct.BuildKeys` | construct.py:29-32 | A name is in the output if and only if some input entry has that name and its directory exists. A missing directory leaves no key. |
| `Construct.BuildEntry` | construct.py:50-52 | An existing dataset's list is its collected files cut to the effective cap. That cap is the given one, or else the count of the first existing dataset. |
| `Construct.ExplicitCap` | construct.py:50-51 | With an explicit cap N, each existing dataset's list is the first min(N, found) collected paths. It is a prefix in walk order. |
| `Construct.NoCapCarriesFirstCount` | construct.py:50-51 | With no cap, the first existing dataset keeps all its files. Every later existing dataset is cut to that first count. |
| `Construct.EmptyDatasetKept` | construct.py:29-52 | An existing directory with no `.obj` file still gets its key, with an empty list. |
| `Construct.Take` | construct.py:51 | `s[:n]` has length min(n, \|s\|) and is a prefix of `s`. |
| `Compare.SourceMapping` | compare.py:28-31 | The result is `[(ori_key, ori_dir), (pred_key, pred_dir)]` when the keys differ. When they are equal, it is a single entry holding `pred_dir`. |
| `Compare.SortByKeySpec` | compare.py:46 | Sorting by a key gives a permutation of the input, ordered by non-decreasing key. Paths that share a key keep their relative order, so the sort is stable. |
| `Compare.WithKeyMembers` | compare.py:46 | The group of a key holds exactly the paths whose key it is. |
| `Compare.InsertStable` | compare.py:46 | Inserting puts `x` before every path that shares its key and leaves the order of the others alone. |
| `Compare.InsertSorted` | compare.py:46 | Inserting into a list ordered by key keeps it ordered. |
| `Compare.StableSortIsUnique` | compare.py:46 | Every list that is ordered by key and keeps each key's group in order equals `SortByKey`. So any stable sort, Python's `sorted` included, gives the same list. |
| `Compare.SortedWithSameGroupsEqual` | compare.py:46 | Two lists ordered by key that agree on every key's group are equal. |
| `Compare.SortAllLookup` | compare.py:44-47 | After sorting, a dataset is present exactly when it was before, and its list is the old list sorted by basename. |
| `Compare.SortEachByBasename` | compare.py:44-47 | The loop leaves the keys and their order unchanged, and replaces each entry's list by its sort by basename (`SortAll`). |
| `Compare.Compare` | compare.py:28-47 | The script always succeeds. Its result is `Comparison`: the manifest built from the two-entry mapping, with every list sorted by basename. |
| `Compare.ComparisonKeys` | compare.py:28-38 | With distinct keys, the result has the origin key and then the prediction key, each only when its directory exists. |
| `Compare.ComparisonCapped` | compare.py:33-47 | With a cap N, the prediction list is the first N files found in walk order, then sorted. Truncation comes before sorting. |
| `Compare.ComparisonUncapped` | compare.py:33-47 | With no cap and distinct keys, the origin keeps all its files, sorted. The prediction is cut to the origin's count, then sorted. |
| `Dicts.Assign` | compare.py:47 | `d[k] = v` keeps an existing key in its place and puts a new key last. Afterwards `k` maps to `v`, and every other key keeps its value. |
| `Dicts.Lookup` | compare.py:45 | `d[k]`, with `None` where Python raises `KeyError`, is found exactly for the keys of `d`, and gives the value stored at that key's position. |
| `PosixPath.Join` | construct.py:37 | The joined path ends with the file name. Before a plain name comes the root, or the root and one separator. |
| `PosixPath.Basename` | compare.py:46 | The basename is the longest suffix of the path that has no separator. |
| `PosixPath.BasenameOfJoin` | construct.py:37 | The basename of a root joined with a plain file name is that file name. |
| `PosixPath.StrLeTotal` | compare.py:46 | Python's string `<=` is total. |
| `PosixPath.StrLeTransitive` | compare.py:46 | Python's string `<=` is transitive. |
| `PosixPath.StrLeAntisymmetric` | compare.py:46 | Python's string `<=` is antisymmetric. |

## Left out

- main.py, the Flask file server, is not part of this model. It is route dispatch, logging, cache headers and a request counter over library calls that cannot be seen.
- Reading mapping files with `json.load` is an input: `FileSystem.documents` gives the parsed mapping of a file. An existing file that does not parse as a mapping of strings, or cannot be opened, becomes `SourceFileUnreadable`.
- Writing `data_files.json` (construct.py:55-56), reading it back and writing it again in compare.py (lines 40-41 and 49-50), and all printed output, including the warning of line 46 and the totals of lines 58-62. compare.py's sort is applied straight to the builder's result. This treats the JSON round trip of a string-keyed dict of string lists as the identity.
- The argparse command lines of both scripts (construct.py:66-87, compare.py:9-26), including the default server root `os.getcwd()`.
- The real traversal order of `os.walk` and the path logic of `os.path.relpath`. The walk is an input sequence and `relpath` is a partial function of the file system value. `Join` models POSIX `os.path.join` for two parts.
- `None` directory values (the argparse defaults at compare.py:10-11, on which `os.path.exists` raises) and negative caps (Python's negative slicing). Directories are strings and the cap is a `nat`.
- The two-dataset check that the comparison page performs before serving. It is in no file that was modelled.
- File names that are not valid UTF-8 are left out. Python on POSIX decodes them into lone surrogates (surrogateescape), and `sorted` orders those by code point. A Dafny `string` holds only Unicode scalar values, so it cannot represent such names.
- `Construct.ResolveSources`: groups every read or parse failure of an existing mapping file into one error, `SourceFileUnreadable`, and does not tell the source's different exceptions apart.
