# ComfyUI driver helpers, modelled in Dafny

The repository is a generated ComfyUI driver script, `inference.py`. Almost all of it is a fixed series
of calls into node classes from `NODE_CLASS_MAPPINGS`. Three helpers carry logic of their own, and this
project models them and proves what they do:

- `get_value_at_index` (module `ResultAccess`) pulls one value out of a node's result. The result is
  modelled as a tagged Python value: an opaque object, a string, a sequence (tuple or list) or a mapping
  (dict) keyed by integers or strings. `Subscript` is Python's `v[k]` on such values, with negative
  sequence indices and the exceptions it raises (`IndexError`, `KeyError`, `TypeError`). The accessor
  first does `obj[index]`. Only on a `KeyError` does it fall back to `obj["result"][index]`, and any
  exception from that fallback propagates.
- `find_path` (module `PathSearch`) walks up from a directory (by default the working directory) until
  some directory lists the wanted name, or until the root is reached. The filesystem is abstract: a map
  from each readable directory to the names it lists, plus the working directory. A path is the list of
  components of a normalised absolute path. The root is `[]`, `Dirname` drops the last component and
  `Join` appends one. `listdir` of a path that is not in the map raises OSError, and the search
  propagates it (`ListError`). `FindPath`'s contract describes its outcome completely in terms of the
  walk. The lemmas give the converse directions: the nearest listing ancestor wins, the first unreadable
  directory raises, and only the directories on the walk matter.
- `add_comfyui_directory_to_sys_path` (module `SysPath`) is the one piece of in-place state. The class
  `Sys` holds `sys.path` as a sequence of paths. Its method appends the found "ComfyUI" path when the
  search succeeds and the path is a directory. Otherwise the list is left unchanged, and existing
  entries are never altered. `add_extra_model_paths` is modelled only as far as it decides which
  manifest, if any, is handed to the external configuration loader.

Where the docstring and the code disagree, the model follows the code. The docstring of
`get_value_at_index` speaks of the "index-th key" of a mapping and of a `"results"` key. The code does a
plain key lookup `obj[index]` and falls back to the key `"result"`. The code tries the key `index`
first, so a mapping that holds the integer key `index` returns that entry even when it also has
`"result"`.

## Model

| member | source | states |
|---|---|---|
| `ResultAccess.Position` | inference.py:27 | a Python index `-n <= i < n` denotes a position below `n`; a negative index counts from the end |
| `ResultAccess.Subscript` | inference.py:27 | `v[k]` raises KeyError exactly when `v` is a mapping without key `k`; a value it returns is an element of the sequence or a value of the mapping |
| `ResultAccess.GetValueAtIndex` | inference.py:8-29 | a sequence or string gives the element at the (possibly negative) index or IndexError; a mapping with key `index` gives that entry; a mapping without it gives whatever indexing its "result" entry gives; a mapping with neither key gives KeyError; a non-container gives TypeError |
| `ResultAccess.GetValueAtIndexStored` | inference.py:26-29 | every value returned is stored in the object: an element or entry of it, or (when the key `index` is absent) an element, entry or character of its "result" entry; no default is substituted |
| `ResultAccess.ResultPayloadIndexed` | inference.py:28-29 | for a mapping without key `index` whose "result" is a sequence, the result is that sequence's element at `index`, or IndexError when out of range |
| `ResultAccess.SequenceNeverFallsBack` | inference.py:24-28 | on a sequence the accessor is plain subscription and fails only with IndexError, so "result" is never consulted |
| `ResultAccess.KeyErrorOnlyFromMappings` | inference.py:28-29 | a KeyError reaches the caller only from a mapping lacking `index` whose "result" entry is missing or is a mapping also lacking `index` |
| `PathSearch.Dirname` | inference.py:48-52 | the parent is a prefix one component shorter; a path is its own parent exactly when it is the root |
| `PathSearch.Join` | inference.py:43 | the joined path has the directory as parent and the name as last component |
| `PathSearch.FindPath` | inference.py:32-55 | starting at the given directory or the working directory: a start that lists `name` gives `join(start, name)`; a match is `name` under an ancestor-or-self that lists it, with every directory below it on the walk read and not listing it; None exactly when every directory from the start to the root is read and none lists `name`; an OSError comes from an unreadable ancestor-or-self with all directories below it passed |
| `PathSearch.FindPathNearest` | inference.py:41-55 | when an ancestor lists `name` and every directory below it on the walk does not, the search returns `name` joined to that nearest ancestor |
| `PathSearch.FindPathRaises` | inference.py:42-55 | when an ancestor cannot be listed and every directory below it passes, the search raises on that ancestor |
| `PathSearch.FindPathReadsOnlyTheWalk` | inference.py:41-55 | two filesystems that agree on the directories from the start to the root give the same result |
| `PathSearch.FindPathFoundIsAncestorEntry` | inference.py:42-45 | a found path is `name` joined to the start or one of its ancestors; that directory lists `name` and every directory below it on the walk was read and does not (nearest wins) |
| `PathSearch.AddExtraModelPaths` | inference.py:80-85 | the loader is called exactly when the manifest search succeeds, with exactly the path the search returns: the "extra_model_paths.yaml" of the nearest listing directory from the working directory up; an OSError names the directory the search failed on; nothing is loaded exactly when no directory up to the root lists it |
| `SysPath.Sys.AddFrameworkDirectoryToPath` | inference.py:58-65 | `sys.path` gains exactly the found "ComfyUI" path at its end when the search succeeds and the path is a directory, and is unchanged otherwise; old entries are kept; an OSError from the search is reported and nothing is changed |

## Left out

- `main()` (inference.py:118-231): every step calls opaque node classes from `NODE_CLASS_MAPPINGS`
  inside `torch.inference_mode`; nothing in it is visible to a model.
- `import_custom_nodes` (inference.py:92-112): event-loop, server and queue setup and a call to the
  external `init_extra_nodes`.
- `add_extra_model_paths` (inference.py:68-85): the dynamic import of `load_extra_path_config` with its
  fallback, and the loader itself, are external. Only the choice of manifest is modelled.
- The module-level calls at import time (inference.py:88-89, 115) and the `print` calls
  (inference.py:44, 65, 75, 85).
- The random noise seed (inference.py:162) is nondeterministic.
- Exact POSIX string semantics of `os.path.dirname` and `os.path.join` (trailing slashes, relative paths,
  a name that itself contains a separator) are not modelled. Paths are component lists of a normalised
  absolute path.
- `PathSearch.IsDir`: a directory is taken to be exactly a path that `listdir` can read. A directory
  that exists but cannot be listed is treated as no directory.
- `ResultAccess.Value`: Python values beyond strings, sequences and mappings are a single
  non-subscriptable `Atom`. Dictionary keys other than integers and strings, and the equality of `True`
  with `1` as a key, are not modelled. Mappings other than `dict` that raise something other than
  `KeyError` are not modelled either.
- The filesystem is one unchanging snapshot. Python calls `listdir` at each step of the walk
  (inference.py:42) and `isdir` after the search (inference.py:63); changes to the filesystem between
  those calls are not modelled.
- Exceptions other than OSError from `listdir` (for example a recursion limit on very deep paths) are
  not modelled.
