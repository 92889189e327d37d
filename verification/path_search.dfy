/** The upward directory search (find_path) over an abstract filesystem.

    A path is the list of components of a normalised absolute path: the
    root is [], `Dirname` drops the last component (the root is its own
    parent) and `Join` appends one. The filesystem maps every directory
    that `listdir` can read to the names it lists; `listdir` of any other
    path raises OSError. */
module PathSearch {

  datatype Option<T> = None | Some(value: T)

  type Path = seq<string>

  /** The readable directories with their entries, and the working directory. */
  datatype FileSystem = FileSystem(listing: map<Path, set<string>>, cwd: Path)

  /** The outcome of a search: the joined path, None, or the OSError that
      `listdir` raised on the directory `dir`. */
  datatype Search = Found(path: Path) | NotFound | ListError(dir: Path)

  function Dirname(p: Path): (q: Path)
    ensures q <= p
    ensures q == p <==> p == []
    ensures p != [] ==> |q| == |p| - 1
  {
    if p == [] then [] else p[..|p| - 1]
  }

  function Join(dir: Path, name: string): (p: Path)
    ensures |p| == |dir| + 1 && Dirname(p) == dir && p[|p| - 1] == name
  {
    dir + [name]
  }

  /** os.path.isdir: here, a path names a directory exactly when it can be listed. */
  predicate IsDir(fs: FileSystem, p: Path) {
    p in fs.listing
  }

  /** `name in os.listdir(dir)`, with `listdir` succeeding. */
  predicate Lists(fs: FileSystem, dir: Path, name: string) {
    dir in fs.listing && name in fs.listing[dir]
  }

  /** `listdir(dir)` succeeds and does not list `name`: the walk moves on. */
  predicate Passes(fs: FileSystem, dir: Path, name: string) {
    dir in fs.listing && name !in fs.listing[dir]
  }

  /** Every directory on the walk from `start` up to (and including) the
      ancestor with k components is readable and does not list `name`. */
  predicate PassedFrom(fs: FileSystem, name: string, start: Path, k: nat) {
    forall j :: k <= j <= |start| ==> Passes(fs, start[..j], name)
  }

  /** The directory a search begins in: the given one, or the working directory. */
  function StartDir(fs: FileSystem, path: Option<Path>): Path {
    if path.None? then fs.cwd else path.value
  }

  /** find_path: list the directory; if it holds `name`, return the joined
      path; otherwise, unless the directory is the root, search its parent.
      The outcome is described completely by the walk from the start:
      a match is the nearest directory that lists `name`, None means that no
      directory up to the root does, and an OSError comes from the first
      unreadable directory on the way. */
  function FindPath(fs: FileSystem, name: string, path: Option<Path>): (r: Search)
    ensures var start := StartDir(fs, path);
      && (Lists(fs, start, name) ==> r == Found(Join(start, name)))
      && (r.Found? ==>
            && |r.path| > 0 && r.path[|r.path| - 1] == name
            && Dirname(r.path) <= start
            && Lists(fs, Dirname(r.path), name)
            && PassedFrom(fs, name, start, |r.path|))
      && (r.NotFound? <==> PassedFrom(fs, name, start, 0))
      && (r.ListError? ==>
            && r.dir <= start
            && r.dir !in fs.listing
            && PassedFrom(fs, name, start, |r.dir| + 1))
    decreases if path.None? then |fs.cwd| + 1 else |path.value|
  {
    var dir := StartDir(fs, path);
    assert dir[..|dir|] == dir;
    if dir !in fs.listing then ListError(dir)
    else if name in fs.listing[dir] then Found(Join(dir, name))
    else
      var parent := Dirname(dir);
      if parent == dir then NotFound
      else
        var r := FindPath(fs, name, Some(parent));
        assert forall j :: 0 <= j <= |parent| ==> parent[..j] == dir[..j];
        r
  }

  /** Nearest ancestor wins: when the ancestor of `start` with k components
      lists `name` and every directory below it on the walk was read and does
      not, the search returns `name` joined to that ancestor. */
  lemma {:induction false} FindPathNearest(fs: FileSystem, name: string, start: Path, k: nat)
    requires k <= |start|
    requires Lists(fs, start[..k], name)
    requires PassedFrom(fs, name, start, k + 1)
    ensures FindPath(fs, name, Some(start)) == Found(Join(start[..k], name))
    decreases |start|
  {
    assert start[..|start|] == start;
    if k < |start| {
      var parent := Dirname(start);
      assert Passes(fs, start, name);
      assert parent[..k] == start[..k];
      forall j | k + 1 <= j <= |parent| ensures Passes(fs, parent[..j], name) {
        assert parent[..j] == start[..j];
      }
      FindPathNearest(fs, name, parent, k);
    }
  }

  /** An unreadable directory on the walk: the OSError of the first one that
      the walk reaches propagates to the caller. */
  lemma {:induction false} FindPathRaises(fs: FileSystem, name: string, start: Path, k: nat)
    requires k <= |start|
    requires start[..k] !in fs.listing
    requires PassedFrom(fs, name, start, k + 1)
    ensures FindPath(fs, name, Some(start)) == ListError(start[..k])
    decreases |start|
  {
    assert start[..|start|] == start;
    if k < |start| {
      var parent := Dirname(start);
      assert Passes(fs, start, name);
      assert parent[..k] == start[..k];
      forall j | k + 1 <= j <= |parent| ensures Passes(fs, parent[..j], name) {
        assert parent[..j] == start[..j];
      }
      FindPathRaises(fs, name, parent, k);
    }
  }

  /** The search reads only the directories on the walk from `start` to the
      root, and of each only whether it is readable and whether it lists
      `name`: siblings and the rest of the tree make no difference. */
  lemma {:induction false} FindPathReadsOnlyTheWalk(fs1: FileSystem, fs2: FileSystem, name: string, start: Path)
    requires forall j :: 0 <= j <= |start| ==>
      && (start[..j] in fs1.listing <==> start[..j] in fs2.listing)
      && (Lists(fs1, start[..j], name) <==> Lists(fs2, start[..j], name))
    ensures FindPath(fs1, name, Some(start)) == FindPath(fs2, name, Some(start))
    decreases |start|
  {
    assert start[..|start|] == start;
    if start != [] && Passes(fs1, start, name) {
      var parent := Dirname(start);
      forall j | 0 <= j <= |parent|
        ensures && (parent[..j] in fs1.listing <==> parent[..j] in fs2.listing)
                && (Lists(fs1, parent[..j], name) <==> Lists(fs2, parent[..j], name))
      {
        assert parent[..j] == start[..j];
      }
      FindPathReadsOnlyTheWalk(fs1, fs2, name, parent);
    }
  }

  /** A successful search returns `name` joined to the start directory or
      to one of its ancestors; that directory lists `name`, and every
      directory below it on the walk was read and does not (nearest wins). */
  lemma FindPathFoundIsAncestorEntry(fs: FileSystem, name: string, path: Option<Path>)
    requires FindPath(fs, name, path).Found?
    ensures var p := FindPath(fs, name, path).path;
      exists k :: 0 <= k <= |StartDir(fs, path)|
        && p == Join(StartDir(fs, path)[..k], name)
        && Lists(fs, StartDir(fs, path)[..k], name)
        && PassedFrom(fs, name, StartDir(fs, path), k + 1)
  {
    var p := FindPath(fs, name, path).path;
    var start := StartDir(fs, path);
    var k := |p| - 1;
    assert Dirname(p) == start[..k];
    assert p == Join(start[..k], name);
  }

  /** add_extra_model_paths: the manifest path handed to the external
      configuration loader, if the search for "extra_model_paths.yaml" from
      the working directory finds one. When it does not, the loader is not
      called; an OSError from the search propagates. */
  datatype ConfigStep = LoadConfig(manifest: Path) | NoConfig | ConfigError(dir: Path)

  const ManifestName: string := "extra_model_paths.yaml"

  function AddExtraModelPaths(fs: FileSystem): (r: ConfigStep)
    ensures r.LoadConfig? <==> FindPath(fs, ManifestName, None).Found?
    ensures r.LoadConfig? ==> r.manifest == FindPath(fs, ManifestName, None).path
    ensures r.ConfigError? <==> FindPath(fs, ManifestName, None).ListError?
    ensures r.ConfigError? ==> r.dir == FindPath(fs, ManifestName, None).dir
    ensures r.LoadConfig? ==>
      && |r.manifest| > 0 && r.manifest[|r.manifest| - 1] == ManifestName
      && Dirname(r.manifest) <= fs.cwd
      && Lists(fs, Dirname(r.manifest), ManifestName)
    ensures r.NoConfig? <==> PassedFrom(fs, ManifestName, fs.cwd, 0)
    ensures r.ConfigError? ==> r.dir <= fs.cwd && r.dir !in fs.listing
  {
    match FindPath(fs, ManifestName, None)
    case Found(p) => LoadConfig(p)
    case NotFound => NoConfig
    case ListError(d) => ConfigError(d)
  }
}
