/** The interpreter's module search path and the one operation of the
    driver that changes it (add_comfyui_directory_to_sys_path). */
module SysPath {
  import opened PathSearch

  /** The name of the framework installation the driver looks for. */
  const FrameworkName: string := "ComfyUI"

  /** The `sys` module's state that the driver touches: the list `sys.path`. */
  class Sys {
    var path: seq<Path>

    constructor (initial: seq<Path>)
      ensures path == initial
    {
      path := initial;
    }

    /** Search for "ComfyUI" upward from the working directory and append the
        result to `sys.path` when it is found and is a directory. Otherwise
        `sys.path` is left as it was. An OSError from the search propagates
        before anything is changed; it is returned as `raised`. */
    method AddFrameworkDirectoryToPath(fs: FileSystem) returns (raised: Option<Path>)
      modifies this
      ensures var found := FindPath(fs, FrameworkName, None);
        && raised == (if found.ListError? then Some(found.dir) else None)
        && path == (if found.Found? && IsDir(fs, found.path)
                    then old(path) + [found.path]
                    else old(path))
      ensures old(path) <= path && |path| <= |old(path)| + 1
      ensures |path| == |old(path)| + 1 ==>
        && IsDir(fs, path[|path| - 1])
        && Dirname(path[|path| - 1]) <= fs.cwd
        && path[|path| - 1][|path[|path| - 1]| - 1] == FrameworkName
    {
      var found := FindPath(fs, FrameworkName, None);
      if found.ListError? {
        raised := Some(found.dir);
        return;
      }
      raised := None;
      if found.Found? && IsDir(fs, found.path) {
        path := path + [found.path];
      }
    }
  }
}
