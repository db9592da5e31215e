/** The parts of the file system the navigator sees: paths, the two path
    operations it performs when changing directory, and directory entries.

    A path is the list of its segments, so `filepath.Join(cwd, name)` appends
    one segment and `filepath.Dir(cwd)` drops the last one; the empty list is
    the starting directory ".". Cleaning of `..`, separators inside names and
    the root of an absolute path are properties of the Go library and are not
    modelled. */
module FileSystem {

  type Path = seq<string>

  /** One `os.DirEntry`: the navigator asks it only for `Name()` and `IsDir()`. */
  datatype Entry = Entry(name: string, isDir: bool)

  /** `filepath.Join(dir, name)`: the child `name` of `dir`. */
  function Join(dir: Path, name: string): (r: Path)
    ensures |r| == |dir| + 1
    ensures r[..|dir|] == dir && r[|dir|] == name
  {
    dir + [name]
  }

  /** `filepath.Dir(p)`: the parent of `p`; the starting directory is its own parent. */
  function Dir(p: Path): (r: Path)
    ensures |p| > 0 ==> |r| == |p| - 1 && r == p[..|p| - 1]
    ensures p == [] ==> r == []
  {
    if p == [] then [] else p[..|p| - 1]
  }

  /** Going into a child and back up returns to where one started. */
  lemma DirOfJoin(dir: Path, name: string)
    ensures Dir(Join(dir, name)) == dir
  {
  }

  /** Going up and back into the last segment returns to where one started. */
  lemma JoinOfDir(p: Path)
    requires |p| > 0
    ensures Join(Dir(p), p[|p| - 1]) == p
  {
  }
}
