/** Paths and the file system the preprocessor reads from. A path is its
    text; joining and taking the parent directory follow the usual
    '/'-separated reading without normalisation. */
module Paths {
  import opened Wrappers

  type Path = string

  /** `dir / file`: an absolute `file` or an empty `dir` gives `file`;
      otherwise the two are joined by one '/'. */
  function Join(dir: Path, file: Path): Path
  {
    if dir == [] || (file != [] && file[0] == '/') then file
    else if dir[|dir| - 1] == '/' then dir + file
    else dir + "/" + file
  }

  /** Position of the last '/' in `p`, if any (`LastSlashIsLast`). */
  function LastSlash(p: Path): (r: Option<nat>)
    ensures r.Some? ==> r.value < |p|
  {
    if p == [] then None
    else if p[|p| - 1] == '/' then Some(|p| - 1)
    else LastSlash(p[..|p| - 1])
  }

  /** `LastSlash` finds a '/' with none after it, or reports that there is
      none at all. */
  lemma {:induction false} LastSlashIsLast(p: Path)
    ensures var r := LastSlash(p);
            (r.Some? ==> p[r.value] == '/' && forall i :: r.value < i < |p| ==> p[i] != '/') &&
            (r.None? ==> forall i :: 0 <= i < |p| ==> p[i] != '/')
    decreases |p|
  {
    if p != [] && p[|p| - 1] != '/' {
      var q := p[..|p| - 1];
      LastSlashIsLast(q);
      assert forall i :: 0 <= i < |q| ==> q[i] == p[i];
    }
  }

  /** The last '/' of `dir + "/" + name` is the one joining them when
      `name` holds none. */
  lemma {:induction false} LastSlashOfJoin(dir: Path, name: Path)
    requires '/' !in name
    ensures LastSlash(dir + "/" + name) == Some(|dir|)
    decreases |name|
  {
    var p := dir + "/" + name;
    if name == [] {
      assert p[|p| - 1] == '/';
    } else {
      assert p[|p| - 1] == name[|name| - 1];
      assert p[..|p| - 1] == dir + "/" + name[..|name| - 1];
      LastSlashOfJoin(dir, name[..|name| - 1]);
    }
  }

  /** The parent of a file named directly under a directory is that
      directory. */
  lemma ParentOfJoin(dir: Path, name: Path)
    requires dir != [] && dir[|dir| - 1] != '/' && name != [] && '/' !in name
    ensures ParentPath(Join(dir, name)) == dir
  {
    LastSlashOfJoin(dir, name);
    assert (dir + "/" + name)[..|dir|] == dir;
  }

  /** `p.parent_path()`: everything before the last '/', the root "/" for a
      path directly under it, and the empty path when there is no '/'. */
  function ParentPath(p: Path): Path
  {
    match LastSlash(p)
    case None => ""
    case Some(k) => if k == 0 then "/" else p[..k]
  }

  /** The file system: the text of every file that can be opened for
      reading, and the other paths that exist (directories, files that
      cannot be opened). A stream on one of the other paths does not open;
      for a directory that is the behaviour of some C++ libraries only. */
  datatype FileSystem = FileSystem(readable: map<Path, string>, otherEntries: set<Path>)

  /** `filesystem::exists`. */
  /** Whether a directory entry names `p`. A total predicate: the
      `filesystem::exists` overload the source calls throws instead of
      answering when the lookup fails for another reason than absence. */
  predicate Exists(fs: FileSystem, p: Path)
  {
    p in fs.readable || p in fs.otherEntries
  }

  /** Opening an input stream: its text, or None when it does not open. */
  function Open(fs: FileSystem, p: Path): (r: Option<string>)
    ensures r.Some? ==> Exists(fs, p)
  {
    if p in fs.readable then Some(fs.readable[p]) else None
  }
}
