/** Resolution of an include reference to an existing file (`FileSearch`,
    main.cpp:17-34): the including file's directory first when the search
    allows it (quoted references), then the include directories in order;
    the first candidate that exists wins. */
module FileSearch {
  import opened Wrappers
  import opened Paths

  /** Position of the first include directory under which `file` exists
      (`FirstHitIsFirst`). */
  function FirstHit(fs: FileSystem, dirs: seq<Path>, file: Path): (r: Option<nat>)
    ensures r.Some? ==> r.value < |dirs|
  {
    if dirs == [] then None
    else if Exists(fs, Join(dirs[0], file)) then Some(0)
    else
      match FirstHit(fs, dirs[1..], file)
      case None => None
      case Some(i) => Some(i + 1)
  }

  /** `FirstHit` finds a directory holding the file with none before it
      holding it, and finds none exactly when no directory holds it. */
  lemma {:induction false} FirstHitIsFirst(fs: FileSystem, dirs: seq<Path>, file: Path)
    ensures var r := FirstHit(fs, dirs, file);
            (r.Some? ==> Exists(fs, Join(dirs[r.value], file)) &&
                         forall j :: 0 <= j < r.value ==> !Exists(fs, Join(dirs[j], file))) &&
            (r.None? <==> forall j :: 0 <= j < |dirs| ==> !Exists(fs, Join(dirs[j], file)))
    decreases |dirs|
  {
    if dirs != [] && !Exists(fs, Join(dirs[0], file)) {
      FirstHitIsFirst(fs, dirs[1..], file);
      assert forall j :: 1 <= j < |dirs| ==> dirs[1..][j - 1] == dirs[j];
    }
  }

  /** The pair `FileSearch` returns: whether a candidate was found, and the
      found path or else the reference unchanged. Its properties are the
      lemmas below. */
  function Search(fs: FileSystem, file: Path, parentDir: Path, parentDirForSearch: bool, dirs: seq<Path>): (bool, Path)
  {
    if parentDirForSearch && Exists(fs, Join(parentDir, file)) then (true, Join(parentDir, file))
    else
      match FirstHit(fs, dirs, file)
      case Some(i) => (true, Join(dirs[i], file))
      case None => (false, file)
  }

  /** A quoted reference present next to the including file is taken from
      there, before any include directory is looked at. */
  lemma SearchLocalFirst(fs: FileSystem, file: Path, parentDir: Path, dirs: seq<Path>)
    requires Exists(fs, Join(parentDir, file))
    ensures Search(fs, file, parentDir, true, dirs) == (true, Join(parentDir, file))
  {
  }

  /** Otherwise the first listed include directory holding the file wins. */
  lemma SearchFirstListed(fs: FileSystem, file: Path, parentDir: Path, parentDirForSearch: bool, dirs: seq<Path>, i: nat)
    requires !(parentDirForSearch && Exists(fs, Join(parentDir, file)))
    requires i < |dirs| && Exists(fs, Join(dirs[i], file))
    requires forall j :: 0 <= j < i ==> !Exists(fs, Join(dirs[j], file))
    ensures Search(fs, file, parentDir, parentDirForSearch, dirs) == (true, Join(dirs[i], file))
  {
    FirstHitIsFirst(fs, dirs, file);
    assert FirstHit(fs, dirs, file) == Some(i);
  }

  /** An angled reference never looks next to the including file: the
      result does not depend on the including file's directory. */
  lemma SearchAngledIgnoresParent(fs: FileSystem, file: Path, parentDir: Path, otherDir: Path, dirs: seq<Path>)
    ensures Search(fs, file, parentDir, false, dirs) == Search(fs, file, otherDir, false, dirs)
  {
  }

  /** Nothing is found exactly when no candidate exists, and then the
      reference itself comes back; what is found exists. */
  lemma SearchOutcome(fs: FileSystem, file: Path, parentDir: Path, parentDirForSearch: bool, dirs: seq<Path>)
    ensures var (found, path) := Search(fs, file, parentDir, parentDirForSearch, dirs);
            (!found <==> !(parentDirForSearch && Exists(fs, Join(parentDir, file))) &&
                         forall j :: 0 <= j < |dirs| ==> !Exists(fs, Join(dirs[j], file))) &&
            (!found ==> path == file) &&
            (found ==> Exists(fs, path))
  {
    FirstHitIsFirst(fs, dirs, file);
  }

  /** `FileSearch` as the source writes it: a loop over the include
      directories with an early return on the first existing candidate. */
  method FileSearch(fs: FileSystem, file: Path, parentDir: Path, parentDirForSearch: bool, dirs: seq<Path>)
    returns (found: bool, foundPath: Path)
    ensures (found, foundPath) == Search(fs, file, parentDir, parentDirForSearch, dirs)
  {
    if parentDirForSearch {
      foundPath := Join(parentDir, file);
      if Exists(fs, foundPath) {
        return true, foundPath;
      }
    }
    for i := 0 to |dirs|
      invariant forall j :: 0 <= j < i ==> !Exists(fs, Join(dirs[j], file))
    {
      foundPath := Join(dirs[i], file);
      if Exists(fs, foundPath) {
        SearchFirstListed(fs, file, parentDir, parentDirForSearch, dirs, i);
        return true, foundPath;
      }
    }
    FirstHitIsFirst(fs, dirs, file);
    return false, file;
  }
}
