/**
 * An abstract snapshot of the filesystem as the plugin scanner sees it.
 *
 * A directory listing yields entries whose kind comes from the entry itself
 * (an lstat-style type: a symbolic link is reported as a link and is not
 * followed). Opening a directory path, on the other hand, follows symbolic
 * links, as opening a path does.
 */
module FileSystem {
  import opened Wrappers

  type Path = string

  const Separator: char := '/'

  /** The largest number of symbolic links followed while opening one path (Linux MAXSYMLINKS). */
  const MaxSymlinkHops: nat := 40

  /** The type of a directory entry as reported by the listing. */
  datatype FileKind =
    | RegularFile(inode: nat)       // every hard link to an inode is a regular file of its own
    | SymbolicLink(target: Path)    // the target may or may not exist
    | Directory
    | Special                       // device, named pipe or socket

  datatype Entry = Entry(name: string, kind: FileKind)

  /** What a path names. */
  datatype Node =
    | Dir(readable: bool, entries: seq<Entry>)
    | File
    | Link(target: Path)

  type FileSystem = map<Path, Node>

  /** `filepath.Join(dir, name)` for a base name (path cleaning is not modelled). */
  function Join(dir: Path, name: string): Path
  {
    dir + [Separator] + name
  }

  /** Entry names are base names: non-empty, without a separator, unique within their directory. */
  predicate WellFormedEntries(es: seq<Entry>)
  {
    && (forall e :: e in es ==> e.name != [] && Separator !in e.name)
    && (forall i, j :: 0 <= i < j < |es| ==> es[i].name != es[j].name)
  }

  predicate WellFormed(fs: FileSystem)
  {
    forall p :: p in fs && fs[p].Dir? ==> WellFormedEntries(fs[p].entries)
  }

  /** Opens `path` as a directory, following at most `hops` symbolic links. */
  function ReadDirFollowing(fs: FileSystem, path: Path, hops: nat): Option<seq<Entry>>
    decreases hops
  {
    if path !in fs then None                           // missing path or broken link
    else match fs[path]
      case Dir(readable, entries) => if readable then Some(entries) else None
      case File => None                                // not a directory
      case Link(target) => if hops == 0 then None      // too many levels of links
                           else ReadDirFollowing(fs, target, hops - 1)
  }

  /** `os.ReadDir`: the entries of a directory, or None when it cannot be listed. */
  function ReadDir(fs: FileSystem, path: Path): Option<seq<Entry>>
  {
    ReadDirFollowing(fs, path, MaxSymlinkHops)
  }

  /** A successful listing is the listing of a readable directory of the snapshot. */
  lemma {:induction false} ReadDirFollowingListsADirectory(fs: FileSystem, path: Path, hops: nat)
    requires ReadDirFollowing(fs, path, hops).Some?
    ensures exists q :: q in fs && fs[q] == Dir(true, ReadDirFollowing(fs, path, hops).value)
    decreases hops
  {
    match fs[path]
    case Dir(readable, entries) =>
      assert fs[path] == Dir(true, entries);
    case Link(target) =>
      ReadDirFollowingListsADirectory(fs, target, hops - 1);
  }

  lemma ReadDirListsADirectory(fs: FileSystem, path: Path)
    requires ReadDir(fs, path).Some?
    ensures exists q :: q in fs && fs[q] == Dir(true, ReadDir(fs, path).value)
  {
    ReadDirFollowingListsADirectory(fs, path, MaxSymlinkHops);
  }

  /** Listings of a well-formed snapshot have well-formed entries. */
  lemma ReadDirWellFormed(fs: FileSystem, path: Path)
    requires WellFormed(fs) && ReadDir(fs, path).Some?
    ensures WellFormedEntries(ReadDir(fs, path).value)
  {
    ReadDirListsADirectory(fs, path);
  }

  /** Missing paths, regular files, unreadable directories and broken links cannot be listed. */
  lemma ReadDirFailures(fs: FileSystem, path: Path)
    ensures path !in fs ==> ReadDir(fs, path) == None
    ensures path in fs && fs[path].File? ==> ReadDir(fs, path) == None
    ensures path in fs && fs[path].Dir? && !fs[path].readable ==> ReadDir(fs, path) == None
    ensures path in fs && fs[path].Dir? && fs[path].readable ==> ReadDir(fs, path) == Some(fs[path].entries)
    ensures path in fs && fs[path].Link? && fs[path].target !in fs ==> ReadDir(fs, path) == None
  {
  }

  /** A symbolic link to a directory is followed: its listing is the target's. */
  lemma ReadDirFollowsLink(fs: FileSystem, link: Path, target: Path)
    requires link in fs && fs[link] == Link(target)
    requires target in fs && fs[target].Dir?
    ensures ReadDir(fs, link) == ReadDir(fs, target)
  {
  }

  /**
   * Two joined paths are equal only when directory and base name are: the
   * base name is what follows the last separator.
   */
  lemma JoinInjective(d1: Path, n1: string, d2: Path, n2: string)
    requires Separator !in n1 && Separator !in n2
    requires Join(d1, n1) == Join(d2, n2)
    ensures d1 == d2 && n1 == n2
  {
    var s := Join(d1, n1);
    assert s[|d1|] == Separator && s[|d2|] == Separator;
    assert forall i :: |d2| < i < |s| ==> s[i] == n2[i - |d2| - 1];
    assert forall i :: |d1| < i < |s| ==> s[i] == n1[i - |d1| - 1];
    assert |d1| == |d2|;
    assert d1 == s[..|d1|] == d2;
    assert n1 == s[|d1| + 1..] == n2;
  }
}
