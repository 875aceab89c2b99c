/**
 * The scan of a tree of shadowed and bogus candidates, checked name by name:
 * a plain file, a link to a file, two hard links to one file, a
 * subdirectory, a broken link, a directory reached through a link, a
 * missing directory, a plain file and a broken link standing in a
 * directory's place.
 */
module FixtureScan {
  import opened Wrappers
  import opened FileSystem
  import opened Candidates

  function Plugins1(): seq<Entry>
  {
    [ Entry(NamePrefix + "plugin1", RegularFile(1)),
      Entry("not-a-plugin", RegularFile(2)),
      Entry(NamePrefix + "symlinked1", RegularFile(3)),
      Entry(NamePrefix + "symlinked2", SymbolicLink("docker-symlinked1")),
      Entry("ignored1", Directory) ]
  }

  /** `docker-hardlink2` is a second hard link to the inode of `docker-hardlink1`. */
  function Plugins2(): seq<Entry>
  {
    [ Entry(NamePrefix + "plugin1", RegularFile(4)),
      Entry("also-not-a-plugin", RegularFile(5)),
      Entry(NamePrefix + "hardlink1", RegularFile(6)),
      Entry(NamePrefix + "hardlink2", RegularFile(6)),
      Entry("ignored2", Directory) ]
  }

  function Plugins3Target(): seq<Entry>
  {
    [ Entry(NamePrefix + "plugin1", RegularFile(7)),
      Entry("ignored3", Directory),
      Entry(NamePrefix + "brokensymlink", SymbolicLink("broken")),
      Entry("non-plugin-symlinked", RegularFile(8)),
      Entry(NamePrefix + "symlinked", SymbolicLink("non-plugin-symlinked")) ]
  }

  function Tree(): FileSystem
  {
    map[
      "/t/plugins1" := Dir(true, Plugins1()),
      "/t/plugins2" := Dir(true, Plugins2()),
      "/t/plugins3-target" := Dir(true, Plugins3Target()),
      "/t/plugins3" := Link("/t/plugins3-target"),
      "/t/plugins4" := File,
      "/t/plugins5" := Link("/t/plugins5-nonexistent-target")]
  }

  function SearchDirs(): seq<Path>
  {
    ["/t/plugins1", "/t/nonexistent", "/t/plugins2", "/t/plugins3", "/t/plugins4", "/t/plugins5"]
  }

  /** Five entries contribute their paths for `k` in listing order. */
  lemma EntryPathsOfFive(d: Path, es: seq<Entry>, k: string)
    requires |es| == 5
    ensures EntryPaths(d, es, k)
            == EntryPath(d, es[0], k) + EntryPath(d, es[1], k) + EntryPath(d, es[2], k)
               + EntryPath(d, es[3], k) + EntryPath(d, es[4], k)
  {
    var e0, e1, e2, e3, e4 := es[0], es[1], es[2], es[3], es[4];
    assert es == [e0] + [e1, e2, e3, e4];
    assert [e1, e2, e3, e4] == [e1] + [e2, e3, e4];
    assert [e2, e3, e4] == [e2] + [e3, e4];
    assert [e3, e4] == [e3] + [e4];
    assert [e4] == [e4] + [];
    EntryPathsCons(d, e0, [e1, e2, e3, e4], k);
    EntryPathsCons(d, e1, [e2, e3, e4], k);
    EntryPathsCons(d, e2, [e3, e4], k);
    EntryPathsCons(d, e3, [e4], k);
    EntryPathsCons(d, e4, [], k);
  }

  /** Only the first, third and fourth directories can be listed; the fourth through its link. */
  lemma Listings()
    ensures ReadDir(Tree(), "/t/plugins1") == Some(Plugins1())
    ensures ReadDir(Tree(), "/t/nonexistent") == None
    ensures ReadDir(Tree(), "/t/plugins2") == Some(Plugins2())
    ensures ReadDir(Tree(), "/t/plugins3") == Some(Plugins3Target())
    ensures ReadDir(Tree(), "/t/plugins4") == None
    ensures ReadDir(Tree(), "/t/plugins5") == None
  {
    ReadDirFollowsLink(Tree(), "/t/plugins3", "/t/plugins3-target");
  }

  /** Three directories contribute their paths for `k` in order. */
  lemma PathsForOfThree(fs: FileSystem, d0: Path, d1: Path, d2: Path, k: string)
    ensures PathsFor(fs, [d0, d1, d2], k) == DirPaths(fs, d0, k) + DirPaths(fs, d1, k) + DirPaths(fs, d2, k)
  {
    assert [d0, d1, d2] == [d0] + [d1, d2];
    assert [d1, d2] == [d1] + [d2];
    PathsForCons(fs, d0, [d1, d2], k);
    PathsForCons(fs, d1, [d2], k);
    PathsForSingleton(fs, d2, k);
  }

  /** Six directories contribute their paths for `k` in search order. */
  lemma PathsForOfSix(fs: FileSystem, ds: seq<Path>, k: string)
    requires |ds| == 6
    ensures PathsFor(fs, ds, k)
            == DirPaths(fs, ds[0], k) + DirPaths(fs, ds[1], k) + DirPaths(fs, ds[2], k)
               + DirPaths(fs, ds[3], k) + DirPaths(fs, ds[4], k) + DirPaths(fs, ds[5], k)
  {
    assert ds == [ds[0], ds[1], ds[2]] + [ds[3], ds[4], ds[5]];
    PathsForAppend(fs, [ds[0], ds[1], ds[2]], [ds[3], ds[4], ds[5]], k);
    PathsForOfThree(fs, ds[0], ds[1], ds[2], k);
    PathsForOfThree(fs, ds[3], ds[4], ds[5], k);
  }

  /**
   * A scan of six directories of which only the first, third and fourth can
   * be listed yields, for any name, the paths of those three, in order.
   */
  lemma ScanOfSix(fs: FileSystem, ds: seq<Path>, k: string)
    requires |ds| == 6
    requires ReadDir(fs, ds[0]).Some? && ReadDir(fs, ds[2]).Some? && ReadDir(fs, ds[3]).Some?
    requires ReadDir(fs, ds[1]) == None && ReadDir(fs, ds[4]) == None && ReadDir(fs, ds[5]) == None
    ensures Lookup(CandidatesOf(fs, ds), k)
            == EntryPaths(ds[0], ReadDir(fs, ds[0]).value, k)
               + EntryPaths(ds[2], ReadDir(fs, ds[2]).value, k)
               + EntryPaths(ds[3], ReadDir(fs, ds[3]).value, k)
  {
    CandidatesLookup(fs, ds, k);
    PathsForOfSix(fs, ds, k);
  }

  /** The paths for any name are those of the three listable directories, in search order. */
  lemma SearchPaths(k: string)
    ensures Lookup(CandidatesOf(Tree(), SearchDirs()), k)
            == EntryPaths("/t/plugins1", Plugins1(), k)
               + EntryPaths("/t/plugins2", Plugins2(), k)
               + EntryPaths("/t/plugins3", Plugins3Target(), k)
  {
    Listings();
    ScanOfSix(Tree(), SearchDirs(), k);
  }

  /** An entry whose name does not start like the prefix is no candidate. */
  lemma Unprefixed(e: Entry)
    requires e.name != [] && e.name[0] != NamePrefix[0]
    ensures PluginName(e) == None
  {
    if |NamePrefix| <= |e.name| {
      assert e.name[..|NamePrefix|][0] == e.name[0];
    }
  }

  lemma Plugins1Names()
    ensures PluginName(Plugins1()[0]) == Some("plugin1")
    ensures PluginName(Plugins1()[1]) == None
    ensures PluginName(Plugins1()[2]) == Some("symlinked1")
    ensures PluginName(Plugins1()[3]) == Some("symlinked2")
    ensures PluginName(Plugins1()[4]) == None
  {
    var es := Plugins1();
    PluginNameIff(es[0], "plugin1");
    Unprefixed(es[1]);
    PluginNameIff(es[2], "symlinked1");
    PluginNameIff(es[3], "symlinked2");
  }

  lemma Plugins2Names()
    ensures PluginName(Plugins2()[0]) == Some("plugin1")
    ensures PluginName(Plugins2()[1]) == None
    ensures PluginName(Plugins2()[2]) == Some("hardlink1")
    ensures PluginName(Plugins2()[3]) == Some("hardlink2")
    ensures PluginName(Plugins2()[4]) == None
  {
    var es := Plugins2();
    PluginNameIff(es[0], "plugin1");
    Unprefixed(es[1]);
    PluginNameIff(es[2], "hardlink1");
    PluginNameIff(es[3], "hardlink2");
  }

  lemma Plugins3Names()
    ensures PluginName(Plugins3Target()[0]) == Some("plugin1")
    ensures PluginName(Plugins3Target()[1]) == None
    ensures PluginName(Plugins3Target()[2]) == Some("brokensymlink")
    ensures PluginName(Plugins3Target()[3]) == None
    ensures PluginName(Plugins3Target()[4]) == Some("symlinked")
  {
    var es := Plugins3Target();
    PluginNameIff(es[0], "plugin1");
    Unprefixed(es[3]);
    PluginNameIff(es[2], "brokensymlink");
    PluginNameIff(es[4], "symlinked");
  }

  /** The facts that evaluate the scan for `k`, entry by entry. */
  lemma Evaluate(k: string)
    ensures Lookup(CandidatesOf(Tree(), SearchDirs()), k)
            == EntryPaths("/t/plugins1", Plugins1(), k)
               + EntryPaths("/t/plugins2", Plugins2(), k)
               + EntryPaths("/t/plugins3", Plugins3Target(), k)
    ensures EntryPaths("/t/plugins1", Plugins1(), k)
            == EntryPath("/t/plugins1", Plugins1()[0], k) + EntryPath("/t/plugins1", Plugins1()[1], k)
               + EntryPath("/t/plugins1", Plugins1()[2], k) + EntryPath("/t/plugins1", Plugins1()[3], k)
               + EntryPath("/t/plugins1", Plugins1()[4], k)
    ensures EntryPaths("/t/plugins2", Plugins2(), k)
            == EntryPath("/t/plugins2", Plugins2()[0], k) + EntryPath("/t/plugins2", Plugins2()[1], k)
               + EntryPath("/t/plugins2", Plugins2()[2], k) + EntryPath("/t/plugins2", Plugins2()[3], k)
               + EntryPath("/t/plugins2", Plugins2()[4], k)
    ensures EntryPaths("/t/plugins3", Plugins3Target(), k)
            == EntryPath("/t/plugins3", Plugins3Target()[0], k) + EntryPath("/t/plugins3", Plugins3Target()[1], k)
               + EntryPath("/t/plugins3", Plugins3Target()[2], k) + EntryPath("/t/plugins3", Plugins3Target()[3], k)
               + EntryPath("/t/plugins3", Plugins3Target()[4], k)
  {
    SearchPaths(k);
    EntryPathsOfFive("/t/plugins1", Plugins1(), k);
    EntryPathsOfFive("/t/plugins2", Plugins2(), k);
    EntryPathsOfFive("/t/plugins3", Plugins3Target(), k);
  }

  /** `plugin1` is found in all three listable directories, in search order. */
  lemma Plugin1InEveryDirectory()
    ensures Lookup(CandidatesOf(Tree(), SearchDirs()), "plugin1")
            == [Join("/t/plugins1", NamePrefix + "plugin1"),
                Join("/t/plugins2", NamePrefix + "plugin1"),
                Join("/t/plugins3", NamePrefix + "plugin1")]
  {
    Evaluate("plugin1");
    Plugins1Names();
    Plugins2Names();
    Plugins3Names();
  }

  /** A file and a link to it are two plugins, each under its own name. */
  lemma LinkAndTargetBothListed()
    ensures Lookup(CandidatesOf(Tree(), SearchDirs()), "symlinked1") == [Join("/t/plugins1", NamePrefix + "symlinked1")]
    ensures Lookup(CandidatesOf(Tree(), SearchDirs()), "symlinked2") == [Join("/t/plugins1", NamePrefix + "symlinked2")]
  {
    Plugins1Names();
    Plugins2Names();
    Plugins3Names();
    Evaluate("symlinked1");
    Evaluate("symlinked2");
  }

  /** Two hard links to one file are two plugins. */
  lemma HardLinksBothListed()
    ensures Lookup(CandidatesOf(Tree(), SearchDirs()), "hardlink1") == [Join("/t/plugins2", NamePrefix + "hardlink1")]
    ensures Lookup(CandidatesOf(Tree(), SearchDirs()), "hardlink2") == [Join("/t/plugins2", NamePrefix + "hardlink2")]
  {
    Plugins1Names();
    Plugins2Names();
    Plugins3Names();
    Evaluate("hardlink1");
    Evaluate("hardlink2");
  }

  /**
   * In the directory reached through a link, a broken link and a link to a
   * non-plugin file are both candidates, listed under the link directory's path.
   */
  lemma LinksInLinkedDirectoryListed()
    ensures Lookup(CandidatesOf(Tree(), SearchDirs()), "brokensymlink") == [Join("/t/plugins3", NamePrefix + "brokensymlink")]
    ensures Lookup(CandidatesOf(Tree(), SearchDirs()), "symlinked") == [Join("/t/plugins3", NamePrefix + "symlinked")]
  {
    Plugins1Names();
    Plugins2Names();
    Plugins3Names();
    Evaluate("brokensymlink");
    Evaluate("symlinked");
  }

  /** No name outside the seven candidates is found. */
  lemma OnlyCandidateNames(k: string)
    requires k in CandidatesOf(Tree(), SearchDirs())
    ensures k in {"plugin1", "symlinked1", "symlinked2", "hardlink1", "hardlink2", "brokensymlink", "symlinked"}
  {
    Plugins1Names();
    Plugins2Names();
    Plugins3Names();
    Evaluate(k);
    CandidatesNonEmpty(Tree(), SearchDirs(), k);
  }

  /** The names found are exactly the seven candidates; `not-a-plugin`, the subdirectories and `non-plugin-symlinked` give none. */
  lemma ExactlySevenNames()
    ensures CandidatesOf(Tree(), SearchDirs()).Keys
            == {"plugin1", "symlinked1", "symlinked2", "hardlink1", "hardlink2", "brokensymlink", "symlinked"}
  {
    Plugin1InEveryDirectory();
    LinkAndTargetBothListed();
    HardLinksBothListed();
    LinksInLinkedDirectoryListed();
    forall k | k in CandidatesOf(Tree(), SearchDirs())
      ensures k in {"plugin1", "symlinked1", "symlinked2", "hardlink1", "hardlink2", "brokensymlink", "symlinked"}
    {
      OnlyCandidateNames(k);
    }
  }

  /** The scan of the whole tree is the map the test expects. */
  lemma WholeTree()
    ensures CandidatesOf(Tree(), SearchDirs()) == map[
      "plugin1" := [Join("/t/plugins1", NamePrefix + "plugin1"),
                    Join("/t/plugins2", NamePrefix + "plugin1"),
                    Join("/t/plugins3", NamePrefix + "plugin1")],
      "symlinked1" := [Join("/t/plugins1", NamePrefix + "symlinked1")],
      "symlinked2" := [Join("/t/plugins1", NamePrefix + "symlinked2")],
      "hardlink1" := [Join("/t/plugins2", NamePrefix + "hardlink1")],
      "hardlink2" := [Join("/t/plugins2", NamePrefix + "hardlink2")],
      "brokensymlink" := [Join("/t/plugins3", NamePrefix + "brokensymlink")],
      "symlinked" := [Join("/t/plugins3", NamePrefix + "symlinked")]]
  {
    var m := CandidatesOf(Tree(), SearchDirs());
    ExactlySevenNames();
    Plugin1InEveryDirectory();
    LinkAndTargetBothListed();
    HardLinksBothListed();
    LinksInLinkedDirectoryListed();
  }
}
