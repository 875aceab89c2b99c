/**
 * The candidate scan: which directory entries look like plugins, and the map
 * from logical plugin name to every path found for it, in directory order.
 *
 * `CandidatesOf` is the accumulated map the scan builds, one directory and
 * one entry at a time; `PathsFor` is an independent per-name reference
 * definition. `CandidatesLookup` proves that the two agree, and the
 * properties of the scan are derived from that.
 */
module Candidates {
  import opened Wrappers
  import opened FileSystem
  import opened Sequences

  /** The fixed file-name prefix of every plugin executable. */
  const NamePrefix: string := "docker-"

  /** Logical plugin name to the full paths found for it. */
  type CandidateMap = map<string, seq<Path>>

  predicate HasPrefix(s: string, prefix: string)
  {
    |prefix| <= |s| && s[..|prefix|] == prefix
  }

  /** Regular files (hard links included) and symbolic links may be plugins; nothing else. */
  predicate IsCandidateKind(kind: FileKind)
  {
    kind.RegularFile? || kind.SymbolicLink?
  }

  /** The logical plugin name of an entry, if the entry is a candidate at all. */
  function PluginName(e: Entry): Option<string>
  {
    if IsCandidateKind(e.kind) && HasPrefix(e.name, NamePrefix) && |e.name| > |NamePrefix|
    then Some(e.name[|NamePrefix|..])
    else None
  }

  /** An entry is a candidate for `k` exactly when it is a file or link named `docker-<k>`, `k` non-empty. */
  lemma PluginNameIff(e: Entry, k: string)
    ensures PluginName(e) == Some(k) <==> IsCandidateKind(e.kind) && k != "" && e.name == NamePrefix + k
  {
    if IsCandidateKind(e.kind) && k != "" && e.name == NamePrefix + k {
      assert e.name[..|NamePrefix|] == NamePrefix;
      assert e.name[|NamePrefix|..] == k;
    }
    if PluginName(e) == Some(k) {
      assert e.name == e.name[..|NamePrefix|] + e.name[|NamePrefix|..];
    }
  }

  /** Reading a missing key of a Go map of slices yields the empty slice. */
  function Lookup(m: CandidateMap, k: string): seq<Path>
  {
    if k in m then m[k] else []
  }

  // ---------------------------------------------------------------------
  // The scan as the program accumulates it

  /** One entry of directory `d`: `res[name] = append(res[name], filepath.Join(d, entry))`. */
  function AddEntry(res: CandidateMap, d: Path, e: Entry): CandidateMap
  {
    match PluginName(e)
    case None => res
    case Some(k) => res[k := Lookup(res, k) + [Join(d, e.name)]]
  }

  /** The entries `es` of directory `d`, in listing order. */
  function AddEntries(res: CandidateMap, d: Path, es: seq<Entry>): CandidateMap
    decreases |es|
  {
    if es == [] then res
    else AddEntry(AddEntries(res, d, es[..|es| - 1]), d, es[|es| - 1])
  }

  /** One directory; a directory that cannot be listed leaves the map as it was. */
  function AddDir(res: CandidateMap, fs: FileSystem, d: Path): CandidateMap
  {
    match ReadDir(fs, d)
    case None => res
    case Some(es) => AddEntries(res, d, es)
  }

  /** The whole scan of `dirs`, in order, starting from the empty map. */
  function CandidatesOf(fs: FileSystem, dirs: seq<Path>): CandidateMap
    decreases |dirs|
  {
    if dirs == [] then map[]
    else AddDir(CandidatesOf(fs, dirs[..|dirs| - 1]), fs, dirs[|dirs| - 1])
  }

  // ---------------------------------------------------------------------
  // The per-name reference definition

  /** The path entry `e` of `d` contributes for plugin name `k`, if any. */
  function EntryPath(d: Path, e: Entry, k: string): seq<Path>
  {
    if PluginName(e) == Some(k) then [Join(d, e.name)] else []
  }

  /** The paths that entries `es` of `d` contribute for plugin name `k`. */
  function EntryPaths(d: Path, es: seq<Entry>, k: string): seq<Path>
  {
    FlatMap(es, (e: Entry) => EntryPath(d, e, k))
  }

  function DirPaths(fs: FileSystem, d: Path, k: string): seq<Path>
  {
    match ReadDir(fs, d)
    case None => []
    case Some(es) => EntryPaths(d, es, k)
  }

  /** Every path for `k`: the contribution of each directory, concatenated in directory order. */
  function PathsFor(fs: FileSystem, dirs: seq<Path>, k: string): seq<Path>
  {
    FlatMap(dirs, (d: Path) => DirPaths(fs, d, k))
  }

  /** `e` is listed in directory `d`. */
  predicate InListing(fs: FileSystem, d: Path, e: Entry)
  {
    ReadDir(fs, d).Some? && e in ReadDir(fs, d).value
  }

  // ---------------------------------------------------------------------
  // The scan as a loop, proved against `CandidatesOf`

  /** `addPluginCandidatesFromDir`: adds the candidates of one directory to `res`. */
  method AddPluginCandidatesFromDir(res: CandidateMap, fs: FileSystem, d: Path) returns (r: CandidateMap)
    ensures r == AddDir(res, fs, d)
  {
    var listing := ReadDir(fs, d);
    if listing.None? {
      return res;                                   // cannot be listed: silently skipped
    }
    var entries := listing.value;
    r := res;
    var i := 0;
    while i < |entries|
      invariant 0 <= i <= |entries|
      invariant r == AddEntries(res, d, entries[..i])
    {
      var e := entries[i];
      if IsCandidateKind(e.kind) && HasPrefix(e.name, NamePrefix) {
        var name := e.name[|NamePrefix|..];
        if name != "" {
          var paths := if name in r then r[name] else [];
          r := r[name := paths + [Join(d, e.name)]];
        }
      }
      assert entries[..i + 1][..i] == entries[..i];
      i := i + 1;
    }
    assert entries[..|entries|] == entries;
  }

  /** `listPluginCandidates`: scans every directory of `dirs`, in order. */
  method ListPluginCandidates(fs: FileSystem, dirs: seq<Path>) returns (result: CandidateMap)
    ensures result == CandidatesOf(fs, dirs)
  {
    result := map[];
    for i := 0 to |dirs|
      invariant result == CandidatesOf(fs, dirs[..i])
    {
      assert dirs[..i + 1][..i] == dirs[..i];
      result := AddPluginCandidatesFromDir(result, fs, dirs[i]);
    }
    assert dirs[..|dirs|] == dirs;
  }

  // ---------------------------------------------------------------------
  // The accumulated map agrees with the reference definition

  lemma {:induction false} AddEntriesLookup(res: CandidateMap, d: Path, es: seq<Entry>, k: string)
    ensures Lookup(AddEntries(res, d, es), k) == Lookup(res, k) + EntryPaths(d, es, k)
    ensures k in AddEntries(res, d, es) <==> k in res || EntryPaths(d, es, k) != []
    decreases |es|
  {
    if es != [] {
      AddEntriesLookup(res, d, es[..|es| - 1], k);
    }
  }

  /** The scan's map holds, for each name, exactly the reference paths, and only names that have some. */
  lemma {:induction false} CandidatesLookup(fs: FileSystem, dirs: seq<Path>, k: string)
    ensures Lookup(CandidatesOf(fs, dirs), k) == PathsFor(fs, dirs, k)
    ensures k in CandidatesOf(fs, dirs) <==> PathsFor(fs, dirs, k) != []
    decreases |dirs|
  {
    if dirs != [] {
      var init := dirs[..|dirs| - 1];
      CandidatesLookup(fs, init, k);
      match ReadDir(fs, dirs[|dirs| - 1])
      case None =>
      case Some(es) => AddEntriesLookup(CandidatesOf(fs, init), dirs[|dirs| - 1], es, k);
    }
  }

  /** No name maps to an empty list of paths. */
  lemma CandidatesNonEmpty(fs: FileSystem, dirs: seq<Path>, k: string)
    requires k in CandidatesOf(fs, dirs)
    ensures CandidatesOf(fs, dirs)[k] != []
  {
    CandidatesLookup(fs, dirs, k);
  }

  /** The scan is determined by the per-name paths. */
  lemma CandidatesDetermined(fs: FileSystem, a: seq<Path>, b: seq<Path>)
    requires forall k :: PathsFor(fs, a, k) == PathsFor(fs, b, k)
    ensures CandidatesOf(fs, a) == CandidatesOf(fs, b)
  {
    var ma, mb := CandidatesOf(fs, a), CandidatesOf(fs, b);
    forall k
      ensures (k in ma <==> k in mb) && Lookup(ma, k) == Lookup(mb, k)
    {
      CandidatesLookup(fs, a, k);
      CandidatesLookup(fs, b, k);
    }
    assert ma.Keys == mb.Keys;
    forall k | k in ma
      ensures ma[k] == mb[k]
    {
      assert Lookup(ma, k) == Lookup(mb, k);
    }
  }

  lemma PathsForAppend(fs: FileSystem, a: seq<Path>, b: seq<Path>, k: string)
    ensures PathsFor(fs, a + b, k) == PathsFor(fs, a, k) + PathsFor(fs, b, k)
  {
    FlatMapAppend(a, b, (d: Path) => DirPaths(fs, d, k));
  }

  lemma PathsForSingleton(fs: FileSystem, d: Path, k: string)
    ensures PathsFor(fs, [d], k) == DirPaths(fs, d, k)
  {
    FlatMapSingleton(d, (d: Path) => DirPaths(fs, d, k));
  }

  lemma EntryPathsCons(d: Path, e: Entry, es: seq<Entry>, k: string)
    ensures EntryPaths(d, [e] + es, k) == EntryPath(d, e, k) + EntryPaths(d, es, k)
  {
    FlatMapCons(e, es, (e: Entry) => EntryPath(d, e, k));
  }

  lemma PathsForCons(fs: FileSystem, d: Path, dirs: seq<Path>, k: string)
    ensures PathsFor(fs, [d] + dirs, k) == DirPaths(fs, d, k) + PathsFor(fs, dirs, k)
  {
    FlatMapCons(d, dirs, (d: Path) => DirPaths(fs, d, k));
  }

  // ---------------------------------------------------------------------
  // Where each path comes from

  lemma EntryPathsMember(d: Path, es: seq<Entry>, k: string, p: Path)
    ensures p in EntryPaths(d, es, k) <==> exists e :: e in es && PluginName(e) == Some(k) && p == Join(d, e.name)
  {
    var f := (e: Entry) => EntryPath(d, e, k);
    FlatMapMember(es, f, p);
    if p in EntryPaths(d, es, k) {
      var i :| 0 <= i < |es| && p in f(es[i]);
      assert es[i] in es && PluginName(es[i]) == Some(k) && p == Join(d, es[i].name);
    }
    if exists e :: e in es && PluginName(e) == Some(k) && p == Join(d, e.name) {
      var e :| e in es && PluginName(e) == Some(k) && p == Join(d, e.name);
      var i :| 0 <= i < |es| && es[i] == e;
      assert p in f(es[i]);
    }
  }

  lemma PathsForMember(fs: FileSystem, dirs: seq<Path>, k: string, p: Path)
    ensures p in PathsFor(fs, dirs, k) <==>
            exists i, e :: 0 <= i < |dirs| && InListing(fs, dirs[i], e) && PluginName(e) == Some(k) && p == Join(dirs[i], e.name)
  {
    var f := (d: Path) => DirPaths(fs, d, k);
    FlatMapMember(dirs, f, p);
    if p in PathsFor(fs, dirs, k) {
      var i :| 0 <= i < |dirs| && p in f(dirs[i]);
      EntryPathsMember(dirs[i], ReadDir(fs, dirs[i]).value, k, p);
      var e :| e in ReadDir(fs, dirs[i]).value && PluginName(e) == Some(k) && p == Join(dirs[i], e.name);
      assert InListing(fs, dirs[i], e);
    }
    if exists i, e :: 0 <= i < |dirs| && InListing(fs, dirs[i], e) && PluginName(e) == Some(k) && p == Join(dirs[i], e.name) {
      var i, e :| 0 <= i < |dirs| && InListing(fs, dirs[i], e) && PluginName(e) == Some(k) && p == Join(dirs[i], e.name);
      EntryPathsMember(dirs[i], ReadDir(fs, dirs[i]).value, k, p);
      assert p in f(dirs[i]);
    }
  }

  /**
   * A path is listed under `k` exactly when some listable directory of the
   * list has a regular file or symbolic link named `docker-<k>` (`k` non-empty),
   * and the path is that directory joined with the entry's own name.
   * Subdirectories, special files and names without the prefix never appear;
   * a link appears under its own name whatever its target is.
   */
  lemma CandidateOrigin(fs: FileSystem, dirs: seq<Path>, k: string, p: Path)
    ensures p in Lookup(CandidatesOf(fs, dirs), k) <==>
            exists i, e :: 0 <= i < |dirs| && InListing(fs, dirs[i], e)
                           && IsCandidateKind(e.kind) && k != "" && e.name == NamePrefix + k
                           && p == Join(dirs[i], e.name)
  {
    CandidatesLookup(fs, dirs, k);
    PathsForMember(fs, dirs, k, p);
    forall e: Entry
      ensures PluginName(e) == Some(k) <==> IsCandidateKind(e.kind) && k != "" && e.name == NamePrefix + k
    {
      PluginNameIff(e, k);
    }
  }

  // ---------------------------------------------------------------------
  // Skipped directories and the empty scan

  /** A directory that cannot be listed changes nothing, wherever it stands in the list. */
  lemma SkipsUnlistable(fs: FileSystem, a: seq<Path>, d: Path, b: seq<Path>)
    requires ReadDir(fs, d) == None
    ensures CandidatesOf(fs, a + [d] + b) == CandidatesOf(fs, a + b)
  {
    forall k
      ensures PathsFor(fs, a + [d] + b, k) == PathsFor(fs, a + b, k)
    {
      PathsForAppend(fs, a + [d], b, k);
      PathsForAppend(fs, a, [d], k);
      PathsForSingleton(fs, d, k);
      PathsForAppend(fs, a, b, k);
    }
    CandidatesDetermined(fs, a + [d] + b, a + b);
  }

  /** The scan is empty exactly when no listable directory of the list holds a candidate entry. */
  lemma CandidatesEmptyIff(fs: FileSystem, dirs: seq<Path>)
    ensures CandidatesOf(fs, dirs) == map[] <==>
            forall i, e :: 0 <= i < |dirs| && InListing(fs, dirs[i], e) ==> PluginName(e) == None
  {
    var m := CandidatesOf(fs, dirs);
    if m != map[] {
      var k :| k in m;
      CandidatesLookup(fs, dirs, k);
      var p := PathsFor(fs, dirs, k)[0];
      PathsForMember(fs, dirs, k, p);
    }
    if exists i, e :: 0 <= i < |dirs| && InListing(fs, dirs[i], e) && PluginName(e) != None {
      var i, e :| 0 <= i < |dirs| && InListing(fs, dirs[i], e) && PluginName(e) != None;
      var k := PluginName(e).value;
      PathsForMember(fs, dirs, k, Join(dirs[i], e.name));
      CandidatesLookup(fs, dirs, k);
      assert k in m;
    }
  }

  // ---------------------------------------------------------------------
  // Precedence: directory order, at most one path per directory, no merging

  /**
   * The first path for `k`, the one a lookup uses, is the first path for `k`
   * in the earliest directory of the list that has one.
   */
  lemma FirstPathFromEarliestDirectory(fs: FileSystem, dirs: seq<Path>, k: string, i: nat)
    requires i < |dirs| && DirPaths(fs, dirs[i], k) != []
    requires forall j :: 0 <= j < i ==> DirPaths(fs, dirs[j], k) == []
    ensures k in CandidatesOf(fs, dirs) && CandidatesOf(fs, dirs)[k] != []
    ensures CandidatesOf(fs, dirs)[k][0] == DirPaths(fs, dirs[i], k)[0]
  {
    var pre, d, post := dirs[..i], dirs[i], dirs[i + 1..];
    SplitAt(dirs, i);
    PathsForAppend(fs, pre + [d], post, k);
    PathsForAppend(fs, pre, [d], k);
    PathsForSingleton(fs, d, k);
    FlatMapAllEmpty(pre, (d: Path) => DirPaths(fs, d, k));
    assert PathsFor(fs, dirs, k) == DirPaths(fs, d, k) + PathsFor(fs, post, k);
    CandidatesLookup(fs, dirs, k);
  }

  /** In a directory whose names are unique, a name has at most one path. */
  lemma {:induction false} EntryPathsAtMostOne(d: Path, es: seq<Entry>, k: string)
    requires WellFormedEntries(es)
    ensures |EntryPaths(d, es, k)| <= 1
    decreases |es|
  {
    if es != [] {
      var init, last := es[..|es| - 1], es[|es| - 1];
      assert WellFormedEntries(init);
      EntryPathsAtMostOne(d, init, k);
      if PluginName(last) == Some(k) && EntryPaths(d, init, k) != [] {
        var p := EntryPaths(d, init, k)[0];
        EntryPathsMember(d, init, k, p);
        var e :| e in init && PluginName(e) == Some(k) && p == Join(d, e.name);
        var j :| 0 <= j < |init| && init[j] == e;
        PluginNameIff(e, k);
        PluginNameIff(last, k);
      }
    }
  }

  /** Each listable directory of a well-formed snapshot contributes at most one path per name. */
  lemma DirPathsAtMostOne(fs: FileSystem, d: Path, k: string)
    requires WellFormed(fs)
    ensures |DirPaths(fs, d, k)| <= 1
  {
    if ReadDir(fs, d).Some? {
      ReadDirWellFormed(fs, d);
      EntryPathsAtMostOne(d, ReadDir(fs, d).value, k);
    }
  }

  /**
   * Distinct directories of a well-formed snapshot never yield the same path
   * twice: same-named entries, hard links to one file and links to one target
   * are each kept as a path of their own, and none is merged away.
   */
  lemma {:induction false} PathsForNoDuplicates(fs: FileSystem, dirs: seq<Path>, k: string)
    requires WellFormed(fs) && NoDuplicates(dirs)
    ensures NoDuplicates(PathsFor(fs, dirs, k))
    decreases |dirs|
  {
    if dirs != [] {
      var n := |dirs| - 1;
      var init, last := dirs[..n], dirs[n];
      assert dirs == init + [last];
      PathsForAppend(fs, init, [last], k);
      PathsForSingleton(fs, last, k);
      PathsForNoDuplicates(fs, init, k);
      DirPathsAtMostOne(fs, last, k);
      var a, b := PathsFor(fs, init, k), DirPaths(fs, last, k);
      if b != [] {
        var q := b[0];
        EntryPathsMember(last, ReadDir(fs, last).value, k, q);
        var e' :| e' in ReadDir(fs, last).value && PluginName(e') == Some(k) && q == Join(last, e'.name);
        ReadDirWellFormed(fs, last);
        if q in a {
          PathsForMember(fs, init, k, q);
          var i, e :| 0 <= i < |init| && InListing(fs, init[i], e) && PluginName(e) == Some(k) && q == Join(init[i], e.name);
          ReadDirWellFormed(fs, init[i]);
          assert init[i] == dirs[i];
          JoinInjective(init[i], e.name, last, e'.name);
        }
        assert b == [q];
        AppendNoDuplicates(a, q);
      }
    }
  }

  /** The scan result for any name lists distinct paths. */
  lemma CandidatesNoDuplicates(fs: FileSystem, dirs: seq<Path>, k: string)
    requires WellFormed(fs) && NoDuplicates(dirs) && k in CandidatesOf(fs, dirs)
    ensures NoDuplicates(CandidatesOf(fs, dirs)[k])
  {
    CandidatesLookup(fs, dirs, k);
    PathsForNoDuplicates(fs, dirs, k);
  }
}
