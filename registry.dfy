/**
 * Lookup and listing of plugins: the search path is scanned, the first
 * (highest-precedence) path of a name is probed for its metadata, and the
 * result is a plugin record. A name with no candidate is the only lookup
 * that fails; every other problem (a built-in name, a probe that fails, an
 * unsupported schema version) is kept in the record's `err` field, and the
 * record is still returned and still listed. Listing keeps every candidate
 * name once, sorted by name.
 *
 * Running a candidate to obtain its metadata is an oracle, `Host.probe`.
 */
module Registry {
  import opened Wrappers
  import opened FileSystem
  import opened Sequences
  import opened Candidates
  import opened PluginDirs
  import opened Errors
  import opened NameOrder

  /** The metadata document a plugin prints when asked for it. */
  datatype Metadata = Metadata(schemaVersion: string, vendor: string, version: string, shortDescription: string, url: string)

  /** What running a candidate with the metadata sub-command yields. */
  datatype ProbeOutcome =
    | Emitted(metadata: Metadata)   // exited 0 and printed a well-formed document
    | ExecFailed                    // could not be started (e.g. a broken link)
    | Malformed                     // non-zero exit or unparsable output
    | TimedOut

  /** The one metadata schema version this host understands. */
  const SupportedSchemaVersion: string := "0.1.0"

  /**
   * A plugin record. `metadata` is the document the probe printed, if it
   * printed one; `err` is None (Go's nil) for a usable plugin and otherwise
   * says why the plugin cannot be used.
   */
  datatype Plugin = Plugin(
    name: string,
    path: Path,
    metadata: Option<Metadata>,
    shadowedPaths: seq<Path>,
    err: Option<PluginError>)

  /**
   * Everything a lookup depends on: the filesystem snapshot, the configuration,
   * the configuration directory, the system plugin directories, the names of
   * the built-in commands and the metadata probe.
   */
  datatype Host = Host(
    fs: FileSystem,
    config: Option<ConfigFile>,
    configDir: Path,
    systemDirs: seq<Path>,
    builtins: set<string>,
    probe: Path -> ProbeOutcome)

  function SearchPath(h: Host): seq<Path>
  {
    GetPluginDirs(h.config, h.configDir, h.systemDirs)
  }

  /** The `error` half of a `(plugin, error)` return; None is nil. */
  function ErrorOf(r: Result<Plugin, PluginError>): Option<PluginError>
  {
    if r.Err? then Some(r.error) else None
  }

  /**
   * `newPlugin` for a name's paths: the record always names the first path and
   * shadows the later ones. A built-in name is refused without probing;
   * otherwise the first path alone is probed, and a probe failure or an
   * unsupported schema version is recorded in `err`.
   */
  function NewPlugin(h: Host, name: string, paths: seq<Path>): (p: Plugin)
    requires paths != []
    ensures p.name == name && p.path == paths[0] && p.shadowedPaths == paths[1..]
    ensures !IsNotFound(p.err)
    ensures p.err == None <==> && name !in h.builtins
                               && h.probe(paths[0]).Emitted?
                               && h.probe(paths[0]).metadata.schemaVersion == SupportedSchemaVersion
    ensures name in h.builtins ==> p.err == Some(ConflictsWithBuiltin(name)) && p.metadata == None
    ensures name !in h.builtins && h.probe(paths[0]).Emitted? ==> p.metadata == Some(h.probe(paths[0]).metadata)
    ensures name !in h.builtins && h.probe(paths[0]).Emitted?
            && h.probe(paths[0]).metadata.schemaVersion != SupportedSchemaVersion
            ==> p.err == Some(UnsupportedSchema(paths[0], h.probe(paths[0]).metadata.schemaVersion))
    ensures name !in h.builtins && h.probe(paths[0]).ExecFailed? ==> p.err == Some(ExecFailure(paths[0])) && p.metadata == None
    ensures name !in h.builtins && h.probe(paths[0]).Malformed? ==> p.err == Some(InvalidPlugin(paths[0])) && p.metadata == None
    ensures name !in h.builtins && h.probe(paths[0]).TimedOut? ==> p.err == Some(ProbeTimeout(paths[0])) && p.metadata == None
  {
    var path := paths[0];
    var failed := (e: PluginError) => Plugin(name, path, None, paths[1..], Some(e));
    if name in h.builtins then failed(ConflictsWithBuiltin(name))
    else match h.probe(path)
      case ExecFailed => failed(ExecFailure(path))
      case Malformed => failed(InvalidPlugin(path))
      case TimedOut => failed(ProbeTimeout(path))
      case Emitted(md) =>
        var err := if md.schemaVersion == SupportedSchemaVersion then None else Some(UnsupportedSchema(path, md.schemaVersion));
        Plugin(name, path, Some(md), paths[1..], err)
  }

  /** `getPlugin` over an already scanned candidate map: not-found is its only error. */
  function PluginFromCandidates(h: Host, candidates: CandidateMap, name: string): (r: Result<Plugin, PluginError>)
    ensures r.Err? <==> name !in candidates || candidates[name] == []
    ensures r.Err? ==> r.error == NotFound(name)
    ensures r.Ok? ==> && r.value.name == name
                      && r.value.path == candidates[name][0]
                      && r.value.shadowedPaths == candidates[name][1..]
                      && !IsNotFound(r.value.err)
  {
    if name in candidates && candidates[name] != [] then Ok(NewPlugin(h, name, candidates[name]))
    else Err(NotFound(name))
  }

  /** `GetPlugin`: scans the search path and looks `name` up. */
  function GetPlugin(h: Host, name: string): (r: Result<Plugin, PluginError>)
    ensures r.Ok? ==> r.value.name == name
    ensures r.Err? ==> IsNotFound(ErrorOf(r)) && Message(r.error) == "Error: No such CLI plugin: " + name
  {
    PluginFromCandidates(h, CandidatesOf(h.fs, SearchPath(h)), name)
  }

  /** A lookup reports not-found exactly when no directory of the search path holds `docker-<name>`. */
  lemma GetPluginNotFoundIff(h: Host, name: string)
    ensures IsNotFound(ErrorOf(GetPlugin(h, name))) <==>
            !exists i, e :: 0 <= i < |SearchPath(h)| && InListing(h.fs, SearchPath(h)[i], e) && PluginName(e) == Some(name)
  {
    var dirs := SearchPath(h);
    CandidatesLookup(h.fs, dirs, name);
    if PathsFor(h.fs, dirs, name) != [] {
      PathsForMember(h.fs, dirs, name, PathsFor(h.fs, dirs, name)[0]);
    }
    if exists i, e :: 0 <= i < |dirs| && InListing(h.fs, dirs[i], e) && PluginName(e) == Some(name) {
      var i, e :| 0 <= i < |dirs| && InListing(h.fs, dirs[i], e) && PluginName(e) == Some(name);
      PathsForMember(h.fs, dirs, name, Join(dirs[i], e.name));
    }
  }

  /**
   * A lookup returns a plugin exactly when the name has a path on the search
   * path, whatever the probe answers: the plugin is the first path, every later
   * path is recorded as shadowed, and the plugin is usable (`err` is None)
   * exactly when the name is not a built-in and the first path answers with a
   * supported metadata document.
   */
  lemma GetPluginSucceedsIff(h: Host, name: string)
    ensures GetPlugin(h, name).Ok? <==> PathsFor(h.fs, SearchPath(h), name) != []
    ensures var paths := PathsFor(h.fs, SearchPath(h), name);
            GetPlugin(h, name).Ok? ==>
              && GetPlugin(h, name).value.path == paths[0]
              && GetPlugin(h, name).value.shadowedPaths == paths[1..]
              && (GetPlugin(h, name).value.err == None <==>
                    && name !in h.builtins
                    && h.probe(paths[0]).Emitted?
                    && h.probe(paths[0]).metadata.schemaVersion == SupportedSchemaVersion)
  {
    CandidatesLookup(h.fs, SearchPath(h), name);
  }

  /**
   * A candidate whose first path fails to probe is still returned, carrying
   * that failure, which names that path: the lookup never falls back to a
   * shadowed path.
   */
  lemma ProbeFailureIsReported(h: Host, name: string)
    requires PathsFor(h.fs, SearchPath(h), name) != [] && name !in h.builtins
    requires !h.probe(PathsFor(h.fs, SearchPath(h), name)[0]).Emitted?
    ensures GetPlugin(h, name).Ok?
    ensures GetPlugin(h, name).value.path == PathsFor(h.fs, SearchPath(h), name)[0]
    ensures GetPlugin(h, name).value.err.Some? && !GetPlugin(h, name).value.err.value.NotFound?
    ensures GetPlugin(h, name).value.err.value.path == PathsFor(h.fs, SearchPath(h), name)[0]
  {
    CandidatesLookup(h.fs, SearchPath(h), name);
  }

  // ---------------------------------------------------------------------
  // Listing order

  predicate SortedByName(ps: seq<Plugin>)
  {
    forall i, j :: 0 <= i < j < |ps| ==> LessOrEqual(ps[i].name, ps[j].name)
  }

  lemma SortedCons(x: Plugin, s: seq<Plugin>)
    requires SortedByName(s)
    requires forall j :: 0 <= j < |s| ==> LessOrEqual(x.name, s[j].name)
    ensures SortedByName([x] + s)
  {
  }

  /** Every plugin of `rest`, a permutation of `s[1..]` and `p`, comes no earlier than `s[0]`. */
  lemma InsertedAfterHead(p: Plugin, s: seq<Plugin>, rest: seq<Plugin>)
    requires SortedByName(s) && s != [] && Less(s[0].name, p.name)
    requires multiset(rest) == multiset(s[1..]) + multiset{p}
    ensures forall j :: 0 <= j < |rest| ==> LessOrEqual(s[0].name, rest[j].name)
  {
    forall j | 0 <= j < |rest|
      ensures LessOrEqual(s[0].name, rest[j].name)
    {
      assert rest[j] in multiset(rest);
      if rest[j] != p {
        assert rest[j] in multiset(s[1..]);
        var k :| 0 <= k < |s[1..]| && s[1..][k] == rest[j];
        assert s[k + 1] == rest[j];
      }
    }
  }

  /** `p` comes no later than any plugin of `s` when it does not come after `s[0]`. */
  lemma InsertedAtHead(p: Plugin, s: seq<Plugin>)
    requires SortedByName(s) && s != [] && !Less(s[0].name, p.name)
    ensures forall j :: 0 <= j < |s| ==> LessOrEqual(p.name, s[j].name)
  {
    NotLess(s[0].name, p.name);
    forall j | 0 <= j < |s|
      ensures LessOrEqual(p.name, s[j].name)
    {
      if j > 0 {
        LessOrEqualTransitive(p.name, s[0].name, s[j].name);
      }
    }
  }

  /** Inserts `p` before the first plugin whose name does not come before its own. */
  function InsertByName(p: Plugin, s: seq<Plugin>): (r: seq<Plugin>)
    requires SortedByName(s)
    ensures SortedByName(r)
    ensures multiset(r) == multiset(s) + multiset{p}
    decreases |s|
  {
    if s == [] then [p]
    else if Less(s[0].name, p.name) then
      var rest := InsertByName(p, s[1..]);
      assert s == [s[0]] + s[1..];
      InsertedAfterHead(p, s, rest);
      SortedCons(s[0], rest);
      [s[0]] + rest
    else
      InsertedAtHead(p, s);
      SortedCons(p, s);
      [p] + s
  }

  /** `sort.Slice(plugins, by name)`, as an insertion sort. */
  function SortByName(s: seq<Plugin>): (r: seq<Plugin>)
    ensures SortedByName(r)
    ensures multiset(r) == multiset(s)
    decreases |s|
  {
    if s == [] then []
    else
      assert s == [s[0]] + s[1..];
      InsertByName(s[0], SortByName(s[1..]))
  }

  /** In a sorted listing, a plugin whose name comes first stands first. */
  lemma SortedPositions(ps: seq<Plugin>, i: nat, j: nat)
    requires SortedByName(ps) && i < |ps| && j < |ps|
    requires Less(ps[i].name, ps[j].name)
    ensures i < j
  {
    LessIrreflexive(ps[i].name);
    if j < i {
      assert LessOrEqual(ps[j].name, ps[i].name);
      if ps[j].name != ps[i].name {
        LessAsymmetric(ps[i].name, ps[j].name);
      }
    }
  }

  /** No two plugins of `ps` share a name. */
  predicate DistinctNames(ps: seq<Plugin>)
  {
    forall i, j :: 0 <= i < j < |ps| ==> ps[i].name != ps[j].name
  }

  /** Reordering a listing keeps its names distinct. */
  lemma PermutationDistinctNames(s: seq<Plugin>, t: seq<Plugin>)
    requires DistinctNames(s) && multiset(s) == multiset(t)
    ensures DistinctNames(t)
  {
    assert NoDuplicates(s);
    PermutationNoDuplicates(s, t);
    forall i, j | 0 <= i < j < |t|
      ensures t[i].name != t[j].name
    {
      assert t[i] in multiset(s) && t[j] in multiset(s);
      var a :| 0 <= a < |s| && s[a] == t[i];
      var b :| 0 <= b < |s| && s[b] == t[j];
      if a != b {
        assert s[a].name != s[b].name;
      }
    }
  }

  /**
   * `ListPlugins`: the record of every name that has a candidate, each name
   * once, sorted by name. A record whose first path fails to probe, or whose
   * name is a built-in, is listed with its `err` set. Candidate names are
   * visited in an unspecified order, as Go's map iteration does.
   */
  method ListPlugins(h: Host) returns (plugins: seq<Plugin>)
    ensures SortedByName(plugins)
    ensures forall p :: p in plugins <==> GetPlugin(h, p.name) == Ok(p)
    ensures forall name :: GetPlugin(h, name).Ok? ==> GetPlugin(h, name).value in plugins
    ensures DistinctNames(plugins)
  {
    var candidates := ListPluginCandidates(h.fs, SearchPath(h));
    var pending := candidates.Keys;
    var found: seq<Plugin> := [];
    while pending != {}
      invariant pending <= candidates.Keys
      invariant forall p :: p in found <==> p.name in candidates && p.name !in pending && GetPlugin(h, p.name) == Ok(p)
      invariant DistinctNames(found)
      decreases pending
    {
      var name :| name in pending;
      var r := PluginFromCandidates(h, candidates, name);
      if r.Ok? {
        assert forall i :: 0 <= i < |found| ==> found[i] in found && found[i].name != name;
        found := found + [r.value];
      }
      pending := pending - {name};
    }
    plugins := SortByName(found);
    PermutationDistinctNames(found, plugins);
    SameMembers(found, plugins);
  }
}
