/**
 * Small concrete filesystems on which the general lemmas are instantiated:
 * the scan's behaviour on empty, missing and unreadable directories, and a
 * lookup through a configured extra directory.
 */
module Scenarios {
  import opened Wrappers
  import opened FileSystem
  import opened Sequences
  import opened Candidates
  import opened PluginDirs
  import opened Errors
  import opened Registry
  import opened NameOrder

  /** An empty directory and a directory that does not exist yield no candidates at all. */
  lemma EmptyAndMissingDirectories()
    ensures CandidatesOf(map["/t" := Dir(true, [])], ["/t", "/t/no-such-dir"]) == map[]
  {
    CandidatesEmptyIff(map["/t" := Dir(true, [])], ["/t", "/t/no-such-dir"]);
  }

  /** A readable directory holding only `docker-buildx` yields that one candidate. */
  lemma BuildxDirectoryScan(fs: FileSystem)
    requires "/t/plugins" in fs && fs["/t/plugins"] == Dir(true, [Entry("docker-buildx", RegularFile(1))])
    ensures CandidatesOf(fs, ["/t/plugins"]) == map["buildx" := ["/t/plugins/docker-buildx"]]
  {
    var e := Entry("docker-buildx", RegularFile(1));
    assert ["/t/plugins"][..0] == [];
    assert [e][..0] == [];
    assert PluginName(e) == Some("buildx");
    assert Join("/t/plugins", "docker-buildx") == "/t/plugins/docker-buildx";
    assert ReadDir(fs, "/t/plugins") == Some([e]);
    var m0: CandidateMap := map[];
    assert AddEntries(m0, "/t/plugins", [e]) == AddEntry(m0, "/t/plugins", e);
    assert AddEntry(m0, "/t/plugins", e) == m0["buildx" := Lookup(m0, "buildx") + [Join("/t/plugins", e.name)]];
    assert Lookup(m0, "buildx") + [Join("/t/plugins", e.name)] == ["/t/plugins/docker-buildx"];
  }

  /** An unreadable directory ahead of a readable one does not stop the scan. */
  lemma UnreadableDirectoryFirst()
    ensures CandidatesOf(map["/t/no-perm" := Dir(false, []),
                             "/t/plugins" := Dir(true, [Entry("docker-buildx", RegularFile(1))])],
                         ["/t/no-perm", "/t/plugins"])
            == map["buildx" := ["/t/plugins/docker-buildx"]]
  {
    var fs := map["/t/no-perm" := Dir(false, []),
                  "/t/plugins" := Dir(true, [Entry("docker-buildx", RegularFile(1))])];
    assert ReadDir(fs, "/t/no-perm") == None;
    SkipsUnlistable(fs, [], "/t/no-perm", ["/t/plugins"]);
    assert [] + ["/t/no-perm"] + ["/t/plugins"] == ["/t/no-perm", "/t/plugins"];
    assert [] + ["/t/plugins"] == ["/t/plugins"];
    BuildxDirectoryScan(fs);
  }

  /** One configured extra directory holding `docker-aaa` and `docker-bbb`. */
  function ExtraDirTree(): FileSystem
  {
    map["/tmp/t" := Dir(true, [Entry(NamePrefix + "aaa", RegularFile(1)), Entry(NamePrefix + "bbb", RegularFile(2))])]
  }

  /**
   * A host configured with the extra directory, whatever its default
   * directories, its built-in commands and whatever running a candidate yields.
   */
  function ExtraDirHost(configDir: Path, systemDirs: seq<Path>, builtins: set<string>, probe: Path -> ProbeOutcome): Host
  {
    Host(ExtraDirTree(), Some(ConfigFile(["/tmp/t"])), configDir, systemDirs, builtins, probe)
  }

  /** The extra directory holds exactly one path for each of `aaa` and `bbb`. */
  lemma ExtraDirPaths(k: string)
    requires k == "aaa" || k == "bbb"
    ensures DirPaths(ExtraDirTree(), "/tmp/t", k) == [Join("/tmp/t", NamePrefix + k)]
  {
    var aaa, bbb := Entry(NamePrefix + "aaa", RegularFile(1)), Entry(NamePrefix + "bbb", RegularFile(2));
    assert ReadDir(ExtraDirTree(), "/tmp/t") == Some([aaa, bbb]);
    PluginNameIff(aaa, "aaa");
    PluginNameIff(bbb, "bbb");
    assert [aaa, bbb] == [aaa] + [bbb];
    EntryPathsCons("/tmp/t", aaa, [bbb], k);
    EntryPathsCons("/tmp/t", bbb, [], k);
  }

  /**
   * A plugin in the configured extra directory is found under its name, at its
   * path there, whether or not it can be run.
   */
  lemma GetPluginFindsExtraDirPlugin(configDir: Path, systemDirs: seq<Path>, builtins: set<string>,
                                     probe: Path -> ProbeOutcome, k: string)
    requires k == "aaa" || k == "bbb"
    ensures GetPlugin(ExtraDirHost(configDir, systemDirs, builtins, probe), k).Ok?
    ensures GetPlugin(ExtraDirHost(configDir, systemDirs, builtins, probe), k).value.name == k
    ensures GetPlugin(ExtraDirHost(configDir, systemDirs, builtins, probe), k).value.path == Join("/tmp/t", NamePrefix + k)
  {
    var h := ExtraDirHost(configDir, systemDirs, builtins, probe);
    var dirs := SearchPath(h);
    assert dirs[0] == "/tmp/t";
    ExtraDirPaths(k);
    FirstPathFromEarliestDirectory(h.fs, dirs, k, 0);
    GetPluginSucceedsIff(h, k);
  }

  /** Running a candidate never gets as far as starting it. */
  function CannotStart(p: Path): ProbeOutcome
  {
    ExecFailed
  }

  /** A plugin that cannot be started is still returned, carrying the failure to start it. */
  lemma UnstartablePluginCarriesError(configDir: Path, systemDirs: seq<Path>, k: string)
    requires k == "aaa" || k == "bbb"
    ensures GetPlugin(ExtraDirHost(configDir, systemDirs, {}, CannotStart), k).Ok?
    ensures GetPlugin(ExtraDirHost(configDir, systemDirs, {}, CannotStart), k).value.err
            == Some(ExecFailure(Join("/tmp/t", NamePrefix + k)))
  {
    GetPluginFindsExtraDirPlugin(configDir, systemDirs, {}, CannotStart, k);
  }

  /** Listing the host's plugins puts `aaa` before `bbb`, each once, whatever running them yields. */
  method ListPluginsPutsAaaFirst(configDir: Path, systemDirs: seq<Path>, builtins: set<string>,
                                 probe: Path -> ProbeOutcome) returns (plugins: seq<Plugin>)
    ensures exists i, j :: 0 <= i < j < |plugins| && plugins[i].name == "aaa" && plugins[j].name == "bbb"
    ensures DistinctNames(plugins)
  {
    var h := ExtraDirHost(configDir, systemDirs, builtins, probe);
    plugins := ListPlugins(h);
    GetPluginFindsExtraDirPlugin(configDir, systemDirs, builtins, probe, "aaa");
    GetPluginFindsExtraDirPlugin(configDir, systemDirs, builtins, probe, "bbb");
    var a, b := GetPlugin(h, "aaa").value, GetPlugin(h, "bbb").value;
    assert a in plugins && b in plugins;
    var i :| 0 <= i < |plugins| && plugins[i] == a;
    var j :| 0 <= j < |plugins| && plugins[j] == b;
    assert Less("aaa", "bbb");
    SortedPositions(plugins, i, j);
  }

  /** The search path without and with the extra directories `foo`, `bar` and `baz`. */
  lemma GetPluginDirsValues(configDir: Path, systemDirs: seq<Path>)
    ensures GetPluginDirs(Some(ConfigFile([])), configDir, systemDirs) == [Join(configDir, "cli-plugins")] + systemDirs
    ensures GetPluginDirs(Some(ConfigFile(["foo", "bar", "baz"])), configDir, systemDirs)
            == ["foo", "bar", "baz", Join(configDir, "cli-plugins")] + systemDirs
  {
    assert ["foo", "bar", "baz"] + [Join(configDir, "cli-plugins")] == ["foo", "bar", "baz", Join(configDir, "cli-plugins")];
  }

  /** A name with no candidate anywhere on the search path is reported as not found. */
  lemma GetPluginMissingIsNotFound(configDir: Path, systemDirs: seq<Path>, builtins: set<string>, probe: Path -> ProbeOutcome)
    ensures IsNotFound(ErrorOf(GetPlugin(ExtraDirHost(configDir, systemDirs, builtins, probe), "ccc")))
    ensures Message(GetPlugin(ExtraDirHost(configDir, systemDirs, builtins, probe), "ccc").error) == "Error: No such CLI plugin: ccc"
  {
    var h := ExtraDirHost(configDir, systemDirs, builtins, probe);
    var dirs := SearchPath(h);
    GetPluginNotFoundIff(h, "ccc");
    forall i, e | 0 <= i < |dirs| && InListing(h.fs, dirs[i], e)
      ensures PluginName(e) != Some("ccc")
    {
      ReadDirListsADirectory(h.fs, dirs[i]);
      PluginNameIff(e, "ccc");
    }
  }
}
