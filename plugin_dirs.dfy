/**
 * The ordered plugin search path: configured extra directories, then the
 * user's plugin directory under the configuration directory, then the fixed
 * system directories. Order is precedence.
 */
module PluginDirs {
  import opened Wrappers
  import opened FileSystem
  import opened Sequences
  import opened Candidates

  /** The part of the configuration file this core reads. */
  datatype ConfigFile = ConfigFile(cliPluginsExtraDirs: seq<Path>)

  /** The subdirectory of the configuration directory that holds the user's plugins. */
  const PluginsSubdir: string := "cli-plugins"

  /** The configured extra directories; an absent configuration has none. */
  function ExtraDirs(cfg: Option<ConfigFile>): seq<Path>
  {
    if cfg.Some? then cfg.value.cliPluginsExtraDirs else []
  }

  function UserPluginDir(configDir: Path): Path
  {
    Join(configDir, PluginsSubdir)
  }

  /** `getPluginDirs`, with the configuration directory and the system directories as parameters. */
  function GetPluginDirs(cfg: Option<ConfigFile>, configDir: Path, systemDirs: seq<Path>): (dirs: seq<Path>)
    ensures |dirs| == |ExtraDirs(cfg)| + 1 + |systemDirs|
    ensures dirs[..|ExtraDirs(cfg)|] == ExtraDirs(cfg)
    ensures dirs[|ExtraDirs(cfg)|] == UserPluginDir(configDir)
    ensures dirs[|ExtraDirs(cfg)| + 1..] == systemDirs
  {
    ExtraDirs(cfg) + [UserPluginDir(configDir)] + systemDirs
  }

  /** Without extra directories the search path is the user directory followed by the system directories. */
  lemma GetPluginDirsWithoutExtras(cfg: Option<ConfigFile>, configDir: Path, systemDirs: seq<Path>)
    requires ExtraDirs(cfg) == []
    ensures GetPluginDirs(cfg, configDir, systemDirs) == [UserPluginDir(configDir)] + systemDirs
  {
  }

  /** Extra directories come first, in the order configured, before the default search path. */
  lemma GetPluginDirsWithExtras(extras: seq<Path>, configDir: Path, systemDirs: seq<Path>)
    ensures GetPluginDirs(Some(ConfigFile(extras)), configDir, systemDirs)
            == extras + GetPluginDirs(None, configDir, systemDirs)
  {
    assert ExtraDirs(None) == [];
  }

  /**
   * The paths found for a name along the search path: those of the extra
   * directories, then the user directory's, then the system directories'.
   */
  lemma SearchPathLookup(fs: FileSystem, cfg: Option<ConfigFile>, configDir: Path, systemDirs: seq<Path>, k: string)
    ensures Lookup(CandidatesOf(fs, GetPluginDirs(cfg, configDir, systemDirs)), k)
            == Lookup(CandidatesOf(fs, ExtraDirs(cfg)), k)
               + DirPaths(fs, UserPluginDir(configDir), k)
               + Lookup(CandidatesOf(fs, systemDirs), k)
  {
    var extras, user := ExtraDirs(cfg), UserPluginDir(configDir);
    PathsForAppend(fs, extras + [user], systemDirs, k);
    PathsForAppend(fs, extras, [user], k);
    PathsForSingleton(fs, user, k);
    CandidatesLookup(fs, GetPluginDirs(cfg, configDir, systemDirs), k);
    CandidatesLookup(fs, extras, k);
    CandidatesLookup(fs, systemDirs, k);
  }

  /** A plugin in an extra directory shadows every same-named plugin of the default directories. */
  lemma ExtraDirsTakePrecedence(fs: FileSystem, cfg: Option<ConfigFile>, configDir: Path, systemDirs: seq<Path>, k: string)
    requires k in CandidatesOf(fs, ExtraDirs(cfg))
    ensures CandidatesOf(fs, ExtraDirs(cfg))[k] != []
    ensures k in CandidatesOf(fs, GetPluginDirs(cfg, configDir, systemDirs))
    ensures CandidatesOf(fs, GetPluginDirs(cfg, configDir, systemDirs))[k] != []
    ensures CandidatesOf(fs, GetPluginDirs(cfg, configDir, systemDirs))[k][0] == CandidatesOf(fs, ExtraDirs(cfg))[k][0]
  {
    SearchPathLookup(fs, cfg, configDir, systemDirs, k);
    CandidatesNonEmpty(fs, ExtraDirs(cfg), k);
  }

  /** Failing the extra directories, the user directory shadows the system directories. */
  lemma UserDirBeforeSystemDirs(fs: FileSystem, cfg: Option<ConfigFile>, configDir: Path, systemDirs: seq<Path>, k: string)
    requires k !in CandidatesOf(fs, ExtraDirs(cfg))
    requires DirPaths(fs, UserPluginDir(configDir), k) != []
    ensures k in CandidatesOf(fs, GetPluginDirs(cfg, configDir, systemDirs))
    ensures CandidatesOf(fs, GetPluginDirs(cfg, configDir, systemDirs))[k] != []
    ensures CandidatesOf(fs, GetPluginDirs(cfg, configDir, systemDirs))[k][0] == DirPaths(fs, UserPluginDir(configDir), k)[0]
  {
    SearchPathLookup(fs, cfg, configDir, systemDirs, k);
    CandidatesLookup(fs, ExtraDirs(cfg), k);
  }
}
