# Docker CLI plugin manager, modelled in Dafny

The Docker CLI finds its plugins on disk. A plugin is an executable file named `docker-<name>`, for example `docker-buildx`, placed in one of a list of plugin directories. The plugin manager:

- builds that list of directories: the directories configured as `cliPluginsExtraDirs`, then `<config dir>/cli-plugins`, then the fixed system directories;
- scans the directories in that order. The scan keeps regular files (hard links included) and symbolic links whose name starts with `docker-` and is longer than the prefix. It skips subdirectories, other files and every directory it cannot list;
- maps each logical plugin name to every path found for it, in directory order. The first path wins and the later ones are shadowed;
- looks one plugin up by name. A name with no candidate is the only failed lookup: it gives the not-found error, whose message is `Error: No such CLI plugin: <name>` and which carries a marker that `IsNotFound` recognises. Any other name gives a plugin record for its winning path, with the later paths as shadowed. The record's `err` field says why the plugin is unusable: the name is a built-in command, the winning path could not be run for its metadata, or the metadata's schema version is not `0.1.0`. The lookup itself still succeeds;
- lists the record of every name that has a candidate, usable or not, sorted by name.

The filesystem is a snapshot, `map<Path, Node>`:

- a directory carries its readable flag and its entries, each with its `lstat` kind;
- symbolic links to directories are followed for at most 40 hops.

Running a candidate to read its metadata is an oracle, `Host.probe`.

The scan has two descriptions, and the proofs connect them:

- `Candidates.ListPluginCandidates` and `Candidates.AddPluginCandidatesFromDir` are the loops. They are proved to compute `CandidatesOf`, the map built one directory and one entry at a time.
- `PathsFor` is an independent reference definition with one list of paths per name. `CandidatesLookup` proves that the map and the reference definition agree. Every other property of the scan is derived from that agreement.

Modules:

- `FileSystem`: the snapshot, `Join` and `ReadDir`.
- `Candidates`: the scan.
- `PluginDirs`: the search path.
- `Errors`: the error values and their messages.
- `NameOrder`: the order of names.
- `Registry`: lookup and listing.
- `Scenarios`: the small test fixtures, replayed as lemmas: empty, missing and unreadable directories, lookup, listing order and the search path.
- `FixtureScan`: the large test tree of shadowed and bogus candidates, replayed name by name and as a whole map.
- `Sequences` and `Wrappers`: generic helpers.

## Model

| member | source | states |
|---|---|---|
| FileSystem.ReadDirFailures | cli-plugins/manager/manager_test.go:44-46 | A missing path, a plain file, an unreadable directory and a link to a missing target cannot be listed. A readable directory lists exactly its entries. |
| FileSystem.ReadDirFollowsLink | cli-plugins/manager/manager_test.go:36-46 | A plugin directory that is a symbolic link to a directory lists the target's entries. |
| FileSystem.JoinInjective | cli-plugins/manager/manager_test.go:56-80 | Two directory/name pairs give the same path only when both the directories and the names are equal, given that the names contain no separator. |
| Candidates.PluginNameIff | cli-plugins/manager/manager_test.go:20-43 | An entry is a candidate for `k` exactly when it is a regular file or symbolic link named `docker-` + `k`, with `k` non-empty. Directories, special files and unprefixed names are never candidates. |
| Candidates.AddPluginCandidatesFromDir | cli-plugins/manager/manager_test.go:19-47 | The loop over one directory's entries adds, in listing order, each candidate's path under its logical name. A directory that cannot be listed leaves the map unchanged. |
| Candidates.ListPluginCandidates | cli-plugins/manager/manager_test.go:50-82 | The scan over the whole directory list returns the map accumulated directory by directory, in list order. |
| Candidates.CandidatesLookup | cli-plugins/manager/manager_test.go:56-80 | The scanned map's list for every name equals the reference `PathsFor`: each directory's paths for that name, concatenated in directory order. A name is a key exactly when that list is non-empty. |
| Candidates.CandidatesNonEmpty | cli-plugins/manager/manager_test.go:56-80 | No key of the scan maps to an empty list. |
| Candidates.CandidateOrigin | cli-plugins/manager/manager_test.go:56-80 | A path is listed under `k` exactly when a listable directory of the list holds a file or link named `docker-<k>` and the path is that directory joined with the entry's own name. A link is therefore keyed by its own name, never by its target's. |
| Candidates.SkipsUnlistable | cli-plugins/manager/manager_test.go:91-112 | A directory that cannot be listed changes nothing, wherever it stands in the list. |
| Candidates.CandidatesEmptyIff | cli-plugins/manager/manager_test.go:85-89 | The scan is empty exactly when no listable directory of the list holds a candidate entry. |
| Candidates.FirstPathFromEarliestDirectory | cli-plugins/manager/manager_test.go:57-61 | The winning (first) path of a name comes from the earliest directory that has one. |
| Candidates.DirPathsAtMostOne | cli-plugins/manager/manager_test.go:62-73 | In a well-formed snapshot, a directory contributes at most one path per name. |
| Candidates.PathsForNoDuplicates | cli-plugins/manager/manager_test.go:57-73 | With distinct directory strings, no path appears twice for a name. Same-named entries in different directories and hard links are each kept as a separate path, and none is merged away. |
| Candidates.CandidatesNoDuplicates | cli-plugins/manager/manager_test.go:57-61 | The same no-duplicates property, stated for the scanned map. |
| PluginDirs.GetPluginDirs | cli-plugins/manager/manager_test.go:173-191 | The search path is the configured extra directories, in order, then `<config dir>/cli-plugins`, then the system directories. |
| PluginDirs.GetPluginDirsWithoutExtras | cli-plugins/manager/manager_test.go:174-180 | Without extra directories, the search path is the user directory followed by the system directories. |
| PluginDirs.GetPluginDirsWithExtras | cli-plugins/manager/manager_test.go:182-190 | With extra directories, the search path is those directories prepended to the default search path. |
| PluginDirs.SearchPathLookup | cli-plugins/manager/manager_test.go:173-191 | A name's paths along the search path are the extra directories' paths, then the user directory's, then the system directories'. |
| PluginDirs.ExtraDirsTakePrecedence | cli-plugins/manager/manager_test.go:182-190 | A plugin in an extra directory shadows every plugin of the same name in the default directories. |
| PluginDirs.UserDirBeforeSystemDirs | cli-plugins/manager/manager_test.go:174-180 | When the extra directories do not have the name, the user directory's plugin shadows the system directories'. |
| Errors.NotFoundMessageRoundTrip | cli-plugins/manager/manager_test.go:165-168 | The not-found message is `Error: No such CLI plugin: <name>`, and the name can be read back from it. |
| Errors.MarkerAgreesWithMessage | cli-plugins/manager/manager_test.go:165-170 | Only the not-found error carries the marker. The half about messages is a property of the model only: no other error's message, as worded here, reads as a not-found message. |
| Errors.IsNotFoundCases | cli-plugins/manager/manager_test.go:165-171 | `IsNotFound` holds for `errPluginNotFound` and not for a nil error. |
| NameOrder.LessTransitive | cli-plugins/manager/manager_test.go:156-162 | The order on names is transitive. |
| NameOrder.LessTotal | cli-plugins/manager/manager_test.go:156-162 | Any two different names are ordered one way or the other. |
| NameOrder.LessAsymmetric | cli-plugins/manager/manager_test.go:156-162 | Two names are never ordered both ways. |
| Registry.NewPlugin | cli-plugins/manager/manager_test.go:114-130 | The record always names the first path and records the later paths as shadowed, and its error is never not-found. It is usable (`err` is None) exactly when the name is not a built-in and the first path answers with schema `0.1.0`. Otherwise `err` names the cause: `ConflictsWithBuiltin(name)` for a built-in, without probing; a start failure, a malformed answer, a timeout or another schema version, each naming the first path. Metadata is kept whenever the probe printed a document. |
| Registry.PluginFromCandidates | cli-plugins/manager/manager_test.go:128-134 | The lookup fails exactly when the name has no path, and then only with `NotFound(name)`. Otherwise the record has the requested name, the first path, the later paths as shadowed, and an error that is not not-found. |
| Registry.GetPlugin | cli-plugins/manager/manager_test.go:114-135 | A found plugin has the requested name. Every failed lookup is not-found, with the message `Error: No such CLI plugin: <name>`. |
| Registry.GetPluginNotFoundIff | cli-plugins/manager/manager_test.go:132-134 | A lookup is not-found exactly when no directory of the search path holds `docker-<name>`. |
| Registry.GetPluginSucceedsIff | cli-plugins/manager/manager_test.go:114-130 | A lookup returns a plugin exactly when the name has a path, whatever the probe answers. The plugin is that first path, and the later paths are recorded as shadowed. It is usable exactly when the name is not a built-in and the first path answers with schema `0.1.0`. |
| Registry.ProbeFailureIsReported | cli-plugins/manager/manager_test.go:114-134 | When the winning path fails to probe, the lookup still returns the plugin at that path. The plugin's error is that failure, it names that path, and it is not not-found. The lookup never falls back to a shadowed path. |
| Registry.InsertByName | cli-plugins/manager/manager_test.go:151-162 | Inserting into a sorted listing keeps it sorted and adds exactly the one plugin. |
| Registry.SortByName | cli-plugins/manager/manager_test.go:151-162 | The listing is sorted by name and is a permutation of its input. |
| Registry.SortedPositions | cli-plugins/manager/manager_test.go:156-162 | In a sorted listing, a plugin whose name comes first stands first, so `aaa` stands before `bbb`. |
| Registry.PermutationDistinctNames | cli-plugins/manager/manager_test.go:151-162 | Reordering a listing keeps its names distinct. |
| Registry.ListPlugins | cli-plugins/manager/manager_test.go:137-163 | The listing is sorted by name and has distinct names. It holds exactly the records that lookups return, so every name with a path is listed, including records that carry an error. |
| Scenarios.EmptyAndMissingDirectories | cli-plugins/manager/manager_test.go:85-89 | An empty directory followed by a missing one yields the empty map. |
| Scenarios.BuildxDirectoryScan | cli-plugins/manager/manager_test.go:97-99 | A readable directory holding only `docker-buildx` yields `buildx` mapped to its one path. |
| Scenarios.UnreadableDirectoryFirst | cli-plugins/manager/manager_test.go:94-112 | An unreadable directory ahead of the plugin directory still yields exactly `buildx` mapped to its one path. |
| Scenarios.ExtraDirPaths | cli-plugins/manager/manager_test.go:114-126 | The configured extra directory holds exactly one path for each of `aaa` and `bbb`. |
| Scenarios.GetPluginFindsExtraDirPlugin | cli-plugins/manager/manager_test.go:114-130 | With `docker-aaa` and `docker-bbb` in the extra directory, looking up `aaa` or `bbb` succeeds for every probe outcome and every set of built-ins. The result has the requested name and sits at the extra directory's path. |
| Scenarios.UnstartablePluginCarriesError | cli-plugins/manager/manager_test.go:114-130 | When no candidate can be started, looking up `aaa` or `bbb` still returns the plugin, whose error is the start failure naming its path in the extra directory. |
| Scenarios.ListPluginsPutsAaaFirst | cli-plugins/manager/manager_test.go:137-162 | On the same host, for every probe outcome, the listing holds `aaa` before `bbb`, and no name occurs twice, so each of them occurs exactly once. |
| Scenarios.GetPluginDirsValues | cli-plugins/manager/manager_test.go:173-191 | Without extra directories the search path is `<config dir>/cli-plugins` and then the system directories. With `foo`, `bar` and `baz` configured, those three come first. |
| Scenarios.GetPluginMissingIsNotFound | cli-plugins/manager/manager_test.go:132-134 | On the same host, for every probe outcome, looking up `ccc` is not-found, with the message `Error: No such CLI plugin: ccc`. |
| FixtureScan.Listings | cli-plugins/manager/manager_test.go:44-53 | In the test tree, the first, third and fourth directories of the search list can be listed, the fourth through its link. The missing directory, the plain file and the broken link cannot be listed. |
| FixtureScan.ScanOfSix | cli-plugins/manager/manager_test.go:50-55 | When only the first, third and fourth of six directories can be listed, every name's paths are those three directories' paths, in order. |
| FixtureScan.SearchPaths | cli-plugins/manager/manager_test.go:50-55 | For any name, the scan of the test tree yields the paths of `plugins1`, `plugins2` and `plugins3`, in that order. |
| FixtureScan.Plugins1Names | cli-plugins/manager/manager_test.go:20-27 | The entries of `plugins1` are the candidates `plugin1`, `symlinked1` and `symlinked2`. `not-a-plugin` and the subdirectory are not candidates. |
| FixtureScan.Plugins2Names | cli-plugins/manager/manager_test.go:28-35 | The entries of `plugins2` are the candidates `plugin1`, `hardlink1` and `hardlink2`. `also-not-a-plugin` and the subdirectory are not candidates. |
| FixtureScan.Plugins3Names | cli-plugins/manager/manager_test.go:36-43 | The entries of `plugins3-target` are the candidates `plugin1`, `brokensymlink` and `symlinked`. The subdirectory and `non-plugin-symlinked` are not candidates. |
| FixtureScan.Evaluate | cli-plugins/manager/manager_test.go:55 | A name's paths in the test tree are the paths of the fifteen entries, taken in search order and then in listing order. |
| FixtureScan.Plugin1InEveryDirectory | cli-plugins/manager/manager_test.go:57-61 | `plugin1` maps to its paths in `plugins1`, `plugins2` and `plugins3`, in that order. |
| FixtureScan.LinkAndTargetBothListed | cli-plugins/manager/manager_test.go:62-67 | A file and a link to it are two plugins, each with its own path. |
| FixtureScan.HardLinksBothListed | cli-plugins/manager/manager_test.go:68-73 | Two hard links to one file are two plugins. |
| FixtureScan.LinksInLinkedDirectoryListed | cli-plugins/manager/manager_test.go:74-79 | A broken link and a link to a non-plugin file are candidates, listed under the linked directory's path. |
| FixtureScan.OnlyCandidateNames | cli-plugins/manager/manager_test.go:56-80 | No name outside the seven candidates is found. |
| FixtureScan.ExactlySevenNames | cli-plugins/manager/manager_test.go:56-80 | The names found are exactly the seven the test expects. |
| FixtureScan.WholeTree | cli-plugins/manager/manager_test.go:16-83 | The scan of the test tree equals the expected map, name for name and path for path. |

## Left out

- Directory order follows `TestGetPluginDirs` (manager_test.go:182-190): the extra directories come first, then the user directory, then the system directories.
- Real filesystem access is not modelled. The snapshot stands in for `os.ReadDir` and `os.Lstat`. File contents and permission bits other than directory readability are not modelled.
- Probing a plugin for its metadata (running it, its output, timeouts) is an oracle, `Host.probe`. Parsing the metadata document is inside that oracle.
- The cobra command tree is reduced to the set of built-in names. Adding plugin stubs to that tree and running plugins (signals, exit codes) are not modelled.
- Loading the configuration file and locating the configuration directory are not modelled. Both are parameters (`ConfigFile`, `configDir`), and so are the platform's default system directories.
- Windows is not modelled. This covers the `.exe` suffix and its stripping, and case-insensitive names.
- `Join` does not clean paths (`..`, doubled separators, a trailing separator).
- Candidates.PathsForNoDuplicates: directories are told apart as strings. Two spellings of one directory, such as `/a` and `/a/`, count as distinct here, although a joining function that cleans paths would give `/a/docker-x` for both. The property therefore holds for directory lists without two spellings of one directory, and the model does not state it for cleaned paths.
- NameOrder: names are ordered lexicographically by character code. A natural-order comparison of the names, if the CLI uses one, is not modelled.
- A directory's entries are taken in the order the snapshot lists them. The sorting of a listing by file name is not imposed on the snapshot.
- Registry.ListPlugins: the built-in commands are not part of the listing; it lists plugins only.
- Registry.ListPlugins: concurrent probing of candidates is modelled as a sequential loop over the names in an unspecified order.
- Errors.Message: only the not-found message's wording is pinned. The other messages are placeholders that are distinct from it.
- Candidates.PluginName: an entry named exactly `docker-` is not a candidate. That exclusion is this model's own rule; the prefix rule alone would key such an entry under the empty name.
- Plugin names are checked only for the prefix and for non-emptiness. Further validation of names is not modelled.
