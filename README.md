# EnvCLI configuration resolution and command routing, in Dafny

EnvCLI runs developer commands inside Docker containers. For a command name it
decides which image runs it by combining configuration from several scopes:
the project's `.envcli.yml`, extra include files and a global `.envcli.yml`.
This project models that engine and proves properties of the model:

- the **property store** (`.envclirc`), a string map limited to five allow-listed keys;
- the **project locator**, which walks up from the working directory to the nearest `.envcli.yml`;
- the **merge** that tags entries with a scope, and the **fold** of that merge over the candidate files;
- the **router**, which returns the first merged entry that provides the command.

It also models the older inline version of the same logic in `src/app.go`:

- the `run` action's command-line join and its last-match scan;
- the `config set/get/unset` subcommands over the two proxy fields;
- `setLoglevel`.

## Files and modules

| file | module | what it holds |
|---|---|---|
| `wrappers.dfy` | `Wrappers` | `Option`, `Result` |
| `paths.dfy` | `Paths` | directories as segment sequences; the root is `[]` |
| `entries.dfy` | `Entries` | `Scope`, `Entry`, `ProjectConfig`, `Retag` |
| `property_config.dfy` | `PropertyConfig` | the allow-list, the `PropertyStore` class and its set/get/unset |
| `project_locator.dfy` | `ProjectLocator` | `NearestMarked` and the `GetProjectDirectory` loop |
| `resolver.dfy` | `Resolver` | merge, candidate list, fold, router, `GetCommandConfiguration` |
| `legacy_run.dfy` | `LegacyRun` | the `run` action of `src/app.go` |
| `legacy_settings.dfy` | `LegacySettings` | `config set/get/unset` of `src/app.go` |
| `log_level.dfy` | `LogLevel` | `setLoglevel` |

## How the environment is modelled

- **Persisted state becomes fields.** The `.envclirc` file is the field `PropertyStore.file`.
  It is an `Option<map<string, string>>`, where `None` means the file does not exist.
  Loading reads the field and saving writes it.
- **Project documents are a map.** They form a `map<string, ProjectConfig>` keyed by file path.
  A path with no key is a missing file. A malformed file maps to whatever partial document
  the loader produced, because the source discards loader errors.
- **The marker file is a set.** Whether a directory holds `.envcli.yml` is membership
  in `markers: set<Path>`.
- **Values from outside the core become parameters.** These are the working directory,
  the execution directory and, for the older code, the loader's project directory and
  relative path, the loader itself (a function from path to document) and whether Docker was found.
- **The scope tag is a closed variant.** `Unscoped` stands for the empty scope string
  an entry has before any merge.
- **The command list is a field.** The source's `Provides` list of an entry is the field `commands`
  (`provides` is a Dafny keyword).

## Points where the code does less than its comments suggest (the model follows the code)

- **Scope tags.** `MergeConfigurations` is documented to keep each entry's origin in its scope.
  `GetCommandConfiguration` folds `MergeConfigurations(acc, next)` over the documents, and that
  re-tags everything merged so far as `Project` at every step. So only the last candidate
  (the global file) ends up `Global`, and the includes end up `Project`
  (`Resolver.AccumulatedTags`).
- **The `currentDirectory` argument.** `GetCommandConfiguration` is documented to look in "the
  specified directory". It never reads its `currentDirectory` argument: the locator starts
  from the process's working directory.
- **The locator's stopping rule.** The loop stops only at `/` or a Windows drive root.
  It does not stop when the parent equals the current directory. Both roots are `[]` here.
- **Property-load failures.** `GetCommandConfiguration` checks for a property-load error.
  `LoadPropertyConfigFile` never returns one, so that branch cannot be taken.

## Model

| member | source | states |
|---|---|---|
| `PropertyConfig.LoadPropertyFile` | pkg/config/config.go:45-58 | a missing property file loads as the empty map and never as an error; a present one loads as what the loader read |
| `PropertyConfig.PropertyStore.SetPropertyConfigEntry` | pkg/config/config.go:78-90 | for an allow-listed key the file afterwards holds the freshly loaded map with that key set; for any other key the file is left exactly as it was (not saved, not created) |
| `PropertyConfig.PropertyStore.GetPropertyConfigEntry` | pkg/config/config.go:93-104 | returns the key's value in the freshly loaded map for an allow-listed key present there, "" otherwise |
| `PropertyConfig.PropertyStore.UnsetPropertyConfigEntry` | pkg/config/config.go:107-119 | for an allow-listed key the file afterwards holds the loaded map with that key blanked; for any other key the file is unchanged |
| `PropertyConfig.GetAfterSet` | pkg/config/config.go:83-89 | after a set of an allow-listed key, a get of that key returns the value set |
| `PropertyConfig.SetLeavesOtherKeys` | pkg/config/config.go:84-85 | a set leaves every other key's presence and value as they were |
| `PropertyConfig.UnsetBlanksKey` | pkg/config/config.go:112-117 | for an allow-listed key, unset keeps the key in the map with value "", is set-to-"", reads back as "", and leaves other keys alone |
| `PropertyConfig.InvalidKeyIgnored` | pkg/config/config.go:22 | for a key outside the allow-list get returns "" whatever the map holds, and set and unset leave the map unchanged |
| `PropertyConfig.UnsetValidKeyReadsEmpty` | pkg/config/config.go:98-103 | an allow-listed key missing from the file reads as "", the same as a blanked one |
| `PropertyConfig.SetThenGet` | pkg/config/config.go:78-104 | calling set and then get on the store object returns the value set for an allow-listed key, and "" with the file untouched otherwise |
| `ProjectLocator.NearestMarked` | pkg/config/config.go:140-155 | the result is the longest prefix of the directory (the nearest ancestor or the directory itself) that holds the marker, with no nearer one holding it; None exactly when no ancestor up to and including the root holds it |
| `ProjectLocator.GetProjectDirectory` | pkg/config/config.go:131-156 | the upward loop returns exactly the nearest marked directory, or not-found after testing the root |
| `ProjectLocator.NearestWins` | pkg/config/config.go:141-143 | when the directory itself does not hold the marker and both its parent and its grandparent do, the parent is returned |
| `Resolver.LoadProjectConfig` | pkg/config/config.go:25-37 | a missing project file loads as the empty configuration, without error; a present one as the loader's document |
| `Resolver.Merged` | pkg/config/config.go:159-172 | the merge has as many entries as a and b together, a's entries first then b's, in order, a's tagged Project and b's Global, nothing else changed |
| `Resolver.MergeConfigurations` | pkg/config/config.go:159-172 | the two append loops build exactly the merged configuration |
| `Resolver.GlobalConfigPath` | pkg/config/config.go:195 | an absent `global-configuration-path` falls back to the execution directory; a non-empty one is used as is |
| `Resolver.CandidateFiles` | pkg/config/config.go:184-197 | candidates are `<project>/.envcli.yml` first when a project was found, then the includes in order, then `<global path>/.envcli.yml` last |
| `Resolver.Accumulated` | pkg/config/config.go:200-204 | the fold as the source writes it: starting from the empty configuration, each loaded document is merged in as the second argument; what it yields is stated by `Resolver.AccumulatedTags` and the lemmas after it |
| `Resolver.AccumulatedTags` | pkg/config/config.go:199-204 | the fold gives every document's entries in candidate order; all but the last document's are tagged Project and the last one's Global |
| `Resolver.FirstMatchIndex` | pkg/config/config.go:207-216 | the index found is of an entry that provides the command with no earlier one providing it; none exactly when no entry provides it |
| `Resolver.FindCommand` | pkg/config/config.go:206-220 | the nested scan with early return yields the first providing entry, or the command-not-found error |
| `Resolver.GetCommandConfiguration` | pkg/config/config.go:175-221 | the method computes the resolution: the locator, the candidate list, the merge fold over the loaded documents, and the routing |
| `Resolver.ResolutionFindsProvider` | pkg/config/config.go:207-220 | resolution fails exactly when no entry of any loaded candidate provides the command, with an error naming it; a resolved entry provides it and carries a merge scope |
| `Resolver.ProjectEntryWins` | pkg/config/config.go:187-213 | a command the project document provides resolves to that document's first provider, tagged Project, whatever the includes and the global document hold |
| `Resolver.GlobalEntryIsFallback` | pkg/config/config.go:194-213 | when only the global document provides the command, the result is its first provider, tagged Global |
| `Resolver.MissingIncludeIgnored` | pkg/config/config.go:193-204 | an include that does not exist contributes nothing: dropping it from the includes gives the same resolution |
| `Resolver.AccumulatedSkipsEmpty` | pkg/config/config.go:200-204 | an empty document folded in anywhere before the last one leaves the merged configuration, tags included, unchanged |
| `LegacyRun.CommandLine` | src/app.go:86-87 | the forwarded command line: the first argument ("" when there is none) prepended to the tail and joined with " "; `LegacyRun.CommandLineIsJoin` states that this is the arguments joined |
| `LegacyRun.CommandLineIsJoin` | src/app.go:86-87 | the forwarded command line is all arguments joined with single spaces, also for zero or one argument |
| `LegacyRun.SplitCommandLine` | src/app.go:86-87 | for one or more arguments, none of which contains a space, splitting the forwarded line on spaces gives the arguments back |
| `LegacyRun.ArgumentBoundariesLost` | src/app.go:87 | for every argument list, replacing any argument of the form p + " " + q by the two arguments p and q leaves the forwarded command line unchanged |
| `LegacyRun.LastMatchIndex` | src/app.go:103-116 | the index found is of an entry providing the command with no later one providing it; none exactly when no entry provides it |
| `LegacyRun.MatchCommand` | src/app.go:98-116 | the scan without break leaves image, tag, directory and shell all from the last providing entry, or all "" |
| `LegacyRun.Dispatch` | src/app.go:117-137 | what the run does with the loaded document: not found when the matched image is "", no Docker when none was detected, otherwise one execution with the matched values; `LegacyRun.NotFoundCases` and `LegacyRun.ExecutesLastProvider` state its outcomes |
| `LegacyRun.RunAction` | src/app.go:81-137 | with no project directory the run stops before any configuration is loaded; otherwise the outcome is the dispatch of the loaded document |
| `LegacyRun.NotFoundCases` | src/app.go:117-120 | the command is reported not found exactly when no entry provides it or the last provider's image is "", even if an earlier one has an image |
| `LegacyRun.ExecutesLastProvider` | src/app.go:103-133 | an executed command takes image, tag, shell and directory from the one last providing entry, with the joined arguments as its command line |
| `LegacySettings.GlobalConfigFile.Save` | src/app.go:174 | `saveGlobalConfig`: the stored record becomes the one given and the save count goes up by one (also called at src/app.go:235) |
| `LegacySettings.GlobalConfigFile.ConfigSet` | src/app.go:147-177 | with two arguments only the named field changes and the record is saved once, also for an unknown name; otherwise usage error, nothing saved |
| `LegacySettings.GlobalConfigFile.ConfigGet` | src/app.go:181-205 | reports the named field (none for an unknown name) and has no frame to modify or save anything |
| `LegacySettings.GlobalConfigFile.ConfigUnset` | src/app.go:209-238 | with one argument only the named field is blanked and the record is saved once; otherwise usage error, nothing saved |
| `LegacySettings.GetAfterSet` | src/app.go:163-168 | a set field is read back by get and the other field keeps its value |
| `LegacySettings.UnknownNameIgnored` | src/app.go:169-171 | an unknown name changes neither field under set or unset, and get reports nothing for it |
| `LegacySettings.UnsetBlanksField` | src/app.go:224-229 | unset is set-to-"" on the named field only |
| `LegacySettings.SetThenGet` | src/app.go:147-205 | set and then get on the file object return the value set for a known name, after exactly one save |
| `LogLevel.Logger.SetLoglevel` | src/app.go:256-262 | the level afterwards is the flag's mapping of the level before |
| `LogLevel.NextLevelMapping` | src/app.go:256-262 | "info" gives Info and "debug" gives Debug from any level; every other flag leaves the level unchanged; applying a flag twice is applying it once |

## Left out

- Logging (logrus, zerolog) and its messages are not modelled; they do not affect results.
- The urfave/cli application, its flags and commands, and the sorting of flags and commands
  (src/app.go:245-247) are not modelled. Arguments arrive as a sequence.
- `os.Setenv` of `HTTP_PROXY` and `HTTPS_PROXY` is left out. It is ambient process state.
- Self-update (`ApplicationUpdater`) is left out; it is another component.
- Docker detection and `containerExec` are left out; their code is not part of this model.
  The run action takes the detection result as `dockerAvailable`. The toolbox and native
  branches make the same call, so they are one `Execute` outcome.
- `ConfigurationLoader` (used by `src/app.go`) is not part of this model. Its load of the
  project document is a function parameter, and its project directory and relative path are
  string parameters. Its load and save of the global record are reads and writes of
  `GlobalConfigFile.stored`. The `saves` counter records each save.
- YAML marshalling, `configor.Load` and `ioutil.WriteFile` are not modelled. This includes the
  owner-only file mode 0600 and any save error, which the source ignores. A save always succeeds
  and overwrites the field.
- A document that sets `properties` to null is not modelled. The Go assignment into a nil map
  would panic there.
- `os.Stat`, `filepath.Dir` and `filepath.Join` are replaced by segment paths and the marker set.
  The marker set and the document map are separate inputs. A consistent file system has
  `Render(d) + "/.envcli.yml"` among the documents for every marked directory `d`.
- The Windows drive check (pkg/config/config.go:146) and `/` are both the root `[]`.
  A relative path, on which `filepath.Dir` stops at "." and the source's loop would never end,
  cannot be expressed.
- `GetProjectOrWorkingDirectory` is left out. It is only a fallback to the OS working directory.
- `collection.InArray` (a foreign library) is sequence membership.
- The failure branch of `GetCommandConfiguration` after loading the properties
  (pkg/config/config.go:177-182) is left out. `LoadPropertyConfigFile` never returns an error,
  so the model's resolution has no property-load error.
- Resolver.GlobalConfigPath: states nothing for a key present with value "". `collection.MapGetValueOrDefault`
  is a foreign library, so whether such a value falls back to the execution directory is the
  parameter `blankFallsBack`. This matters after `unset global-configuration-path`.
- Concurrent CLI invocations racing on `.envclirc` (lost updates) are not modelled.
- `config get` prints the value. The model returns it as `shown`.
- `log.Fatal` and `log.Fatalf` end the process. They are the `UsageError` status
  (wrong argument count) and the `NoProjectFound` and `NoDockerFound` outcomes.
