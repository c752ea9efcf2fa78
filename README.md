# Agent settings store

This is a model of the vFense agent's settings store, `agent/src/utils/settings.py`.
The module holds the agent's configuration as module-level globals:

- the server and agent ports,
- the log level, agent id and token,
- the views and tags lists,
- the agent's name, version, description and install date,
- the server's host name, IP address and the address actually used.

Three things fill and use these globals:

- `initialize(appName)` fills them from `agent.config`;
- `save_settings()` writes them back into the parsed configuration;
- the paths for the database, the marker files, the server certificate and the updates are computed once, from the starting directory, when the module loads.

The project has six modules:

- `Wrappers`: `Option`.
- `CommaList`: how the INI file stores the views and tags lists.
  - `Split` is Python's `str.split(',')` and `Join` is `','.join`.
  - `Decode` is the "keep the default when the text is empty" rule of `initialize`.
  - It proves both round trips between `Split` and `Join`.
- `Decimal`: the ports' `int()` and the `str()` that writes them back. It proves that reading a written port gives the same integer.
- `IniConfig`: the parsed configuration as a map from (section, option) to text.
  - An option name is lower-cased, as ConfigParser's `optionxform` does. Section names are kept as written.
  - `Get` fails on a missing key; `Set` replaces or adds one.
  - `Sections` is the set of sections present. A `set` into a missing section raises `NoSectionError`, which `Settings.Save` models.
  - `SetAll` applies a sequence of calls to `Set`, and its lemmas say which keys it touches.
- `AgentPaths`: `os.path.join`, `dirname` and `basename` for POSIX paths, and every path the module derives from the starting directory. It proves how those paths are laid out.
- `Settings`: the module's globals.
  - `Globals` is a snapshot of all of them; `ModuleDefaults` is the value they have after import.
  - `InitializeSpec` is `initialize` as a chain of stages, in the source's reading order. A stage that fails stops the chain, with every earlier global already assigned.
  - `Save` is `save_settings`: the thirteen `set` calls (`SaveInto`), or the `NoSectionError` that `set` raises for a missing section.
  - `class SettingsStore` holds the same globals as mutable fields. Its `Initialize` and `SaveSettings` methods update them step by step and are proved equal to the two specification functions.

`initialize` can end in three ways:

- It returns normally (`Ready`).
- It raises an error (`Failed`): ConfigParser's `NoSectionError` or `NoOptionError`, or `int()`'s `ValueError`.
- It calls `sys.exit(1)` (`Exit`) when both server addresses are empty.

The logger is a list of events in the globals. Starting the logger (`logger.initialize`) and each `logger.critical` call append one event.

The module docstring (lines 1-4) says the settings are read-only and never saved. The code has `save_settings`, which writes every setting back, and the model follows the code.

## Model

| member | source | states |
|---|---|---|
| CommaList.Split | agent/src/utils/settings.py:159 | `str.split(',')` gives at least one piece, and no piece contains a comma |
| CommaList.Join | agent/src/utils/settings.py:187-188 | Definition of `','.join`; what it promises is stated by `SplitJoin`, `JoinSplit` and `JoinEmpty` |
| CommaList.Decode | agent/src/utils/settings.py:154-163 | Empty text keeps the prior list. Non-empty text gives its split, which is never `[""]` |
| CommaList.JoinSplit | agent/src/utils/settings.py:159 | Joining the pieces of a split gives back the original text, for every text |
| CommaList.SplitJoin | agent/src/utils/settings.py:187-191 | Splitting the join of a non-empty list of comma-free elements gives back the list |
| CommaList.JoinEmpty | agent/src/utils/settings.py:187-188 | A join is empty exactly when the list is `[]` or `[""]` |
| CommaList.DecodeJoin | agent/src/utils/settings.py:154-163 | A storable list (no element holds a comma, and it is not `[""]`) reads back as itself after saving; an empty saved list reads back as the prior default |
| CommaList.JoinDecode | agent/src/utils/settings.py:157-159 | With the import-time empty prior list, writing back a decoded list gives the stored text unchanged (with a non-empty prior list and empty text, the prior list is written instead) |
| Decimal.ParseInt | agent/src/utils/settings.py:148-149 | Python 2's `int()` succeeds exactly on blanks, an optional sign, more optional blanks, one or more digits and trailing blanks (`IsIntLiteral`); the value takes the sign's direction. The value itself is stated by `UnsignedValue`, `SignedValue`, `BlanksAround` and `LeadingZeros` |
| Decimal.TrimUnblanked | agent/src/utils/settings.py:148-149 | Text with no blank at either end is left as it is by `int()`'s blank skipping |
| Decimal.BlankAfterSign | agent/src/utils/settings.py:148-149 | `int('- 8080')` is −8080: blanks between the sign and the digits are accepted |
| Decimal.BlankInsideDigits | agent/src/utils/settings.py:148-149 | `int('80 80')` raises: a blank between digits is refused |
| Decimal.UnsignedValue | agent/src/utils/settings.py:148-149 | A run of digits reads as its decimal value, most significant digit first |
| Decimal.SignedValue | agent/src/utils/settings.py:148-149 | A sign, any blanks and a run of digits read as the digits' value, negated for `-` |
| Decimal.BlanksAround | agent/src/utils/settings.py:148-149 | Blanks before and after the text do not change what `int()` returns |
| Decimal.LeadingZeros | agent/src/utils/settings.py:148-149 | Leading zeros do not change what `int()` returns |
| Decimal.PlusSign | agent/src/utils/settings.py:148-149 | A leading `+` does not change what `int()` returns |
| Decimal.DigitsValueAppend | agent/src/utils/settings.py:148-149 | The value of two runs of digits written together is the first's value shifted by the second's length plus the second's |
| Decimal.PortSpellings | agent/src/utils/settings.py:148-149 | `+8080`, `08080` and ` 8080 ` all read as 8080, which `str()` writes back as `8080` |
| Decimal.ShowInt | agent/src/utils/settings.py:193-194 | `str()` of an integer is an integer literal with no leading `+` |
| Decimal.ParseShow | agent/src/utils/settings.py:193-194 | A port written with `str()` reads back through `int()` as the same integer |
| IniConfig.Get | agent/src/utils/settings.py:72-73 | Definition of `get` on the parsed map; its meaning is stated by `CaseInsensitiveGet`, `GetHasSection` and `SetAllGet` |
| IniConfig.Lower | agent/src/utils/settings.py:72-73 | Definition of `optionxform`: each letter lower-cased; stated by `LowerChar`, `CaseInsensitiveGet` and `LowerOfLowerCase` |
| IniConfig.LowerChar | agent/src/utils/settings.py:72-73 | An upper-case ASCII letter becomes its lower-case letter; every other character is kept; the result is never upper-case |
| IniConfig.Set | agent/src/utils/settings.py:190-203 | Definition of `set` into an existing section; its effect is stated by `SetSections`, `SetAllKeys` and `SetAllGet`, and `Save` raises `NoSectionError` before a call into a missing section |
| IniConfig.GetHasSection | agent/src/utils/settings.py:72-73 | A successful `get` implies its section exists |
| IniConfig.SetSections | agent/src/utils/settings.py:190-203 | A `set` leaves its section present, and adds or removes no other section |
| IniConfig.SetOtherSection | agent/src/utils/settings.py:190-203 | A `set` leaves every option of another section as it was |
| IniConfig.CaseInsensitiveGet | agent/src/utils/settings.py:72 | Two option names that differ only in letter case read the same entry |
| IniConfig.LowerOfLowerCase | agent/src/utils/settings.py:148-168 | An option name with no upper-case letter is its own key |
| IniConfig.LowerTwice | agent/src/utils/settings.py:72-73 | A lower-cased name lower-cases to itself, so the name an error reports reads the same entry |
| IniConfig.SetAllStep | agent/src/utils/settings.py:190-203 | Applying writes from position k on is one `set` followed by the rest |
| IniConfig.SetAllKeys | agent/src/utils/settings.py:190-203 | A sequence of `set` calls adds exactly the written keys and leaves every other entry unchanged |
| IniConfig.WrittenKeysCount | agent/src/utils/settings.py:190-203 | Writes to pairwise distinct keys touch as many keys as there are writes |
| IniConfig.SetAllGet | agent/src/utils/settings.py:190-203 | After writes to distinct keys, each written option reads back its written value |
| AgentPaths.PathJoin | agent/src/utils/settings.py:39 | Definition of `os.path.join`; an absolute second part replaces the first. What a join of a directory and a name gives is stated by `ChildPath`, `JoinRelative` and `JoinEndsWith` |
| AgentPaths.JoinEndsWith | agent/src/utils/settings.py:39 | A joined path always ends in its second part |
| AgentPaths.LastSlash | agent/src/utils/settings.py:37-56 | The index found is −1 or the position of a slash, and no slash comes after it |
| AgentPaths.StripTrailingSlashes | agent/src/utils/settings.py:37-56 | The result is a prefix of the input that does not end in a slash, and only slashes were cut |
| AgentPaths.LastSlashAppend | agent/src/utils/settings.py:37-56 | Appending slash-free text does not move the last slash |
| AgentPaths.ChildPath | agent/src/utils/settings.py:39-56 | A directory joined with one name is a directory whose `dirname` is the directory and whose `basename` is the name |
| AgentPaths.DirectoryChild | agent/src/utils/settings.py:39-56 | A directory joined with one name is a directory again |
| AgentPaths.JoinRelative | agent/src/utils/settings.py:39-56 | Joining a relative name adds it after the directory's separator |
| AgentPaths.RelativePath | agent/src/utils/settings.py:38-56 | Each derived path's text below the starting directory is non-empty, relative and has no trailing slash |
| AgentPaths.PathIsJoined | agent/src/utils/settings.py:38-56 | Every derived path is its parent directory joined with its own single-component name |
| AgentPaths.PathIsDirectory | agent/src/utils/settings.py:38-56 | From a starting directory, every derived path and every parent directory is a directory path |
| AgentPaths.LayoutTree | agent/src/utils/settings.py:38-56 | `dirname` of each derived path is its parent and `basename` is its file or directory name: the db file is under `db`, certs under `etc`, the cert under `etc/certs`, updates under `tmp` |
| AgentPaths.JoinOntoText | agent/src/utils/settings.py:39-56 | Joining a name onto a path with no trailing slash inserts exactly one slash |
| AgentPaths.SpelledOutStep | agent/src/utils/settings.py:38-56 | If a parent's path is the starting directory plus its relative text, so is its child's |
| AgentPaths.LayoutSpelledOut | agent/src/utils/settings.py:38-56 | Every derived path is the starting directory followed by its relative text, e.g. `etc/certs/server.crt` |
| AgentPaths.MarkersInEtc | agent/src/utils/settings.py:51-56 | The six marker and queue files sit directly in the `etc` directory |
| AgentPaths.BinDirectory | agent/src/utils/settings.py:39 | Definition of `BinDirectory`; its layout is stated by `LayoutTree` and `LayoutSpelledOut` through `PathOf` |
| AgentPaths.DbDirectory | agent/src/utils/settings.py:40 | Definition of `DbDirectory`; stated by `LayoutTree` and `LayoutSpelledOut` |
| AgentPaths.AgentDb | agent/src/utils/settings.py:41 | Definition of `AgentDb`, the database file in `DbDirectory`; stated by `LayoutTree` |
| AgentPaths.EtcDirectory | agent/src/utils/settings.py:42 | Definition of `EtcDirectory`; stated by `LayoutTree` and `MarkersInEtc` |
| AgentPaths.LogDirectory | agent/src/utils/settings.py:43 | Definition of `LogDirectory`, where the logger is started; stated by `LayoutTree` |
| AgentPaths.TempDirectory | agent/src/utils/settings.py:44 | Definition of `TempDirectory`; stated by `LayoutTree` |
| AgentPaths.CertsDirectory | agent/src/utils/settings.py:45 | Definition of `CertsDirectory`, under `etc`; stated by `LayoutTree` |
| AgentPaths.PluginDirectory | agent/src/utils/settings.py:46 | Definition of `PluginDirectory`; stated by `LayoutTree` |
| AgentPaths.UpdatesDirectory | agent/src/utils/settings.py:47 | Definition of `UpdatesDirectory`, under `tmp`; stated by `LayoutTree` |
| AgentPaths.ServerCert | agent/src/utils/settings.py:49 | Definition of `ServerCert`, under `etc/certs`; stated by `LayoutTree` and `LayoutSpelledOut` |
| AgentPaths.OperationQueueFile | agent/src/utils/settings.py:51 | Definition of `operation_queue_file`; stated by `MarkersInEtc` |
| AgentPaths.ResultQueueFile | agent/src/utils/settings.py:52 | Definition of `result_queue_file`; stated by `MarkersInEtc` |
| AgentPaths.RebootFile | agent/src/utils/settings.py:53 | Definition of `reboot_file`; stated by `MarkersInEtc` |
| AgentPaths.ShutdownFile | agent/src/utils/settings.py:54 | Definition of `shutdown_file`; stated by `MarkersInEtc` |
| AgentPaths.UptimeFile | agent/src/utils/settings.py:55 | Definition of `uptime_file`; stated by `MarkersInEtc` |
| AgentPaths.UpdateFile | agent/src/utils/settings.py:56 | Definition of `update_file`; stated by `MarkersInEtc` |
| AgentPaths.PathOf | agent/src/utils/settings.py:39-56 | Each derived path by name, so that the lemmas above cover all sixteen at once |
| Settings.Read | agent/src/utils/settings.py:150-152 | Definition of one `get`; what it promises is stated by the stage lemmas below, `LoadReachesFinish` and `InitializeReady`. Its failure is `Missing` of that option with the globals unchanged |
| Settings.Missing | agent/src/utils/settings.py:72-73 | The error `get` raises for an absent option: `NoSectionError` exactly when the section is missing, else `NoOptionError` naming the lower-cased option |
| Settings.PortError | agent/src/utils/settings.py:148-149 | The error a port read raises: the `get` error when the option is absent, else `ValueError` with the option's text |
| Settings.ReadInt | agent/src/utils/settings.py:148-149 | Reading a port continues exactly when its text is an integer literal. Otherwise it stops with `PortError` of that option and the globals unchanged |
| Settings.ReadPorts | agent/src/utils/settings.py:148-149 | Both ports parse exactly when both are set, to their integer values. A bad server port changes nothing and raises its `PortError`; a bad agent port leaves only the server port set and raises its own |
| Settings.ReadStrings | agent/src/utils/settings.py:150-152 | The log level, agent id and token are read in order. Success sets exactly those three. For each missing option, the call raises `Missing` of it with exactly the options before it assigned |
| Settings.ReadLists | agent/src/utils/settings.py:154-163 | Views and tags are set to their decoded text, keeping the defaults for empty text. A missing views option changes nothing; a missing tags option leaves only views changed; each raises `Missing` of itself |
| Settings.ReadAgentInfo | agent/src/utils/settings.py:165-168 | Name, version, description and install date are read from `agentInfo` in order. For each missing option, the call raises `Missing` of it with exactly the options before it assigned |
| Settings.EffectiveAppName | agent/src/utils/settings.py:170-171 | The logger's name is never empty: `agent` for None or empty, else the given name |
| Settings.GetServerAddresses | agent/src/utils/settings.py:70-89 | Exit with status 1 and exactly the two critical messages iff both addresses are empty. Raises iff one is missing, naming the first missing lower-cased option as `NoOptionError` does. Otherwise returns both stored values, not both empty |
| Settings.ResolveServerAddress | agent/src/utils/settings.py:177-180 | The host name if it is non-empty, else the IP address; non-empty when either one is |
| Settings.Finish | agent/src/utils/settings.py:170-180 | The logger is started first. Then the outcome is the exit with two criticals, a raise, or `ready` with both addresses and the resolved address stored |
| Settings.LoadReachesFinish | agent/src/utils/settings.py:148-180 | When every option before the logger is readable, the stages yield exactly `Assigned` before the logger starts |
| Settings.LoadStopsEarly | agent/src/utils/settings.py:148-168 | When an option before the logger is missing or a port is bad, the call raises `ReadError`, the error of the first failing read, with exactly the globals read before it assigned (`PartiallyAssigned`) and the logger not started |
| Settings.FailingRead | agent/src/utils/settings.py:148-168 | The position of the first of the eleven reads before the logger that fails; 11 exactly when all succeed |
| Settings.ReadError | agent/src/utils/settings.py:148-168 | The error of the first failing read, which explains a defect of the configuration |
| Settings.PartiallyAssigned | agent/src/utils/settings.py:148-168 | Definition: each global read before the first failing read holds its value, the others are unchanged; used by `LoadStopsEarly` and `InitializeFailureIsPartial` |
| Settings.StopsInPorts | agent/src/utils/settings.py:148-149 | A failure in the port reads stops `initialize` with `ReadError` and `PartiallyAssigned` |
| Settings.StopsInStrings | agent/src/utils/settings.py:150-152 | The same for a failure among LogLevel, AgentId and Token |
| Settings.StopsInLists | agent/src/utils/settings.py:157-163 | The same for a failure among Views and Tags |
| Settings.StopsInAgentInfo | agent/src/utils/settings.py:165-168 | The same for a failure among the agentInfo options |
| Settings.LoadPrefix | agent/src/utils/settings.py:148-180 | Both of the above, as one case split |
| Settings.Load | agent/src/utils/settings.py:148-180 | Definition of `initialize`'s body as a chain of stages; what it does is stated by `LoadPrefix` |
| Settings.InitializeSpec | agent/src/utils/settings.py:119-180 | Definition of `initialize` on the parsed configuration; stated by `InitializeOutcomes`, `InitializeReady`, `InitializeExits` and `InitializeFailureIsPartial` |
| Settings.InitializeOutcomes | agent/src/utils/settings.py:119-180 | The config is always replaced. The call raises iff the configuration is incomplete, exits iff it is complete with both addresses empty, and is ready otherwise |
| Settings.InitializeReady | agent/src/utils/settings.py:119-180 | A successful call leaves exactly the globals of `Configured`, each taken from its option |
| Settings.ServerAddressChosen | agent/src/utils/settings.py:175-180 | After success, ServerAddress is set and non-empty: the host name if that is non-empty, else the IP address |
| Settings.InitializeExits | agent/src/utils/settings.py:75-85 | An exit has status 1. All earlier globals are assigned, and the log gained the logger start followed by the two critical messages |
| Settings.InitializeFailureIsPartial | agent/src/utils/settings.py:148-175 | A raise before the logger is the first failing read's error, with exactly the earlier globals assigned and the log and addresses untouched. A raise after it names a lower-cased server address option and leaves everything earlier assigned |
| Settings.PortFailureStopsEarly | agent/src/utils/settings.py:148-149 | A bad server port assigns nothing but the config and raises its `PortError`. A bad agent port assigns only the server port and raises its own |
| Settings.ListsKeepDefaults | agent/src/utils/settings.py:154-163 | After success, empty views or tags text keeps the prior list; otherwise the list is its split and never `[""]` |
| Settings.SaveIntoIsSetAll | agent/src/utils/settings.py:190-203 | The thirteen `set` calls are `SetAll` of the thirteen writes, in source order |
| Settings.SaveAppSettings | agent/src/utils/settings.py:190-198 | Definition of the nine `set` calls into appSettings; stated by `SaveAppSettingsSections` and `SaveAppSettingsKeepsAgentInfo` |
| Settings.SaveAgentInfo | agent/src/utils/settings.py:200-203 | Definition of the four `set` calls into agentInfo |
| Settings.SaveInto | agent/src/utils/settings.py:186-203 | Definition of the configuration after all thirteen calls; stated by `SaveIntoIsSetAll`, `SaveWrites` and `SaveSetsEachOption` |
| Settings.Save | agent/src/utils/settings.py:183-203 | Definition of `save_settings`, with `set`'s `NoSectionError`; stated by `SaveOutcomes` |
| Settings.SaveAppSettingsSections | agent/src/utils/settings.py:190-198 | The appSettings calls leave appSettings present and add no agentInfo section |
| Settings.SaveAppSettingsKeepsAgentInfo | agent/src/utils/settings.py:190-198 | The appSettings calls leave every agentInfo option as it was |
| Settings.SaveOutcomes | agent/src/utils/settings.py:183-203 | Saving completes exactly when both sections exist. A missing appSettings raises having changed nothing; a missing agentInfo raises after the nine appSettings calls, with agentInfo untouched, as `set` mutates in place. Only the configuration changes |
| Settings.SaveAfterInitialize | agent/src/utils/settings.py:119-203 | After a successful `initialize`, saving completes and writes every setting back |
| Settings.KeysSpelledOut | agent/src/utils/settings.py:148-203 | The key of every option name. `ServerHostname` and `ServerIpAddress` have the same keys as the lower-case names `save_settings` writes |
| Settings.AddressKeysAgree | agent/src/utils/settings.py:72-73 | Lower-casing the two address option names gives the names `save_settings` uses |
| Settings.AddressKeys | agent/src/utils/settings.py:72-73 | The mixed-case address names read the same keys as their lower-case spellings |
| Settings.SavedWritesDistinct | agent/src/utils/settings.py:190-203 | The thirteen writes go to thirteen different keys |
| Settings.SavedWritesKeys | agent/src/utils/settings.py:190-203 | The keys written are exactly the thirteen saved options |
| Settings.SaveWrites | agent/src/utils/settings.py:183-203 | Saving adds exactly the thirteen keys, leaves every other entry unchanged, and each saved option reads back its value |
| Settings.SaveSetsEachOption | agent/src/utils/settings.py:186-203 | Each option's value after saving: joined lists, ports as `str()`, the remaining strings as they are. The addresses also read back under `initialize`'s mixed-case names |
| Settings.SaveThenInitialize | agent/src/utils/settings.py:119-203 | When every saved global holds a value, both lists are storable and at least one server address is non-empty, `initialize` after saving succeeds and restores every saved global. Empty lists give the prior default; the address resolves as before |
| Settings.SavedKeysPresent | agent/src/utils/settings.py:148-175 | A configuration `initialize` accepts already holds all thirteen saved keys |
| Settings.InitializeThenSave | agent/src/utils/settings.py:119-203 | When Views and Tags start as the import-time empty lists, saving right after `initialize` keeps the key set and every other entry, and rewrites ports as canonical `str(int(...))`. The other eleven keep their text from the file |
| Settings.SettingsStore.constructor | agent/src/utils/settings.py:19-67 | A fresh store holds the module's import-time defaults and the starting directory |
| Settings.ModuleDefaults | agent/src/utils/settings.py:19-67 | Definition of the globals after import: every setting None, the lists empty, no configuration; the constructor's contract says a fresh store holds them |
| Settings.SettingsStore.LoadPorts | agent/src/utils/settings.py:148-149 | Updating the fields reaches exactly the globals and outcome of `ReadPorts` |
| Settings.SettingsStore.LoadStrings | agent/src/utils/settings.py:150-152 | Updating the fields reaches exactly the globals and outcome of `ReadStrings` |
| Settings.SettingsStore.LoadLists | agent/src/utils/settings.py:154-163 | Updating the fields reaches exactly the globals and outcome of `ReadLists` |
| Settings.SettingsStore.LoadAgentInfo | agent/src/utils/settings.py:165-168 | Updating the fields reaches exactly the globals and outcome of `ReadAgentInfo` |
| Settings.SettingsStore.StartAndResolve | agent/src/utils/settings.py:170-180 | Updating the fields reaches exactly the globals and outcome of `Finish`, with the log directory under the starting directory |
| Settings.SettingsStore.Initialize | agent/src/utils/settings.py:119-180 | The new fields and the outcome are exactly `InitializeSpec` of the old fields, so every lemma about `InitializeSpec` holds of the method |
| Settings.SettingsStore.SaveSettings | agent/src/utils/settings.py:183-203 | Updating the config field reaches exactly the globals and outcome of `Save`; no other field changes |

## Left out

- `_create_directories` (lines 92-116, called at line 143) is left out. It creates directories and removes the temp directory, so it only acts on the file system and no global depends on it.
- Reading and writing `agent.config` (lines 145-146 and 205-206) is left out. The model works on the parsed configuration map, and `Initialize` takes it as a parameter.
- ConfigParser's file parsing is left out: comments, continuation lines, the `DEFAULT` section, `%` interpolation and how `write` escapes values.
- IniConfig.Sections: a section's presence is read off the keys, so a section with no options (a bare `[agentInfo]` header) is not represented. On such a file the model raises `NoSectionError` where ConfigParser finds the section and reports `NoOptionError` or, in `save_settings`, proceeds.
- `os.getcwd()` (line 37) is the store's `startingDirectory` parameter. `AgentDirectory` is the same directory, so it has no function of its own.
- The logger (`src.utils.logger`) is out of the model's reach. `logger.initialize` and `logger.critical` become events appended to the log, and `sys.exit(1)` becomes the `Exit(1)` outcome.
- Decimal.ParseInt: only the six ASCII blanks of C's `isspace` are skipped; a port too large for a machine word, which Python 2 turns into a `long`, has the same value in the model's unbounded integers.
- Settings.SettingsStore.SaveSettings requires a store that `initialize` has filled. On any other store the source either fails because `_config` is None, or stores None values that the file then writes as the text `None`.
- Settings.SaveThenInitialize: the round trip is stated on the configuration map in memory. Writing `agent.config` and reading it back can change a value: ConfigParser strips the blanks around it, cuts it at a `;` that follows a blank, reads `""` as empty, and `get` expands `%(name)s` references.
- Settings.SaveInto stores the ports as their `str()` text. The source puts the int itself into the in-memory configuration, and the text appears only when the file is written.
- The globals `EmptyValue`, `DATE_FORMAT`, `default_decoder`, `default_encoder`, `_app_config_file` and `_server_host_name` are left out, because nothing in the core computes with their values.
