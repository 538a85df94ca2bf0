# apkas: a verified model of the command-line core

`apkas` installs an Android package on a device through the Android debug
bridge (`adb`). One run of its `start` function does the following:

- loads `config.json`, or creates it holding `{adbPath: false}`;
- picks the device: the `-d` value, else the one stored in the settings;
- reuses the cached bridge binary, or downloads it and stores its path;
- then, with `-l`, lists the devices and stops;
- otherwise, with `-d`, runs `adb connect` (on the still-empty device list,
  see below) and stores the device in the settings;
- and, when positional targets are given, lists the devices and installs the
  single target (or refuses several).

This project models `src/index.js` in Dafny and proves what it does.

- `device_list.dfy` (module `DeviceList`) models `getListDevices`. The output
  of `adb devices` goes through the pipeline: join on `\n`, split on `\n`,
  keep the lines longer than one character, cut each before its first tab and
  delete its first `\r`, drop the header.
- `config_store.dfy` (module `ConfigStore`) models the settings file.
  - The file is abstract: absent, holding a JSON object, or malformed.
  - `getSettings` and `updateConfing` are modelled, with the spread merge
    `{...stored, ...incoming}`.
- `device_select.dfy` (module `DeviceSelect`) models the `lit` formatter.
  Colour is an abstract highlighted tag. It also models the listing
  `list.map(lit)` and the index rule of `selectFrom`.
- `cli.dfy` (module `Cli`) models the run.
  - The run is a specification on a `State` record: the module-level
    `currentConfig`, `selectedDevice` and `devices`, the file, and a trace of
    actions.
  - The command line and the outside world's answers are parameters.
  - The class `Session` holds the same state in fields. Its methods update
    the fields in place and are proved to do exactly what the step functions
    say.
- `start_properties.dfy` (module `StartProperties`) holds what a whole run
  does:
  - which device is selected;
  - which flags end the run, and where;
  - what `connect` and `install` are given, and with which program;
  - how the settings file evolves.

  The step lemmas show that each step keeps the trace within an "allowance".
  An allowance lists the permitted kinds of action and their arguments.

### Where the model follows the code rather than the documented intent

- `.replace("\r", "")` removes only the first carriage return of an entry,
  not every one.
- A malformed settings file makes `JSON.parse` throw. Nothing recovers from
  it, so the run ends.
- `readline.question` does not exist on Node's `readline` module. The prompt
  for an ambiguous device therefore throws at once, and the run ends there
  (`Fail(PromptUnavailable)`).
- `updateConfing` does not refresh `currentConfig` with the merged object.
  So on a first run without `-d` every bridge command is issued with the
  stale `adbPath: false` (`FirstRunUsesStaleTool`). With `-d` only the
  `connect` is: the `-d` branch's update reloads `currentConfig` from the
  file, which by then holds the downloaded path, and the listing and the
  install use that path (`FirstRunDeviceFlagUsesNewPath`).
- The `-d` branch passes the module-level `devices` array, still empty at
  that point, to `connect`. It does not return afterwards.
- The "only one target" check comes after the device listing.

## Model

| member | source | states |
|---|---|---|
| `DeviceList.Split` | src/index.js:164 | `split` on one character always yields at least one piece |
| `DeviceList.IndexOf` | src/index.js:167 | the position of the first occurrence, or the length when there is none; no occurrence before it |
| `DeviceList.RemoveFirst` | src/index.js:168 | `replace` with a one-character pattern deletes exactly the first occurrence and keeps the string when there is none |
| `DeviceList.KeepLong` | src/index.js:165 | the filter keeps only lines longer than one character and never adds lines |
| `DeviceList.CleanAll` | src/index.js:166-168 | the map keeps the length and cleans entry k from line k |
| `DeviceList.SplitPiecesFree` | src/index.js:164 | no piece of a split contains the separator |
| `DeviceList.JoinSplit` | src/index.js:163-164 | joining the pieces of a split gives back the string |
| `DeviceList.SplitCons` | src/index.js:164 | a separator-free prefix followed by the separator splits off as one piece |
| `DeviceList.SplitSingle` | src/index.js:164 | a separator-free string splits into itself |
| `DeviceList.SplitJoin` | src/index.js:163-164 | splitting a join of separator-free pieces gives back the pieces |
| `DeviceList.SplitHead` | src/index.js:167 | the first piece of a split is the text before the first separator |
| `DeviceList.KeepLongAppend` | src/index.js:165 | the filter distributes over concatenation, so it keeps the original order |
| `DeviceList.KeepLongSingle` | src/index.js:165 | a single line is kept iff it is longer than one character |
| `DeviceList.KeepLongFrom` | src/index.js:165 | every kept line is one of the input lines |
| `DeviceList.RemoveFirstChars` | src/index.js:168 | removing the first `\r` shortens by one iff there is one and adds no character |
| `DeviceList.EntryShape` | src/index.js:166-168 | an entry is its line cut before the first tab with the first `\r` removed; it holds no tab and only characters of its line |
| `DeviceList.ParseDevicesSpec` | src/index.js:162-171 | the result has one entry fewer than the kept lines (zero when none are kept); entry k is the cleaned (k+1)-th kept line; no entry holds a tab or newline |
| `DeviceList.HeaderOnly` | src/index.js:169 | output with at most one line longer than one character yields no devices |
| `DeviceList.TwoDevices` | src/index.js:162-171 | a header and two `<id>\t<state>` lines yield the two ids in order |
| `DeviceList.KeptLines` | src/index.js:165 | the trailing empty line of the reply is dropped and the other three lines are kept |
| `DeviceList.CleanEntry` | src/index.js:166-168 | an `<id>\t<state>` line cleans to the id |
| `DeviceList.TabLineKept` | src/index.js:165-167 | a line made of a tab and a state word passes the filter and becomes an empty entry |
| `DeviceList.TwoDevicesExample` | src/index.js:162-171 | the usual two-device reply parses to its two serial numbers |
| `ConfigStore.GetSettings` | src/index.js:103-115 | loading fails exactly on a malformed file, and otherwise leaves the file holding `currentConfig` |
| `ConfigStore.UpdateConfig` | src/index.js:117-126 | updating fails exactly on a malformed file; otherwise it writes at least once, the last object written carries every key of the update with its value, and `currentConfig` is what the inner load read |
| `ConfigStore.AfterWritesAppend` | src/index.js:113-125 | each write replaces the whole file: the file holds the last object written, and two batches of writes leave what one batch of both leaves |
| `ConfigStore.Merge` | src/index.js:120-125 | the merged object has the keys of both; update keys take the update's value, other stored keys keep theirs; spreading nothing adds nothing |
| `ConfigStore.FileAfterUpdate` | src/index.js:117-126 | after an update the file always holds an object |
| `ConfigStore.LoadOutcome` | src/index.js:103-115 | loading fails exactly on a malformed file; otherwise the file then equals `currentConfig`; a missing file becomes the default, written once, and the load returns undefined |
| `ConfigStore.LoadIdempotent` | src/index.js:103-115 | a second load reads back what the first left and writes nothing |
| `ConfigStore.UpdateStored` | src/index.js:117-126 | an update of a stored object writes once; the result has exactly the union of keys, update values winning |
| `ConfigStore.UpdateAbsent` | src/index.js:108-119 | with no file, the default is written first and the file ends up holding the update alone |
| `ConfigStore.UpdateKeepsCurrent` | src/index.js:117-119 | an update leaves `currentConfig` at the object read before the write |
| `ConfigStore.SequentialUpdates` | src/index.js:117-126 | two updates give the stored object merged with both, the last writer winning per key |
| `ConfigStore.UpdateThenLoad` | src/index.js:117-126 | loading after an update gives the new value under the key and the old value under every other key |
| `DeviceSelect.Digits` | src/index.js:216 | the numeral of an index is non-empty and made of decimal digits |
| `DeviceSelect.DigitsValue` | src/index.js:219 | the numeral shown for an index reads back as that index |
| `DeviceSelect.RenderAppend` | src/index.js:219 | the text and highlights of joined segments are the joins of the parts |
| `DeviceSelect.RenderOne` | src/index.js:216 | a single segment shows its own text, highlighted iff it is a highlighted segment |
| `DeviceSelect.Lit` | src/index.js:214-220 | an entry highlights exactly `X` and the name when the name is the selected device, and nothing otherwise |
| `DeviceSelect.LitHighlights` | src/index.js:219 | a four-segment entry shows and highlights its segments in order |
| `DeviceSelect.LitText` | src/index.js:214-220 | the text of an entry: `[ i ] name` with no selection, else `[ X ] i - name` on the selected device and `[  ] i - name` on others |
| `DeviceSelect.ListingMarks` | src/index.js:214-220 | `list.map(lit)` has one entry per device; entry k shows the text of `lit` with index k and the k-th name, and is highlighted iff its device is the selected one, the `X` mark first |
| `DeviceSelect.SelectFromListed` | src/index.js:134-142 | an accepted answer only ever yields a listed device, and every listed device is yielded by some answer |
| `DeviceSelect.AnswerShownIndex` | src/index.js:133-142 | answering with the index an entry shows selects that entry's device |
| `Cli.ArrayText` | src/index.js:173-175 | the text of the devices array, as interpolated into the connect command, is empty exactly when there is no device (or one empty entry) |
| `Cli.ChooseDevice` | src/index.js:34 | the selection is truthy iff `-d` is given or the stored device is truthy, and a given `-d` is the selection |
| `Cli.Session.constructor` | src/index.js:17-24 | a fresh module: default `currentConfig`, empty selection and device list, empty trace |
| `Cli.Session.GetSettings` | src/index.js:103-115 | the fields afterwards and the results equal the load step of the specification |
| `Cli.Session.UpdateConfig` | src/index.js:117-126 | the fields afterwards and the result equal the update step |
| `Cli.Session.DownloadTools` | src/index.js:88-99 | the fields afterwards and the results equal the download step |
| `Cli.Session.GetListDevices` | src/index.js:162-171 | the fields afterwards and the results equal the listing step |
| `Cli.Session.ShowAllDevices` | src/index.js:153-158 | the fields afterwards and the result equal the show-all step |
| `Cli.Session.ConnectToDevice` | src/index.js:173-175 | the fields afterwards and the result equal the connect step |
| `Cli.Session.UseDevice` | src/index.js:43-46 | the fields afterwards and the result equal the `-d` step |
| `Cli.Session.InstallTargets` | src/index.js:51-80 | the fields afterwards equal the install flow |
| `Cli.Session.Start` | src/index.js:27-84 | the fields afterwards equal the whole `start` step |
| `StartProperties.LoadFacts` | src/index.js:103-115 | loading keeps the selection and device list, succeeds iff the file is not malformed, and leaves the file equal to `currentConfig` |
| `StartProperties.LoadFits` | src/index.js:103-115 | loading adds only writes or a failure, so it keeps a trace within any allowance that admits those |
| `StartProperties.UpdateFacts` | src/index.js:117-126 | updating keeps the selection and device list and succeeds iff the file is not malformed |
| `StartProperties.UpdateFits` | src/index.js:117-126 | updating adds only writes or a failure, so it keeps a trace within any allowance that admits those |
| `StartProperties.UpdateStepIsStoreUpdate` | src/index.js:117-126 | the run's update does to the file what the store's update does, and `currentConfig` stays at the object read before |
| `StartProperties.ToolReuse` | src/index.js:88-99 | the cached path is returned with no download and no write iff not forced, truthy and on disk; otherwise a successful download returns `<dir>/adb.exe` and stores it under `adbPath` |
| `StartProperties.DownloadFacts` | src/index.js:88-99 | with a stored file and a working downloader the step succeeds and `currentConfig` is the cached or reloaded object |
| `StartProperties.DownloadFits` | src/index.js:88-99 | provisioning adds only a download, writes or a failure |
| `StartProperties.PrepareFacts` | src/index.js:27-36 | the run goes on only when the file was readable; the selection is `-d` or the stored device; `currentConfig` is the object read at the start |
| `StartProperties.PrepareFits` | src/index.js:27-36 | the first half of `start` adds only writes, a download and failures |
| `StartProperties.ListFacts` | src/index.js:162-171 | listing keeps the file, `currentConfig` and the selection, succeeds iff the bridge exits, returns the parsed reply and extends the trace |
| `StartProperties.ListFits` | src/index.js:162-171 | listing adds only `devices` commands run with `currentConfig.adbPath` and failures, so it keeps a trace within any allowance that admits those |
| `StartProperties.ShowAllFacts` | src/index.js:153-158 | showing succeeds iff the bridge exits, keeps the file and `currentConfig` and extends the trace |
| `StartProperties.ShowAllFits` | src/index.js:153-158 | showing all devices adds only a listing, the formatted entries, the key wait and perhaps a failure |
| `StartProperties.DeviceFlagFacts` | src/index.js:43-46 | the `-d` step first connects with the text of the `devices` array, succeeds iff the connect exits, and then stores the device in the file |
| `StartProperties.DeviceFlagFits` | src/index.js:43-46 | the `-d` step adds only connects given the text of the `devices` array and run with the current tool, writes and failures |
| `StartProperties.AskFacts` | src/index.js:60-64 | the ambiguous-device branch leaves the file alone and extends the trace |
| `StartProperties.AskFits` | src/index.js:60-64 | the ambiguous-device branch adds only a message, a listing, the entries, the key wait and the failed prompt |
| `StartProperties.ProceedFacts` | src/index.js:69-80 | past the selection, the run leaves the file alone and adds exactly two actions: "Device connected: " with the first listed device (or `undefined`), then "Only one target is allowed" for several targets, or the install of the only target with the current tool |
| `StartProperties.ProceedFits` | src/index.js:69-80 | past the selection, the run stays within any allowance that admits messages and, with one target, an install of that target run with the current tool: it adds nothing else |
| `StartProperties.InstallFlowFacts` | src/index.js:51-80 | the install flow writes nothing and extends the trace |
| `StartProperties.InstallFlowFits` | src/index.js:51-80 | the install flow installs only with exactly one target, gives it that target, and runs every bridge command with the current tool |
| `StartProperties.InstallFlowNoInstall` | src/index.js:54-66 | with no selection and other than one device, the install flow never connects or installs |
| `StartProperties.InstallFlowOutcome` | src/index.js:51-80 | the end of the install flow after a successful listing: with no selection, "No device connected" for no device and the failed prompt iff more than one; with a selection or exactly one device, "Device connected: " with the first device, then the install of the only target with the current tool, or "Only one target is allowed" for several |
| `StartProperties.FitsAll` | src/index.js:27-84 | a trace is within an allowance iff each of its actions is allowed |
| `StartProperties.DispatchFits` | src/index.js:37-84 | the second half of `start` stays within the run's allowance |
| `StartProperties.RunShape` | src/index.js:27-84 | a run holds only the actions its flags allow; `connect` is given the empty text, `install` the first target, and each bridge command one of the run's tools |
| `StartProperties.DispatchIgnoresDownloader` | src/index.js:37-84 | the part of `start` after provisioning behaves the same whatever the downloader would do |
| `StartProperties.DownloaderUnusedWhenCached` | src/index.js:87-88 | when the cached bridge is reused the whole run is the same as with a working downloader, so lemmas assuming one lose no runs |
| `StartProperties.SelectedDevice` | src/index.js:34 | the device used is `-d` when given, else the stored device, else none |
| `StartProperties.ListRunKinds` | src/index.js:39-41 | a trace within a `-l` run's allowance has no connect, install or message |
| `StartProperties.NoTargetRunKinds` | src/index.js:49 | a trace within the allowance of a run without targets never lists devices or installs |
| `StartProperties.RunInstalls` | src/index.js:73-80 | within a run's allowance, an install needs exactly one target and is given it |
| `StartProperties.RunIsInstallFlow` | src/index.js:49-52 | a prepared run with targets and without `-l` or `-d` continues as the install flow |
| `StartProperties.PreparedFlowNoCommands` | src/index.js:54-66 | after preparation, with no selection and other than one device, nothing is connected or installed |
| `StartProperties.ListFlagOnlyLists` | src/index.js:39-41 | `-l` ends the run before any connect, install or message |
| `StartProperties.NoTargetNoListing` | src/index.js:49 | with no positional target the run never lists devices or installs |
| `StartProperties.InstallGetsTarget` | src/index.js:73-80 | an install happens only without `-l` and with exactly one target, and receives that target, never the device id |
| `StartProperties.NoCommandsUnlessSelected` | src/index.js:54-66 | with no selection and other than one device, the run never connects or installs |
| `StartProperties.NoDeviceConnected` | src/index.js:54-58 | with no selection and no device, the run ends by saying "No device connected" and never connects or installs |
| `StartProperties.PromptWhenAmbiguous` | src/index.js:60-64 | with no selection, the run ends at the failing prompt iff more than one device is listed, and then has commanded nothing |
| `StartProperties.StoredDeviceInstalls` | src/index.js:54-80 | a stored device skips the prompt whatever is listed: with one target the run ends by installing it with the stored tool, with several by refusing them |
| `StartProperties.SingleDeviceInstalls` | src/index.js:51-80 | with no selection and exactly one listed device, the run announces that device and then installs the only target with the loaded `adbPath`, or refuses several targets |
| `StartProperties.DeviceFlagThenInstalls` | src/index.js:43-80 | `-d` with targets: after the connect the named device counts as selected, so the run ends by installing the only target with the `adbPath` the `-d` step reloaded, or by refusing several, without prompting |
| `StartProperties.DeviceFlagConnectsEmpty` | src/index.js:43-46 | `-d` connects, every connect is given the empty text, and the device is stored in the file |
| `StartProperties.FirstRunUsesStaleTool` | src/index.js:88-99 | on a first run without `-d` the downloaded path is stored, yet every bridge command uses `adbPath: false` |
| `StartProperties.FirstRunDeviceFlagUsesNewPath` | src/index.js:43-80 | on a first run with `-d` and one target the connect uses `adbPath: false` with the empty device text, and the install uses the downloaded `<dir>/adb.exe` |

## Left out

- Process spawning (`exec` and the promise wrappers `executeUntilProcesExits*`) is not modelled. Each bridge command's captured stdout chunks, or its failure, are inputs (`Environment.listing`, `Environment.connecting`).
- One `devices` reply serves every listing of a run. Two listings in one run (the ambiguous-device path) therefore see the same devices.
- The downloader (`android-platform-tools`) is not modelled. The directory it returns, or its failure, is an input. `path.join` is modelled as appending `/adb.exe`, without normalisation.
- File I/O and JSON are abstract. `fs.existsSync` of the cached binary is an input. The settings file is absent, an object of scalars, or malformed. `currentPath` and the file's location are not modelled.
- The install's own outcome is not modelled. `adbInstallApp` errors are caught and logged, and the model records only the install command.
- The interactive loop of `selectFrom` is not modelled: `readline.question` is not a function, so the call throws. Only its index rule (`DeviceSelect.SelectFrom`) is modelled. The string-to-number coercion of the answer is not modelled; the answer is taken as an integer.
- Console text other than the messages that decide the flow is not modelled, nor ANSI colours, `holdon` (raw stdin and `process.exit`) or yargs parsing. A colour is an abstract highlight, `holdon` is one `HoldOn` action, and the command line is an `Invocation`.
- `-debug`, `--list` spelled out, and numeric or boolean `-d` values are not modelled. `-d` is a string, and the empty string stands for absent.
- The `updateConfing` of the `-d` branch is not awaited. The model completes it before the run goes on, so microtask interleaving with the next bridge command is not modelled.
- Concurrency and the async/await machinery are not modelled beyond the order of actions.
- KeepLong: a string's length is its number of characters, where JavaScript counts UTF-16 code units, so a line holding one character outside the Basic Multilingual Plane is dropped by the model but kept by the source; the bridge's `devices` output is ASCII.
- JSON numbers are modelled as integers (`JNum(n: int)`); fractional and non-finite numbers are not, which only matters for the truthiness of a stored `device` or `adbPath`.
