# pacmdvolume core in Dafny

pacmdvolume is a command-line tool that lists PulseAudio sinks (output
devices) and sources (input devices) and changes sink volumes. This project
models its core and proves properties of the model:

- **Device records and registry** (`pa_device.dfy`, `pa_registry.dfy`):
  - `PADeviceInfo` built from a sink or source info record, and its `State()` name.
  - The `map<uint32_t, PADeviceInfo*>` registries and the exact lookups `Sink`/`Source`.
  - The case-insensitive first-match search `getSink`/`getSource`.
  - The list callbacks that fill the maps.
- **Connection and listing loop** (`pa_connection.dfy`): `PAManager::InitDevices` as pure transitions.
  - `pa_state_cb` sets the readiness flag.
  - A `state` counter submits the sink-list request, then the source-list request, then finishes.
  - PulseAudio's main loop is the environment. It is a finite trace of iterations; each iteration runs some callbacks and reports the pending operation's state.
- **The manager object** (`pa_manager.dfy`): `class Manager` holds the two maps, the two handles, the readiness flag and the loop's counter and pending operation.
  - The callbacks, `InitDevices`, `Init` and `DeInit` update these fields in place.
  - Each of those methods is proved equal to a pure specification function.
- **Command-line decisions** (`cli.dfy`):
  - `sscanf("%i")` as used for `--card` and `--channels`.
  - `CMain::parseIntList`.
  - `CMain::processArgs` after `Init`: selector resolution with the `(uint32_t)-1` / `-2` sentinels, what is listed, and which sinks get a volume change. Printing and `setSinkVolume` are abstract `Action`s.
- **Version text** (`version.dfy`): `VERSION` and `VERSION::toStr`.
- **Helpers**:
  - `wrappers.dfy`: `Option`, `Result`, and the error codes thrown (`EALREADY_INITIALIZED`, `EASSERT`, `EDEVICE`, `EGENERAL`, `EINVALID_PARAMETER`).
  - `decimal.dfy`: decimal text of integers.
  - `strings.dfy`: ASCII lowercasing, substring search and character search.

Device indices are integers in [0, 2^32), the `newtype u32`. The source
only stores, compares and orders them, so integer order is all the model
needs for ascending map iteration and the least matching key. Where the
source converts an `int` to `uint32_t`, the conversion is written out
(`Cli.ToU32`, modulo 2^32).

## Model

| member | source | states |
|---|---|---|
| PaDevice.OrEmpty | pa_manager.cpp:20-25 | a NULL C string becomes "", any other string is kept as it is |
| PaDevice.FromSinkInfo | pa_manager.cpp:19-30 | a record built from a sink is of kind sink, keeps index, volume and sink state, takes `monitor_index` from the monitor source, and turns a NULL name into "" |
| PaDevice.FromSourceInfo | pa_manager.cpp:32-43 | a record built from a source is of kind source, keeps index, volume and source state, takes `monitor_index` from the monitored sink, and turns a NULL name into "" |
| PaDevice.StateName | pa_manager.cpp:58-80 | each of running/idle/suspended/init/unlinked is returned exactly when the state field of the device's own kind has that value; "unknown" exactly for every other value |
| PaDevice.StateNameIgnoresOtherKind | pa_manager.cpp:59-77 | a sink's name does not depend on its source state, nor a source's on its sink state |
| PaRegistry.Lookup | pa_manager.cpp:280-290 | the stored entry exactly when the index is a key, NULL (None) otherwise |
| PaRegistry.SortedKeys | pa_manager.h:98-100 | the map's iteration order: every key exactly once, strictly ascending |
| Strings.Contains | pa_manager.cpp:295 | `find` succeeds exactly when the needle occurs at some position: the empty needle always does, a prefix always does, and a needle longer than the text never does |
| PaRegistry.FindFirst | pa_manager.cpp:293-305 | a found index is a key whose lowercased name contains the lowercased query; it is the least such key; `(uint32_t)-1` when no name matches |
| PaRegistry.FindFirstIgnoresCase | pa_manager.cpp:295 | two queries with the same lowercase form find the same device ("USB" and "usb") |
| PaRegistry.ListCallbackAsWritten | pa_manager.cpp:116-140 | the callback as written: `eol > 0` leaves the map alone; otherwise a NULL record is dereferenced (None) |
| PaRegistry.ListCallback | pa_manager.cpp:116-140 | end of list or no record leaves the map unchanged; otherwise the record is stored at its index and every other key keeps its entry |
| PaRegistry.ListCallbackAgrees | pa_manager.cpp:121-125 | on every call outside PulseAudio's error report (eol ≥ 0, with a record whenever eol = 0) the callback as written computes exactly the corrected callback's map |
| PaRegistry.ListCallbackErrorReport | pa_manager.cpp:121-125 | the error report (eol = -1, no record) is dereferenced as written and ignored by the corrected callback |
| PaConnection.StateCallback | pa_manager.cpp:89-111 | FAILED and TERMINATED set the flag to 2, READY sets it to 1, every other context state leaves it unchanged |
| PaConnection.Start | pa_manager.cpp:207-211 | the loop starts at state 0, flag 0, no pending operation, over the manager's current maps |
| PaConnection.Dispatch | pa_manager.cpp:224 | a callback run by the main loop never changes the loop's counter or pending operation |
| PaConnection.DispatchAll | pa_manager.cpp:224 | the same for all callbacks of one iteration |
| PaConnection.Step | pa_manager.cpp:222-276 | a failed context throws EDEVICE and submits nothing; while waiting nothing is submitted; the sink list only leaves state 0; the source list only leaves state 1 after DONE; finishing needs state 2 and DONE; the counter never decreases and grows by at most 1; the invariant (state ≤ 2, matching pending operation) is kept; under it EGENERAL is never thrown |
| PaConnection.Run | pa_manager.cpp:222-276 | a run over a finite trace only ever throws EDEVICE or EGENERAL |
| PaConnection.RunFollowsPipeline | pa_manager.cpp:231-263 | the requests submitted are exactly [sinks, sources] between the start and the end state: in order, each once, and the counter never decreases |
| PaConnection.RunNeverUnexpected | pa_manager.cpp:271-273 | from a state satisfying the invariant the "unexpected state" throw is unreachable |
| PaConnection.FinishedAtLastStage | pa_manager.cpp:264-270 | a finished run ends in state 2 |
| PaConnection.RunFinishesAfterBothLists | pa_manager.cpp:222-270 | InitDevices only returns normally after submitting the sink list and then the source list |
| PaConnection.RunStallsWithoutDone | pa_manager.cpp:246-270 | while no operation reports DONE the loop never finishes and never requests the source list |
| PaConnection.RunFailsOnFailedContext | pa_manager.cpp:224-228 | once the flag is 2 after a main-loop iteration, the loop throws EDEVICE at once and submits nothing |
| PaManager.DeInitSpec | pa_manager.cpp:177-202 | after DeInit there is no context and no main loop and both maps are empty; the loop's fields are untouched |
| PaManager.InitSpec | pa_manager.cpp:158-175 | an existing context throws EALREADY_INITIALIZED and changes nothing; a failed main loop throws EASSERT; a failed context throws EDEVICE with the main loop kept; a normal return has both handles and both list requests submitted |
| PaManager.DeInitThenInit | pa_manager.cpp:158-202 | a second DeInit changes nothing, and Init after DeInit is never refused as already initialised |
| PaManager.InitAfterDeInitStartsEmpty | pa_manager.cpp:158-202 | Init after DeInit lists devices into empty maps |
| PaManager.Manager.constructor | pa_manager.cpp:149-151 | a new manager has no context, no main loop and no devices |
| PaManager.Manager.OnContextState | pa_manager.cpp:89-111 | the flag becomes `StateCallback` of its old value |
| PaManager.Manager.OnSinkListed | pa_manager.cpp:116-127 | the sink map becomes `ListCallback` of the old map; nothing else changes |
| PaManager.Manager.OnSourceListed | pa_manager.cpp:130-140 | the source map becomes `ListCallback` of the old map; nothing else changes |
| PaManager.Manager.Iterate | pa_manager.cpp:222-276 | one loop pass updates the fields to `Step` of the old fields and returns its request and outcome; the handles are unchanged |
| PaManager.Manager.InitDevices | pa_manager.cpp:205-277 | the fields end as `Run` from the start state over the trace, with its requests and outcome |
| PaManager.Manager.Init | pa_manager.cpp:158-175 | the new state, requests and outcome are those of `InitSpec` |
| PaManager.Manager.DeInit | pa_manager.cpp:177-202 | the new state is `DeInitSpec` of the old one |
| PaManager.Manager.Sink | pa_manager.cpp:280-284 | the stored sink exactly when the index is a key |
| PaManager.Manager.Source | pa_manager.cpp:286-290 | the stored source exactly when the index is a key |
| PaManager.Manager.GetSink | pa_manager.cpp:293-298 | the least sink index whose name contains the query (ignoring case), or `(uint32_t)-1` |
| PaManager.Manager.GetSource | pa_manager.cpp:300-305 | the least source index whose name contains the query (ignoring case), or `(uint32_t)-1` |
| Cli.ScanInt | main_class.cpp:157 | a number is read exactly when a digit follows the leading white space and an optional sign |
| Cli.ScanIntReads | main_class.cpp:157 | white space, an optional `+` or `-` and the digits of n, followed by a non-digit or nothing, are read as n, or as -n after `-` |
| Cli.ScanIntStopsAtComma | main_class.cpp:256 | the number read from a segment does not depend on the text after the comma |
| Cli.ScanIntRoundTrip | main_class.cpp:256 | the decimal text of n, followed by a non-digit, is read back as n |
| Cli.ParseStep | main_class.cpp:255-257 | one pass keeps "values so far + values still to parse" fixed, and the rest again ends in a comma |
| Cli.ParseIntList | main_class.cpp:252-259 | v keeps its elements and gets the parsed values of `str + ","` appended; the loop ends because `s` shrinks each pass |
| Cli.ParsedListSegment | main_class.cpp:253-258 | the list is built segment by segment in input order: each segment adds its number, or nothing when it has none |
| Cli.ParseJoinRoundTrip | main_class.cpp:252-259 | parsing the comma-joined text of a list of numbers gives the list back |
| Cli.ToU32 | main_class.cpp:159 | storing an int in a `uint32_t` keeps non-negative values and adds 2^32 to negative ones |
| Cli.SelectByIndex | main_class.cpp:158-169 | the index when a device has it, otherwise `-2` |
| Cli.SelectByName | main_class.cpp:173-181 | the least matching index, or `-2` when no name matches; never `-1` |
| Cli.ResolveSelectors | main_class.cpp:151-182 | an unreadable `--card` throws EINVALID_PARAMETER; `--card` wins over `--card-name`; sinks and sources are resolved independently; each selector is `-1`, `-2` or a key of its map; no option leaves both at `-1` |
| Cli.ResolveIgnoresNameCase | main_class.cpp:173-181 | `--card-name` values with the same lowercase form select the same devices |
| Cli.ListFlags | main_class.cpp:186-198 | `--list` turns on both kinds; otherwise each option turns on only its own kind |
| Cli.PrintAllElements | main_class.cpp:205-207 | the listing of all devices prints each device's block at its position in index order |
| Cli.ListKind | main_class.cpp:201-224 | `-2` throws EINVALID_PARAMETER; `-1` prints every device in index order; a found index prints exactly that device |
| Cli.Section | main_class.cpp:200-224 | a kind that is not listed prints nothing; a listed one prints its heading when both kinds are listed, then exactly `ListKind` of its selector (every device in index order, or the selected one); with selector `-2` it prints only the heading and throws EINVALID_PARAMETER, and it throws exactly then |
| Cli.ListingSpec | main_class.cpp:200-224 | the listing throws EINVALID_PARAMETER exactly when a listed kind's selector is `-2`; nothing is printed when nothing is listed |
| Cli.ListEverything | main_class.cpp:189-224 | `--list` without a selector prints "sinks:", every sink in index order, "sources:", every source in index order, throws nothing, and without `--set-volume` prints nothing else |
| Cli.VolumeActions | main_class.cpp:242-246 | one volume change per target, in order, with the same volume text and channels |
| Cli.VolumeTargets | main_class.cpp:239-247 | `-2` throws EINVALID_PARAMETER; `-1` targets every sink once in ascending order; a found index targets exactly that sink |
| Cli.Channels | main_class.cpp:227-230 | without `--channels` the channel list is empty |
| Cli.ChannelsOfList | main_class.cpp:227-230 | `--channels` holding the comma-joined text of a list of numbers passes exactly that list |
| Cli.VolumeStage | main_class.cpp:236-248 | what was printed stays a prefix of the output; without `--set-volume` or after a throw nothing is added; with `--set-volume`, selector `-2` throws EINVALID_PARAMETER and adds nothing, `-1` adds one change per sink in ascending index order, a found index adds exactly one change of that sink; no error from selection otherwise |
| Cli.SetVolumeWithoutSelector | main_class.cpp:236-244 | with no selector and no listing, `--set-volume` prints nothing and changes the sinks in ascending index order |
| Cli.SetVolumeOnSelectedSink | main_class.cpp:151-247 | `--card` naming an existing sink, with `--set-volume` alone, changes exactly that sink, with the parsed channels, and prints nothing |
| Cli.EverySinkOnce | main_class.cpp:241-244 | that change touches every sink exactly once and nothing but sinks |
| Cli.ListingUnknownDeviceThrows | main_class.cpp:201-216 | a listed kind whose selector is `-2` makes processArgs throw EINVALID_PARAMETER before any volume change |
| Cli.PrintDevices | main_class.cpp:205-207 | the loop over the map prints every device in index order |
| Cli.GetCard | main_class.cpp:151-182 | the selectors computed step by step equal `ResolveSelectors` |
| Cli.ListSection | main_class.cpp:200-224 | one kind's listing, as written, equals `Section` |
| Cli.ListArgs | main_class.cpp:185-224 | the listing step equals `ListingSpec` |
| Cli.ChangeVolume | main_class.cpp:236-247 | the volume changes issued, or the throw, match `VolumeTargets` |
| Cli.VolumeStep | main_class.cpp:227-248 | channel parsing plus the volume change equals `VolumeStage` |
| Cli.ProcessSpec | main_class.cpp:150-248 | every throw is EINVALID_PARAMETER, and one happens exactly when `--card` is unreadable, a listed kind's selector is `-2`, or `--set-volume` is given with sink selector `-2` |
| Cli.ProcessArgs | main_class.cpp:150-248 | the actions and error of processArgs after Init equal the staged specification: selectors, listing, volume stage |
| Decimal.IntToString | version.h:51-52 | the `ostream` text of an int: never empty; all digits for n ≥ 0; a '-' and then digits for n < 0 |
| Version.ToStr | version.h:47-54 | an unset version renders as ""; a set one starts with "v" |
| Version.ToStrRoundTrip | version.h:48-53 | every version with non-negative fields is read back from its text by a parser of the documented format |
| Version.ToStrInjective | version.h:48-53 | distinct versions with non-negative fields render to distinct texts |
| Version.PatchSuffixExactlyWhenNonZero | version.h:52 | for non-negative fields a "-p" suffix is present exactly when the patch number is not 0 |
| Version.CurrentVersionText | version.h:29-31 | version 1.21.0 renders as "v1.21" |

## Left out

- The PulseAudio library is not modelled: main loop, context, connection, list operations, reference counting.
  - The main loop is an environment trace. Each `Iteration` holds the callbacks it runs and the pending operation's state.
  - `Init`'s library calls are two booleans: whether the main loop (`pa_mainloop_new`, `pa_mainloop_get_api`) was created, and whether `pa_context_new` succeeded.
  - A list submission that returns a NULL operation is not modelled.
- `PaManager.Manager.InitDevices`: the real loop has no timeout, so the model runs a finite trace. The `Continue` outcome means the real program would still be waiting.
- `InitDevices` keeps `state` and `pa_op` in locals. Here they are the manager fields `stage` and `pending`.
- `m_pa_ready` is not initialised by the constructor. The model starts it at 0; `InitDevices` resets it to 0 before use either way.
- `PADeviceInfo::Info()` is left out. It is text output with float percentages. Listing emits an abstract `PrintDevice` action instead.
- The `sample_spec`, `channel_map`, latency and flags fields are left out; no modelled logic reads them.
- `PaDevice.FromSinkInfo` leaves `state_source` uninitialised in the source, and `FromSourceInfo` leaves `state_sink`. The model sets the unused field to -1; `State()` never reads it (`StateNameIgnoresOtherKind`).
- `MAX_VOLUME` is the constant `PA_VOLUME_NORM` (0x10000). Its 0 dB meaning belongs to PulseAudio's float volume curve and is not modelled.
- Not modelled because they are only declared, with no bodies here:
  - the volume-expression engine (`applyVolume`, `setSinkVolume`, `setSinkInputVolume`);
  - the client and sink-input registries (`Client`, `SinkInput`, `getSinkInputFromClient`, `InitPAInfo`).
  `setSinkVolume` appears only as the `SetSinkVolume` action.
- The command-line parser library is not part of this model: `CCommandLineParser`, `parseCommandLine`, help, version printing, `wrongUsage` and `exec`. `Cli.Params` stands for the options it would report.
- The `--verbose` switch and all logging are left out.
- `getAppVersion` is not part of this model. `Version.CurrentVersionText` states the text of the version built from the three constants.
- `new`/`delete` are left out. The maps hold device values, not pointers, so freeing them in `DeInit` is just clearing the maps.
- `Cli.ScanInt`: `%i` also accepts hexadecimal (`0x`) and octal (leading `0`) numbers. The model reads decimal only, so "010" reads as 10, not 8.
- `Cli.ScanInt`: values outside the 32-bit `int` range are undefined behaviour in C. The model reads them as unbounded integers.
- `Strings.ToLower`: `toLower` is defined in `global.h`, which is not part of this model. It is taken to lowercase ASCII letters only.
- `PaManager.Manager.OnSinkListed`: runs the corrected callback `ListCallback`, not the code as written (see Findings). As written, a call with `eol < 0` and a NULL record dereferences NULL, and a call with `eol < 0` and a record stores it. The contracts of `Iterate`, `InitDevices` and `Init` therefore describe the corrected program.
- `PaManager.Manager.OnSourceListed`: the same, for the source list callback.
- `Cli.VolumeStage`: `setSinkVolume` and the volume-expression engine behind it are not part of this model. The stage assumes a volume change never throws, so a malformed `--set-volume` value (for example `abc`) is not reported as an error here. Its "no error" covers only the selector checks that `processArgs` itself makes.
- `Cli.SetVolumeOnSelectedSink`: does not cover a sink whose index is `0xFFFFFFFF` or `0xFFFFFFFE`. Those indices coincide with the two sentinels, and `processArgs` would read them as "no selector" or "not found". `ProcessSpec` models that behaviour as written. PulseAudio reserves `0xFFFFFFFF` as its invalid index.
- `PaManager.InitSpec`: a failed `Init` keeps whatever `InitDevices` already put into the maps, as the code does; nothing clears them on a throw.

## Findings

| source | as written | input that shows it | evidently intended | confidence | as-written member | corrected member |
|---|---|---|---|---|---|---|
| pa_manager.cpp:121-125 (and 134-139) | the list callbacks return early only when `eol > 0`, then dereference the info pointer | PulseAudio reports a failed list request with `eol = -1` and a NULL info pointer: the callback dereferences NULL | ignore any call with `eol != 0` or without a record | medium, not executed | PaRegistry.ListCallbackAsWritten (`ListCallbackErrorReport`) | PaRegistry.ListCallback (`ListCallbackAgrees`), used by `Manager.OnSinkListed`/`OnSourceListed` |
