# Raspberry Pi fleet scripts, modelled in Dafny

The repository manages a fleet of Raspberry Pi devices listed in `data/devices.yaml`. Each device
has an `id`, an optional `host`, an optional `programs` list and an optional `env` mapping. A
shared `data/list-of-programs` file gives the programs of devices that have no list of their own.
Four scripts work on the fleet:

- `run-python-script.py` copies `data/script.py` to every device over scp and runs it over ssh,
  using a pool of workers. It then fetches the manifest the script leaves behind
  (`/tmp/script_outputs.json`) and every artifact the manifest names into `data/images`. Finally
  it prints a summary with one block per device that had something to say.
- `copy-programs.py` creates `/home/pi/wcl` on every device and rsyncs each program there.
- `enable-programs.py` runs each program's `setup` script on every device, one task per device
  that has an address and programs, on a thread pool of Python's default size.
- `write-env-file.py` reads the keys declared in each program's `env/.env.example` and writes
  the device's values for them into `/home/pi/wcl/<program>/env/.env`.

`utils/devices_config.py` loads and saves the device list, finds and upserts devices, merges
`env` updates and reads the shared program list.

The model works on decoded data: a `Value` datatype for what `yaml.safe_load` and `json.loads`
return, with Python's truthiness, `str()`, iteration and ordered dicts. How the outside world
answers is a parameter:

- in `run-python-script.py`, an oracle gives the reply to each subprocess command, given the
  commands the device issued before it;
- in the other scripts, a plan records the commands handed to `os.system`, in order, and whether
  an uncaught exception ended the script.

Each loop of the source that drives the scripts is a method proved equal to a specification
function. The loops that only compute a value (the search of `get_device` and the final
printing) are recursive functions. The properties
the scripts promise are lemmas about those functions.

Modules, one per file:

| file | module | models |
|---|---|---|
| `text.dfy` | `PyText` | `strip`, `lower`, `in`, `join`, `splitlines`, `basename`, `str(int)` |
| `values.dfy` | `PyValues` | decoded values, dict `get`/`[]=`/`update`, truthiness, `or`, `str()`, iteration |
| `selection.dfy` | `Selection` | `device.get("host") or device.get("id")`, `device.get("programs", shared)` |
| `roster.dfy` | `DevicesConfig` | `utils/devices_config.py` |
| `notable.dfy` | `Notable` | `collect_notable` |
| `executor.dfy` | `RemoteExecutor` | `process_device` |
| `orchestrator.dfy` | `ScriptRunner` | `main` of `run-python-script.py` |
| `plans.dfy` | `Plans` | command plans of the `os.system` scripts, and their `for` loops |
| `copy.dfy` | `ProgramCopier` | `copy-programs.py` |
| `enable.dfy` | `ProgramEnabler` | `enable-programs.py` |
| `write_env.dfy` | `EnvWriter` | `write-env-file.py` |

Three details of the code are easy to misread:

- A failed manifest fetch reports `failed to retrieve /tmp/script_outputs.json from <host>`.
- A device's block is printed only when its message is neither empty nor `done`, whether or not
  the device failed.
- The notable lines logged before an early return are dropped along with the rest of the logs.

## Model

| member | source | states |
|---|---|---|
| PyText.StripStart | src/run-python-script.py:29 | the first kept character is the first one that is not white space in Python's `isspace` sense |
| PyText.StripEnd | src/run-python-script.py:29 | everything after the last kept character is white space, and the last kept character is not |
| PyText.Strip | src/run-python-script.py:29 | the stripped text is no longer than the input and neither starts nor ends with white space |
| PyText.StripIdempotent | src/write-env-file.py:10-12 | stripping twice is stripping once |
| PyText.StripEmpty | src/write-env-file.py:43 | `strip()` gives the empty text exactly when the text is all white space |
| PyText.Lower | src/run-python-script.py:27 | lower-casing keeps the length and maps every character through ASCII lower-casing |
| PyText.Contains | src/run-python-script.py:28 | `k in s` holds exactly when `k` occurs at some position of `s` |
| PyText.IndexOf | src/write-env-file.py:12 | the first position of the separator, or the length when it is absent; no earlier position holds it |
| PyText.JoinContains | src/write-env-file.py:58-60 | every part appears as a substring of the newline-joined text |
| PyText.LineEnd | src/run-python-script.py:26 | the first line runs up to, and not including, the first line-break character |
| PyText.SplitTerminated | src/run-python-script.py:26 | `splitlines()` gives back the lines of a text written one line per `\n` |
| PyText.StripSpan | src/write-env-file.py:10-12 | `strip()` keeps exactly the span from the first to the last character that is not white space |
| PyText.StripAfterSpaces | src/write-env-file.py:10-12 | leading white space makes no difference to `strip()` |
| PyText.Basename | src/run-python-script.py:95 | the base name is the longest suffix of the path holding no `/`: it is the whole path or follows a `/` |
| PyText.Digits | src/run-python-script.py:92 | `str(n)` of a non-negative integer is a run of decimal digits without a superfluous leading zero that spells `n` |
| PyText.Decimal | src/run-python-script.py:92 | `str(n)` starts with `-` exactly when `n` is negative, and the digits after the sign spell the magnitude of `n` |
| PyValues.Get | src/utils/devices_config.py:54 | `d.get(k)` finds a value exactly when some entry has key `k` |
| PyValues.Set | src/utils/devices_config.py:74 | `d[k] = v` keeps the size when `k` is present and adds one entry otherwise |
| PyValues.GetSet | src/utils/devices_config.py:74 | after `d[k] = v`, `k` holds `v` and every other key what it held before |
| PyValues.SetDistinct | src/utils/devices_config.py:79 | assignment keeps the keys of a dict distinct |
| PyValues.GetUpdate | src/utils/devices_config.py:88 | after `d.update(u)`, the keys of `u` hold their values from `u` and every other key is unchanged |
| PyValues.UpdateDistinct | src/utils/devices_config.py:77 | `update` keeps the keys distinct |
| PyValues.Or | src/run-python-script.py:37 | `a or b` is truthy exactly when either is, and it is `a` whenever `a` is truthy |
| PyValues.Iterate | src/copy-programs.py:31 | only lists, strings and dicts can be looped over, and a list yields its items |
| PyValues.StrList | src/utils/devices_config.py:95 | a list of strings holds the given strings, in order |
| Selection.Target | src/copy-programs.py:18 | the address is truthy exactly when `host` or `id` is; it is `host` when that is truthy and `id` otherwise |
| Selection.Programs | src/copy-programs.py:23 | a present `programs` key wins even when its value is empty or None; otherwise the shared list is used |
| DevicesConfig.LoadDevices | src/utils/devices_config.py:22-30 | only a present mapping whose `devices` entry is a list yields devices; anything else yields none |
| DevicesConfig.LoadSaved | src/utils/devices_config.py:39 | loading the payload `save_devices` writes gives back the same devices |
| DevicesConfig.Universal | src/utils/devices_config.py:104 | text-mode reading leaves no `\r`, and text without `\r` is read unchanged |
| DevicesConfig.KeepNonBlank | src/utils/devices_config.py:105 | every kept line is non-empty and already stripped |
| DevicesConfig.LoadProgramsList | src/utils/devices_config.py:102-105 | a missing file gives no programs; every listed program is non-empty and stripped |
| DevicesConfig.ProgramsListRoundTrip | src/utils/devices_config.py:98-105 | a list file written one plain name per line reads back as exactly those names, in order |
| DevicesConfig.LinesOfTerminated | src/utils/devices_config.py:105 | reading and filtering the lines of such a file gives back the names |
| DevicesConfig.TerminatedNoCR | src/utils/devices_config.py:104 | names without `\r` make a file without `\r` |
| DevicesConfig.ReadLinesCons | src/utils/devices_config.py:105 | `readlines()` cuts after each `\n` |
| DevicesConfig.StripNewline | src/utils/devices_config.py:105 | a line's `\n` is stripped along with the rest of its white space |
| DevicesConfig.BlankLinesIgnored | src/utils/devices_config.py:105 | blank lines anywhere in the file are ignored |
| DevicesConfig.GetDevice | src/utils/devices_config.py:49-56 | the result is the first device whose `id` equals the given one; None means that no device has it |
| DevicesConfig.FirstMatch | src/utils/devices_config.py:53-55 | a device with the id whose predecessors all lack it is the one found |
| DevicesConfig.MergeEnvEffect | src/utils/devices_config.py:83-88 | after the merge `env` is a mapping; updated keys hold their new values, other `env` keys their old ones; keys outside `env` are untouched |
| DevicesConfig.MergeEnvOther | src/utils/devices_config.py:87 | the merge touches no key of the entry other than `env` |
| DevicesConfig.MergeNothing | src/utils/devices_config.py:87 | merging no updates still creates an empty `env` when there is none, and otherwise changes nothing |
| DevicesConfig.SetExisting | src/utils/devices_config.py:74 | storing a key's own value back changes nothing |
| DevicesConfig.SetMissing | src/utils/devices_config.py:74 | storing a missing key appends it |
| DevicesConfig.SetProgramsEffect | src/utils/devices_config.py:91-95 | `programs` is replaced and no other key is touched |
| DevicesConfig.DeviceRecord.constructor | src/utils/devices_config.py:70 | a record holds the given entry |
| DevicesConfig.DeviceRecord.UpdateEnv | src/utils/devices_config.py:83-88 | raises exactly when the existing `env` is not a mapping and then leaves the entry as it was; otherwise the entry becomes the merge |
| DevicesConfig.DeviceRecord.Apply | src/utils/devices_config.py:73-79 | the entry becomes the host, env and programs edit, and it raises exactly when that edit's env merge raises |
| DevicesConfig.DeviceRecord.SetPrograms | src/utils/devices_config.py:91-95 | the entry's `programs` becomes the given list |
| DevicesConfig.EditHost | src/utils/devices_config.py:73-74 | the host is set only when given non-empty, and then to the given text |
| DevicesConfig.EditPrograms | src/utils/devices_config.py:78-79 | programs are replaced whenever given, even by an empty list, unless the env merge raised first |
| DevicesConfig.EditWithoutEnv | src/utils/devices_config.py:75 | no env, or an empty one, leaves `env` alone and cannot raise |
| DevicesConfig.EditKeeps | src/utils/devices_config.py:73-79 | a key the edit does not name keeps its value |
| DevicesConfig.WithHostEffect | src/utils/devices_config.py:73-74 | setting the host changes `host` and nothing else |
| DevicesConfig.WithProgramsEffect | src/utils/devices_config.py:78-79 | setting the programs changes `programs` and nothing else |
| DevicesConfig.Located | src/utils/devices_config.py:68-71 | an existing device leaves the list as it is; otherwise a new `{"id": id}` is appended |
| DevicesConfig.Position | src/utils/devices_config.py:68-71 | the device worked on is in the list |
| DevicesConfig.Upserted | src/utils/devices_config.py:59-80 | the returned device is in the resulting list |
| DevicesConfig.UpsertPlacement | src/utils/devices_config.py:68-71 | a device is appended, as the last one, only when no device has the id; an existing device keeps its place; every other device is unchanged |
| DevicesConfig.UpsertEdits | src/utils/devices_config.py:73-80 | the returned device is the located one after the host, env and programs edits |
| DevicesConfig.UpsertThenFind | src/utils/devices_config.py:67 | after an upsert, the same id finds the device it returned |
| DevicesConfig.Roster.constructor | src/utils/devices_config.py:17-30 | a roster holds the given device records, shared or not |
| DevicesConfig.Roster.Snapshot | src/utils/devices_config.py:17-30 | the snapshot lists each entry's current contents, in list order |
| DevicesConfig.Roster.Upsert | src/utils/devices_config.py:59-80 | the returned record is the located device and holds its upserted contents; every position holding that record shows the edit and every other position keeps its contents; with no shared records the roster's contents become exactly the upsert of the old contents; earlier records stay in place; a device created by the upsert is a new record |
| Notable.CollectNotable | src/run-python-script.py:21-30 | the collected lines are the stripped notable lines of every output, outputs in argument order |
| Notable.NotablesConcat | src/run-python-script.py:25-29 | the notable lines of two stretches of text are those of the first, then those of the second |
| Notable.AllLinesConcat | src/run-python-script.py:25-26 | outputs contribute their lines in argument order |
| Notable.EmptyOutputContributesNothing | src/run-python-script.py:26 | an empty output, which is what a missing stream becomes, contributes nothing |
| Notable.NotablesOne | src/run-python-script.py:27-29 | a single line is kept, stripped, exactly when it is notable |
| Notable.NotablesMembers | src/run-python-script.py:25-29 | a line is collected exactly when it is the stripped form of a notable input line |
| Notable.StrippedNotable | src/run-python-script.py:29 | a notable line stays notable once stripped, so a collected line is never empty and never `done` |
| Notable.OccursInStrip | src/run-python-script.py:28-29 | stripping never cuts into a marker |
| Notable.MarkerInside | src/run-python-script.py:28-29 | a marker lies between the first and the last character `strip()` keeps |
| Notable.ContainsInStrip | src/run-python-script.py:28-29 | a line that contains a marker still contains it once stripped |
| Notable.SliceOccurs | src/run-python-script.py:28 | a slice covering an occurrence keeps it |
| Notable.LetterNotSpace | src/run-python-script.py:23 | the markers' letters are not white space |
| Notable.DoneNotNotable | src/run-python-script.py:23 | the word `done` is not notable |
| Notable.OneLine | src/run-python-script.py:26 | a non-empty text without line breaks is one line |
| Notable.Example | src/run-python-script.py:21-30 | of `INFO ok`, `ERROR disk full` and `warn: low memory`, the last two are collected |
| Notable.ThreeLines | src/run-python-script.py:21-30 | three single-line outputs, only the last two notable, give exactly those two |
| Notable.KeepLastTwo | src/run-python-script.py:27-29 | the line filter on such lines keeps the last two |
| Notable.ExampleSplit | src/run-python-script.py:26 | three single-line outputs split into those three lines |
| Notable.PrintableNoBreaks | src/run-python-script.py:26 | printable ASCII text holds no line break |
| Notable.MissingLetter | src/run-python-script.py:28 | a text lacking one letter of a word does not contain the word |
| Notable.LeadingWord | src/run-python-script.py:28 | a text that starts with a word, ignoring case, contains it once lowered |
| Notable.NoEdgeSpace | src/run-python-script.py:29 | a text that neither starts nor ends with white space is its own strip |
| Notable.InfoNotNotable | src/run-python-script.py:23 | `INFO ok` is not notable |
| Notable.ErrorNotable | src/run-python-script.py:23 | `ERROR disk full` is notable and already stripped |
| Notable.WarnNotable | src/run-python-script.py:23 | `warn: low memory` is notable and already stripped |
| RemoteExecutor.ManifestPaths | src/run-python-script.py:77-85 | an undecodable manifest or a non-mapping is invalid with Python's message; a falsy `files` means no paths; a string is one path; a list is its items; anything else is invalid with `files is not a list or string` |
| RemoteExecutor.Fetch | src/run-python-script.py:97-103 | one fetch issues exactly the artifact's scp, and the success flag survives exactly when it was set and the fetch returned 0 |
| RemoteExecutor.Texts | src/run-python-script.py:92 | each path is rendered with `str()`, in order |
| RemoteExecutor.FetchCmds | src/run-python-script.py:97-99 | one fetch command per path |
| RemoteExecutor.ProcessDevice | src/run-python-script.py:33-107 | the returned message, success flag and issued commands are those of the `process_device` specification for that device and remote side |
| RemoteExecutor.RunWorkflow | src/run-python-script.py:44-107 | past the address check, the run follows the copy / run / manifest / artifact workflow |
| RemoteExecutor.RunStage | src/run-python-script.py:52-57 | the remote run stage, once the copy succeeded |
| RemoteExecutor.ManifestStage | src/run-python-script.py:59-107 | the manifest fetch, its validation and the artifact loop, once the run succeeded |
| RemoteExecutor.Diagnose | src/run-python-script.py:48 | the logged lines of one reply are `collect_notable(out, err)` |
| RemoteExecutor.FetchArtifacts | src/run-python-script.py:90-103 | the artifact loop is the specification's fetch of every `str(path)`, in order |
| RemoteExecutor.FetchAllStep | src/run-python-script.py:91-103 | one turn of the artifact loop visits one path |
| RemoteExecutor.SkipsExactlyAddresslessDevices | src/run-python-script.py:36-39 | a device issues no command exactly when it has neither host nor id, and then it is reported skipped and failed |
| RemoteExecutor.WorkflowStartsWithCopy | src/run-python-script.py:44-47 | every workflow issues the script copy first |
| RemoteExecutor.CopyFailureStops | src/run-python-script.py:49-50 | a failed copy ends the run after one command, with a fixed message and failure |
| RemoteExecutor.RunFailureStops | src/run-python-script.py:56-57 | a failed remote run ends it after two commands, with a fixed message and failure |
| RemoteExecutor.ManifestFailureStops | src/run-python-script.py:71-75 | a failed manifest fetch, or one that leaves no local file, ends the run after three commands |
| RemoteExecutor.InvalidManifestStops | src/run-python-script.py:84-85 | an invalid manifest ends the run after three commands, naming the validation error |
| RemoteExecutor.FetchKeepsIssued | src/run-python-script.py:91-99 | the artifact loop keeps the earlier commands and fetches every non-empty path in list order, whatever the earlier fetches returned |
| RemoteExecutor.FetchSuccess | src/run-python-script.py:90-103 | the success flag stays set exactly when it was set and every artifact fetch returned 0 |
| RemoteExecutor.FetchLogs | src/run-python-script.py:100-102 | a fetch keeps the earlier logs and, when it fails, ends them with its failure line |
| RemoteExecutor.FetchKeepsLogs | src/run-python-script.py:100-102 | the artifact loop only appends to the logs |
| RemoteExecutor.FetchFailuresLogged | src/run-python-script.py:101-102 | every failed artifact fetch leaves a log line naming its path |
| RemoteExecutor.DiagnosticsClean | src/run-python-script.py:48 | no collected line is empty or the word `done` |
| RemoteExecutor.FetchExplainsFailure | src/run-python-script.py:100-103 | the logs stay clean, and once the success flag is cleared some line explains why |
| RemoteExecutor.JoinHasNewline | src/run-python-script.py:106 | joining two or more lines puts a newline into the message |
| RemoteExecutor.MessageDone | src/run-python-script.py:105-107 | the message is `done` exactly when nothing was logged, and it is never empty |
| RemoteExecutor.SetupLogsClean | src/run-python-script.py:48-70 | the logs of the setup steps are clean |
| RemoteExecutor.ArtifactPhaseIs | src/run-python-script.py:87-107 | once the manifest validates, the run is the artifact loop from the setup's logs and commands |
| RemoteExecutor.ArtifactPhase | src/run-python-script.py:90-107 | once the manifest validates, the commands are the three setup steps then one fetch per non-empty path in list order; the run succeeds exactly when every fetch returned 0; the message names every failed fetch |
| RemoteExecutor.ArtifactPhaseReported | src/run-python-script.py:105-107 | the artifact phase's message is never empty, and never `done` on failure |
| RemoteExecutor.EarlyStopReported | src/run-python-script.py:49-85 | every early return is a failure with a message longer than `done` |
| RemoteExecutor.FailureIsReported | src/run-python-script.py:33-107 | a run's message is never empty, and a failed run's is never `done` |
| ScriptRunner.IdOf | src/run-python-script.py:141 | a device's summary id is its `id` text, or None |
| ScriptRunner.Expected | src/run-python-script.py:124-127 | there is one summary per device, each that device's worker result |
| ScriptRunner.RunAll | src/run-python-script.py:110-154 | a missing script prints only its message; an empty fleet prints only its message; otherwise the summaries are the workers' results in some order; `sorted` raises exactly when some device has no id and another has one, and then nothing is printed, and otherwise the printed blocks are the report of those results; every heartbeat reports a pending count between 1 and the fleet size, the counts never rise, and there are fewer heartbeats than devices plus timed-out rounds; with no timed-out round each count is below the fleet size and lower than the one before |
| ScriptRunner.Submit | src/run-python-script.py:123-129 | one result per device; the pending set is every future |
| ScriptRunner.Drain | src/run-python-script.py:133-147 | every future's result is collected exactly once, in whatever order `wait` reports them and however many of at most `timeouts` rounds time out; every heartbeat is a pending count between 1 and the fleet size, the counts never rise, and there are fewer heartbeats than devices plus timed-out rounds; with no timed-out round each count is below the fleet size and lower than the one before |
| ScriptRunner.Collect | src/run-python-script.py:139-141 | the finished futures' results are appended, and the bookkeeping of unseen futures follows |
| ScriptRunner.StartTracking | src/run-python-script.py:129 | before the first round every future is unseen |
| ScriptRunner.CountdownStep | src/run-python-script.py:142-147 | a round that leaves fewer futures pending keeps the heartbeat counts bounded and never rising |
| ScriptRunner.StallStep | src/run-python-script.py:134-147 | a round that times out repeats the current count and keeps the heartbeat counts never rising |
| ScriptRunner.CountdownEnds | src/run-python-script.py:133-147 | once nothing is pending the heartbeat counts meet the bounds of `Drain` |
| ScriptRunner.CollectStep | src/run-python-script.py:140-141 | collecting one future moves its result from the unseen ones into the summaries |
| ScriptRunner.Shrinks | src/run-python-script.py:134-138 | a round removes at least one future from the pending set |
| ScriptRunner.StrLeTotal | src/run-python-script.py:150 | Python's string order is total |
| ScriptRunner.StrLeAntisymmetric | src/run-python-script.py:150 | Python's string order is antisymmetric |
| ScriptRunner.StrLeTransitive | src/run-python-script.py:150 | Python's string order is transitive |
| ScriptRunner.PyLessAgrees | src/run-python-script.py:150 | tuple comparison raises exactly when one id is None and the other is not; where it does not raise, the corrected order agrees with it |
| ScriptRunner.SummaryLeTotal | src/run-python-script.py:150 | the summary order is total |
| ScriptRunner.SummaryLeAntisymmetric | src/run-python-script.py:150 | the summary order is antisymmetric |
| ScriptRunner.SummaryLeTransitive | src/run-python-script.py:150 | the summary order is transitive |
| ScriptRunner.Insert | src/run-python-script.py:150 | insertion into a sorted list stays sorted and adds exactly the element |
| ScriptRunner.Sort | src/run-python-script.py:150 | the result is sorted and a permutation of the input |
| ScriptRunner.SortedUnique | src/run-python-script.py:150 | two sorted permutations of the same summaries are equal |
| ScriptRunner.Shown | src/run-python-script.py:151 | an entry is shown exactly when it is present and its message is neither empty nor `done`; sortedness is kept |
| ScriptRunner.Report | src/run-python-script.py:150-152 | one block per shown entry, in sorted order |
| ScriptRunner.ReportDeterminedByContents | src/run-python-script.py:139-152 | the order in which workers finish does not change the printed summary |
| ScriptRunner.ReportShowsVisible | src/run-python-script.py:151-152 | every entry with something to say is printed |
| ScriptRunner.ReportOnlyVisible | src/run-python-script.py:151-152 | every printed block is the block of an entry with something to say |
| ScriptRunner.CorrectedPrintsEveryFailure | src/run-python-script.py:139-152 | with the corrected order, every device whose workflow failed is printed, whatever order the workers finished in |
| ScriptRunner.EveryFailureIsPrinted | src/run-python-script.py:139-152 | as written, a fleet mixing devices with and without an id prints no summary, and any other fleet prints every device whose workflow failed |
| ScriptRunner.MixedByContents | src/run-python-script.py:150 | whether ids are mixed does not depend on the order the workers finished in |
| ScriptRunner.MixedHasIncomparableNeighbours | src/run-python-script.py:150 | any arrangement of mixed None and text ids has a neighbouring pair Python cannot compare |
| ScriptRunner.AsWrittenAgreesUnmixed | src/run-python-script.py:150-152 | without mixed ids the code as written prints the corrected report |
| ScriptRunner.MixedIdsHideFailure | src/run-python-script.py:150 | a fleet with one device without an id and one with an id prints nothing: `sorted` raises |
| ScriptRunner.CorrectedShowsSkip | src/run-python-script.py:150-152 | on the same fleet the corrected order prints the skip message |
| Plans.Then | src/copy-programs.py:17-37 | after a crash nothing more is issued; otherwise the commands are concatenated and the second part decides the crash |
| Plans.ThenNothing | src/copy-programs.py:17-37 | doing nothing before or after a plan leaves it unchanged |
| Plans.ThenAssociative | src/copy-programs.py:17-37 | sequencing plans is associative |
| Plans.ChainStep | src/copy-programs.py:17 | one more loop iteration appends that iteration's plan |
| Plans.ChainCrashStays | src/copy-programs.py:17 | after a crash the remaining iterations add nothing |
| Plans.ChainStopsAt | src/copy-programs.py:17 | leaving the loop at a crashing iteration gives the whole loop's plan |
| Plans.ChainPrefix | src/copy-programs.py:17 | the first iterations issue a prefix of the loop's commands |
| Plans.ChainCrashed | src/copy-programs.py:17 | the loop crashes exactly when one of its iterations does |
| Plans.ChainCommands | src/copy-programs.py:17 | without a crash, every iteration's commands are issued, in order |
| Plans.NoCrashChain | src/copy-programs.py:17 | a loop whose iterations do not crash does not crash |
| ProgramCopier.CopyCommands | src/copy-programs.py:31-35 | one rsync per program, in list order, of the program's `str()` to that device |
| ProgramCopier.CopyPrograms | src/copy-programs.py:13-37 | the commands issued, and whether the script raised, are those of the device-by-device plan |
| ProgramCopier.CopyEach | src/copy-programs.py:31-35 | the inner loop issues the rsync commands of the closed form |
| ProgramCopier.NoDevicesNoCommands | src/copy-programs.py:13-15 | an empty fleet issues nothing |
| ProgramCopier.DeviceCopies | src/copy-programs.py:18-35 | a device with an address and an iterable, non-empty program list gets the directory first, then one copy per program |
| ProgramCopier.SkippedDevice | src/copy-programs.py:18-26 | a device without an address, or with no programs, gets no command |
| ProgramCopier.CopyCrashes | src/copy-programs.py:17-35 | the script ends on an exception exactly when one device's round raises |
| ProgramCopier.CopyInOrder | src/copy-programs.py:17 | the first devices' commands are issued before any later device's |
| ProgramEnabler.Tasks | src/enable-programs.py:33-43 | building the task list raises exactly when some device is not a mapping; there are never more tasks than devices |
| ProgramEnabler.CollectTasks | src/enable-programs.py:33-43 | the loop builds the specified task list |
| ProgramEnabler.TasksStep | src/enable-programs.py:34-43 | a skipped device leaves the task list unchanged; an eligible one appends its task |
| ProgramEnabler.TasksStop | src/enable-programs.py:35 | a non-mapping device makes building the task list raise |
| ProgramEnabler.EligibleQueued | src/enable-programs.py:35-43 | every device with an address and programs yields its task |
| ProgramEnabler.QueuedEligible | src/enable-programs.py:35-43 | every task comes from a device with an address and programs |
| ProgramEnabler.ProcessRpi | src/enable-programs.py:18-31 | `process_rpi` issues the specified commands |
| ProgramEnabler.TruthySetUp | src/enable-programs.py:25-29 | every truthy program gets its `setup` run |
| ProgramEnabler.SetUpTruthy | src/enable-programs.py:25-29 | every `setup` run is for a truthy program of the list |
| ProgramEnabler.TaskShape | src/enable-programs.py:19-24 | a task issues something exactly when its host is text that is not all white space; the directory then comes first, on the stripped host |
| ProgramEnabler.RunTasks | src/enable-programs.py:45-47 | one command list per task, each what `process_rpi` issues for it |
| ProgramEnabler.EnablePrograms | src/enable-programs.py:14-47 | the script issues the specified per-task commands, or raises while building the tasks |
| ProgramEnabler.NoDevicesNoTasks | src/enable-programs.py:14-16 | an empty fleet runs nothing |
| ProgramEnabler.NonDictStopsAll | src/enable-programs.py:34-35 | a non-mapping device anywhere stops the script before any task runs |
| EnvWriter.KeywordOf | src/write-env-file.py:9-13 | a line declares a key exactly when, stripped, it is non-empty, does not start with `#` and holds `=`; the key is stripped and holds no `=` |
| EnvWriter.Keywords | src/write-env-file.py:7-14 | there are never more keywords than lines |
| EnvWriter.ExtractKeywords | src/write-env-file.py:7-14 | the loop collects the keys of the declaring lines, in line order |
| EnvWriter.KeywordsDeclared | src/write-env-file.py:9-13 | every keyword is declared by some line |
| EnvWriter.DeclaredKeywords | src/write-env-file.py:9-13 | every declared key is a keyword |
| EnvWriter.KeywordOfAssignment | src/write-env-file.py:11-12 | a line `key=value` with a plain key declares exactly that key |
| EnvWriter.KeywordOfSpaced | src/write-env-file.py:9-13 | a line whose first `=` follows the text `k` declares `k` stripped, unless the stripped line is a comment |
| EnvWriter.ExampleKeywords | src/write-env-file.py:49-52 | an example file written as `key=value` lines yields exactly its keys, in order |
| EnvWriter.CommentDeclaresNothing | src/write-env-file.py:11 | a comment line declares nothing, even when it holds `=` |
| EnvWriter.Assignment | src/write-env-file.py:59 | an assignment starts with its key followed by `=` |
| EnvWriter.EnvLines | src/write-env-file.py:58-60 | there are no lines exactly when the mapping holds none of the keywords; no line is empty |
| EnvWriter.JoinEmpty | src/write-env-file.py:58-61 | joining non-empty lines gives empty text exactly when there are none |
| EnvWriter.NothingToWrite | src/write-env-file.py:57-63 | nothing is written exactly when the mapping holds none of the keywords |
| EnvWriter.PresentKeywordsWritten | src/write-env-file.py:58-60 | every keyword the mapping holds is written with its value |
| EnvWriter.EnvLinesHas | src/write-env-file.py:59 | a present keyword has its assignment among the lines |
| EnvWriter.OnlyPresentKeywords | src/write-env-file.py:59 | every written line is the assignment of a keyword that is both declared and present |
| EnvWriter.OnlyDictWrites | src/write-env-file.py:37-60 | an `env` that is not a mapping writes nothing or raises |
| EnvWriter.WriteEnvFiles | src/write-env-file.py:22-70 | the commands issued, and whether the script raised, are those of the device-by-device plan |
| EnvWriter.WriteDevice | src/write-env-file.py:41-70 | the program loop of one device issues that device's plan |
| EnvWriter.NoDevicesNoCommands | src/write-env-file.py:22-24 | an empty fleet issues nothing |
| EnvWriter.ProgramWrites | src/write-env-file.py:41-68 | a program that issues anything is a non-blank program name on a device whose `env` is a mapping; it issues exactly the `env` directory and then the `.env` file, holding every declared keyword the mapping provides |
| EnvWriter.NoKeywordsNoWrite | src/write-env-file.py:48-57 | a program whose example file is missing or declares no keyword writes nothing |
| EnvWriter.WriteEnvCrashes | src/write-env-file.py:26-70 | the script ends on an exception exactly when one device's round raises |
| EnvWriter.WriteEnvInOrder | src/write-env-file.py:26 | the first devices' commands are issued before any later device's |

## Left out

- Every `print` is left out: progress lines, skip notices and the keyword listing. The report of
  `run-python-script.py` and its missing-script and empty-fleet messages are kept. Its heartbeat
  lines are kept only as the pending counts they report, without the elapsed seconds.
- Clocks and the thread pools' scheduling are left out. A round of `wait` reports any subset of
  the pending futures; an empty one is a round that timed out after 10 seconds, and the number of
  such rounds is bounded by a parameter. Each worker's result is taken as a function of its own
  device, its remote side and the manifest it reads back, so the workers run as they are
  submitted.
- RemoteExecutor.ProcessDevice: does not model the race on the local manifest file. Every worker
  writes `script_outputs_<name>.json` into the one process-wide temporary directory. Two devices
  with the same name (the same `id`, or the same `host` and no `id`) write the same file, so one
  worker can read the other's manifest. The model takes each worker's manifest as an input.
- DevicesConfig.Roster: records shared through YAML aliases are modelled, but the values nested
  in a record (its `env` mapping and `programs` list) are taken as unshared.
  DeviceRecord.UpdateEnv and DeviceRecord.Apply replace them as values, so an alias between two
  devices' `env` mappings, which `update_device_env` would edit through both, is not modelled.
- Reading and writing files, `yaml.safe_load`, `yaml.safe_dump` and `json.loads` are parameters.
  The scripts see decoded values. `load_devices` gets the parsed file, or None when it is
  missing. `load_programs_list` gets the file text. `write-env-file.py` gets a function from
  program name to example-file text. The manifest is a `ManifestFile`. `save_devices` is modelled
  by the payload it writes: `LoadSaved` states the round trip.
- UTF-8 decoding errors of the example and list files are left out. They would raise.
- `get_data_dir` and the `path` arguments' defaults are left out, because path resolution needs
  the file system. The data directory is a parameter.
- Floats, and dict keys that are not strings, are left out of `Value`.
- `str()` of a list or dict uses a simplified `repr`: single quotes, no escapes. It only matters
  when a program or an env value is a container.
- `Lower` lower-cases ASCII letters only. Python's `str.lower` also maps other letters. Only two
  non-ASCII characters lower-case to ASCII: the Kelvin sign gives `k`, and U+0130 gives `i`
  followed by a combining dot. No marker (`error`, `warn`, `fail`) holds `k`, and none can end
  at an `i` or continue past a combining dot. So the test for notable lines gives exactly
  Python's answer.
- `Path` joining is modelled for one-segment names (`JoinPath`). A program name holding `/` or
  an absolute path, which pathlib would resolve differently, is not.
- `mkdir` of `data/images` is left out, because it is local file-system work that does not affect
  the result.
- The `elapsed` seconds of the heartbeat are left out, because there is no clock.
- In `enable-programs.py` the worker threads run concurrently. The model gives each task's commands
  in submission order and does not interleave them. An exception inside `process_rpi` is kept by
  its future, which nobody reads, so the task just stops.
- ScriptRunner.RunAll: requires that every device is a mapping whose `id` and `host` are text or
  absent, which is what the `Optional[str]` annotations of `process_device` state. Other values
  are not modelled, including some on which the script runs normally:
  - a falsy non-text `host` (`0`, `false`, `[]`), which the `or` replaces by the id;
  - a truthy non-text `host`, which is formatted into the scp target, so a failed copy returns
    its message normally; only after a successful copy is it handed unconverted to the ssh call;
  - a non-text `id` next to a text `host`, which is only formatted into messages and kept in the
    summary, so a fleet whose ids are all integers sorts and prints normally, and only a mix of
    integer ids with text or missing ones raises in `sorted`.
- RemoteExecutor.ProcessDevice: requires that `id` and `host` are text or absent, as those
  annotations state; the same non-text values are left out.
- The rest of the repository is not part of this model.

## Findings

| source | as written | input that shows it | evidently intended | confidence | as-written member | corrected member |
|---|---|---|---|---|---|---|
| src/run-python-script.py:150 | `sorted(summaries)` compares `(device_id, msg, ok)` tuples, and `device_id` is None for a device without an `id` | two devices: one with `id: a` that succeeds, and one with only a `host` or nothing at all (here one with neither, which is skipped). Comparing None with `'a'` raises TypeError, so nothing is printed, not even the skip message | print every summary, with devices that lack an id ordered first | not executed | ScriptRunner.MixedIdsHideFailure | ScriptRunner.CorrectedShowsSkip |
