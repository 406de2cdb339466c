# msexport in Dafny

msexport turns one MuseScore file into a set of practice files for a choir.

1. It opens the `.mscz` archive and picks the main score among the rootfiles of `META-INF/container.xml`.
2. It analyses every part. The analysis decides whether the part is a voice and makes sure the part has a volume controller (MIDI controller 7).
3. It plans the export tasks. For each voice part there are four mixer variants:
   - the voice loud and the others at half volume;
   - karaoke, with the voice silent;
   - solo, with the other voices silent;
   - piano, with the voices on a piano sound.
   Then come two full mixes, "-Alle" and "-Alle (Piano)", and finally a PDF of the score and its parts.
4. It runs the planned MuseScore calls. The single-threaded exporter runs them one after the other. The multi-threaded one hands them to a fixed number of worker slots in a polling loop.

The model covers the following:

- **The part analysis** (module `ScoreModel`, score.dfy):
  - the voice test, which depends on the file version;
  - the lookup of the volume controller;
  - the analysis step, which appends a `(7, 80)` controller only when a part has none.
- **The rootfile selection** (module `Paths`, paths.dfy):
  - a model of PHP's `pathinfo` for '/'-separated paths;
  - the loop that takes the first `.mscx` rootfile whose dirname does not start with `Excerpts/`.
- **The exporter** (module `Planner`, planner.dfy), a class with the loaded parts, the analysis records and the task list as fields:
  - `setVolume` and `setInstruments` overwrite mixer values in place;
  - `prepareExport` appends a task that carries a copy of the score as it stands;
  - `doRun` halts on a missing input or loads, analyses and plans.

  The whole plan is specified by the function `PlannedTasks` over the analysed score. Each variant's score is specified by `Mix`, the analysed score with that variant's mixer. The methods are proved to produce exactly that plan.
- **The serial runner** (module `SerialRunner`, runner.dfy). Running a task produces a log of effects: the MuseScore call, then the deletion of the working copy.
- **The dispatch loop of the multi-threaded exporter** (module `Dispatcher`, dispatcher.dfy):
  - a slot map `id -> (is_active, run)` and a generator cursor;
  - one pass of the `foreach` (`Round`, as a function);
  - a class whose `Run` method is the `while (true)` loop.

  The completion test `done()` is the only outside input. It is an oracle `finish: seq<nat>`: the run of task `t` reports done from pass `finish[t]` on, and every run counts as done from pass `AllDone(finish)` on. This assumption is what proves that the loop terminates.

  The model keeps the loop's stale-run behaviour. A slot whose run finishes while tasks remain is set inactive but keeps its run handle (msexport.php:392). When the generator runs dry before the slot gets new work, the next pass goes down the `done()` branch on the old handle. It reports that task "finished" a second time, then removes the slot. `StaleRunReportedTwice` shows this on a two-slot, three-task run. The stale report needs a second slot: with one slot the runs are reported in start order, each exactly once (`OneSlotEnd`).
- **The working copies** (module `WorkCopies`, workcopy.dfy): when the plan's per-task snapshot is what MuseScore renders. Two voice parts with the same long name share their working copies.
- **The multi-threaded doRun** (module `ParallelRunner`, parallel.dfy): planning plus the dispatch loop. The work the slots launch, taken in launch order, is exactly the serial runner's work.

Cited lines are in msexport.php.

## Model

| member | source | states |
|---|---|---|
| ScoreModel.ClassifyPart | msexport.php:84-98 | The result is `IsVoice`. When the version starts with "3.", a part is a voice iff its instrumentId starts with "voice.". Otherwise it is a voice iff its lower-cased long name starts with some configured prefix. An empty prefix list never yields a voice. |
| ScoreModel.GetVolumeCtrlIdx | msexport.php:100-108 | The result is -1 iff no controller has ctrl "7". Otherwise it is the least index whose ctrl is "7". |
| ScoreModel.EnsureVolumeCtrl | msexport.php:225-232 | A part that has a volume controller is returned unchanged. A part without one gets `(7, 80)` appended and nothing else. Either way the returned index is the first controller with ctrl "7". |
| ScoreModel.VolumeIdxUnique | msexport.php:100-108 | The first volume controller of a list is unique. So a second lookup on an analysed part finds the same index, and the step appends no duplicate. |
| Paths.FirstMainScoreIndex | msexport.php:195-201 | Returns the index of the first rootfile that passes the test. Every earlier entry fails it. The result is the list length when no entry passes. |
| Paths.SelectScoreFile | msexport.php:193-204 | Succeeds iff some rootfile passes the test, and then returns the first such entry. Otherwise it fails with "missing name of actual score file". |
| Paths.DirnameOfJoin | msexport.php:196 | For a non-empty `d` and an `f` without '/', the model's pathinfo of `d/f` has dirname `d` and basename `f`. |
| Paths.ExtensionOfJoin | msexport.php:196 | For a non-empty `d`, a `stem` without '/' and an `ext` without '/' or '.', pathinfo of `d/stem.ext` has dirname `d` and extension `ext`. |
| Paths.ExcerptInFolderSkipped | msexport.php:197 | In the model's pathinfo, a part score stored as `Excerpts/<name>/<file>` is never taken as the main score. |
| Paths.ExcerptAtTopAccepted | msexport.php:197 | A score stored directly as `Excerpts/<stem>.mscx` is taken as the main score. Its dirname is "Excerpts", which has no trailing slash, so the nine-character test does not match it. |
| Planner.Load | msexport.php:170-215 | Loading fails iff the file name is empty, the container has no rootfile list, no rootfile is a main score, or the archive lacks the selected entry. On failure the halt is `LoadHalt`: the first failing check in the order of lines 170-209 (`MissingFileName`, `MissingFilePointer`, `MissingScoreFile`, then `UnreadableScore` naming the first main-score rootfile). On success the score is the archive entry under the first main-score rootfile. |
| Planner.UnreadableHalt | msexport.php:206-209 | When the first main-score rootfile names an absent entry, loading fails and the halt is `UnreadableScore` with that rootfile's name. |
| Planner.LoadsExclusive | msexport.php:193-215 | A load that halts yields no score. A load that succeeds yields exactly one score. |
| Halts.Message | msexport.php:170-215 | Every halt condition has a non-empty message to print after "halted: ". |
| Planner.Exporter.Analyze | msexport.php:224-238 | After the loop, each part is the loaded part, with `(7, 80)` appended iff it had no volume controller. Each record holds the voice test of the loaded part, its long name and the index of its first volume controller. The parts and records are well formed. |
| Planner.Exporter.SetVolume | msexport.php:110-114 | Every part's volume value is written. A voice part at the focus index gets `vThis`, other voice parts get `vOthers`, and instruments get `vInstr`. No other controller, program, name or id changes. |
| Planner.UnfocusedVolumes | msexport.php:279-283 | With focus -1, as for the two full mixes, no part gets `vThis`. Voices get `vOthers` and instruments get `vInstr`. |
| Planner.Exporter.SetInstruments | msexport.php:116-122 | Voice parts get program `prog`. Instrument parts are left exactly as they were. |
| Planner.Exporter.PrepareExport | msexport.php:137-153 | Exactly one task is appended. Its title is the label and its command renders the working copy. It deletes that working copy afterwards and carries the current score. |
| Planner.VolumeStep | msexport.php:256-268 | Applying setVolume to a score that differs from the analysed score only in its mixer, and whose voices play `prog`, yields exactly the variant's `Mix`. |
| Planner.ProgramStep | msexport.php:116-122 | setInstruments keeps a score a mixer variant of the analysed score, and every voice then plays `prog`. |
| Planner.MixIsMix | msexport.php:254-268 | A variant's `Mix` keeps every part but its mixer. Each volume is the one setVolume writes for its kind and focus. Voices play `prog` and instruments keep their program. |
| Planner.MixUnique | msexport.php:254-268 | Any score with a variant's mixer, and otherwise equal to the analysed score, is that variant's `Mix`. |
| Planner.Exporter.ExportVariant | msexport.php:256-257 | setVolume then prepareExport appends one task whose snapshot is the variant's `Mix` of the analysed score. The score is then exactly that `Mix`. |
| Planner.Exporter.SwitchInstruments | msexport.php:254 | After setInstruments every voice plays `prog`, and the score differs from the analysed score only in its mixer. |
| Planner.Exporter.PlanVoice | msexport.php:252-269 | For voice part `i` it appends exactly `VariantTasks(i)`. These are `-name` (100/50/100, program 52), `-name (Karaoke)` (0/100/100, program 52), `-name (Solo)` (100/0/100, program 52) and `-name (Piano)` (100/50/50, program 0), each with its Mix snapshot. |
| Planner.Exporter.PlanPart | msexport.php:250-273 | One pass of the voice loop extends the task list from `VoiceTasks(i)` to `VoiceTasks(i + 1)`. An instrument part adds nothing. |
| Planner.Exporter.PlanVoices | msexport.php:250-273 | The voice loop leaves exactly `VoiceTasks` over all parts. |
| Planner.Exporter.PlanAll | msexport.php:278-284 | Each full mix appends one task whose snapshot has every part at volume 100 and every voice on `prog`. The score is then exactly that mix. |
| Planner.Exporter.PlanTail | msexport.php:278-293 | After the voice tasks come "-Alle", "-Alle (Piano)" and the PDF task, giving exactly `PlannedTasks`. The score is left with the "-Alle (Piano)" mixer. |
| Planner.Exporter.Plan | msexport.php:250-293 | The planning section leaves exactly `PlannedTasks` of the score as it was before planning. The score is left with the "-Alle (Piano)" mixer: every part at volume 100 and the voices on the piano program. |
| Planner.VoiceIndicesAreVoices | msexport.php:252 | Every index the voice loop emits variants for is a voice part. |
| Planner.VoiceIndicesIncreasing | msexport.php:250 | Voice parts are visited in increasing part order, each once. |
| Planner.VoiceIndicesComplete | msexport.php:250-252 | No voice part is skipped. |
| Planner.VoiceTasksLayout | msexport.php:250-273 | The k-th voice part's four variants sit at positions 4k..4k+3 of the voice tasks. The voice tasks number four per voice part. |
| Planner.PlanLayout | msexport.php:250-293 | For v voice parts the plan has exactly 4v + 3 tasks. First come the four variants of each voice part in part order, then "-Alle" (program 52, all at 100), then "-Alle (Piano)" (program 0, all at 100), then the PDF task. |
| Planner.VoiceTasksAreAudio | msexport.php:137-153 | Every task of the voice loop is one prepareExport built. |
| Planner.PlanCleanup | msexport.php:137-153 | Every task but the last renders `workDir/<stem><label>.<ext>` to `exportDir/<stem><label>.mp3`, deletes that non-empty working copy, and carries a snapshot. The last task, appended at lines 289-293, renders the parts PDF from the original input and deletes nothing. |
| Planner.Exporter.Prepare | msexport.php:173-293 | After loading, the analysis of the loaded score is recorded and the task list is exactly `PlannedTasks` of the analysed score. The score is left with the "-Alle (Piano)" mixer. |
| Planner.Exporter.DoRun | msexport.php:166-295 | On a halt the load failed, the halt is `LoadHalt`: the first failing check in the order of lines 170-209 (`MissingFileName`, `MissingFilePointer`, `MissingScoreFile`, then `UnreadableScore` naming the first main-score rootfile), and no task is planned. Otherwise the main score was loaded and analysed, its plan is exactly `PlannedTasks`, and the score is left with the "-Alle (Piano)" mixer. |
| SerialRunner.RunSerial | msexport.php:307-316 | The effect log is `Effects(tasks)`: each task's call, then its deletion when it names a cleanup file. |
| SerialRunner.TaskCommands | msexport.php:308-314 | One task makes exactly its MuseScore call, and deletes its cleanup path iff that path is non-empty. |
| SerialRunner.CommandsInOrder | msexport.php:307-316 | The serial runner calls MuseScore once per task, in task order. |
| SerialRunner.UnlinksExactly | msexport.php:311-314 | Exactly the non-empty cleanup paths of the tasks are deleted, at most one deletion per task. |
| SerialRunner.SerialRunDeletesWorkCopies | msexport.php:304-317 | Running the plan serially deletes exactly the working copies of all tasks but the PDF one. |
| WorkCopies.VariantTitle | msexport.php:256-268 | The m-th variant of a voice part is titled "-", its long name, then "", " (Karaoke)", " (Solo)" or " (Piano)". |
| WorkCopies.LabelInjective | msexport.php:257-268 | For long names that do not end in ')', a title "-<name><suffix>" determines both the name and the suffix. |
| WorkCopies.WorkCopyInjective | msexport.php:139 | Different titles give different working-copy paths. |
| WorkCopies.TaskLabel | msexport.php:250-284 | Every task but the PDF one is titled "-<name><suffix>". For the voice tasks this is the k-th voice part's name and the variant's suffix. For the two full mixes it is "Alle" with no suffix, then with " (Piano)". |
| WorkCopies.TitlesDistinct | msexport.php:250-284 | Suppose the voice parts' long names are pairwise different, none is "Alle", and none ends with ')'. Then no two tasks of the plan share a title, the PDF task aside. |
| WorkCopies.WorkCopiesDistinct | msexport.php:137-153 | Under the same condition, every task but the PDF one has a working copy of its own. No later prepareExport overwrites it and no other task deletes it. |
| WorkCopies.SameNameSharesWorkCopy | msexport.php:139-140 | As written, two voice parts with the same long name share all four working copies, although their first variants carry different scores. |
| WorkCopies.CopyLoads | msexport.php:144 | The working copy stores the mixed score under `<stem>.mscx`. Read through the input's rootfile selection, the copy yields the mixed score when the input's main-score rootfile is `<stem>.mscx`, and otherwise the input's own score. |
| SerialRunner.ExportSingleThreaded | msexport.php:304-317 | On a halt loading failed, the halt is `LoadHalt` (the first failing check of lines 170-209), nothing is planned and nothing runs. Otherwise the main score of the input was loaded and analysed, the plan is its `PlannedTasks`, and the effects are those of running the plan in order. |
| Dispatcher.InitialSlots | msexport.php:367 | array_fill makes slots 1..maxThreads, all inactive and without a run. |
| Dispatcher.SlotIds | msexport.php:371 | The foreach visits exactly the keys present at the start of the pass, once each, in increasing order. |
| Dispatcher.Visit | msexport.php:372-395 | One slot visit moves the cursor by at most one, and only by starting the cursor's task on an inactive slot. It leaves every other slot alone. A slot is removed only when the generator is exhausted or the slot is active, and only when it has no run or its run is done. With the generator exhausted, a slot without a run is always removed. |
| Dispatcher.VisitEvents | msexport.php:372-395 | A visit only appends to the event log and starts at most the task at the cursor. A slot that is not restarted and whose run is done gets that run reported finished. |
| Dispatcher.VisitKeepsInv | msexport.php:372-395 | Every visit keeps the loop invariant. Slot ids stay within 1..maxThreads. No slot disappears while tasks remain. Active slots hold runs, and no two slots hold the same run. Tasks are started once each in index order. Every started task is reported or still runs on an active slot. |
| Dispatcher.VisitRemoves | msexport.php:372-395 | Under the loop invariant, a visit destroys a slot only once the generator is exhausted, and only when the slot holds no run or its run is done. |
| Dispatcher.SweepKeepsInv | msexport.php:371-396 | Every pass of the foreach keeps the loop invariant. |
| Dispatcher.SweepWhenAllDone | msexport.php:382-394 | Once every run is done, a pass that neither starts a task nor removes a slot turns every slot it visits from active to inactive. |
| Dispatcher.PassProgress | msexport.php:369-400 | Once every run is done, each pass over a non-empty slot map starts a task, removes a slot, or lowers the number of active slots. This is what makes the loop terminate. |
| Dispatcher.RoundFacts | msexport.php:369-400 | A pass keeps the invariant, never adds a slot, never moves the cursor back, leaves an empty map as it is, and makes progress once every run is done. |
| Dispatcher.ConcurrencyBound | msexport.php:367-400 | At most maxThreads slots are active, and at most maxThreads started tasks are unreported. |
| Dispatcher.EmptyFacts | msexport.php:398-399 | When the slot map is empty and maxThreads > 0, every task was started once, in index order. Every started task has been reported. |
| Dispatcher.RoundOfTwo | msexport.php:371 | A pass over slots 1 and 2 visits slot 1, then slot 2. |
| Dispatcher.StalePass0 | msexport.php:372-378 | Two slots and three tasks, pass 0: slots 1 and 2 start tasks 0 and 1. |
| Dispatcher.StalePass1 | msexport.php:382-393 | Pass 1: task 1 is done while task 2 remains, so slot 2 reports it and becomes inactive, keeping its run. |
| Dispatcher.StalePass2 | msexport.php:372-393 | Pass 2: slot 1 reports task 0 and becomes inactive, and slot 2 takes the last task. |
| Dispatcher.StalePass3 | msexport.php:382-389 | Pass 3: slot 1's stale run of task 0 is reported a second time and slot 1 is removed. |
| Dispatcher.StaleRunReportedTwice | msexport.php:369-400 | From the initial slots, four passes give the events start 0, start 1, finish 1, finish 0, start 2, finish 0 (again) and remove slot 1, leaving slot 2 running task 2. Task 0 is not started again. |
| Dispatcher.OneSlotVisit | msexport.php:372-395 | With one slot, a visit keeps the alternation: the reported tasks are exactly those before the slot's run, plus that run once the slot holds it inactive. An inactive slot with a run only occurs while tasks remain, so its next visit starts the next task. |
| Dispatcher.OneSlotRound | msexport.php:369-396 | With one slot, every pass keeps that alternation. |
| Dispatcher.OneSlotEnd | msexport.php:398-399 | With one slot, when the map is empty the reports are tasks 0..n-1 in order, each exactly once. |
| Dispatcher.SlotDispatcher.constructor | msexport.php:367 | The loop starts with slots 1..maxThreads, inactive and without runs, at cursor 0, and the invariant holds. |
| Dispatcher.SlotDispatcher.VisitSlot | msexport.php:372-395 | The in-place body of the foreach for one slot is `Visit`. |
| Dispatcher.SlotDispatcher.SweepSlots | msexport.php:371-396 | The in-place foreach is one `Round`. |
| Dispatcher.SlotDispatcher.Run | msexport.php:369-400 | The loop ends with an empty slot map and keeps the invariant. With maxThreads > 0, every task has been started once, in index order, and every started task has been reported. With maxThreads = 1 the reports are tasks 0..n-1 in order, each exactly once. With no slots, nothing happens. |
| ParallelRunner.LaunchedInIndexOrder | msexport.php:356-364 | Launching tasks 0..k-1 in index order, each as the producer's call plus cleanup, does the same work as the serial runner on the first k tasks. |
| ParallelRunner.Dispatch | msexport.php:348-400 | With maxThreads > 0, the dispatch loop starts every task once, in index order, and reports every task. The work launched is the serial runner's. With maxThreads = 1 the tasks are reported in index order, each once. With maxThreads = 0 nothing is started. |
| ParallelRunner.ExportMultiThreaded | msexport.php:333-404 | On a halt loading failed, the halt is `LoadHalt` (the first failing check of lines 170-209), nothing is planned and nothing runs. Otherwise the main score of the input was loaded and analysed, and the plan is its `PlannedTasks`. With maxThreads > 0 all of it is launched, each task once, and reported; with maxThreads = 1 the reports come in task order, each once. |

## Left out

- ZIP and XML handling is not modelled: opening the archive, reading entries, parsing XML and writing the working copies. The archive is an input with a rootfile list and parsed scores. A working copy is modelled by three things: the score its task carries, its path (`WorkCopy`), and the entry the score is stored under (`WorkCopies.CopyEntry`).
- A task's snapshot is what MuseScore renders only under two conditions. First, no two tasks may share a working copy, which `WorkCopies.WorkCopiesDistinct` proves for distinct long names. Second, the input's main-score rootfile must be `<stem>.mscx`, as `WorkCopies.CopyLoads` shows. Otherwise the runners' logs still name the right files. But the model does not track what a shared or mis-named copy holds when a MuseScore call reads it. MuseScore's own rootfile lookup in a working copy is taken to be msexport's.
- `Halts.Message`: 'Error reading file "..."' (line 79) is not among the halts. open_musescore prints it when the input or a working copy cannot be opened as a ZIP archive. The archive is an input and the working copies are not opened. msexport has two container errors, "missing file pointer" and "no valid XML". It also has two score errors, "error reading score from ..." and "no valid XML". Without an XML layer each pair is one halt.
- Process and file effects (`exec`, `copy`, `unlink`, `echo`, `printf`) are not performed. The runners return a log of calls and deletions instead. The copy of the input into the export folder (line 177) is not modelled.
- The text of the command lines is reduced to the files each call writes and reads: the MuseScore binary and the `-o` flags are not modelled.
- Threads are not modelled. The `parallel\Runtime` pool is created but never used by msexport. `\parallel\run` becomes handing a task to a slot, and `done()` becomes the `finish` oracle. The runs' overlap in time and the values returned to the loop are not modelled.
- `time()`, the per-slot start time and the printed durations are not modelled.
- `doRunHelper` is never called, so it is not modelled. The same goes for `print_info`, the environment checks at startup, and the configuration files: the voice prefixes, folders, separator and maxThreads are parameters.
- `ScoreModel.ClassifyPart` compares the version prefix and name prefixes as exact strings. PHP's `==` compares numeric strings by value, so a version of exactly "3" would also count as "3." there.
- `ScoreModel.GetVolumeCtrlIdx` compares ctrl with "7" exactly. PHP's `==` would also accept "07" or "7.0".
- `ScoreModel.LowerChar` lower-cases ASCII and the Latin-1 capitals only, not the whole Unicode range that `mb_strtolower` covers.
- `Paths.Dirname`, `Paths.Extension`, `Paths.Filename` and `Planner.SourceOf` model `pathinfo` for '/'-separated paths only. `SourceOf` applies `Filename` and `ExtensionText` to the input path, which may be a full path. On Windows, for which the shipped configuration is written, PHP's `pathinfo` also splits on '\\'; backslash separators are not modelled. Trailing slashes and repeated separators are not normalised as PHP does.
- Only a part's first channel is modelled. That is the channel setVolume and setInstruments write.
- maxThreads is a natural number. A negative value, which makes `array_fill` throw in PHP, is not modelled.
- The finish oracle assumes every run eventually reports done. A run that never completes keeps msexport's loop polling forever, and the model does not cover that case.
