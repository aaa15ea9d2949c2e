# Data movement, modelled and proved in Dafny

This project models the core of the NNF data-movement service and proves what it promises, for every
input, every interleaving and every run.

* **The data-movement reconciler** (`Reconciler*.dfy`): one `NnfDataMovement` name, its history of
  versions in the API server, a cache that may be stale but never goes back, users, one reconcile at
  a time, the goroutine of every launched command with its progress collector, and crashes of the
  process. A write takes effect at any moment after it was sent, only while the version it was
  computed from is current; it is answered with success only after that, and with an error at any
  time. Conflicts, lost acknowledgements and writes that outlive their process are cases of this rule.
* **The copy-offload daemon's registry** (`Registry*.dfy`, `Driver.dfy`, `StatusResponse.dfy`,
  `DriverVerdict.dfy`, `Keys.dfy`): the `contexts` and `completions` tables, the condition variable,
  cancel and status requests, the two statements of the hand-off with the window between them, and
  the early return that leaves a record behind.
* **The Lustre finalizer protocol** (`Lustre*.dfy`): users who create and delete file systems, a
  DaemonSet whose template generations roll through the worker pods and whose counters are published
  late, and the manager's passes with their three separate lists.
* **Text and paths** (`Text.dfy`, `Paths.dfy`, `Template*.dfy`, `Command*.dfy`, `Trim.dfy`,
  `Hostfile*.dfy`, `IndexMount.dfy`, `Destination*.dfy`): the command template, output trimming,
  hostfiles, and where a destination directory is created.

The three protocols are step systems: a state, the enabled actions and their effects, an inductive
invariant with one lemma for each action, and theorems about every reachable state or every run:
what never happens, and what a thread that is left alone brings about (`*Delivery.dfy`). The
text parts are functions and, where the code loops or updates a field, methods and classes proved
against them. `dafny verify dfyconfig.toml` checks the project.

Where a promise is not kept by the code as it stands, the exact condition is proved, with a witness:

* A file system that appears after the first list of a manager pass is put into the pod template
  without the finalizer (`LateFileSystemIsMountedUnpinned`) and can be gone while a worker mounts it
  (`GoneWhileMounted`); the conditions are `MountedCarriesIffListedFirst` and `GoneIsUnmounted`.
* While the daemon collects progress outside mock mode, the outcome of the last report's status write
  replaces the exit of every command that was not cancelled (`LastReportIsRecorded`), so that a failed
  command is recorded as a success (`FailureRecordedAsSuccess`). The recorded reason is right in every
  run exactly when no progress is reported (`VerdictIsTrue`).
* A helper goroutine can sleep on after its status request has timed out (`HelperSleepsOn`), exactly
  when it was about to sleep at the broadcast of the timeout (`SleepsPastTimeout`).
* The five substitution passes differ from one substitution for paths that can be completed to a
  later placeholder (`HostfileCondition`, `SourceCondition`, `UnclearSources`).
* The options of a user follow the template's own word exactly when the text before it does not have
  the word (`TemplateWordIsFound`); a hostfile with "dcp" in its path takes the dcp options
  (`HostfileTakesOptions`, `NamedHostfile`).
* Request keys are split back exactly for plain namespaces and names (`KeyRoundTrip`), not for a
  namespace with two dashes (`DashedNamespaceIsLost`), and are shared (`SharedKey`) unless their
  dashes can be read in one way only (`KeyIsUnique`). A client's name without two dashes cannot be
  split at all (`SplitsIfDashed`).
* The pattern for an index mount does not look to the left, so that the end of a longer name is taken
  for one (`EndOfNameIsTaken`); a match is a whole component exactly when a slash or the start of the
  path precedes it (`MountIsComponent`).
* Under an index mount the directory created is not the parent of a file destination whose last name
  is not ordinary, or that ends in a slash although a file is reported there (`CreatedDirectory`,
  `DotIsMisplaced`).
* The comment on output trimming says that progress lines are removed; the code removes every line
  between the first and the last of them (`TrimsAsDocumented`), an error message too
  (`ErrorIsDropped`).

## Model

| member | source | states |
|---|---|---|
| `ReconcilerTheorems.StepKeeps` | internal/controller/datamovement_controller.go:91-461 | Every action of users, API server, network, reconcile, goroutine, collector and crash keeps the protocol invariant |
| `ReconcilerTheorems.RunningCommandIsTracked` | internal/controller/datamovement_controller.go:119-195 | In every reachable state a running command has its map entry without a result, and the API object exists with the finalizer in state Running |
| `ReconcilerTheorems.AtMostOneCommand` | internal/controller/datamovement_controller.go:249-266 | At most one command of a data movement runs at a time, although stale reads reach the start |
| `ReconcilerTheorems.StaleReadReachesStart` | internal/controller/datamovement_controller.go:189-258 | A run exists in which a stale read asks to record a second start while a command runs, so only the version check prevents a second launch |
| `ReconcilerTheorems.LaunchesAreCounted` | internal/controller/datamovement_controller.go:188-266 | Over any run with any crashes the commands launched for an object are at most its recorded restarts plus one, and none while its state is unset |
| `ReconcilerTheorems.FinishedIsFinal` | internal/controller/datamovement_controller.go:101-177 | From a finished object on, in every run without a re-creation, it stays finished, nothing is launched, and its reason changes only from Invalid to Cancelled for a never started object that is being deleted |
| `ReconcilerTheorems.ResultLeavesOnlyWritten` | internal/controller/datamovement_controller.go:125-172 | A stored result leaves the map only by a crash, during deletion, or after exactly that status is in the object's history |
| `ReconcilerTheorems.ResultIsOwedAReconcile` | internal/controller/datamovement_controller.go:403-414 | While a result is in the map a reconcile is queued, will still look at it, or its event has not been sent yet |
| `ReconcilerTheorems.UndisturbedReconcileDelivers` | internal/controller/datamovement_controller.go:159-172 | From every reachable state with a queued result and no deletion, five steps of one reconcile write exactly that result, touch nothing else of the object and forget the entry |
| `ReconcilerTheorems.ReasonIsTrue` | internal/controller/datamovement_controller.go:354-461 | A final Success or Failed is how the last launched command ended uncancelled; Cancelled means that cancel or deletion had been requested and that the last command, if any, was sampled as cancelled |
| `ReconcilerTheorems.CollectorReturnsFirst` | internal/controller/datamovement_controller.go:338-366 | Once the final status can be computed, the collector of that command takes no step in any continuation |
| `ReconcilerTheorems.HandshakeNeverBlocks` | internal/controller/datamovement_controller.go:272-365 | In every reachable state a goroutine that has not sent its event, or its collector, can move on its own, and comes nearer to its end by it |
| `ReconcilerTheorems.HandshakeFinishes` | internal/controller/datamovement_controller.go:272-414 | From every reachable state at most twelve steps, all of that goroutine and its collector, lead to its event being sent |
| `ReconcilerTheorems.ResultIsStored` | internal/controller/datamovement_controller.go:354-414 | From every reachable state a working command can come to its end in at most twelve steps of its own, after which the name is queued and the map holds a final result with both times whose reason is how the command was sampled |
| `ReconcilerCancel.CancelReachesCommand` | internal/controller/datamovement_controller.go:420-461 | A reconcile that acts on a copy asking for cancellation, or on a started one being deleted, cancels the running command and no other launch |
| `ReconcilerCancel.OnlyRequestsCancel` | internal/controller/datamovement_controller.go:420-461 | No other step cancels a launch |
| `ReconcilerCancel.CancelIsDelivered` | internal/controller/datamovement_controller.go:119-186 | From every reachable state with a running command and a current object that asks to stop, the next undisturbed reconcile cancels that command and leaves object, finalizer and map alone |
| `ReconcilerCancel.CancelledIsRecorded` | internal/controller/datamovement_controller.go:376-410 | A command cancelled before it was sampled is, in every continuation and with any crashes, unsampled or sampled as cancelled; a result stored for it says Cancelled, and as the last launch it is never recorded as Success or Failed |
| `ReconcilerDelivery.FinalizerIsAdded` | internal/controller/datamovement_controller.go:147-157 | An undisturbed reconcile gives an object without the finalizer exactly that |
| `ReconcilerDelivery.CommandIsStarted` | internal/controller/datamovement_controller.go:188-266 | An undisturbed reconcile of an untracked object that calls for a command records the start, as a restart if it was running, and then launches and tracks exactly one command |
| `ReconcilerDelivery.FailureIsRecorded` | internal/controller/datamovement_controller.go:101-117 | When the preparation fails, the object is recorded as finished and invalid with the message, and the name is queued again |
| `ReconcilerDelivery.ErrorIsReported` | internal/controller/datamovement_controller.go:101-117 | A refused write of an undisturbed reconcile ends with the error in the object and another reconcile |
| `ReconcilerDelivery.NothingIsDone` | internal/controller/datamovement_controller.go:174-195 | A finished object, or one that runs and is tracked, is left as it is |
| `ReconcilerDelivery.StoppedObjectGoes` | internal/controller/datamovement_controller.go:119-145 | A started object being deleted without a running command loses the finalizer, is gone if that was the last one, and its stored result is dropped |
| `ReconcilerDelivery.UnstartedObjectGoes` | internal/controller/datamovement_controller.go:420-438 | An object deleted before its start is recorded as finished and cancelled with both times and then loses the finalizer, with nothing launched |
| `ReconcilerDelivery.ResultIsComputed` | internal/controller/datamovement_controller.go:362-401 | The result of a command is its start status, ended, with the final command status, the message unless cancelled, and the reason by context and exit |
| `ReconcilerDelivery.ProgressIsReported` | internal/controller/datamovement_controller.go:324-333 | A progress report that takes effect changes the command status of the object and nothing else |
| `ReconcilerDelivery.HandsOverAfterLastLook` | internal/controller/datamovement_controller.go:336-348 | A collector hands over only after a last look at the output, and after the answer to the report it made of it, if any |
| `RegistryProofs.StepKeeps` | daemons/copy-offload/pkg/driver/driver.go:307-838 | Every action of requests, waiting and immediate status requests, helpers, timers, cancels, deletions, and status writes that take effect before or after their call returned keeps the registry invariant |
| `RegistryProofs.NoLostWakeup` | daemons/copy-offload/pkg/driver/driver.go:783-822 | Once a completion is noted, its broadcast done and it is not reaped, no helper for that name is asleep or about to sleep |
| `RegistryProofs.TablesAreDisjoint` | daemons/copy-offload/pkg/driver/driver.go:357-389 | A name is in `contexts` exactly until its record is dropped and in `completions` exactly from its notification until it is reaped, never in both |
| `RegistryProofs.NotifiedAtMostOnce` | daemons/copy-offload/pkg/driver/driver.go:595-600 | A request is notified at most once, exactly once after its hand-off, and never after the early return, which leaves its record |
| `RegistryProofs.CancelMissesOnly` | daemons/copy-offload/pkg/driver/driver.go:391-415 | A cancel answers not-found only for a name not recorded when it looked, in its hand-off window, or reaped |
| `RegistryProofs.ReleasedReaderLearnsTheEnd` | daemons/copy-offload/pkg/driver/driver.go:450-543 | A status request released by completion finds the object gone, or reports completed with an end time: always when the final status write took effect before its call returned, and otherwise only when it took effect later |
| `RegistryTimeouts.SleepsPastTimeout` | daemons/copy-offload/pkg/driver/driver.go:808-837 | After the broadcast of its timeout the helper of a status request can be asleep in some continuation if and only if it was about to sleep at that broadcast |
| `RegistryTimeouts.HelperSleepsOn` | daemons/copy-offload/pkg/driver/driver.go:808-837 | A run exists in which a helper sleeps although its request has timed out and done its broadcast |
| `RegistryCancel.CancelMarks` | daemons/copy-offload/pkg/driver/driver.go:391-415 | A cancel request cancels the context of its recorded name and no other, and nothing when it finds no record |
| `RegistryCancel.OnlyCancelMarks` | daemons/copy-offload/pkg/driver/driver.go:391-415 | No other step cancels a context |
| `RegistryCancel.MarkLastsWithRecord` | daemons/copy-offload/pkg/driver/driver.go:357-389 | A cancelled context is forgotten only with its record |
| `RegistryCancel.CancelAnswers` | daemons/copy-offload/pkg/driver/driver.go:395-405 | A cancel request that found no record is answered by whether the completion is noted |
| `RegistryCancel.CancelledEndsCancelled` | daemons/copy-offload/pkg/driver/driver.go:722-742 | A request cancelled before its final status was computed has, in every continuation, no end time or says Cancelled |
| `RegistryCancel.OnlyCancelledEndsCancelled` | daemons/copy-offload/pkg/driver/driver.go:722-742 | An object says Cancelled only if a cancel request for it was answered as found |
| `RegistryDelivery.RequestStarts` | daemons/copy-offload/pkg/driver/driver.go:570-593 | The start of a recorded request is written to its object, and its command runs |
| `RegistryDelivery.FailedStartRunsNothing` | daemons/copy-offload/pkg/driver/driver.go:307-326 | A start that cannot be written leads to the hand-off without a command |
| `RegistryDelivery.RequestIsCarriedOut` | daemons/copy-offload/pkg/driver/driver.go:603-790 | A running request left alone ends with its object finished, with an end time and how it ended, its record dropped, its completion noted and nobody asleep |
| `RegistryDelivery.AbandonedForGood` | daemons/copy-offload/pkg/driver/driver.go:714-719 | A request whose object could not be read at its end keeps its record in every continuation and is never notified |
| `RegistryDelivery.ReplyReaps` | daemons/copy-offload/pkg/driver/driver.go:532-543 | A reply reaps the completion of its name exactly when it is completed with an end time |
| `RegistryDelivery.AtOnceIsAnswered` | daemons/copy-offload/pkg/driver/driver.go:450-465 | A status request that does not wait is answered from the object as it is |
| `RegistryDelivery.WaiterIsAnswered` | daemons/copy-offload/pkg/driver/driver.go:802-838 | A waiting status request of a notified name can be answered in at most seven steps with what its object then says |
| `RegistryDelivery.TimeoutIsAnswered` | daemons/copy-offload/pkg/driver/driver.go:824-837 | A status request that times out is answered with what its object then says, whatever its helper does |
| `StatusResponse.FinalAnswer` | daemons/copy-offload/pkg/driver/driver.go:468-543 | The answer is completed with an end time, and the completion reaped, exactly for a decodable finished status with an end time that was started or rejected as invalid |
| `StatusResponse.AnswerMeans` | daemons/copy-offload/pkg/driver/driver.go:468-543 | Every answer is characterised by the stored status: pending, broken, completed, cancelling, running, starting or unknown, with the reason and both times |
| `Driver.Tracker.RecordRequest` | daemons/copy-offload/pkg/driver/driver.go:357-373 | Recording adds the key with a fresh context that is not cancelled and changes no other entry |
| `Driver.Tracker.ContextDelete` | daemons/copy-offload/pkg/driver/driver.go:595-598 | The hand-off takes the key out of one table, puts it into the other and keeps the tables disjoint |
| `Driver.Tracker.CancelRequest` | daemons/copy-offload/pkg/driver/driver.go:391-415 | Cancelling marks the context of a recorded name as done and no other context, changes neither table, and finds exactly recorded or completed names |
| `DriverVerdict.Goroutine.Run` | daemons/copy-offload/pkg/driver/driver.go:608-742 | The ticks, the wait and the last report that the hand-shake forces leave the error variable that decides the reason |
| `DriverVerdict.VerdictIsTrue` | daemons/copy-offload/pkg/driver/driver.go:624-742 | The recorded reason tells how the command ended in every run if and only if the interval is below a second or the daemon is mocked |
| `DriverVerdict.LastReportIsRecorded` | daemons/copy-offload/pkg/driver/driver.go:666-742 | While reports are written, the outcome of the last write is recorded for a command that was not cancelled, whatever the command and the earlier reports did |
| `DriverVerdict.TruthfulRun` | daemons/copy-offload/pkg/driver/driver.go:666-742 | In one run the reason is right exactly when it was cancelled, nothing is reported, no report ended in a write after the exit, or the last such write went as the command did |
| `DriverVerdict.FailureRecordedAsSuccess` | daemons/copy-offload/pkg/driver/driver.go:666-742 | While reports are written, a failed command whose last report succeeds is recorded as a success, after any other reports |
| `Keys.KeyRoundTrip` | daemons/copy-offload/pkg/driver/driver.go:348-355 | Splitting a key gives back namespace and name if and only if the namespace has no two dashes and no dash at its end, and the name has no two dashes |
| `Keys.SplitsIfDashed` | daemons/copy-offload/pkg/driver/driver.go:352-355 | A name splits, rather than running out of range, if and only if it has two dashes in a row |
| `Keys.DashedNamespaceIsLost` | daemons/copy-offload/pkg/driver/driver.go:348-355 | A namespace with two dashes does not come back |
| `Keys.SharedKey` | daemons/copy-offload/pkg/driver/driver.go:348-350 | Two different requests share a key |
| `Keys.KeysAreDistinct` | daemons/copy-offload/pkg/driver/driver.go:348-350 | Keys of plain namespaces are injective |
| `Keys.KeyIsUnique` | daemons/copy-offload/pkg/driver/driver.go:348-350 | A key belongs to one namespace and name only if and only if both are plain and the name does not start with a dash |
| `LustreProofs.StepKeeps` | internal/controller/datamovementmanager_controller.go:149-442 | Every action of users, DaemonSet controller, worker pods and manager keeps the finalizer invariant |
| `LustreProofs.ReleasedIsUnmounted` | internal/controller/datamovementmanager_controller.go:373-434 | From the moment a file system loses the finalizer, in every continuation, no worker pod mounts it and the template does not mention it |
| `LustreProofs.GoneIsUnmounted` | internal/controller/datamovementmanager_controller.go:373-434 | In every reachable state a file system that is gone and ever had the finalizer is mounted by no worker pod and by no template that a pod may still start from |
| `LustreProofs.GoneWhileMounted` | internal/controller/datamovementmanager_controller.go:436-442 | A run exists in which a file system that never had the finalizer is gone while a worker pod mounts it |
| `LustreProofs.OnlyUnpinReleases` | internal/controller/datamovementmanager_controller.go:422-431 | A finalizer that is there disappears by no other step than the manager's removal, which counts as a release |
| `LustreProofs.OneBlocksAll` | internal/controller/datamovementmanager_controller.go:395-407 | One listed deleting file system still in the template ends the pass with every finalizer in place |
| `LustreProofs.MountedCarriesIffListedFirst` | internal/controller/datamovementmanager_controller.go:339-371 | A file system about to enter the template carries the finalizer if and only if the pass listed it at its start, whatever users do in between |
| `LustreProofs.LateFileSystemIsMountedUnpinned` | internal/controller/datamovementmanager_controller.go:436-442 | A run exists that puts a file system created between the two lists into the template without the finalizer |
| `LustreProofs.ReadyMeansAllWorkers` | internal/controller/datamovementmanager_controller.go:551-556 | Counters pass the readiness test exactly when there are nodes and each had a ready worker pod of the current generation when they were published |
| `LustreDelivery.PinIsDelivered` | internal/controller/datamovementmanager_controller.go:349-368 | A listed live file system that has not changed gets the finalizer and nothing else; one being deleted gets none |
| `LustreDelivery.TemplateMountsTheLive` | internal/controller/datamovementmanager_controller.go:582-611 | A pass goes on only with a template that mounts exactly the live file systems of its second list, each under its name |
| `LustreDelivery.ReleaseIsDelivered` | internal/controller/datamovementmanager_controller.go:373-434 | From every reachable state of a pass with a ready DaemonSet, a deleting file system that is shown as it is and that nothing blocks loses its finalizer in three steps, and is gone unless another finalizer holds it |
| `LustreDelivery.NothingIsReleased` | internal/controller/datamovementmanager_controller.go:409-420 | A DaemonSet that is not ready, or a list with nothing deleting, ends the pass without a change |
| `LustreLoops.SetupLustreVolumes` | internal/controller/datamovementmanager_controller.go:582-611 | The loop makes exactly one volume, under its name, for every listed file system that is not being deleted |
| `LustreLoops.SelectFinalizersToRemove` | internal/controller/datamovementmanager_controller.go:395-407 | The loops give up exactly when the name of a listed deleting file system is among the volumes, and otherwise select the deleting ones in the order of the list |
| `LustreLoops.BlockedMeansClash` | internal/controller/datamovementmanager_controller.go:395-407 | The loops give up exactly when the protocol is blocked |
| `LustreLoops.DeletingListsDoomed` | internal/controller/datamovementmanager_controller.go:395-407 | What the loops select is what the protocol releases, once each |
| `Text.ReplaceIsSplitAndJoin` | internal/controller/helpers/datamovement_helpers.go:266-274 | Replacing a text all over is splitting around it and joining with the other |
| `Template.PassesAreOneSubstitution` | internal/controller/helpers/datamovement_helpers.go:270-274 | The five passes equal one simultaneous substitution, for every template, when each value is clear of the placeholders substituted after it |
| `TemplateCondition.HostfileCondition` | internal/controller/helpers/datamovement_helpers.go:270-274 | A hostfile is substituted as meant in every template, with every user, destination and clear source, if and only if no text around it can complete it to another placeholder |
| `TemplateCondition.SourceCondition` | internal/controller/helpers/datamovement_helpers.go:270-274 | A source is substituted as meant in every template, with every user, destination and clear hostfile, if and only if no text around it can complete it to the destination's placeholder |
| `TemplateCondition.PlainPathsSubstitute` | internal/controller/helpers/datamovement_helpers.go:270-274 | Non-empty paths without a dollar and without a capital at their start are substituted as meant, whatever the ids and the destination |
| `TemplateCondition.UnclearSources` | internal/controller/helpers/datamovement_helpers.go:270-274 | An empty source, one with a dollar and one with a capital at its start each fail the condition |
| `Command.InsertionUndone` | internal/controller/helpers/datamovement_helpers.go:279-302 | Deleting text from after the first occurrence of a word undoes its insertion there |
| `Command.SessionDirectoryIsIsolated` | internal/controller/helpers/datamovement_helpers.go:322-331 | The session directory option with the hostfile's directory follows the first mpirun, and a command without mpirun is unchanged |
| `Command.InsertionsOnlyAdd` | internal/controller/helpers/datamovement_helpers.go:252-315 | Joining the arguments on spaces and deleting the insertions in reverse gives back the substituted command |
| `Command.CommandIsTheTemplate` | internal/controller/helpers/datamovement_helpers.go:252-315 | For clear paths the command without its insertions is the template with all placeholders substituted at once |
| `CommandLayout.TemplateWordIsFound` | internal/controller/helpers/datamovement_helpers.go:282-301 | The word that options are put after is the template's own if and only if the text substituted before it does not have the word |
| `CommandLayout.WholeCommand` | internal/controller/helpers/datamovement_helpers.go:252-331 | When neither the text before them nor the user's options bring in mpirun or dcp earlier, the command is the substituted template with the session directory and each option right after its word |
| `CommandLayout.HostfileTakesOptions` | internal/controller/helpers/datamovement_helpers.go:294-301 | A hostfile with dcp in its path takes the dcp options wherever the template names it before its own dcp |
| `CommandLayout.RootKeepsIds` | internal/controller/helpers/datamovement_helpers.go:263-274 | For a root mover the command without its insertions is the profile's own command, substituted |
| `CommandLayout.OthersDropIds` | internal/controller/helpers/datamovement_helpers.go:263-268 | For any other mover it is the profile's command without the two options for the ids |
| `CommandLayout.NoIdsNoDifference` | internal/controller/helpers/datamovement_helpers.go:263-268 | Without these options both movers run the same command |
| `CommandLayout.RootCommand` | internal/controller/helpers/datamovement_helpers.go:252-331 | The whole text of a root mover's command in the terms of the profile, the paths and the user's options |
| `CommandLayout.DryRunRunsNothing` | internal/controller/helpers/datamovement_helpers.go:255-259 | A dry run is the command true |
| `Command.PlaceholdersMean` | internal/controller/helpers/datamovement_helpers.go:270-274 | Each placeholder stands for its own field of the data movement, the ids in decimal |
| `Command.ArgumentsHaveNoSpaces` | internal/controller/helpers/datamovement_helpers.go:314-314 | No argument has a space in it |
| `Trim.TrimDcpProgressFromOutput` | internal/controller/helpers/datamovement_helpers.go:127-171 | The two loops return the lines up to the first progress line, three snip lines and the lines from the last progress line on, or the output itself |
| `Trim.TwoProgressLines` | internal/controller/helpers/datamovement_helpers.go:152-168 | A trimmed output has exactly two progress lines, the first and the last of the output |
| `Trim.LinesOfTrimmed` | internal/controller/helpers/datamovement_helpers.go:133-170 | The lines of a trimmed output are the trimmed lines of the output |
| `Trim.TrimTwice` | internal/controller/helpers/datamovement_helpers.go:127-171 | Trimming twice is trimming once, for every output |
| `Trim.TrimsAsDocumented` | internal/controller/helpers/datamovement_helpers.go:124-168 | Only progress lines are removed, as the comment says, if and only if nothing else stands between the first and the last of them |
| `Trim.MiddleIsDropped` | internal/controller/helpers/datamovement_helpers.go:152-168 | Whatever line stands between two progress lines is dropped |
| `Trim.ErrorIsDropped` | internal/controller/helpers/datamovement_helpers.go:152-168 | An error message between two progress lines is dropped |
| `Trim.LeftAlone` | internal/controller/helpers/datamovement_helpers.go:146-149 | An output is left alone if and only if it has no progress line, no line between the first and the last of them, or just the snip there |
| `Trim.ProgressMeans` | internal/controller/helpers/datamovement_helpers.go:48-48 | A line is a progress line if and only if it reads as Copied, at least one character, and one to three digits with a percent sign in parentheses |
| `Hostfile.WriteMpiHostfile` | internal/controller/helpers/datamovement_helpers.go:709-740 | The loop with its seen-map writes one line for every distinct host |
| `Hostfile.DistinctInOrder` | internal/controller/helpers/datamovement_helpers.go:709-716 | The distinct hosts are in the order of their first appearance |
| `Hostfile.GetPreBuiltHosts` | internal/controller/helpers/datamovement_helpers.go:873-896 | The loop returns the first field of every line that has one |
| `Hostfile.HostfileRoundTrip` | internal/controller/helpers/datamovement_helpers.go:681-743 | Parsing a written hostfile gives the distinct hosts in the order of first appearance if and only if every host is non-empty and free of white space |
| `Hostfile.WrittenLines` | internal/controller/helpers/datamovement_helpers.go:709-740 | The lines of a written hostfile are the hosts, each with the settings after it |
| `Hostfile.SettingsShown` | daemons/copy-offload/pkg/driver/driver.go:853-858 | A line carries slots, and max_slots, exactly when the request's number is positive, or negative and the profile's is positive |
| `HostfileFields.SettingsAreRead` | internal/controller/helpers/datamovement_helpers.go:721-733 | Reading the line of a host gives back the numbers of slots and max_slots, each present exactly when positive |
| `HostfileFields.RequestedSettings` | internal/controller/helpers/datamovement_helpers.go:654-668 | The numbers on a line are the request's, or the profile's when the request's is negative, and none when that is not positive |
| `HostfileFields.FirstFieldMeans` | internal/controller/helpers/datamovement_helpers.go:884-888 | The first field of a line is its first word, and exactly a blank line has none |
| `HostfileFields.HostsByLine` | internal/controller/helpers/datamovement_helpers.go:873-896 | The hosts of any text are the first fields of its lines |
| `Paths.CleanTwice` | internal/controller/helpers/datamovement_helpers.go:527-527 | Cleaning a path twice is cleaning it once |
| `IndexMount.ExtractedMount` | internal/controller/helpers/datamovement_helpers.go:442-465 | Extraction fails exactly when nothing matches; otherwise it is the empty string exactly when the path ends in the text of the leftmost match, and else that text, the namespace, a dash and digits before a slash |
| `IndexMount.MountReading` | internal/controller/helpers/datamovement_helpers.go:447-448 | A text with the namespace, a dash and digits matches there if and only if a slash or the end follows |
| `IndexMount.MountIsComponent` | internal/controller/helpers/datamovement_helpers.go:447-448 | A match is a whole component of the path if and only if the path starts with it or a slash precedes it |
| `IndexMount.EndOfNameIsTaken` | internal/controller/helpers/datamovement_helpers.go:447-465 | The end of a longer name is extracted as a mount |
| `Destination.Movement.HandleIndexMountDir` | internal/controller/helpers/datamovement_helpers.go:469-507 | The destination is rewritten under the index mount, with its slash kept, unless the source ends in the mount or cannot be examined |
| `Destination.Movement.PrepareDestination` | internal/controller/helpers/datamovement_helpers.go:354-396 | The planned directory is created after the destination has been rewritten; a failed lookup leaves the destination alone |
| `Destination.NeededMountIsNeverTheEnd` | internal/controller/helpers/datamovement_helpers.go:474-476 | A non-empty index mount never meets the early return |
| `Destination.CreatedDirectory` | internal/controller/helpers/datamovement_helpers.go:354-528 | For all paths, file-type answers and storages the directory created is the parent of the final destination for a file moved to a file and the cleaned final destination otherwise; with an index mount the first holds if and only if the destination keeps its parent |
| `Destination.PlanFails` | internal/controller/helpers/datamovement_helpers.go:364-376 | Preparation fails before anything is rewritten exactly when the source cannot be examined, its storage cannot be looked up, or an index mount is needed and the path has none |
| `Destination.MountIsInserted` | internal/controller/helpers/datamovement_helpers.go:479-504 | The index mount is the last name of the directory, right under the one created without it, and a file keeps its name |
| `DestinationMount.FileToFileMeans` | internal/controller/helpers/datamovement_helpers.go:567-620 | A move is file to file exactly when the source is a file and the destination is one or is missing without a slash at its end |
| `DestinationMount.MountedPlan` | internal/controller/helpers/datamovement_helpers.go:401-504 | With gfs2 or xfs and a match that does not end the source, the directory is the plain one with the text of the leftmost match under it, and the destination that directory or the file in it, with its slash |
| `DestinationMount.UnmountedPlan` | internal/controller/helpers/datamovement_helpers.go:354-437 | In every other planned case the destination stays and the plain directory is created |
| `DestinationMount.MountMovesDestination` | internal/controller/helpers/datamovement_helpers.go:479-504 | An index mount changes the destination if and only if it is not a clean path up with a slash at which a file is reported |
| `Destination.DotIsMisplaced` | internal/controller/helpers/datamovement_helpers.go:590-620 | A missing destination that ends in a dot is taken for a file whose parent is not the directory created under an index mount |

## Left out

Assumptions and parts of the code that the model does not cover:

- The step systems are over values rather than objects: their point is the interleaving of several
  threads and processes, which one sequential method cannot show. Aliasing inside one goroutine is
  not modelled there; `Driver.Tracker` and `DriverVerdict.Goroutine` show the daemon's tables and its
  error variable as updated in place.
- The delivery theorems give a run; that schedulers, the network and the DaemonSet controller ever
  take these steps is not modelled.
- Reconciler: one process at a time, reconciles of one name serialized, and no other writer of the
  status of its objects; nothing in the code keeps it off the daemon's objects.
- Reconciler: a cancellation caused by the shutdown of the manager ends with the process, as a crash.
- Reconciler: message, resource error and command status are opaque numbers; times are only set or
  not set; profile, storage and host lookups before the start either fail or do not.
- Registry: keys are fresh, the daemon is the only writer of the status of its objects, and errors of
  the API other than not-found end a status request without an answer that is modelled. A write that
  takes effect late does so at any time while its object exists, whatever the version.
- Registry: the daemon's progress handshake repeats the reconciler's and is not modelled twice.
- Lustre: reads of a file system never go back behind earlier reads and own writes, reads of the
  DaemonSet are not older than its last template change, published counters describe the pods at
  the moment of publication, and a write has taken effect or never will when its call returns.
- Lustre: the namespaces entry, access modes and mount roots of file systems.
- Destination: file-type answers are stable during one preparation, and creating the directory is one
  step that succeeds or fails; the namespace in the index mount pattern has no regular expression
  metacharacters, as Kubernetes names have none.
- Hostfile: write errors, the temporary directory, and the limit of 64 KiB for a scanned line.
- Strings are sequences of characters; invalid UTF-8 is not modelled, nor is the 32-bit range of ids.
- Process execution, clocks, logging, metrics and the output of stat and mkdir commands.
- Progress parsing by chunks, which drops a partial line at the end of what it has read.
- The statistics parser, whose pattern for links repeats the one for files.
- `buildStatOrMkdirCommand`, whose first substituted text has placeholders of its own.
- A cancel before the start without a deletion, which the code does not record.
- Secrets, Deployments, Services, SSH volumes, HTTP handlers, tokens, TLS, the C library, the mock
  daemon's own requests, and the lookups of mounts, profiles and worker hosts: plumbing around the
  protocols and the text handling modelled here.
