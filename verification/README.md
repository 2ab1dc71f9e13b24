# Deck Snapshot: a verified model of its restore engine

Deck Snapshot captures the configuration of a Steam Deck (Decky plugins and their settings, CSS
Loader themes, artwork) into one archive and restores it later, on a machine whose files other
programs may be changing. This project models the parts whose correctness is hard to see from the
code and proves what they promise.

`dafny verify dfyconfig.toml` checks everything.

## What is modelled

| files | part of the program |
|---|---|
| `transaction*.dfy` | `Run` and `CheckPendingRestore` as one state machine: any number of runs and post-boot checks, interleaved, each of which may crash between any two steps, over one marker file, one world and a machine that reboots: its invariant, what it keeps, and exactly which plans it cannot keep safe |
| `namespace.dfy`, `file_writes.dfy`, `rollback.dfy` | the file mutations: exchange, no-replace rename, removal through a private directory, and the loops that apply a plan's actions and undo them. System calls fail, syncs fail after the call took effect, and other processes change public names between any two steps |
| `plugin_trees.dfy`, `plugin_install.dfy` | installing a plugin by moving whole trees, and rolling it back |
| `slash_paths.dfy`, `logical_paths.dfy`, `target_*.dfy`, `delimited.dfy` | the rule for paths, the mapping to targets, and the part of plan validation that keeps targets apart |
| `fingerprints.dfy`, `plugin_fingerprints.dfy`, `plugin_identity.dfy` | the texts that are hashed to bind a plan to a state, and what the hash of a plugin's tree tells of it |
| `planning*.dfy`, `plan_safety.dfy`, `convergence.dfy`, `plan_building.dfy`, `converged.dfy`, `revalidation.dfy` | planning, its separate passes, and the checks that plan again |
| `limits.dfy`, `archive*.dfy`, `staging.dfy` | the archive writer, validator and stager |
| `free_space.dfy`, `staged_recovery.dfy`, `recovery_selection.dfy` | the free-space sum, what is staged for a rollback, and the check that it has its payloads |
| `plugin_names.dfy`, `decky.dfy`, `quiescence.dfy` | holding Decky's plugins stopped during a restore, and releasing them |
| `recovery_key.dfy`, `recovery_protocol.dfy` | looking up, choosing and creating the account's recovery key on a shared store |
| `identities.dfy`, `sequences.dfy`, `sorting.dfy` | what the others share |

A file is its identity: size, SHA-256 and mode. Faults and the moves of other processes are
nondeterministic choices inside the operations, so a contract covers all of them; the fields
`faulty` and `contested` say whether there can be any. Code that updates state is a method proved
against a specification; what is promised about the specification is proved as lemmas.

## What the proofs show about the code

Where a promise of the design fails, the model keeps the code as it is and states exactly when.

- **Crash safety needs two rules, and exactly these two** (`DisciplinedExactly`): in any state that
  rule-abiding executions reach, a step leaves the restore crash safe from then on if and only if it
  does not save a marker while a post-boot check is in flight, and does not leave an announcement of
  the reboot unsynced for a plan that is not self-evident. The marker enforces neither.
- **A post-boot check removes the marker by name, whichever it is.** Saving a marker keeps runs apart,
  and the phase on disk a bound on the damage, if and only if no check is in flight
  (`SerializedExactly`); otherwise a second run of any plan gets in (`SecondRunGetsIn`), and every plan
  of two items or more can be left half restored without a marker (`StaleCheckLeavesAMix`). Two
  launches of the application after one restore are enough (`TwoRunsInSection`, `OneFileOfTwo`).
- **An announcement left unsynced** lets a check retire the marker of a rollback, if what is half
  undone passes for restored. A plan is exposed to that if and only if it is one made for the world
  and is not self-evident there (`ExposedExactly`). Of the plans that planning makes these are the
  ones that install a plugin through Decky, whose trees planning tells apart by name, author and
  version only, or that drop an extra theme of more than its theme.json (`PlansExposedExactly`).
- **Plans without a runtime refresh save no marker** yet remove one. Beside such a run two others get
  into their transactions though both rules are kept (`UnmarkedLetsTwoIn`), and the run itself leaves a
  mix with nothing to tell of it exactly when it has two items or more (`UnmarkedExposedExactly`).
- **A failing run gives up its marker** with the last committed world back, from any stage, unless an item
  was not approved where the run found it, or something could not be put back. Exactly then the marker
  stays until a restore is completed (`GivenUpExactly`, `UncleanKeepsMarker`).
- **A removal ignores the mode of what it moved**, and whose it is: without faults it deletes what it
  moved if and only if the bytes are the recorded ones (`RemoveAppliedCreate`).
- **A removal or a kept setting that fails after it took effect** is not recorded for rollback. When
  rollback reports success something is left if and only if that happened to the action reached, and
  then that one target only (`ApplyOrUndo`). Whatever other processes do meanwhile, no file that is not
  the plan's is lost in a whole run.
- **Rolling back a created plugin can delete a tree that is not the installed one**, exactly when
  its move into quarantine happened, was not synced and nothing kept it there (`RollbackCreated`).
- **Rolling back a replaced plugin whose trees were changed meanwhile** leaves the two trees
  swapped (`RollbackReplaced`).
- **The collision test of plan validation** can, where names are compared as they are, only ever
  find two preserved settings (`OnlySettingsCollide`): everything else is already apart.
- **The free-space sum** is right for every plan exactly when the file-size limit is below 2^62
  (`TrustworthyExactly`); the default limit is 2^27.
- **Planning after a restore** finds nothing to do exactly when, before it starts, whatever lies
  beside a theme.json that is restored without being listed is wanted or goes, and what is wanted
  there will be captured (`FixedPointExactly`).
- **A recovery snapshot made for the plan is refused** exactly when a file's mode changed between
  planning and making it: its making compares content only (`SelectedIsAccepted`).
- **Lookup of the recovery key**: valid and missing do not depend on the order of the listing.
  Invalid and conflict do, for exactly the stores that hold both an object that does not parse and two
  keys that differ (`BadFindingDependsOnOrder`). At most one device wins, but none may
  (`BothCanLose`), a winner can be contested afterwards (`WinnerCanBeContested`), and a
  disagreement is permanent (`DisagreementIsPermanent`).
- **Putting Decky's state back** succeeds, when nothing fails, exactly if the plugins are the original ones
  again: a release after plugins were installed or removed is refused (`HoldAndRelease`).
- **Lists of plugin names** count repetitions towards the limit of 512 (`RepetitionCounts`), and
  replacing a plugin leaves its name twice in the record of the loader.

One promise looks broken and is not. A plugin's name, author and version may hold the separator of the
target fingerprint, and then a row alone can be read as another record's (`PluginRowUnique`). No two
worlds produce such a pair: the hash of the plugin's tree stands before those texts in the row, and
they are read from files of that tree, so the front of the row determines the rest (`ReadTreesTell`,
`TargetTextTold`). Revalidation accepts a world if and only if planning finds there what it found
before, whatever a plugin's metadata holds (`AcceptedExactly`).

## Assumptions

- Crashes are process crashes and reboots; the file system itself does not lose completed calls.
- SHA-256 is injective: a fingerprint is represented by the text it is the hash of.
- A private transaction directory is touched by nobody else, as is a plugin's prepared tree.
- Decky's list of disabled plugins is a store of its own, separate from the bytes of `loader.json`. A
  loader without faults answers, restarts with exactly the listed plugins stopped, installs a plugin in
  place of any of its name, and removes one by name, perhaps from the list as well; a faulty one may do
  anything when it restarts, installs or removes.
- Discovery is represented by what it finds: which paths it captures, which it excludes, which
  themes it lists and which files are artwork. Themes and artwork are never plugin settings.
- The store of recovery keys is linearizable and nothing in it is deleted.
- The manifest's encoding, Unicode normalisation, the archive's path rule and the folding of names
  on case-insensitive systems are parameters.

## Model

| member | source | states |
|---|---|---|
| TransactionTheorems.CrashSafety | internal/restore/run.go:397-863 | Over every interleaving of disciplined runs, checks, crashes and reboots: what is committed is the initial world with a sequence of whole restores applied, and whenever no marker is on disk that is the world, never part of one. |
| TransactionRules.DisciplinedExactly | internal/restore/run.go:397-863 | Conversely, from any state disciplined executions reach: a step, of any process and in any outcome, leaves crash safety intact for all further disciplined executions if and only if it follows the two rules. |
| TransactionRules.FollowingStaysWhole | internal/restore/run.go:397-863 | The safe half, step by step. |
| TransactionRules.UnsyncedIsNotWhole | internal/restore/run.go:809-860 | An announcement left unsynced for a plan that is not self-evident can be retired over a world that is not restored. |
| TransactionTheorems.WholeRestoresOnly | internal/restore/run.go:397-863 | The same from any state that keeps the invariants, which are kept, by induction over the execution. |
| TransactionSafety.StepKeepsInv | internal/restore/run.go:397-863 | Every step of every process, in every outcome (done, refused, done but unsynced), keeps the invariant that ties marker, phase, stages and world together, unless a check acts on a marker other than the one it loaded. |
| TransactionSafety.StepKeepsAwaiting | internal/restore/run.go:809-860 | And that a marker announcing a reboot is over a restored world or over the rollback of a self-evident plan, unless a step leaves an announcement unsynced for another plan. |
| TransactionTheorems.SerializedKeepsInv | internal/restore/run.go:397-863 | So whole executions keep the invariant when no run saves its marker while a check is in flight, whatever is left unsynced. |
| TransactionTheorems.RetiringIsWhole | internal/restore/pending.go:67-77 | What a check commits by retiring its marker is the last committed world with the marker's whole plan restored. |
| TransactionEndings.GivenUpExactly | internal/restore/run.go:519-534 | From any state serialized executions reach, with a run inside its transaction: some execution ends without a marker and without a restore completed since, if and only if, while the run applies, every item of its plan was there as approved, and, while it undoes, nothing has failed and what is not left to undo is as approved; and then one ends with the run gone and the last committed world back. |
| TransactionEndings.CanBeGivenUp | internal/restore/run.go:834-857 | Such a run, at whatever stage it fails, undoes item by item, is confirmed and removes its marker, within every rule. |
| TransactionEndings.UncleanKeepsMarker | internal/restore/run.go:832-857 | After a crash inside the transaction, or a step by which a run fails to put an item back, to release Decky's plugins, to find the approved state again or to remove its marker, the marker is never given up, whatever is found later. |
| TransactionEndings.RetiredSaysSo | internal/restore/pending.go:54-77 | In serialized executions a check retires a marker only once the marker on disk is in the phase of post-boot verification. |
| TransactionEndings.RestoreCompletes | internal/restore/run.go:397-832 | From any state without a marker and without a check in flight, a plan made for the world can be restored whole, through reboot and check, and is then the last one committed. |
| TransactionEndings.RestoresComplete | internal/restore/run.go:397-832 | So any plans, each made for the world the ones before it leave, can all be committed in turn within both rules. |
| TransactionExposure.CheckRetires | internal/restore/pending.go:27-78 | A marker in either awaiting phase over a world that looks converged can be retired by a check of the next boot. |
| TransactionTheorems.MutualExclusion | internal/restore/transaction_marker.go:106-165 | When no run saves its marker while a check is in flight, two runs between saving their marker and giving it up are the same run. |
| TransactionExclusion.SerializedExactly | internal/restore/transaction_marker.go:106-165 | Conversely, from any state serialized executions reach: a step keeps runs apart for all further serialized executions, and likewise the phase a bound on the damage, if and only if it does not save a marker while a check is in flight. |
| TransactionExclusion.SecondRunGetsIn | internal/restore/pending.go:27-78 | A run saves its marker while a check is in flight: a second run of any plan made for the world gets into its transaction beside it, and no other step breaks a rule. |
| TransactionExclusion.SerializedStaysReady | internal/restore/pending.go:67-77 | Why: in serialized executions a check in flight whose marker is gone always finds its plan restored, so nothing stops it from removing the next marker. |
| TransactionExclusion.BoundsAreLost | internal/restore/run.go:434-490 | And a file is written with no marker on disk. |
| TransactionExclusion.RemovalLetsAnotherIn | internal/restore/pending.go:67-77 | Whatever the run's stage, a check about to remove its marker lets another run in. |
| TransactionTheorems.PhaseBoundsTheDamage | internal/restore/run.go:434-690 | In serialized executions a marker at prepared or plugins_quiesced means no target was touched, one before filesystem_convergence that no file was, only the plan's targets ever differ, and without a marker nothing does. |
| TransactionTheorems.CheckNeverHoldsAnActiveMarker | internal/restore/pending.go:27-53 | While a run is active no check has loaded its marker, so a check of the same boot never acts on it. |
| TransactionTheorems.StaleClearBreaksTheRun | internal/restore/pending.go:67-77 | A check that reaches its removal while a run is active always takes away that run's marker and breaks the invariant. |
| TransactionExposure.ExposedExactly | internal/restore/run.go:397-863 | For every plan and initial world: serialized runs of the plan can end without a marker on a world neither initial nor restored if and only if the plan was made for that world and is not self-evident there. |
| TransactionExposure.ExposedByWhat | internal/restore/pending.go:67-77 | That is, if and only if it installs a plugin through Decky or removes a file by evidence that it removes or silences as well. |
| TransactionExposure.SafePlans | internal/restore/run.go:397-863 | The safe half, by induction over executions: only the initial and the restored world are ever left. |
| TransactionExposure.ExposedPlans | internal/restore/transaction_marker.go:171-242 | The other half: for every such plan an execution that ends on the mix. |
| TransactionExposure.UnsyncedIsRetired | internal/restore/transaction_marker.go:171-242 | Wherever an announcement of such a plan is left unsynced: a failing rollback, a crash and a check end with the marker retired over one item half undone. |
| TransactionExposure.ShowsExactlyWhenSelfEvident | internal/restore/pending.go:67-77 | Every half-restored world of a plan, Decky's trees included, shows a mutation to planning if and only if the plan is self-evident. |
| PlannedTransaction.LooksConvergedExactly | internal/restore/convergence.go:57-94 | Half done in any of its files, plugins and kept settings, a restore looks converged to the transaction exactly when planning, and so the post-boot check, finds nothing to do. |
| PlannedFiles.RemovalShows | internal/restore/convergence.go:57-94 | A removal shows, by theme.json or by the artwork itself, exactly while planning would still remove the path. |
| PlannedFiles.FilesQuietExactly | internal/restore/convergence.go:21-101 | No file shows a mutation exactly when planning finds nothing to do with files, extra themes and artwork included. |
| PlannedPlugins.PluginsQuietExactly | internal/restore/plugin_action.go:46-245 | No plugin shows one exactly when planning finds nothing to do with plugins, whatever trees Decky has left. |
| PlannedPlugins.KnownExactly | internal/restore/plugin_action.go:95-130 | Planning tells plugins apart by name, author and version, and by nothing else. |
| PlannedPlugins.SettingsQuietExactly | internal/restore/incompatible.go:14-71 | No kept setting shows one exactly when planning finds nothing to do with them. |
| PlannedTransaction.TransactionIsPlanned | internal/restore/plan.go:146-294 | The transaction of what planning builds, plugins, files and kept settings, is well formed and made for the world it was planned in. |
| PlannedTransaction.PlansExposedExactly | internal/restore/plan.go:146-294 | Of all plans that planning makes and that are not blocked, exactly those are exposed that install a plugin through Decky or drop an extra theme of more than its theme.json. |
| PlannedTransaction.DeckyInstallIsExposed | internal/restore/plugin_action.go:46-161 | Blocked or not, a plan that installs a plugin through Decky is exposed. |
| PlannedTransaction.ExtraThemeIsExposed | internal/restore/convergence.go:57-79 | So is every plan that removes an extra theme of more than its theme.json. |
| TransactionSafety.SelfEvidentMeansDone | internal/restore/pending.go:67-77 | A self-evident plan that looks converged, each target before or after or as Decky left it, is done. |
| TransactionSafety.CheckClearFindsRestored | internal/restore/pending.go:67-77 | A check about to retire the marker it loaded finds the wholly restored world. |
| TransactionSafety.RequestRebootKeeps | internal/restore/run.go:809-860 | The reboot request keeps the invariant in each outcome of its record. |
| TransactionSafety.RebootIsAnnounced | internal/restore/run.go:809-860 | awaiting_reboot is announced over a fully restored world, and an unsynced announcement leaves only a self-evident plan to be undone. |
| TransactionSafety.OneInSection | internal/restore/transaction_marker.go:106-165 | In any state of the invariant at most one process is inside its transaction. |
| TransactionCounterexamples.StaleCheckLeavesAMix | internal/restore/pending.go:27-78 | In any state serialized executions reach with a check in flight and no marker: a run of any plan made for the world, of two items or more, can save its marker, and then with no rule broken end with no marker on a world neither as it was nor restored. |
| TransactionCounterexamples.OneFileOfTwo | internal/restore/pending.go:27-78 | Such a state is reachable: from an empty world, with two launches of the application after one restore, one file of two is left restored. |
| TransactionCounterexamples.TwoRunsInSection | internal/restore/pending.go:27-78 | From there, too, two runs are in their transactions at once. |
| TransactionCounterexamples.AmbiguousRecordLeavesAMix | internal/restore/transaction_marker.go:171-242 | The smallest exposed plan: the removal of a theme of two files can leave a world that is neither the original nor the restored one. |
| UnmarkedRuns.UnmarkedLetsTwoIn | internal/restore/run.go:849-867 | Beside an approved run without a marker, of whatever plan, two runs of whatever plans get into their transactions, though every step of the protocol keeps both rules. |
| UnmarkedRuns.UnmarkedExposedExactly | internal/restore/run.go:683-867 | Crashes of runs without a marker leave a part of their plan if and only if it was made for the world and has two items or more. |
| FileNamespace.Namespace.Inspect | internal/restore/filesystem.go:182-215 | What is reported of a public name is what is there then, or that it could not be read. |
| FileNamespace.PrivateDirectory.Exchange | internal/restore/exchange_linux.go:11-23 | Swaps a private and a public name in one step or changes neither; what comes in and goes out is accounted for. |
| FileNamespace.PrivateDirectory.Publish | internal/restore/filesystem.go:324-329 | Moves a private entry to a public name only where nothing is. |
| FileNamespace.PrivateDirectory.Take | internal/restore/filesystem.go:406-411 | Moves whatever a public name refers to into the private directory. |
| FileNamespace.PrivateDirectory.Close | internal/restore/filesystem.go:138-180 | Deletes only what is kept privately, and nothing at all once retained. |
| FileWrites.Stage | internal/restore/filesystem.go:272-299 | Without faults a payload is staged exactly when the source has the promised content. |
| FileWrites.CommitReplace | internal/restore/filesystem.go:300-347 | Success means the approved original was displaced and the payload verified at the target; what was displaced and is neither goes back or is retained. |
| FileWrites.ConfirmExchange | internal/restore/filesystem.go:307-373 | After the exchange: both objects are looked at, and it is kept, reversed or retained. |
| FileWrites.Reverse | internal/restore/filesystem.go:309-347 | A failed commit is exchanged back; without interference and faults the displaced object returns to the target. |
| FileWrites.CommitCreate | internal/restore/filesystem.go:323-361 | Creating moves the payload to a free name, takes nothing, and is verified or retained. |
| FileWrites.Withdraw | internal/restore/filesystem.go:349-360 | A created target that failed verification is moved away, and stays unless it is the payload. |
| FileWrites.DiscardBackup | internal/restore/filesystem.go:362-373 | The displaced original is looked at again before it may be deleted; an unexpected one retains the directory. |
| FileWrites.AtomicWrite | internal/restore/filesystem.go:233-375 | With others replacing, deleting and creating between any two steps, no object of another identity is lost: it is back at a public name or in a retained directory; only the two approved identities are deleted; alone and without faults the write succeeds exactly when target and source are as approved, and otherwise changes nothing. Success is reported only when no system call failed. |
| FileWrites.RestoreMoved | internal/restore/filesystem.go:426-438 | Reports success only when the moved file is durably back with its content; without faults the file is back at its name unless something else is there. |
| FileWrites.CommitRemoval | internal/restore/filesystem.go:397-424 | A removal retains its directory exactly when it is inconclusive; otherwise what it moved is deleted, and without faults that is exactly on the recorded bytes; a file with other bytes is then back at its name unless something else is there. |
| FileWrites.RemoveAppliedCreate | internal/restore/filesystem.go:377-424 | Nothing with other bytes is lost or deleted under interference; what was moved is deleted, without faults, if and only if it has the recorded bytes, whatever its mode and whoever put it there; alone and without faults it succeeds exactly when the target is absent or as recorded; success is reported only when no system call failed. |
| Rollback.UndoReversesApply | internal/restore/run.go:891-932 | The write or removal rollback builds, with its swapped identities, starts from what applying left and aims at what was there. |
| Rollback.ApplyAction | internal/restore/run.go:683-797 | One action: without other writers applied and recorded, or failed with the target at one of its two identities, and unless it can be left, unrecorded means unchanged; with them, no file that is not the action's is lost. |
| Rollback.UndoAction | internal/restore/run.go:891-932 | Without other writers a reported success shows the original at the target and changes nothing else, and without faults it succeeds from what applying left; with them nothing else is lost. |
| Rollback.ApplyActions | internal/restore/run.go:683-797 | The applied list is the mutating prefix; without other writers those before the failure show their result and those after it are untouched; with them nothing that is not the plan's is lost; all are applied only when no system call failed. |
| Rollback.RollbackApplied | internal/restore/run.go:891-932 | In reverse order and past failures: without other writers success means every recorded target shows its original, and nothing else differs; with them nothing else is lost; success is reported only when no system call failed. |
| Rollback.RollbackCovers | internal/restore/run.go:891-932 | Rolling back what was recorded covers every action, recorded or not, except the one reached. |
| Rollback.ApplyOrUndo | internal/restore/run.go:683-932 | Any plan with distinct targets, stopped anywhere: without other writers restored whole, or undone; undone, something is left if and only if the action reached took effect unrecorded, and then only its target, at its result; whatever others do, by the ledger of all private directories every file a whole run takes that is not the plan's is back at a public name or retained, never deleted. |
| PluginTrees.PluginSpace.MoveNoReplace | internal/restore/rename_noreplace.go:18-36 | A tree moves only to a free path; a failed sync is told apart from a refused move. |
| PluginTrees.PluginSpace.Exchange | internal/restore/plugin_install.go:433-451 | Two trees are swapped in one step, durably, uncertainly or not at all. |
| PluginTrees.PluginSpace.Take | internal/restore/plugin_install.go:269-279 | A tree moves into an empty quarantine whole. |
| PluginTrees.PluginSpace.Close | internal/restore/filesystem.go:138-180 | Deletes what is quarantined unless retained. |
| PluginInstall.PublishReplacement | internal/restore/plugin_install.go:71-114 | Exchange, check of the displaced tree and preservation: succeeds, alone and without faults, exactly on the approved original; any failure not started leaves both paths as they were; with other writers too, what is preserved is the approved original. |
| PluginInstall.ReverseExchange | internal/restore/plugin_install.go:89-114 | An unexpected displaced tree is exchanged back, or the failure is reported as started. |
| PluginInstall.Withdraw | internal/restore/plugin_install.go:118-157 | After a failed verification the preserved plugin is put back and only a tree found to be the installed one is deleted; without faults a tree that is not is back at the target or its place is taken. |
| PluginInstall.InstallPrepared | internal/restore/plugin_install.go:25-159 | Installs exactly over the approved original; a failure that is not started leaves target and preserve path untouched; only the installed tree is ever deleted, and unless the result is incomplete what is left for deletion is the prepared tree or nothing; success is reported only when no system call failed. |
| PluginInstall.RollbackCreated | internal/restore/plugin_install.go:269-290 | Success means the target is gone; alone and without faults it succeeds exactly on the installed tree; a tree that is not the installed one is deleted if and only if its move into quarantine took effect unsynced and nothing kept it there, which takes a fault; without faults any other tree is back at the target or its place is taken. |
| PluginInstall.RollbackReplaced | internal/restore/plugin_install.go:392-431 | Success brings the preserved tree back to the target; without faults it succeeds exactly when both trees are in place, and otherwise leaves them swapped. |
| PluginInstall.RollbackItem | internal/restore/plugin_install.go:227-293 | Either kind: success means the approved original is back, exactly on a revocable item; for a replaced plugin, or without faults, only the installed tree is deleted; what is no directory is left alone. |
| PluginInstall.RollbackInstalled | internal/restore/plugin_install.go:227-293 | Any list of separate items, in reverse and past failures: alone, success exactly when each was revocable, all originals back, nothing else touched; with other writers too, only installed trees are deleted, given no faults or only replaced plugins; success is reported only when no system call failed. |
| PluginInstall.InstallThenRollback | internal/restore/plugin_install.go:25-293 | Installing and rolling back, with faults anywhere: a rollback that reports no failure leaves the approved fingerprint at the target, and after a completed installation the very trees that were there; under the same conditions only the prepared tree is deleted, with other writers too. |
| SlashPaths.CleanExactlyWhenPlain | internal/manifest/manifest.go:324-327 | Being its own cleaning without traversal is having only segments other than empty, "." and "..". |
| LogicalPaths.AcceptedExactlyWhenOrdinary | internal/manifest/manifest.go:300-343 | A path is accepted exactly when it is normalised, short enough and every segment is ordinary; the checks on the whole string add nothing. |
| LogicalPaths.AcceptedIsPlain | internal/manifest/manifest.go:300-343 | An accepted path stays below where it is resolved. |
| TargetPaths.DeckyTargets | internal/restore/plan.go:408-425 | Settings, plugin data and themes are mapped below Decky's home, segment by segment. |
| TargetPaths.LibraryTargets | internal/restore/plan.go:408-425 | And library artwork below Steam's cache. |
| TargetPaths.UserdataTargets | internal/restore/plan.go:426-434 | A user's artwork is mapped exactly when a number and grid lead to it, into that user's grid. |
| TargetPaths.OtherTargets | internal/restore/plan.go:435-438 | Reports are left out, and nothing else is supported. |
| TargetPaths.UnmapMapTarget | internal/restore/plan.go:408-438 | The logical path can be read back from its target. |
| TargetPaths.MapTargetInjective | internal/restore/plan.go:408-438 | Two accepted paths with one target are one path. |
| TargetPaths.TargetBeneathRoot | internal/restore/plan.go:408-438 | A target lies strictly beneath its root, and the root strictly beneath Decky's or Steam's directory. |
| TargetPlan.Registry.Add | internal/restore/plan.go:746-756 | A place is refused exactly when another owner has claimed it under the folding of names. |
| TargetPlan.AddClaims | internal/restore/plan.go:580-587 | Adding claims one by one refuses exactly the lists with a collision. |
| TargetPlan.AddList | internal/restore/plan.go:505-692 | Each of a plan's three lists passes exactly when its items are valid, distinct and without a collision. |
| TargetPlan.ValidateTargets | internal/restore/plan.go:502-692 | Accepts exactly the plans whose entries are well formed and whose files, plugins, preserve paths and preserved settings claim pairwise different places. |
| TargetCollisions.OnlySettingsCollide | internal/restore/plan.go:502-756 | With names compared as they are, a well-formed plan collides exactly when two of its preserved settings do. |
| TargetCollisions.NothingCollides | internal/restore/plan.go:502-756 | And never when their logical paths are accepted ones. |
| Fingerprints.WriteRecords | internal/restore/plan.go:452-467 | The loop writes the rows of its records in order. |
| Fingerprints.FingerprintTargets | internal/restore/plan.go:452-467 | The hashed text is the rows of files, plugins, kept settings and guard, in that order. |
| Fingerprints.FieldsInjective | internal/restore/plan.go:452-467 | Field count and tag tell the four kinds apart, and the fields, decimal numbers included, give back the record. |
| Fingerprints.TargetTextTold | internal/restore/plan.go:452-467 | Equal texts come from the same files, plugins, settings and guard, of any numbers, when plugin rows that agree up to the tree's hash agree as a whole; what follows the hash may hold any character. |
| Fingerprints.LineIsTold | internal/restore/plan.go:457-459 | Such a row can be read off the front of any text, whatever follows. |
| Fingerprints.TargetTextInjective | internal/restore/plan.go:452-467 | For bare records: equal texts come from the same files, plugins, settings and guard when plugin texts hold no NUL; line feeds in them do no harm. |
| Fingerprints.NulIsAmbiguous | internal/restore/plan.go:457-459 | A NUL in any text of a plugin yields another bare record with the same row, which no world need produce. |
| Fingerprints.PluginRowUnique | internal/restore/plan.go:457-459 | Among bare records, a plugin's row belongs to no other plugin record if and only if none of its texts holds a NUL. |
| Fingerprints.TargetTextUnique | internal/restore/plan.go:452-467 | Among bare records, the whole text belongs to nothing else of its shape if and only if no plugin text holds a NUL. |
| Fingerprints.LineIsPrefix | internal/restore/plan.go:452-467 | A row can be read off the front of any text, kind and all. |
| PluginFingerprints.Visit | internal/restore/plugin_action.go:279-329 | One entry of the walk is accepted exactly when its path and kind are in order and its size still fits. |
| PluginFingerprints.FingerprintTree | internal/restore/plugin_action.go:263-336 | A tree has a fingerprint exactly when every entry is in order, the sizes fit and it holds a file; count and size are the true ones. |
| PluginFingerprints.PathRuleReadable | internal/manifest/manifest.go:300-343 | No path the rule accepts holds a separator of the text. |
| PluginFingerprints.TreeTextInjective | internal/restore/plugin_action.go:290-329 | Two trees have one text exactly when they hold the same entries, up to modes in the form without them. |
| PluginFingerprints.FullImpliesContent | internal/restore/plugin_action.go:317-327 | Equal full texts imply equal texts without modes. |
| PluginFingerprints.FormsNeverAgree | internal/restore/plugin_action.go:317-327 | A text with modes never equals one without. |
| PluginIdentity.ReadTells | internal/restore/plugin_action.go:263-336 | Two plugins read from their trees have one fingerprint exactly when the walks found the same; then name, author, version, count and size agree. |
| PluginIdentity.ReadTreesTell | internal/pluginstore/package.go:260-281 | So in any two worlds the fingerprint of a plugin's tree, which is never empty, tells its name, author and version, whatever characters they hold. |
| Planning.PlanUnique | internal/restore/plan.go:183-285 | One world has one plan, in whatever order its parts were found and ties were sorted. |
| Planning.SettledExactly | internal/restore/plan.go:127-144 | A plan without mutations and blocks is exactly a world in which everything it would list is unchanged. |
| Convergence.Add | internal/restore/convergence.go:42-56 | A removal is refused exactly when the file is unwanted and cannot be removed safely. |
| Convergence.RemoveTheme | internal/restore/convergence.go:57-79 | An extra theme is collected exactly when nothing below it is excluded, something is captured and all may go. |
| Convergence.RemoveThemes | internal/restore/convergence.go:57-79 | Over all extra themes: the collected paths are those below them that are not wanted. |
| Convergence.RemoveArtwork | internal/restore/convergence.go:80-94 | Extra artwork that is not wanted is added, or the whole is refused. |
| Convergence.CollectedExactly | internal/restore/convergence.go:21-101 | The paths the passes collect are exactly those of whole extra themes and extra artwork. |
| Convergence.BuildConvergenceActions | internal/restore/convergence.go:21-101 | Succeeds exactly when convergence is possible, and lists exactly the removals called for, once each and in order. |
| PlanBuilding.BuildFileActions | internal/restore/plan.go:183-195 | One action per restored file, or nothing when a file has no place to go. |
| PlanBuilding.SplitIncompatible | internal/restore/incompatible.go:14-72 | Exactly the settings of plugins whose version changed are taken out of the actions, each with what is kept aside; what that means for the installed plugin is SettingsFitExactly. |
| PlanBuilding.CountNames | internal/restore/plugin_action.go:185-194 | For each display name how many plugin directories bear it, those whose metadata is incomplete included. |
| PlanBuilding.ResolvedActions | internal/restore/plugin_action.go:46-161 | One action per plugin of the snapshot. |
| PlanBuilding.ExtraPlugin | internal/restore/plugin_action.go:195-242 | An extra plugin is removed through Decky exactly when it is fully identified, no other directory bears its name and Decky works; otherwise it blocks. |
| PlanBuilding.AddExtraActions | internal/restore/plugin_action.go:162-245 | Together with the resolved ones, the plugin actions are exactly those planned. |
| PlanBuilding.BindGuard | internal/restore/plan.go:296-318 | What Decky would mutate is blocked, action by action, exactly when its loader's settings cannot be guarded. |
| PlanBuilding.RemainingIsPlanned | internal/restore/plan.go:183-229 | What the file pass and the convergence pass leave after the settings are taken out is what is planned. |
| PlanBuilding.BuildPlan | internal/restore/plan.go:146-294 | Succeeds exactly when planning is possible, and then builds the plan of the world. |
| PlanSafety.WantedFiles | internal/restore/plan.go:357-406 | A file of the snapshot is created only where nothing is, left when it has the content, and blocked exactly when its target is sealed or unsafe; otherwise replaced. |
| PlanSafety.UnwantedFiles | internal/restore/convergence.go:21-101 | Any other file action removes captured artwork or a captured file below an extra theme, with the identity that is there. |
| PlanSafety.RemovalsCovered | internal/restore/convergence.go:21-101 | And every such file has its removal. |
| PlanSafety.KeptSettings | internal/restore/incompatible.go:40-66 | A setting is kept aside only where nothing is, unchanged only where its content already is, and otherwise blocked. |
| PlanSafety.ResolvedPlugins | internal/restore/plugin_action.go:46-161 | Exactly when a plugin of the snapshot is created, replaced, left or blocked: only the official plugin is ever replaced, by another version, by moving trees exactly when they can be written and are owned, else through Decky. |
| PlanSafety.ExtraPlugins | internal/restore/plugin_action.go:195-242 | Any other plugin is removed, through Decky, exactly when it is fully identified, the only one of its name, and Decky works with its loader's settings guarded; otherwise it blocks. |
| PlanSafety.PluginsCovered | internal/restore/plugin_action.go:46-245 | Every plugin of the snapshot and every live one has an action. |
| PlanningFixpoint.FixedPoint | internal/restore/plan.go:126-294 | After a plan that was not blocked has been carried out, with a manifest that lists its themes, planning again finds nothing to do. |
| PlanningFixpoint.FixedPointExactly | internal/restore/convergence.go:57-79 | For any manifest: nothing to do if and only if, before the restore, whatever lies beside a theme.json restored without being listed is wanted or will be removed, and what is wanted there will be captured. |
| PlanningFixpoint.SettingsFitExactly | internal/restore/incompatible.go:14-29 | After a restore a plugin's settings from the snapshot are in place if and only if the plugin then installed has the version they were made for, or none; otherwise they are kept aside. |
| PlanningFixpoint.SettingsArePlaced | internal/restore/incompatible.go:14-72 | With the snapshot's content in either place, and the file in use left as it was when they are kept aside. |
| Converged.CheckFiles | internal/restore/converged.go:27-51 | The pass over the files accepts exactly when each is converged. |
| Converged.VerifyConverged | internal/restore/converged.go:18-69 | Accepts exactly when planning again would find nothing to do and every kept setting has the mode it was written with, 0600; so acceptance implies the post-boot check. |
| Converged.CheckRestored | internal/restore/pending.go:67-73 | The post-boot check accepts exactly when planning again finds nothing to do. |
| Converged.RestoreVerifies | internal/restore/converged.go:18-69 | A carried-out plan passes the post-boot check, and the restore's own check except when a setting kept aside earlier has another mode. |
| Revalidation.Revalidate | internal/restore/revalidate.go:28-78 | Accepts exactly when the plan of the present world has the approved fingerprint; so in an unchanged world always. |
| Revalidation.AcceptedExactly | internal/restore/revalidate.go:28-78 | For any two worlds, whatever a plugin's metadata holds: the plans made for them have one fingerprint if and only if planning found the same in both, in the same places and up to whose a plugin's tree is, does the same about it, and, if Decky is to mutate a plugin, found the same loader settings in the same place; otherwise the loader does not matter. |
| Revalidation.AcceptedIsUnchanged | internal/restore/revalidate.go:28-78 | So if it accepts in any world, every file, every plugin with its name, author and version, every kept setting and, if Decky is to mutate a plugin, the loader's settings file are in the state the plan recorded. |
| Revalidation.PluginRecordTells | internal/restore/plan.go:457-459 | A plugin's row by itself gives back fingerprint, version, count and size of the plugin that is there, and of one to be removed its name and author. |
| Revalidation.SameAims | internal/restore/plan.go:452-467 | What a file action aims at need not be recorded: with one snapshot that names each file once, equal findings give equal file actions. |
| ResourceLimits.Counter.Add | internal/limits/limits.go:60-76 | Refuses exactly the size that would break a bound of the whole list, and never overflows. |
| ResourceLimits.RatioTestExact | internal/snapshot/snapshot.go:474-476 | The test by division decides total > ratio * compressed. |
| ArchiveValidation.CheckEntry | internal/snapshot/snapshot.go:416-448 | An entry is accepted exactly as a fresh declared one; a refusal spoils the archive and is never the counter's. |
| ArchiveValidation.ScanEntries | internal/snapshot/snapshot.go:416-457 | The entries pass exactly when they are a permutation of the declared files with their sizes and hashes. |
| ArchiveValidation.CounterAccepts | internal/snapshot/snapshot.go:433-436 | The counter accepts every entry with a fresh declared name and the declared size. |
| ArchiveValidation.ExactlyWhenComplete | internal/snapshot/snapshot.go:454-457 | Distinct, declared and as many is being exactly the declared files. |
| ArchiveValidation.ValidateManifest | internal/manifest/manifest.go:161-298 | Accepts exactly the manifests whose files are named once, each with an accepted path, a size, a component and 64 hexadecimal digits. |
| ArchiveValidation.ValidateManifestLimits | internal/snapshot/snapshot.go:513-545 | Accepts exactly what is within the bounds, without overflow in the running total. |
| ArchiveValidation.ReadManifest | internal/snapshot/snapshot.go:381-415 | Returns the manifest an archive leads with, exactly if it can be accepted. |
| ArchiveValidation.CheckRatio | internal/snapshot/snapshot.go:474-476 | Decides the compression bound exactly. |
| ArchiveValidation.ValidateArchive | internal/snapshot/snapshot.go:323-478 | Accepts exactly the acceptable archives and returns their manifest. |
| ArchiveWriting.ValidateCandidates | internal/snapshot/snapshot.go:285-311 | Accepts exactly one candidate for each declared file, each with its source. |
| ArchiveWriting.WriteArchive | internal/snapshot/snapshot.go:140-181 | Writes the manifest and all candidates exactly when none changed while being read. |
| ArchiveWriting.WrittenHoldsExactly | internal/snapshot/snapshot.go:140-256 | What is written of valid, unchanged candidates is exactly the declared files. |
| ArchiveWriting.Create | internal/snapshot/snapshot.go:46-138 | Round trip: validating what was written returns the manifest written, whenever the archive is within size and ratio. |
| Staging.StageEntries | internal/snapshot/stage.go:98-191 | The second reading passes only over the declared files, and stages exactly those requested. |
| Staging.CleanUp | internal/snapshot/stage.go:100-104 | Removes every payload the stage created, so that without faults none is left. |
| Staging.StageSelected | internal/snapshot/stage.go:32-217 | Stages exactly the requested files with the manifest's identities, or nothing, even when the archive changes between the two readings; what was written before a failure is removed again, without faults all of it; it takes an intact second reading of the same file, led by a manifest of the allowed size. |
| Staging.OwnPayloads | internal/snapshot/stage.go:157-185 | No two staged files share a payload. |
| Staging.StagedCarries | internal/snapshot/stage.go:157-185 | What is staged for a name has the length and the hash that the inventory declares for it. |
| FreeSpace.Budget.Add | internal/restore/plan.go:738-744 | Adds exactly when the amount is not negative and the total stays in range. |
| FreeSpace.RequiredFreeBytes | internal/restore/plan.go:230-269 | Computes the wrapped sum, stopping at the first refusal. |
| FreeSpace.RequiredIsCopies | docs/restore-safety-v1.md:90 | What is required is the reserve and every recovery archive, staged payload, write transaction, package download and extraction, and preserved plugin that can exist at once. |
| FreeSpace.CaughtExactly | internal/restore/plan.go:230-269 | The only charge that is wrong and yet passes is a file's between 2^64 and 2^64 + 2^63 - 1. |
| FreeSpace.ComputedIsRequired | internal/restore/plan.go:230-269 | When every charge is caught the result is the unbounded sum, or an error if that is out of range. |
| FreeSpace.TrustworthyExactly | internal/restore/plan.go:230-269 | The sum is right for every plan within a file-size limit if and only if the limit is below 2^62. |
| FreeSpace.WrapsToNothing | internal/restore/plan.go:239-245 | Two files of 2^62 bytes require nothing beyond the base. |
| StagedRecovery.CheckPlugin | internal/restore/recovery.go:191-215 | A plugin passes exactly when its declared files are safe and add up to what was approved, without overflow. |
| StagedRecovery.ValidateStagedRecovery | internal/restore/recovery.go:165-226 | Accepts exactly when everything a rollback can need is declared as approved and exactly that is staged. |
| StagedRecovery.RollbackLacksNothing | internal/restore/run.go:900-919 | Once accepted, rollback never meets a missing or a wrong payload: not for a file, not for the loader's settings, and a plugin that Decky replaces or removes has all its files, as many and as large as approved and writable by nobody else. |
| StagedRecovery.SafeModeDigits | internal/restore/recovery.go:202-204 | The modes refused are those with a write bit in the octal digit of group or others. |
| RecoverySelection.SelectRecovery | internal/restore/run.go:347-366 | Selects exactly what a rollback may ask for, each path once. |
| RecoverySelection.SelectedIsAccepted | internal/restore/recovery.go:31-52 | A recovery snapshot built for the plan with the selection staged whole is accepted if and only if no file's mode changed between planning and its making. |
| PluginNames.CanonicalPluginNames | internal/restore/decky_quiescence.go:200-217 | Safe names once each and sorted; refused when unsafe or more than 512. |
| PluginNames.EqualNamesExactly | internal/restore/decky_quiescence.go:219-231 | Lists are equal exactly when both are acceptable and name the same plugins. |
| PluginNames.RepetitionCounts | internal/restore/decky_quiescence.go:200-217 | A repetition names nothing new, yet takes a full list over the limit. |
| Quiescence.Record.RemoveStatus | internal/restore/decky_quiescence.go:260-268 | Filters the inventory in its own array; the original inventory keeps its contents. |
| Quiescence.Record.ReplaceStatus | internal/restore/decky_quiescence.go:270-273 | Filters and appends; the original inventory keeps its contents. |
| Quiescence.PlanQuiescence | internal/restore/decky_quiescence.go:40-69 | The record holds the live state, and its temporary list names every plugin besides those disabled; without faults there is one exactly when the state is orderly and fits. |
| Quiescence.Quiesce | internal/restore/decky_quiescence.go:71-83 | Success means every plugin of the record runs disabled and is listed; without faults it succeeds exactly when the record names the running plugins and lists them. |
| Quiescence.KeepDisabled | internal/restore/decky_quiescence.go:85-99 | The list gains exactly the new name, in record and loader alike; a failure leaves the record; without faults only a list that does not fit fails. |
| Quiescence.SynchronizeQuiescence | internal/restore/decky_quiescence.go:110-120 | Success means the loader runs exactly the expected plugins, all disabled, and the record names the loader's list; without faults it succeeds exactly then. |
| Quiescence.VerifiedDisabledState | internal/restore/decky_quiescence.go:165-198 | What is returned is the loader's list, with every expected plugin on it and stopped; a working loader in that state is always accepted. |
| Quiescence.VerifyOriginalState | internal/restore/decky_quiescence.go:132-163 | Acceptance means plugins, list and flags are the original ones; a working loader in that state is always accepted. |
| Quiescence.RestoreOriginal | internal/restore/decky_quiescence.go:125-130 | Success means that no request reported a failure and plugins, list and every effective flag are those recorded; without faults it succeeds exactly when the running plugins are the original ones. |
| DeckyPlugins.Decky.SetDisabledPlugins | internal/deckyapi/client.go:271-297 | Only a list of safe names, each once and within the limit, is ever sent, and success means it is stored. |
| Quiescence.Mutate | internal/restore/run.go:559-645 | After a remove, create or replace through Decky whose synchronisation succeeds, the record names the loader's inventory and all of it is on the temporary list; without faults it succeeds from such a state while the lists have room, and the plugins are those before with the one gone or there. |
| Quiescence.Converge | internal/restore/run.go:559-645 | So after any sequence of them, and the original inventory never changes; without faults, and with room for all, every one succeeds. |
| Quiescence.ConvergeQuietly | internal/restore/run.go:500-645 | The same from a loader that was just quiesced. |
| Quiescence.HoldAndRelease | internal/restore/decky_quiescence.go:40-163 | Plan, quiesce, mutate, restore: when restoring reports success, the disabled list and every plugin's flag are those planning saw; without faults and with room everything succeeds, and restoring exactly if the mutations leave the original plugins. |
| RecoveryKey.LookupRecoveryObject | internal/cloud/appdata.go:59-106 | The loop finds what the list of objects amounts to, in its order. |
| RecoveryKey.ValidExactly | internal/cloud/appdata.go:59-106 | Valid exactly when there is an object, every object parses and all carry one fingerprint. |
| RecoveryKey.ValidAnyOrder | internal/cloud/appdata.go:59-106 | Valid and missing do not depend on the order. |
| RecoveryKey.BadFindingDependsOnOrder | internal/cloud/appdata.go:83-104 | All orders of a store have one finding if and only if no object is broken or all that parse carry one fingerprint. |
| RecoveryKey.NewKeyExactly | internal/cloud/connection.go:86-126 | New material is generated exactly when nothing is stored, no snapshot is visible, setting up was confirmed and nothing imported; a stored key is never overridden. |
| RecoveryKey.ImportExactly | internal/cloud/connection.go:90-116 | An imported key is taken exactly when the store is empty and snapshots are visible or setting up was confirmed, when what is stored was found invalid, or when it is the stored key; it is created only in an empty store. |
| RecoveryKey.NoImportExactly | internal/cloud/connection.go:90-126 | Without one, connecting succeeds exactly with the stored key, or with new material in an empty store. |
| RecoveryKey.ConflictSelectsNothing | internal/cloud/connection.go:98-99 | Among stored keys that differ none is selected, whatever was imported, unless something stored does not parse. |
| RecoveryProtocol.AppData.CreateRecoveryObject | internal/cloud/appdata.go:108-178 | Once the posting is answered, success is exactly that every object there carries one key; one's own is among them, and an object once posted stays. |
| RecoveryProtocol.AtMostOneWinner | internal/cloud/appdata.go:108-178 | For any number of devices with different keys and any interleaving, at most one succeeds. |
| RecoveryProtocol.CreatesExactly | internal/cloud/connection.go:86-126 | A device goes on to post its key exactly when it found nothing stored and its request allows it, whatever is stored by the time it posts. |
| RecoveryProtocol.OnlyAnsweredCanWin | internal/cloud/appdata.go:150-177 | A device whose request was not answered never succeeds, though its key is stored when only the answer was lost. |
| RecoveryProtocol.DisagreementIsPermanent | internal/cloud/appdata.go:59-178 | Two different keys in the store are never resolved: no later lookup is valid or missing and nobody ever succeeds. |
| RecoveryProtocol.BothCanLose | internal/cloud/appdata.go:108-178 | Two devices can post before either reads back; neither succeeds. |
| RecoveryProtocol.WinnerCanBeContested | internal/cloud/appdata.go:108-178 | After one has succeeded another that decided earlier can still post. |

## Left out

- TransactionTheorems.CrashSafety: for executions that follow the two rules, which DisciplinedExactly shows to be necessary.
- TransactionTheorems.WholeRestoresOnly: for the same executions.
- TransactionTheorems.MutualExclusion: for serialized executions, which SerializedExactly shows to be necessary.
- TransactionTheorems.PhaseBoundsTheDamage: likewise.
- UnmarkedRuns.UnmarkedExposedExactly: which plans need no refresh depends on the component names a manifest gives; here they are the plans without plugins.
- Fingerprints.TargetTextTold: fields before the hash of a plugin's tree, and those of other rows, hold no separator, and no file's path is a tag, as file names, the rule for paths and the mapping see to.
- Fingerprints.TargetTextInjective: about bare records under the same condition, with no NUL in a plugin's texts; for what worlds produce see TargetTextTold.
- Fingerprints.TargetTextUnique: about bare records in lists of the same lengths; no world produces the confused ones.
- Fingerprints.PluginRowUnique: about bare plugin records, likewise.
- Revalidation.AcceptedExactly: whose a plugin's tree is, is not in the fingerprint and not compared. What equal hashes say of two trees is the premise TreesTell, which ReadTreesTell derives for trees read as they are hashed, plugin.json and package.json among them. In a blocked row the code also keeps the name and author of a removal that lacks the loader guard, and the hash of a tree whose metadata is incomplete; a blocked plan is never run.
- Revalidation.AcceptedIsUnchanged: under the same premise.
- Rollback.ApplyOrUndo: what success means is said without other writers; with them, what is not lost.
- PluginInstall.RollbackInstalled: what success means is said without other writers; with them, what is not deleted.
- PluginInstall.InstallThenRollback: the same.
- Rollback.ApplyActions: created directories are left behind and not modelled.
- ArchiveValidation.ValidateManifest: the checks of fields other than the list of files are one flag.
- Staging.StageSelected: when the first entry ends short of its size without a read error the code returns no error and nothing staged; the tar reader always reports one, so the model refuses.
- PluginInstall.InstallPrepared: a plugin tree is compared by fingerprint, file count and size, as the program does.
- Quiescence.Mutate: in a faulty loader the plugin operation may do anything to plugins and list; only what the following synchronisation demands is known afterwards. Plugins replaced by moving trees do not pass through here.
- RecoveryKey.LookupRecoveryObject: a failed listing is an error before any finding and not modelled; a failed download counts its object as one that does not parse.
- RecoveryProtocol.AtMostOneWinner: every lookup reads the store as it is; a download that fails can only turn a valid finding into an invalid one.
- Installing, removing and rolling back plugins through Decky's own API, the loader-settings guard's creation, and plugin downloads.
- Physical path checks: symbolic links, ownership, reparse points and the Windows variants of the moves; a safe regular file is one case, everything else another.
- The bytes of tar, gzip, JSON and HTTP, Unicode normalisation tables, and upper-casing beyond ASCII.
- Power loss: the marker's save does not sync its directory after the rename.
- Discovery's own scan (secrets, images, exclusion rules), the reports, the retention of private run directories, the command line, OAuth, Drive requests, the updater, and logging.
