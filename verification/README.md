# Forge: verified models of its stateful cores

Dafny models, with proofs, of the parts of Forge whose promise is undo, agreement or a bound. Each module
follows one source file or one concern (`Wrappers` and `Ordering` are helpers); code that changes things in
place is a class or a method with the same loops, proved against a function on values, and the laws are proved
about that function. Concurrency is modelled as a total step function over the steps of any number of processes
or tasks; a theorem about all step sequences is a theorem about all interleavings. The `Outcome` and `Verdicts`
modules say what the operations mean without the words of the operations.

| part | files |
|---|---|
| reversible settings merge | `Json`, `SettingsModel`, `SettingsMerge`, `SettingsUnmerge`, `SettingsRoundTrip`, `SettingsLaws`, `SettingsTwoPaths`, `SettingsStore`, `SettingsPlan`, `SettingsOutcome` |
| installer: plan, init, update, uninstall, whole runs | `FileSystem`, `InstallModel`, `Installer`, `InstallLaws`, `InstallRuns`, `InstallRoundTrip`, `InstallOutcome` |
| policy engine and its persisted state | `PolicyModel`, `PolicyEngine`, `PolicyRuns`, `PolicyVerdicts` |
| shared files under locks, shared ports, shared cache | `LockedUpdates`, `Registries`, `ProxyDelete`, `ClientCache` |
| terminal layout | `AnsiText`, `DisplayWidth`, `StatusLine`, `StatusWrap` |
| configuration layers and metrics | `ConfigMerge`, `Metrics` |

The relations `InitResult`, `UpdateResult` and `UninstallResult` say every way a command may end; the methods of
`Installer` are proved to end in one of them, so no theorem about them is about nothing.

`dafny verify dfyconfig.toml` checks everything.

## Where the code and its promises part

Each of these is stated exactly, as an if-and-only-if or with a concrete input.

- A `statusLine` that is present but null is overwritten by an enable and not put back by uninstall
  (`OwnBackupServes`). A leftover backup is read as the original when there was no settings file, so then the
  condition is about that backup (`EnableThenUninstall`).
- Uninstall reads the newest added file only. With an env preset, a repeated enable hides what the first one
  added; without one, the fallback by entries still restores (`RepeatThenUninstall`).
- The fallback deletes a tracked scalar instead of restoring it, drops overridden env values and leaves an
  empty hook entry in place (`EnableThenFallback`, `TwoPathsAgree`).
- The guards against sections of the current settings that are not objects protect the removal, not the cleanup
  that follows it (`GuardsDoNotReachCleanup`). The cleanup also iterates over the backup's sections
  (`UninstallFits`).
- `init` merges hooks and permissions whatever modules were chosen, so a plan can be silent about entries the
  merge will record (`UnannouncedEntries`). A plan without conflicts does not keep the merge from stopping after
  files were written: the plan does not look at the lists of modules that were not chosen (`PlanMissesShape`), and
  where it looks it takes a string or object for a list (`PlanMissesText`). `PlanGap` and `ConflictFreePlanIsSafe`
  say exactly when it is safe.
- `truncate_ansi` returns a text unchanged in one more case than "it fits": exactly as wide as allowed and
  already ending in the dots (`TruncationUnchanged`). A variation selector 16 adds a column without a bound check;
  `TruncationBound` says exactly when the width is passed, `OneSelectorOverruns` gives a family for every width.
- A gated skill stays installed under a lower profile while a file of it is tracked. When the skill has become a
  single file of the same name, init installs that file and the next update does not plan it any more
  (`UpdateAfterInitChangesNothing`, `AFileIsLetThrough`).
- `_wrap_output` is said to fall back to truncation when the first segment alone is too wide; it does so only
  when there is one segment (`EveryLineFits`).
- A supervisor that raises under fail-open counts as having resolved a review (`FailOpenDropsRaising`).
- A proxy delete whose directory removal fails restores its registry entry, but another deleter may have
  decided in between to stop the server (`FailedRemovalRacesKill`).
- `invalidate_and_retry` calls `get_client` while it holds the lock that `get_client` waits for
  (`InvalidationBlocks`).
- `deep_merge` skips nulls of the overlay except inside mappings that the base does not have (`NullsSurvive`),
  and is not associative when a leaf separates two mappings (`AssociativeWhere`).

## Model

| member | source | states |
|---|---|---|
| Json.DeepEqualsIsIdentity | src/forge/install/settings_merge.py:227-239 | the recursive comparison holds of two values exactly when they are the same value, types included |
| Json.PyEqIsCoarser | src/forge/install/settings_merge.py:227-239 | why it exists: `==` alone would call 0 and False equal inside an object |
| Json.StringMembership | src/forge/install/settings_merge.py:549-582 | on strings `==` membership is plain membership, so permissions are matched exactly |
| SettingsMerge.SettingsDict.MergeHooks | src/forge/install/settings_merge.py:505-546 | one hook list is extended by exactly the new entries, in order, and these are the ones recorded; nothing else changes |
| SettingsMerge.SettingsDict.MergePermissions | src/forge/install/settings_merge.py:549-582 | the same for one permission list |
| SettingsMerge.SettingsDict.MergeEnv | src/forge/install/settings_merge.py:585-612 | every preset variable is set and recorded, whatever was there |
| SettingsMerge.SettingsDict.SetScalar | src/forge/install/settings_merge.py:636-672 | unchanged when equal, a conflict when another non-null value is there and force is off, otherwise set: a conflict changes nothing |
| SettingsMerge.SettingsDict.Merge | src/forge/install/settings_merge.py:675-728 | the whole merge in place, loops and all, is the closed form Merged with the entries MergeEntries; it raises exactly on a status-line conflict |
| SettingsUnmerge.EntriesToAddedStructure | src/forge/install/settings_merge.py:194-224 | the added file is rebuilt entry by entry |
| SettingsUnmerge.FilterHooks | src/forge/install/settings_merge.py:300-309 | a hook list loses exactly the added entries |
| SettingsUnmerge.SmartUnmerge | src/forge/install/settings_merge.py:251-366 | the three-way removal over hooks, permissions, env and scalars |
| SettingsUnmerge.GroupByPath | src/forge/install/settings_merge.py:743-746 | entries are grouped by key path, in order, none lost |
| SettingsUnmerge.Unmerge | src/forge/install/settings_merge.py:731-785 | the fallback removal in place, by tracking entries alone, for every shape the code gets through |
| SettingsRoundTrip.AdditionsAreNew | src/forge/install/settings_merge.py:528-544 | append-and-dedupe never records a value that was there, nor one value twice |
| SettingsRoundTrip.ListRestored | src/forge/install/settings_merge.py:280-328 | filtering the additions out of the extended list gives the old list back, order and copies included |
| SettingsRoundTrip.MergeEntriesValues | src/forge/install/settings_merge.py:675-728 | what a merge records at each path: exactly the additions, the new scalar, and every env value |
| SettingsRoundTrip.AddedAt | src/forge/install/settings_merge.py:194-224 | the added file holds, at each path, exactly the values recorded there |
| SettingsRoundTrip.EnableThenUnmerge | src/forge/install/settings_merge.py:251-397 | enable followed by the three-way removal gives the settings back up to empty sections, if and only if the backup agrees wherever the preset overrode something |
| SettingsRoundTrip.OwnBackupServes | src/forge/install/settings_merge.py:636-672 | with the settings as their own backup this fails for one input family: a statusLine that is present but null |
| SettingsLaws.MergeAgain | src/forge/install/settings_merge.py:675-728 | merging twice is merging once; the second merge cannot conflict and records only env entries |
| SettingsLaws.WithoutIsFilter | src/forge/install/settings_merge.py:280-328 | filtering is a subsequence with exactly the removed values missing |
| SettingsLaws.UnmergeRespectsUser | src/forge/install/settings_merge.py:251-366 | under arbitrary edits nothing the user deleted is reintroduced and every key outside `added` is unchanged |
| SettingsLaws.UnmergedListIsFiltered | src/forge/install/settings_merge.py:280-328 | a hook list loses exactly the added objects and a permission list exactly the values equal to an added one, with all their copies; the rest keeps its order |
| SettingsLaws.UnmergedValueByOwner | src/forge/install/settings_merge.py:330-364 | an env value that differs from the added one, or a scalar that is not identical to it, survives; one left alone goes back to the backup's or away |
| SettingsOutcome.PyEqIsNormalIdentity | src/forge/install/settings_merge.py:636-672 | `==` on settings values is identity once every number and truth value is read as a float, at every depth |
| SettingsOutcome.ShapesThatMerge | src/forge/install/settings_merge.py:505-582 | a template list goes into a section with no value there, with a list (of hashable items, for permissions), or with a text or object that already yields all of it; nothing else |
| SettingsOutcome.MergedListHolds | src/forge/install/settings_merge.py:505-582 | after a merge each list holds everything the template asks for; it is the old value, or the old list followed by asked-for values that were not in it, each once |
| SettingsOutcome.MergedEnvHolds | src/forge/install/settings_merge.py:585-612 | every variable of the template has its value and every other is untouched |
| SettingsOutcome.ConflictIsForeignStatusLine | src/forge/install/settings_merge.py:636-672 | a merge conflicts if and only if force is off and the preset would replace a status line that is present, not null and not equal to it |
| SettingsOutcome.MergedStatusLine | src/forge/install/settings_merge.py:636-672 | the status line becomes the preset's where it is asked for and differs; a non-forced merge that does not conflict leaves every non-null one as it was; no other top-level key changes |
| SettingsOutcome.FallbackFiltersLists | src/forge/install/settings_merge.py:731-785 | the fallback takes out of each list exactly the tracked non-empty hook objects, or the values equal to a tracked permission, with all their copies; the rest keeps its order |
| SettingsOutcome.FallbackDropsTracked | src/forge/install/settings_merge.py:731-785 | it takes away exactly the tracked variables and top-level keys |
| SettingsOutcome.CleanedHolds | src/forge/install/settings_merge.py:369-397 | cleaning drops exactly the values null, false, 0, 0.0, "", [] and {} from the sections, and a section with nothing left |
| SettingsOutcome.EntriesAfterInit | src/forge/install/installer.py:862-867 | all new entries are tracked, and an old one unless a new one has its path and stable id: of a list both old and new values, of a variable or top-level key the new value only |
| SettingsLaws.GuardsDoNotReachCleanup | src/forge/install/settings_merge.py:369-397 | the removal skips a section of the current settings that is not an object, the cleanup after it does not: it takes the result exactly when all three sections of the current settings are objects |
| SettingsTwoPaths.FiltersAgree | src/forge/install/settings_merge.py:731-785 | the two list filters differ only on an empty hook entry |
| SettingsTwoPaths.TwoPathsAgree | src/forge/install/settings_merge.py:731-785 | for any settings with object sections, backup and entries, the two uninstall paths give equal settings after cleanup if and only if no empty hook entry is left, no tracked list has become something else that is not empty, no tracked env key keeps a value and no tracked scalar is user-changed or backed up |
| SettingsTwoPaths.EnableThenFallback | src/forge/install/settings_merge.py:731-785 | enable followed by the fallback gives the settings back if and only if nothing of the user's was overridden and no empty hook entry was added |
| SettingsStore.LeftByAddedFile | src/forge/install/installer.py:1009-1025 | writing the cleaned backup or the cleaned result comes to the same file; it is deleted only when both are empty |
| SettingsStore.EnableThenUninstall | src/forge/install/installer.py:1001-1029 | one enable then uninstall restores the settings file, or deletes it when there is nothing to hold, if and only if the backup that is read serves |
| SettingsStore.RepeatsSettle | src/forge/install/installer.py:780-805 | any number of repeated enables leaves the settings file alone and the newest backup equal to it |
| SettingsStore.RepeatThenUninstall | src/forge/install/installer.py:1001-1029 | after repeats, uninstall restores the settings if and only if: with an env preset, nothing had been changed; without one, the fallback can restore |
| SettingsPlan.PlanSettings | src/forge/install/installer.py:592-713 | the loops that make the settings rows of a plan |
| SettingsPlan.RowsOfPlan | src/forge/install/installer.py:592-713 | which rows a plan has: one per non-empty list of a chosen module, one per env value, one for the status line |
| SettingsPlan.MergeableIsPlannable | src/forge/install/installer.py:592-713 | settings the merge accepts, the plan accepts |
| SettingsPlan.PlanGap | src/forge/install/installer.py:592-713 | once a plan was made, the merge gets through all shapes if and only if no list was missed: a planned list that is not an array and has something to append, or a list of a module that was not chosen whose section or value has the wrong shape |
| SettingsPlan.PlanMissesShape | src/forge/install/installer.py:645-690 | first input in the gap: a null hooks section with the hooks module off gives an empty plan and stops the merge |
| SettingsPlan.PlanMissesText | src/forge/install/installer.py:645-690 | second input, with the module chosen: a string where a hook list should be is announced as a merge, which then stops |
| SettingsPlan.ListRowPredicts | src/forge/install/settings_merge.py:413-456 | the already-present checks hold exactly when the merge would record nothing for that list |
| SettingsPlan.PlanPredictsMerge | src/forge/install/installer.py:592-713 | a conflict row is exactly a merge that raises; a list or status-line row is skip exactly when nothing is recorded; an env row is skip exactly when the value stays |
| SettingsPlan.ConflictFreePlanMerges | src/forge/install/installer.py:592-713 | a plan has a conflict row if and only if the merge would raise a conflict |
| SettingsPlan.ConflictFreePlanIsSafe | src/forge/install/installer.py:592-713 | after a conflict-free plan the merge cannot raise, for a conflict or a shape, if and only if the plan missed no list |
| SettingsPlan.UnannouncedEntries | src/forge/install/installer.py:789-801 | an entry the merge records has no plan row exactly when it is a hook or permission of a module that was not chosen |
| FileSystem.RemovableIffPrunable | src/forge/install/installer.py:844-849 | at a deepest remaining candidate, empty now and removable in the end are the same |
| FileSystem.PruneReachesFixpoint | src/forge/install/installer.py:844-849 | one deepest-first pass is enough: afterwards no candidate directory is empty |
| FileSystem.PruneDeepestFirst | src/forge/install/installer.py:994-999 | the pass deletes a candidate if and only if no file is left below it and every directory below it is a candidate |
| FileSystem.PrunedWellFormed | src/forge/install/installer.py:994-999 | pruning leaves no file or directory without its parent |
| FileSystem.WritableIff | src/forge/install/installer.py:893-905 | a file can be written exactly when what results is a possible disk |
| InstallModel.WantedBelowRoot | src/forge/install/installer.py:466-499 | every planned target lies below the target root |
| Installer.Installer.PlanFiles | src/forge/install/installer.py:454-502 | one plan per selected source file, and the conflict flag exactly when one of them conflicts |
| InstallOutcome.PlannedIsMeant | src/forge/install/installer.py:454-502 | the planned targets are exactly the sources under commands, agents or skills whose module is chosen, except those of the qa skill when the profile is not full and no file of it is tracked; each stands for its own source |
| InstallOutcome.InitConflictsExactly | src/forge/install/installer.py:519-590 | once the plan can be made, init gives up if and only if it is not forced and would replace an untracked file or directory, or a non-null status line that is not equal to the preset's |
| Installer.Installer.ExecuteFiles | src/forge/install/installer.py:783-787 | all files are written and recorded, or the loop stopped part-way having written only planned files |
| Installer.Installer.RemoveStale | src/forge/install/installer.py:818-849 | stale files that are still what was installed go, with the directories left empty; all else stays |
| Installer.Installer.KeepSkipped | src/forge/install/installer.py:851-860 | records of skipped, still planned files are kept in order |
| Installer.Installer.NextSettingsEntries | src/forge/install/installer.py:862-867 | new entries first, then the old ones in order without those renewed |
| Installer.Installer.MergeSettings | src/forge/install/installer.py:793-805 | the settings step writes the merged file and an added file with exactly the recorded entries; the caller has taken the backup before |
| Installer.Installer.Init | src/forge/install/installer.py:745-882 | init ends in one of four ways; conflicts without force change nothing, and an exception leaves the manifest as it was |
| Installer.Installer.UpdateInstallation | src/forge/install/installer.py:941-968 | update is init with the recorded modules and profile |
| Installer.Installer.DeleteTracked | src/forge/install/installer.py:982-994 | all tracked files are deleted if and only if every record is inside the root and none has become a directory |
| Installer.Installer.RestoreSettings | src/forge/install/installer.py:1001-1036 | the settings half of uninstall, and exactly the shapes of settings and backup on which it gets through |
| Installer.Installer.Uninstall | src/forge/install/installer.py:970-1037 | uninstall removes files, directories, settings and manifest, or says where it stopped |
| InstallLaws.KeptDistinct | src/forge/install/installer.py:851-860 | kept records track no target twice if the old manifest did not |
| InstallRuns.InitKeepsManifest | src/forge/install/installer.py:851-880 | kept and newly written records together track no target twice, and only targets below the root |
| InstallLaws.ManifestAfterInit | src/forge/install/installer.py:851-880 | the tracked targets after init are exactly the planned ones |
| InstallLaws.InstalledAsPlanned | src/forge/install/installer.py:745-882 | after init every planned target holds its source's content, and every other path is as before except stale files that were still ours |
| InstallLaws.NotOverwritten | src/forge/install/installer.py:519-590 | a plan without conflicts has no target that is an untracked file |
| InstallLaws.UntrackedFileSurvivesInit | src/forge/install/installer.py:519-590 | however a non-forced init ends, an untracked file is untouched and stays untracked |
| InstallLaws.ModifiedStaleFileIsKept | src/forge/install/installer.py:915-939 | a stale tracked file the user changed is kept and only dropped from the manifest |
| InstallOutcome.InstalledIsMeant | src/forge/install/installer.py:745-882 | after init a source is tracked, and its content in place, if and only if its module is chosen and the qa gate lets it through; nothing else is tracked |
| InstallOutcome.FateOfStaleFile | src/forge/install/installer.py:915-939 | a tracked file without a source is deleted if and only if it lies in the root and still is what was installed; in both cases it is no longer tracked |
| InstallOutcome.WrittenThenDropped | src/forge/install/installer.py:818-849 | what one init wrote and nobody changed is gone after the next init without its source, whatever else was edited in between |
| InstallOutcome.StatusLineSurvivesInit | src/forge/install/settings_merge.py:636-672 | however a non-forced init ends, a non-null status line is what it was |
| InstallOutcome.StatusLineSurvivesRun | src/forge/install/installer.py:745-968 | and so after any run of non-forced inits and updates |
| InstallOutcome.SettingsAfterInit | src/forge/install/installer.py:780-805 | init writes the merged settings, backs up what was there under its own time and touches no other backup or added file; when it does not end normally the settings file is as before |
| InstallOutcome.SettingsAfterUninstall | src/forge/install/installer.py:1001-1036 | uninstall keeps all backups and, when it succeeds, deletes all added files; by the fallback it always leaves a settings file with every list key |
| InstallOutcome.BackupSurvivesRun | src/forge/install/installer.py:780-1036 | in no run is a backup lost or changed, except by an init of the same time or by the user |
| InstallRuns.NextKeepsInv | src/forge/install/installer.py:745-1037 | every init, update, uninstall or edit keeps the disk consistent and the tracked targets distinct and inside the root |
| InstallRuns.RunKeepsInv | src/forge/install/installer.py:745-1037 | so does every run |
| InstallRuns.UninstallNeverLeavesRoot | src/forge/install/installer.py:182-210 | in no run does uninstall meet a target outside the root; it gets through its files unless the user put a directory in their place |
| InstallRuns.UserFileSurvivesRun | src/forge/install/installer.py:519-590 | a file of the user's that no edit touches survives every run without force |
| InstallRoundTrip.InstallThenUninstallFiles | src/forge/install/installer.py:970-999 | first init then uninstall: the file map is exactly what it was, no new directory stays behind below the root, and exactly which old directories go; a root that init created stays |
| InstallRoundTrip.InstallThenUninstall | src/forge/install/installer.py:970-1037 | with the settings: uninstall ends normally, and the settings come back if and only if the backup serves |
| InstallRoundTrip.SkillsAreWhole | src/forge/install/installer.py:488-496 | a skill is planned whole or not at all |
| InstallRoundTrip.SkillGate | src/forge/install/models.py:87-98 | a skill is left out exactly when it needs a higher profile and no file of it is installed |
| InstallRoundTrip.GatedSkillStays | src/forge/install/installer.py:454-463 | an installed gated skill stays installed under a lower profile |
| InstallRoundTrip.SettledRows | src/forge/install/installer.py:592-713 | on settings that are already merged every row of a plan is skip |
| InstallRoundTrip.UpdateAfterInitPlansSkips | src/forge/install/installer.py:941-968 | every row of the plan of an update right after init is skip, files and settings alike |
| InstallRoundTrip.UpdateAfterInitChangesNothing | src/forge/install/installer.py:941-968 | that update ends normally with files, directories, settings and tracked records as they were, if and only if init let no source file through under the name of a gated skill |
| InstallRoundTrip.WantedAfter | src/forge/install/installer.py:454-502 | the update plans the same targets and contents if and only if no such file was let through; otherwise it plans fewer |
| InstallRoundTrip.UpdateDropsFile | src/forge/install/installer.py:454-502 | with such a file the update, when it ends normally, does not track the same targets any more |
| InstallRoundTrip.AFileIsLetThrough | src/forge/install/installer.py:454-502 | an input: a gated skill that was a directory and has become a single file |
| PolicyEngine.Compose | src/forge/guard/engine.py:164-189 | the composing loop computes verdict, blocking violations and warnings of the decision list |
| PolicyEngine.Engine.RestoreState | src/forge/guard/engine.py:53-72 | every stateful policy with a persisted entry gets it; the others are left alone |
| PolicyEngine.Engine.EvaluatePolicy | src/forge/guard/engine.py:102-162 | one turn of the loop: decision, new state, collected state, in every way a policy can raise |
| PolicyEngine.Engine.Evaluate | src/forge/guard/engine.py:84-189 | one evaluation: decisions in registration order, next states, collected states of exactly the stateful policies that ran |
| PolicyEngine.BuildPolicyStateUpdate | src/forge/guard/store.py:76-124 | the new log ends with the decision just made, before it are the newest old decisions in order, and it holds all of them or exactly 100; a policy that ran has its new state and every other its old one |
| PolicyEngine.UpdateIsDetermined | src/forge/guard/store.py:76-124 | these two properties leave one state update only |
| PolicyRuns.Hook | src/forge/cli/hooks/commands.py:1103-1125 | one hook process: fresh engine, restore, evaluate, persist |
| PolicyRuns.LongLived | src/forge/guard/engine.py:84-189 | one engine asked once per action |
| PolicyRuns.CollectedOf | src/forge/guard/engine.py:157-162 | with distinct ids, a stateful policy is collected exactly when it ran, with the state it was left in |
| PolicyRuns.RestoreAfterPersist | src/forge/guard/store.py:112-116 | persisting after an action and restoring later gives the states the action left |
| PolicyRuns.HooksAreOneEngine | src/forge/guard/store.py:112-116 | a run of short-lived hooks decides what one long-lived engine decides, restores to its states and persists what it has collected |
| PolicyRuns.LogIsRecentDecisions | src/forge/guard/store.py:106-110 | the persisted log is exactly the last min(n, 100) composite decisions, in order |
| PolicyRuns.SharedIdsBreakIt | src/forge/guard/engine.py:157-162 | with two stateful policies under one id the hooks deny where the engine allows |
| PolicyRuns.FinalIgnoresOrder | src/forge/guard/engine.py:164-182 | the composed verdict depends on the multiset of decisions only |
| PolicyRuns.VerdictIgnoresOrder | src/forge/guard/engine.py:84-182 | registering the same policies with the same states in any other order gives the same verdict |
| PolicyRuns.DecisionsIgnoreOrder | src/forge/guard/engine.py:102-162 | and the same multiset of decisions |
| PolicyRuns.FailClosedDenies | src/forge/guard/engine.py:102-155 | fail-closed: any policy that raises, in either call, blocks the action |
| PolicyVerdicts.InRegistrationOrder | src/forge/guard/engine.py:102-162 | every policy has its place in the decisions: the very decision it makes when it judges; one deny or allow in its name when it raises; nothing otherwise |
| PolicyVerdicts.VerdictOfPolicies | src/forge/guard/engine.py:164-182 | deny iff a policy denies or, under fail-closed, raises; else needs_review iff a policy asks for it and no other decision under the supervisor's name, nor a supervisor that raises, settles it; else warn iff a policy warns; else allow |
| PolicyVerdicts.TextsOfPolicies | src/forge/guard/engine.py:164-189 | the blocking violations are exactly those of the policies that deny; no warning of a policy that judges is lost |
| PolicyVerdicts.StatesOfPolicies | src/forge/guard/engine.py:127-162 | a policy that judges is left in the state its evaluation returned and that state is collected; all others keep theirs and are not collected |
| PolicyRuns.FailOpenDropsRaising | src/forge/guard/engine.py:102-182 | fail-open: dropping the raising policies changes the verdict exactly when the supervisor raises while evaluating and the rest comes to needs_review |
| LockedUpdates.StepKeepsInv | src/forge/core/state/lock.py:49-99 | each step keeps: one holder, what a holder has read is what the file holds, the file is the fold of the completed mutators |
| LockedUpdates.EveryRunIsSerial | src/forge/backend/registry.py:132-139 | every interleaving, with time-outs, raising mutators, failed writes and crashes, equals the sequential fold in lock order; unlocked readers see growing prefixes of it |
| LockedUpdates.AloneIsUpdate | src/forge/backend/registry.py:132-139 | a process left alone does in steps what one update does |
| LockedUpdates.NoUpdateIsLost | src/forge/backend/registry.py:132-139 | for mutators of single keys, each key ends as its own updates alone, in order, would have left it |
| Registries.BackendRegistryStore.Read | src/forge/backend/registry.py:97-126 | raises exactly on a corrupt file; a missing one gives the empty registry, any other what it holds |
| Registries.ReadAfterUpdate | src/forge/backend/registry.py:97-139 | a read after an update returns what the update returned, and after a failed update what it would have returned before |
| Registries.BackendRegistryStore.Update | src/forge/backend/registry.py:132-139 | time-out, unreadable file or raising mutator change nothing; otherwise the file holds, and the caller gets, the mutator's result on what was there |
| Registries.BackendRegistryStore.PruneDeadPids | src/forge/backend/registry.py:141-166 | exactly the entries that have a pid whose process does not run go and are reported, once each; all others stay as they are, and the file is written only if some went |
| Registries.PidlessNeverPruned | src/forge/backend/registry.py:141-166 | in every run of prunes and updates of other backends an entry without a pid stays as it was |
| Registries.RunningNeverPruned | src/forge/backend/registry.py:141-166 | in every run an entry stays as it was while each prune finds its process alive and updates are of other backends |
| Registries.KeyRoundTrip | src/forge/install/models.py:205-240 | a key parses back to its scope and project exactly when the scope holds no colon |
| Registries.ParsedKeyMakes | src/forge/install/models.py:205-240 | a key is made again from its parts exactly when it is the user key or names another scope and a project |
| Registries.KeysAreInjective | src/forge/install/models.py:205-222 | two installations share a key exactly when they are the same installation |
| Registries.TrackingStore.GetInstallation | src/forge/install/tracking.py:149-161 | the record under the key of scope and project, none when there is no manifest |
| Registries.TrackingStore.SetInstallation | src/forge/install/tracking.py:163-176 | records one installation and disturbs no other |
| Registries.TrackingStore.RemoveInstallation | src/forge/install/tracking.py:178-195 | removes one installation, tells whether it was there, disturbs no other |
| Registries.LastRecordingWins | src/forge/install/tracking.py:163-195 | under every interleaving of recording and forgetting commands, each installation holds the last word completed about it |
| ProxyDelete.ProxyRegistry.ClearPid | src/forge/cli/proxy.py:722-732 | a stop marks the proxy and exactly the not yet stopped others on its port |
| ProxyDelete.StopLeavesNoneLive | src/forge/cli/proxy.py:722-732 | after that the proxy, and whatever was not stopped on its port, is stopped and has no pid; nothing else is touched, and a second stop changes nothing |
| ProxyDelete.ProxyRegistry.RemoveAndCheck | src/forge/cli/proxy.py:1176-1181 | the locked removal decides to stop the server exactly when no healthy or starting proxy is left on the port |
| ProxyDelete.ProxyRegistry.Restore | src/forge/cli/proxy.py:977-983 | the restore overwrites nothing and undoes the removal exactly |
| ProxyDelete.StepKeepsDecisions | src/forge/cli/proxy.py:1171-1213 | each step keeps: whoever means to stop a server knows every live proxy on its port as one put back since |
| ProxyDelete.KillsSpareTheLive | src/forge/cli/proxy.py:1171-1213 | in every interleaving a healthy or starting proxy is on the port of a server that is stopped if and only if one put back after the decision is, and every such proxy is one put back |
| ProxyDelete.KillOnlyTheLast | src/forge/cli/proxy.py:1171-1213 | while no directory removal fails, a stop is attempted only when no healthy or starting proxy on the port is registered |
| ProxyDelete.FailedRemovalRacesKill | src/forge/cli/proxy.py:1193-1213 | with a failing directory removal it can happen: the server is stopped under a restored proxy |
| ProxyDelete.LastOneStops | src/forge/cli/proxy.py:1171-1213 | once all live proxies of a port are deleted and no deleter is half-way, a stop was attempted |
| ProxyDelete.FailedDeleteChangesNothing | src/forge/cli/proxy.py:1193-1207 | a lone deleter whose directory will not go leaves the registry as it was and stops nothing |
| ClientCache.EnforceMaxOutputTokensCap | src/forge/proxy/client_factory.py:27-57 | a client is refused exactly when the model is unknown or asks for more than the catalog allows; otherwise the request, or the cap |
| ClientCache.TierClientFactory.GetClient | src/forge/proxy/client_factory.py:209-281 | one call: cached while young, checked again under the lock, else built and stored; a refusal leaves the cache unchanged |
| ClientCache.TierClientFactory.ClearCache | src/forge/proxy/client_factory.py:451-454 | the cache is emptied |
| ClientCache.CallersTierWins | src/forge/proxy/client_factory.py:209-236 | a call gives a client of the model asked for and of the caller's tier, else of the one configured for the model, else sonnet |
| ClientCache.YoungIsServed | src/forge/proxy/client_factory.py:237-281 | a client younger than the time to live is answered and nothing changes; otherwise a new one is built and cached, or refused |
| ClientCache.InvalidationDrops | src/forge/proxy/client_factory.py:283-311 | invalidation drops exactly the clients of the model, of one tier or of all |
| ClientCache.StepKeepsInv | src/forge/proxy/client_factory.py:209-281 | each step keeps the seven-part invariant of the cache |
| ClientCache.EveryRunIsSafe | src/forge/proxy/client_factory.py:237-281 | in every interleaving: entries fit their (model, tier) and the cap, cached answers are younger than the time to live, two constructions of one key without a clear between are that far apart |
| ClientCache.ConstructionsAreSpaced | src/forge/proxy/client_factory.py:237-281 | in every interleaving, two clients of one key with no clear in between are stored at least a time to live apart |
| ClientCache.RefusalChangesNothing | src/forge/proxy/client_factory.py:343-346 | a refused construction leaves cache and history alone, and happens exactly on an unknown model or an excessive request |
| ClientCache.AloneIsItsSteps | src/forge/proxy/client_factory.py:209-281 | a task left alone does in steps what one call does |
| ClientCache.InvalidationBlocks | src/forge/proxy/client_factory.py:283-311 | invalidation waits for the lock it holds: from then on nothing is built and only cached clients are answered |
| ConfigMerge.DeepMerge | src/forge/config/loader.py:44-69 | the copying, recursive loop computes the merged tree |
| ConfigMerge.EmptyOverlay | src/forge/config/loader.py:44-69 | the empty overlay is a right identity |
| ConfigMerge.EmptyBase | src/forge/config/loader.py:44-69 | the empty base is a left identity exactly for overlays without a null at the top |
| ConfigMerge.CoversIsAbsorption | src/forge/config/loader.py:44-69 | an overlay swallows the base exactly when it has the base's keys, level by level, and nulls only where the base has them |
| ConfigMerge.MergeAgain | src/forge/config/loader.py:44-69 | merging the same overlay twice is merging it once |
| ConfigMerge.LastWriterWins | src/forge/config/loader.py:44-69 | at every path a leaf or mapping is the overlay's if it has one, else the base's unless the overlay holds a leaf on the way or a value there |
| ConfigMerge.NullsSurvive | src/forge/config/loader.py:44-69 | exactly where nulls remain: the base's where the overlay is silent, and the overlay's inside mappings the base does not have |
| ConfigMerge.AssociativeWhere | src/forge/config/loader.py:44-69 | merging is associative exactly where no mapping is cut off by a leaf and begun again by a mapping that does not cover it |
| ConfigMerge.SameShapeGroups | src/forge/config/loader.py:44-69 | in particular where shared paths agree on being mapping or leaf |
| Metrics.Credit | src/forge/proxy/metrics.py:108-117 | the token record under a key, made on first use and changed in place, takes one request; every other record is untouched |
| Metrics.ProxyMetrics.RecordRequest | src/forge/proxy/metrics.py:84-141 | all counters take one request together |
| Metrics.ProxyMetrics.Reset | src/forge/proxy/metrics.py:179-195 | all counters are zero and all breakdowns empty |
| Metrics.MetricsAreExact | src/forge/proxy/metrics.py:84-141 | after any run every counter, breakdown and failure count says exactly what the requests since the last reset say |
| Metrics.OfBelongs | src/forge/proxy/metrics.py:84-141 | the requests under a key are exactly those of that tier or model, those that streamed or failed, or those that failed with that non-empty error type |
| Metrics.TallyAdds | src/forge/proxy/metrics.py:84-141 | a tally adds tokens and latency of each of its requests and counts it |
| Metrics.EveryRunConserves | src/forge/proxy/metrics.py:84-141 | after any run the totals equal the sums over tiers and over models, per-key counts equal their token records', classified failures sum to at most the failures |
| Metrics.FailedWithinTotals | src/forge/proxy/metrics.py:132-138 | with non-negative inputs failed tokens never exceed the totals |
| AnsiText.MeasureWidth | src/forge/cli/status_line.py:755-778 | the counting loop computes the visible width |
| DisplayWidth.CharacterAdds | src/forge/cli/status_line.py:733-778 | every character adds its own columns: none for marks, joiners and selector 15, two for wide or astral ones, else one |
| DisplayWidth.SelectorWidens | src/forge/cli/status_line.py:755-778 | selector 16 makes the visible character before it two columns wide, invisible ones in between or not |
| DisplayWidth.EscapeAddsNothing | src/forge/cli/status_line.py:729-730 | a colour escape takes no column, wherever it stands |
| AnsiText.StripConcat | src/forge/cli/status_line.py:729-730 | stripping escapes distributes over well-formed text |
| AnsiText.WidthConcat | src/forge/cli/status_line.py:755-778 | width is additive over well-formed text without variation selectors |
| AnsiText.TruncateAnsi | src/forge/cli/status_line.py:1045-1090 | the truncating loop computes the cut |
| AnsiText.CutMeaning | src/forge/cli/status_line.py:1058-1085 | the running count at the cut is the visible width of the kept prefix, and the next character would pass the limit |
| StatusLine.TruncationIsLongest | src/forge/cli/status_line.py:1045-1090 | text of at most w - 3 columns is kept; otherwise the result is the longest prefix of at most w - 3 columns plus dots, w - 1 or w columns in all |
| StatusLine.TruncationUnchanged | src/forge/cli/status_line.py:1045-1090 | the result equals the text exactly when it fits in w - 3, or is w wide and already ends in the dots |
| StatusLine.TruncationOverrun | src/forge/cli/status_line.py:1068-1076 | in every case, variation selectors or not, the result passes the width by at most one column per selector |
| StatusLine.TruncationBound | src/forge/cli/status_line.py:1045-1090 | the result keeps to the width if and only if no variation selector widens a narrow character when the count has just reached w - 3, or nothing but escapes and at most two widening selectors follow the one that does |
| StatusLine.OneSelectorOverruns | src/forge/cli/status_line.py:1068-1076 | for every width above 3: a text that fills w - 3 columns, ends in a narrow character and goes on with a selector and any other character is cut to more than w columns |
| StatusLine.VariationSelectorsOverrun | src/forge/cli/status_line.py:1068-1076 | the other way past the width: a text of five columns that comes back whole for a width of four |
| StatusWrap.WrapOutput | src/forge/cli/status_line.py:1093-1134 | the greedy loop computes the wrapped lines |
| StatusWrap.JoinSplit | src/forge/cli/status_line.py:1100-1101 | splitting at the separator and joining gives the text back |
| StatusWrap.SegmentsHoldNoSep | src/forge/cli/status_line.py:1100-1101 | no segment holds a separator |
| StatusWrap.SepSplits | src/forge/cli/status_line.py:1100-1101 | cutting well-formed text at a separator leaves well-formed text on both sides |
| StatusWrap.JoinWidth | src/forge/cli/status_line.py:1104-1118 | the loop's running width is the visible width of the joined segments |
| StatusWrap.FitCountIsLongest | src/forge/cli/status_line.py:1110-1118 | the greedy count is the longest run that fits |
| StatusWrap.EveryLineFits | src/forge/cli/status_line.py:1093-1134 | every output line fits if and only if there is one segment or the first segment fits |
| StatusWrap.FirstLineIsLongest | src/forge/cli/status_line.py:1093-1134 | line one is the longest run of whole segments that fits |
| StatusWrap.LinesRejoin | src/forge/cli/status_line.py:1126-1134 | when line two was not truncated, the separator in place of newline and reset gives the original text |

## Left out

- Symlink mode, `Path.resolve` and aliasing of paths: targets are canonical paths in copy mode, for one installation.
- Hashing, JSON and YAML text, file locks and atomic replacement: checksums identify contents, parsing inverts printing, a lock excludes, a dead process drops its lock, a replace happens at once or not at all.
- Floats that are NaN or minus zero, dictionary key order, and the order of ties in sorted plans and file lists: settings are maps and plans hold one row per path.
- Values, reasons and display order of plan rows, backup paths, install timestamps and the profile-to-modules table: none changes what is installed or merged; modules are a parameter.
- Timestamps in file names are numbers; two runs within one second, which would share a file name, are the case of equal numbers.
- Installer.Installer.RestoreSettings: an added file that somebody has edited into a shape the merge never writes counts as one that stops uninstall; entries and added files are otherwise those a merge wrote.
- Reading a corrupt settings file or manifest in the installer: both are read as what was last written; the registries do model corrupt files.
- Unreadable sources, full disks and permission errors: the one write failure of the installer is a file or directory in the way.
- Filtering of sources by git and by name: the sources of a request are the files that passed it.
- The provenance fields of the persisted policy state, decision timestamps, and policies whose `get_state` or `set_state` raises; the warning texts of raising policies are fixed strings.
- PolicyRuns.HooksAreOneEngine: assumes what the protocol asks of policies, namely distinct ids, `set_state` undoing `get_state`, no memory outside that state, and a raising call leaving it alone; hook processes run one after the other.
- Registries.TrackingStore.SetInstallation: the scope holds no colon, as every value of `InstallScope`; without that keys collide (`KeyRoundTrip`).
- Registries.TrackingStore.RemoveInstallation: the same.
- Registries.RunningNeverPruned: concurrent updates of the same backend are excluded, since they may do anything to it.
- Registries.PidlessNeverPruned: concurrent updates of the same backend are excluded, since they may do anything to it.
- ProxyDelete.KillOnlyTheLast: no new registrations and no changes to entries by other commands during the deletes.
- ProxyDelete.LastOneStops: the same, no failing directory removal and no `--no-kill`; how a server is stopped (signals, adopted processes, health checks) is not part of this model, only whether a stop is attempted.
- InstallRoundTrip.UpdateAfterInitChangesNothing: the manifest's settings entries may grow by env renewals and a new added file is written.
- Hyperparameters of a client other than its token limit, and provider detection, which answers one provider for every model.
- Cancellation of asyncio tasks: a task in `get_client` runs to its end once it has the lock.
- ConfigMerge.DeepMerge: the tree is a value, so that inputs are not modified needs no proof here.
- Average latency, cache hit rate and uptime in the metrics snapshot: single divisions.
- `BackendManager.ensure_backend`, session commands, workflow templates, authentication, status-line segments, transcript scanning, and everything that prints, prompts or calls out: input and output without an invariant of its own.
