# Verified model of Tugtainer's update core

Tugtainer checks the containers of Docker hosts for newer images and updates them. This project models
the part of it that decides and does the work, and proves what it keeps:

- **Planning** (`UpdatePlanner`, `Labels`, `DependencyGraph`, `UpdateQueue`, `UpdateOrder`): which
  containers of a host are updated, which depend on them, and in which order they are handled. Python's
  set iteration order is an arbitrary choice everywhere.
- **Execution** (`PlanSchema`, `Docker`, `CallProtocol`, `HookScript`, `Executor`, `PlanRun`, `RunOutcome`):
  the stop, recreate, health check, clean-up and rollback machine. The Docker host is a class behind an
  agent of which every call may raise, with or without having taken effect. A ghost log holds one moment
  per call that can change the host, and for every container the calls made for it, which an automaton
  must accept. A ghost set holds what went wrong for a container: a call that raised needlessly, that is,
  although Docker could do what it was asked, a hook command that failed, a connect call that raised
  needlessly. Images are tagged by reference: how Docker resolves a spec is an arbitrary function, so two
  spellings may share a tag. All results hold for every pattern of agent, hook and health failures.
- **Recreation** (`ContainerInfo`, `ContainerConfig`, `NetKwargs`, `CommandValidator`): the create request,
  the generated `network connect` commands, and the allowlist that has to let them through.
- **Checking** (`Database`, `CheckHistory`, `CheckOrder`, `CheckActions`, `ImageSpec`): which containers are
  checked and in which order, the digest check, the row it updates, what a whole history of checks and
  updates makes of that row, and image names.
- **Locking** (`Progress`, `LockProtocol`, `Tasks`): the progress cache as the lock of interleaved
  asynchronous actions. `LockProtocol` is a state machine over all interleavings; `Tasks` is what one
  action relies on while it waits, proved sound against that machine.
- **End to end** (`HostUpdate`): plan, run, stored rows and lock together.

`Wrappers`, `Errors` and `Strings` hold small shared parts. `dafny verify dfyconfig.toml` checks all.

## Main results

- `HostUpdate.HostUpdateSafe`, `RunOutcome.SafeThroughout`: no unsafe moment in any run of an acyclic
  plan. An eligible container never runs without a dependency that ran at the start, unless one of the
  two has a recorded error.
- `UpdateQueue.FindAffected` and `UpdatePlanner.CycleNeverPlanned`: planning ends if and only if no
  dependency cycle lies wholly among the updatable containers.
- `UpdatePlanner.BuildUpdatePlan` with `PlanClosed` and `PlanTopological`: the plan is exact, closed under
  dependents and in dependency order; `DependenciesRead`, `AffectedRead`, `EligibleRead` and `UpdatableRead`
  say so in terms of labels and rows alone.
- `RunOutcome.HealthDecides`, `UndoneForReason`: an update of a container that ran stands only after a
  healthy verdict, and is undone only for an unhealthy one, a refused configuration or a call that raised
  needlessly.
- `RunOutcome.UpdatedUnlessTroubled`, `RestartedUnlessTroubled`, `ErrorsHaveReasons`: unless one of these
  or a failed hook is in the way, every updatable container with an image id ends updated and every other
  member as it was, running if and only if it ran; and every recorded error has its reason.
- `RunOutcome.HooksAsSet`, `HooksWhole`: exactly the commands the owner set are run, hook by hook and each
  hook in its place.
- `Executor.VerdictAwaited`, with `RunOutcome.HealthDecides`: no verdict is given before its time.
- `RunOutcome.ConfigurationKept`, `FieldsKept`, `CommandLineKept`, `WorkdirKept`: what a rolled back or
  updated container carries is exactly what was captured from it at the start, or its merge with the new
  image, and the exact conditions under which it keeps its command line and its working directory.
- `RunOutcome.UpdatedFromLastPull`, `UpdatedFromLastUndo`, `RolledBackImage`: on which image every such
  container runs, however many containers share its reference and however they spell it.
- `RunOutcome.NetworksKeptIff`, `AttachmentBack`, `NetworksKept`, `StoppedKeepsPrimary`: on which networks.
  Unless a connect call raises needlessly, a container that ran and is updated, or is rolled back, keeps
  its attachments if and only if the allowlist accepts every secondary one.
- `NetKwargs.ConnectAcceptedIff`, `ConnectReadsBack` and `CommandValidator.Validate`: the printer and the
  parser of network commands agree, exactly.
- `ContainerConfig.ArgvAcrossUpdateIff`: when a container keeps its command line through an update.
- `CheckHistory.CheckConcludes` and the other results of `CheckHistory`: the stored verdict, digests and
  change time over any history, and the delay rule.
- `LockProtocol.InvariantThroughout`, `EvictionBreaksExactly`: one holder per key, exactly as long as no
  running action's entry is evicted.
- `ImageSpec.Normaliser`: the image parser is a normaliser on all strings.

## Where the code does less than its documentation, or than one would expect

- `docs/CHECK_AND_UPDATE.md` and the plan code do not mention cycles; a cycle wholly among updatable
  containers keeps the planning loop busy for ever (`UpdatePlanner.CycleNeverPlanned`). One container whose
  label names itself is enough (`SelfDependencyCycles`). Other cycles are harmless to planning.
- A manual update whose containers are all filtered out becomes a scheduled one
  (`UpdatePlanner.FilteredManualIsScheduled`).
- A rollback re-tags the reference for every container that shares it, also under another spelling such as
  `nginx` and `nginx:latest` (`RunOutcome.SpellingsShare`), so a later one is recreated on the image of the
  one that was rolled back and is reported as updated (`RunOutcome.UpdatedFromLastUndo`).
  `UpdatedFromLastPull` and `UpdatedOwnImage` say when a container does run on a pulled image, and which.
- A secondary attachment with links is never restored, because the allowlist has no `--link`
  (`RunOutcome.LinkLost`, from `NetKwargs.ConnectAcceptedIff`); the alias pattern lets one trailing newline
  through.
- A container that was not running is recreated without its connect commands: it keeps its networks if
  and only if it had one (`RunOutcome.StoppedKeepsPrimary`, with an input in `NetKwargs.SecondNetworkLost`).
  A rollback starts it and runs them.
- Where MAC addresses are passed on at all, that of a secondary attachment ends up on the primary one if
  and only if that has none of its own and one with static addresses has (`NetKwargs.ForeignMacSentIff`,
  `MacMoved`).
- The pre_rollback hooks of a container can run twice, because the clean-up runs them again after the
  take-down of an unhealthy container raised (`CallProtocol.RollbackHooksAgain`).
- An emptied entrypoint cannot be expressed (`ContainerConfig.EmptyEntrypointLost`), and a label override
  is lost where the new image defines the same key (`ContainerConfig.ImageLabelsWin`).
- A failed lookup stores an empty digest list, so the same digest counts as a change afterwards: it is
  reported again, and the delay starts anew (`CheckHistory.FailedLookupResets`, with an input in `OneTimeoutResets`).
- An update stores an empty list as the local digests of the row.
- Two plan runs of one host exclude each other only for equal update sets, not for overlapping ones
  (`LockProtocol.PlansTogether`), and a plan run that meets a database failure leaves its key shut until
  eviction (`LockProtocol.AbandonedPlan`, `AbandonedStaysShut`).

## Model

| member | source | states |
|---|---|---|
| HostUpdate.UpdateHostContainers | backend/core/update_actions/update_host_containers.py:34-101 | An update of a host under the host lock: it is refused, without any change, exactly when the key is taken; otherwise its entry ends DONE with a result or ERROR without, the plan it ran is one built from the list and the rows, and containers and rows change as `HostEffect` says |
| HostUpdate.HostUpdateSafe | backend/core/update_actions/update_host_containers.py:65-78 | End to end, for acyclic dependencies and any failures: at every moment, an eligible container that runs while an eligible dependency that ran at the start does not has a recorded error, or the dependency has |
| HostUpdate.MarkClearedExactly | backend/core/update_actions/update_host_containers.py:76-81 | A row loses `update_available` in a host update exactly when its container ends updated; such a container was selected, exists, and runs if and only if it ran before |
| HostUpdate.PlanReady | backend/core/update_actions/update_host_containers.py:68-78 | A plan built from the list the executor gets fits it: members listed, sets disjoint, order without duplicates, dependents included, and in topological order when the dependencies are acyclic |
| HostUpdate.PlanAndExecute | backend/core/update_actions/update_host_containers.py:70-91 | Planning, execution and pruning between the two status changes, with the effect of the host update |
| HostUpdate.ExecuteLocked | backend/core/update_actions/update_actions_executor.py:74-86 | The plan run under its own key: refused if the key is taken, nothing for an empty plan, and otherwise the effect of a run |
| HostUpdate.FinishPlan | backend/core/update_actions/update_actions_executor.py:86-431 | A started run ends its entry DONE with a result, unless the database raises, which leaves the entry open |
| HostUpdate.DeliveredByRun | backend/core/update_actions/update_actions_executor.py:234-417 | What a finished run left, container by container, in terms of its verdicts; containers outside the plan never change |
| HostUpdate.AllDoneAsSetByRun | backend/core/update_actions/update_actions_executor.py:64-104 | Every listed member is dealt with by what the run was given: its own hooks as they are set, a healthy verdict only after a wait of the given timeout, and the configuration of the list, captured for the given API version |
| HostUpdate.Report | backend/core/update_actions/update_actions_executor.py:408-417 | The reported items are the plan members in list order with their verdicts |
| HostUpdate.ResultsHold | backend/core/update_actions/update_actions_executor.py:408-417 | A pair is reported exactly when it is a listed member with that verdict |
| HostUpdate.ResultsInOrder | backend/core/update_actions/update_actions_executor.py:408-417 | The reported items stand in the order of the list |
| HostUpdate.UpdateAllContainers | backend/core/update_actions/update_all_containers.py:26-96 | The update of all hosts under the global key ends DONE with a result or ERROR without; whatever happens to the others, each host with a client asked for its own lock and, where it got it, has the effect of a host update; every other host is left alone |
| HostUpdate.UpdateEach | backend/core/update_actions/update_all_containers.py:63-75 | Every host has its turn: one answer per host, and the effect of a host update exactly where the guard let it through |
| PlanRun.StepSafe | backend/core/update_actions/update_actions_executor.py:166-400 | While only one container is worked on, its dependents are out of the way and its dependencies are there, no moment is unsafe |
| PlanRun.Run.HistoryGrows | backend/core/update_actions/update_actions_executor.py:166-400 | Safety and the accounting for every container extend over all moments of one turn, for every pattern of failures |
| PlanRun.Run.StopClear | backend/core/update_actions/update_actions_executor.py:166-187 | Stopping in reverse order finds every dependent already stopped, refused or in error |
| PlanRun.Run.StartClear | backend/core/update_actions/update_actions_executor.py:234-400 | Starting in order finds every dependency that ran back, or in error, and no dependent running |
| PlanRun.Run.PreparePhase | backend/core/update_actions/update_actions_executor.py:105-153 | Preparation changes nothing but tags, and traces the tag of every reference to the last item that was pulled for it; every error it records has its reason |
| PlanRun.Run.StopPhase | backend/core/update_actions/update_actions_executor.py:166-187 | After the stop loop every member that ran is stopped, or refused by a failed hook, or in error for a call that raised needlessly; no configuration, image or network changed |
| PlanRun.Run.StartPhase | backend/core/update_actions/update_actions_executor.py:234-400 | After the second loop every member is settled according to its verdict, with a reason for every error, and every updated one is traced to an image |
| PlanRun.BuildItems | backend/core/update_actions/update_actions_executor.py:88-97 | One item per plan member, made from the container as it was at the start |
| PlanRun.ExecuteUpdatePlan | backend/core/update_actions/update_actions_executor.py:64-417 | Not run exactly for an empty update set; otherwise a finished run over the containers as they were, with the hooks, the timeout and the API version it was given, and items made from the listed containers |
| RunOutcome.SafeThroughout | backend/core/update_actions/update_actions_executor.py:166-400 | For a topological plan that includes all dependents: safe at every logged moment and at the end |
| RunOutcome.VerdictSound | backend/core/update_actions/update_actions_executor.py:155-162 | Verdicts exactly for updatable members that were ready; missing at the end only with failed; updated means the merged configuration and running as before; rolled back means the previous configuration and running; without errors a container runs exactly if it ran before |
| RunOutcome.ConfigurationKept | backend/core/update_actions/update_actions_executor.py:139-151 | A rolled back container has exactly the configuration captured from its own inspection at the start, network arguments included; an updated one has exactly that configuration merged with the pulled image |
| RunOutcome.FieldsKept | backend/core/container_util/container_config.py:118-193 | Such a container is listed, and keeps every setting that was filled, every label the client takes unless the new image has it, its ports and name resolution unless it has no network stack of its own, and its hostname unless that is part of its id |
| RunOutcome.CommandLineKept | backend/core/container_util/container_config.py:37-59 | Such a container runs its original command line, on whatever image, if and only if the entrypoint and command survive by the stated condition |
| RunOutcome.WorkdirKept | backend/core/container_util/container_config.py:114-116 | It works in its original directory, on whatever image, if and only if that was customised and can be passed on, or the image has the same |
| RunOutcome.HealthDecides | backend/core/update_actions/update_actions_executor.py:288-318 | For a container that ran: updated only after a wait with a healthy verdict on its last inspection; rolled back without an error only after a wait for the whole timeout with an unhealthy one; a member that is only started has no error only if it was found running or healthy |
| RunOutcome.UndoneAfterWait | backend/core/container_util/wait_for_container_healthy.py:30-47 | Unless a call raised needlessly or a request does not pass, an update is undone only after its new container was waited for in vain until the timeout was over |
| RunOutcome.ErrorsHaveReasons | backend/core/update_actions/update_actions_executor.py:105-400 | Every error of a member has its reason: an agent error a call that raised needlessly or a container without image id, an invalid configuration a request the validation refuses, a hook error a failed command of that hook, a command error the allowlist or a connect call that raised needlessly, a health error an unhealthy verdict |
| RunOutcome.UndoneForReason | backend/core/update_actions/update_actions_executor.py:252-345 | A member that ends rolled back or failed was found unhealthy, or one of its two create requests fails the validation, or a call for it raised needlessly |
| RunOutcome.UpdatedUnlessTroubled | backend/core/update_actions/update_actions_executor.py:252-318 | An updatable member with an image id ends updated, and runs exactly if it ran, unless a call for it raised needlessly, a pre_stop or pre_update command failed, it was found unhealthy, or one of its requests fails the validation |
| RunOutcome.RestartedUnlessTroubled | backend/core/update_actions/update_actions_executor.py:394-400 | Any other member ends without an error and runs exactly if it ran, with the same exceptions but the validation |
| RunOutcome.RunsAgain | backend/core/update_actions/update_actions_executor.py:189-216 | A member that ran and was neither updated nor undone runs at the end, whatever errors it has, unless a call for it raised needlessly |
| RunOutcome.NetworksKept | backend/core/update_actions/update_actions_executor.py:218-232 | A container that ran and ends updated, or any that ends rolled back, is on exactly its original networks, minus those whose connect command left an error; without attachments it is where its network mode puts it |
| RunOutcome.AttachmentBack | backend/core/update_actions/update_actions_executor.py:218-232 | Of its secondary attachments none comes back that the allowlist refuses, and every other one does unless its connect call raised needlessly |
| RunOutcome.NetworksKeptIff | backend/core/update_actions/update_actions_executor.py:218-232 | If no connect call raised needlessly, it keeps its networks if and only if every secondary attachment is one the allowlist accepts: no links, valid aliases, addresses and names |
| RunOutcome.LinkLost | shared/schemas/command_validator.py:34-46 | A secondary attachment with a link is not there at the end, whatever happens |
| RunOutcome.StoppedKeepsPrimary | backend/core/update_actions/update_actions_executor.py:273-287 | A container that was not running and ends updated is on its one primary network, so it keeps its networks if and only if it had one; without attachments it is where its network mode puts it |
| RunOutcome.UpdatedFromLastPull | backend/core/update_actions/update_actions_executor.py:128-137 | With no earlier member of its reference rolled back or failed, an updated container runs on the image pulled last for that reference in the list, however the specs are spelled |
| RunOutcome.UpdatedFromLastUndo | backend/core/update_actions/update_actions_executor.py:347-360 | Otherwise the last such member before it decides, whatever its spelling: if its re-tag went through, the updated container runs on the image that member was running on at the start |
| RunOutcome.UpdatedOwnImage | backend/core/update_actions/update_actions_executor.py:128-137 | A container whose reference no other updatable member has, in any spelling, runs on its own pulled image whenever it is updated |
| RunOutcome.SpellingsShare | backend/core/check_actions/check_actions_util.py:187-219 | Two members whose specs are a name and the same name with the tag latest share a reference, if references are resolved as the parser does |
| RunOutcome.RolledBackImage | backend/core/update_actions/update_actions_executor.py:347-369 | A rolled back container whose re-tag succeeded runs on the local image kept for it, which is the one it ran on at the start, shared reference or not |
| RunOutcome.FailedHookLeavesAlone | backend/core/update_actions/update_actions_executor.py:170-180 | A failed pre_stop or pre_update command leaves the container unchanged at every moment of the run |
| RunOutcome.DrainedFirst | backend/core/update_actions/update_actions_executor.py:168-187 | A container that ran is disconnected, removed or created only after clean pre_stop and pre_update hooks and a stop |
| RunOutcome.HooksFollowVerdict | backend/core/update_actions/update_actions_executor.py:294-305 | post_update has run exactly for updated containers that ran; post_rollback for every rolled back one and never for an updated one |
| RunOutcome.HooksAsSet | backend/core/update_actions/update_actions_executor.py:168-376 | The call log of a member that ran begins with its whole pre_stop hook as set, for an update then the whole pre_update hook, then the stop, and ends after a hook of which a command failed; an updated one ends with the whole post_update hook, a rolled back one with the whole post_rollback hook; after an unhealthy verdict the whole pre_rollback hook came while the new container was in place |
| RunOutcome.HooksWhole | backend/core/update_actions/hooks_executor.py:38-69 | No hook command is ever run outside its whole hook, and none but those of a rollback for a container that was not running |
| RunOutcome.BystandersKept | backend/core/update_actions/update_actions_executor.py:234-240 | Only updatable members are removed or created; a container outside the plan is the same at every moment |
| RunOutcome.AffectedKept | backend/core/update_actions/update_actions_executor.py:394-400 | A member that is not updated ends as it was except for running; a failed one has an error |
| RunOutcome.CallsLawful | backend/core/update_actions/update_actions_executor.py:166-400 | The calls made for a container are accepted by the protocol; none are made outside the plan |
| CallProtocol.FailedHookBars | backend/core/update_actions/update_actions_executor.py:170-180 | In a lawful call log a failed pre_stop or pre_update command means that nothing but hooks was ever called |
| CallProtocol.PreUpdateInPlace | backend/core/update_actions/update_actions_executor.py:171-174 | pre_update runs only after a clean pre_stop and before anything else is called |
| CallProtocol.ReplacedOnlyDrained | backend/core/update_actions/update_actions_executor.py:171-187 | A running container is replaced only after clean pre_stop and pre_update hooks and a stop |
| CallProtocol.AcceptedExactly | backend/core/update_actions/update_actions_executor.py:296-305 | post_update is done exactly in accepted updates, and no pre_rollback runs in those |
| CallProtocol.RestoredExactly | backend/core/update_actions/update_actions_executor.py:369-376 | post_rollback is done exactly where a rollback came through |
| CallProtocol.PostHooksExclusive | backend/core/update_actions/update_actions_executor.py:298-303 | post_update and post_rollback commands never both run for a container |
| CallProtocol.RollbackHooksAgain | backend/core/update_actions/update_actions_executor.py:307-337 | If the stop of an unhealthy new container raises, its pre_rollback hooks may run a second time, from the clean-up |
| CallProtocol.InPlaceAllAlong | backend/core/update_actions/update_actions_executor.py:166-216 | A container that was never replaced was in place at every earlier point of its call log |
| HookScript.WholeHooks | backend/core/update_actions/hooks_executor.py:53-69 | In a log of whole hooks every command stands within its hook, command by command and with its mark |
| HookScript.BeginsSo | backend/core/update_actions/update_actions_executor.py:168-187 | How a lawful log of whole hooks of a container that ran begins, for an update and without one |
| HookScript.EndsAccepted | backend/core/update_actions/update_actions_executor.py:296-305 | The log of an accepted update ends with the whole post_update hook, which has no command before |
| HookScript.EndsRestored | backend/core/update_actions/update_actions_executor.py:369-376 | The log of a finished rollback ends with the whole post_rollback hook, which has no command before |
| HookScript.OnlyRollbackHooks | backend/core/update_actions/update_actions_executor.py:168-187 | A container that was not running has no hooks but those of a rollback |
| Executor.PlanExecution.RunHooks | backend/core/update_actions/hooks_executor.py:38-69 | All commands the owner set for the hook run, in order, as one whole block of the call log; each failure gives one error, and nothing is raised |
| Executor.RanNext | backend/core/update_actions/hooks_executor.py:55-68 | One more command extends the commands made and their errors |
| Executor.PlanExecution.DisconnectAll | backend/core/update_actions/update_actions_util.py:54-84 | One disconnect call for each attachment of the last inspection, in order, failures swallowed; the container neither vanishes nor changes its running state |
| Executor.PlanExecution.WaitForHealthy | backend/core/container_util/wait_for_container_healthy.py:16-48 | One look at once and further ones at least five seconds apart until one is fine (a healthy status, or running without a healthcheck) or the timeout is over, when a last look decides, which also takes an unknown status; a container without id is never healthy |
| Executor.VerdictAwaited | backend/core/container_util/wait_for_container_healthy.py:30-47 | What such a verdict rests on: every look but the last was before the timeout and not fine, and an unhealthy verdict is given only at a look after the timeout |
| Executor.PlanExecution.Prepare | backend/core/update_actions/update_actions_executor.py:108-151 | Every failure is recorded, and every error has its reason; without errors the item has its local image, a pulled and tagged remote image, and the whole configuration and connect commands of the inspected container |
| Executor.PlanExecution.StopItem | backend/core/update_actions/update_actions_executor.py:168-187 | A container that did not run is untouched; one that ran ends stopped, after pre_update as well if it is to be updated, or refused and unchanged after a failed hook, or in error for a call that raised needlessly; nothing else leaves an error |
| Executor.PlanExecution.AttemptStartWithHealth | backend/core/update_actions/update_actions_executor.py:189-216 | Never stops anything; success means that a container that ran runs again, and was found running or healthy; a failure means an unhealthy verdict on a running container or a call that raised needlessly |
| Executor.PlanExecution.RunCommands | backend/core/update_actions/update_actions_executor.py:218-232 | Every command attached its network or left its error; one that the allowlist accepts attached it unless its call raised needlessly, one that it refuses changed nothing; networks only grow, by original ones |
| Docker.Host.RunCommand | shared/schemas/command_schemas.py:6-12 | A command that the allowlist refuses fails without effect; an accepted one that fails does so for a missing container or a call that raised needlessly; success means that the network is attached |
| Executor.PlanExecution.Replace | backend/core/update_actions/update_actions_executor.py:258-275 | Success means a new, stopped container with the merged configuration on the image its reference is tagged with |
| Executor.PlanExecution.TakeDown | backend/core/update_actions/update_actions_executor.py:315-318 | Success means that the container is gone; a failure means that it was not there or a call on it raised needlessly |
| Executor.PlanExecution.DetachAndRemove | backend/core/update_actions/update_actions_executor.py:316-318 | The removal is the last of the calls it makes, after one disconnect for each attachment |
| Executor.PlanExecution.GiveUp | backend/core/update_actions/update_actions_executor.py:306-318 | All pre_rollback commands of an unhealthy container have run, in order, before the first call that takes it down |
| Executor.PlanExecution.Judge | backend/core/update_actions/update_actions_executor.py:288-318 | True only after a healthy verdict on the last inspection, and then updated with post_update done; false only after an unhealthy one, and then taken down after all pre_rollback commands; any failure is due to a call that raised needlessly |
| Executor.PlanExecution.TryUpdate | backend/core/update_actions/update_actions_executor.py:258-318 | True means updated on the merged configuration, and for a container that ran started, reconnected and found healthy; false means found unhealthy and gone; a failure is due to a refused configuration or a call that raised needlessly |
| Executor.PlanExecution.CleanUp | backend/core/update_actions/update_actions_executor.py:325-345 | Success means that nothing of the failed update is left; a failure means that a call raised needlessly |
| Executor.PlanExecution.TagPrevious | backend/core/update_actions/update_actions_executor.py:348-360 | The reference points to the previous image unless the tag call left its error, which it does only if it raised needlessly |
| Executor.PlanExecution.Restore | backend/core/update_actions/update_actions_executor.py:361-392 | Success means rolled back: previous configuration, started, reconnected, post_rollback done, and the container it keeps is what the last health poll saw |
| Executor.PlanExecution.RollBack | backend/core/update_actions/update_actions_executor.py:347-392 | From an absent container, or one that could not be cleared: ends rolled back, restarted and polled, or failed with an error and a call that raised needlessly; the reference points to the previous image unless the re-tag left its error |
| Executor.PlanExecution.UpdateItem | backend/core/update_actions/update_actions_executor.py:252-392 | Every started update ends with a verdict: updated and, if it ran, found healthy on the merged configuration; or rolled back or failed for a reason; and where the tag then points |
| Executor.PlanExecution.ProcessItem | backend/core/update_actions/update_actions_executor.py:236-400 | A verdict is given exactly to an updatable item at its turn; what each outcome leaves behind, with its health verdict, configuration, networks and tag, and a reason for every error |
| Executor.PlanExecution.UpdateTurn | backend/core/update_actions/update_actions_executor.py:252-392 | The turn of a container that can be updated, settled by its verdict; an undone update has a reason |
| Executor.PlanExecution.AllNetworksRestored | backend/core/update_actions/update_actions_executor.py:285-286 | Primary network and successful connect commands together restore the original networks |
| NetKwargs.GetContainerNetKwargs | backend/core/container_util/get_container_net_kwargs.py:20-137 | The imperative construction yields the specified arguments and commands: names, links, addresses, DNS, hostname and ports, detached modes and old APIs included |
| NetKwargs.OtherArgsKept | backend/core/container_util/get_container_net_kwargs.py:98-121 | Without a network stack of its own a container is sent nothing else; otherwise name resolution and ports as they are, and the hostname unless it is part of the id |
| NetKwargs.PrimaryNetwork | backend/core/container_util/get_container_net_kwargs.py:46-65 | Created on the network of its mode if attached, else on the first attached one, else on the mode itself |
| NetKwargs.MainAttachmentKept | backend/core/container_util/get_container_net_kwargs.py:54-75 | The aliases, links and addresses of the request are those of the primary attachment, links falling back to the legacy ones; an old API changes nothing but the MAC address |
| NetKwargs.MacSent | backend/core/container_util/get_container_net_kwargs.py:70-95 | For any number of attachments: the primary one is sent its own MAC address, which it has only with static addresses, or else the first one of another attachment with static addresses, or none |
| NetKwargs.ForeignMacSentIff | backend/core/container_util/get_container_net_kwargs.py:70-95 | It is sent one that is not its own if and only if it has none and such an attachment exists |
| NetKwargs.MacMoved | backend/core/container_util/get_container_net_kwargs.py:70-95 | Of two attachments, a primary one without static addresses, or with them but without a MAC address, gets the MAC address of the other one that has them |
| NetKwargs.CreatedOnPrimary | backend/core/container_util/get_container_net_kwargs.py:54-65 | A container that is created and not connected further is on its primary network only, so on all its networks if and only if it had one |
| NetKwargs.SecondNetworkLost | backend/core/container_util/get_container_net_kwargs.py:54-97 | An input: of two networks, creation alone keeps the one named by the network mode |
| NetKwargs.EndpointCommand | backend/core/container_util/get_container_net_kwargs.py:76-97 | The command built flag by flag is the specified one |
| NetKwargs.CommandTyped | backend/core/container_util/get_container_net_kwargs.py:76-97 | A command as it is typed, with every kind of option |
| NetKwargs.ConnectAcceptedIff | shared/schemas/command_validator.py:34-46 | The allowlist accepts the command of an attachment exactly when it has no links, valid aliases and addresses, and valid names |
| NetKwargs.ConnectReadsBack | backend/core/container_util/get_container_net_kwargs.py:76-97 | Reading a generated command back gives exactly its aliases, links, addresses, network and container |
| NetKwargs.AttachmentsPartitioned | backend/core/container_util/get_container_net_kwargs.py:54-97 | Primary network and commands together name every attachment exactly once, and nothing else |
| NetKwargs.CommandCount | backend/core/container_util/get_container_net_kwargs.py:73-97 | As many commands as attachments other than the main one |
| NetKwargs.GeneratedReconnects | backend/core/container_util/get_container_net_kwargs.py:54-97 | What is generated is enough to reattach every original network |
| NetKwargs.GeneratedCommand | backend/core/container_util/get_container_net_kwargs.py:76-97 | An accepted generated command attaches its own container to one of its own networks |
| CommandValidator.ResolveCommandSchema | shared/schemas/command_validator.py:49-62 | Succeeds exactly when a registered prefix exists, with the longest one; the two errors |
| CommandValidator.Validate | shared/schemas/command_validator.py:65-102 | For any table, accepts exactly the commands the declarative grammar derives behind the longest prefix, and returns them unchanged |
| CommandValidator.ParsesIffDerives | shared/schemas/command_validator.py:73-100 | Reading from left to right decides the grammar |
| CommandValidator.SentenceUnique | shared/schemas/command_validator.py:73-100 | A command has only one reading |
| CommandValidator.ParsesAfterPairs | shared/schemas/command_validator.py:76-89 | A block of flag and value pairs is allowed as a whole or the command is rejected |
| ContainerConfig.GetContainerConfig | backend/core/container_util/container_config.py:62-193 | The request is the captured configuration, with all generated network arguments and every other field as its mapper gives it, blank ones dropped, and the commands are those of the secondary attachments; it succeeds if and only if the image is named and the request passes the validation |
| ContainerConfig.CapturedFields | backend/core/container_util/container_config.py:118-193 | The captured request has exactly the filled settings and the labels with a passable key, with their values, and its image, name and network arguments |
| ContainerConfig.EntrypointSplit | backend/core/container_util/container_config.py:99-107 | The first word of a customised entrypoint is the entrypoint of the request, the others start its command |
| ContainerConfig.DiffContainerConfigWithImage | backend/core/container_util/container_config.py:37-59 | The merged request is the captured one without the labels the new image defines; it succeeds if and only if that passes the validation |
| ContainerConfig.MergedFields | backend/core/container_util/container_config.py:37-59 | The merged request lacks of these only the labels the new image defines |
| ContainerConfig.CapturedArgvIff | backend/core/container_util/container_config.py:86-112 | When the captured request runs the original command line on an image, for all entrypoints, commands and defaults |
| ContainerConfig.ArgvKeptOnOldImage | backend/core/container_util/container_config.py:99-107 | On its old image a container keeps its command line, unless its entrypoint is missing or blank and customised |
| ContainerConfig.ArgvAcrossUpdateIff | backend/core/container_util/container_config.py:37-59 | When the merged request does so on any new image, through both empty-key drops and the diff; a customised non-blank entrypoint always survives |
| ContainerConfig.WorkdirAcrossUpdateIff | backend/core/container_util/container_config.py:114-116 | When the captured and the merged request keep the working directory on any image |
| ContainerConfig.EmptyEntrypointLost | backend/core/container_util/container_config.py:108-112 | An emptied entrypoint is lost when the image has one |
| ContainerConfig.ImageLabelsWin | backend/core/container_util/container_config.py:47-53 | After an update the new image overrides every label it defines |
| UpdatePlanner.BuildUpdatePlan | backend/core/update_actions/update_actions_plan.py:31-175 | The plan: updatable eligible containers, exactly their transitive dependents, and an order that is exactly the eligible part of the dependency closure, dependencies first outside cycles |
| UpdatePlanner.FilterEligible | backend/core/update_actions/update_actions_plan.py:57-68 | Protected containers, and under the setting those not running, are left out |
| UpdatePlanner.EligibleRead | backend/core/update_actions/update_actions_plan.py:57-68 | A container is left out exactly if its label says true in any case, or it is stopped and only running ones are updated |
| UpdatePlanner.EligibleInOrder | backend/core/update_actions/update_actions_plan.py:57-68 | What is left stands in the order of the list |
| UpdatePlanner.SelectUpdatable | backend/core/update_actions/update_actions_plan.py:70-93 | Exactly the selected containers, by update mark alone for a manual list, else by setting and delay too |
| UpdatePlanner.UpdatableRead | backend/core/update_actions/update_actions_plan.py:70-93 | Selected is exactly what has an update and was asked for, or, if nothing asked for is left, has updates enabled and its own or the global delay over |
| UpdatePlanner.ComposeServiceNames | backend/core/update_actions/update_actions_plan.py:102-109 | A service name within a compose project means the container that claimed it last |
| UpdatePlanner.BuildDependencies | backend/core/update_actions/update_actions_plan.py:111-121 | The dependency map is what both labels say: of every container the names in its own label and the last listed providers, in its project, of the services in its compose label |
| UpdatePlanner.DependenciesRead | backend/core/update_actions/update_actions_plan.py:111-121 | A container depends on exactly the names in its own label and, if it has a project or files label, on the container that was listed last of those with the named service and the same project and files |
| UpdatePlanner.ComposeRead | backend/core/update_actions/update_actions_plan.py:102-121 | Of two containers of a project the one whose compose label names the service of the other depends on it |
| UpdatePlanner.DependencyMapAt | backend/core/update_actions/update_actions_plan.py:111-121 | Every container is mapped to the dependencies its labels give |
| UpdatePlanner.Invert | backend/core/update_actions/update_actions_plan.py:123-127 | The reverse map is exactly the inverse relation, for any iteration order |
| UpdatePlanner.AffectedByDependencies | backend/core/update_actions/update_actions_plan.py:130-145 | Affected are exactly the non-seeds that depend, directly or not, on a seed |
| UpdatePlanner.OrderOf | backend/core/update_actions/update_actions_plan.py:147-169 | No duplicates, exactly the eligible part of the closure, and dependencies first unless they depend back |
| UpdatePlanner.CycleNeverPlanned | backend/core/update_actions/update_actions_plan.py:130-145 | With a dependency cycle wholly among the updatable containers the queue is never empty, after any number of pops |
| UpdatePlanner.SelfDependencyCycles | backend/core/update_actions/update_actions_plan.py:111-145 | An eligible, selected container whose depends_on label names itself is a cycle inside the updatable set, whatever else is on the host |
| UpdatePlanner.OwnNameRead | backend/core/update_actions/update_actions_util.py:87-109 | A depends_on label that is the plain name of its own container is read as naming it |
| UpdatePlanner.PlanClosed | backend/core/update_actions/update_actions_plan.py:130-169 | Updatable and affected are disjoint, eligible, in the order, and closed under eligible dependents |
| UpdatePlanner.AffectedRead | backend/core/update_actions/update_actions_plan.py:130-145 | Affected is exactly what is not selected itself and names in a label somebody selected or affected |
| UpdatePlanner.PlanTopological | backend/core/update_actions/update_actions_plan.py:147-169 | For acyclic dependencies every eligible dependency precedes its dependents, after the final filter too |
| UpdatePlanner.FilteredManualIsScheduled | backend/core/update_actions/update_actions_plan.py:71-93 | A manual list that is empty after the filter selects what a scheduled run selects |
| UpdatePlanner.ManualOnlyAsked | backend/core/update_actions/update_actions_plan.py:71-76 | Nothing but the asked-for containers is updated if any of them is left after the filter; otherwise it is a scheduled run |
| UpdateQueue.FindAffected | backend/core/update_actions/update_actions_plan.py:131-145 | The queue ends, for every order of iteration, and yields exactly the affected containers, when no cycle lies inside the updatable ones |
| UpdateQueue.Pop | backend/core/update_actions/update_actions_plan.py:134-144 | One pop of the queue is one step of the search |
| UpdateQueue.StepSearches | backend/core/update_actions/update_actions_plan.py:134-144 | A pop keeps what the search knows: affected nodes are reached, and reached nodes are affected or wait |
| UpdateQueue.SearchComplete | backend/core/update_actions/update_actions_plan.py:134-145 | With the queue empty, nothing reachable is missing |
| UpdateQueue.PopShrinks | backend/core/update_actions/update_actions_plan.py:134-144 | The pair of unaffected nodes and path weight of the queue decreases on every pop |
| UpdateQueue.ExpansionShrinks | backend/core/update_actions/update_actions_plan.py:142-144 | Expanding an updatable node lowers the path weight of the queue |
| UpdateQueue.CycleRunsForever | backend/core/update_actions/update_actions_plan.py:134-144 | A node of a cycle of updatable containers waits in the queue after every pop |
| UpdateOrder.OrderBuilder.Dfs | backend/core/update_actions/update_actions_plan.py:151-159 | The recursive search visits what is reachable and appends a node after everything it depends on that is not being visited |
| UpdateOrder.OrderBuilder.Build | backend/core/update_actions/update_actions_plan.py:148-162 | The unfiltered order is exactly the closure of the seeds, without duplicates, for any graph |
| UpdateOrder.FilterKeepsOrder | backend/core/update_actions/update_actions_plan.py:166-169 | The final filter keeps the order |
| UpdateOrder.AcyclicOrder | backend/core/update_actions/update_actions_plan.py:147-169 | In an acyclic graph a dependency always comes first |
| DependencyGraph.ReachesBackwards | backend/core/update_actions/update_actions_plan.py:123-128 | Reachability in the reverse map is reachability backwards |
| DependencyGraph.AcyclicBackwards | backend/core/update_actions/update_actions_plan.py:123-128 | The reverse map has a cycle inside a set exactly when the map has |
| Labels.GetDependencies | backend/core/update_actions/update_actions_util.py:87-109 | Names of a dependency label: entries split at commas, conditions cut off, white space and empty entries dropped |
| Labels.EntryRead | backend/core/update_actions/update_actions_util.py:102-107 | A padded entry, with or without condition, is read as its name |
| Labels.LabelRoundTrip | backend/core/update_actions/update_actions_util.py:87-109 | A label written entry by entry is read back as exactly its names |
| CheckHistory.CheckOne | backend/core/check_actions/check_one_container.py:134-194 | The verdict and the stored row of one check that reaches the registry, as `CheckConcludes` says; any other check leaves the row alone |
| CheckHistory.CheckConcludes | backend/core/check_actions/check_one_container.py:134-194 | For the digest that was found: not available, and stored so, exactly if it stands in some local digest; notified exactly if the row had it already; without one the verdict is unknown and mark and change time stay; all other fields of the row |
| CheckHistory.UpToDate | backend/core/check_actions/check_one_container.py:161-173 | A local digest that is a repository name with the found digest means not available |
| CheckHistory.LookUpRemote | backend/core/check_actions/check_one_container.py:134-147 | The first digest a lookup yields, failures and empty answers skipped |
| Database.ContainerTable.InsertOrUpdate | backend/modules/containers/containers_util.py:35-65 | Only the supplied fields of the row change; a missing row is added |
| CheckHistory.UpdateRowsAfterExecution | backend/core/update_actions/update_actions_util.py:22-51 | Exactly the updated containers that have a row lose their mark; no row appears or vanishes |
| CheckHistory.AvailableIsLastVerdict | backend/core/check_actions/check_one_container.py:152-183 | Over any mix of checks and updates, `update_available` is the verdict of the last successful lookup, or false if an update came later |
| CheckHistory.StoredDigests | backend/core/check_actions/check_one_container.py:177-183 | The stored digests are those of the last successful lookup, or empty after a failed one |
| CheckHistory.ReportedExactly | backend/core/check_actions/check_one_container.py:161-188 | When a check reports "available", when "available(notified)", and when it records a change |
| CheckHistory.RecordedChange | backend/core/check_actions/check_one_container.py:184-188 | The change time in the row is that of the last recorded change |
| CheckHistory.RecordedIsReal | backend/core/check_actions/check_one_container.py:184-188 | Without failed lookups it is the time of the last real change of the digest |
| CheckHistory.FailedLookupResets | backend/core/check_actions/check_one_container.py:177-188 | Of three checks with the same digest at both ends, a failed one in between resets the change time to that of the third |
| CheckHistory.OneTimeoutResets | backend/core/check_actions/check_one_container.py:177-188 | An input: one local digest, and a timeout between two equal answers |
| CheckHistory.RecordedCovers | backend/core/check_actions/check_one_container.py:184-188 | With failed lookups too, no real change is later than the recorded one |
| CheckHistory.DelayRespected | backend/core/update_actions/update_actions_plan.py:77-93 | A scheduled plan takes a container only if it is enabled, available, and the delay has passed since every real change of its digest |
| CheckHistory.DelayExact | backend/core/update_actions/update_actions_plan.py:84-92 | Without failed lookups the delay is over exactly when it has passed since the last real change |
| CheckHistory.SettingsKept | backend/modules/containers/containers_util.py:53-58 | Checks and updates leave the settings of the owner alone |
| CheckActions.CheckOneContainer | backend/core/check_actions/check_one_container.py:52-198 | Refused exactly when the key is taken; otherwise its entry ends DONE or ERROR as its obstacle says, with the row and verdict of the check |
| CheckOrder.FilterByCheckEnabled | backend/core/check_actions/check_actions_util.py:19-28 | Exactly the containers whose row has checks enabled, in list order |
| CheckOrder.EnabledInOrder | backend/core/check_actions/check_actions_util.py:19-28 | What is left stands in the order of the list |
| CheckOrder.StableSort | backend/core/check_actions/check_actions_util.py:31-53 | The sort gives the same containers, longest unchecked first and never checked before all, and keeps the order of those checked at the same time |
| CheckOrder.DueExactly | backend/core/check_actions/check_host_containers.py:73-79 | A manual check goes through every listed container, a scheduled one through exactly those with checks enabled, as often as listed, oldest check first |
| CheckActions.CheckHostContainers | backend/core/check_actions/check_host_containers.py:33-99 | Refused or ended, DONE with a result or ERROR without; the containers that are due are asked for one by one, each with one verdict, from the row the earlier checks left |
| CheckActions.CheckAllContainers | backend/core/check_actions/check_all_containers.py:26-80 | Refused or ended; whatever happens to the others, each host with a client asked for its own lock and, where it got it, was checked |
| ImageSpec.Normaliser | backend/core/check_actions/check_actions_util.py:187-219 | Parsing the text rebuilt from a result gives the same result, for every string |
| ImageSpec.NormalExactly | backend/core/check_actions/check_actions_util.py:187-219 | Exactly the normal triples are results of the parser |
| ImageSpec.ParseText | backend/core/check_actions/check_actions_util.py:187-219 | Parsing undoes writing for every normal triple |
| ImageSpec.HubSpellings | backend/core/check_actions/check_actions_util.py:204-219 | The three spellings of the Docker Hub host mean the same before every remainder |
| ImageSpec.ShortNames | backend/core/check_actions/check_actions_util.py:202-217 | A spec is read as a Docker Hub name exactly when its leading part does not name a registry |
| ImageSpec.LibraryImage | backend/core/check_actions/check_actions_util.py:187-219 | A plain name, with or without tag, is a library image of Docker Hub |
| ImageSpec.RegistryImage | backend/core/check_actions/check_actions_util.py:202-217 | What stands before the first slash is the registry if it holds a dot or a colon or is localhost |
| ImageSpec.UserImage | backend/core/check_actions/check_actions_util.py:202-217 | Otherwise it belongs to the path of a Docker Hub image |
| ImageSpec.LatestSpelled | backend/core/check_actions/check_actions_util.py:187-219 | A spec without a tag is parsed like the same spec with the tag latest |
| Progress.ProgressCache.Get | backend/core/progress/progress_cache.py:20-21 | The entry of the key, if any |
| Progress.ProgressCache.Set | backend/core/progress/progress_cache.py:23-24 | Replaces the entry of the key and no other |
| Progress.ProgressCache.Update | backend/core/progress/progress_cache.py:26-28 | Overlays the supplied fields on the entry of the key and changes no other |
| Progress.KeysDistinct | backend/core/progress/progress_util.py:16-30 | Cache keys of different hosts, containers and plans are different strings |
| Tasks.Task.TryStart | backend/core/progress/progress_util.py:33-41 | An action starts exactly when its key is free, with the first write at once; its question is recorded either way |
| LockProtocol.InvariantThroughout | backend/core/progress/progress_util.py:33-41 | Over every interleaving that evicts no running entry: one holder per key, results only with DONE or ERROR, open entries held |
| LockProtocol.InvariantKept | backend/core/progress/progress_util.py:33-41 | Every step keeps that invariant |
| LockProtocol.StartExactly | backend/core/progress/progress_util.py:33-41 | An action may start exactly when its key is free; only plan keys can be shut without a holder |
| LockProtocol.OverMeansEnded | backend/core/check_actions/check_one_container.py:71-198 | An action that is over ended its entry DONE or ERROR, except a plan run left by an exception |
| LockProtocol.OthersKeepMine | backend/core/progress/progress_cache.py:23-28 | No step of another task changes the entries of a waiting one |
| LockProtocol.EvictionBreaksExactly | backend/core/progress/progress_cache.py:6 | A second holder can start right after an eviction exactly when the evicted key was held |
| LockProtocol.AbandonedPlan | backend/core/update_actions/update_actions_executor.py:86-103 | A plan run can leave its entry open for good |
| LockProtocol.AbandonedStaysShut | backend/core/update_actions/update_actions_executor.py:74-86 | Such an entry stays open, and its key shut, until it is evicted |
| LockProtocol.PlansTogether | backend/core/progress/progress_util.py:23-24 | Two plans can run together exactly when their update sets differ, overlapping or not |
| Tasks.TaskSteps | backend/core/progress/progress_cache.py:20-28 | What the modelled actions do to the cache are steps of the protocol: start, status change, end and abandonment, the first one exactly when enabled |
| Tasks.AwaitSound | backend/core/progress/progress_cache.py:20-28 | What an action may rely on across an await holds for every step of the others |

## Left out

- HTTP, the agent's own API, authentication, the registry protocol, notifications, scheduling and the frontend: transport and plumbing. An agent call keeps its effect and its success or failure, a registry lookup is an oracle.
- SQLAlchemy, sessions and transactions: rows are a map per host. Rows are changed by one action at a time; a check that reads a row while an update of the same container stores its result is not modelled.
- ContainerConfig.GetContainerConfig: the mappers of environment, mounts, devices, limits, log options and the other fields that are copied one by one are left out; these fields and the published ports enter as already mapped. What the request validation accepts is an arbitrary predicate.
- Docker's own resolution of an image spec to a reference is an arbitrary function, except in RunOutcome.SpellingsShare, where it is the modelled parser.
- Docker's own checks of addresses: the address test of the allowlist is an arbitrary predicate.
- Docker beyond names, images, configurations, running flags, networks and tags: health is an arbitrary answer per inspection, containers neither crash nor start by themselves, hooks and pruning do not change the modelled state, and creation does not pull.
- Container ids: the health poll looks a container up by name where the code uses its id.
- Image labels and commands beyond entrypoint, command and labels of an inspected image.
- RunOutcome.UpdatedUnlessTroubled: a pull counts as raised needlessly whatever the registry's reason was, since the registry is not modelled; a container without an image id is left to its spec and may fail without any such call.
- Real time: clocks are integers and polling advances by at least five seconds.
- Executor.PlanExecution.DisconnectAll: the attachments it walks are those of the last inspection, which the model lets be older than the host's state, as in the code.
- HostUpdate.FinishPlan: the change of its entry to UPDATING happens before preparation instead of after it, since the run is one call here; no other entry depends on it.
- HostUpdate.UpdateHostContainers: a second plan run on the same host at the same time, possible under a different plan key, does not touch the modelled host during a run.
- HostUpdate.UpdateAllContainers: the final notification, and cancellation of a task, are not modelled.
- Progress.KeysDistinct: container names are those docker allows as far as separators and quotes go, and a host keeps its name while actions run.
- UpdatePlanner.BuildUpdatePlan: requires that no dependency cycle lies wholly among the updatable containers, because with one the code does not end; so do HostUpdate.UpdateHostContainers and what calls it.
