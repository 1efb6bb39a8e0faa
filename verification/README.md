# SD-WAN agent: verified model

The agent runs on a hub or a customer device and does whatever the orchestrator asks: first setup, configuration
updates, package updates, resets. Each request starts a chain of transitions of a seven-state machine inside one
transaction with an undo log. This project models that machine with a failure or a crash possible at every call, proves
what they leave behind over whole runs, and does the same for the protocols and the smaller algorithms around it.
`dafny verify dfyconfig.toml` checks everything.

## How it is modelled

Every call the code makes into a library succeeds, fails or is cut short by a crash, as an arbitrary verdict for that
call says (`Devices.Sys`). The handlers are functions from a device and those verdicts to an outcome; the theorems are
about these functions. `Agents.Agent` is the program in its own form: one object whose fields change step by step, with
the loops of the source, each method proved to end, on every path, exactly as the function of its name. The results are
stated again on its entry points `Serve`, `ServeAll`, `BootUp` and `Run`.

- `Common`, `Configs`, `Transitions`: the stored configuration by sections, the requests, the validation tables.
- `Devices`: what commands change (running state, stored configuration, active subjects, websocket), the undo log with
  persistent and volatile entries and checkpoints, and the library calls.
- `Handlers`, `Engine`: the state handlers and the state service. `Agents`: the same as a class.
- `Steps`, `Safety`, `Checkpoints`, `Boots`, `Runs`: one transition, one command, one boot, whole runs.
- `Calls`, `BootCalls`: which calls a completed command or boot has made, and which of them may have failed.
- `Progress`, `Effects`: which commands complete, and what a completed one has done.
- `PerformProtocol`, `FirstInit`: the two channel protocols as step machines, over every interleaving.
- `Text`, `SyncHosts`, `EnvReset`, `Discovery`, `Dhcp`: the text and result loops.
- `AbandonedSetups`, `Counterexamples`: concrete runs and inputs on which a property one might expect fails.

## What is assumed of the libraries

- A failed `ExecuteFunc`, `ExecuteActivity` or configuration write changes nothing and logs nothing; a successful one
  logs its inverse.
- `FinishTransaction` with an error undoes in reverse order down to the last live checkpoint. Without one it commits; if
  the commit itself fails, what was done stays and the log is gone.
- A checkpoint stops undoing; deleting it takes off that one entry. Recovery after a crash replays the persistent
  entries, which are the configuration writes and activities, down to the last checkpoint.
- `UpdateConfigWithTx` overwrites exactly the sections that are not nil. `GetConfig` returns a copy; a missing
  application or state section reads as a blank one. The `Compare` of a section is equality.
- `EmptyConfig` has a blank serial number, no ports, and a blank stored state or none (`Devices.Assumed`).
- Undo actions do not fail where the contract of the service they call allows them; that it does allow them is proved.
- `ActivateHandler` and `DeactivateHandler` refuse an active and an inactive subject. The publisher is closed when the
  process starts.
- The environment file is read as the last assignment to a variable, quotes removed. The result pool returns each host's
  result, in any order. Texts are counted in characters; the scanner's limit of 65536 counts bytes, so the two agree on
  ASCII.

## What turned out not to hold

Each of these has its exact condition proved, and an input that shows it.

- A failed command is not always undone (`Safety.FailedCommandIsUndone`; for a caller, `Checkpoints.AlwaysUndoneIff`). It
  takes a live checkpoint, so the command is one of two. An update of the agent package: it was installed, or the
  installation failed and so did deleting the checkpoint, and then the return to active fails; the device stays in
  maintenance, where it completes no command until it is restarted (`Counterexamples.FailedUpdateStrands`). A reset of a
  device other than a hub: the database cannot be closed and the checkpoint cannot be deleted; the device stays in reset
  with the empty configuration (`Counterexamples.FailedResetStays`). Apart from that, an error reply can come from a
  commit that failed; then everything that was done is in place (`Safety.FinishDone`).
- In maintenance, a first setup with a port and full addresses starts the websocket although it is started. Nothing else
  ever calls a service in the wrong state (`Runs.RunMisuse`, `Progress.StrandedMisusesIff`).
- A first setup that gives up, because the websocket does not start or the wait runs out, never clears its registration.
  If no initialization is on its way, later first setups of that process are refused
  (`AbandonedSetups.TheNextIsRefused`). If one holds the mutex, or comes in later, it blocks for good on its answer, and
  the next first setup hangs on its registration, and with it the state service: nobody is answered any more
  (`FirstInit.RegistrationHangsIff`, `PerformProtocol.HungAnswersNobody`, `AbandonedSetups.TheNextHangs`).
- After such a timeout an initialization can go on writing on a transaction that was already undone
  (`FirstInit.LateIff`, `AbandonedSetups.AnInitializationIsLate`).
- Refreshing the hosts file is not idempotent when a pair is looked up twice, for example when a host is configured under
  both schemes: the count never matches and every run adds a blank line (`SyncHosts.SyncIsIdempotentIff`).
- Blanking the environment file is not idempotent when an untouched line ends in more than one carriage return
  (`EnvReset.RewriteIsIdempotentIff`).
- Finding the primary depends on the order of answers if a host with an empty name answers as primary besides one other
  (`Discovery.OrderIsIrrelevantIff`); hosts with names never show it.

Two smaller observations: the check whether a device is already initializing cannot fail, since the mutex is held
(`FirstInit.NeverAlreadyInitializing`), and a lease without an address is not skipped but ends the process when its row is
indexed (`Dhcp.RowsExistIff`).

## Model

| member | source | states |
|---|---|---|
| `Safety.FailedCommandIsUndone` | internal/domains/appstate/service.go:118-151 | A command whose chain fails anywhere, in any of its transitions, leaves state, configuration, subjects and websocket as they were before it, if and only if no checkpoint is live; every undo action finds its service in a state that allows it, no service was misused on the way, and with a live checkpoint the device is exactly the one the checkpoint stands for, its configuration being the old one without services, or emptied by the reset |
| `Checkpoints.AlwaysUndoneIff` | internal/domains/appstate/service.go:118-151 | For a caller: a resting device that takes on a command is sure to be as before whenever the chain of the command fails, in whatever environment, if and only if the command is neither a reset of a device other than a hub nor an update of the agent package |
| `Checkpoints.UncheckpointedIsUndone` | internal/domains/appstate/service.go:118-151 | Any other command whose chain fails is answered with an error and changes nothing at all |
| `Checkpoints.FatalCallsAreFatal` | internal/domains/appstate/handlers/maintenance.go:138-158 | For each of those two commands, on every resting device that takes it on, the calls whose failure leaves it half done: the first call of the return to active, or closing the database together with deleting the checkpoint |
| `Checkpoints.ResetHalfDoneOnlyIf` | internal/domains/appstate/handlers/reset.go:186-197 | A failed reset is left half done only if both closing the database and deleting the checkpoint fail |
| `Safety.FinishDone` | internal/domains/appstate/service.go:145-151 | A commit that fails leaves what was done in place and answers with an error; a nil reply means the chain completed |
| `Safety.ServeMisusesNothing` | internal/domains/appstate/service.go:116-156 | No command from rest calls the message queue or the websocket in a state that does not allow it, not even while it is undone or when it crashes |
| `Safety.StrandedMisuse` | internal/domains/websocket/service.go:68-75 | A device left in maintenance misuses nothing, except that a first setup with a port and full addresses may start the started websocket |
| `Safety.ServeAllRests` | internal/domains/appstate/service.go:116-156 | Over any sequence of commands the device stays at rest or in maintenance, and each is answered unless the process dies |
| `Safety.ServeComesToRest` | internal/domains/appstate/service.go:116-156 | From rest, a command that is answered ends at rest again: in init, active or (non-hub) reset with exactly the subjects and websocket of that state; the one exception is an update of the agent package that failed past its checkpoint and is left in maintenance |
| `Safety.CrashIsRecovered` | cmd/app/main.go:86-98 | A crash at any call of any command: what recovery reads from disk is the configuration from before the command if no checkpoint was taken, that of the checkpoint if one was, and nothing if the reset had removed it; only a non-hub reset and an update of the agent package can leave a checkpoint |
| `Safety.FrozenUntilReboot` | internal/domains/appstate/service.go:199-217 | A non-hub device that was reset, or one left in maintenance, does not complete any command: each is refused or undone, and a crash is recovered to the same configuration |
| `Safety.FrozenThroughout` | internal/domains/appstate/service.go:116-156 | The same for any sequence of commands |
| `Safety.ChainIsShort` | internal/domains/appstate/service.go:131-143 | The loop over follow-ups makes at most two transitions |
| `Safety.CommandFollowUps` | internal/domains/appstate/service.go:131-143 | A completed first transition is in the state asked for, and what it asks for next is one of the four finishing transitions |
| `Safety.ChainIsReversible` | internal/domains/appstate/service.go:131-143 | Undoing the whole log of a chain, checkpoints ignored, restores everything, each action being applicable in turn; after a crash it restores the configuration |
| `Safety.ChainParks` | internal/domains/appstate/handlers/reset.go:175-203 | A live checkpoint at the end of a chain was left by its first transition, and undoing to it gives the device as it was parked there |
| `Safety.ChainComesToRest` | internal/domains/appstate/service.go:131-143 | A chain from rest misuses no service, complete or not, and a completed one ends at rest |
| `Steps.StepIsReversible` | internal/domains/appstate/service.go:199-249 | One transition can be undone in full from wherever it stops; one that cannot set a checkpoint can also be undone without passing one |
| `Steps.StepStaysSteady` | internal/domains/appstate/service.go:199-249 | From a device whose subjects and websocket are those of its state, an expected transition calls every service in a state its contract allows, and a completed one leaves a device of the same kind, ready for its follow-up |
| `Steps.SubscribeAll` | internal/domains/appstate/handlers/active.go:336-352 | Subscribing distinct inactive subjects activates exactly them and never activates an active one |
| `Steps.UnsubscribeAll` | internal/domains/appstate/handlers/active.go:354-370 | Unsubscribing distinct active subjects deactivates exactly them and never deactivates an inactive one |
| `Steps.SubjectTables` | internal/domains/appstate/handlers/init.go:123-131 | The subject lists of init and active have no repetitions and do not meet the permanent subjects |
| `Steps.ExitSteady` | internal/domains/appstate/handlers/init.go:221-232 | Leaving init or active, except by migration, deactivates exactly that state's subjects |
| `Boots.BootComesToRest` | internal/domains/appstate/service.go:160-197 | A completed boot is at rest in the state that stored state, serial number and device id determine, with exactly the configuration from before except for the state and, on migration, serial number and address (spelled out by `BootLeadsTo`); an interrupted boot leaves a disk that recovers to what it found; no boot misuses a service, not even while it is undone |
| `Boots.BootLeadsTo` | internal/domains/appstate/handlers/init.go:273-284 | A completed boot by the stored state and the characters of the device id: with none or init stored, an id that is not blank and has no x in it leads to active with that id as serial number and the endpoint as only address, any other to init with nothing else changed; a reset leads on by the serial number; an unknown state never boots |
| `Boots.BootChainReplays` | internal/domains/appstate/service.go:160-197 | Whatever a boot has logged when it ends can be undone with each action applicable in turn |
| `Boots.FaultlessBootSucceeds` | internal/domains/appstate/service.go:181-196 | With no failing step a boot from any stored state but boot itself, or none, completes |
| `Boots.HandleAfterBoot` | internal/domains/appstate/service.go:177-196 | The first transition of a boot ends at rest or hands on to the one follow-up its state calls for |
| `Boots.PassingComesToRest` | internal/domains/appstate/service.go:182-196 | The second transition of a boot ends the boot at rest |
| `Boots.MigrateWrites` | internal/domains/appstate/handlers/active.go:269-289 | Migration sets serial number and orchestrator address and keeps the rest of the configuration |
| `Runs.RunIsSafe` | internal/domains/appstate/service.go:104-157 | Over every run of commands, failures, crashes, power cuts and restarts, in any order: up, the agent is at rest or left in maintenance; down, its disk boots |
| `Runs.RunMisuse` | internal/domains/websocket/service.go:63-85 | Over every such run, across crashes and restarts, the message queue is never called in a state that does not allow it, and the websocket only if the run asks an agent left in maintenance for a first setup that gets as far as starting it |
| `Runs.FactoryRunIsSafe` | internal/domains/appstate/service.go:176-181 | In particular every run from an empty disk |
| `Runs.RestingMeans` | cmd/app/main.go:106-117 | At rest: the three permanent subjects plus the seven of init, the two of active, or none; websocket started exactly in active; stored state equal to the running one in init and active |
| `Runs.ResetThenBoot` | internal/domains/appstate/handlers/reset.go:198-212 | A device that was reset and is restarted without faults comes up in init, from nothing if the removal of its configuration worked |
| `Runs.CrashThenBoot` | cmd/app/main.go:86-130 | Crash anywhere in a command, recover, boot without faults or migration: the device is exactly as before the command if no checkpoint was taken, in init after that of a reset, in active after that of an agent update |
| `Progress.CommandCompletesIff` | internal/domains/appstate/service.go:199-217 | Without faults a command completes exactly when the running state takes it on, as listed for `TakesOnIff`, a first setup has a port and a scheme on every address, and a hub port has a mask that converts; any other is answered with an error and changes nothing |
| `Progress.TakesOnIff` | internal/domains/appstate/handlers/init.go:139-147 | The validation tables amount to this for a resting or stranded agent: init takes on first setup, reset and the three setup commands; active takes on update, rebuild, package update and reset; reset and maintenance take on first setup alone |
| `Progress.FailingCallFails` | internal/domains/appstate/service.go:131-151 | A command that sets no checkpoint and meets a failing call before its commit, other than one whose error the code only logs, is answered with an error and changes nothing |
| `Progress.TunnelCheckCounts` | internal/domains/appstate/handlers/update_config.go:147-151 | On a customer device, with a tunnel section in the patch and a different port or administrative section, a failed tunnel check fails the update and changes nothing |
| `Progress.ResetRemovesIff` | internal/domains/appstate/handlers/reset.go:198-203 | After a completed reset the configuration is off the disk exactly if its removal worked |
| `Calls.NilReplyMakes` | internal/domains/appstate/service.go:117-151 | A command other than a package update that is answered with nil has made exactly the calls of the table, and every one succeeded but those whose error the code only logs: refreshing the hosts, blanking the environment file, removing the configuration |
| `Calls.ApplyConfigMakes` | internal/domains/appstate/handlers/update_config.go:98-154 | The hosts are refreshed exactly for a different application section, and the tunnels checked exactly on a customer device with a tunnel section and a different port or administrative section; only the refresh may fail |
| `Calls.InTheMiddle` | internal/domains/appstate/handlers/update_config.go:105-112 | A port change finds the websocket stopped when the configuration is written, and between its two writes a rebuild has no services |
| `Calls.ResetDeviceMakes` | internal/domains/appstate/handlers/reset.go:175-214 | Of a completed reset only the environment file and the removal may have failed; a failed one keeps its checkpoint only if both closing the database and deleting the checkpoint failed |
| `Calls.InitDeviceMakes` | internal/domains/deviceinit/service.go:193-285 | A completed initialization checked the tunnels on a customer device, the websocket on a customer device and a hub, and no call of it failed |
| `Calls.CheckpointIsTakenBack` | internal/domains/appstate/handlers/maintenance.go:147-157 | A failed installation of the agent keeps its checkpoint only if deleting it failed too |
| `Calls.PackagesMake` | internal/domains/appstate/handlers/maintenance.go:122-179 | A package update completes exactly if every call it makes succeeds |
| `Calls.FailureIsReported` | internal/domains/appstate/handlers/maintenance.go:62-98 | The error handed on after a package update or its wait is there exactly if some call of it, or the report, failed |
| `BootCalls.BootMakes` | internal/domains/appstate/service.go:160-197 | A completed boot has made exactly the calls of the table, and every one succeeded but the wait and the report of a boot into maintenance, whose error is handed on |
| `Progress.FirstSetupOutcome` | internal/domains/appstate/handlers/active.go:164-252 | Without faults and with an init request in time, first setup succeeds exactly on an acceptable request |
| `Progress.HandlerOutcome` | internal/domains/appstate/service.go:234-237 | Without faults every other handler succeeds exactly when the mask of a hub port, if any, converts |
| `Progress.StrandedMisusesIff` | internal/domains/websocket/service.go:68-75 | Without faults a device left in maintenance misuses the websocket exactly on a first setup with a port and full addresses |
| `Effects.CompletedCommandDoes` | internal/domains/appstate/service.go:234-248 | What each completed command has done to a resting device, as one equation on the whole device: an update overwrites the given sections, a rebuild is the identity up to missing service sections, port commands change the ports alone, first setup installs exactly the given serial number and the init request that arrived meanwhile, a package update empties the service sections for the agent and routing packages, always if none of its calls failed, and changes nothing else, a reset leaves the old configuration overwritten with the empty one, the ports of a hub excepted |
| `Effects.RebuildFills` | internal/domains/appstate/handlers/update_config.go:156-191 | Emptying the six service sections and writing the old ones back changes nothing but missing sections, which become empty |
| `Effects.UpdateWrites` | internal/domains/appstate/handlers/maintenance.go:122-136 | A package update empties the service sections only for the agent and routing packages, and always when none of its calls failed |
| `Effects.ResetWrites` | internal/domains/appstate/handlers/reset.go:140-143 | A completed reset overwrites the configuration with the empty one; a hub keeps its ports |
| `Effects.SetupWrites` | internal/domains/appstate/handlers/active.go:164-231 | A completed first setup had a port and complete addresses and leaves the configuration of the request and of the init request that arrived while it waited |
| `Effects.InitWrites` | internal/domains/deviceinit/service.go:193-281 | A completed device initialization leaves the old configuration with tunnel, addresses and the thirteen sections of the request, missing addresses keeping the old ones |
| `Effects.PortsWritten` | internal/domains/appstate/handlers/ztp_setup.go:116-185 | Setting or deleting a hub port changes the port section alone, and setting it takes a mask that converts |
| `Effects.CommandEndsIn` | internal/domains/appstate/service.go:131-143 | The state in which a completed command leaves the device |
| `Counterexamples.FailedResetStays` | internal/domains/appstate/handlers/reset.go:186-203 | An input on which a failed reset is not undone: neither closing the database nor deleting the checkpoint succeeds, and the device stays in reset without its configuration |
| `Counterexamples.FailedUpdateStrands` | internal/domains/appstate/handlers/maintenance.go:138-158 | An input on which a failed command is not undone: the agent package installs, the return to active fails, the device stays in maintenance |
| `Devices.UnmarkedUnwind` | internal/domains/appstate/service.go:145 | With no checkpoint in the log, undoing to the last checkpoint is undoing everything |
| `Devices.UnwindAgreesOnDisk` | cmd/app/main.go:86-92 | Undoing after a crash, when only persistent entries are left, reaches the same configuration as undoing in the running process |
| `Devices.MarkIsTransparent` | internal/domains/appstate/handlers/reset.go:175-178 | A checkpoint undone to changes nothing further, and taking it off gives the log from before |
| `Devices.WriteConfig` | internal/domains/appstate/service.go:253-262 | A logged configuration write can be taken back in full, and a failed one changes nothing |
| `Devices.SetRuntime` | internal/domains/appstate/service.go:265-280 | The logged change of the running state can be taken back, except out of boot |
| `Devices.ActivateSubject` | internal/domains/appstate/handlers/active.go:338-346 | Activating a subject can be taken back; activating an active one is an error and is recorded as misuse |
| `Devices.DeactivateSubject` | internal/domains/appstate/handlers/active.go:356-364 | Deactivating a subject can be taken back; deactivating an inactive one is an error and is recorded as misuse |
| `Devices.BareStart` | internal/domains/websocket/service.go:68-75 | Start leaves the websocket started, and is a misuse exactly when it was |
| `Devices.BareStop` | internal/domains/websocket/service.go:78-85 | Stop leaves the websocket stopped, and is a misuse exactly when it was |
| `Devices.StartWebsocket` | internal/domains/appstate/handlers/active.go:320-326 | A logged start needs a stopped websocket and can be taken back |
| `Devices.StopWebsocket` | internal/domains/appstate/handlers/reset.go:125-133 | A logged stop needs a started websocket and can be taken back |
| `Devices.AddCheckPoint` | internal/domains/appstate/handlers/reset.go:175-178 | A checkpoint changes nothing else, and from there undoing has nothing to do |
| `Devices.DeleteCheckPoint` | internal/domains/appstate/handlers/reset.go:189-193 | Deleting a checkpoint takes off exactly that one and leaves the rest of the log undoable |
| `Handlers.HandleInit` | internal/domains/appstate/handlers/init.go:149-219 | Can be taken back; touches subjects only; hands on only after boot, and only to migration |
| `Handlers.RestoreInit` | internal/domains/appstate/handlers/init.go:235-270 | Can be taken back; touches subjects only |
| `Handlers.Connect` | internal/domains/appstate/handlers/active.go:164-231 | Can be taken back; without a port it fails and changes nothing; on success the websocket went from stopped to started |
| `Handlers.FirstSetup` | internal/domains/appstate/handlers/active.go:164-252 | Can be taken back, including everything an init request did meanwhile; needs a port and a stopped websocket |
| `Handlers.Migrate` | internal/domains/appstate/handlers/active.go:269-305 | Can be taken back; needs a stopped websocket and leaves it started |
| `Handlers.RestoreActive` | internal/domains/appstate/handlers/active.go:308-334 | Can be taken back; leaves the websocket started and the configuration alone |
| `Handlers.HandleActive` | internal/domains/appstate/handlers/active.go:68-154 | Can be taken back; never hands on; only first setup and migration touch the configuration |
| `Handlers.InitDevice` | internal/domains/deviceinit/service.go:193-285 | What it does on the transaction it runs on can be taken back; it leaves state, subjects and websocket alone |
| `Handlers.ApplyConfig` | internal/domains/appstate/handlers/update_config.go:98-154 | Although the websocket is stopped and started outside the transaction, from a started websocket every exit but a crash leaves it started and everything undoable; a crash in between still recovers the configuration |
| `Handlers.HandleUpdateConfig` | internal/domains/appstate/handlers/update_config.go:52-92 | The same for the handler; an interrupted update falls back to active after boot |
| `Handlers.InstallAgent` | internal/domains/appstate/handlers/maintenance.go:138-178 | A failed installation takes its checkpoint back if it can; a live checkpoint afterwards stands for the device as it is |
| `Handlers.UpdatePackages` | internal/domains/appstate/handlers/maintenance.go:122-179 | A checkpoint is left only for the agent package, always if that succeeded; nothing is logged after it |
| `Handlers.HandleMaintenance` | internal/domains/appstate/handlers/maintenance.go:62-98 | An update that fails still hands on to active; after boot the websocket is started once |
| `Handlers.HandleZTPSetup` | internal/domains/appstate/handlers/ztp_setup.go:49-102 | Can be taken back; touches the configuration only; always hands on to init |
| `Handlers.ResetDevice` | internal/domains/appstate/handlers/reset.go:123-215 | Sets its checkpoint only when everything before it succeeded, with empty configuration and stopped websocket; success means the checkpoint is live; the configuration is removed from disk only then |
| `Handlers.ResetHub` | internal/domains/appstate/handlers/reset.go:217-259 | Can be taken back; stops the websocket, blanks the serial number, keeps the ports |
| `Handlers.HandleReset` | internal/domains/appstate/handlers/reset.go:71-116 | Dispatch of the above; after boot it hands on to init exactly when the serial number is blank |
| `Engine.OnExit` | internal/domains/appstate/handlers/init.go:221-232 | Can be taken back; touches subjects only |
| `Engine.UpdateAppState` | internal/domains/appstate/service.go:252-283 | Stored state first, running state second; can be taken back; a failure between the two leaves the running state |
| `Engine.PerformTransition` | internal/domains/appstate/service.go:199-249 | A follow-up is of lower rank than the transition it follows, so chains end |
| `Agents.Agent.constructor` | cmd/app/main.go:106-117 | A fresh process: state boot, no subjects, websocket closed |
| `Agents.Agent.Subscribe` | internal/domains/appstate/handlers/active.go:336-352 | The subscribe loop ends, on every path, as the recursive specification says |
| `Agents.Agent.Unsubscribe` | internal/domains/appstate/handlers/active.go:354-370 | The unsubscribe loop ends, on every path, as the recursive specification says |
| `Agents.Agent.Connect` | internal/domains/appstate/handlers/active.go:164-231 | First setup up to its answer, with the loop over the addresses, ends as specified |
| `Agents.Agent.RollBack` | internal/domains/appstate/service.go:145 | Undoing entry by entry to the last checkpoint ends where the specification of undoing says |
| `Agents.Agent.Finish` | internal/domains/appstate/service.go:145-151 | Commit after success, undo after failure, as specified |
| `Agents.Agent.Chain` | internal/domains/appstate/service.go:131-143 | The follow-up loop terminates and ends as the specified chain |
| `Agents.Agent.Serve` | internal/domains/appstate/service.go:117-151 | From rest: no service misused; a nil reply means rest again, the full effect of the command and no failed call but those whose error is only logged; an error reply means rest, or maintenance after a command with a checkpoint; a failed chain without one is undone; a crash without a checkpoint recovers the old configuration. A reset or stranded agent stays as it is |
| `Agents.Agent.Answer` | internal/domains/appstate/service.go:116-156 | The service loop over requests ends, replies included, as serving them one after the other |
| `Agents.Agent.ServeAll` | internal/domains/appstate/service.go:116-156 | What the service loop leaves: replies are those of serving the requests one after the other, one per request, and the agent ends at rest or in maintenance; a reset or stranded agent stays as it is |
| `Agents.Agent.BootUp` | cmd/app/main.go:106-130 | From any bootable disk a completed start-up is at rest in the state, and with the configuration, that the stored state and the device id determine; a start-up that dies leaves the disk recoverable to what it was |
| `Agents.Agent.Run` | internal/domains/appstate/service.go:104-157 | The life of a process, boot and then any commands: while it lives, it is between commands at rest or in maintenance, and has answered every request |
| `PerformProtocol.RunsAreSequential` | internal/domains/appstate/service.go:88-156 | Any number of callers, any interleaving: at most one request is in progress; each accepted request is answered once, on its own channel, while its caller waits there; device and replies are those of serving the requests one by one in order of acceptance, up to a first setup that hangs |
| `PerformProtocol.BusyServerMoves` | internal/domains/appstate/service.go:117-151 | A live server with a request in progress has a step to take, and never sends on a closed channel, exactly unless it hangs, which only a first setup can |
| `PerformProtocol.AnswersWithinSixSteps` | internal/domains/appstate/service.go:117-151 | From one acceptance to the next the server takes at most six steps, whatever callers do: every accepted request is answered, or the process dies, or a first setup hangs |
| `PerformProtocol.HungAnswersNobody` | internal/domains/appstate/handlers/active.go:212 | Once a first setup hangs, no request is accepted or answered any more |
| `PerformProtocol.ReplyIsNilIff` | internal/domains/appstate/service.go:123-151 | A caller gets nil exactly when starting, running and finishing its transaction all succeeded |
| `PerformProtocol.ServeOneMore` | internal/domains/appstate/service.go:116-156 | Serving one more request extends the sequential history by exactly its reply |
| `FirstInit.OwnershipInEveryRun` | internal/domains/deviceinit/service.go:144-165 | In every reachable state each transaction, of a first setup, of any other command or of an initialization, was finished at most once and by its opener, is unfinished exactly while its opener works on it, and a failed initialization on a borrowed transaction lets the setup end in failure only |
| `FirstInit.AnswersAreTrue` | internal/domains/deviceinit/service.go:167-176 | What is answered is how the work ended: a failed initialization leaves the setup it served only failures, a successful one answered in time is answered as success until the setup finishes, an own transaction is committed only after success, and no waiter has an answer without such work |
| `FirstInit.RunKeepsInv` | internal/domains/deviceinit/service.go:128-188 | Mutual exclusion, ownership, registration and exactly-once answers hold in every run, abandoned setups included |
| `FirstInit.NeverAlreadyInitializing` | internal/domains/deviceinit/service.go:178-183 | The already-initializing error cannot occur: the mutex rules it out |
| `FirstInit.RegistrationHangsIff` | internal/domains/deviceinit/service.go:128-176 | A first setup that is about to register never gets to, in any continuation, exactly if an earlier one gave up and an initialization holds the mutex |
| `FirstInit.HungForGood` | internal/domains/deviceinit/service.go:167-176 | From then on nobody gets the mutex, no initialization ends, and the setup waits for good |
| `FirstInit.RegistrationComes` | internal/domains/deviceinit/service.go:128-141 | Otherwise the initialization that holds the mutex lets the registration through within three steps |
| `FirstInit.NextHung` | internal/domains/appstate/handlers/active.go:224-231 | This comes about exactly by a setup giving up during its initialization, or by an initialization after one gave up |
| `FirstInit.LateIff` | internal/domains/deviceinit/service.go:143-188 | An initialization is at work on a transaction that was finished before exactly if it borrowed it from a setup that is gone; that takes a setup that gave up |
| `FirstInit.StaleIffAbandoned` | internal/domains/appstate/handlers/active.go:224-231 | A registration outlives its setup exactly in the runs in which a setup gave up without an answer |
| `FirstInit.HandoverWorksUnlessAbandoned` | internal/domains/deviceinit/service.go:128-176 | Until a setup gives up, no registration is refused and every answer finds its waiter; afterwards every registration that returns at all is refused, and an initialization that comes to its answer blocks for good inside the mutex |
| `AbandonedSetups.TheNextIsRefused` | internal/domains/deviceinit/service.go:132-136 | A run in which a setup that gave up makes the next one fail |
| `AbandonedSetups.TheNextHangs` | internal/domains/deviceinit/service.go:167-176 | A run in which a setup gives up during its initialization and the next one hangs for good |
| `AbandonedSetups.AnInitializationIsLate` | internal/domains/deviceinit/service.go:167-176 | A run in which an initialization is still at work on a transaction that was finished before |
| `SyncHosts.Service.SyncHosts` | internal/domains/nslookup/service.go:44-159 | Each error exactly in its circumstances and leaving the file alone; otherwise, if anything was looked up, the file is the synced one |
| `SyncHosts.SyncedEntries` | internal/domains/nslookup/service.go:128-156 | Whether it writes or not, afterwards the orchestrator entries read from the file are exactly the looked-up pairs |
| `SyncHosts.ChangeTestIsExact` | internal/domains/nslookup/service.go:128-140 | Nothing is written exactly when the entries of the file are the looked-up pairs and no pair was looked up twice |
| `SyncHosts.SyncIsIdempotentIff` | internal/domains/nslookup/service.go:128-156 | A second run with the same lookups leaves the file as it is exactly when no pair is looked up twice; otherwise every run makes the file longer by one blank line |
| `SyncHosts.RewriteFrame` | internal/domains/nslookup/service.go:98-151 | Every trimmed line that is neither marker nor entry is kept, in order, followed by one blank line, the marker and the new hosts in lookup order; this is also how the file reads back |
| `SyncHosts.RewriteLayout` | internal/domains/nslookup/service.go:141-151 | The rewritten file line by line: what is kept, a blank line, the marker, then each pair with its address before its name |
| `SyncHosts.KeptAlone` | internal/domains/nslookup/service.go:101-121 | A line alone is dropped exactly if, trimmed, it is the marker or its second field is an orchestrator |
| `SyncHosts.KeptAppend` | internal/domains/nslookup/service.go:98-122 | Line after line: what is kept of two texts is what is kept of each |
| `SyncHosts.AddressComesFirst` | internal/domains/nslookup/service.go:106-110 | A line is read as address, then name |
| `SyncHosts.HostNameDropsTheScheme` | internal/domains/nslookup/service.go:63-64 | The host name is what follows the scheme |
| `SyncHosts.ResolveAlone` | internal/domains/nslookup/service.go:62-75 | An address contributes one pair for every address of its host, in order, or fails |
| `SyncHosts.ResolveAppend` | internal/domains/nslookup/service.go:62-75 | Addresses are resolved one after the other, and one failure fails the whole |
| `SyncHosts.RewrittenEntries` | internal/domains/nslookup/service.go:141-156 | Parsing what was printed gives the looked-up pairs |
| `SyncHosts.SetOfIsSmall` | internal/domains/nslookup/service.go:129-136 | Counting: a list has as many distinct members as it is long exactly when nothing repeats |
| `SyncHosts.LineParses` | internal/domains/nslookup/objects.go:21-23 | A printed pair without white space parses as that pair |
| `SyncHosts.LineIsInjective` | internal/domains/nslookup/objects.go:21-23 | Two pairs print alike only if they are equal |
| `SyncHosts.ResolvedIsWellFormed` | internal/domains/nslookup/service.go:62-75 | What a lookup of clean names gives is what the results above ask for |
| `SyncHosts.ResolveAll` | internal/domains/nslookup/service.go:58-75 | The lookup loop gives all pairs in order, or fails if one lookup does |
| `SyncHosts.ScanLines` | internal/domains/nslookup/service.go:98-122 | The scan loop gives the text to keep and the set of existing entries |
| `SyncHosts.DeleteAll` | internal/domains/nslookup/service.go:130-136 | The deletion loop leaves something exactly when some existing entry was not looked up |
| `Counterexamples.TwoSchemesGrowTheFile` | internal/domains/nslookup/service.go:62-75 | The same host under both schemes makes every file grow with every run |
| `EnvReset.EnvFile.TryReset` | internal/domains/appstate/handlers/reset.go:261-313 | Succeeds exactly when the file could be read, scanned and written, and then the file is the rewritten one; an error leaves it alone |
| `EnvReset.RewriteIsPointwise` | internal/domains/appstate/handlers/reset.go:277-302 | Line by line: non-empty lines stay in place, and exactly the assignments whose trimmed key starts with one of the two names are blanked |
| `EnvReset.TargetsIff` | internal/domains/appstate/handlers/reset.go:283-301 | A line is rewritten exactly if it has an equals sign and what stands before the first one starts, trimmed, with the name |
| `EnvReset.RewriteKeepsTheRest` | internal/domains/appstate/handlers/reset.go:277-302 | What is not such an assignment is the same before and after, in order |
| `EnvReset.RewriteIsIdempotentIff` | internal/domains/appstate/handlers/reset.go:277-302 | Rewriting twice is rewriting once exactly when no line kept as it is ended in more than one carriage return |
| `EnvReset.ResetEndsMigration` | internal/domains/appstate/handlers/init.go:273-284 | After a reset the next process reads an empty device id, so a boot into init stays there |
| `Counterexamples.DoubleCarriageReturn` | internal/domains/appstate/handlers/reset.go:277-302 | A file that a second rewrite changes again |
| `Discovery.Service.FetchPrimary` | internal/domains/discovery/service.go:52-96 | For non-empty hosts, each asked as often as it is listed, whatever the order of answers: the host whose check succeeded as primary if there is one, split brain if several did, not found if none |
| `Discovery.OrderIsIrrelevantIff` | internal/domains/discovery/service.go:73-95 | The outcome depends on the collected results alone exactly unless there are one named primary and some nameless one |
| `Discovery.OrderShowsBothWays` | internal/domains/discovery/service.go:82-88 | In that case one order finds the primary and another calls it a split brain |
| `Counterexamples.NamelessPrimary` | internal/domains/discovery/service.go:82-88 | Two results for which the order decides |
| `Dhcp.Format` | internal/domains/dhcp/formatter.go:33-102 | The loop gives the specified rows, or the scanner's error, or the crash on a lease without an address |
| `Dhcp.ReadFields` | internal/domains/dhcp/formatter.go:62-83 | The token loop gives the specified fields |
| `Dhcp.RowsAreNumbered` | internal/domains/dhcp/formatter.go:85-94 | Rows are numbered without gaps and are exactly the leases the link does not exclude, in order |
| `Dhcp.AddressDecides` | internal/domains/dhcp/formatter.go:85-121 | A printed lease has a row unless its address, the value of the second keyword, is known not to belong to the link |
| `Dhcp.LeaseAlone` | internal/domains/dhcp/formatter.go:42-57 | A line alone is read trimmed, unless it is blank or the legend |
| `Dhcp.LeasesAppend` | internal/domains/dhcp/formatter.go:41-57 | Leases are read line after line, in order |
| `Dhcp.Keywords` | internal/domains/dhcp/formatter.go:20 | The header keywords |
| `Dhcp.RowsExistIff` | internal/domains/dhcp/formatter.go:86 | The code gets past its address column exactly when every lease has one |
| `Dhcp.ParsingInvertsPrinting` | internal/domains/dhcp/formatter.go:62-83 | Keywords and values joined by single blanks are read as one lease whose fields are the values, in order |

## Left out

- Handlers of websocket and message queue requests, JSON, validation of requests, dependency injection, logging, Grafana, LTE, L3 and BGP statistics, OVS, the HTTP client: they pass values on or call the outside.
- Network checks (`checkHubTunnels`, `checkWebsocketConnection`, ping) and waits for messages are single calls with an arbitrary verdict; their goroutines, timers and leaked or closed channels are not modelled.
- `deactivateStarter`, the reboot command and other goroutines whose effects nobody waits for.
- Configuration writes outside the state machine, and the active orchestrator address that `BuildConn` writes: the model has no concurrent writer of the configuration.
- States of systemd services, the hostname, the net-init section, the apt source and Grafana: an activity is logged and undone, but what it changes is not part of the device. The environment file is modelled on its own and not rolled back, as in the code.
- `buildStaticAddCommand`: only that it fails on a mask that does not convert; the command string is not modelled.
- Crashes during a rollback or a recovery, undo actions that fail, process shutdown, and power cuts in the middle of one library call.
- Replies after a non-hub reset: the database is closed by then and the device is about to restart; the model lets the finish of that transaction succeed or fail and goes on to the restart.
- Aliasing of the package list in `installUpdateManager`: the filter works in place on a slice the caller still holds; the model filters a value.
- Safety.FailedCommandIsUndone: covers an init request that fails or is cut off at any call, but not one that goes on writing after the setup it served has timed out and was undone; what the library does with a write on a finished transaction is unknown. `FirstInit.LateIff` says exactly when that can happen: never while no setup has given up.
- Handlers.FirstSetup: the same; the waiter gets no answer in time, or that of an init request that ended in time.
- Handlers.AwaitFirstInit: the same.
- Agents.Agent.Connect: the same.
- A first setup that hangs on its registration has no outcome as a function; its device is that of a crash at the next call, which is what a power cut makes of it. `PerformProtocol` has the hang as a step, possible in any first setup; `FirstInit.RegistrationHangsIff` says when it is real.
- FirstInit.OwnershipInEveryRun: the two fields under the mutex are modelled as steps of a protocol, not as an object; what an initialization does on its transaction is `Handlers.InitDevice`.
- PerformProtocol.RunsAreSequential: a hung first setup keeps the device of its last transition boundary; cancellation of the context, which ends the loop between two requests, is not a step.
- Runs.CrashThenBoot: a migrating boot is excluded here, since it moves on to active on purpose; `Boots.BootComesToRest` covers it.
- Progress.CommandCompletesIff: the conclusion is for runs without faults and with an init request in time; with faults the results of `Safety` apply.
- Dhcp.ParsingInvertsPrinting: rendering of the finished table is not part of this model.
