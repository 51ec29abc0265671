# Exclave in Dafny

Exclave runs factory tests. Unit files describe jigs, scenarios, tests, interfaces, loggers and
triggers. A library turns files into descriptions, a manager loads, selects and activates units,
and the current scenario runs its tests one after the other by passing messages through the
manager's queue. This project models that machinery and proves what it keeps over every input,
every run and every interleaving.

| files | what they are about |
|---|---|
| `ScenarioModel`, `ScenarioObject` | the scenario state machine as a value, and the `Scenario` class proved against it |
| `ScenarioInvariant`, `ScenarioRuns`, `ScenarioVerdict`, `ScenarioCodes`, `ScenarioDependencies`, `ScenarioPanics`, `ScenarioScripts` | theorems about all runs, and the runs that show where a property ends |
| `TestProcess`, `Protocol`, `ProtocolProof`, `ProtocolRequests`, `ProtocolWitnesses`, `ProtocolRuns`, `ProtocolCodes` | scenario, tests and manager exchanging messages over one queue |
| `ManagerModel`, `UnitManager` | loaded, selected and active units; the mutually recursive select and deselect |
| `LibraryModel`, `UnitLibrary` | file events, dirty units, and the rescan that settles them |
| `Debounce` | the timer that turns a burst of file events into one rescan |
| `Cfti`, `Tsv` | escaping towards interfaces, loggers and triggers, and the log lines |

How the model relates to the code:

- Whatever the code leaves to its environment is a parameter or an arbitrary choice: clock readings,
  exit codes, whether a program starts, the order in which a hash map is walked, the text of a file.
- Panics are modelled, not excluded by preconditions. A scenario's snapshot carries a `panicked` flag,
  and `ManagerRequest` returns one.
- Dependency resolution is some function of the scenario and the loaded tests (`ScenarioObject.Resolver`),
  of which only its promise is known: distinct loaded tests, none of them assumed, each after the parents
  it requires unless those are assumed.
- What a jig's TestFile and TestProgram give is a function of the moment (`ManagerModel.Probes`), counted by
  the events announced so far; nothing is known about it.
- The manager's six tables by kind are one map, because the kind is part of every unit's name; the
  library's tables are merged in the same way.
- A jig's `DefaultScenario` is taken to be the name of a scenario.
- `Protocol` and `UnitManager` model the same control messages separately: the first with the queue, the
  threads and one scenario, the second with all tables of the manager. They agree on what happens to
  the active units (a stop takes the unit out, a start puts it in), but no lemma connects them.

Where the code does not do what its documentation or its comments suggest, the model follows the code:

- A run that times out without a failure reports success (`LateSuccess`), and so does a scenario with
  `StopAfterFailureCount=0` that stops after its first test (`ZeroLimitSuccess`). `VerdictExactly` says
  for which scenarios the verdict can be trusted.
- The dependency check stops at the first assumed parent. `SafetyExactly` says for which scenarios
  every test runs only after all parents it requires have passed.
- A scenario without tests panics when it is started, and an advance panics if the scenario's time runs
  out between two clock readings. `PanicFreeExactly` says which scenarios never panic.
- A request to start can name a test, and a trigger takes any bare name for one. If the test can be
  selected it is started outside any run, and its advance reaches a scenario that does not expect it
  (`NamedTestBreaks`). `TokenExactly` says when the single token is lost.
- A start request that arrives between the last two messages of a finished run makes the handler of
  ScenarioFinished panic (`OvertakingRun`). `HandlerPanicsExactly` says that nothing else does.
- Triggers do not undo the escaping of a backslash before t, n or r (`TriggerRoundTripExactly`).
- A changed test file is not looked at again, and a unit that failed to load loses its description at
  the next rescan that finds it dirty, so a rescan does not load every unit that could be loaded.
  `Rescanned` says for every unit what becomes of it.

## Model

| member | source | states |
|---|---|---|
| ScenarioInvariant.SearchEnds | src/units/scenario.rs:712-768 | the recursive search for the next state ends in a state that may be entered, having skipped in order exactly the tests whose dependencies did not succeed, and leaves tests over only after a failed ExecStart, a reached failure limit or a timeout |
| ScenarioInvariant.AdvanceKeeps | src/units/scenario.rs:567-643 | one advance with any sender, result and monotone clock keeps the invariant that ties results, failure count, phase and everything sent so far together |
| ScenarioInvariant.FinishKeeps | src/units/scenario.rs:874-891 | finishing reports the code of the failures counted, and a stray advance after the end reports the same code again |
| ScenarioRuns.RunKeeps | src/units/scenario.rs:567-818 | that invariant holds after every sequence of advances of a freshly activated scenario |
| ScenarioRuns.PrefixInvariant | src/units/scenario.rs:571-601 | while test i runs, all earlier tests are settled, it and all later ones are pending, and ExecStart has not failed |
| ScenarioRuns.FailureConservation | src/units/scenario.rs:577-599 | the failure count is the number of failed tests plus one for a failed ExecStart, at most n+1, and every reported code is 200 or 500 plus that count |
| ScenarioRuns.StartOrSkip | src/units/scenario.rs:603-623 | starts and skips together name a duplicate-free prefix of the sequence, and all of it in a run that finishes without timeout, failed ExecStart or failure limit |
| ScenarioRuns.HookAgreement | src/units/scenario.rs:728-757 | at most one stop command runs, the failure one exactly when there is a failure or the limit is zero with more than one test, by the end it has run if it is configured, and with a sound limit it agrees with the code reported |
| ScenarioRuns.FailedExecStart | src/units/scenario.rs:591-599 | a failed ExecStart starts and skips nothing, and the run ends with 501 |
| ScenarioRuns.AdvanceDescends | src/units/scenario.rs:625-643 | every advance lowers a rank until the scenario is finished or has panicked |
| ScenarioRuns.Termination | src/units/scenario.rs:567-643 | n+3 advances finish any scenario that does not panic |
| ScenarioRuns.SearchFindsRunnable | src/units/scenario.rs:774-818 | a search that settles on a test stays inside the sequence and found it pending, in time and with its dependencies met; it panics only on an empty sequence |
| ScenarioPanics.PanicFreeExactly | src/units/scenario.rs:853-871 | no run panics if and only if the scenario has tests and either has no timeout, a timeout of zero, or no reachable test with a limit of its own; the same for the runs whose clock never goes back and whose advances come from the expected units |
| ScenarioPanics.UnderflowRun | src/units/scenario.rs:853-871 | every other scenario with tests has a run, with a clock that never goes back and the expected senders, in which the subtraction underflows |
| ScenarioPanics.EmptyRun | src/units/scenario.rs:784-790 | every scenario without tests has a run that panics |
| ScenarioRuns.EmptyPanics | src/units/scenario.rs:784-790 | a scenario without tests panics exactly when it looks for its first test |
| ScenarioVerdict.NoFailureNoSkip | src/units/scenario.rs:784-807 | without failures nothing is skipped, by induction along the sequence |
| ScenarioVerdict.VerdictCorrect | src/units/scenario.rs:874-891 | in every run without timeout and with a sound failure limit, 200 is reported exactly if all tests passed |
| ScenarioVerdict.LateSuccess | src/units/scenario.rs:784-790 | every scenario with a timeout has a run, with a clock that never goes back and the expected senders, that reports 200 while all tests are pending |
| ScenarioVerdict.ZeroLimitSuccess | src/units/scenario.rs:728-733 | a failure limit of zero with two or more tests has such a run that reports 200 while all tests but the first are pending |
| ScenarioVerdict.VerdictExactly | src/units/scenario.rs:874-891 | the verdict is right on all runs if and only if there is no timeout and the failure limit is not zero with two or more tests; the same for the runs whose clock never goes back and whose advances come from the expected units |
| ScenarioCodes.BookedExactly | src/units/scenario.rs:571-590 | in every run, a test is booked as passed exactly if an advance with code 0 arrived while it was running, and as failed with a code exactly if an advance with that code, other than 0, did |
| ScenarioCodes.ExecStartBookedExactly | src/units/scenario.rs:591-599 | the same for the ExecStart command and the advance that arrives while it runs |
| ScenarioCodes.FailuresAreBadCodes | src/units/scenario.rs:577-599 | the failure count is the number of codes other than 0 that arrived while a test or ExecStart was running |
| ScenarioCodes.VerdictOnCodes | src/units/scenario.rs:874-891 | every verdict is 200 or 500 plus the number of bad codes received; on time and with a sound limit it is 200 exactly if a code 0 arrived for every test while it was running |
| ScenarioCodes.StopsExactly | src/units/scenario.rs:587-589 | a test is stopped exactly when its advance arrives and it is no daemon, or when the scenario finishes; daemons and the scenario itself are stopped only then |
| ScenarioCodes.StartsExactly | src/units/scenario.rs:603-623 | a test is started exactly if the run comes to it |
| ScenarioCodes.SkipsExactly | src/units/scenario.rs:798-805 | a skip is announced exactly for the tests booked as skipped |
| ScenarioCodes.LogsExactly | src/units/scenario.rs:571-586 | a failure is logged exactly for each bad code of a running test, and a mismatch exactly for each advance that came from another unit than the running test |
| ScenarioCodes.ExecStartExactly | src/units/scenario.rs:774-783 | a configured ExecStart is spawned by the first advance, as its only message, and never again; one that is not configured never is |
| ScenarioDependencies.RecursiveIsDirect | src/units/scenario.rs:820-840 | where skips are justified, the recursive dependency check says the same as looking at direct parents |
| ScenarioDependencies.DirectCheckSuffices | src/units/scenario.rs:820-840 | in every reachable state and for every test, pending ones included, the recursive check agrees with the direct one, which without assumed parents means that all required parents passed |
| ScenarioDependencies.DependencySafety | src/units/scenario.rs:784-807 | in every reachable state, every transitive ancestor the check covers of a test that runs or ran has passed; without assumed parents these are all required ancestors |
| ScenarioDependencies.UncheckedParentBreaks | src/units/scenario.rs:820-824 | a required parent listed behind an assumed one can fail while the test passes, in a run in which every advance comes from the expected unit |
| ScenarioDependencies.SafetyExactly | src/units/scenario.rs:820-840 | all runs are safe if and only if the check covers all required parents, or the scenario stops at its first failure, or it has no time at all; the same for the runs whose clock never goes back and whose advances come from the expected units |
| ScenarioObject.Scenario.constructor | src/units/scenario.rs:458-488 | the tests a scenario holds are the objects loaded under the resolved names, in that order and with the resolved parents, all pending |
| ScenarioObject.Scenario.ParentAt | src/units/scenario.rs:820-840 | each required parent of a sequenced test is one of the assumptions, or the test of that name earlier in the sequence |
| ScenarioObject.Scenario.Activate | src/units/scenario.rs:514-548 | activation forgets the last run and sends one advance from the scenario itself |
| ScenarioObject.Scenario.AllDependenciesSucceeded | src/units/scenario.rs:820-840 | the recursive lookup by name computes the dependency condition by position, and terminates |
| ScenarioObject.Scenario.ScenarioTimedOut | src/units/scenario.rs:842-851 | late exactly if the elapsed time has reached the timeout |
| ScenarioObject.Scenario.MakeTimeout | src/units/scenario.rs:853-871 | the limit is the smaller of the test's own and what the scenario has left, and the subtraction panics exactly if the scenario is overdue |
| ScenarioObject.Scenario.IsStateOkay | src/units/scenario.rs:774-818 | the check of a state, marking a test as skipped on the way, is the model's check |
| ScenarioObject.Scenario.FindNextState | src/units/scenario.rs:712-768 | the search over the object's cells is the model's search, messages included |
| ScenarioObject.Scenario.FinishScenario | src/units/scenario.rs:874-891 | the stops of all tests, then of the scenario, then the verdict, as one block |
| ScenarioObject.Scenario.BookResult | src/units/scenario.rs:571-601 | booking a result by unit name is the model's booking by position, mismatched senders included |
| ScenarioObject.Scenario.Advance | src/units/scenario.rs:567-643 | one AdvanceScenario message changes the object's cells and sends exactly as the model's advance does, so all run theorems hold of the object |
| TestProcess.OneAdvanceOneReport | src/units/test.rs:332-458 | whatever the interleaving of the watching thread and stops, one activation of a test sends exactly one AdvanceScenario and at most one TestFinished, exactly one by the time its thread ends |
| TestProcess.StepOwes | src/units/test.rs:448-458 | an owed advance is paid once, and never by stopping the test |
| TestProcess.SimpleCodes | src/units/test.rs:431-441 | a simple test reports the code of its first exit and advances the scenario with that code once its thread goes on; before it exits it does neither |
| TestProcess.DaemonAdvance | src/units/test.rs:369-428 | a daemon advances with 0 if it has no ready text or a line matches before reading fails or the output ends, with -2 if reading fails first, and with -1 if the output ends first |
| TestProcess.DaemonReport | src/units/test.rs:426-458 | a daemon reports 0 if a stop comes before any other report, and otherwise its exit code, or -2 or -1 if it did not become ready |
| ProtocolProof.ExecutionKeeps | src/unitmanager.rs:892-951 | the protocol invariant holds after every undisturbed sequence of deliveries, sends, signals of test programs, ends of support commands, named and unnamed start requests and other traffic, with the manager's own messages going out one by one; once a start has overtaken the end of a run, what is left of it holds until the crash |
| ProtocolProof.SingleToken | src/units/scenario.rs:514-678 | in an undisturbed execution, between an accepted start and the end of the run there is exactly one of: an advance or a StartTest queued or about to be sent, an advance owed by a test or support command; otherwise none |
| ProtocolRequests.TokenExactly | src/unitmanager.rs:901-951 | the token is single at every moment of an execution if and only if it is undisturbed: no request naming a test is handled while the scenario is idle or finished and the test inactive and selectable, and no test the scenario starts turns out not to be selectable |
| ProtocolRequests.UnnamedRequestsAreSafe | src/unitmanager.rs:901-951 | if no request names a test and tests can be selected, the execution is undisturbed, whatever the timing |
| ProtocolWitnesses.NamedTestBreaks | src/units/trigger.rs:285-294 | for every scenario and every test that can be selected there is an execution in which naming the test brings an advance the scenario does not expect, outside any run |
| ProtocolWitnesses.VerdictWithoutStart | src/units/trigger.rs:285-294 | naming a test that can be selected makes an idle scenario without time report a verdict although no start was accepted |
| ProtocolProof.AdvancesAreExpected | src/units/scenario.rs:571-590 | in an undisturbed execution, every advance on its way to a scenario running test i comes from test i, so the mismatch error is never logged |
| ProtocolProof.OneVerdictPerRun | src/unitmanager.rs:901-945 | in an undisturbed execution, each accepted start sends one ScenarioFinished |
| ProtocolProof.HandlerPanicsExactly | src/unitmanager.rs:937-945 | the handler of ScenarioFinished, which keeps the scenario borrowed, panics if and only if a start has been handled between the stop of the scenario and this message |
| ProtocolWitnesses.OvertakingRun | src/units/scenario.rs:874-891 | an execution in which a start request slips in between the last two messages of a finished run and the handler panics |
| ProtocolProof.OnlyScenarioPanics | src/unitmanager.rs:892-951 | as long as no start overtakes the end of a run, nothing but a panic inside the scenario's own advance brings the message loop down |
| ProtocolRuns.NeverCrashes | src/unitmanager.rs:892-951 | a scenario that cannot panic never brings the message loop down, in any undisturbed execution whose clock does not go back and in which no start overtakes the end of a run |
| ProtocolRuns.ExecutionIsRun | src/unitmanager.rs:892-924 | at every moment of every execution the scenario is where some run from a fresh start has brought it, with the verdicts of that run sent; the run is on time if the execution is on schedule, its clock never goes back if that of the execution does not, and its senders are the expected ones if the execution is undisturbed, so the run theorems hold inside the protocol |
| ProtocolRuns.ReportedVerdict | src/unitmanager.rs:937-945 | once the scenario has finished, the last verdict sent in any execution on schedule is 200 exactly if all tests passed, given a sound limit |
| ProtocolCodes.CodesAreReal | src/units/test.rs:332-458 | in every undisturbed execution and since the start of the run: a simple test passes only if its program exited with 0 and fails only with its exit code or because it could not be started, a daemon passes only if a line matched or it has no ready text, and ExecStart passes only if its command returned 0 |
| ProtocolCodes.SuccessIsReal | src/unitmanager.rs:937-945 | if the last verdict sent is 200, every simple test exited with 0 in that run, in every undisturbed execution on schedule with a sound limit |
| ProtocolCodes.ResultIsReported | src/units/test.rs:317-330 | the first result of an activation is sent as TestFinished by the step that brings it about, and a daemon stopped without one is reported as passed |
| ManagerModel.Device.Deactivate | src/units/interface.rs:250-262 | the process is taken whatever its exit code, so a second call succeeds |
| ManagerModel.SelectedKeeps | src/unitmanager.rs:290-386 | there can only be one: selecting any unit keeps selected scenarios equal to the current one, selected jigs equal to the current one, and active within selected within loaded |
| ManagerModel.DeselectedKeeps | src/unitmanager.rs:416-519 | deselecting keeps the same, and the unit is neither selected nor current afterwards |
| ManagerModel.FitsExactly | src/units/interface.rs:150-164 | a unit fits exactly if it lists no jig or one of the listed jigs is loaded |
| ManagerModel.ScenarioChosen | src/unitmanager.rs:318-351 | selecting a loaded scenario that is not current makes it current and selects exactly it, its tests that are loaded and fit, and what was selected without belonging to the old scenario |
| ManagerModel.JigChosen | src/unitmanager.rs:353-386 | selecting a loaded jig that is not current makes it current; its default scenario, if loaded, becomes current with its runnable tests; the old jig leaves, and the old scenario with its tests leaves if it was the old jig's default or makes room; nothing else changes |
| ManagerModel.UnitChosen | src/unitmanager.rs:290-316 | any other unit becomes selected exactly if it is internal, a loaded device, or a loaded test that fits, and nothing else changes |
| ManagerModel.DeselectedExactly | src/unitmanager.rs:416-519 | deselecting takes out the unit, and exactly if the current scenario is the unit or the default of the current jig being deselected, that scenario with all its tests |
| ManagerModel.DeselectUndoesSelect | src/unitmanager.rs:318-351 | deselecting a scenario undoes selecting it, if none was current and none of its tests was selected |
| ManagerModel.UnloadedKeeps | src/unitmanager.rs:733-787 | an unloaded unit is out of all tables, and the rest stays in order |
| ManagerModel.UnloadedExactly | src/unitmanager.rs:733-787 | unloading takes out of the selected and active units exactly what deselecting takes out |
| UnitManager.Manager.Deactivate | src/unitmanager.rs:637-731 | only devices can fail to deactivate, only on the first try, and a failed one stays active without a process |
| UnitManager.Manager.Deselect | src/unitmanager.rs:416-442 | deactivating and deselecting, with everything below it, equals the lattice function; a device may stay active |
| UnitManager.Manager.DeselectScenario | src/unitmanager.rs:497-519 | the loop over the test sequence takes the whole scenario out |
| UnitManager.Manager.DeselectJig | src/unitmanager.rs:472-495 | a current jig takes its default scenario with it |
| UnitManager.Manager.Select | src/unitmanager.rs:290-316 | the mutual recursion terminates by rank jig, scenario, rest, and equals the lattice function; the log of status events still replays to what is selected and active |
| UnitManager.Manager.SelectScenario | src/unitmanager.rs:318-351 | the old scenario and its tests make room for the new one and its selectable tests, or nothing changes |
| UnitManager.Manager.SelectJig | src/unitmanager.rs:353-386 | the old jig and its default scenario make room for the new ones, or nothing changes |
| UnitManager.Manager.SelectTest | src/units/test.rs:293-310 | a test can be selected exactly if it is loaded and lists no jig or one that is loaded |
| UnitManager.Manager.IsCompatible | src/units/interface.rs:150-164 | the loop finds out exactly whether no jig is listed or one of them is loaded |
| UnitManager.Manager.Activate | src/unitmanager.rs:521-554 | jigs and scenarios that could be selected become active, devices and tests may fail to start and then a failure is announced, a device that became active holds a process, and the lattice stays in order |
| UnitManager.Manager.RefreshDefaults | src/unitmanager.rs:559-571 | afterwards loaded jigs have a current one among them and so do loaded scenarios; if that was so before, nothing changes and no event is sent |
| UnitManager.Manager.Unload | src/unitmanager.rs:733-787 | the unit leaves the loaded, selected and active units even if its process exits nonzero |
| UnitManager.Manager.MakeScenario | src/units/scenario.rs:311-340 | a scenario is made exactly if a loaded jig fits and its dependencies can be resolved, from the loaded test objects, in the resolved order and with the resolved parents |
| UnitManager.Manager.Make | src/units/jig.rs:112-151 | a jig is made exactly if its test file is there and its test program returns 0, as far as it has them; tests always, devices and scenarios as their jigs and dependencies allow |
| ManagerModel.TableExactly | src/units/scenario.rs:311-340 | dependency resolution gets to see exactly the loaded tests |
| UnitManager.Manager.Load | src/unitmanager.rs:21-52 | the new object matches its description and has the jig and tests it needs; tests always load, jigs exactly if their file is there and their program returns 0 at that moment, devices exactly if a jig fits, scenarios exactly if a jig fits and their dependencies can be resolved, then with their tests in the resolved order; a unit loaded before is deselected first, and a device whose process exits nonzero then stays active |
| UnitManager.Manager.ManagerRequest | src/unitmanager.rs:859-961 | the new tables for every control message, with the lattice in order; ScenarioFinished panics exactly if no scenario is current or it is still active; a start is turned down while the scenario is neither idle nor finished, and otherwise starts the unit it names, whatever its kind, or the current scenario |
| UnitManager.Manager.Notify | src/unitmanager.rs:819-836 | devices that cannot be written to are deactivated and lose their process even if that fails; all others stay active |
| LibraryModel.MarkingCloses | src/unitlibrary.rs:211-266 | after steps 1 and 2 no loaded unit outside the dirty ones depends on a dirty jig or test |
| LibraryModel.AffectedExactly | src/unitlibrary.rs:211-266 | a rescan looks again at exactly the dirty units, the described units listing a dirty jig, and the loaded scenarios holding a test that is dirty or lists a dirty jig |
| LibraryModel.UnloadSettles | src/unitlibrary.rs:268-332 | unloading a dirty unit takes no jig or test away from a unit that is not dirty |
| LibraryModel.ReloadSettles | src/unitlibrary.rs:57-98 | reloading a dirty unit, successfully or not, settles it if the kinds it depends on are settled |
| LibraryModel.OneDone | src/unitlibrary.rs:268-364 | settling one affected unit changes nothing about the others: not what became of the settled ones, which jigs fit them included, and nothing at all about the rest |
| LibraryModel.BooksAreTrue | src/unitlibrary.rs:348-382 | what the books say with nothing dirty, spelled out: exactly the units with a pending status are loaded, each equals its description, devices and scenarios that list jigs have a loaded one, and every scenario holds the very test objects that are loaded |
| LibraryModel.RescannedExactly | src/unitlibrary.rs:57-117 | which of the affected units that were pending are loaded after a rescan, as an if-and-only-if for each kind, without reference to the manager's own check |
| UnitLibrary.Library.ProcessStatus | src/unitlibrary.rs:384-413 | what each file event does to statuses, descriptions and dirty units, with changed tests ignored and unparsable files kept as failed; the books stay true |
| UnitLibrary.Library.ProcessRequest | src/unitlibrary.rs:418-419 | what each control message does to the tables, as the manager does it, up to the devices that cannot be notified afterwards and are deactivated; the books stay true and the loaded units the same |
| UnitLibrary.Library.ProcessLog | src/unitlibrary.rs:418-419 | log events that find devices broken leave the books true |
| UnitLibrary.Library.MarkDependents | src/unitlibrary.rs:211-252 | exactly the described units that list a dirty jig turn dirty |
| UnitLibrary.Library.MarkUsers | src/unitlibrary.rs:254-266 | exactly the loaded scenarios that hold a dirty test turn dirty |
| UnitLibrary.Library.DropDeleted | src/unitlibrary.rs:268-346 | exactly the dirty units that are not pending leave dirty units, statuses, descriptions and manager; every dirty unit has a status, so no lookup fails |
| UnitLibrary.Library.Reload | src/unitlibrary.rs:61-91 | a dirty unit always has an expected status and a description; tests are loaded again, jigs exactly if they pass their own test, devices exactly if a jig fits, scenarios exactly if a jig fits and their dependencies can be resolved, and what fails is marked as failed; no other unit changes |
| UnitLibrary.Library.LoadUnits | src/unitlibrary.rs:57-117 | every dirty unit of the kind meets its outcome, loaded exactly as `Reload` says or marked as failed; those that failed are no longer dirty |
| UnitLibrary.Library.ActivateJigs | src/unitlibrary.rs:366-367 | if a dirty jig is loaded, one of the dirty jigs is current and active afterwards |
| UnitLibrary.Library.SelectAndActivate | src/unitlibrary.rs:100-110 | every loaded dirty device of the kind is selected, and active unless a failure was announced since; the current jig and other devices are left alone |
| UnitLibrary.Library.Settle | src/unitlibrary.rs:211-364 | after step 9 nothing is stale, every unit has met its outcome, every loaded device is selected or still dirty, and every affected jig or device that was loaded again is still dirty |
| UnitLibrary.Library.Rescan | src/unitlibrary.rs:207-382 | from any history: units that are neither dirty nor depend on a dirty jig or test stay the same objects with the same status and description; the others, if they were pending, are loaded again or marked as failed (tests are loaded, jigs exactly if they pass their own test, devices exactly if they list no jig or a loaded one, scenarios exactly if in addition their dependencies can be resolved, and then with their tests in the resolved order), and otherwise lose object, status and description; loaded units equal their descriptions and scenarios hold the loaded test objects; devices loaded again are selected, and active unless a failure was announced; a reloaded jig is current if there is one, and loaded jigs and scenarios have a current one; nothing is dirty; a second rescan changes nothing and sends no status event |
| Debounce.ScheduleWorker.DrainRequestQueue | src/quiesce/timer.rs:60-74 | draining the channel equals taking the requests one by one, ignoring only timers that are pending |
| Debounce.DrainIsTakes | src/quiesce/timer.rs:60-74 | draining n requests at once is the same as n single steps of the interleaving model |
| Debounce.ScheduleWorker.HasEventNow | src/quiesce/timer.rs:76-82 | looking at the top of the heap tells whether any pending timer is due |
| Debounce.ScheduleWorker.FireEvent | src/quiesce/timer.rs:84-90 | a timer due first is taken out together with its ignore mark, and fires unless marked |
| Debounce.Quiesce.ProcessMessage | src/quiesce/mod.rs:24-36 | every event but those about rescans ignores the last timer and schedules a new one, due a delay later |
| Debounce.HistoryKeeps | src/quiesce/timer.rs:60-90 | the timer invariant holds after every interleaving of events, takes and firings |
| Debounce.AtMostOneLive | src/quiesce/timer.rs:60-90 | at most one pending timer is not ignored, it is the last one taken, and only pending timers are in the ignore set |
| Debounce.EachTimerOnce | src/quiesce/timer.rs:84-90 | no timer is handled twice, none fires early, one fires exactly if its ignore request was not taken yet, and handled plus pending is what was taken |
| Debounce.LatestSurvives | src/quiesce/mod.rs:31-36 | once the worker has caught up, the timer of the latest event is pending and not ignored, or has fired |
| Debounce.DueAfterDelay | src/quiesce/timer.rs:158-172 | every timer, pending or handled, is due exactly a delay after the restart it was made for, none is handled before, and they are handled in the order in which they are due |
| Debounce.FiresWhenQuiet | src/quiesce/mod.rs:24-36 | when the worker has caught up, a timer it handles asks for a rescan exactly if it is the one of the latest restart, and then no restart is younger than the delay |
| Cfti.EscapeIsMap | src/units/interface.rs:276-281 | the four replacements in a row are one pass over the characters |
| Cfti.EscapedIsOneField | src/units/logger.rs:302-307 | escaped text holds no tab, line feed or carriage return |
| Cfti.InterfaceUnescape | src/units/interface.rs:380-411 | the loop with its backslash flag computes the scan function |
| Cfti.InterfaceReads | src/units/interface.rs:380-411 | what the scan makes of any text, escaped or not: text without a backslash stays, a backslash and the next character become one, and a backslash at the end is lost |
| Cfti.InterfaceRoundTrip | src/units/interface.rs:276-281 | interfaces read back exactly what was escaped, for every string |
| Cfti.TriggerReads | src/units/trigger.rs:250-255 | the trigger's chain of replacements returns the text with each t, n or r right after a backslash turned into a control character |
| Cfti.TriggerRoundTripExactly | src/units/trigger.rs:250-255 | triggers read back what was escaped if and only if no backslash stands right before t, n or r |
| Cfti.TriggerMisreads | src/units/trigger.rs:250-255 | a backslash and an n come back as a backslash and a line feed |
| Tsv.LineRoundTrip | src/units/logger.rs:310-321 | every log line decodes to the entry it was made from |
| Tsv.LineColumns | src/units/logger.rs:310-321 | the six columns of a line in their order |
| Tsv.LinesAreUnambiguous | src/units/logger.rs:310-321 | different entries have different lines, and no line holds a newline before its end |

## Left out

- Parsing unit files: `from_path` and what the parser, duration and path libraries do. A parsed description is a parameter of `ProcessStatus`.
- Finding unit files: that the description parsed from a file carries the name the event was about is required, not proved.
- The inside of dependency resolution: only its promise is used.
- Processes, pipes, reader threads and working directories: a process is a flag, an exit code and the messages its watcher owes.
- Wake-ups of the timer's worker: its condition variable is not tied to a lock, so only safety is stated, not that a timer fires in time.
- Notifications to interfaces, JSON output and text formatting other than the log line. Status events are kept as a log. That an interface cannot be written to is the step `Notify` after a message; the list of scenarios sent in the middle of unloading a scenario is left out.
- Borrow flags of cells, except the one that ScenarioFinished can trip over.
- `src/terminal.rs`, `src/unitwatcher.rs`, `src/unitloader.rs`, `src/main.rs`, `src/config.rs`: user interface, watching, forwarding and setup.
- A jig whose DefaultScenario names another kind of unit: selecting it would recurse without a measure.
- Failures are counted without the wrap-around of a 32-bit counter, which n+1 failures cannot reach.
- TestProcess.OneAdvanceOneReport: models the cells shared with the watching thread as an automaton over values, since the thread and the manager interleave; a late report of a daemon from an earlier activation is not tied to the next one.
- ProtocolProof.ExecutionKeeps: no other scenario is selected, by name or otherwise, and no rescan reloads the scenario while it runs.
- ProtocolProof.SingleToken: under the same assumption about the scenario.
- ProtocolRequests.TokenExactly: takes a named test that is not part of the scenario for a simple test.
- UnitManager.Manager.Activate: does not step the cells of the scenario or test it starts; those steps are in `ScenarioObject`, `TestProcess` and `Protocol`.
- Debounce.HistoryKeeps: fewer than 2^64 restarts, after which identifiers repeat.
