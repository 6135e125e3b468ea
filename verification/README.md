# Railway interlocking, verified

A Dafny model of the station interlocking engine: routes are defined, established, cancelled,
released section by section as trains pass, and recovered from an event log after a restart. The
project models the rows of the store, the safety rules, every state-changing service operation and
the recovery pass, and proves what holds over all runs of those operations.

## How the model is built

- `Model`, `RoutePlan`, `Signaling`, `Interlocking`, `TrainOps` follow the packages of the same
  names. Each rule is a function, and beside it stands the loop of the source as a method proved
  equal to it. The route table is a class whose `Add` and `Remove` update the two maps in place.
- `Database` holds all tables of all stations as one value `State`; `Steps` gives every service
  operation as a function from `State` to a committed state or a rolled-back error.
- `Storage`, `RouteService`, `SwitchService`, `TrainService`, `ReconcileService` are the services as
  imperative code over a mutable `Store`, one row and one log event at a time, each proved to end in
  exactly the state its step function gives. `Engine` serves any list of requests and shows that the
  outcome is a run.
- `Requests`, `Cancels`, `Reuse`, `TrainMoves`, `Releases`, `SignalRefresh`, `TimerTable`, `ApproachLocks`,
  `LogOrder` and `Counts` say what each request is answered and what it leaves in every table. Their conditions and effects are
  spelled out on the rows (states by name, delays in seconds, sections and switches one by one) instead of through
  the functions above, so the two descriptions check each other.
- `Scenes` holds the small yards of the counterexamples in `Witnesses`, `WitnessRestart`, `WitnessSignal` and
  `WitnessPassage`.
- `Runs` defines runs. Where the source iterates a Go map, the visiting order is part of the step,
  so a run may choose any order. Identifiers are integers and `NO_ID` is the empty string. Times are
  whole seconds.

Two kinds of run appear. *Every run* is any sequence of operations, restarts included. A
*disciplined run* (`Exclusion.Disciplined`) has no restart, an approach effect lands only on a route
that already holds its locks, and each switch a defined route requires lies in one of that route's
own sections. For each of these conditions a lemma says, on the rows before the step, exactly when
the step is harmless without it: `Fates.RestartSafeIff` for a restart (`Restarts.CorrectionSafeIff`
for one station's rows), `TrainEffects.TrainSafeIffGated` for approach effects and
`Exclusion.EstablishHoldingIff` for switches off the path. For each of them `Witnesses` or
`WitnessRestart` also reaches, from a new installation, a state in which one step breaks exclusion or
switch holding. `Restarts` extends the disciplined results to runs with restarts as long as the log
stays truthful, and `Agreement.NextAgreesIff` says exactly which requests keep it so.

The signal results ask one thing more: no indication is restored on a cancelling route's switch.
`Indications.RestoringJustifiedIff` says exactly when a restored indication is harmless, and
`WitnessSignal` reaches a state with a permissive signal and no route behind it.

A passage of a train asks that no other route claims a section ahead of it (`Traversal.Undisturbed`).
`Traversal.EntryCanGoAstray` shows that a second locked route over the section entered can take the
entry in every such yard, and `WitnessPassage` reaches a state in which the train is gone and the
route is still locked. The condition is sufficient and not always necessary: which route takes the
entry is the visiting order's choice, and a passage survives another claim if the order favours it.

Where the code and its comments differ, the model follows the code:

- A failed establishment is said to leave the route failed. The write is undone with its transaction
  (internal/service/route_service.go:65-73), so `Failed` is never stored and a failed call changes nothing.
- The three-point rule is described with s[i+1] and s[i+2] occupied. On entry the code releases
  s[idx-1] and s[idx-2] when they are free and were entered, whatever is further ahead
  (internal/interlocking/interlocking.go:231-249).
- An approach effect is described for established or cancelling routes. The code sets it for routes
  in any state, never consults `OnApproachOccupied` and never abandons a cancel
  (internal/trainops/trainops.go:65-103).
- Completing a timed cancel is described as following an elapsed delay. The operation itself looks at no
  clock, and it does not close the signal (internal/service/route_service.go:195-226).
- Reversal is said to be refused while the switch's section is occupied. A switch may name a section of another
  station (internal/httpapi/station_handler.go:59-90); its own station's snapshot does not hold that section, so
  the movement check passes over it (internal/interlocking/interlocking.go:182-185).
- A restart is said to converge to the state as if every event had been applied, signal aspects, locks and occupancy
  included. The code corrects route states and completes elapsed timed cancels only, and since no event records an
  approach lock in a form it reads, a route it corrects to established has lost it
  (internal/service/diagram_reconcile_service.go:97-106, 144-163, 192-213).
- An immediate cancel logs its request last, so replay reads it as cancelling, and a fault unlock logs no route
  event (internal/service/route_service.go:152-171, 259-300).

## Model

| member | source | states |
|---|---|---|
| Exclusion.DisciplinedRunIsSafe | internal/service/route_service.go:47-345 | After every disciplined run no two routes in force share a section or oppose each other over a switch, and each holds the lock of each of its switches in the required position. |
| Exclusion.NextSafe | internal/service/route_service.go:135-300 | Each disciplined step keeps that invariant together with lock ownership and referential integrity. |
| Exclusion.NewRouteFitsIn | internal/interlocking/interlocking.go:112-120 | A route that passed the station's conflict check conflicts with no locked route of any station. |
| Exclusion.EstablishHoldingIff | internal/service/route_service.go:90-95 | Without the switch-on-path condition: other locked routes go on holding their switches after an establishment if and only if none of them shares a switch with the new route. |
| Requests.EstablishGrantedIff | internal/service/route_service.go:64-101 | Establishment commits if and only if the route is pending, failed, unlocked or cancelled, its sections are free (but for the approach) and not locked by others, its switches are indicated and stand right or can move, and no route in force shares a section or opposes it over a switch. |
| Requests.EstablishRefusedIff | internal/interlocking/interlocking.go:75-141 | Which error refuses it: the state first, then the first hindering switch as listed, a conflict, the first hindering section as listed. |
| Requests.ClashIsConflict | internal/routeplan/routeplan.go:103-126 | The conflict relation is: different ids, and one section in common or one switch required in two positions. |
| Requests.DefineGrantedIff | internal/service/route_service.go:25-35 | A definition is stored pending and touches nothing else, or is refused as invalid for a foreign or missing element and as duplicate for a taken id or a repeated one. |
| Requests.DefinedMayBeSet | internal/service/route_service.go:47-129 | A route just defined over a free way with standing switches and no clash can be set at once. |
| Requests.ReverseAnswers | internal/service/switch_service.go:21-50 | A reversal is refused for a lost indication, an occupied section of the station or a lock, in this order, and otherwise moves only that switch across. |
| Requests.ReverseTwice | internal/service/switch_service.go:21-50 | A second reversal is granted and restores the switches. |
| Reuse.EstablishLeaves | internal/service/route_service.go:90-123 | Everything a granted establishment leaves in every table: locks on the way, switches in their positions, the signal open and bound to the route, the row and its time, nothing else. |
| Reuse.SettableIff | internal/interlocking/interlocking.go:83-88 | On every run a pending, unlocked or cancelled route can be set if and only if its way is free. |
| Reuse.ReleasedIsReusable | internal/service/train_service.go:126-168 | A route a train has released is unlocked and can be set again as soon as its switches serve and no route in force clashes. |
| Reuse.GivenUpIsReusable | internal/service/route_service.go:135-300 | A route given up by an immediate cancel, a completed one or a fault unlock can be set again over a free way. |
| Reuse.CancelUndoesEstablish | internal/service/route_service.go:152-171 | Setting a route and cancelling it at once leaves every section lock as it was, and of the switches only their positions. |
| TrainEffects.TrainSafeIffGated | internal/trainops/trainops.go:70-86 | In a safe yard a train move keeps exclusion and held switches in every visiting order if and only if, when it is an entry, each route whose approach is entered is already locked, or needs no switch and clashes with no locked route. |
| TrainEffects.GateSuffices | internal/interlocking/interlocking.go:352-360 | Had the move asked the gate the rules define, which the code never consults, no approach effect could break exclusion or switch holding. |
| TrainEffects.GateMeans | internal/interlocking/interlocking.go:352-360 | The gate passes established routes and those being cancelled, and no others. |
| ApproachLocks.EntryLocksApproach | internal/trainops/trainops.go:71-83 | A train entering the approach of one route only locks that route, whatever its state. |
| ApproachLocks.LockKeptIff | internal/service/train_service.go:67-75 | Every step keeps an approach lock but a cancel or fault unlock of the route, a train completing it, and a restart that lists its station and finds a word on it in the log. |
| ApproachLocks.LockedUntilLifted | internal/interlocking/interlocking.go:310-325 | Through any run without such a step a cancel waits 30 seconds for a shunt and 180 for others, with every lock kept, even when the approach is free again. |
| ApproachLocks.RestartForgetsLock | internal/service/diagram_reconcile_service.go:144-163 | After correcting a truthfully logged approach-locked route it is established, so with a free approach a cancel drops its locks at once. |
| TrainEffects.MoveDropsOwnLocksOnly | internal/service/train_service.go:93-99 | A section lock lost in a train move belonged to the one locked route the move ran on and whose own release rule fired, although the loop checks no owner. |
| TrainEffects.ReleasedByHolder | internal/interlocking/interlocking.go:231-283 | A locked section named for release is held by a locked route that has the moved section and whose own rule names it. |
| TrainEffects.MoveEffectOrderIndependent | internal/trainops/trainops.go:65-103 | Under mutual exclusion the effect of a move is the same for every visiting order of the routes in every field but the approach target. |
| TrainEffects.AtMostOneTouched | internal/trainops/trainops.go:79-86 | Under mutual exclusion at most one locked route has any given section. |
| Witnesses.UngatedApproachBreaksExclusion | internal/trainops/trainops.go:71-78 | A state reachable from a new installation in which a train entering the approach of a route that is not set leaves two conflicting routes locked. |
| Witnesses.SharedPointsBreakHolding | internal/service/route_service.go:90-95 | A state reachable from a new installation in which setting a second, unconflicting route leaves both locked and only one of them holding the switch both require. |
| Witnesses.ForeignSectionLetsSwitchMove | internal/interlocking/interlocking.go:182-185 | From a new installation one reversal moves a switch while its section, which belongs to another station, is occupied.
| WitnessRestart.RestartBreaksExclusion | internal/service/diagram_reconcile_service.go:144-163 | A state reachable from a new installation in which a restart brings back a route cancelled at once and two conflicting routes are locked. |
| Ownership.EveryRunIsOwned | internal/service/route_service.go:76-345 | After every run, restarts included, a locked section or switch is held by a route of its station that is locked in its row and in the replayed log and lists the element, and a locked switch stands where its holder requires. |
| Ownership.NextOwned | internal/service/train_service.go:29-168 | Each step of any kind keeps that ownership. |
| Ownership.EstablishOnEveryRun | internal/service/route_service.go:64-101 | After every run establishment commits if and only if the check returns a plan, and the check never answers that a section is locked. |
| Ownership.PlanAlwaysCommits | internal/interlocking/interlocking.go:174-190 | Where ownership holds, every re-check of a planned switch move passes. |
| Ownership.NeverSectionLocked | internal/interlocking/interlocking.go:121-137 | Where ownership holds, a foreign lock on a route section is always reported first as a conflicting route. |
| SwitchSafety.FrozenStretch | internal/interlocking/interlocking.go:174-190 | On every run a switch keeps its position through any stretch in which at each moment it is locked, or shows no indication, or has its section occupied and that section belongs to its own station. |
| SwitchSafety.MovesUnderTrainIff | internal/interlocking/interlocking.go:180-188 | Of all steps, a switch whose section is occupied is moved exactly by reversing that switch when its section belongs to another station and it is indicated and not locked. |
| SwitchSafety.OnlyMovesMove | internal/service/switch_service.go:21-50 | No step but establishment and reversal changes a switch position. |
| Lossless.LogIsLossless | internal/model/model.go:358-386 | On every run the log only grows, and a fold over the new events rebuilds each section's lock, holder, occupancy and train and each switch's lock, holder, position and indication. |
| Lossless.NextFaithful | internal/service/train_service.go:49-99 | Each step logs exactly what it does to sections and switches. |
| SignalLog.LogShowsSignals | internal/service/signal_helper.go:17-40 | Over any run without a fault unlock at a permissive signal the logged openings and closings rebuild every stored aspect. |
| SignalLog.NextTellsIff | internal/service/route_service.go:259-300 | Each step tells its changes of aspect in the log, except exactly a fault unlock at a permissive signal. |
| Attribution.NextAttributed | internal/service/train_service.go:93-99 | Every event a step logs names the station of the element it is about; lock events name the new or the former holder, releases behind a train a route in force over the section. |
| Attribution.ReleaseNamesHolder | internal/service/train_service.go:114-124 | In a safe yard the release of a locked section names its holder, although the first route over the section is taken. |
| LogOrder.EstablishLogs | internal/service/route_service.go:79-123 | The exact log of a granted establishment, in order: the reversals of switches that stood elsewhere, a lock for each requirement and for each section but the approach, the route, the opened signal. |
| LogOrder.CancelLogs | internal/service/route_service.go:152-171 | The exact log of an immediate cancel: the locks held, section by section and switch by switch, then route unlocked, signal closed, cancel requested. |
| LogOrder.CompleteLogs | internal/service/route_service.go:195-226 | The exact log of a completed timed cancel: the locks held, then its completion twice. |
| LogOrder.FaultLogs | internal/service/route_service.go:270-283 | The exact log of a fault unlock: the locks held and nothing else. |
| LogOrder.EntryLogs | internal/service/train_service.go:49-75 | An entry is logged first, and after it the approach lock it sets, if any. |
| Fixpoint.ReconcileIsFixpoint | internal/service/diagram_reconcile_service.go:112-182 | From any rows and any log, a second reconciliation at the same clock makes no correction and changes neither rows nor log, in whatever order stations and timers are listed either time. |
| Fixpoint.ReconcileSettles | internal/service/diagram_reconcile_service.go:130-182 | After one reconciliation every row of the listed stations agrees with the log and no elapsed timer is left on a cancelling route. |
| Fixpoint.ZeroCorrectionsMeansNoChange | internal/service/diagram_reconcile_service.go:112-127 | A reported count of zero means the whole state is unchanged. |
| Counts.RestartCounts | internal/service/diagram_reconcile_service.go:112-182 | The reported count is the number of rows corrected plus the number of timed cancels completed, read off the rows before and after, for any stations and orders; a completed row is cancelled now, a corrected one keeps its times, all others are unchanged. |
| Counts.QuietRestartCounts | internal/service/diagram_reconcile_service.go:138-163 | Where no timer goes, the count is the number of rows that differ. |
| Agreement.NextAgreesIff | internal/service/diagram_reconcile_service.go:192-213 | A request keeps the replayed log and the route rows in agreement, in every map order it may be served in, if and only if it is not a cancel of an established route with a free approach, not a fault unlock of a route that is not cancelled, and not an entry of the approach of a route that is not established. |
| Agreement.StepAgreesIff | internal/service/train_service.go:67-75 | For one step with its map order the same holds of the approach target it picks. |
| Agreement.SafeRunsAgree | internal/service/diagram_reconcile_service.go:130-213 | After a run of steps that keep the agreement the replayed log agrees with every stored route state, reading approach-locked as established. |
| Agreement.RestartKeepsEveryStatus | internal/service/diagram_reconcile_service.go:112-182 | A whole restart at any point of such a run leaves every route locked or unlocked as it was, except that a timed cancel whose delay has passed is finished. |
| Agreement.ImmediateCancelComesBack | internal/service/route_service.go:152-171 | After any immediate cancel the next correction of rows turns the route to cancelling while it holds no lock. |
| Agreement.FaultUnlockComesBack | internal/service/route_service.go:259-300 | After a fault unlock of a locked route the next correction returns its row to the locked state while it holds no lock. |
| Stranded.ImmediateCancelStrands | internal/service/route_service.go:152-171 | After an immediate cancel of a route without a pending timer the next correction strands it: cancelling in row and log, no lock held, and no timer that could end it. |
| Stranded.FreedIff | internal/service/diagram_reconcile_service.go:164-179 | Of all steps exactly completing its cancel, a fault unlock of it, and a train's approach lock on it or completion of it end the stranding of a route. |
| Stranded.StrandedUntilFreed | internal/service/diagram_reconcile_service.go:112-182 | It lasts through any run without such a step, restarts included. |
| Stranded.StrandedBlocks | internal/interlocking/interlocking.go:112-120 | All that time no conflicting route can be set, nor can the route itself be set or cancelled. |
| Replay.ReplayIsLastWord | internal/service/diagram_reconcile_service.go:192-213 | The replayed projection gives each route the state of the last event of its station that names it and carries a state. |
| Replay.ReplayReads | internal/service/diagram_reconcile_service.go:192-213 | Which seven kinds of event speak of a route and the state each stands for. |
| Timers.RunsAreTimed | internal/service/route_service.go:172-180 | After every run whose restarts, if any, happen while the log agrees with the rows, each cancelling route has a pending timer with its own recorded start and a delay of 30 seconds for a shunt and 180 for others. |
| Timers.KeptReplayIsTruthful | internal/service/diagram_reconcile_service.go:192-213 | Every run of steps that each keep the replay, with any number of restarts, is such a run. |
| Timers.NeverReleasedEarly | internal/service/diagram_reconcile_service.go:164-179 | After such a run a reconciliation before 30 seconds for a shunt, or 180 for others, have passed leaves the route's row, timer and locks alone, whatever the other stations' passes complete. |
| Timers.ReleasedIffElapsed | internal/service/diagram_reconcile_service.go:164-179 | After such a run a reconciliation leaves a cancelling route and its locks alone while less than 30 seconds for a shunt, or 180 for others, have passed since its recorded start, and otherwise cancels it with no lock left. |
| Cancels.CancelAnswers | internal/service/route_service.go:135-190 | The answer to a cancel for every state: refused while cancelling or not in force; waiting 30 or 180 seconds, with the timer row and all locks kept, if approach-locked or the approach is occupied; otherwise everything given up at once. |
| Cancels.CompleteAnswers | internal/service/route_service.go:195-226 | Completion acts on a cancelling route only, drops its locks, flags and timer, and leaves the aspect. |
| Cancels.FaultAnswers | internal/service/route_service.go:259-300 | A fault unlock in any state drops locks, flags and timer, closes the signal and cancels the row. |
| TimerTable.NextTimer | internal/service/route_service.go:177-222 | For every step and route: only a waiting cancel starts its timer, only completion of its cancel or a fault unlock removes it, and it is never changed. |
| TimerTable.NoTimerUntilTimedCancel | internal/service/route_service.go:290 | A route without a timer, as after a fault unlock, has none until its next timed cancel. |
| TimerTable.FaultedThenStranded | internal/service/route_service.go:259-300 | If a route is fault-unlocked, set again and, before any timed cancel, cancelled at once, the next correction strands it. |
| OnceOccupied.OnceFlagsAreEntries | internal/service/train_service.go:62-66 | On disciplined runs a locked route's once-occupied set is exactly its sections entered since its latest establishment, and an unlocked route's set is empty. |
| Signals.SignalsStayJustified | internal/service/signal_helper.go:17-40 | On disciplined runs that restore no indication on a cancelling route's switch, each permissive stored aspect equals the recomputed aspect of a locked route, not being cancelled, that starts at the signal. |
| Signals.PermissiveSignalMeansSafeWay | internal/signaling/signaling.go:35-77 | On such runs, behind a permissive signal some locked route has its switches set, indicated and held and its sections other than the approach clear. |
| Signals.OpensToComputedAspect | internal/service/route_service.go:103-123 | After every successful establishment the stored aspect equals the recomputed one over the new rows, is never red, and is double yellow exactly when some switch is required in reverse. |
| Signaling.AspectRule | internal/signaling/signaling.go:35-77 | The computed aspect is permissive exactly for a route in force with every switch set and indicated and every section but the approach clear, double yellow exactly if one switch is reversed, and never yellow. |
| SignalRefresh.LostIndicationCloses | internal/service/switch_service.go:75-92 | From any rows, once a switch loses its indication the signal of every route in force over it is red. |
| SignalRefresh.IndicationAnswers | internal/service/switch_service.go:55-97 | A repeated indication changes nothing; a changed one is stored and logged, and exactly the signals of routes in force over the switch are recomputed. |
| Protection.SignalsAreBound | internal/service/route_service.go:107 | On disciplined runs of a yard whose routes from one signal exclude each other, each signal protects exactly the route in force that starts there, if no fault unlock of an idle route took it. |
| Protection.NextBoundIff | internal/service/route_service.go:284-289 | Each disciplined step keeps that binding except exactly a fault unlock of a route while another in force starts at its signal. |
| Indications.CompletionGuardedIff | internal/service/route_service.go:195-226 | Completing a timed cancel leaves the signal guarded by a locked route if and only if it was red or another locked route guards it. |
| Indications.RestoredIndicationReopens | internal/service/switch_service.go:55-97 | Restoring an indication on a cancelling route whose rule is then permissive reopens its signal, and the completion that follows leaves that signal permissive with no locked route behind it. |
| Indications.RestoringJustifiedIff | internal/service/switch_service.go:71-95 | In a safe yard with justified signals, restoring an indication keeps every signal justified in every refreshing order if and only if each cancelling route it would reopen shares its signal and aspect with a locked route that is not being cancelled. |
| WitnessSignal.SignalCanBeLeftOpen | internal/service/route_service.go:195-226 | A state reachable from a new installation in which a signal is permissive although no locked route starts there. |
| Signaling.ScanAspect | internal/signaling/signaling.go:35-77 | The early-return scan returns the aspect of the rule. |
| Signaling.ScanAspectForOpen | internal/signaling/signaling.go:83-101 | The opening scan returns red unless all required switches are set, and otherwise double yellow exactly when one is required in reverse. |
| SectionalRelease.LostLockWasPassed | internal/service/train_service.go:93-99 | From any rows, a section that loses its lock in a move completing no route is afterwards free and once-occupied, with an occupied section one or two places further along a locked route. |
| Releases.LockLostIff | internal/interlocking/interlocking.go:215-284 | From any rows and in any map order, a locked section is unlocked by a move if and only if a route in force over the moved section lets go of it: on entry the free, entered sections one or two behind; on a clear the entered section itself with the next two, or all that remain, occupied; on the clear of the entered last section all the route holds. |
| Releases.ClearedGoesIff | internal/interlocking/interlocking.go:264-283 | In a safe yard a held section before the last, just cleared, goes exactly if it was entered, the next is occupied, and so is the one after or there is none. |
| Releases.BehindGoesIff | internal/interlocking/interlocking.go:231-249 | In a safe yard a held section one or two behind the one entered goes exactly if it is free and was entered. |
| TrainMoves.EntryLeaves | internal/service/train_service.go:29-99 | Everything an entry leaves: occupancy and train of that section, one flag, the closed signals of exactly the routes in force over it, one approach lock if a route of the station has its approach there, no other change but released locks. |
| TrainMoves.ClearLeaves | internal/service/train_service.go:29-168 | Everything a clear leaves: the freed section, and one completed route, if the section is the entered last one of some, with its switches, signal, flags and row given up. |
| TrainMoves.AnyApproachMayBeTaken | internal/trainops/trainops.go:71-83 | Each route whose approach is entered is the one approach-locked under some map order. |
| TrainOps.MoveReleasesPassedSections | internal/trainops/trainops.go:85-100 | The same for every section the computed effect names, whatever the visiting order. |
| TrainOps.ReleaseIsSafe | internal/interlocking/interlocking.go:215-284 | A section released by a rule application that does not complete the route is free, was entered, and is one or two places behind an occupied section. |
| TrainOps.EveryCandidateCanWin | internal/trainops/trainops.go:71-83 | Each route whose approach is entered becomes the approach target under some visiting order, so that field really depends on the order. |
| TrainOps.RunApplyMove | internal/trainops/trainops.go:65-103 | The loop over the table returns an effect that visiting every route once in some order produces. |
| TrainOps.VisitAllTraced | internal/trainops/trainops.go:65-103 | Each field of the effect comes from a visited route with the reason for it, and no visited route's contribution to releases and closed signals is lost. |
| Passages.PassageHolds | internal/interlocking/interlocking.go:231-249 | In any run containing a passage over a route of any length, from entering section k (at least 1) until leaving k-1 exactly the sections from k-1 on, other than a listed approach, are locked. |
| Passages.PassageEnds | internal/service/train_service.go:126-168 | The last clear of the passage leaves the route unlocked, its sections free and unlocked, no lock held anywhere and no once-occupied flag. |
| Passages.PassageStands | internal/service/train_service.go:29-110 | At every point of the passage occupancy, flags and locks of each section are as the train's stage says, whatever other steps leave the route locked and its sections and entries alone. |
| Passages.EstablishedIsFront | internal/service/route_service.go:90-106 | A fresh establishment is the start of a passage, with the train outside or already standing in an approach listed first, provided no flag is left over and no route the train would approach-lock shares a section further on. |
| Passages.ExactFlagsMayStart | internal/service/train_service.go:166 | Where once-occupied flags are exact, as on disciplined runs, the start condition asks only about shared sections and an occupied listed approach. |
| Traversal.EntryCanGoAstray | internal/trainops/trainops.go:86-88 | Where another locked route has the section entered, some visiting order attributes the entry to that route. |
| WitnessPassage.PassageCanFail | internal/trainops/trainops.go:86-88 | A state reachable from a new installation in which both sections of a route are free again after a train ran over it, and the route still is locked and holds the last one. |
| Bystanders.BystandersSpare | internal/service/route_service.go:47-345 | At any stage of a passage, establishing any route, cancelling, completing or fault-unlocking another one, moving switches, changing indications, trains on other sections that approach-lock no route over the sections ahead, and restarts while the log is truthful and no elapsed timed cancel of the passage's own route is pending all leave the passage alone. |
| Engine.DriveThrough | internal/service/train_service.go:18-110 | Entering and clearing what is left of the route in order on the store, from any stage and for any length, ends with the route unlocked and nothing held. |
| Engine.EstablishAndDrive | internal/service/route_service.go:47-129 | In any yard a run can reach that meets the start condition, a full cycle is granted exactly where the route may be set, and otherwise refused without a trace; granted, it sets the route, carries a train over it and gives every lock back. |
| Engine.ServeTrains | internal/service/route_service.go:47-129 | Where no other route reaches into the way, any number of trains is served one after another, and the route is as ready after each as before. |
| Cycles.ReadyAgain | internal/service/train_service.go:126-168 | A full cycle over a route that is alone leaves everything the next establishment and passage ask for. |
| Restarts.RecoverableRunIsSound | internal/service/diagram_reconcile_service.go:112-182 | Exclusion, held switches, exact once-occupied flags and a truthful log hold after every run whose steps are disciplined or restarts and keep the log truthful. |
| Restarts.RecoverableSignals | internal/service/signal_helper.go:17-40 | On such runs that restore no indication on a cancelling route's switch, permissive signals stay justified through restarts. |
| Fates.RestartSafeIff | internal/service/diagram_reconcile_service.go:112-182 | In a safe yard with any log, a whole restart, timer completions included, keeps exclusion and held switches if and only if each route it leaves locked that was not locked before needs no switch and conflicts with no route locked in the end. |
| Fates.RestartFate | internal/service/diagram_reconcile_service.go:112-182 | The state in which a restart leaves a route follows from its row, its last word in the log, its timer and the stations listed, whatever the timer orders and the other routes. |
| Restarts.CorrectionSafeIff | internal/service/diagram_reconcile_service.go:144-163 | In a safe yard with any log, correcting a station's rows keeps exclusion and held switches if and only if each route it turns locked needs no switch and conflicts with no route locked afterwards. |
| Interlocking.CheckEstablishExact | internal/interlocking/interlocking.go:75-141 | The check returns a plan if and only if the order-free condition for establishment holds, the state being pending, failed, unlocked or cancelled, and then the plan is the one computed. |
| Interlocking.RunCheckEstablish | internal/interlocking/interlocking.go:75-141 | The loops over switches, conflicts and sections return the plan or the first error of the specified check, and a plan exactly on the order-free condition. |
| Interlocking.RunThreePointRelease | internal/interlocking/interlocking.go:215-284 | The rule as the source runs it returns the specified release, on a clear before the last section exactly on the three points, and no access leaves the route's bounds. |
| Interlocking.MovesMeaning | internal/interlocking/interlocking.go:97-109 | The planned moves are exactly the requirements whose switch stands in another position. |
| Interlocking.WithoutApproachMeaning | internal/interlocking/interlocking.go:121-139 | The planned section locks are exactly the route's sections other than its approach. |
| Interlocking.HeldSectionsMeaning | internal/interlocking/interlocking.go:252-262 | A release list of sections names exactly the route's sections locked by that route. |
| Interlocking.FaultUnlockTarget | internal/interlocking/interlocking.go:329-343 | The lists name, in order, the route's sections and switches locked by it, whatever is occupied. |
| RoutePlan.Build | internal/routeplan/routeplan.go:34-61 | After any sequence of additions, replacements and removals the table holds exactly the surviving routes and their exact conflict graph. |
| RoutePlan.Table.Add | internal/routeplan/routeplan.go:34-52 | Adding or replacing a route keeps the adjacency equal to the conflict relation over the present routes. |
| RoutePlan.Table.Remove | internal/routeplan/routeplan.go:55-61 | Removing a route keeps the adjacency equal to the conflict relation over the remaining routes. |
| RoutePlan.Table.ConflictsOf | internal/routeplan/routeplan.go:78-85 | Returns each present route that conflicts with the given one exactly once, and nothing for an unknown id. |
| RoutePlan.NeighboursSymmetricIrreflexive | internal/routeplan/routeplan.go:100-102 | The neighbour relation is symmetric and irreflexive. |
| RoutePlan.ScanConflicts | internal/routeplan/routeplan.go:103-126 | The nested scan reports a conflict if and only if the ids differ and the routes share a section or require one switch in opposite positions. |
| Runs.NextWellFormed | internal/service/route_service.go:376-402 | Every step keeps each route's references inside its own station and its keys unique. |
| Runs.NextFixed | internal/service/route_service.go:47-300 | No step but definition adds a route or touches a route's definition or an element's place in the yard. |
| Model.FirstPositionMeaning | internal/model/model.go:331-338 | With unique switches, the required position found is exactly the one the route lists. |
| RouteService.DefineRoute | internal/service/route_service.go:25-35 | Stores a pending route or leaves the rows unchanged with the error. |
| RouteService.Establish | internal/service/route_service.go:47-129 | Ends in the rows of the establishment step and returns its row or error; on error no row and no event remains. |
| RouteService.Cancel | internal/service/route_service.go:135-190 | Ends in the rows of the cancel step, immediate or timed, or changes nothing and returns the error. |
| RouteService.CompleteDelayedCancel | internal/service/route_service.go:195-226 | Ends in the rows of the completion step, or changes nothing unless the route is cancelling. |
| RouteService.FaultUnlock | internal/service/route_service.go:259-300 | Ends in the rows of the fault-unlock step. |
| RouteService.ReleaseRouteLocks | internal/service/route_service.go:305-345 | Drops exactly the sections and switches locked by the route, logs each, and moves the row on. |
| RouteService.ReleaseNormal | internal/service/train_service.go:128-168 | Drops the remaining locks, closes the signal, unlocks the row and clears the flags, with every event in order. |
| SwitchService.Reverse | internal/service/switch_service.go:21-50 | Ends in the rows of the reversal step or changes nothing and returns the error. |
| SwitchService.SetIndication | internal/service/switch_service.go:55-97 | Ends in the rows of the indication step with every locked user of the switch refreshed in some table order. |
| SwitchService.RefreshSignal | internal/service/signal_helper.go:17-40 | Stores and logs the recomputed aspect exactly if it differs. |
| TrainService.ApplyMoveTx | internal/service/train_service.go:29-110 | Ends in the rows of the move step for some visiting order and some permitted attribution of each released section. |
| TrainService.RouteIdForSection | internal/service/train_service.go:114-124 | Returns a locked route over the section, or the empty id if there is none. |
| ReconcileService.ReconcileAll | internal/service/diagram_reconcile_service.go:112-127 | Ends in the rows of one pass per station for the timer orders the store listed, and returns the number of rows corrected plus the number of timed cancels completed. |
| ReconcileService.RunReplayEvents | internal/service/diagram_reconcile_service.go:192-213 | The map updated in place equals the replayed projection. |
| ReconcileService.CorrectRows | internal/service/diagram_reconcile_service.go:137-163 | Rewrites exactly the rows of the station that disagree with the log and counts them. |
| Storage.Store.Load | internal/service/loadyard.go:49-75 | The snapshot holds exactly the station's rows, the once-occupied sets of its locked routes, and a valid route table of its routes. |
| Engine.ServeAll | internal/service/route_service.go:14-18 | Serving any list of requests on a store is a run of the step model; the store it leaves has owned locks and a lossless log. |

## Left out

- SQL text, connection handling, row scanning, column ordering by `seq` and foreign-key failures: tables are maps, the log is a sequence in append order, and a transaction is all or nothing.
- Storage failures other than a missing row or a taken key: writes to present tables always succeed.
- Timestamp text, time zones and sub-second parts: time is an integer of seconds passed to each operation, and the `at` entries of event payloads are dropped.
- Id generation (generated ids are never empty, which route definition relies on), JSON, HTTP handlers, the admin token and the frontend: plumbing around the operations.
- Trains' own rows and positions, track bays, block sections, section kinds and a switch's normal position: they feed no lock and no signal decision.
- The station diagram view and `FindByTerminal`: read-only lookups, easy to state and used by no decision.
- Abandoning a timed cancel: no operation ever asks for it, because the move effect never sets that field; the field is kept and shown to be empty.
- The list of stations at a restart is an argument of the recovery pass; stations themselves carry no state.
- Switch positions other than normal and reverse, and nil routes: positions are a two-valued type and a route is always present.
- RoutePlan.ScanConflicts: sections and switches are taken as unique within a route, as the primary keys of the child tables make them (internal/store/schema.go:83-95).
- Passages.EstablishedIsFront: for a listed approach that is not the first section, or is the only one, the start of a passage is stated only when it is free; an occupied one means a train already stands inside the route.
