/**
 Timed cancels. As long as restarts only happen while the log agrees with the rows, every cancelling
 route has a pending timer that agrees with its row and carries the delay of its kind, so the next
 reconciliation leaves it, and its locks, alone until that delay has passed.
 */
module Timers {
  import opened Model
  import opened RoutePlan
  import opened Interlocking
  import opened Database
  import opened Steps
  import opened Replay
  import opened Runs
  import opened Ownership
  import opened Exclusion
  import opened Agreement

  ghost predicate TimedRight(s: State, rid: Id) {
    rid in s.routes && s.routes[rid].state == Cancelling ==>
      && ExpectedOf(s, rid) == Some(Cancelling)
      && rid in s.timers && !s.timers[rid].completed
      && s.routes[rid].timerStartedAt == Some(s.timers[rid].startedAt)
      && s.timers[rid].delaySecs == (if s.routes[rid].kind == ShuntRoute then 30 else 180)
  }

  ghost predicate TimersMatch(s: State) {
    forall rid :: TimedRight(s, rid)
  }

  /** One route's row and timer change; it is not left cancelling, or it is timed right. */
  lemma OneRouteTimed(s: State, t: State, r: Route, word: Option<RouteState>)
    requires TimersMatch(s) && r.id in s.routes && s.routes[r.id].SameDefinition(r)
    requires Fixed(s, t) && LastWordIs(s, t, r, word)
    requires forall id :: id in s.routes && id != r.id ==> t.routes[id] == s.routes[id]
    requires forall id :: id != r.id && id in s.timers ==> id in t.timers && t.timers[id] == s.timers[id]
    requires TimedRight(t, r.id)
    ensures TimersMatch(t)
  {
    forall id
      ensures TimedRight(t, id)
    {
      assert TimedRight(s, id);
    }
  }

  lemma QuietTimed(s: State, t: State)
    requires TimersMatch(s) && t.timers == s.timers && LogQuiet(s, t) && Fixed(s, t)
    requires forall id :: id in s.routes ==> t.routes[id] == s.routes[id] || t.routes[id].state != Cancelling
    ensures TimersMatch(t)
  {
    forall id
      ensures TimedRight(t, id)
    {
      assert TimedRight(s, id);
    }
  }

  lemma EstablishTimed(s: State, rid: Id, now: int)
    requires Keyed(s.routes) && TimersMatch(s)
    ensures TimersMatch(After(s, EstablishTx(s, rid, now)))
  {
    EstablishCases(s, rid, now);
    if EstablishCommits(s, rid) {
      var r := s.routes[rid];
      var plan := StationPlan(s, r);
      EstablishedFixed(s, r, plan, now);
      EstablishWord(s, r, plan, now);
      OneRouteTimed(s, EstablishedState(s, r, plan, now), r, Some(Established));
    }
  }

  lemma CancelTimed(s: State, rid: Id, now: int)
    requires Keyed(s.routes) && TimersMatch(s)
    ensures TimersMatch(After(s, CancelTx(s, rid, now)))
  {
    var o := CancelTx(s, rid, now);
    if o.Committed? {
      var r := s.routes[rid];
      if DecideCancel(LoadYard(s, r.station), r).value.Immediate? {
        CancelledNowFixed(s, r, now);
        CancelNowWord(s, r, now);
      } else {
        CancelStartedFixed(s, r, now, r.kind.ApproachLockDelay());
        CancelStartWord(s, r, now, r.kind.ApproachLockDelay());
      }
      OneRouteTimed(s, o.state, r, Some(Cancelling));
    }
  }

  lemma CompleteTimed(s: State, rid: Id, now: int)
    requires Keyed(s.routes) && TimersMatch(s)
    ensures TimersMatch(After(s, CompleteTx(s, rid, now)))
  {
    if CompleteTx(s, rid, now).Committed? {
      var r := s.routes[rid];
      CompleteFixed(s, rid, now);
      CompleteWord(s, r, now);
      OneRouteTimed(s, CancelCompleted(s, r, now), r, Some(Cancelled));
    }
  }

  lemma FaultTimed(s: State, rid: Id, now: int)
    requires Keyed(s.routes) && TimersMatch(s)
    ensures TimersMatch(After(s, FaultTx(s, rid, now)))
  {
    if rid in s.routes {
      var r := s.routes[rid];
      FaultUnlockedFixed(s, r, now);
      FaultQuiet(s, r, now);
      OneRouteTimed(s, FaultUnlocked(s, r, now), r, None);
    }
  }

  lemma IndicateTimed(s: State, w: Id, ok: bool, order: seq<Id>)
    requires w in s.switches ==> OrderFor(s, s.switches[w].station, order)
    requires TimersMatch(s)
    ensures TimersMatch(After(s, IndicateTx(s, w, ok, order)))
  {
    var t := After(s, IndicateTx(s, w, ok, order));
    if t != s {
      var m := Indicated(s, w, ok);
      var routes := StationRoutes(s, s.switches[w].station);
      IndicatedQuiet(s, w, ok);
      RefreshAllQuiet(m, w, routes, order);
      RefreshAllFixed(m, w, routes, order);
      IndicateFixed(s, w, ok, order);
      QuietTimed(s, t);
    }
  }

  lemma ReverseTimed(s: State, w: Id)
    requires TimersMatch(s)
    ensures TimersMatch(After(s, ReverseTx(s, w)))
  {
    if w in s.switches {
      ReverseQuiet(s, w);
      ReverseFixed(s, w);
      QuietTimed(s, After(s, ReverseTx(s, w)));
    }
  }

  lemma TrainTimed(s: State, train: Id, k: Id, entering: bool, c: Choice)
    requires Keyed(s.routes) && ChoiceFor(s, k, entering, c) && TimersMatch(s)
    ensures TimersMatch(After(s, MoveTx(s, train, k, entering, c)))
  {
    if k in s.sections {
      var eff := MoveEffect(s, k, entering, c);
      MovedTimed(s, train, k, entering, c);
      TrainCases(s, train, k, entering, c);
      if eff.complete != NO_ID {
        NormallyReleasedTimed(MovedOf(s, train, k, entering, c), s.routes[eff.complete]);
      }
    }
  }

  lemma MovedTimed(s: State, train: Id, k: Id, entering: bool, c: Choice)
    requires Keyed(s.routes) && k in s.sections && ChoiceFor(s, k, entering, c) && TimersMatch(s)
    ensures TimersMatch(MovedOf(s, train, k, entering, c))
  {
    MoveTouchesKnownRoutes(s, k, entering, c);
    TrainCases(s, train, k, entering, c);
    MovedQuiet(s, s.sections[k].station, train, MoveEffect(s, k, entering, c), c.owners);
    QuietTimed(s, MovedOf(s, train, k, entering, c));
  }

  lemma NormallyReleasedTimed(m: State, r: Route)
    requires TimersMatch(m) && r.id in m.routes && m.routes[r.id].SameDefinition(r)
    ensures TimersMatch(NormallyReleased(m, r))
  {
    NormallyReleasedFixed(m, r);
    NormalReleaseWord(m, r);
    OneRouteTimed(m, NormallyReleased(m, r), r, Some(Unlocked));
  }

  lemma DefineTimed(s: State, r: Route)
    requires TimersMatch(s)
    ensures TimersMatch(After(s, DefineTx(s, r)))
  {
    var t := After(s, DefineTx(s, r));
    forall id
      ensures TimedRight(t, id)
    {
      assert TimedRight(s, id);
    }
  }

  lemma NextTimed(s: State, step: Step)
    requires Keyed(s.routes) && Enabled(s, step) && TimersMatch(s) && !step.Reconcile?
    ensures TimersMatch(Next(s, step))
  {
    match step {
      case Define(r) => DefineTimed(s, r);
      case Establish(rid, now) => EstablishTimed(s, rid, now);
      case Cancel(rid, now) => CancelTimed(s, rid, now);
      case Complete(rid, now) => CompleteTimed(s, rid, now);
      case FaultUnlock(rid, now) => FaultTimed(s, rid, now);
      case ReverseSwitch(w) => ReverseTimed(s, w);
      case Indicate(w, ok, order) => IndicateTimed(s, w, ok, order);
      case Train(train, k, entering, c) => TrainTimed(s, train, k, entering, c);
    }
  }

  lemma CorrectionTimed(s: State, station: Id)
    requires Agrees(s) && TimersMatch(s)
    ensures TimersMatch(Corrected(s, station))
  {
    var t := Corrected(s, station);
    CorrectionKeepsLocked(s, station);
    forall rid
      ensures TimedRight(t, rid)
    {
      assert TimedRight(s, rid);
    }
  }

  lemma {:induction false} CompleteDueTimed(s: State, now: int, order: seq<Id>)
    requires Keyed(s.routes) && TimersMatch(s)
    ensures TimersMatch(CompleteDue(s, now, order).state)
  {
    if order != [] {
      var init, last := order[..|order| - 1], order[|order| - 1];
      CompleteDueTimed(s, now, init);
      CompleteDueFixed(s, now, init);
      FixedKeepsKeyed(s, CompleteDue(s, now, init).state);
      CompleteTimed(CompleteDue(s, now, init).state, last, now);
    }
  }

  lemma {:induction false} RestartTimed(s: State, now: int, stations: seq<Id>, orders: seq<seq<Id>>)
    requires Keyed(s.routes) && Agrees(s) && TimersMatch(s) && |orders| == |stations|
    ensures TimersMatch(AllPasses(s, now, stations, orders).state)
  {
    if stations != [] {
      var n := |stations| - 1;
      var b := AllPasses(s, now, stations[..n], orders[..n]).state;
      RestartTimed(s, now, stations[..n], orders[..n]);
      ReconcileAgrees(s, now, stations[..n], orders[..n]);
      AllPassesFixed(s, now, stations[..n], orders[..n]);
      FixedKeepsKeyed(s, b);
      CorrectionTimed(b, stations[n]);
      FixedKeepsKeyed(b, Corrected(b, stations[n]));
      CompleteDueTimed(Corrected(b, stations[n]), now, orders[n]);
    }
  }

  /** Restarts, if any, happen where the log agrees with the rows. */
  ghost predicate TruthfulRestarts(states: seq<State>, steps: seq<Step>) {
    && IsRun(states, steps)
    && forall i :: 0 <= i < |steps| && steps[i].Reconcile? ==> Agrees(states[i])
  }

  /** Cancelling routes are timed right after every run, through restarts where the log is truthful. */
  lemma {:induction false} RunsAreTimed(states: seq<State>, steps: seq<Step>)
    requires TruthfulRestarts(states, steps) && Initial(states[0])
    ensures TimersMatch(states[|steps|])
  {
    if steps != [] {
      var n := |steps| - 1;
      RunsAreTimed(states[..n + 1], steps[..n]);
      if steps[n].Reconcile? {
        RestartTimed(states[n], steps[n].now, steps[n].stations, steps[n].orders);
      } else {
        NextTimed(states[n], steps[n]);
      }
    }
  }

  /** Runs of steps that keep the replay are such runs, however many restarts they hold. */
  lemma {:induction false} KeptReplayIsTruthful(states: seq<State>, steps: seq<Step>)
    requires IsRun(states, steps) && Initial(states[0])
    requires forall i :: 0 <= i < |steps| ==> ReplayKept(states[i], steps[i])
    ensures TruthfulRestarts(states, steps)
  {
    forall i | 0 <= i < |steps|
      ensures Agrees(states[i])
    {
      SafeRunsAgree(states[..i + 1], steps[..i]);
    }
  }

  // ----- No early release -----

  /** The route is cancelling in row and log, and its timer has not elapsed. */
  ghost predicate Waiting(s: State, now: int, rid: Id) {
    && rid in s.routes && s.routes[rid].state == Cancelling && ExpectedOf(s, rid) == Some(Cancelling)
    && rid in s.timers && !Due(s.timers[rid], now)
  }

  /** Row, timer and locks of `rid` are as they were. */
  ghost predicate LeftAlone(s: State, t: State, rid: Id) {
    && rid in s.routes && rid in t.routes && t.routes[rid] == s.routes[rid]
    && rid in s.timers && rid in t.timers && t.timers[rid] == s.timers[rid]
    && (forall k :: SectionHeld(s.sections, k, rid) ==> SectionHeld(t.sections, k, rid))
    && (forall w :: SwitchHeld(s.switches, w, rid) ==> SwitchHeld(t.switches, w, rid))
  }

  lemma OthersCompletionSpares(s: State, now: int, rid: Id, other: Id)
    requires Keyed(s.routes) && Waiting(s, now, rid) && other in s.routes && other != rid
    ensures
      var t := CancelCompleted(s, s.routes[other], now);
      LeftAlone(s, t, rid) && Waiting(t, now, rid)
  {
    var r := s.routes[other];
    CompleteWord(s, r, now);
    forall k
      ensures k in HeldSecs(s, r) ==> SectionHeld(s.sections, k, other)
    {
      HeldSectionsMeaning(s.sections, r.path, r.id, k);
    }
    forall w
      ensures w in HeldSws(s, r) ==> SwitchHeld(s.switches, w, other)
    {
      HeldSwitchesMeaning(s.switches, r.SwitchIds(), r.id, w);
    }
  }

  lemma {:induction false} CompleteDueSpares(s: State, now: int, order: seq<Id>, rid: Id)
    requires Keyed(s.routes) && Waiting(s, now, rid)
    ensures
      var t := CompleteDue(s, now, order).state;
      LeftAlone(s, t, rid) && Waiting(t, now, rid)
  {
    if order != [] {
      var init, last := order[..|order| - 1], order[|order| - 1];
      CompleteDueSpares(s, now, init, rid);
      CompleteDueFixed(s, now, init);
      var m := CompleteDue(s, now, init).state;
      FixedKeepsKeyed(s, m);
      if CompleteDue(s, now, order).state != m {
        OthersCompletionSpares(m, now, rid, last);
      }
    }
  }

  lemma CorrectionSpares(s: State, station: Id, now: int, rid: Id)
    requires Waiting(s, now, rid)
    ensures LeftAlone(s, Corrected(s, station), rid) && Waiting(Corrected(s, station), now, rid)
  {
  }

  lemma {:induction false} ReconcileSpares(s: State, now: int, stations: seq<Id>, orders: seq<seq<Id>>, rid: Id)
    requires Keyed(s.routes) && Waiting(s, now, rid) && |orders| == |stations|
    ensures
      var t := AllPasses(s, now, stations, orders).state;
      LeftAlone(s, t, rid) && Waiting(t, now, rid)
  {
    if stations != [] {
      var n := |stations| - 1;
      ReconcileSpares(s, now, stations[..n], orders[..n], rid);
      AllPassesFixed(s, now, stations[..n], orders[..n]);
      var b := AllPasses(s, now, stations[..n], orders[..n]).state;
      FixedKeepsKeyed(s, b);
      CorrectionSpares(b, stations[n], now, rid);
      var c := Corrected(b, stations[n]);
      FixedKeepsKeyed(b, c);
      CompleteDueSpares(c, now, orders[n], rid);
    }
  }

  /**
   Main result: after any run whose restarts were truthful, a reconciliation before the delay of the route's
   kind has passed since its recorded start leaves the cancelling route and its locks alone.
   */
  lemma NeverReleasedEarly(states: seq<State>, steps: seq<Step>, now: int, stations: seq<Id>, orders: seq<seq<Id>>,
      rid: Id)
    requires TruthfulRestarts(states, steps) && Initial(states[0])
    requires |orders| == |stations|
    requires rid in states[|steps|].routes && states[|steps|].routes[rid].state == Cancelling
    requires
      var r := states[|steps|].routes[rid];
      r.timerStartedAt.Some? ==> now < r.timerStartedAt.value + if r.kind == ShuntRoute then 30 else 180
    ensures LeftAlone(states[|steps|], AllPasses(states[|steps|], now, stations, orders).state, rid)
  {
    var s := states[|steps|];
    RunsAreTimed(states, steps);
    assert TimedRight(s, rid);
    ReconcileSpares(s, now, stations, orders, rid);
  }

  // ----- And no late one -----

  ghost predicate Elapsed(s: State, now: int, rid: Id) {
    && rid in s.routes && s.routes[rid].state == Cancelling && ExpectedOf(s, rid) == Some(Cancelling)
    && rid in PendingTimers(s) && Due(s.timers[rid], now)
  }

  lemma CompleteOneProgress(p: Pass, rid: Id, other: Id, now: int)
    requires Keyed(p.state.routes)
    ensures Finished(p.state, rid) ==> Finished(CompleteOne(p, other, now).state, rid)
    ensures Elapsed(p.state, now, rid) ==>
      if other == rid then Finished(CompleteOne(p, other, now).state, rid)
      else Elapsed(CompleteOne(p, other, now).state, now, rid)
  {
    if other in p.state.routes {
      CompleteWord(p.state, p.state.routes[other], now);
    }
  }

  lemma {:induction false} CompleteDueProgress(s: State, now: int, order: seq<Id>, rid: Id)
    requires Keyed(s.routes) && (Elapsed(s, now, rid) || Finished(s, rid))
    ensures
      var t := CompleteDue(s, now, order).state;
      if Finished(s, rid) || rid in order then Finished(t, rid) else Elapsed(t, now, rid)
  {
    if order != [] {
      var init, last := order[..|order| - 1], order[|order| - 1];
      CompleteDueProgress(s, now, init, rid);
      CompleteDueFixed(s, now, init);
      FixedKeepsKeyed(s, CompleteDue(s, now, init).state);
      CompleteOneProgress(CompleteDue(s, now, init), rid, last, now);
      assert order == init + [last];
    }
  }

  lemma {:induction false} ReconcileFinishes(s: State, now: int, stations: seq<Id>, orders: seq<seq<Id>>, rid: Id)
    requires Keyed(s.routes) && Elapsed(s, now, rid) && OrdersFor(s, now, stations, orders)
    ensures
      var t := AllPasses(s, now, stations, orders).state;
      if stations == [] then Elapsed(t, now, rid) else Finished(t, rid)
  {
    if stations != [] {
      var n := |stations| - 1;
      ReconcileFinishes(s, now, stations[..n], orders[..n], rid);
      AllPassesFixed(s, now, stations[..n], orders[..n]);
      var b := AllPasses(s, now, stations[..n], orders[..n]).state;
      FixedKeepsKeyed(s, b);
      var c := Corrected(b, stations[n]);
      FixedKeepsKeyed(b, c);
      CompleteDueProgress(c, now, orders[n], rid);
    }
  }

  /** Cancelled, and no lock is held for the route any more. */
  ghost predicate GivenUp(t: State, rid: Id) {
    && rid in t.routes && t.routes[rid].state == Cancelled
    && (forall k :: !SectionHeld(t.sections, k, rid)) && (forall w :: !SwitchHeld(t.switches, w, rid))
  }

  /** A reconciliation leaves a cancelling route alone before 30 seconds for a shunt, or 180, and then gives it up. */
  lemma ReleasedIffElapsed(states: seq<State>, steps: seq<Step>, now: int, stations: seq<Id>, orders: seq<seq<Id>>,
      rid: Id)
    requires TruthfulRestarts(states, steps) && Initial(states[0])
    requires stations != [] && OrdersFor(states[|steps|], now, stations, orders)
    requires rid in states[|steps|].routes && states[|steps|].routes[rid].state == Cancelling
    ensures
      var r := states[|steps|].routes[rid];
      var t := AllPasses(states[|steps|], now, stations, orders).state;
      && r.timerStartedAt.Some?
      && if now < r.timerStartedAt.value + (if r.kind == ShuntRoute then 30 else 180)
         then LeftAlone(states[|steps|], t, rid) else GivenUp(t, rid)
  {
    var s := states[|steps|];
    RunsAreTimed(states, steps);
    assert TimedRight(s, rid);
    if Due(s.timers[rid], now) {
      ReconcileFinishes(s, now, stations, orders, rid);
      EveryRunIsOwned(states, steps);
      FinishedHoldsNothing(s, now, stations, orders, rid);
    } else {
      ReconcileSpares(s, now, stations, orders, rid);
    }
  }

  lemma FinishedHoldsNothing(s: State, now: int, stations: seq<Id>, orders: seq<seq<Id>>, rid: Id)
    requires WellFormed(s) && Owned(s) && OrdersFor(s, now, stations, orders)
    requires Finished(AllPasses(s, now, stations, orders).state, rid)
    ensures GivenUp(AllPasses(s, now, stations, orders).state, rid)
  {
    var t := AllPasses(s, now, stations, orders).state;
    NextOwned(s, Reconcile(now, stations, orders));
    forall k
      ensures !SectionHeld(t.sections, k, rid)
    {
      assert k in t.sections ==> SectionOwned(t, k);
    }
    forall w
      ensures !SwitchHeld(t.switches, w, rid)
    {
      assert w in t.switches ==> SwitchOwned(t, w);
    }
  }
}
