/**
 Replay against rows. When the log and the rows agree, a restart keeps every route's locked
 status; and for every step it is stated exactly when agreement survives. Two operations break it
 by design of their events: an immediate cancel logs its request last, a fault unlock logs no
 route event at all.
 */
module Agreement {
  import opened Model
  import opened RoutePlan
  import opened Interlocking
  import opened Database
  import opened Steps
  import opened Replay
  import opened Runs
  import opened Ownership
  import opened Exclusion

  /** Approach locking leaves no route event, so replay reads it as established. */
  function AsReplayed(state: RouteState): RouteState {
    if state.ApproachLocked? then Established else state
  }

  ghost predicate AgreesFor(s: State, rid: Id) {
    if rid in s.routes then
      ExpectedOf(s, rid) == if s.routes[rid].state.Pending? then None else Some(AsReplayed(s.routes[rid].state))
    else forall station :: Expected(s.log, station, rid) == None
  }

  ghost predicate Agrees(s: State) {
    forall rid :: AgreesFor(s, rid)
  }

  predicate IsEstablished(state: RouteState) {
    state.Established? || state.ApproachLocked?
  }

  /** The route would be cancelled at once: established, and no train in its approach. */
  predicate CancelsAtOnce(s: State, rid: Id) {
    rid in s.routes && s.routes[rid].state.Established? &&
    var r := s.routes[rid];
    r.approach == NO_ID || !LoadYard(s, r.station).Occupied(r.approach)
  }

  /** Exactly the requests after which, in whatever map order they are served, the log still tells the truth about
      every route. */
  ghost predicate ReplaySafe(s: State, step: Step) {
    match step
    case Cancel(rid, now) => !CancelsAtOnce(s, rid)
    case FaultUnlock(rid, now) => rid in s.routes ==> s.routes[rid].state == Cancelled
    case Train(train, k, entering, _) =>
      entering ==> forall q :: ApproachCandidate(s, k, q) ==> IsEstablished(s.routes[q].state)
    case _ => true
  }

  /** The same for one step with its map order: only the approach target actually picked matters. */
  ghost predicate ReplayKept(s: State, step: Step)
    requires Keyed(s.routes) && Enabled(s, step)
  {
    match step
    case Train(train, k, entering, c) =>
      k in s.sections ==>
        var target := MoveEffect(s, k, entering, c).approachLock;
        target in s.routes ==> IsEstablished(s.routes[target].state)
    case _ => ReplaySafe(s, step)
  }

  // ----- One changed row, one new last word -----

  lemma OneRouteAgrees(s: State, t: State, r: Route, word: Option<RouteState>)
    requires Agrees(s) && r.id in s.routes && s.routes[r.id].SameDefinition(r)
    requires Fixed(s, t) && LastWordIs(s, t, r, word)
    requires forall id :: id in s.routes && id != r.id ==> t.routes[id] == s.routes[id]
    ensures Agrees(t) <==> AgreesFor(t, r.id)
  {
    forall id | id != r.id
      ensures AgreesFor(t, id)
    {
      assert AgreesFor(s, id);
    }
  }

  lemma QuietAgrees(s: State, t: State)
    requires Agrees(s) && t.routes == s.routes && LogQuiet(s, t)
    ensures Agrees(t)
  {
    forall id
      ensures AgreesFor(t, id)
    {
      assert AgreesFor(s, id);
    }
  }

  // ----- Steps -----

  lemma EstablishAgrees(s: State, rid: Id, now: int)
    requires Keyed(s.routes) && Agrees(s)
    ensures Agrees(After(s, EstablishTx(s, rid, now)))
  {
    EstablishCases(s, rid, now);
    if EstablishCommits(s, rid) {
      var r := s.routes[rid];
      var plan := StationPlan(s, r);
      var t := EstablishedState(s, r, plan, now);
      EstablishedFixed(s, r, plan, now);
      EstablishWord(s, r, plan, now);
      OneRouteAgrees(s, t, r, Some(Established));
    }
  }

  lemma CancelAgrees(s: State, rid: Id, now: int)
    requires Keyed(s.routes) && Agrees(s)
    ensures Agrees(After(s, CancelTx(s, rid, now))) <==> ReplaySafe(s, Cancel(rid, now))
  {
    var o := CancelTx(s, rid, now);
    if o.Committed? {
      var r := s.routes[rid];
      if DecideCancel(LoadYard(s, r.station), r).value.Immediate? {
        CancelledNowFixed(s, r, now);
        CancelNowWord(s, r, now);
        OneRouteAgrees(s, o.state, r, Some(Cancelling));
      } else {
        CancelStartedFixed(s, r, now, r.kind.ApproachLockDelay());
        CancelStartWord(s, r, now, r.kind.ApproachLockDelay());
        OneRouteAgrees(s, o.state, r, Some(Cancelling));
      }
    }
  }

  lemma CompleteAgrees(s: State, rid: Id, now: int)
    requires Keyed(s.routes) && Agrees(s)
    ensures Agrees(After(s, CompleteTx(s, rid, now)))
  {
    if CompleteTx(s, rid, now).Committed? {
      var r := s.routes[rid];
      CompleteFixed(s, rid, now);
      CompleteWord(s, r, now);
      OneRouteAgrees(s, CancelCompleted(s, r, now), r, Some(Cancelled));
    }
  }

  lemma FaultAgrees(s: State, rid: Id, now: int)
    requires Keyed(s.routes) && Agrees(s)
    ensures Agrees(After(s, FaultTx(s, rid, now))) <==> ReplaySafe(s, FaultUnlock(rid, now))
  {
    if rid in s.routes {
      var r := s.routes[rid];
      FaultUnlockedFixed(s, r, now);
      FaultQuiet(s, r, now);
      assert AgreesFor(s, rid);
      OneRouteAgrees(s, FaultUnlocked(s, r, now), r, None);
    }
  }

  lemma NormalReleaseAgrees(s: State, r: Route)
    requires Agrees(s) && r.id in s.routes && s.routes[r.id].SameDefinition(r)
    ensures Agrees(NormallyReleased(s, r))
  {
    NormallyReleasedFixed(s, r);
    NormalReleaseWord(s, r);
    OneRouteAgrees(s, NormallyReleased(s, r), r, Some(Unlocked));
  }

  lemma IndicateAgrees(s: State, w: Id, ok: bool, order: seq<Id>)
    requires w in s.switches ==> OrderFor(s, s.switches[w].station, order)
    requires Agrees(s)
    ensures Agrees(After(s, IndicateTx(s, w, ok, order)))
  {
    var t := After(s, IndicateTx(s, w, ok, order));
    if t != s {
      var m := Indicated(s, w, ok);
      var routes := StationRoutes(s, s.switches[w].station);
      IndicatedQuiet(s, w, ok);
      RefreshAllQuiet(m, w, routes, order);
      RefreshAllFixed(m, w, routes, order);
      QuietAgrees(s, t);
    }
  }

  lemma ReverseAgrees(s: State, w: Id)
    requires Agrees(s)
    ensures Agrees(After(s, ReverseTx(s, w)))
  {
    if w in s.switches {
      ReverseQuiet(s, w);
      QuietAgrees(s, After(s, ReverseTx(s, w)));
    }
  }

  /** The rows after the effects of a move agree exactly if the approach target was established. */
  lemma MovedAgrees(s: State, train: Id, k: Id, entering: bool, c: Choice)
    requires Keyed(s.routes) && Agrees(s) && k in s.sections && ChoiceFor(s, k, entering, c)
    ensures Agrees(MovedOf(s, train, k, entering, c)) <==>
      var target := MoveEffect(s, k, entering, c).approachLock;
      target in s.routes ==> IsEstablished(s.routes[target].state)
  {
    var m := MovedOf(s, train, k, entering, c);
    var eff := MoveEffect(s, k, entering, c);
    MoveTouchesKnownRoutes(s, k, entering, c);
    TrainCases(s, train, k, entering, c);
    MovedQuiet(s, s.sections[k].station, train, eff, c.owners);
    if eff.approachLock in s.routes {
      assert AgreesFor(s, eff.approachLock);
      OneRouteAgrees(s, m, s.routes[eff.approachLock], None);
    } else {
      QuietAgrees(s, m);
    }
  }

  lemma TrainAgrees(s: State, train: Id, k: Id, entering: bool, c: Choice)
    requires Keyed(s.routes) && Agrees(s) && ChoiceFor(s, k, entering, c)
    ensures Agrees(After(s, MoveTx(s, train, k, entering, c))) <==> ReplayKept(s, Train(train, k, entering, c))
  {
    if k in s.sections {
      var eff := MoveEffect(s, k, entering, c);
      var m := MovedOf(s, train, k, entering, c);
      MovedAgrees(s, train, k, entering, c);
      TrainCases(s, train, k, entering, c);
      if eff.complete != NO_ID {
        NormalReleaseAgrees(m, s.routes[eff.complete]);
      }
    }
  }

  lemma DefineAgrees(s: State, r: Route)
    requires Agrees(s)
    ensures Agrees(After(s, DefineTx(s, r)))
  {
    var t := After(s, DefineTx(s, r));
    forall id
      ensures AgreesFor(t, id)
    {
      assert AgreesFor(s, id);
    }
  }

  lemma CorrectedAgrees(s: State, station: Id)
    requires Agrees(s)
    ensures Agrees(Corrected(s, station))
  {
    var t := Corrected(s, station);
    forall id
      ensures AgreesFor(t, id)
    {
      assert AgreesFor(s, id);
    }
  }

  lemma {:induction false} CompleteDueAgrees(s: State, now: int, order: seq<Id>)
    requires Keyed(s.routes) && Agrees(s)
    ensures Agrees(CompleteDue(s, now, order).state)
  {
    if order != [] {
      var init, last := order[..|order| - 1], order[|order| - 1];
      CompleteDueAgrees(s, now, init);
      CompleteDueFixed(s, now, init);
      FixedKeepsKeyed(s, CompleteDue(s, now, init).state);
      CompleteAgrees(CompleteDue(s, now, init).state, last, now);
    }
  }

  lemma {:induction false} ReconcileAgrees(s: State, now: int, stations: seq<Id>, orders: seq<seq<Id>>)
    requires Keyed(s.routes) && Agrees(s) && |orders| == |stations|
    ensures Agrees(AllPasses(s, now, stations, orders).state)
  {
    if stations != [] {
      var n := |stations| - 1;
      var b := AllPasses(s, now, stations[..n], orders[..n]).state;
      ReconcileAgrees(s, now, stations[..n], orders[..n]);
      AllPassesFixed(s, now, stations[..n], orders[..n]);
      FixedKeepsKeyed(s, b);
      CorrectedAgrees(b, stations[n]);
      FixedKeepsKeyed(b, Corrected(b, stations[n]));
      CompleteDueAgrees(Corrected(b, stations[n]), now, orders[n]);
    }
  }

  /** For one step with its map order. */
  lemma StepAgreesIff(s: State, step: Step)
    requires Keyed(s.routes) && Agrees(s) && Enabled(s, step)
    ensures Agrees(Next(s, step)) <==> ReplayKept(s, step)
  {
    match step {
      case Define(r) => DefineAgrees(s, r);
      case Establish(rid, now) => EstablishAgrees(s, rid, now);
      case Cancel(rid, now) => CancelAgrees(s, rid, now);
      case Complete(rid, now) => CompleteAgrees(s, rid, now);
      case FaultUnlock(rid, now) => FaultAgrees(s, rid, now);
      case ReverseSwitch(w) => ReverseAgrees(s, w);
      case Indicate(w, ok, order) => IndicateAgrees(s, w, ok, order);
      case Train(train, k, entering, c) => TrainAgrees(s, train, k, entering, c);
      case Reconcile(now, stations, orders) => ReconcileAgrees(s, now, stations, orders);
    }
  }

  /**
   Main result: a request keeps log and rows in agreement in every map order it may be served in, if
   and only if it is replay-safe, which can be read off the rows before the call.
   */
  lemma NextAgreesIff(s: State, step: Step)
    requires Keyed(s.routes) && Agrees(s) && Enabled(s, step)
    ensures (forall b :: Alike(step, b) && Enabled(s, b) ==> Agrees(Next(s, b))) <==> ReplaySafe(s, step)
  {
    forall b | Alike(step, b) && Enabled(s, b)
      ensures Agrees(Next(s, b)) <==> ReplayKept(s, b)
    {
      StepAgreesIff(s, b);
    }
    if ReplaySafe(s, step) {
      forall b | Alike(step, b) && Enabled(s, b)
        ensures ReplayKept(s, b)
      {
        SafeIsKept(s, step, b);
      }
    } else {
      var b := UnsafeCanFail(s, step);
      assert !Agrees(Next(s, b));
    }
  }

  lemma SafeIsKept(s: State, step: Step, b: Step)
    requires Keyed(s.routes) && ReplaySafe(s, step) && Alike(step, b) && Enabled(s, b)
    ensures ReplayKept(s, b)
  {
    if b.Train? && b.section in s.sections {
      TargetIsCandidate(s, b.section, b.entering, b.choice);
    }
  }

  lemma UnsafeCanFail(s: State, step: Step) returns (b: Step)
    requires Keyed(s.routes) && Enabled(s, step) && !ReplaySafe(s, step)
    ensures Alike(step, b) && Enabled(s, b) && !ReplayKept(s, b)
  {
    b := step;
    if step.Train? {
      var q :| ApproachCandidate(s, step.section, q) && !IsEstablished(s.routes[q].state);
      var c := CandidateCanWin(s, step.section, q);
      b := Train(step.train, step.section, true, c);
    }
  }

  /** Runs of steps that keep the replay keep log and rows in agreement, restarts included. */
  lemma {:induction false} SafeRunsAgree(states: seq<State>, steps: seq<Step>)
    requires IsRun(states, steps) && Initial(states[0])
    requires forall i :: 0 <= i < |steps| ==> ReplayKept(states[i], steps[i])
    ensures Agrees(states[|steps|])
  {
    if steps == [] {
      forall rid
        ensures AgreesFor(states[0], rid)
      {
      }
    } else {
      var n := |steps| - 1;
      SafeRunsAgree(states[..n + 1], steps[..n]);
      StepAgreesIff(states[n], steps[n]);
    }
  }

  // ----- What agreement is worth at a restart -----

  /** Where rows and log agree, correction changes no lock status: it only reads approach-locked as established. */
  lemma RestartKeepsStatus(s: State, station: Id, rid: Id)
    requires Agrees(s) && rid in s.routes
    ensures
      var row := Corrected(s, station).routes[rid];
      && row.state.IsLocked() == s.routes[rid].state.IsLocked()
      && AsReplayed(row.state) == AsReplayed(s.routes[rid].state)
  {
    assert AgreesFor(s, rid);
  }

  /** The same for all routes at once. */
  lemma CorrectionKeepsLocked(s: State, station: Id)
    requires Agrees(s)
    ensures Fixed(s, Corrected(s, station))
    ensures forall id :: IsLockedRoute(Corrected(s, station), id) <==> IsLockedRoute(s, id)
    ensures forall id :: id in s.routes ==>
      (Corrected(s, station).routes[id].state == Cancelling <==> s.routes[id].state == Cancelling)
  {
    forall id | id in s.routes
      ensures IsLockedRoute(Corrected(s, station), id) <==> IsLockedRoute(s, id)
      ensures Corrected(s, station).routes[id].state == Cancelling <==> s.routes[id].state == Cancelling
    {
      RestartKeepsStatus(s, station, id);
    }
  }

  /** `rid` had a timed cancel running whose delay has passed, and it is finished now. */
  ghost predicate RanOut(s: State, t: State, now: int, rid: Id)
    requires rid in s.routes && rid in t.routes
  {
    s.routes[rid].state == Cancelling && t.routes[rid].state == Cancelled && rid in s.timers && Due(s.timers[rid], now)
  }

  /** The state of `rid` as replay reads it is unchanged, or its timed cancel has run out; no timer is new. */
  ghost predicate Kept(s: State, t: State, now: int, rid: Id) {
    && rid in s.routes && rid in t.routes
    && (AsReplayed(t.routes[rid].state) == AsReplayed(s.routes[rid].state) || RanOut(s, t, now, rid))
    && (rid in t.timers ==> rid in s.timers && t.timers[rid] == s.timers[rid])
  }

  lemma {:induction false} CompleteDueKeeps(s: State, u: State, now: int, order: seq<Id>, rid: Id)
    requires Keyed(u.routes) && Kept(s, u, now, rid)
    ensures Kept(s, CompleteDue(u, now, order).state, now, rid)
  {
    if order != [] {
      var init, last := order[..|order| - 1], order[|order| - 1];
      CompleteDueKeeps(s, u, now, init, rid);
      CompleteDueFixed(u, now, init);
      FixedKeepsKeyed(u, CompleteDue(u, now, init).state);
      CompleteOneKeeps(s, CompleteDue(u, now, init), now, last, rid);
    }
  }

  lemma CompleteOneKeeps(s: State, p: Pass, now: int, other: Id, rid: Id)
    requires Keyed(p.state.routes) && Kept(s, p.state, now, rid)
    ensures Kept(s, CompleteOne(p, other, now).state, now, rid)
  {
  }

  lemma {:induction false} ReconcileKeeps(s: State, now: int, stations: seq<Id>, orders: seq<seq<Id>>, rid: Id)
    requires Keyed(s.routes) && Agrees(s) && rid in s.routes && |orders| == |stations|
    ensures Kept(s, AllPasses(s, now, stations, orders).state, now, rid)
  {
    if stations != [] {
      var n := |stations| - 1;
      var b := AllPasses(s, now, stations[..n], orders[..n]).state;
      ReconcileKeeps(s, now, stations[..n], orders[..n], rid);
      ReconcileAgrees(s, now, stations[..n], orders[..n]);
      AllPassesFixed(s, now, stations[..n], orders[..n]);
      FixedKeepsKeyed(s, b);
      RestartKeepsStatus(b, stations[n], rid);
      FixedKeepsKeyed(b, Corrected(b, stations[n]));
      CompleteDueKeeps(s, Corrected(b, stations[n]), now, orders[n], rid);
    }
  }

  /**
   Main result: a whole restart, at any point of a run that keeps the replay and over all stations,
   leaves every route locked or unlocked as it was; only timed cancels that have run out are finished.
   */
  lemma RestartKeepsEveryStatus(states: seq<State>, steps: seq<Step>, now: int,
                                stations: seq<Id>, orders: seq<seq<Id>>, rid: Id)
    requires IsRun(states, steps) && Initial(states[0]) && |orders| == |stations|
    requires forall i :: 0 <= i < |steps| ==> ReplayKept(states[i], steps[i])
    requires rid in states[|steps|].routes
    ensures
      var s := states[|steps|];
      var t := AllPasses(s, now, stations, orders).state;
      && rid in t.routes
      && (t.routes[rid].state.IsLocked() == s.routes[rid].state.IsLocked() || RanOut(s, t, now, rid))
  {
    SafeRunsAgree(states, steps);
    ReconcileKeeps(states[|steps|], now, stations, orders, rid);
  }

  /** Any immediate cancel followed by a restart brings the route back as cancelling, without locks. */
  lemma ImmediateCancelComesBack(s: State, rid: Id, now: int)
    requires WellFormed(s) && Owned(s) && rid in s.routes
    requires DecideCancel(LoadYard(s, s.routes[rid].station), s.routes[rid]) == Ok(Immediate)
    ensures
      var t := After(s, CancelTx(s, rid, now));
      var u := Corrected(t, s.routes[rid].station);
      && t.routes[rid].state == Cancelled && u.routes[rid].state == Cancelling
      && (forall k :: !SectionHeld(u.sections, k, rid)) && (forall w :: !SwitchHeld(u.switches, w, rid))
  {
    var r := s.routes[rid];
    CancelNowWord(s, r, now);
    HeldIsExact(s, r);
    var t := CancelledNow(s, r, now);
    assert RowWrong(t, rid);
  }

  /** A fault unlock of a locked route is undone, as far as the row goes, by the next restart. */
  lemma FaultUnlockComesBack(s: State, rid: Id, now: int)
    requires WellFormed(s) && Owned(s) && Agrees(s) && IsLockedRoute(s, rid)
    ensures
      var t := After(s, FaultTx(s, rid, now));
      var u := Corrected(t, s.routes[rid].station);
      && t.routes[rid].state == Cancelled && u.routes[rid].state == AsReplayed(s.routes[rid].state)
      && (forall k :: !SectionHeld(u.sections, k, rid)) && (forall w :: !SwitchHeld(u.switches, w, rid))
  {
    var r := s.routes[rid];
    FaultQuiet(s, r, now);
    YardHeldIsExact(s, r);
    assert AgreesFor(s, rid);
    var t := FaultUnlocked(s, r, now);
    assert RowWrong(t, rid);
  }
}
