/**
 A route left cancelling without a timer, as a restart leaves it after an immediate cancel. It holds
 no lock, but it blocks every conflicting route, and only completing its cancel, a fault unlock or a
 train can free it: a cancel is refused and no later restart helps.
 */
module Stranded {
  import opened Model
  import opened RoutePlan
  import opened Interlocking
  import opened Database
  import opened Steps
  import opened Replay
  import opened Runs
  import opened Ownership
  import opened Exclusion
  import opened Agreement

  /** Cancelling in row and log, and no pending timer will ever complete it. */
  ghost predicate Strands(s: State, rid: Id) {
    && rid in s.routes && s.routes[rid].state == Cancelling
    && ExpectedOf(s, rid) == Some(Cancelling)
    && rid !in PendingTimers(s)
  }

  /** The steps that free such a route: two requests on the route itself, and a train's effect on it. */
  ghost predicate Frees(s: State, step: Step, rid: Id)
    requires Keyed(s.routes) && Enabled(s, step)
  {
    match step
    case Complete(q, _) => q == rid
    case FaultUnlock(q, _) => q == rid
    case Train(train, k, entering, c) =>
      k in s.sections &&
      (MoveEffect(s, k, entering, c).approachLock == rid || MoveEffect(s, k, entering, c).complete == rid)
    case _ => false
  }

  /** Row, last word and timer of `rid` are as before. */
  lemma SameStrands(s: State, t: State, rid: Id)
    requires Strands(s, rid) && rid in t.routes && t.routes[rid] == s.routes[rid]
    requires Expected(t.log, s.routes[rid].station, rid) == Expected(s.log, s.routes[rid].station, rid)
    requires rid in t.timers ==> rid in s.timers && t.timers[rid] == s.timers[rid]
    ensures Strands(t, rid)
  {
  }

  // ----- Steps on other routes -----

  lemma CancelStrands(s: State, q: Id, now: int, rid: Id)
    requires Keyed(s.routes) && Strands(s, rid)
    ensures Strands(After(s, CancelTx(s, q, now)), rid)
  {
    if CancelTx(s, q, now).Committed? {
      var r := s.routes[q];
      CancelNowWord(s, r, now);
      CancelStartWord(s, r, now, r.kind.ApproachLockDelay());
      SameStrands(s, After(s, CancelTx(s, q, now)), rid);
    }
  }

  lemma EstablishStrands(s: State, q: Id, now: int, rid: Id)
    requires Keyed(s.routes) && Strands(s, rid)
    ensures Strands(After(s, EstablishTx(s, q, now)), rid)
  {
    EstablishCases(s, q, now);
    if EstablishCommits(s, q) {
      CheckEstablishExact(LoadYard(s, s.routes[q].station), s.routes[q]);
      EstablishWord(s, s.routes[q], StationPlan(s, s.routes[q]), now);
      SameStrands(s, EstablishedState(s, s.routes[q], StationPlan(s, s.routes[q]), now), rid);
    }
  }

  lemma CompleteStrands(s: State, q: Id, now: int, rid: Id)
    requires Keyed(s.routes) && Strands(s, rid) && q != rid
    ensures Strands(After(s, CompleteTx(s, q, now)), rid)
  {
    if CompleteTx(s, q, now).Committed? {
      CompleteWord(s, s.routes[q], now);
      SameStrands(s, CancelCompleted(s, s.routes[q], now), rid);
    }
  }

  lemma FaultStrands(s: State, q: Id, now: int, rid: Id)
    requires Keyed(s.routes) && Strands(s, rid) && q != rid
    ensures Strands(After(s, FaultTx(s, q, now)), rid)
  {
    if q in s.routes {
      FaultQuiet(s, s.routes[q], now);
      SameStrands(s, FaultUnlocked(s, s.routes[q], now), rid);
    }
  }

  lemma ReverseStrands(s: State, w: Id, rid: Id)
    requires Strands(s, rid)
    ensures Strands(After(s, ReverseTx(s, w)), rid)
  {
    if w in s.switches {
      ReverseQuiet(s, w);
    }
    SameStrands(s, After(s, ReverseTx(s, w)), rid);
  }

  lemma IndicateStrands(s: State, w: Id, ok: bool, order: seq<Id>, rid: Id)
    requires Strands(s, rid) && (w in s.switches ==> OrderFor(s, s.switches[w].station, order))
    ensures Strands(After(s, IndicateTx(s, w, ok, order)), rid)
  {
    var t := After(s, IndicateTx(s, w, ok, order));
    if t != s {
      var routes := StationRoutes(s, s.switches[w].station);
      IndicatedQuiet(s, w, ok);
      RefreshAllQuiet(Indicated(s, w, ok), w, routes, order);
      RefreshAllFixed(Indicated(s, w, ok), w, routes, order);
    }
    SameStrands(s, t, rid);
  }

  lemma TrainStrands(s: State, train: Id, k: Id, entering: bool, c: Choice, rid: Id)
    requires Keyed(s.routes) && ChoiceFor(s, k, entering, c) && Strands(s, rid)
    requires !Frees(s, Train(train, k, entering, c), rid)
    ensures Strands(After(s, MoveTx(s, train, k, entering, c)), rid)
  {
    if k in s.sections {
      var eff := MoveEffect(s, k, entering, c);
      TrainCases(s, train, k, entering, c);
      MovedStrands(s, train, k, entering, c, rid);
      if eff.complete != NO_ID {
        NormalReleaseStrands(MovedOf(s, train, k, entering, c), s.routes[eff.complete], rid);
      }
    }
  }

  lemma MovedStrands(s: State, train: Id, k: Id, entering: bool, c: Choice, rid: Id)
    requires Keyed(s.routes) && k in s.sections && ChoiceFor(s, k, entering, c) && Strands(s, rid)
    requires MoveEffect(s, k, entering, c).approachLock != rid
    ensures Strands(MovedOf(s, train, k, entering, c), rid)
  {
    MoveTouchesKnownRoutes(s, k, entering, c);
    MovedQuiet(s, s.sections[k].station, train, MoveEffect(s, k, entering, c), c.owners);
    SameStrands(s, MovedOf(s, train, k, entering, c), rid);
  }

  lemma NormalReleaseStrands(m: State, r: Route, rid: Id)
    requires Strands(m, rid) && r.id != rid
    ensures Strands(NormallyReleased(m, r), rid)
  {
    NormalReleaseWord(m, r);
    SameStrands(m, NormallyReleased(m, r), rid);
  }

  // ----- Restarts -----

  lemma {:induction false} CompleteDueStrands(s: State, now: int, order: seq<Id>, rid: Id)
    requires Keyed(s.routes) && Strands(s, rid) && rid !in order
    ensures Strands(CompleteDue(s, now, order).state, rid)
  {
    if order != [] {
      var init, last := order[..|order| - 1], order[|order| - 1];
      CompleteDueStrands(s, now, init, rid);
      CompleteDueFixed(s, now, init);
      FixedKeepsKeyed(s, CompleteDue(s, now, init).state);
      assert last in order;
      CompleteStrands(CompleteDue(s, now, init).state, last, now, rid);
    }
  }

  lemma {:induction false} RestartStrands(s: State, now: int, stations: seq<Id>, orders: seq<seq<Id>>, rid: Id)
    requires Keyed(s.routes) && Strands(s, rid) && OrdersFor(s, now, stations, orders)
    ensures Strands(AllPasses(s, now, stations, orders).state, rid)
  {
    if stations != [] {
      var n := |stations| - 1;
      var b := AllPasses(s, now, stations[..n], orders[..n]).state;
      RestartStrands(s, now, stations[..n], orders[..n], rid);
      AllPassesFixed(s, now, stations[..n], orders[..n]);
      FixedKeepsKeyed(s, b);
      var c := Corrected(b, stations[n]);
      FixedKeepsKeyed(b, c);
      SameStrands(b, c, rid);
      CompleteDueStrands(c, now, orders[n], rid);
    }
  }

  // ----- Results -----

  lemma OtherStepsStrand(s: State, step: Step, rid: Id)
    requires Keyed(s.routes) && Enabled(s, step) && Strands(s, rid) && !Frees(s, step, rid)
    ensures Strands(Next(s, step), rid)
  {
    match step {
      case Define(r) => SameStrands(s, Next(s, step), rid);
      case Establish(q, now) => EstablishStrands(s, q, now, rid);
      case Cancel(q, now) => CancelStrands(s, q, now, rid);
      case Complete(q, now) => CompleteStrands(s, q, now, rid);
      case FaultUnlock(q, now) => FaultStrands(s, q, now, rid);
      case ReverseSwitch(w) => ReverseStrands(s, w, rid);
      case Indicate(w, ok, order) => IndicateStrands(s, w, ok, order, rid);
      case Train(train, k, entering, c) => TrainStrands(s, train, k, entering, c, rid);
      case Reconcile(now, stations, orders) => RestartStrands(s, now, stations, orders, rid);
    }
  }

  lemma FreeingFrees(s: State, step: Step, rid: Id)
    requires Keyed(s.routes) && Enabled(s, step) && Strands(s, rid) && Frees(s, step, rid)
    ensures !Strands(Next(s, step), rid)
  {
    if step.Train? {
      TrainCases(s, step.train, step.section, step.entering, step.choice);
    }
  }

  /** Main result: exactly the steps of `Frees` end the stranding, whatever else happens. */
  lemma FreedIff(s: State, step: Step, rid: Id)
    requires Keyed(s.routes) && Enabled(s, step) && Strands(s, rid)
    ensures Strands(Next(s, step), rid) <==> !Frees(s, step, rid)
  {
    if Frees(s, step, rid) {
      FreeingFrees(s, step, rid);
    } else {
      OtherStepsStrand(s, step, rid);
    }
  }

  /** ... so it lasts through any run without such a step, restarts included ... */
  lemma {:induction false} StrandedUntilFreed(states: seq<State>, steps: seq<Step>, rid: Id)
    requires IsRun(states, steps) && Strands(states[0], rid)
    requires forall i :: 0 <= i < |steps| ==> !Frees(states[i], steps[i], rid)
    ensures Strands(states[|steps|], rid)
  {
    if steps != [] {
      var n := |steps| - 1;
      StrandedUntilFreed(states[..n + 1], steps[..n], rid);
      FreedIff(states[n], steps[n], rid);
    }
  }

  /** ... and all that time no conflicting route can be set, nor the route itself cancelled or set again. */
  lemma StrandedBlocks(s: State, rid: Id, b: Id, now: int)
    requires WellFormed(s) && Strands(s, rid)
    requires b in s.routes && (b == rid || Conflicts(s.routes[b], s.routes[rid]))
    ensures EstablishTx(s, b, now).RolledBack? && CancelTx(s, rid, now) == RolledBack(ErrApproachLocked)
  {
    EstablishCases(s, b, now);
    if EstablishCommits(s, b) {
      CheckEstablishExact(LoadYard(s, s.routes[b].station), s.routes[b]);
      NewRouteFitsIn(s, b, rid);
    }
  }

  /** Any immediate cancel, followed by a restart that lists the station, strands the route without locks. */
  lemma ImmediateCancelStrands(s: State, rid: Id, now: int)
    requires WellFormed(s) && Owned(s) && CancelsAtOnce(s, rid) && rid !in PendingTimers(s)
    ensures
      var u := Corrected(After(s, CancelTx(s, rid, now)), s.routes[rid].station);
      && Strands(u, rid)
      && (forall k :: !SectionHeld(u.sections, k, rid)) && (forall w :: !SwitchHeld(u.switches, w, rid))
  {
    ImmediateCancelComesBack(s, rid, now);
    CancelNowWord(s, s.routes[rid], now);
  }
}
