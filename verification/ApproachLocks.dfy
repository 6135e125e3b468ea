/**
 How long an approach lock lasts and what it is for: once a train has been noticed in the approach, a
 cancel has to wait even when the approach is free again. Nothing but giving the route up ends the
 lock, except a restart, which forgets it.
 */
module ApproachLocks {
  import opened Model
  import opened RoutePlan
  import opened Database
  import opened Steps
  import opened Replay
  import opened Runs
  import opened Ownership
  import opened Exclusion
  import opened Agreement
  import opened Fates
  import opened Requests
  import opened Cancels
  import opened TrainMoves

  predicate IsApproachLocked(s: State, rid: Id) {
    rid in s.routes && s.routes[rid].state == ApproachLocked
  }

  /** Steps that end the lock. */
  ghost predicate Lifts(s: State, step: Step, rid: Id)
    requires Keyed(s.routes) && Enabled(s, step) && rid in s.routes
  {
    match step
    case Cancel(q, _) => q == rid
    case FaultUnlock(q, _) => q == rid
    case Train(_, k, entering, c) => k in s.sections && MoveEffect(s, k, entering, c).complete == rid
    case Reconcile(_, stations, _) => s.routes[rid].station in stations && ExpectedOf(s, rid).Some?
    case _ => false
  }

  // ----- Entering the approach -----

  /** A train entering the approach of just one route of the station locks that route, whatever its state was. */
  lemma EntryLocksApproach(s: State, train: Id, k: Id, c: Choice, rid: Id)
    requires Keyed(s.routes) && AtApproach(s, rid, k) && ChoiceFor(s, k, true, c)
    requires forall q :: AtApproach(s, q, k) ==> q == rid
    ensures IsApproachLocked(After(s, MoveTx(s, train, k, true, c)), rid)
  {
    EntryLeaves(s, train, k, c);
  }

  // ----- How long it lasts -----

  lemma TrainKeepsLock(s: State, train: Id, k: Id, entering: bool, c: Choice, rid: Id)
    requires Keyed(s.routes) && ChoiceFor(s, k, entering, c) && IsApproachLocked(s, rid)
    ensures
      IsApproachLocked(After(s, MoveTx(s, train, k, entering, c)), rid) <==>
        !(k in s.sections && MoveEffect(s, k, entering, c).complete == rid)
  {
    if k in s.sections {
      TrainCases(s, train, k, entering, c);
    }
  }

  /** A restart takes the lock if the station is listed and the log has a word on the route. */
  lemma {:induction false} LockFate(s: State, now: int, stations: seq<Id>, rid: Id)
    requires rid in s.routes && s.routes[rid].state == ApproachLocked
    ensures
      var f := FateOf(s, now, stations, rid);
      if s.routes[rid].station in stations && ExpectedOf(s, rid).Some? then f.state != ApproachLocked && f.word.Some?
      else f == FateNow(s, now, rid)
    ensures FateOf(s, now, stations, rid).word.Some? ==> FateOf(s, now, stations, rid).word.value != ApproachLocked
  {
    if stations == [] {
      WordIsNoApproachLock(s.log, s.routes[rid].station, rid);
    } else {
      var n := |stations| - 1;
      LockFate(s, now, stations[..n], rid);
      assert stations == stations[..n] + [stations[n]];
    }
  }

  lemma {:induction false} WordIsNoApproachLock(log: seq<Event>, station: Id, rid: Id)
    ensures Expected(log, station, rid) != Some(ApproachLocked)
  {
    if log != [] {
      WordIsNoApproachLock(log[..|log| - 1], station, rid);
    }
  }

  lemma RestartKeepsLock(s: State, now: int, stations: seq<Id>, orders: seq<seq<Id>>, rid: Id)
    requires Keyed(s.routes) && OrdersFor(s, now, stations, orders) && IsApproachLocked(s, rid)
    ensures IsApproachLocked(AllPasses(s, now, stations, orders).state, rid) <==>
      !(s.routes[rid].station in stations && ExpectedOf(s, rid).Some?)
  {
    LockFate(s, now, stations, rid);
    RestartFate(s, now, stations, orders, rid);
  }

  lemma EstablishKeepsLock(s: State, q: Id, now: int, rid: Id)
    requires Keyed(s.routes) && IsApproachLocked(s, rid)
    ensures IsApproachLocked(After(s, EstablishTx(s, q, now)), rid)
  {
    EstablishCases(s, q, now);
  }

  lemma CancelKeepsLock(s: State, q: Id, now: int, rid: Id)
    requires Keyed(s.routes) && IsApproachLocked(s, rid)
    ensures IsApproachLocked(After(s, CancelTx(s, q, now)), rid) <==> q != rid
  {
    CancelAnswers(s, q, now);
  }

  lemma CompleteKeepsLock(s: State, q: Id, now: int, rid: Id)
    requires Keyed(s.routes) && IsApproachLocked(s, rid)
    ensures IsApproachLocked(After(s, CompleteTx(s, q, now)), rid)
  {
    CompleteAnswers(s, q, now);
  }

  lemma FaultKeepsLock(s: State, q: Id, now: int, rid: Id)
    requires Keyed(s.routes) && IsApproachLocked(s, rid)
    ensures IsApproachLocked(After(s, FaultTx(s, q, now)), rid) <==> q != rid
  {
  }

  /** Main result: an approach lock is kept by every step but these, whatever happens in the approach. */
  lemma LockKeptIff(s: State, step: Step, rid: Id)
    requires Keyed(s.routes) && Enabled(s, step) && IsApproachLocked(s, rid)
    ensures IsApproachLocked(Next(s, step), rid) <==> !Lifts(s, step, rid)
  {
    match step {
      case Define(_) =>
      case Establish(q, now) => EstablishKeepsLock(s, q, now, rid);
      case Cancel(q, now) => CancelKeepsLock(s, q, now, rid);
      case Complete(q, now) => CompleteKeepsLock(s, q, now, rid);
      case FaultUnlock(q, now) => FaultKeepsLock(s, q, now, rid);
      case ReverseSwitch(w) => ReverseAnswers(s, w);
      case Indicate(w, ok, order) =>
        if w in s.switches {
          RefreshAllFixed(Indicated(s, w, ok), w, StationRoutes(s, s.switches[w].station), order);
        }
      case Train(train, k, entering, c) => TrainKeepsLock(s, train, k, entering, c, rid);
      case Reconcile(now, stations, orders) => RestartKeepsLock(s, now, stations, orders, rid);
    }
  }

  /** ... so after any run without such a step a cancel waits its 30 or 180 seconds, and no lock is given up. */
  lemma {:induction false} LockedUntilLifted(states: seq<State>, steps: seq<Step>, rid: Id, now: int)
    requires IsRun(states, steps) && IsApproachLocked(states[0], rid)
    requires forall i :: 0 <= i < |steps| && rid in states[i].routes ==> !Lifts(states[i], steps[i], rid)
    ensures
      var s := states[|steps|];
      var o := CancelTx(s, rid, now);
      && IsApproachLocked(s, rid) && o.Committed?
      && o.state.sections == s.sections && o.state.switches == s.switches
      && rid in o.state.timers && rid in s.routes
      && o.state.timers[rid].startedAt == now
      && o.state.timers[rid].delaySecs == (if s.routes[rid].kind == ShuntRoute then 30 else 180)
      && !o.state.timers[rid].completed
  {
    if steps != [] {
      var n := |steps| - 1;
      LockedUntilLifted(states[..n + 1], steps[..n], rid, now);
      LockKeptIff(states[n], steps[n], rid);
    }
    CancelAnswers(states[|steps|], rid, now);
  }

  /**
   The restart's exception matters: after one that lists the station of a truthfully logged route, the
   route is merely established, so with the approach free again a cancel drops all its locks at once.
   */
  lemma RestartForgetsLock(s: State, rid: Id, now: int)
    requires WellFormed(s) && Owned(s) && Agrees(s) && IsApproachLocked(s, rid)
    requires var r := s.routes[rid]; r.approach == NO_ID || !OccupiedAt(s, r.station, r.approach)
    ensures
      var t := Corrected(s, s.routes[rid].station);
      && rid in t.routes && t.routes[rid].state == Established && MustWait(s, rid) && !MustWait(t, rid)
      && CancelTx(t, rid, now).Committed? && CancelsNow(t, CancelTx(t, rid, now).state, rid, now)
  {
    assert AgreesFor(s, rid);
    var t := Corrected(s, s.routes[rid].station);
    assert RowWrong(s, rid) && rid in Wrong(s, s.routes[rid].station);
    CancelAnswers(t, rid, now);
  }
}
