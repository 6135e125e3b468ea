/**
 Disciplined runs with restarts in them. As long as the replayed log agrees with the rows, which
 every replay-safe step maintains, a restart keeps mutual exclusion, the once-occupied flags and the
 signals as disciplined runs have them.
 */
module Restarts {
  import opened Model
  import opened RoutePlan
  import opened Database
  import opened Steps
  import opened Replay
  import opened Runs
  import opened Ownership
  import opened Exclusion
  import opened OnceOccupied
  import opened Signals
  import opened Agreement

  /** Every step is disciplined or a restart, and none makes the log lie about a route. */
  ghost predicate IsRecoverableRun(states: seq<State>, steps: seq<Step>) {
    && IsRun(states, steps)
    && (forall i :: 0 <= i < |steps| ==> RecoverableStep(states[i], steps[i]))
  }

  ghost predicate RecoverableStep(s: State, step: Step)
    requires Keyed(s.routes) && Enabled(s, step)
  {
    (step.Reconcile? || Disciplined(s, step)) && ReplayKept(s, step)
  }

  /** What such runs keep. */
  ghost predicate Sound(s: State) {
    Safe(s) && Agrees(s) && OnceExact(s)
  }

  // ----- Correcting the rows of one station -----

  lemma CorrectionKeepsSafe(s: State, station: Id)
    requires Safe(s) && Agrees(s)
    ensures Safe(Corrected(s, station))
  {
    var t := Corrected(s, station);
    CorrectionKeepsLocked(s, station);
    FixedKeepsWellFormed(s, t);
    CorrectionKeepsOwned(s, station);
    OnPathKept(s, t);
    FewerLocked(s, t);
    StillHolding(s, t);
  }

  lemma CorrectionSound(s: State, station: Id)
    requires Sound(s)
    ensures Sound(Corrected(s, station))
  {
    CorrectionKeepsSafe(s, station);
    CorrectionKeepsLocked(s, station);
    Agreement.CorrectedAgrees(s, station);
    QuietKeepsOnce(s, Corrected(s, station));
  }

  lemma CorrectionKeepsSignals(s: State, station: Id)
    requires Safe(s) && Agrees(s) && SignalsJustified(s)
    ensures SignalsJustified(Corrected(s, station))
  {
    var t := Corrected(s, station);
    CorrectionKeepsLocked(s, station);
    forall g
      ensures Justified(t, g)
    {
      if g in s.signals {
        assert Justified(s, g);
        JustificationCarries(s, t, g);
      }
    }
  }

  // ----- Completing timers, and whole restarts -----

  lemma CompleteSound(s: State, rid: Id, now: int)
    requires Sound(s)
    ensures Sound(After(s, CompleteTx(s, rid, now)))
  {
    NextSafe(s, Complete(rid, now));
    CompleteAgrees(s, rid, now);
    CompleteKeepsOnce(s, rid, now);
  }

  lemma {:induction false} CompleteDueSound(s: State, now: int, order: seq<Id>)
    requires Sound(s)
    ensures Sound(CompleteDue(s, now, order).state)
    ensures SignalsJustified(s) ==> SignalsJustified(CompleteDue(s, now, order).state)
  {
    if order != [] {
      var init, last := order[..|order| - 1], order[|order| - 1];
      CompleteDueSound(s, now, init);
      var u := CompleteDue(s, now, init).state;
      CompleteSound(u, last, now);
      if SignalsJustified(u) {
        CompleteKeepsSignals(u, last, now);
      }
    }
  }

  lemma {:induction false} RestartSound(s: State, now: int, stations: seq<Id>, orders: seq<seq<Id>>)
    requires Sound(s) && |orders| == |stations|
    ensures Sound(AllPasses(s, now, stations, orders).state)
    ensures SignalsJustified(s) ==> SignalsJustified(AllPasses(s, now, stations, orders).state)
  {
    if stations != [] {
      var n := |stations| - 1;
      RestartSound(s, now, stations[..n], orders[..n]);
      var b := AllPasses(s, now, stations[..n], orders[..n]).state;
      CorrectionSound(b, stations[n]);
      if SignalsJustified(b) {
        CorrectionKeepsSignals(b, stations[n]);
      }
      CompleteDueSound(Corrected(b, stations[n]), now, orders[n]);
    }
  }

  lemma StepSound(s: State, step: Step)
    requires Sound(s) && Enabled(s, step) && RecoverableStep(s, step)
    ensures Sound(Next(s, step))
  {
    if step.Reconcile? {
      RestartSound(s, step.now, step.stations, step.orders);
    } else {
      NextSafe(s, step);
      StepAgreesIff(s, step);
      NextOnce(s, step);
    }
  }

  lemma InitialIsSound(s: State)
    requires Initial(s)
    ensures Sound(s) && SignalsJustified(s)
  {
    InitialIsSafe(s);
  }

  /** Main result: exclusion, exact flags and a truthful log after every recoverable run, restarts included. */
  lemma {:induction false} RecoverableRunIsSound(states: seq<State>, steps: seq<Step>)
    requires IsRecoverableRun(states, steps) && Initial(states[0])
    ensures Sound(states[|steps|])
  {
    if steps == [] {
      InitialIsSound(states[0]);
    } else {
      var n := |steps| - 1;
      RecoverableRunIsSound(states[..n + 1], steps[..n]);
      StepSound(states[n], steps[n]);
    }
  }

  /** ... and permissive signals stay justified on those that restore no indication on a cancelling route's switch. */
  lemma {:induction false} RecoverableSignals(states: seq<State>, steps: seq<Step>)
    requires IsRecoverableRun(states, steps) && Initial(states[0])
    requires forall i :: 0 <= i < |steps| ==> SignalDiscipline(states[i], steps[i])
    ensures Sound(states[|steps|]) && SignalsJustified(states[|steps|])
  {
    if steps == [] {
      InitialIsSound(states[0]);
    } else {
      var n := |steps| - 1;
      var s, step := states[n], steps[n];
      RecoverableSignals(states[..n + 1], steps[..n]);
      StepSound(s, step);
      if step.Reconcile? {
        RestartSound(s, step.now, step.stations, step.orders);
      } else {
        NextSignals(s, step);
      }
    }
  }

  // ----- Without agreement: exactly when a correction is harmless -----

  /** Locked once the rows of the station have been corrected; it can be read off rows and log before. */
  predicate LockedByLog(s: State, station: Id, id: Id) {
    id in s.routes &&
    if s.routes[id].station == station && RowWrong(s, id) then ExpectedOf(s, id).value.IsLocked()
    else s.routes[id].state.IsLocked()
  }

  /** The log brings back a route whose locks are gone, as after an immediate cancel. */
  predicate Revived(s: State, station: Id, id: Id) {
    LockedByLog(s, station, id) && !IsLockedRoute(s, id)
  }

  lemma CorrectedLocks(s: State, station: Id, id: Id)
    ensures IsLockedRoute(Corrected(s, station), id) <==> LockedByLog(s, station, id)
  {
  }

  ghost predicate HarmlessRevival(s: State, station: Id, q: Id)
    requires q in s.routes
  {
    s.routes[q].requirements == [] && forall b :: LockedByLog(s, station, b) ==> !Conflicts(s.routes[q], s.routes[b])
  }

  /**
   In a safe yard correcting a station keeps exclusion and held switches if and only if each route it
   revives needs no switch and conflicts with no route that is locked afterwards.
   */
  lemma CorrectionSafeIff(s: State, station: Id)
    requires Safe(s)
    ensures
      var t := Corrected(s, station);
      (Exclusive(t) && Holding(t)) <==>
        forall q :: Revived(s, station, q) ==> HarmlessRevival(s, station, q)
  {
    if q :| Revived(s, station, q) && !HarmlessRevival(s, station, q) {
      HarmfulRevivalBreaks(s, station, q);
    } else {
      HarmlessRevivalsKeep(s, station);
    }
  }

  lemma HarmfulRevivalBreaks(s: State, station: Id, q: Id)
    requires Safe(s) && Revived(s, station, q) && !HarmlessRevival(s, station, q)
    ensures var t := Corrected(s, station); !(Exclusive(t) && Holding(t))
  {
    var t := Corrected(s, station);
    if s.routes[q].requirements != [] {
      RevivedHoldsNothing(s, t, station, q);
    } else {
      var b :| LockedByLog(s, station, b) && Conflicts(s.routes[q], s.routes[b]);
      CorrectedLocks(s, station, q);
      CorrectedLocks(s, station, b);
      SameDefinitionConflicts(s.routes[q], t.routes[q], s.routes[b], t.routes[b]);
    }
  }

  lemma HarmlessRevivalsKeep(s: State, station: Id)
    requires Safe(s) && forall q :: Revived(s, station, q) ==> HarmlessRevival(s, station, q)
    ensures var t := Corrected(s, station); Exclusive(t) && Holding(t)
  {
    var t := Corrected(s, station);
    forall a, b | IsLockedRoute(t, a) && IsLockedRoute(t, b)
      ensures !Conflicts(t.routes[a], t.routes[b])
    {
      CorrectedLocks(s, station, a);
      CorrectedLocks(s, station, b);
      SameDefinitionConflicts(s.routes[a], t.routes[a], s.routes[b], t.routes[b]);
      ConflictsSymmetric(s.routes[a], s.routes[b]);
      if Revived(s, station, a) {
        assert HarmlessRevival(s, station, a);
      } else if Revived(s, station, b) {
        assert HarmlessRevival(s, station, b);
      } else {
        assert IsLockedRoute(s, a) && IsLockedRoute(s, b);
      }
    }
    forall id | IsLockedRoute(t, id)
      ensures HoldsSwitches(t, id)
    {
      CorrectedLocks(s, station, id);
      CorrectedHolds(s, station, id);
    }
  }

  lemma CorrectedHolds(s: State, station: Id, id: Id)
    requires Safe(s) && LockedByLog(s, station, id)
    requires Revived(s, station, id) ==> s.routes[id].requirements == []
    ensures HoldsSwitches(Corrected(s, station), id)
  {
    var t := Corrected(s, station);
    assert t.routes[id].requirements == s.routes[id].requirements && t.switches == s.switches;
    if IsLockedRoute(s, id) {
      assert HoldsSwitches(s, id);
      assert forall w, p :: t.routes[id].Requires(w, p) <==> s.routes[id].Requires(w, p);
    }
  }

  lemma RevivedHoldsNothing(s: State, t: State, station: Id, q: Id)
    requires Safe(s) && t == Corrected(s, station) && Revived(s, station, q) && s.routes[q].requirements != []
    ensures !Holding(t)
  {
    CorrectedLocks(s, station, q);
    var req := s.routes[q].requirements[0];
    assert t.routes[q].Requires(req.switch, req.position);
    assert req.switch in s.switches ==> SwitchOwned(s, req.switch);
    assert !HoldsSwitches(t, q);
  }
}
