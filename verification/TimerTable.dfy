/**
 The table of delay timers on every run: only a timed cancel of a route starts a timer for it, and
 only completing that cancel, by request or at a restart, or a fault unlock removes it.
 */
module TimerTable {
  import opened Model
  import opened RoutePlan
  import opened Interlocking
  import opened Database
  import opened Steps
  import opened Replay
  import opened Runs
  import opened Ownership
  import opened Exclusion
  import opened Agreement
  import opened Stranded
  import opened Requests
  import opened Cancels
  import opened Counts

  /** The step starts a timer for the route. */
  ghost predicate StartsTimer(s: State, step: Step, rid: Id) {
    step.Cancel? && step.rid == rid && MustWait(s, rid)
  }

  /** The step removes the timer of the route. */
  ghost predicate DropsTimer(s: State, step: Step, rid: Id)
    requires Keyed(s.routes) && Enabled(s, step)
  {
    match step
    case Complete(q, _) => q == rid && rid in s.routes && s.routes[rid].state == Cancelling
    case FaultUnlock(q, _) => q == rid && rid in s.routes
    case Reconcile(now, _, _) =>
      rid in s.timers && rid in s.routes && now - s.timers[rid].startedAt >= s.timers[rid].delaySecs
      && rid in Next(s, step).routes && Next(s, step).routes[rid].state == Cancelled
      && Next(s, step).routes[rid].cancelledAt == Some(now) && rid !in Next(s, step).timers
    case _ => false
  }

  /** The timer is as before, or the step started or removed it. */
  ghost predicate TimerAccounted(s: State, step: Step, t: State, rid: Id)
    requires Keyed(s.routes) && Enabled(s, step)
  {
    if StartsTimer(s, step, rid) then
      && rid in s.routes && rid in t.timers
      && t.timers[rid] == Timer(s.routes[rid].station, s.routes[rid].kind, step.now,
                                if s.routes[rid].kind == ShuntRoute then 30 else 180, false)
    else if DropsTimer(s, step, rid) then rid !in t.timers
    else (rid in t.timers <==> rid in s.timers) && (rid in s.timers ==> t.timers[rid] == s.timers[rid])
  }

  lemma EstablishTimers(s: State, rid: Id, now: int)
    ensures After(s, EstablishTx(s, rid, now)).timers == s.timers
  {
    EstablishCases(s, rid, now);
  }

  lemma CancelTimers(s: State, q: Id, now: int, rid: Id)
    requires WellFormed(s)
    ensures TimerAccounted(s, Step.Cancel(q, now), Next(s, Step.Cancel(q, now)), rid)
  {
    CancelAnswers(s, q, now);
  }

  lemma CompleteTimers(s: State, q: Id, now: int, rid: Id)
    requires WellFormed(s)
    ensures TimerAccounted(s, Complete(q, now), Next(s, Complete(q, now)), rid)
  {
    CompleteAnswers(s, q, now);
  }

  lemma FaultTimers(s: State, q: Id, now: int, rid: Id)
    requires WellFormed(s)
    ensures TimerAccounted(s, Step.FaultUnlock(q, now), Next(s, Step.FaultUnlock(q, now)), rid)
  {
    FaultAnswers(s, q, now);
  }

  lemma RestartTimers(s: State, step: Step, rid: Id)
    requires Keyed(s.routes) && Enabled(s, step) && step.Reconcile?
    ensures TimerAccounted(s, step, Next(s, step), rid)
  {
    var t := Next(s, step);
    PassesCount(s, step.now, step.stations, step.orders);
    if rid in s.timers && rid !in t.timers {
      assert WasCompleted(s, t, rid) && rid in s.routes && RouteAfter(s, t, rid, step.now);
    }
  }

  lemma IndicateTimers(s: State, w: Id, ok: bool, order: seq<Id>)
    requires w in s.switches ==> OrderFor(s, s.switches[w].station, order)
    ensures After(s, IndicateTx(s, w, ok, order)).timers == s.timers
  {
    if w in s.switches {
      RefreshAllFixed(Indicated(s, w, ok), w, StationRoutes(s, s.switches[w].station), order);
    }
  }

  lemma TrainTimers(s: State, train: Id, k: Id, entering: bool, c: Choice)
    requires Keyed(s.routes) && ChoiceFor(s, k, entering, c)
    ensures After(s, MoveTx(s, train, k, entering, c)).timers == s.timers
  {
    if k in s.sections {
      TrainCases(s, train, k, entering, c);
    }
  }

  /** Main result: every step accounts for the timer of every route. */
  lemma NextTimer(s: State, step: Step, rid: Id)
    requires WellFormed(s) && Enabled(s, step)
    ensures TimerAccounted(s, step, Next(s, step), rid)
  {
    match step {
      case Define(_) =>
      case Establish(q, now) => EstablishTimers(s, q, now);
      case Cancel(q, now) => CancelTimers(s, q, now, rid);
      case Complete(q, now) => CompleteTimers(s, q, now, rid);
      case FaultUnlock(q, now) => FaultTimers(s, q, now, rid);
      case ReverseSwitch(w) => ReverseAnswers(s, w);
      case Indicate(w, ok, order) => IndicateTimers(s, w, ok, order);
      case Train(train, k, entering, c) => TrainTimers(s, train, k, entering, c);
      case Reconcile(_, _, _) => RestartTimers(s, step, rid);
    }
  }

  /** A route without a timer has none until its next timed cancel. */
  lemma {:induction false} NoTimerUntilTimedCancel(states: seq<State>, steps: seq<Step>, rid: Id)
    requires IsRun(states, steps) && WellFormed(states[0]) && rid !in states[0].timers
    requires forall i :: 0 <= i < |steps| ==> !StartsTimer(states[i], steps[i], rid)
    ensures WellFormed(states[|steps|]) && rid !in states[|steps|].timers
  {
    if steps != [] {
      var n := |steps| - 1;
      NoTimerUntilTimedCancel(states[..n + 1], steps[..n], rid);
      NextTimer(states[n], steps[n], rid);
      NextWellFormed(states[n], steps[n]);
    }
  }

  /**
   After a fault unlock no timer of the route is left to complete anything: if the route is set again and
   cancelled at once, before any timed cancel, the next correction of rows strands it.
   */
  lemma FaultedThenStranded(states: seq<State>, steps: seq<Step>, rid: Id, now: int)
    requires IsRun(states, steps) && steps != [] && WellFormed(states[0]) && Owned(states[0])
    requires steps[0].FaultUnlock? && steps[0].rid == rid && rid in states[0].routes
    requires forall i :: 0 <= i < |steps| ==> !StartsTimer(states[i], steps[i], rid)
    requires CancelsAtOnce(states[|steps|], rid)
    ensures
      var s := states[|steps|];
      var u := Corrected(After(s, CancelTx(s, rid, now)), s.routes[rid].station);
      && Strands(u, rid)
      && (forall k :: !SectionHeld(u.sections, k, rid)) && (forall w :: !SwitchHeld(u.switches, w, rid))
  {
    NextTimer(states[0], steps[0], rid);
    NextWellFormed(states[0], steps[0]);
    NextOwned(states[0], steps[0]);
    RunKeepsOwned(states, steps);
    NoTimerUntilTimedCancel(states[1..], steps[1..], rid);
    ImmediateCancelStrands(states[|steps|], rid, now);
  }

  lemma {:induction false} RunKeepsOwned(states: seq<State>, steps: seq<Step>)
    requires IsRun(states, steps) && WellFormed(states[0]) && Owned(states[0])
    ensures WellFormed(states[|steps|]) && Owned(states[|steps|])
  {
    if steps != [] {
      var n := |steps| - 1;
      RunKeepsOwned(states[..n + 1], steps[..n]);
      NextWellFormed(states[n], steps[n]);
      NextOwned(states[n], steps[n]);
    }
  }
}
