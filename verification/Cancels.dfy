/**
 Giving a route up on request: which cancels are granted, which have to wait and for how long, and
 what a cancel, the completion of a timed one and a fault unlock leave in every table.
 */
module Cancels {
  import opened Model
  import opened RoutePlan
  import opened Interlocking
  import opened Database
  import opened Steps
  import opened Runs
  import opened Requests

  // ----- What is left in the rows -----

  predicate RequiresSwitch(r: Route, w: Id) {
    Requirement(w, Normal) in r.requirements || Requirement(w, Reverse) in r.requirements
  }

  /** The locks the route holds on its own sections and switches are gone; no other element row differs. */
  ghost predicate GivesUpLocks(s: State, t: State, r: Route) {
    && t.sections.Keys == s.sections.Keys && t.switches.Keys == s.switches.Keys
    && (forall k :: k in s.sections ==>
          t.sections[k] == if k in r.path && s.sections[k].locked && s.sections[k].holder == r.id
                           then s.sections[k].(locked := false, holder := NO_ID) else s.sections[k])
    && (forall w :: w in s.switches ==>
          t.switches[w] == if RequiresSwitch(r, w) && s.switches[w].locked && s.switches[w].holder == r.id
                           then s.switches[w].(locked := false, holder := NO_ID) else s.switches[w])
  }

  /** Of all signals only `g` differs. */
  ghost predicate OnlySignal(s: State, t: State, g: Id) {
    && t.signals.Keys == s.signals.Keys
    && forall h :: h in s.signals && h != g ==> t.signals[h] == s.signals[h]
  }

  /** The signal at which the route starts is red and protects nothing. */
  ghost predicate SignalGivenUp(s: State, t: State, g: Id) {
    OnlySignal(s, t, g) && (g in s.signals ==> t.signals[g] == s.signals[g].(aspect := Red, protects := NO_ID))
  }

  /** The route's row is cancelled at `now`, and no other row differs. */
  ghost predicate RowCancelled(s: State, t: State, rid: Id, now: int)
    requires rid in s.routes
  {
    t.routes == s.routes[rid :=
      s.routes[rid].(state := Cancelled, establishedAt := None, cancelledAt := Some(now), timerStartedAt := None)]
  }

  /** The flags and the timer of the route are gone, those of all others as they were. */
  ghost predicate OnlyFlagsDropped(s: State, t: State, rid: Id) {
    && rid !in t.once
    && (forall q :: q != rid ==> (q in t.once <==> q in s.once) && (q in s.once ==> t.once[q] == s.once[q]))
  }

  ghost predicate OnlyTimerDropped(s: State, t: State, rid: Id) {
    && rid !in t.timers
    && (forall q :: q != rid ==> (q in t.timers <==> q in s.timers) && (q in s.timers ==> t.timers[q] == s.timers[q]))
  }

  /** The log goes on, and these are its last entries. */
  ghost predicate LogEndsWith(s: State, t: State, events: seq<Event>) {
    |s.log| + |events| <= |t.log| && s.log <= t.log && t.log[|t.log| - |events|..] == events
  }

  // ----- Cancel -----

  /** A train is in the approach, or has been noticed there. */
  predicate MustWait(s: State, rid: Id) {
    && rid in s.routes
    && var r := s.routes[rid];
       || r.state == ApproachLocked
       || (r.state == Established && r.approach != NO_ID && OccupiedAt(s, r.station, r.approach))
  }

  /** All locks stay, the signal closes, and a timer of 30 or 180 seconds starts. */
  ghost predicate StartsToWait(s: State, t: State, rid: Id, now: int)
    requires rid in s.routes
  {
    var r := s.routes[rid];
    var seconds := if r.kind == ShuntRoute then 30 else 180;
    && t.sections == s.sections && t.switches == s.switches && t.once == s.once
    && OnlySignal(s, t, r.signal)
    && (r.signal in s.signals ==> t.signals[r.signal] == s.signals[r.signal].(aspect := Red))
    && t.routes == s.routes[rid :=
         r.(state := Cancelling, establishedAt := None, cancelledAt := Some(now), timerStartedAt := Some(now))]
    && t.timers == s.timers[rid := Timer(r.station, r.kind, now, seconds, false)]
    && t.log == s.log + [Event(r.station, CancelRequested, OfRoute(rid), rid, TimedMode),
                         Event(r.station, DelayUnlockStarted, OfRoute(rid), rid, Delay(seconds)),
                         Event(r.station, SignalClosed, OfSignal(r.signal), rid, NoPayload)]
  }

  /** All locks go at once. */
  ghost predicate CancelsNow(s: State, t: State, rid: Id, now: int)
    requires rid in s.routes
  {
    var r := s.routes[rid];
    && GivesUpLocks(s, t, r) && SignalGivenUp(s, t, r.signal) && RowCancelled(s, t, rid, now)
    && OnlyFlagsDropped(s, t, rid) && t.timers == s.timers
    && LogEndsWith(s, t, [Event(r.station, RouteUnlocked, OfRoute(rid), rid, NoPayload),
                          Event(r.station, SignalClosed, OfSignal(r.signal), rid, NoPayload),
                          Event(r.station, CancelRequested, OfRoute(rid), rid, ImmediateMode)])
  }

  lemma UsesMeansRequires(r: Route, w: Id)
    ensures w in r.SwitchIds() <==> RequiresSwitch(r, w)
  {
    SwitchIdsAreUsed(r, w);
  }

  lemma ReleasedLocks(s: State, r: Route, secs: seq<Id>, sws: seq<Id>, secKind: EventKind, row: Route,
                      signals: map<Id, Signal>, timers: map<Id, Timer>, tail: seq<Event>)
    requires forall k :: k in s.sections ==> (k in secs <==> k in r.path && SectionHeld(s.sections, k, r.id))
    requires forall w :: w in s.switches ==> (w in sws <==> RequiresSwitch(r, w) && SwitchHeld(s.switches, w, r.id))
    ensures
      var t := Released(s, r, secs, sws, secKind, row, signals, timers, tail);
      GivesUpLocks(s, t, r) && OnlyFlagsDropped(s, t, r.id) && LogEndsWith(s, t, tail)
  {
    var t := Released(s, r, secs, sws, secKind, row, signals, timers, tail);
    assert t.log == s.log
      + (SectionEvents(r.station, secKind, secs, r.id) + SwitchEvents(r.station, SwitchReleased, sws, r.id) + tail);
  }

  lemma HeldListsMean(s: State, r: Route)
    ensures forall k :: k in HeldSecs(s, r) <==> k in r.path && SectionHeld(s.sections, k, r.id)
    ensures forall w :: w in HeldSws(s, r) <==> RequiresSwitch(r, w) && SwitchHeld(s.switches, w, r.id)
  {
    forall k
      ensures k in HeldSecs(s, r) <==> k in r.path && SectionHeld(s.sections, k, r.id)
    {
      HeldSectionsMeaning(s.sections, r.path, r.id, k);
    }
    forall w
      ensures w in HeldSws(s, r) <==> RequiresSwitch(r, w) && SwitchHeld(s.switches, w, r.id)
    {
      HeldSwitchesMeaning(s.switches, r.SwitchIds(), r.id, w);
      UsesMeansRequires(r, w);
    }
  }

  lemma CancelledNowRows(s: State, rid: Id, now: int)
    requires Keyed(s.routes) && rid in s.routes
    ensures CancelsNow(s, CancelledNow(s, s.routes[rid], now), rid, now)
  {
    var r := s.routes[rid];
    HeldListsMean(s, r);
    ReleasedLocks(s, r, HeldSecs(s, r), HeldSws(s, r), LockReleased, r.WithState(Cancelled, None, Some(now), None),
                  Closed(s.signals, r.signal), s.timers,
                  [RouteEvent(r, RouteUnlocked, NoPayload), SignalEvent(r, SignalClosed, NoPayload),
                   RouteEvent(r, CancelRequested, ImmediateMode)]);
  }

  lemma CancelStartedRows(s: State, rid: Id, now: int)
    requires Keyed(s.routes) && rid in s.routes
    ensures
      var seconds := if s.routes[rid].kind == ShuntRoute then 30 else 180;
      StartsToWait(s, CancelStarted(s, s.routes[rid], now, seconds), rid, now)
  {
  }

  /** Main result: the answer to a cancel and what it leaves, for every state of the route and its approach. */
  lemma CancelAnswers(s: State, rid: Id, now: int)
    requires Keyed(s.routes)
    ensures
      var o := CancelTx(s, rid, now);
      if rid !in s.routes then o == RolledBack(ErrNoRows)
      else if s.routes[rid].state == Cancelling then o == RolledBack(ErrApproachLocked)
      else if MustWait(s, rid) then o.Committed? && StartsToWait(s, o.state, rid, now)
      else if s.routes[rid].state == Established then o.Committed? && CancelsNow(s, o.state, rid, now)
      else o == RolledBack(ErrRouteNotEstablished)
  {
    if rid in s.routes {
      var r := s.routes[rid];
      assert LoadYard(s, r.station).Occupied(r.approach) <==> OccupiedAt(s, r.station, r.approach);
      CancelledNowRows(s, rid, now);
      CancelStartedRows(s, rid, now);
    }
  }

  // ----- Completing a timed cancel, and the fault unlock -----

  /** Completion leaves the aspect alone; only the protection ends. */
  ghost predicate Completes(s: State, t: State, rid: Id, now: int)
    requires rid in s.routes
  {
    var r := s.routes[rid];
    && GivesUpLocks(s, t, r) && RowCancelled(s, t, rid, now)
    && OnlySignal(s, t, r.signal)
    && (r.signal in s.signals ==> t.signals[r.signal] == s.signals[r.signal].(protects := NO_ID))
    && OnlyFlagsDropped(s, t, rid) && OnlyTimerDropped(s, t, rid)
    && LogEndsWith(s, t, [Event(r.station, DelayUnlockCompleted, OfRoute(rid), rid, NoPayload)])
  }

  lemma CompleteAnswers(s: State, rid: Id, now: int)
    requires Keyed(s.routes)
    ensures
      var o := CompleteTx(s, rid, now);
      if rid !in s.routes then o == RolledBack(ErrNoRows)
      else if s.routes[rid].state == Cancelling then o.Committed? && Completes(s, o.state, rid, now)
      else o == RolledBack(ErrRouteNotEstablished)
  {
    if rid in s.routes {
      var r := s.routes[rid];
      HeldListsMean(s, r);
      ReleasedLocks(s, r, HeldSecs(s, r), HeldSws(s, r), LockReleased, r.WithState(Cancelled, None, Some(now), None),
                    Protect(s.signals, r.signal, NO_ID), s.timers - {r.id},
                    [RouteEvent(r, DelayUnlockCompleted, NoPayload), RouteEvent(r, DelayUnlockCompleted, NoPayload)]);
    }
  }

  /** In any state: locks, signal, flags and timer go, and the row is cancelled. */
  ghost predicate FreedByForce(s: State, t: State, rid: Id, now: int)
    requires rid in s.routes
  {
    var r := s.routes[rid];
    && GivesUpLocks(s, t, r) && RowCancelled(s, t, rid, now) && SignalGivenUp(s, t, r.signal)
    && OnlyFlagsDropped(s, t, rid) && OnlyTimerDropped(s, t, rid) && s.log <= t.log
  }

  lemma YardListsMean(s: State, rid: Id)
    requires WellFormed(s) && rid in s.routes
    ensures
      var r := s.routes[rid];
      var y := LoadYard(s, r.station);
      && (forall k :: k in s.sections ==>
            (k in HeldSections(y.sections, r.path, rid) <==> k in r.path && SectionHeld(s.sections, k, rid)))
      && (forall w :: w in s.switches ==>
            (w in HeldSwitches(y.switches, r.SwitchIds(), rid) <==>
               RequiresSwitch(r, w) && SwitchHeld(s.switches, w, rid)))
  {
    var r := s.routes[rid];
    var y := LoadYard(s, r.station);
    forall k | k in s.sections
      ensures k in HeldSections(y.sections, r.path, rid) <==> k in r.path && SectionHeld(s.sections, k, rid)
    {
      HeldSectionsMeaning(y.sections, r.path, rid, k);
      assert k in r.path ==> k in y.sections;
    }
    forall w | w in s.switches
      ensures w in HeldSwitches(y.switches, r.SwitchIds(), rid)
        <==> RequiresSwitch(r, w) && SwitchHeld(s.switches, w, rid)
    {
      HeldSwitchesMeaning(y.switches, r.SwitchIds(), rid, w);
      UsesMeansRequires(r, w);
      assert RequiresSwitch(r, w) ==> w in y.switches;
    }
  }

  lemma FaultAnswers(s: State, rid: Id, now: int)
    requires WellFormed(s)
    ensures
      var o := FaultTx(s, rid, now);
      if rid !in s.routes then o == RolledBack(ErrNoRows)
      else o.Committed? && FreedByForce(s, o.state, rid, now)
  {
    if rid in s.routes {
      var r := s.routes[rid];
      var y := LoadYard(s, r.station);
      YardListsMean(s, rid);
      ReleasedLocks(s, r, HeldSections(y.sections, r.path, r.id), HeldSwitches(y.switches, r.SwitchIds(), r.id),
                    LockReleased, r.WithState(Cancelled, None, Some(now), None),
                    Closed(s.signals, r.signal), s.timers - {r.id}, []);
    }
  }
}
