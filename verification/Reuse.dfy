/**
 What setting a route leaves in the rows, and that a route can be used again and again: once a train
 has released it, or a cancel has given it up, the same request is granted as before.
 */
module Reuse {
  import opened Model
  import opened Database
  import opened Steps
  import opened Runs
  import opened Ownership
  import opened Signals
  import opened Traversal
  import opened Requests
  import opened Cancels

  // ----- What establishment leaves -----

  /** Diverging routes open to double yellow, all others to green. */
  ghost function OpeningAspect(r: Route): Aspect {
    if exists w :: Requirement(w, Reverse) in r.requirements then DoubleYellow else Green
  }

  /** Way and switches belong to the route, its signal is open and bound to it, and nothing else differs. */
  ghost predicate IsSet(s: State, t: State, rid: Id, now: int)
    requires rid in s.routes
  {
    var r := s.routes[rid];
    && t.sections.Keys == s.sections.Keys && t.switches.Keys == s.switches.Keys
    && (forall k :: k in s.sections ==>
          t.sections[k] == if k in r.path && k != r.approach then s.sections[k].(locked := true, holder := rid)
                           else s.sections[k])
    && (forall w :: w in s.switches ==>
          t.switches[w] ==
            if Requirement(w, Normal) in r.requirements then
              s.switches[w].(position := Normal, locked := true, holder := rid)
            else if Requirement(w, Reverse) in r.requirements then
              s.switches[w].(position := Reverse, locked := true, holder := rid)
            else s.switches[w])
    && OnlySignal(s, t, r.signal) && r.signal in s.signals
    && t.signals[r.signal] == s.signals[r.signal].(aspect := OpeningAspect(r), protects := rid)
    && t.routes == s.routes[rid :=
         r.(state := Established, establishedAt := Some(now), cancelledAt := None, timerStartedAt := None)]
    && t.once == s.once && t.timers == s.timers
    && LogEndsWith(s, t, [Event(r.station, RouteEstablished, OfRoute(rid), rid, NoPayload),
                          Event(r.station, SignalOpened, OfSignal(r.signal), rid, Shows(OpeningAspect(r)))])
  }

  lemma SetSwitches(s: State, rid: Id, now: int)
    requires WellFormed(s) && EstablishCommits(s, rid)
    ensures
      var r := s.routes[rid];
      var t := EstablishedState(s, r, StationPlan(s, r), now);
      forall w :: w in s.switches ==>
        t.switches[w] ==
          if Requirement(w, Normal) in r.requirements then
            s.switches[w].(position := Normal, locked := true, holder := rid)
          else if Requirement(w, Reverse) in r.requirements then
            s.switches[w].(position := Reverse, locked := true, holder := rid)
          else s.switches[w]
  {
    var r := s.routes[rid];
    var t := EstablishedState(s, r, StationPlan(s, r), now);
    EstablishRows(s, rid, now);
    forall w | w in s.switches && r.UsesSwitch(w)
      ensures t.switches[w].position == if r.Requires(w, Normal) then Normal else Reverse
    {
      OnePosition(r, w, t.switches[w].position, if r.Requires(w, Normal) then Normal else Reverse);
    }
  }

  lemma SetSignal(s: State, rid: Id, now: int)
    requires WellFormed(s) && EstablishCommits(s, rid)
    ensures
      var r := s.routes[rid];
      var t := EstablishedState(s, r, StationPlan(s, r), now);
      && OpenAspect(s, r, StationPlan(s, r)) == OpeningAspect(r)
      && OnlySignal(s, t, r.signal) && r.signal in s.signals
      && t.signals[r.signal] == s.signals[r.signal].(aspect := OpeningAspect(r), protects := rid)
  {
    var r := s.routes[rid];
    AllSwitchesSet(s, rid, now);
    DivergingMeans(r);
    assert r.signal in LoadYard(s, r.station).signals;
  }

  lemma LogGrows(s: State, t: State, front: seq<Event>, tail: seq<Event>)
    requires t.log == s.log + (front + tail)
    ensures LogEndsWith(s, t, tail)
  {
  }

  lemma SetLog(s: State, rid: Id, now: int)
    requires WellFormed(s) && EstablishCommits(s, rid)
    ensures
      var r := s.routes[rid];
      var t := EstablishedState(s, r, StationPlan(s, r), now);
      LogEndsWith(s, t, [Event(r.station, RouteEstablished, OfRoute(rid), rid, NoPayload),
                         Event(r.station, SignalOpened, OfSignal(r.signal), rid, Shows(OpeningAspect(r)))])
  {
    var r := s.routes[rid];
    var plan := StationPlan(s, r);
    var t := EstablishedState(s, r, plan, now);
    SetSignal(s, rid, now);
    var front := MoveEvents(r.station, plan.moves, r.id) + SwitchEvents(r.station, SwitchLocked, plan.switchLocks, r.id)
      + SectionEvents(r.station, LockSet, plan.sectionLocks, r.id);
    var tail := [Event(r.station, RouteEstablished, OfRoute(rid), rid, NoPayload),
                 Event(r.station, SignalOpened, OfSignal(r.signal), rid, Shows(OpeningAspect(r)))];
    assert EstablishEvents(r, plan, OpeningAspect(r)) == front + tail;
    LogGrows(s, t, front, tail);
  }

  /** Everything a granted establishment leaves in the tables. */
  lemma EstablishLeaves(s: State, rid: Id, now: int)
    requires WellFormed(s) && MaySet(s, rid)
    ensures EstablishTx(s, rid, now).Committed? && IsSet(s, EstablishTx(s, rid, now).state, rid, now)
  {
    EstablishGrantedIff(s, rid, now);
    EstablishCases(s, rid, now);
    EstablishRows(s, rid, now);
    SetSwitches(s, rid, now);
    SetSignal(s, rid, now);
    SetLog(s, rid, now);
  }

  // ----- Using a route again -----

  /** All but the route's own state allows it to be set: its way is clear and no route in force clashes with it. */
  ghost predicate WayIsFree(s: State, rid: Id) {
    && rid in s.routes
    && var r := s.routes[rid];
       && NoClash(s, r)
       && (forall q :: q in r.requirements ==> SwitchServes(s, q))
       && (forall k :: k in r.path && k != r.approach ==> k in s.sections && !s.sections[k].occupied)
  }

  /** Where no route in force clashes with this one, its sections are not locked by others. */
  lemma FreeWayIsUnlocked(s: State, rid: Id, k: Id)
    requires WellFormed(s) && Owned(s) && rid in s.routes && NoClash(s, s.routes[rid]) && k in s.routes[rid].path
    ensures k in s.sections && (s.sections[k].locked ==> s.sections[k].holder == rid)
  {
    assert k in LoadYard(s, s.routes[rid].station).sections;
    assert SectionOwned(s, k);
    if s.sections[k].locked && s.sections[k].holder != rid {
      var h := s.sections[k].holder;
      assert k in s.routes[h].path && InForce(s.routes[h].state);
      assert Clash(s.routes[rid], s.routes[h]);
    }
  }

  /** On every run, in each of these states a free way is all that is asked for. */
  lemma SettableIff(s: State, rid: Id, now: int)
    requires WellFormed(s) && Owned(s) && rid in s.routes
    requires var state := s.routes[rid].state; state == Pending || state == Unlocked || state == Cancelled
    ensures EstablishTx(s, rid, now).Committed? <==> WayIsFree(s, rid)
  {
    EstablishGrantedIff(s, rid, now);
    if WayIsFree(s, rid) {
      forall k | k in s.routes[rid].path
        ensures SectionServes(s, s.routes[rid], k)
      {
        FreeWayIsUnlocked(s, rid, k);
      }
    }
  }

  /** Main result: a route whose train has passed is unlocked, its whole way is clear, and it can be set again. */
  lemma ReleasedIsReusable(s: State, rid: Id, now: int)
    requires WellFormed(s) && Owned(s) && FullyReleased(s, rid)
    requires NoClash(s, s.routes[rid]) && forall q :: q in s.routes[rid].requirements ==> SwitchServes(s, q)
    ensures s.routes[rid].state == Unlocked && EstablishTx(s, rid, now).Committed?
  {
    var path := s.routes[rid].path;
    forall k | k in path
      ensures k in s.sections && !s.sections[k].occupied
    {
      var i :| 0 <= i < |path| && path[i] == k;
      assert RowAt(s, rid, path[i], false, false);
    }
    SettableIff(s, rid, now);
  }

  /** A cancelled route can be set again over a free way, by whichever of the three operations it was given up. */
  lemma GivenUpIsReusable(s: State, t: State, rid: Id, at: int, now: int)
    requires WellFormed(s) && Owned(s) && rid in s.routes && WayIsFree(t, rid)
    requires
      || (CancelTx(s, rid, at) == Committed(t) && !MustWait(s, rid))
      || CompleteTx(s, rid, at) == Committed(t) || FaultTx(s, rid, at) == Committed(t)
    ensures t.routes[rid].state == Cancelled && EstablishTx(t, rid, now).Committed?
  {
    CancelAnswers(s, rid, at);
    CompleteAnswers(s, rid, at);
    FaultAnswers(s, rid, at);
    if CancelTx(s, rid, at) == Committed(t) && !MustWait(s, rid) {
      NextWellFormed(s, Cancel(rid, at));
      NextOwned(s, Cancel(rid, at));
    } else if CompleteTx(s, rid, at) == Committed(t) {
      NextWellFormed(s, Complete(rid, at));
      NextOwned(s, Complete(rid, at));
    } else {
      NextWellFormed(s, Step.FaultUnlock(rid, at));
      NextOwned(s, Step.FaultUnlock(rid, at));
    }
    SettableIff(t, rid, now);
  }

  /** Locks as before; only the switches of the route stay where they were moved. */
  ghost predicate LocksUndone(s: State, u: State, r: Route) {
    && u.sections.Keys == s.sections.Keys && u.switches.Keys == s.switches.Keys
    && (forall k :: k in s.sections ==>
          && u.sections[k].occupied == s.sections[k].occupied && u.sections[k].locked == s.sections[k].locked
          && (s.sections[k].locked ==> u.sections[k] == s.sections[k]))
    && (forall w :: w in s.switches ==>
          if RequiresSwitch(r, w) then !u.switches[w].locked && Requirement(w, u.switches[w].position) in r.requirements
          else u.switches[w] == s.switches[w])
  }

  /** Setting a route and cancelling it at once leaves all sections as they were. */
  lemma CancelUndoesEstablish(s: State, rid: Id, now: int, later: int)
    requires WellFormed(s) && Owned(s) && MaySet(s, rid)
    requires var r := s.routes[rid]; r.approach == NO_ID || !OccupiedAt(s, r.station, r.approach)
    ensures
      var t := After(s, EstablishTx(s, rid, now));
      var u := After(t, CancelTx(t, rid, later));
      && LocksUndone(s, u, s.routes[rid]) && u.timers == s.timers && rid in u.routes && u.routes[rid].state == Cancelled
  {
    EstablishLeaves(s, rid, now);
    var t := After(s, EstablishTx(s, rid, now));
    CancelAnswers(t, rid, later);
    NothingHeldYet(s, rid);
    assert OccupiedAt(t, s.routes[rid].station, s.routes[rid].approach)
      <==> OccupiedAt(s, s.routes[rid].station, s.routes[rid].approach);
    SetAndCancelled(s, t, After(t, CancelTx(t, rid, later)), rid, now, later);
  }

  lemma SetAndCancelled(s: State, t: State, u: State, rid: Id, now: int, later: int)
    requires rid in s.routes && s.routes[rid].id == rid && IsSet(s, t, rid, now) && CancelsNow(t, u, rid, later)
    requires forall k :: k in s.sections && k in s.routes[rid].path ==> !s.sections[k].locked
    requires forall k :: k in s.sections && s.sections[k].locked ==> s.sections[k].holder != rid
    ensures LocksUndone(s, u, s.routes[rid])
  {
    assert t.routes[rid].path == s.routes[rid].path && t.routes[rid].requirements == s.routes[rid].requirements;
  }

  lemma NothingHeldYet(s: State, rid: Id)
    requires WellFormed(s) && Owned(s) && MaySet(s, rid)
    ensures forall k :: k in s.sections && k in s.routes[rid].path ==> !s.sections[k].locked
    ensures forall k :: k in s.sections && s.sections[k].locked ==> s.sections[k].holder != rid
  {
    forall k | k in s.sections && k in s.routes[rid].path
      ensures !s.sections[k].locked
    {
      FreeWayIsUnlocked(s, rid, k);
      assert SectionOwned(s, k);
    }
    forall k | k in s.sections && s.sections[k].locked
      ensures s.sections[k].holder != rid
    {
      assert SectionOwned(s, k);
    }
  }
}
