/**
 What a train's move leaves in every table besides the section locks: occupancy, the flag of the
 entry, the signals it closes, the approach it locks, and the route it completes. From any rows, for
 any map order.
 */
module TrainMoves {
  import opened Model
  import opened RoutePlan
  import opened TrainOps
  import opened Database
  import opened Steps
  import opened Runs
  import opened Exclusion
  import opened Requests
  import opened Cancels
  import opened Releases

  /** The section is the route's approach, and the move is not one on the route's own way while it is in force. */
  predicate AtApproach(s: State, q: Id, k: Id) {
    && k in s.sections && q in s.routes && s.routes[q].station == s.sections[k].station
    && s.routes[q].approach == k && !(InForce(s.routes[q].state) && k in s.routes[q].path)
  }

  /** Occupancy and train of the moved section are new, those of the others as before, and no lock is new. */
  ghost predicate SectionsMoved(s: State, t: State, k: Id, occupied: bool, train: Id) {
    && t.sections.Keys == s.sections.Keys
    && forall x :: x in s.sections ==>
         && t.sections[x].occupied == (if x == k then occupied else s.sections[x].occupied)
         && t.sections[x].train == (if x == k then train else s.sections[x].train)
         && (t.sections[x].locked ==> s.sections[x].locked && t.sections[x].holder == s.sections[x].holder)
  }

  ghost predicate SignalsClosed(s: State, t: State, k: Id) {
    && t.signals.Keys == s.signals.Keys
    && forall g :: g in s.signals ==>
         t.signals[g] == if exists q :: Concerns(s, q, k) && s.routes[q].signal == g
                         then s.signals[g].(aspect := Red) else s.signals[g]
  }

  /** One of the routes concerned, if there are any, counts the section as entered. */
  ghost predicate EntryFlagged(s: State, t: State, k: Id) {
    if exists q :: Concerns(s, q, k) then
      exists q :: Concerns(s, q, k) && t.once == s.once[q := OnceOf(s.once, q) + {k}]
    else t.once == s.once
  }

  /** One of the routes whose approach is entered, if there are any, is approach-locked. */
  ghost predicate ApproachTaken(s: State, t: State, k: Id) {
    if exists q :: AtApproach(s, q, k) then
      exists q :: AtApproach(s, q, k) && t.routes ==
        s.routes[q := s.routes[q].(state := ApproachLocked, cancelledAt := None, timerStartedAt := None)]
    else t.routes == s.routes
  }

  lemma ApproachMeans(s: State, q: Id, k: Id)
    ensures AtApproach(s, q, k) <==> ApproachCandidate(s, k, q)
  {
  }

  /** Everything an entry leaves. */
  lemma EntryLeaves(s: State, train: Id, k: Id, c: Choice)
    requires Keyed(s.routes) && k in s.sections && ChoiceFor(s, k, true, c)
    ensures
      var t := After(s, MoveTx(s, train, k, true, c));
      && SectionsMoved(s, t, k, true, train) && SignalsClosed(s, t, k) && EntryFlagged(s, t, k)
      && ApproachTaken(s, t, k) && t.switches == s.switches && t.timers == s.timers
  {
    TrainCases(s, train, k, true, c);
    EntryOccupies(s, train, k, c);
    EntryFlags(s, train, k, c);
    EntryCloses(s, train, k, c);
    EntryApproaches(s, train, k, c);
  }

  lemma EntryOccupies(s: State, train: Id, k: Id, c: Choice)
    requires Keyed(s.routes) && k in s.sections && ChoiceFor(s, k, true, c)
    ensures SectionsMoved(s, MovedOf(s, train, k, true, c), k, true, train)
  {
    VisitAllTraced(LoadYard(s, s.sections[k].station), k, true, c.order);
  }

  lemma EntryFlags(s: State, train: Id, k: Id, c: Choice)
    requires Keyed(s.routes) && k in s.sections && ChoiceFor(s, k, true, c)
    ensures EntryFlagged(s, MovedOf(s, train, k, true, c), k)
  {
    var y := LoadYard(s, s.sections[k].station);
    var eff := MoveEffect(s, k, true, c);
    VisitAllTraced(y, k, true, c.order);
    TouchedIsConcerned(s, eff.onceRoute, k);
    if q :| Concerns(s, q, k) {
      TouchedIsConcerned(s, q, k);
      assert q in y.routes.Keys && q in c.order;
      assert RouteSeen(y, k, true, eff, y.routes[q]);
    }
  }

  lemma EntryCloses(s: State, train: Id, k: Id, c: Choice)
    requires Keyed(s.routes) && k in s.sections && ChoiceFor(s, k, true, c)
    ensures SignalsClosed(s, MovedOf(s, train, k, true, c), k)
  {
    var y := LoadYard(s, s.sections[k].station);
    VisitAllTraced(y, k, true, c.order);
    forall q
      ensures q in MoveEffect(s, k, true, c).closeSignals <==> Concerns(s, q, k)
    {
      TouchedIsConcerned(s, q, k);
      assert q in y.routes.Keys <==> q in c.order;
    }
  }

  lemma EntryApproaches(s: State, train: Id, k: Id, c: Choice)
    requires Keyed(s.routes) && k in s.sections && ChoiceFor(s, k, true, c)
    ensures ApproachTaken(s, MovedOf(s, train, k, true, c), k)
  {
    var y := LoadYard(s, s.sections[k].station);
    var eff := MoveEffect(s, k, true, c);
    VisitAllTraced(y, k, true, c.order);
    TargetIsCandidate(s, k, true, c);
    ApproachMeans(s, eff.approachLock, k);
    if q :| AtApproach(s, q, k) {
      ApproachMeans(s, q, k);
      assert q in y.routes.Keys && q in c.order;
      assert RouteSeen(y, k, true, eff, y.routes[q]);
    }
  }

  /** Each route whose approach is entered is the one approach-locked under some map order. */
  lemma AnyApproachMayBeTaken(s: State, train: Id, k: Id, q: Id) returns (c: Choice)
    requires Keyed(s.routes) && AtApproach(s, q, k)
    ensures ChoiceFor(s, k, true, c)
    ensures After(s, MoveTx(s, train, k, true, c)).routes ==
      s.routes[q := s.routes[q].(state := ApproachLocked, cancelledAt := None, timerStartedAt := None)]
  {
    ApproachMeans(s, q, k);
    c := CandidateCanWin(s, k, q);
    TrainCases(s, train, k, true, c);
  }

  // ----- Clearing -----

  /** The route is unlocked, its switches, signal and flags are given up; timers stay as they are. */
  ghost predicate CompletedBy(s: State, t: State, q: Id)
    requires q in s.routes
  {
    var r := s.routes[q];
    && t.switches.Keys == s.switches.Keys
    && (forall w :: w in s.switches ==>
          t.switches[w] == if RequiresSwitch(r, w) && s.switches[w].locked && s.switches[w].holder == q
                           then s.switches[w].(locked := false, holder := NO_ID) else s.switches[w])
    && SignalGivenUp(s, t, r.signal) && OnlyFlagsDropped(s, t, q)
    && t.routes == s.routes[q := r.(state := Unlocked, cancelledAt := None, timerStartedAt := None)]
    && LogEndsWith(s, t, [Event(r.station, SignalClosed, OfSignal(r.signal), q, NoPayload),
                          Event(r.station, RouteUnlocked, OfRoute(q), q, NoPayload)])
  }

  /** Everything a clear leaves: one of the routes whose entered last section it is, if there are any, is completed. */
  lemma ClearLeaves(s: State, train: Id, k: Id, c: Choice)
    requires WellFormed(s) && k in s.sections && ChoiceFor(s, k, false, c)
    ensures
      var t := After(s, MoveTx(s, train, k, false, c));
      && SectionsMoved(s, t, k, false, NO_ID) && t.timers == s.timers
      && if exists q :: Concerns(s, q, k) && ClearsLast(s, q, k) then
           exists q :: Concerns(s, q, k) && ClearsLast(s, q, k) && CompletedBy(s, t, q)
         else t.switches == s.switches && t.signals == s.signals && t.once == s.once && t.routes == s.routes
  {
    var eff := MoveEffect(s, k, false, c);
    TrainCases(s, train, k, false, c);
    PlainClear(s, train, k, c);
    if eff.complete != NO_ID {
      var q := eff.complete;
      CompletesOne(s, k, c);
      CompletionLeaves(s, MovedOf(s, train, k, false, c), q);
      assert Concerns(s, q, k) && ClearsLast(s, q, k);
    } else if q :| Concerns(s, q, k) && ClearsLast(s, q, k) {
      SomeoneCompletes(s, k, c, q);
      assert false;
    }
  }

  /** Before a completed route is released, a clear changes the moved section and locks only. */
  lemma PlainClear(s: State, train: Id, k: Id, c: Choice)
    requires Keyed(s.routes) && k in s.sections && ChoiceFor(s, k, false, c)
    ensures
      var m := MovedOf(s, train, k, false, c);
      && SectionsMoved(s, m, k, false, NO_ID) && s.log <= m.log
      && m.switches == s.switches && m.signals == s.signals && m.once == s.once && m.routes == s.routes
      && m.timers == s.timers
  {
    var eff := MoveEffect(s, k, false, c);
    VisitAllTraced(LoadYard(s, s.sections[k].station), k, false, c.order);
    assert forall id :: id !in eff.closeSignals;
    TargetIsCandidate(s, k, false, c);
  }

  lemma CompletesOne(s: State, k: Id, c: Choice)
    requires WellFormed(s) && k in s.sections && ChoiceFor(s, k, false, c)
    requires MoveEffect(s, k, false, c).complete != NO_ID
    ensures var q := MoveEffect(s, k, false, c).complete; Concerns(s, q, k) && ClearsLast(s, q, k)
  {
    var q := MoveEffect(s, k, false, c).complete;
    VisitAllTraced(LoadYard(s, s.sections[k].station), k, false, c.order);
    TouchedIsConcerned(s, q, k);
    RuleMeans(s, q, k, false, k);
  }

  lemma SomeoneCompletes(s: State, k: Id, c: Choice, q: Id)
    requires WellFormed(s) && k in s.sections && ChoiceFor(s, k, false, c)
    requires Concerns(s, q, k) && ClearsLast(s, q, k)
    ensures MoveEffect(s, k, false, c).complete != NO_ID
  {
    var y := LoadYard(s, s.sections[k].station);
    VisitAllTraced(y, k, false, c.order);
    RuleMeans(s, q, k, false, k);
    TouchedIsConcerned(s, q, k);
    assert q in y.routes.Keys && q in c.order;
    assert RouteSeen(y, k, false, MoveEffect(s, k, false, c), y.routes[q]);
  }

  lemma CompletionLeaves(s: State, m: State, q: Id)
    requires Keyed(s.routes) && q in s.routes && s.log <= m.log
    requires m.switches == s.switches && m.signals == s.signals && m.once == s.once && m.routes == s.routes
    ensures CompletedBy(s, NormallyReleased(m, s.routes[q]), q)
    ensures GivesUpLocks(m, NormallyReleased(m, s.routes[q]), s.routes[q])
  {
    var r := s.routes[q];
    HeldListsMean(m, r);
    ReleasedLocks(m, r, HeldSecs(m, r), HeldSws(m, r), RouteSectionUnlocked,
                  r.WithState(Unlocked, r.establishedAt, None, None), Closed(m.signals, r.signal), m.timers,
                  [SignalEvent(r, SignalClosed, NoPayload), RouteEvent(r, RouteUnlocked, NoPayload)]);
  }
}
