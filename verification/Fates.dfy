/**
 What a whole restart makes of each route, read off rows, log and timers before it, and from that
 exactly when a restart keeps a safe yard safe.
 */
module Fates {
  import opened Model
  import opened RoutePlan
  import opened Interlocking
  import opened Database
  import opened Replay
  import opened Runs
  import opened Ownership
  import opened Exclusion

  /** Row state, last word of the log, and whether an elapsed timer is pending. */
  datatype Fate = Fate(state: RouteState, word: Option<RouteState>, due: bool)

  function FateNow(s: State, now: int, q: Id): Fate
    requires q in s.routes
  {
    Fate(s.routes[q].state, ExpectedOf(s, q), q in PendingTimers(s) && Due(s.timers[q], now))
  }

  /** The row is corrected if it is its station's turn, and then the timer, if any, completes the cancel. */
  function AfterPass(f: Fate, mine: bool): Fate {
    var state := if mine && f.word.Some? then f.word.value else f.state;
    if state == Cancelling && f.due then Fate(Cancelled, Some(Cancelled), false) else f.(state := state)
  }

  function FateOf(s: State, now: int, stations: seq<Id>, q: Id): Fate
    requires q in s.routes
  {
    if stations == [] then FateNow(s, now, q)
    else
      var n := |stations| - 1;
      AfterPass(FateOf(s, now, stations[..n], q), stations[n] == s.routes[q].station)
  }

  // ----- The passes give each route its fate -----

  /** One timer listed: for `q` itself the cancel is completed if it is due, for others nothing changes. */
  lemma CompleteOneFate(p: Pass, other: Id, now: int, q: Id)
    requires Keyed(p.state.routes) && q in p.state.routes
    requires other == q && other in p.state.timers ==> !p.state.timers[other].completed
    ensures
      var t := CompleteOne(p, other, now).state;
      && q in t.routes && t.routes[q].station == p.state.routes[q].station
      && FateNow(t, now, q)
        == if other == q then AfterPass(FateNow(p.state, now, q), false) else FateNow(p.state, now, q)
  {
    if other in p.state.routes {
      CompleteWord(p.state, p.state.routes[other], now);
    }
  }

  lemma {:induction false} CompleteDueFate(s: State, now: int, order: seq<Id>, q: Id)
    requires Keyed(s.routes) && q in s.routes && forall i, j :: 0 <= i < j < |order| ==> order[i] != order[j]
    requires q in order ==> q in PendingTimers(s)
    ensures
      var t := CompleteDue(s, now, order).state;
      && q in t.routes && t.routes[q].station == s.routes[q].station
      && FateNow(t, now, q) == (if q in order then AfterPass(FateNow(s, now, q), false) else FateNow(s, now, q))
      && (q !in order && q in s.timers ==> q in t.timers && t.timers[q] == s.timers[q])
  {
    if order != [] {
      var init, last := order[..|order| - 1], order[|order| - 1];
      assert order == init + [last] && last !in init;
      CompleteDueFate(s, now, init, q);
      CompleteDueFixed(s, now, init);
      FixedKeepsKeyed(s, CompleteDue(s, now, init).state);
      CompleteOneFate(CompleteDue(s, now, init), last, now, q);
    }
  }

  lemma PassFate(s: State, station: Id, now: int, order: seq<Id>, q: Id)
    requires Keyed(s.routes) && q in s.routes && Enumerates(order, PendingTimers(s))
    ensures
      var t := StationPass(s, station, now, order).state;
      && q in t.routes && t.routes[q].station == s.routes[q].station
      && FateNow(t, now, q) == AfterPass(FateNow(s, now, q), station == s.routes[q].station)
  {
    var c := Corrected(s, station);
    assert Fixed(s, c);
    FixedKeepsKeyed(s, c);
    CompleteDueFate(c, now, order, q);
  }

  /** A whole restart gives every route its fate, whatever the orders. */
  lemma {:induction false} RestartFate(s: State, now: int, stations: seq<Id>, orders: seq<seq<Id>>, q: Id)
    requires Keyed(s.routes) && q in s.routes && OrdersFor(s, now, stations, orders)
    ensures
      var t := AllPasses(s, now, stations, orders).state;
      q in t.routes && t.routes[q].station == s.routes[q].station && FateNow(t, now, q) == FateOf(s, now, stations, q)
  {
    if stations != [] {
      var n := |stations| - 1;
      var b := AllPasses(s, now, stations[..n], orders[..n]).state;
      RestartFate(s, now, stations[..n], orders[..n], q);
      AllPassesFixed(s, now, stations[..n], orders[..n]);
      FixedKeepsKeyed(s, b);
      PassFate(b, stations[n], now, orders[n], q);
    }
  }

  // ----- What becomes of held switches -----

  /** A restart only ever unlocks switches, and only those of a route whose cancel it completes. */
  ghost predicate SwitchKept(s: State, t: State, q: Id, w: Id) {
    && (SwitchHeld(t.switches, w, q) ==> SwitchHeld(s.switches, w, q))
    && (SwitchHeld(s.switches, w, q) ==>
          w in t.switches && t.switches[w].position == s.switches[w].position
          && (SwitchHeld(t.switches, w, q) || Finished(t, q)))
  }

  lemma CompleteOneKeepsSwitch(s: State, p: Pass, other: Id, now: int, q: Id, w: Id)
    requires Keyed(p.state.routes) && q in p.state.routes && SwitchKept(s, p.state, q, w)
    ensures SwitchKept(s, CompleteOne(p, other, now).state, q, w)
  {
    if other in p.state.routes {
      var r := p.state.routes[other];
      CompleteWord(p.state, r, now);
      HeldSwitchesMeaning(p.state.switches, r.SwitchIds(), r.id, w);
    }
  }

  lemma {:induction false} CompleteDueKeepsSwitch(s: State, c: State, now: int, order: seq<Id>, q: Id, w: Id)
    requires Keyed(c.routes) && q in c.routes && SwitchKept(s, c, q, w)
    ensures SwitchKept(s, CompleteDue(c, now, order).state, q, w)
  {
    if order != [] {
      var init, last := order[..|order| - 1], order[|order| - 1];
      CompleteDueKeepsSwitch(s, c, now, init, q, w);
      CompleteDueFixed(c, now, init);
      FixedKeepsKeyed(c, CompleteDue(c, now, init).state);
      CompleteOneKeepsSwitch(s, CompleteDue(c, now, init), last, now, q, w);
    }
  }

  lemma {:induction false} RestartKeepsSwitch(s: State, now: int, stations: seq<Id>, orders: seq<seq<Id>>, q: Id, w: Id)
    requires Keyed(s.routes) && q in s.routes && |orders| == |stations|
    ensures SwitchKept(s, AllPasses(s, now, stations, orders).state, q, w)
  {
    if stations != [] {
      var n := |stations| - 1;
      var b := AllPasses(s, now, stations[..n], orders[..n]).state;
      RestartKeepsSwitch(s, now, stations[..n], orders[..n], q, w);
      AllPassesFixed(s, now, stations[..n], orders[..n]);
      FixedKeepsKeyed(s, b);
      var c := Corrected(b, stations[n]);
      FixedKeepsKeyed(b, c);
      CompleteDueKeepsSwitch(s, c, now, orders[n], q, w);
    }
  }

  // ----- Exactly when a restart is harmless -----

  predicate LockedInTheEnd(s: State, now: int, stations: seq<Id>, q: Id) {
    q in s.routes && FateOf(s, now, stations, q).state.IsLocked()
  }

  /** Brought back by the log without locks. */
  predicate Revived(s: State, now: int, stations: seq<Id>, q: Id) {
    LockedInTheEnd(s, now, stations, q) && !IsLockedRoute(s, q)
  }

  ghost predicate HarmlessRevival(s: State, now: int, stations: seq<Id>, q: Id)
    requires q in s.routes
  {
    && s.routes[q].requirements == []
    && forall b :: LockedInTheEnd(s, now, stations, b) ==> !Conflicts(s.routes[q], s.routes[b])
  }

  lemma EndLocks(s: State, now: int, stations: seq<Id>, orders: seq<seq<Id>>, q: Id)
    requires Keyed(s.routes) && OrdersFor(s, now, stations, orders)
    ensures IsLockedRoute(AllPasses(s, now, stations, orders).state, q) <==> LockedInTheEnd(s, now, stations, q)
  {
    AllPassesFixed(s, now, stations, orders);
    if q in s.routes {
      RestartFate(s, now, stations, orders, q);
    }
  }

  lemma HarmfulRevivalBreaks(s: State, now: int, stations: seq<Id>, orders: seq<seq<Id>>, q: Id)
    requires Safe(s) && OrdersFor(s, now, stations, orders)
    requires Revived(s, now, stations, q) && !HarmlessRevival(s, now, stations, q)
    ensures var t := AllPasses(s, now, stations, orders).state; !(Exclusive(t) && Holding(t))
  {
    var t := AllPasses(s, now, stations, orders).state;
    AllPassesFixed(s, now, stations, orders);
    EndLocks(s, now, stations, orders, q);
    assert s.routes[q].SameDefinition(t.routes[q]);
    if s.routes[q].requirements != [] {
      var req := s.routes[q].requirements[0];
      assert t.routes[q].Requires(req.switch, req.position);
      RestartKeepsSwitch(s, now, stations, orders, q, req.switch);
      assert req.switch in s.switches ==> SwitchOwned(s, req.switch);
      assert !HoldsSwitches(t, q);
    } else {
      var b :| LockedInTheEnd(s, now, stations, b) && Conflicts(s.routes[q], s.routes[b]);
      EndLocks(s, now, stations, orders, b);
      SameDefinitionConflicts(s.routes[q], t.routes[q], s.routes[b], t.routes[b]);
    }
  }

  lemma HoldsInTheEnd(s: State, now: int, stations: seq<Id>, orders: seq<seq<Id>>, q: Id)
    requires Safe(s) && OrdersFor(s, now, stations, orders) && LockedInTheEnd(s, now, stations, q)
    requires Revived(s, now, stations, q) ==> s.routes[q].requirements == []
    ensures q in AllPasses(s, now, stations, orders).state.routes
    ensures HoldsSwitches(AllPasses(s, now, stations, orders).state, q)
  {
    var t := AllPasses(s, now, stations, orders).state;
    AllPassesFixed(s, now, stations, orders);
    EndLocks(s, now, stations, orders, q);
    assert s.routes[q].SameDefinition(t.routes[q]);
    forall w, p | t.routes[q].Requires(w, p)
      ensures SwitchHeld(t.switches, w, q) && t.switches[w].position == p
    {
      assert s.routes[q].Requires(w, p) && IsLockedRoute(s, q) && HoldsSwitches(s, q);
      RestartKeepsSwitch(s, now, stations, orders, q, w);
    }
  }

  lemma HarmlessRevivalsKeep(s: State, now: int, stations: seq<Id>, orders: seq<seq<Id>>)
    requires Safe(s) && OrdersFor(s, now, stations, orders)
    requires forall q :: Revived(s, now, stations, q) ==> HarmlessRevival(s, now, stations, q)
    ensures var t := AllPasses(s, now, stations, orders).state; Exclusive(t) && Holding(t)
  {
    var t := AllPasses(s, now, stations, orders).state;
    AllPassesFixed(s, now, stations, orders);
    forall a, b | IsLockedRoute(t, a) && IsLockedRoute(t, b)
      ensures !Conflicts(t.routes[a], t.routes[b])
    {
      EndLocks(s, now, stations, orders, a);
      EndLocks(s, now, stations, orders, b);
      SameDefinitionConflicts(s.routes[a], t.routes[a], s.routes[b], t.routes[b]);
      ConflictsSymmetric(s.routes[a], s.routes[b]);
      if Revived(s, now, stations, a) {
        assert HarmlessRevival(s, now, stations, a);
      } else if Revived(s, now, stations, b) {
        assert HarmlessRevival(s, now, stations, b);
      } else {
        assert IsLockedRoute(s, a) && IsLockedRoute(s, b);
      }
    }
    forall q | IsLockedRoute(t, q)
      ensures HoldsSwitches(t, q)
    {
      EndLocks(s, now, stations, orders, q);
      HoldsInTheEnd(s, now, stations, orders, q);
    }
  }

  /**
   Main result: in a safe yard with any log a whole restart keeps exclusion and held switches if and
   only if each route it revives needs no switch and conflicts with no route locked in the end.
   */
  lemma RestartSafeIff(s: State, now: int, stations: seq<Id>, orders: seq<seq<Id>>)
    requires Safe(s) && OrdersFor(s, now, stations, orders)
    ensures
      var t := AllPasses(s, now, stations, orders).state;
      (Exclusive(t) && Holding(t)) <==>
        forall q :: Revived(s, now, stations, q) ==> HarmlessRevival(s, now, stations, q)
  {
    if q :| Revived(s, now, stations, q) && !HarmlessRevival(s, now, stations, q) {
      HarmfulRevivalBreaks(s, now, stations, orders, q);
    } else {
      HarmlessRevivalsKeep(s, now, stations, orders);
    }
  }
}
