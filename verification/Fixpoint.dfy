/**
 Reconciliation reaches a fixpoint from any rows and any log: a second call at the same clock
 corrects nothing, although every station's pass also completes the timers of all other stations.
 */
module Fixpoint {
  import opened Model
  import opened RoutePlan
  import opened Database
  import opened Steps
  import opened Replay
  import opened Runs

  ghost predicate RowsAgree(s: State, stations: set<Id>) {
    forall rid :: rid in s.routes && s.routes[rid].station in stations ==> !RowWrong(s, rid)
  }

  /** A pending timer has elapsed and its route is still waiting for it. */
  ghost predicate Overdue(s: State, now: int, rid: Id) {
    && rid in PendingTimers(s) && Due(s.timers[rid], now)
    && rid in s.routes && s.routes[rid].state == Cancelling
  }

  ghost predicate Settled(s: State, now: int, stations: set<Id>) {
    RowsAgree(s, stations) && forall rid :: !Overdue(s, now, rid)
  }

  // ----- One pass settles its station and keeps the others settled -----

  /** What completing timers preserves, and what it achieves for the timers already visited. */
  ghost predicate CompletedSo(c: State, now: int, visited: seq<Id>, t: State) {
    && Keyed(t.routes) && Fixed(c, t)
    && (forall rid :: rid in c.routes && !RowWrong(c, rid) ==> !RowWrong(t, rid))
    && (forall rid :: rid in t.timers ==> rid in c.timers && t.timers[rid] == c.timers[rid])
    && (forall rid :: rid in c.routes && t.routes[rid].state == Cancelling ==> c.routes[rid].state == Cancelling)
    && (forall rid :: rid in visited ==> !Overdue(t, now, rid))
  }

  lemma CompleteOneSo(c: State, now: int, visited: seq<Id>, p: Pass, rid: Id)
    requires CompletedSo(c, now, visited, p.state)
    ensures CompletedSo(c, now, visited + [rid], CompleteOne(p, rid, now).state)
  {
    var m, t := p.state, CompleteOne(p, rid, now).state;
    CompleteFixed(m, rid, now);
    if t != m {
      FixedTransitive(c, m, t);
      FixedKeepsKeyed(m, t);
      CompleteWord(m, m.routes[rid], now);
      CompletedRowsAgree(m, t, rid, now);
    }
    forall id | id in visited + [rid]
      ensures !Overdue(t, now, id)
    {
    }
  }

  lemma CompletedRowsAgree(m: State, t: State, rid: Id, now: int)
    requires Keyed(m.routes) && rid in m.routes && t == CancelCompleted(m, m.routes[rid], now)
    ensures rid in t.routes && !RowWrong(t, rid)
    ensures forall id :: id in m.routes && !RowWrong(m, id) ==> id in t.routes && !RowWrong(t, id)
  {
    CompleteWord(m, m.routes[rid], now);
  }

  lemma {:induction false} CompleteDueSo(c: State, now: int, order: seq<Id>)
    requires Keyed(c.routes)
    ensures CompletedSo(c, now, order, CompleteDue(c, now, order).state)
  {
    if order != [] {
      var init, last := order[..|order| - 1], order[|order| - 1];
      CompleteDueSo(c, now, init);
      assert order == init + [last];
      CompleteOneSo(c, now, init, CompleteDue(c, now, init), last);
    }
  }

  lemma CorrectedAgrees(s: State, station: Id, stations: set<Id>)
    requires RowsAgree(s, stations)
    ensures RowsAgree(Corrected(s, station), stations + {station})
  {
    var c := Corrected(s, station);
    forall rid | rid in c.routes && c.routes[rid].station in stations + {station}
      ensures !RowWrong(c, rid)
    {
      assert ExpectedOf(c, rid) == ExpectedOf(s, rid);
    }
  }

  lemma PassSettles(s: State, station: Id, now: int, order: seq<Id>, stations: set<Id>)
    requires Keyed(s.routes) && RowsAgree(s, stations) && Enumerates(order, PendingTimers(s))
    ensures Settled(StationPass(s, station, now, order).state, now, stations + {station})
  {
    var c := Corrected(s, station);
    CorrectedAgrees(s, station, stations);
    CompleteDueSo(c, now, order);
    var t := CompleteDue(c, now, order).state;
    forall rid
      ensures !Overdue(t, now, rid)
    {
      if rid in PendingTimers(t) {
        assert rid in PendingTimers(s);
      }
    }
  }

  function Members(ids: seq<Id>): set<Id> {
    set id | id in ids
  }

  lemma {:induction false} ReconcileSettles(s: State, now: int, stations: seq<Id>, orders: seq<seq<Id>>)
    requires Keyed(s.routes) && OrdersFor(s, now, stations, orders)
    ensures
      var t := AllPasses(s, now, stations, orders).state;
      RowsAgree(t, Members(stations)) && (stations != [] ==> Settled(t, now, Members(stations)))
  {
    if stations != [] {
      var n := |stations| - 1;
      ReconcileSettles(s, now, stations[..n], orders[..n]);
      AllPassesFixed(s, now, stations[..n], orders[..n]);
      var b := AllPasses(s, now, stations[..n], orders[..n]).state;
      FixedKeepsKeyed(s, b);
      PassSettles(b, stations[n], now, orders[n], Members(stations[..n]));
      assert stations == stations[..n] + [stations[n]];
      assert Members(stations) == Members(stations[..n]) + {stations[n]};
    }
  }

  // ----- A settled store is left alone -----

  lemma {:induction false} NothingDue(s: State, now: int, order: seq<Id>)
    requires forall rid :: !Overdue(s, now, rid)
    requires forall rid :: rid in order ==> rid in PendingTimers(s)
    ensures CompleteDue(s, now, order) == Pass(s, 0)
  {
    if order != [] {
      var init, last := order[..|order| - 1], order[|order| - 1];
      NothingDue(s, now, init);
      assert last in order && !Overdue(s, now, last);
    }
  }

  lemma PassLeavesSettled(s: State, station: Id, now: int, order: seq<Id>, stations: set<Id>)
    requires Settled(s, now, stations) && station in stations && Enumerates(order, PendingTimers(s))
    ensures StationPass(s, station, now, order) == Pass(s, 0)
  {
    assert Wrong(s, station) == {};
    assert Corrected(s, station).routes == s.routes;
    assert Corrected(s, station) == s;
    NothingDue(s, now, order);
  }

  lemma {:induction false} ReconcileLeavesSettled(s: State, now: int, listed: seq<Id>, orders: seq<seq<Id>>,
      stations: set<Id>)
    requires Settled(s, now, stations) && OrdersFor(s, now, listed, orders)
    requires forall id :: id in listed ==> id in stations
    ensures AllPasses(s, now, listed, orders) == Pass(s, 0)
  {
    if listed != [] {
      var n := |listed| - 1;
      ReconcileLeavesSettled(s, now, listed[..n], orders[..n], stations);
      assert listed[n] in listed;
      PassLeavesSettled(s, listed[n], now, orders[n], stations);
    }
  }

  /**
   Main result: from any rows and log, after one reconciliation a second one at the same clock
   makes no correction and changes neither rows nor log, in whatever order stations and timers
   are listed either time.
   */
  lemma ReconcileIsFixpoint(s: State, now: int, stations: seq<Id>, orders: seq<seq<Id>>,
                            again: seq<Id>, orders2: seq<seq<Id>>)
    requires Keyed(s.routes) && OrdersFor(s, now, stations, orders)
    requires forall id :: id in again ==> id in stations
    requires OrdersFor(AllPasses(s, now, stations, orders).state, now, again, orders2)
    ensures
      var t := AllPasses(s, now, stations, orders).state;
      AllPasses(t, now, again, orders2) == Pass(t, 0)
  {
    var t := AllPasses(s, now, stations, orders).state;
    if again != [] {
      var first := again[0];
      assert first in again && first in stations;
      ReconcileSettles(s, now, stations, orders);
      ReconcileLeavesSettled(t, now, again, orders2, Members(stations));
    }
  }

  /** The correction count is honest: it is zero only if the pass changed nothing. */
  lemma {:induction false} ZeroCorrectionsMeansNoChange(s: State, now: int, stations: seq<Id>, orders: seq<seq<Id>>)
    requires |orders| == |stations|
    requires AllPasses(s, now, stations, orders).corrections == 0
    ensures AllPasses(s, now, stations, orders).state == s
    decreases |stations|
  {
    if stations != [] {
      var n := |stations| - 1;
      ZeroCorrectionsMeansNoChange(s, now, stations[..n], orders[..n]);
      assert Wrong(s, stations[n]) == {};
      assert Corrected(s, stations[n]).routes == s.routes;
      assert Corrected(s, stations[n]) == s;
      NoCompletion(s, now, orders[n]);
    }
  }

  lemma {:induction false} NoCompletion(s: State, now: int, order: seq<Id>)
    requires CompleteDue(s, now, order).corrections == 0
    ensures CompleteDue(s, now, order).state == s
  {
    if order != [] {
      NoCompletion(s, now, order[..|order| - 1]);
    }
  }
}
