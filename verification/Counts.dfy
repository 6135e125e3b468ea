/**
 What a restart reports. The count of corrections is read off the rows before and after: each row
 whose state was corrected and each timed cancel that was completed counts once, whatever the
 stations and the orders.
 */
module Counts {
  import opened Model
  import opened RoutePlan
  import opened Database
  import opened Replay
  import opened Runs

  /** The restart completed the route's timed cancel: its timer is gone. */
  predicate WasCompleted(s: State, t: State, q: Id) {
    q in s.timers && q !in t.timers
  }

  /** The restart corrected the route's row; a completed cancel hides a correction that led to it. */
  predicate WasCorrected(s: State, t: State, q: Id) {
    && q in s.routes && q in t.routes
    && if WasCompleted(s, t, q) then s.routes[q].state != Cancelling else t.routes[q].state != s.routes[q].state
  }

  ghost function CompletedIn(s: State, t: State): set<Id> {
    set q | q in s.timers && WasCompleted(s, t, q)
  }

  ghost function CorrectedIn(s: State, t: State): set<Id> {
    set q | q in s.routes && WasCorrected(s, t, q)
  }

  predicate HasElapsed(s: State, q: Id, now: int) {
    q in s.timers && now - s.timers[q].startedAt >= s.timers[q].delaySecs
  }

  // ----- Completing timers -----

  /** Row and last word of one route after timers were completed at `now`. */
  ghost predicate RouteAfterTimers(c: State, t: State, q: Id, now: int)
    requires q in c.routes && q in t.routes
  {
    if WasCompleted(c, t, q) then
      && c.routes[q].state == Cancelling && t.routes[q] == c.routes[q].WithState(Cancelled, None, Some(now), None)
      && ExpectedOf(t, q) == Some(Cancelled)
    else t.routes[q] == c.routes[q] && ExpectedOf(t, q) == ExpectedOf(c, q)
  }

  ghost predicate AfterTimers(c: State, p: Pass, now: int) {
    && p.state.routes.Keys == c.routes.Keys && Keyed(p.state.routes)
    && (forall q :: q in p.state.timers ==> q in c.timers && p.state.timers[q] == c.timers[q])
    && (forall q :: q in c.routes ==> RouteAfterTimers(c, p.state, q, now))
    && (forall q :: WasCompleted(c, p.state, q) ==> q in c.routes && HasElapsed(c, q, now))
    && p.corrections == |CompletedIn(c, p.state)|
  }

  lemma CompleteOneRoute(c: State, p: Pass, rid: Id, now: int, q: Id)
    requires AfterTimers(c, p, now) && q in c.routes && CompleteOne(p, rid, now) != p
    ensures q in CompleteOne(p, rid, now).state.routes && RouteAfterTimers(c, CompleteOne(p, rid, now).state, q, now)
  {
    CompleteWord(p.state, p.state.routes[rid], now);
    assert RouteAfterTimers(c, p.state, q, now);
  }

  lemma OneMoreCompleted(c: State, m: State, n: State, rid: Id)
    requires rid in m.timers && rid in c.timers && n.timers == m.timers - {rid}
    ensures |CompletedIn(c, n)| == |CompletedIn(c, m)| + 1
  {
    assert CompletedIn(c, n) == CompletedIn(c, m) + {rid};
  }

  lemma CompleteOneCounts(c: State, p: Pass, rid: Id, now: int)
    requires AfterTimers(c, p, now)
    ensures AfterTimers(c, CompleteOne(p, rid, now), now)
  {
    var n := CompleteOne(p, rid, now);
    if n != p {
      OneMoreCompleted(c, p.state, n.state, rid);
      CompleteFixed(p.state, rid, now);
      FixedKeepsKeyed(p.state, n.state);
      forall q | q in c.routes
        ensures q in n.state.routes && RouteAfterTimers(c, n.state, q, now)
      {
        CompleteOneRoute(c, p, rid, now, q);
      }
    }
  }

  lemma {:induction false} CompleteDueCounts(c: State, now: int, order: seq<Id>)
    requires Keyed(c.routes)
    ensures AfterTimers(c, CompleteDue(c, now, order), now)
  {
    if order == [] {
      assert CompletedIn(c, c) == {};
    } else {
      CompleteDueCounts(c, now, order[..|order| - 1]);
      CompleteOneCounts(c, CompleteDue(c, now, order[..|order| - 1]), order[|order| - 1], now);
    }
  }

  // ----- One pass -----

  /** One route after a pass or a whole restart: completed, or at most corrected, and then in agreement with the log. */
  ghost predicate RouteAfter(s: State, t: State, q: Id, now: int)
    requires q in s.routes && q in t.routes
  {
    && (if WasCompleted(s, t, q) then
          t.routes[q] == s.routes[q].WithState(Cancelled, None, Some(now), None)
        else t.routes[q] == s.routes[q].(state := t.routes[q].state))
    && (WasCompleted(s, t, q) || WasCorrected(s, t, q) ==> !RowWrong(t, q))
    && (!RowWrong(s, q) ==> !RowWrong(t, q))
    && (WasCorrected(s, t, q) ==> RowWrong(s, q))
    && (WasCompleted(s, t, q) ==> t.routes[q].state == Cancelled)
  }

  ghost predicate AfterRestart(s: State, p: Pass, now: int) {
    && p.state.routes.Keys == s.routes.Keys && Keyed(p.state.routes)
    && (forall q :: q in p.state.timers ==> q in s.timers && p.state.timers[q] == s.timers[q])
    && (forall q :: q in s.routes ==> RouteAfter(s, p.state, q, now))
    && (forall q :: WasCompleted(s, p.state, q) ==> q in s.routes && HasElapsed(s, q, now))
    && p.corrections == |CorrectedIn(s, p.state)| + |CompletedIn(s, p.state)|
  }

  /** A pass corrects exactly the wrong rows of its station. */
  lemma PassCounts(b: State, station: Id, now: int, order: seq<Id>)
    requires Keyed(b.routes)
    ensures AfterRestart(b, StationPass(b, station, now, order), now)
  {
    CompleteDueCounts(Corrected(b, station), now, order);
    PassFrom(b, station, CompleteDue(Corrected(b, station), now, order), now);
  }

  lemma PassFrom(b: State, station: Id, p: Pass, now: int)
    requires Keyed(b.routes) && AfterTimers(Corrected(b, station), p, now)
    ensures AfterRestart(b, Pass(p.state, |Wrong(b, station)| + p.corrections), now)
  {
    var c := Corrected(b, station);
    assert forall q :: WasCompleted(b, p.state, q) <==> WasCompleted(c, p.state, q);
    assert CompletedIn(b, p.state) == CompletedIn(c, p.state);
    RoutesPass(b, station, p.state, now);
  }

  lemma RoutesPass(b: State, station: Id, t: State, now: int)
    requires Keyed(b.routes) && t.routes.Keys == b.routes.Keys
    requires
      var c := Corrected(b, station);
      forall q :: q in c.routes ==> q in t.routes && RouteAfterTimers(c, t, q, now)
    ensures forall q :: q in b.routes ==> RouteAfter(b, t, q, now)
    ensures CorrectedIn(b, t) == Wrong(b, station)
  {
    forall q
      ensures q in b.routes ==> RouteAfter(b, t, q, now)
      ensures q in CorrectedIn(b, t) <==> q in Wrong(b, station)
    {
      if q in b.routes {
        assert q in Corrected(b, station).routes;
        RoutePass(b, station, t, now, q);
      }
    }
  }

  lemma RoutePass(b: State, station: Id, t: State, now: int, q: Id)
    requires Keyed(b.routes) && q in b.routes && q in t.routes
    requires RouteAfterTimers(Corrected(b, station), t, q, now)
    ensures RouteAfter(b, t, q, now) && (WasCorrected(b, t, q) <==> q in Wrong(b, station))
  {
    var c := Corrected(b, station);
    assert WasCompleted(b, t, q) == WasCompleted(c, t, q) && ExpectedOf(c, q) == ExpectedOf(b, q);
  }

  // ----- The whole restart -----

  /** What earlier passes did to a route and what the next one does never count twice. */
  lemma RoutesCompose(s: State, b: State, t: State, q: Id, now: int)
    requires q in s.routes && q in b.routes && q in t.routes && RouteAfter(s, b, q, now) && RouteAfter(b, t, q, now)
    requires q in b.timers ==> q in s.timers
    requires q in t.timers ==> q in b.timers
    ensures RouteAfter(s, t, q, now)
    ensures WasCompleted(s, t, q) <==> WasCompleted(s, b, q) || WasCompleted(b, t, q)
    ensures WasCorrected(s, t, q) <==> WasCorrected(s, b, q) || WasCorrected(b, t, q)
    ensures !(WasCompleted(s, b, q) && WasCompleted(b, t, q)) && !(WasCorrected(s, b, q) && WasCorrected(b, t, q))
  {
  }

  lemma SizesAdd(a: set<Id>, b: set<Id>, c: set<Id>)
    requires forall q :: q in c <==> q in a || q in b
    requires forall q :: !(q in a && q in b)
    ensures |c| == |a| + |b|
  {
    forall q
      ensures q in c <==> q in a + b
      ensures q !in a * b
    {
    }
    assert c == a + b && a * b == {};
  }

  /** The routes of the three states, and the timers that go from one to the next. */
  ghost predicate Successive(s: State, b: State, t: State, now: int) {
    && b.routes.Keys == s.routes.Keys && t.routes.Keys == b.routes.Keys
    && (forall q :: q in b.timers ==> q in s.timers) && (forall q :: q in t.timers ==> q in b.timers)
    && (forall q :: q in s.routes ==> RouteAfter(s, b, q, now) && RouteAfter(b, t, q, now))
  }

  lemma CorrectionsAdd(s: State, b: State, t: State, now: int)
    requires Successive(s, b, t, now)
    ensures |CorrectedIn(s, t)| == |CorrectedIn(s, b)| + |CorrectedIn(b, t)|
    ensures forall q :: q in s.routes ==> RouteAfter(s, t, q, now)
  {
    forall q
      ensures q in CorrectedIn(s, t) <==> q in CorrectedIn(s, b) || q in CorrectedIn(b, t)
      ensures !(q in CorrectedIn(s, b) && q in CorrectedIn(b, t))
      ensures q in s.routes ==> RouteAfter(s, t, q, now)
    {
      if q in s.routes {
        RoutesCompose(s, b, t, q, now);
      }
    }
    SizesAdd(CorrectedIn(s, b), CorrectedIn(b, t), CorrectedIn(s, t));
  }

  lemma CompletionsAdd(s: State, b: State, t: State)
    requires forall q :: q in b.timers ==> q in s.timers
    requires forall q :: q in t.timers ==> q in b.timers
    ensures |CompletedIn(s, t)| == |CompletedIn(s, b)| + |CompletedIn(b, t)|
  {
    SizesAdd(CompletedIn(s, b), CompletedIn(b, t), CompletedIn(s, t));
  }

  lemma PassesCompose(s: State, b: Pass, t: Pass, now: int)
    requires AfterRestart(s, b, now) && AfterRestart(b.state, t, now)
    ensures AfterRestart(s, Pass(t.state, b.corrections + t.corrections), now)
  {
    assert Successive(s, b.state, t.state, now) by {
      forall q | q in s.routes
        ensures RouteAfter(s, b.state, q, now) && RouteAfter(b.state, t.state, q, now)
      {
        assert q in b.state.routes;
      }
    }
    CorrectionsAdd(s, b.state, t.state, now);
    CompletionsAdd(s, b.state, t.state);
    forall q | WasCompleted(s, t.state, q)
      ensures q in s.routes && HasElapsed(s, q, now)
    {
      assert WasCompleted(s, b.state, q) || WasCompleted(b.state, t.state, q);
    }
  }

  /**
   Main result: a restart reports the number of rows it corrected plus the number of timed cancels it
   completed, and changes no row but in these two ways.
   */
  lemma RestartCounts(s: State, now: int, stations: seq<Id>, orders: seq<seq<Id>>)
    requires Keyed(s.routes) && |orders| == |stations|
    ensures
      var p := AllPasses(s, now, stations, orders);
      && AfterRestart(s, p, now)
      && p.corrections == |set q | q in s.routes && WasCorrected(s, p.state, q)|
                        + |set q | q in s.timers && q !in p.state.timers|
  {
    var t := AllPasses(s, now, stations, orders).state;
    PassesCount(s, now, stations, orders);
    assert CorrectedIn(s, t) == set q | q in s.routes && WasCorrected(s, t, q);
    assert CompletedIn(s, t) == set q | q in s.timers && q !in t.timers;
  }

  lemma {:induction false} PassesCount(s: State, now: int, stations: seq<Id>, orders: seq<seq<Id>>)
    requires Keyed(s.routes) && |orders| == |stations|
    ensures AfterRestart(s, AllPasses(s, now, stations, orders), now)
  {
    if stations == [] {
      assert CorrectedIn(s, s) == {} && CompletedIn(s, s) == {};
    } else {
      var n := |stations| - 1;
      var b := AllPasses(s, now, stations[..n], orders[..n]);
      PassesCount(s, now, stations[..n], orders[..n]);
      PassCounts(b.state, stations[n], now, orders[n]);
      PassesCompose(s, b, StationPass(b.state, stations[n], now, orders[n]), now);
    }
  }

  /** Where no timer goes, that is simply the number of rows that differ afterwards. */
  lemma QuietRestartCounts(s: State, now: int, stations: seq<Id>, orders: seq<seq<Id>>)
    requires Keyed(s.routes) && |orders| == |stations|
    requires AllPasses(s, now, stations, orders).state.timers.Keys == s.timers.Keys
    ensures
      var p := AllPasses(s, now, stations, orders);
      && p.state.routes.Keys == s.routes.Keys
      && p.corrections == |set q | q in s.routes && q in p.state.routes && p.state.routes[q] != s.routes[q]|
  {
    var p := AllPasses(s, now, stations, orders);
    RestartCounts(s, now, stations, orders);
    assert CompletedIn(s, p.state) == {};
    forall q | q in s.routes
      ensures WasCorrected(s, p.state, q) <==> p.state.routes[q] != s.routes[q]
    {
      assert RouteAfter(s, p.state, q, now);
    }
    assert CorrectedIn(s, p.state) == set q | q in s.routes && q in p.state.routes && p.state.routes[q] != s.routes[q];
  }
}
