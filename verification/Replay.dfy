/**
 Restart recovery (internal/service/diagram_reconcile_service.go): the log is replayed station by
 station, route rows are corrected, and timed cancels whose delay has elapsed are completed.
 */
module Replay {
  import opened Model
  import opened RoutePlan
  import opened Database
  import opened Steps

  /** The route state an event kind stands for; the other kinds leave the projection alone. */
  function StateAfter(kind: EventKind): Option<RouteState> {
    match kind
    case RouteRequested => Some(Requested)
    case RouteEstablished => Some(Established)
    case RouteFailed => Some(Failed)
    case RouteUnlocked => Some(Unlocked)
    case CancelRequested => Some(Cancelling)
    case DelayUnlockCompleted => Some(Cancelled)
    case DelayUnlockAbandoned => Some(Established)
    case _ => None
  }

  function StationEvents(log: seq<Event>, station: Id): seq<Event> {
    if log == [] then []
    else
      var last := log[|log| - 1];
      StationEvents(log[..|log| - 1], station) + (if last.station == station then [last] else [])
  }

  function ReplayEvents(events: seq<Event>): map<Id, RouteState> {
    if events == [] then map[]
    else
      var last := events[|events| - 1];
      var before := ReplayEvents(events[..|events| - 1]);
      if StateAfter(last.kind).Some? then before[last.route := StateAfter(last.kind).value] else before
  }

  /** What the log says of one route: the last event of its station that names it and carries a state. */
  function Expected(log: seq<Event>, station: Id, rid: Id): Option<RouteState> {
    if log == [] then None
    else
      var last := log[|log| - 1];
      if last.station == station && last.route == rid && StateAfter(last.kind).Some? then StateAfter(last.kind)
      else Expected(log[..|log| - 1], station, rid)
  }

  lemma {:induction false} ReplayIsLastWord(log: seq<Event>, station: Id, rid: Id)
    ensures
      var m := ReplayEvents(StationEvents(log, station));
      Expected(log, station, rid) == if rid in m then Some(m[rid]) else None
  {
    if log != [] {
      var init, last := log[..|log| - 1], log[|log| - 1];
      ReplayIsLastWord(init, station, rid);
      if last.station == station {
        var events := StationEvents(init, station) + [last];
        assert events[..|events| - 1] == StationEvents(init, station);
        assert StationEvents(log, station) == events;
      } else {
        assert StationEvents(log, station) == StationEvents(init, station);
      }
    }
  }

  /** The seven kinds of event that speak of a route, and the state each of them stands for. */
  lemma ReplayReads(log: seq<Event>, e: Event, station: Id, rid: Id)
    ensures Expected([], station, rid) == None
    ensures Expected(log + [e], station, rid) ==
      if e.station != station || e.route != rid then Expected(log, station, rid)
      else if e.kind == RouteRequested then Some(Requested)
      else if e.kind == RouteEstablished || e.kind == DelayUnlockAbandoned then Some(Established)
      else if e.kind == RouteFailed then Some(Failed)
      else if e.kind == RouteUnlocked then Some(Unlocked)
      else if e.kind == CancelRequested then Some(Cancelling)
      else if e.kind == DelayUnlockCompleted then Some(Cancelled)
      else Expected(log, station, rid)
  {
    assert (log + [e])[..|log|] == log;
  }

  // ----- Reconciliation -----

  function ExpectedOf(s: State, rid: Id): Option<RouteState>
    requires rid in s.routes
  {
    Expected(s.log, s.routes[rid].station, rid)
  }

  /** Cancelled in row and log, so no restart changes the route again. */
  ghost predicate Finished(s: State, rid: Id) {
    rid in s.routes && s.routes[rid].state == Cancelled && ExpectedOf(s, rid) == Some(Cancelled)
  }

  predicate RowWrong(s: State, rid: Id)
    requires rid in s.routes
  {
    ExpectedOf(s, rid).Some? && ExpectedOf(s, rid).value != s.routes[rid].state
  }

  /** The routes of a station whose row disagrees with the log. */
  function Wrong(s: State, station: Id): set<Id> {
    set r | r in s.routes && s.routes[r].station == station && RowWrong(s, r)
  }

  function Corrected(s: State, station: Id): State {
    s.(routes := map r | r in s.routes ::
      if r in Wrong(s, station) then s.routes[r].(state := ExpectedOf(s, r).value) else s.routes[r])
  }

  predicate Due(t: Timer, now: int) {
    now - t.startedAt >= t.delaySecs
  }

  function PendingTimers(s: State): set<Id> {
    set r | r in s.timers && !s.timers[r].completed
  }

  datatype Pass = Pass(state: State, corrections: nat)

  function CompleteOne(p: Pass, rid: Id, now: int): Pass {
    if rid in p.state.timers && Due(p.state.timers[rid], now) then
      var o := CompleteTx(p.state, rid, now);
      if o.Committed? then Pass(o.state, p.corrections + 1) else p
    else p
  }

  function CompleteDue(s: State, now: int, order: seq<Id>): Pass {
    if order == [] then Pass(s, 0)
    else CompleteOne(CompleteDue(s, now, order[..|order| - 1]), order[|order| - 1], now)
  }

  function StationPass(s: State, station: Id, now: int, order: seq<Id>): Pass {
    var p := CompleteDue(Corrected(s, station), now, order);
    Pass(p.state, |Wrong(s, station)| + p.corrections)
  }

  /** One pass per station; `orders` are the orders in which each pass listed the pending timers. */
  function AllPasses(s: State, now: int, stations: seq<Id>, orders: seq<seq<Id>>): Pass
    requires |orders| == |stations|
  {
    if stations == [] then Pass(s, 0)
    else
      var n := |stations| - 1;
      var before := AllPasses(s, now, stations[..n], orders[..n]);
      var p := StationPass(before.state, stations[n], now, orders[n]);
      Pass(p.state, before.corrections + p.corrections)
  }

  ghost predicate OrdersFor(s: State, now: int, stations: seq<Id>, orders: seq<seq<Id>>) {
    |orders| == |stations| &&
    (stations != [] ==>
       var n := |stations| - 1;
       && OrdersFor(s, now, stations[..n], orders[..n])
       && Enumerates(orders[n], PendingTimers(AllPasses(s, now, stations[..n], orders[..n]).state)))
  }

  // ----- How log suffixes change the last word -----

  ghost predicate Silent(events: seq<Event>) {
    forall e :: e in events ==> StateAfter(e.kind).None?
  }

  lemma {:induction false} ExpectedConcat(a: seq<Event>, b: seq<Event>, station: Id, rid: Id)
    ensures Expected(a + b, station, rid) ==
      if Expected(b, station, rid).Some? then Expected(b, station, rid) else Expected(a, station, rid)
  {
    if b == [] {
      assert a + b == a;
    } else {
      var n := |b| - 1;
      ExpectedConcat(a, b[..n], station, rid);
      assert (a + b)[..|a + b| - 1] == a + b[..n];
    }
  }

  lemma {:induction false} SilentExpectsNothing(events: seq<Event>, station: Id, rid: Id)
    requires Silent(events)
    ensures Expected(events, station, rid) == None
  {
    if events != [] {
      assert events[|events| - 1] in events;
      SilentExpectsNothing(events[..|events| - 1], station, rid);
    }
  }

  /** Appending silent events changes no expectation. */
  lemma SilentSuffix(log: seq<Event>, events: seq<Event>, station: Id, rid: Id)
    requires Silent(events)
    ensures Expected(log + events, station, rid) == Expected(log, station, rid)
  {
    ExpectedConcat(log, events, station, rid);
    SilentExpectsNothing(events, station, rid);
  }

  /** `log` extended by silent events, one deciding event, and silent events again. */
  lemma DecidedBy(log: seq<Event>, quiet: seq<Event>, e: Event, rest: seq<Event>, station: Id, rid: Id)
    requires Silent(quiet) && Silent(rest) && StateAfter(e.kind).Some?
    ensures Expected(log + quiet + [e] + rest, station, rid) ==
      if station == e.station && rid == e.route then StateAfter(e.kind) else Expected(log, station, rid)
  {
    SilentSuffix(log + quiet + [e], rest, station, rid);
    var l := log + quiet;
    assert (l + [e])[..|l + [e]| - 1] == l;
    SilentSuffix(log, quiet, station, rid);
  }

  /** The outcome of a step as far as replay is concerned: at most one route has a new last word. */
  ghost predicate LastWordIs(s: State, t: State, r: Route, word: Option<RouteState>) {
    forall station, rid :: Expected(t.log, station, rid) ==
      if word.Some? && station == r.station && rid == r.id then word else Expected(s.log, station, rid)
  }

  ghost predicate LogQuiet(s: State, t: State) {
    forall station, rid :: Expected(t.log, station, rid) == Expected(s.log, station, rid)
  }

  lemma EstablishWord(s: State, r: Route, plan: Interlocking.Plan, now: int)
    ensures LastWordIs(s, EstablishedState(s, r, plan, now), r, Some(Established))
  {
    var aspect := OpenAspect(s, r, plan);
    var quiet := MoveEvents(r.station, plan.moves, r.id)
      + SwitchEvents(r.station, SwitchLocked, plan.switchLocks, r.id)
      + SectionEvents(r.station, LockSet, plan.sectionLocks, r.id);
    var e := RouteEvent(r, RouteEstablished, NoPayload);
    var rest := if aspect != Red then [SignalEvent(r, SignalOpened, Shows(aspect))] else [];
    assert s.log + EstablishEvents(r, plan, aspect) == s.log + quiet + [e] + rest;
    forall station, rid {
      DecidedBy(s.log, quiet, e, rest, station, rid);
    }
  }

  function ReleaseQuiet(r: Route, secs: seq<Id>, sws: seq<Id>, secKind: EventKind): seq<Event> {
    SectionEvents(r.station, secKind, secs, r.id) + SwitchEvents(r.station, SwitchReleased, sws, r.id)
  }

  lemma CancelNowWord(s: State, r: Route, now: int)
    ensures LastWordIs(s, CancelledNow(s, r, now), r, Some(Cancelling))
  {
    var quiet := ReleaseQuiet(r, HeldSecs(s, r), HeldSws(s, r), LockReleased);
    var e1 := RouteEvent(r, RouteUnlocked, NoPayload);
    var mid := [SignalEvent(r, SignalClosed, NoPayload)];
    var e2 := RouteEvent(r, CancelRequested, ImmediateMode);
    var t := CancelledNow(s, r, now);
    assert t.log == s.log + quiet + [e1] + mid + [] + [e2] + [];
    forall station, rid
      ensures Expected(t.log, station, rid) ==
        if station == r.station && rid == r.id then Some(Cancelling) else Expected(s.log, station, rid)
    {
      DecidedBy(s.log, quiet, e1, mid, station, rid);
      DecidedBy(s.log + quiet + [e1] + mid, [], e2, [], station, rid);
    }
  }

  lemma CancelStartWord(s: State, r: Route, now: int, delay: int)
    ensures LastWordIs(s, CancelStarted(s, r, now, delay), r, Some(Cancelling))
  {
    var e := RouteEvent(r, CancelRequested, TimedMode);
    var rest := [RouteEvent(r, DelayUnlockStarted, Delay(delay)), SignalEvent(r, SignalClosed, NoPayload)];
    assert CancelStarted(s, r, now, delay).log == s.log + [] + [e] + rest;
    forall station, rid {
      DecidedBy(s.log, [], e, rest, station, rid);
    }
  }

  lemma CompleteWord(s: State, r: Route, now: int)
    ensures LastWordIs(s, CancelCompleted(s, r, now), r, Some(Cancelled))
  {
    var quiet := ReleaseQuiet(r, HeldSecs(s, r), HeldSws(s, r), LockReleased);
    var e := RouteEvent(r, DelayUnlockCompleted, NoPayload);
    var t := CancelCompleted(s, r, now);
    assert t.log == s.log + quiet + [e] + [] + [] + [e] + [];
    forall station, rid
      ensures Expected(t.log, station, rid) ==
        if station == r.station && rid == r.id then Some(Cancelled) else Expected(s.log, station, rid)
    {
      DecidedBy(s.log, quiet, e, [], station, rid);
      DecidedBy(s.log + quiet + [e] + [], [], e, [], station, rid);
    }
  }

  lemma NormalReleaseWord(s: State, r: Route)
    ensures LastWordIs(s, NormallyReleased(s, r), r, Some(Unlocked))
  {
    var quiet := ReleaseQuiet(r, HeldSecs(s, r), HeldSws(s, r), RouteSectionUnlocked)
      + [SignalEvent(r, SignalClosed, NoPayload)];
    var e := RouteEvent(r, RouteUnlocked, NoPayload);
    assert NormallyReleased(s, r).log == s.log + quiet + [e] + [];
    forall station, rid {
      DecidedBy(s.log, quiet, e, [], station, rid);
    }
  }

  lemma FaultQuiet(s: State, r: Route, now: int)
    ensures LogQuiet(s, FaultUnlocked(s, r, now))
  {
    var y := LoadYard(s, r.station);
    var secs, sws := Interlocking.HeldSections(y.sections, r.path, r.id),
                     Interlocking.HeldSwitches(y.switches, r.SwitchIds(), r.id);
    var quiet := ReleaseQuiet(r, secs, sws, LockReleased);
    assert FaultUnlocked(s, r, now).log == s.log + quiet;
    forall station, rid {
      SilentSuffix(s.log, quiet, station, rid);
    }
  }

  lemma RefreshQuiet(s: State, r: Route)
    ensures LogQuiet(s, Refresh(s, r))
  {
    var t := Refresh(s, r);
    if t != s {
      var e := t.log[|t.log| - 1];
      assert t.log == s.log + [e];
      forall station, rid {
        SilentSuffix(s.log, [e], station, rid);
      }
    }
  }

  lemma {:induction false} RefreshAllQuiet(s: State, w: Id, routes: map<Id, Route>, order: seq<Id>)
    requires forall id :: id in order ==> id in routes
    ensures LogQuiet(s, RefreshAll(s, w, routes, order))
  {
    if order != [] {
      var init, last := order[..|order| - 1], order[|order| - 1];
      RefreshAllQuiet(s, w, routes, init);
      RefreshQuiet(RefreshAll(s, w, routes, init), routes[last]);
    }
  }

  lemma IndicatedQuiet(s: State, w: Id, ok: bool)
    requires w in s.switches
    ensures LogQuiet(s, Indicated(s, w, ok))
  {
    var t := Indicated(s, w, ok);
    var e := t.log[|t.log| - 1];
    assert t.log == s.log + [e];
    forall station, rid {
      SilentSuffix(s.log, [e], station, rid);
    }
  }

  lemma ReverseQuiet(s: State, w: Id)
    requires w in s.switches
    ensures LogQuiet(s, After(s, ReverseTx(s, w)))
  {
    var t := After(s, ReverseTx(s, w));
    if t != s {
      var move := Requirement(w, s.switches[w].position.Opposite());
      assert t.log == s.log + MoveEvents(s.switches[w].station, [move], NO_ID);
      forall station, rid {
        SilentSuffix(s.log, MoveEvents(s.switches[w].station, [move], NO_ID), station, rid);
      }
    }
  }

  lemma MovedQuiet(s: State, station: Id, train: Id, eff: TrainOps.Effect, owners: seq<Id>)
    requires |owners| == |eff.unlock|
    requires forall id :: id in eff.closeSignals ==> id in s.routes
    ensures LogQuiet(s, Moved(s, station, train, eff, owners))
  {
    var quiet := MoveEventsOf(s, station, eff.section, train, eff, owners);
    assert Silent(quiet);
    forall st, rid {
      SilentSuffix(s.log, quiet, st, rid);
    }
  }
}
