/**
 Restart recovery as it runs against the store (internal/service/diagram_reconcile_service.go).
 */
module ReconcileService {
  import opened Model
  import opened RoutePlan
  import opened Database
  import opened Steps
  import opened Replay
  import opened Runs
  import opened Storage
  import opened RouteService
  import opened Counts

  method ListEventsByStation(st: Store, station: Id) returns (events: seq<Event>)
    ensures events == StationEvents(st.log, station)
  {
    events := [];
    for i := 0 to |st.log|
      invariant events == StationEvents(st.log[..i], station)
    {
      assert st.log[..i + 1][..i] == st.log[..i];
      if st.log[i].station == station {
        events := events + [st.log[i]];
      }
    }
    assert st.log[..|st.log|] == st.log;
  }

  method RunReplayEvents(events: seq<Event>) returns (states: map<Id, RouteState>)
    ensures states == ReplayEvents(events)
  {
    states := map[];
    for i := 0 to |events|
      invariant states == ReplayEvents(events[..i])
    {
      var e := events[i];
      assert events[..i + 1][..i] == events[..i];
      match e.kind {
        case RouteRequested => states := states[e.route := Requested];
        case RouteEstablished => states := states[e.route := Established];
        case RouteFailed => states := states[e.route := Failed];
        case RouteUnlocked => states := states[e.route := Unlocked];
        case CancelRequested => states := states[e.route := Cancelling];
        case DelayUnlockCompleted => states := states[e.route := Cancelled];
        case DelayUnlockAbandoned => states := states[e.route := Established];
        case _ =>
      }
    }
    assert events[..|events|] == events;
  }

  /** Rows of the listed routes corrected, all others as they were. */
  function CorrectedAmong(s: State, listed: seq<Id>): map<Id, Route> {
    map r | r in s.routes ::
      if r in listed && RowWrong(s, r) then s.routes[r].(state := ExpectedOf(s, r).value) else s.routes[r]
  }

  ghost function WrongAmong(s: State, listed: seq<Id>): set<Id> {
    set r | r in s.routes && r in listed && RowWrong(s, r)
  }

  /** Visits the listed rows; `expected` is the replayed projection of their station. */
  method CorrectListed(st: Store, station: Id, expected: map<Id, RouteState>, listed: seq<Id>)
      returns (corrections: nat)
    requires expected == ReplayEvents(StationEvents(st.log, station))
    requires forall i, j :: 0 <= i < j < |listed| ==> listed[i] != listed[j]
    requires forall rid :: rid in listed ==> rid in st.routes && st.routes[rid].station == station
    modifies st
    ensures st.Rows() == old(st.Rows()).(routes := CorrectedAmong(old(st.Rows()), listed))
    ensures corrections == |WrongAmong(old(st.Rows()), listed)|
  {
    ghost var s := st.Rows();
    corrections := 0;
    assert CorrectedAmong(s, []) == s.routes;
    for i := 0 to |listed|
      invariant st.Rows() == s.(routes := CorrectedAmong(s, listed[..i]))
      invariant corrections == |WrongAmong(s, listed[..i])|
    {
      var rid := listed[i];
      assert rid in listed && listed[..i + 1] == listed[..i] + [rid] && rid !in listed[..i];
      CorrectOneMore(s, listed[..i], rid);
      ReplayIsLastWord(s.log, station, rid);
      var row := st.routes[rid];
      if rid in expected && expected[rid] != row.state {
        st.SetRouteState(rid, expected[rid], row.establishedAt, row.cancelledAt, row.timerStartedAt);
        corrections := corrections + 1;
      }
    }
    assert listed[..|listed|] == listed;
  }

  method CorrectRows(st: Store, station: Id) returns (corrections: nat)
    requires Keyed(st.routes)
    modifies st
    ensures st.Rows() == Corrected(old(st.Rows()), station)
    ensures corrections == |Wrong(old(st.Rows()), station)|
  {
    ghost var s := st.Rows();
    var events := ListEventsByStation(st, station);
    var expected := RunReplayEvents(events);
    var table := st.StationTable(station);
    var listed := table.All();
    corrections := CorrectListed(st, station, expected, listed);
    assert WrongAmong(s, listed) == Wrong(s, station);
    assert CorrectedAmong(s, listed) == Corrected(s, station).routes;
  }

  lemma CorrectOneMore(s: State, done: seq<Id>, rid: Id)
    requires rid in s.routes && rid !in done
    ensures rid in CorrectedAmong(s, done) && CorrectedAmong(s, done)[rid] == s.routes[rid]
    ensures CorrectedAmong(s, done + [rid]) ==
      if RowWrong(s, rid) then CorrectedAmong(s, done)[rid := s.routes[rid].(state := ExpectedOf(s, rid).value)]
      else CorrectedAmong(s, done)
    ensures |WrongAmong(s, done + [rid])| == |WrongAmong(s, done)| + if RowWrong(s, rid) then 1 else 0
  {
    assert WrongAmong(s, done + [rid]) == WrongAmong(s, done) + if RowWrong(s, rid) then {rid} else {};
  }

  method CompleteDueTimers(st: Store, now: int, order: seq<Id>) returns (corrections: nat)
    requires Keyed(st.routes)
    modifies st
    ensures CompleteDue(old(st.Rows()), now, order) == Pass(st.Rows(), corrections)
    ensures Keyed(st.routes)
  {
    ghost var s := st.Rows();
    corrections := 0;
    for i := 0 to |order|
      invariant CompleteDue(s, now, order[..i]) == Pass(st.Rows(), corrections)
      invariant Keyed(st.routes)
    {
      var rid := order[i];
      assert order[..i + 1][..i] == order[..i];
      if rid !in st.timers {
        continue;
      }
      var timer := st.timers[rid];
      if now - timer.startedAt >= timer.delaySecs {
        CompleteFixed(st.Rows(), rid, now);
        FixedKeepsKeyed(st.Rows(), After(st.Rows(), CompleteTx(st.Rows(), rid, now)));
        var res := CompleteDelayedCancel(st, rid, now);
        if res.Ok? {
          corrections := corrections + 1;
        }
      }
    }
    assert order[..|order|] == order;
  }

  method ListPendingDelayTimers(st: Store) returns (order: seq<Id>)
    ensures Enumerates(order, PendingTimers(st.Rows()))
  {
    order := EnumerateKeys(set r | r in st.timers && !st.timers[r].completed);
  }

  method ReconcileStation(st: Store, station: Id, now: int) returns (corrections: nat, ghost order: seq<Id>)
    requires Keyed(st.routes)
    modifies st
    ensures Keyed(st.routes)
    ensures Enumerates(order, PendingTimers(old(st.Rows())))
    ensures StationPass(old(st.Rows()), station, now, order) == Pass(st.Rows(), corrections)
  {
    ghost var s := st.Rows();
    var wrong := CorrectRows(st, station);
    assert Fixed(s, Corrected(s, station));
    FixedKeepsKeyed(s, Corrected(s, station));
    var pending := ListPendingDelayTimers(st);
    order := pending;
    var completed := CompleteDueTimers(st, now, pending);
    corrections := wrong + completed;
  }

  /** All stations in turn; the result is a step of the model, with the orders the store listed timers in. */
  method ReconcileAll(st: Store, stations: seq<Id>, now: int) returns (corrections: nat, ghost orders: seq<seq<Id>>)
    requires Keyed(st.routes)
    modifies st
    ensures Keyed(st.routes)
    ensures OrdersFor(old(st.Rows()), now, stations, orders)
    ensures AllPasses(old(st.Rows()), now, stations, orders) == Pass(st.Rows(), corrections)
    ensures corrections == |CorrectedIn(old(st.Rows()), st.Rows())| + |CompletedIn(old(st.Rows()), st.Rows())|
  {
    ghost var s := st.Rows();
    corrections := 0;
    orders := [];
    for i := 0 to |stations|
      invariant Keyed(st.routes) && |orders| == i
      invariant OrdersFor(s, now, stations[..i], orders)
      invariant AllPasses(s, now, stations[..i], orders) == Pass(st.Rows(), corrections)
    {
      var n: nat;
      ghost var order: seq<Id>;
      n, order := ReconcileStation(st, stations[i], now);
      assert stations[..i + 1][..i] == stations[..i] && (orders + [order])[..i] == orders;
      corrections := corrections + n;
      orders := orders + [order];
    }
    assert stations[..|stations|] == stations;
    RestartCounts(s, now, stations, orders);
  }
}
