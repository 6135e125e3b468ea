/**
 Switch reversal and indication as they run against the store (internal/service/switch_service.go,
 internal/service/signal_helper.go).
 */
module SwitchService {
  import opened Model
  import opened RoutePlan
  import opened Interlocking
  import opened Signaling
  import opened Database
  import opened Steps
  import opened Storage

  ghost predicate Answers(res: Result<Switch>, o: Outcome, w: Id) {
    match o
    case Committed(t) => w in t.switches && res == Ok(t.switches[w])
    case RolledBack(e) => res == Err(e)
  }

  method Reverse(st: Store, w: Id) returns (res: Result<Switch>)
    requires Keyed(st.routes)
    modifies st
    ensures st.Rows() == After(old(st.Rows()), ReverseTx(old(st.Rows()), w))
    ensures Answers(res, ReverseTx(old(st.Rows()), w), w)
  {
    ghost var s := st.Rows();
    if w !in st.switches {
      return Err(ErrNoRows);
    }
    var sw := st.switches[w];
    var y, table := st.Load(sw.station);
    var target := sw.position.Opposite();
    var fault := CheckSwitchMove(y, w);
    if fault.Some? {
      return Err(fault.value);
    }
    st.SetSwitchPosition(w, target);
    st.AppendEvent(Event(sw.station, SwitchReversed, OfSwitch(w), NO_ID, MovedTo(target)));
    assert MoveEvents(sw.station, [Requirement(w, target)], NO_ID)
        == [Event(sw.station, SwitchReversed, OfSwitch(w), NO_ID, MovedTo(target))];
    return Ok(st.switches[w]);
  }

  method RefreshSignal(st: Store, r: Route)
    requires Keyed(st.routes)
    modifies st
    ensures st.Rows() == Refresh(old(st.Rows()), r)
  {
    var y, table := st.Load(r.station);
    if r.signal !in y.signals {
      return;
    }
    var aspect := ScanAspect(y.Get(r.id), y.switches, y.sections);
    if aspect == y.signals[r.signal].aspect {
      return;
    }
    st.SetSignalAspect(r.signal, aspect);
    if aspect == Red {
      st.AppendEvent(SignalEvent(r, SignalClosed, NoPayload));
    } else {
      st.AppendEvent(SignalEvent(r, SignalOpened, Shows(aspect)));
    }
  }

  method RefreshUsers(st: Store, w: Id, routes: map<Id, Route>, order: seq<Id>)
    requires Keyed(st.routes) && forall id :: id in order ==> id in routes
    modifies st
    ensures st.Rows() == RefreshAll(old(st.Rows()), w, routes, order)
  {
    ghost var s := st.Rows();
    for i := 0 to |order|
      invariant st.Rows() == RefreshAll(s, w, routes, order[..i]) && Keyed(st.routes)
    {
      var id := order[i];
      assert order[..i + 1][..i] == order[..i];
      var r := routes[id];
      if !r.state.IsLocked() {
        continue;
      }
      var required := r.RequiredPositionOf(w);
      RequiredMeansUsed(r.requirements, w);
      if required.None? {
        continue;
      }
      RefreshSignal(st, r);
    }
    assert order[..|order|] == order;
  }

  lemma {:induction false} RequiredMeansUsed(reqs: seq<Requirement>, w: Id)
    ensures FirstPosition(reqs, w).Some? <==> Requirement(w, Normal) in reqs || Requirement(w, Position.Reverse) in reqs
  {
    if reqs != [] {
      RequiredMeansUsed(reqs[1..], w);
      assert reqs == [reqs[0]] + reqs[1..];
      assert reqs[0].position == Normal || reqs[0].position == Position.Reverse;
    }
  }

  method SetIndication(st: Store, w: Id, ok: bool) returns (res: Result<Switch>, ghost order: seq<Id>)
    requires Keyed(st.routes)
    modifies st
    ensures w in old(st.switches) ==> OrderFor(old(st.Rows()), old(st.switches)[w].station, order)
    ensures st.Rows() == After(old(st.Rows()), IndicateTx(old(st.Rows()), w, ok, order))
    ensures Answers(res, IndicateTx(old(st.Rows()), w, ok, order), w)
  {
    ghost var s := st.Rows();
    order := [];
    if w !in st.switches {
      return Err(ErrNoRows), order;
    }
    var sw := st.switches[w];
    if sw.indicated == ok {
      var unused := EnumerateStation(st, sw.station);
      return Ok(sw), unused;
    }
    st.SetSwitchIndication(w, ok);
    st.AppendEvent(Event(sw.station, if ok then IndicationRestored else IndicationLost, OfSwitch(w), NO_ID, NoPayload));
    assert st.Rows() == Indicated(s, w, ok);
    var y, table := st.Load(sw.station);
    assert y.routes == StationRoutes(s, sw.station);
    var all := table.All();
    order := all;
    RefreshUsers(st, w, y.routes, all);
    RefreshKeepsSwitches(Indicated(s, w, ok), w, y.routes, all);
    return Ok(st.switches[w]), order;
  }

  ghost method EnumerateStation(st: Store, station: Id) returns (order: seq<Id>)
    ensures OrderFor(st.Rows(), station, order)
  {
    var keys := StationRoutes(st.Rows(), station).Keys;
    order := SomeOrder(keys);
  }

  lemma {:induction false} RefreshKeepsSwitches(s: State, w: Id, routes: map<Id, Route>, order: seq<Id>)
    requires forall id :: id in order ==> id in routes
    ensures RefreshAll(s, w, routes, order).switches == s.switches
  {
    if order != [] {
      RefreshKeepsSwitches(s, w, routes, order[..|order| - 1]);
    }
  }
}
