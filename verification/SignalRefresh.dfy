/**
 What a changed indication leaves in the rows, whatever rows and map order: the signals of exactly the
 routes in force over the switch are recomputed, and after a lost one they are all red.
 */
module SignalRefresh {
  import opened Model
  import opened Signaling
  import opened Database
  import opened Steps
  import opened Runs
  import opened Signals
  import opened Requests
  import opened Cancels
  import opened Protection

  /** The route is in force and requires the switch. */
  predicate UsesNow(s: State, id: Id, w: Id) {
    id in s.routes && InForce(s.routes[id].state) && RequiresSwitch(s.routes[id], w)
  }

  /** Each signal is as before, or shows the rule's aspect for a route in force over the switch, if one starts there. */
  ghost predicate SignalsRecomputed(s: State, t: State, w: Id) {
    && SameProtects(s, t) && t.routes == s.routes
    && forall g :: g in s.signals ==>
         if exists id :: UsesNow(s, id, w) && s.routes[id].signal == g then
           exists id :: UsesNow(s, id, w) && s.routes[id].signal == g && t.signals[g].aspect == AspectNow(t, id)
         else t.signals[g] == s.signals[g]
  }

  lemma UsersAreListed(s: State, w: Id, order: seq<Id>, id: Id)
    requires WellFormed(s) && w in s.switches && OrderFor(s, s.switches[w].station, order)
    ensures UsesNow(s, id, w) <==> id in order && IsRefreshed(s.routes[id], w)
  {
    var keys := StationRoutes(s, s.switches[w].station).Keys;
    assert id in order <==> id in keys;
    if UsesNow(s, id, w) {
      assert w in LoadYard(s, s.routes[id].station).switches;
    }
  }

  lemma SameAspect(m: State, u: State, id: Id)
    requires id in m.routes && u.routes == m.routes && u.switches == m.switches && u.sections == m.sections
    ensures AspectNow(u, id) == AspectNow(m, id)
  {
    var y, z := LoadYard(m, m.routes[id].station), LoadYard(u, m.routes[id].station);
    assert z.switches == y.switches && z.sections == y.sections && z.Get(id) == y.Get(id);
  }

  lemma RefreshedSignal(s: State, w: Id, order: seq<Id>, g: Id)
    requires WellFormed(s) && w in s.switches && OrderFor(s, s.switches[w].station, order) && g in s.signals
    ensures
      var t := RefreshAll(s, w, StationRoutes(s, s.switches[w].station), order);
      && g in t.signals
      && if exists id :: UsesNow(s, id, w) && s.routes[id].signal == g then
           exists id :: UsesNow(s, id, w) && s.routes[id].signal == g && t.signals[g].aspect == AspectNow(s, id)
         else t.signals[g].aspect == s.signals[g].aspect
  {
    RefreshAllSo(s, w, StationRoutes(s, s.switches[w].station), order, g);
    forall id
      ensures UsesNow(s, id, w) <==> id in order && IsRefreshed(s.routes[id], w)
    {
      UsersAreListed(s, w, order, id);
    }
  }

  lemma RefreshLeaves(s: State, w: Id, order: seq<Id>)
    requires WellFormed(s) && w in s.switches && OrderFor(s, s.switches[w].station, order)
    ensures
      var t := RefreshAll(s, w, StationRoutes(s, s.switches[w].station), order);
      SignalsRecomputed(s, t, w) && t == s.(signals := t.signals, log := t.log) && s.log <= t.log
  {
    var routes := StationRoutes(s, s.switches[w].station);
    var t := RefreshAll(s, w, routes, order);
    RefreshAllFixed(s, w, routes, order);
    RefreshAllKeepsProtects(s, w, routes, order);
    RefreshAllGrows(s, w, routes, order);
    forall g | g in s.signals
      ensures
        if exists id :: UsesNow(s, id, w) && s.routes[id].signal == g then
          exists id :: UsesNow(s, id, w) && s.routes[id].signal == g && t.signals[g].aspect == AspectNow(t, id)
        else t.signals[g] == s.signals[g]
    {
      RefreshedSignal(s, w, order, g);
      if id :| UsesNow(s, id, w) && s.routes[id].signal == g && t.signals[g].aspect == AspectNow(s, id) {
        SameAspect(s, t, id);
      } else {
        RefreshAllKeepsPlace(s, w, routes, order, g);
      }
    }
  }

  lemma {:induction false} RefreshAllGrows(s: State, w: Id, routes: map<Id, Route>, order: seq<Id>)
    requires forall id :: id in order ==> id in routes
    ensures s.log <= RefreshAll(s, w, routes, order).log
  {
    if order != [] {
      assert order == order[..|order| - 1] + [order[|order| - 1]];
      RefreshAllGrows(s, w, routes, order[..|order| - 1]);
    }
  }

  lemma {:induction false} RefreshAllKeepsPlace(s: State, w: Id, routes: map<Id, Route>, order: seq<Id>, g: Id)
    requires g in s.signals && forall id :: id in order ==> id in routes
    ensures
      var t := RefreshAll(s, w, routes, order);
      g in t.signals && t.signals[g] == s.signals[g].(aspect := t.signals[g].aspect)
  {
    if order != [] {
      assert order == order[..|order| - 1] + [order[|order| - 1]];
      RefreshAllKeepsPlace(s, w, routes, order[..|order| - 1], g);
    }
  }

  /** Main result: the answer to an indication and what it leaves. */
  lemma IndicationAnswers(s: State, w: Id, ok: bool, order: seq<Id>)
    requires WellFormed(s) && (w in s.switches ==> OrderFor(s, s.switches[w].station, order))
    ensures
      var o := IndicateTx(s, w, ok, order);
      if w !in s.switches then o == RolledBack(ErrNoRows)
      else if s.switches[w].indicated == ok then o == Committed(s)
      else
        && o.Committed? && SignalsRecomputed(s, o.state, w)
        && o.state == s.(switches := s.switches[w := s.switches[w].(indicated := ok)],
                         signals := o.state.signals, log := o.state.log)
        && s.log + [Event(s.switches[w].station, if ok then IndicationRestored else IndicationLost,
                          OfSwitch(w), NO_ID, NoPayload)] <= o.state.log
  {
    if w in s.switches && s.switches[w].indicated != ok {
      var m := Indicated(s, w, ok);
      FixedKeepsWellFormed(s, m);
      assert StationRoutes(m, s.switches[w].station) == StationRoutes(s, s.switches[w].station);
      RefreshLeaves(m, w, order);
      var t := RefreshAll(m, w, StationRoutes(m, s.switches[w].station), order);
      assert forall id :: UsesNow(m, id, w) <==> UsesNow(s, id, w);
    }
  }

  /** From any rows: once the indication is lost, the signal of every route in force over the switch is red. */
  lemma LostIndicationCloses(s: State, w: Id, order: seq<Id>, id: Id)
    requires WellFormed(s) && w in s.switches && OrderFor(s, s.switches[w].station, order)
    requires s.switches[w].indicated && UsesNow(s, id, w)
    ensures
      var t := After(s, IndicateTx(s, w, false, order));
      s.routes[id].signal in t.signals && t.signals[s.routes[id].signal].aspect == Red
  {
    var t := After(s, IndicateTx(s, w, false, order));
    var g := s.routes[id].signal;
    IndicationAnswers(s, w, false, order);
    SignalExists(s, id);
    var b :| UsesNow(s, b, w) && s.routes[b].signal == g && t.signals[g].aspect == AspectNow(t, b);
    UnindicatedIsRed(t, w, b);
  }

  lemma UnindicatedIsRed(t: State, w: Id, b: Id)
    requires UsesNow(t, b, w) && w in t.switches && !t.switches[w].indicated
    ensures AspectNow(t, b) == Red
  {
    var y := LoadYard(t, t.routes[b].station);
    AspectRule(y.Get(b), y.switches, y.sections);
    var q := Requirement(w, if Requirement(w, Normal) in t.routes[b].requirements then Normal else Reverse);
    assert q in t.routes[b].requirements;
  }
}
