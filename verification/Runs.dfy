/**
 Steps and runs. A run is any sequence of service operations with any choice of map orders; a
 rejected operation leaves the rows as they were.
 */
module Runs {
  import opened Model
  import opened RoutePlan
  import opened Interlocking
  import opened TrainOps
  import opened Database
  import opened Steps
  import opened Replay

  datatype Step =
    | Define(route: Route)
    | Establish(rid: Id, now: int)
    | Cancel(rid: Id, now: int)
    | Complete(rid: Id, now: int)
    | FaultUnlock(rid: Id, now: int)
    | ReverseSwitch(switch: Id)
    | Indicate(switch: Id, ok: bool, order: seq<Id>)
    | Train(train: Id, section: Id, entering: bool, choice: Choice)
    | Reconcile(now: int, stations: seq<Id>, orders: seq<seq<Id>>)

  /** The choices recorded in the step are ones the source could make; generated ids are not empty. */
  ghost predicate Enabled(s: State, step: Step) {
    match step
    case Define(r) => r.id != NO_ID
    case Indicate(w, ok, order) => w in s.switches ==> OrderFor(s, s.switches[w].station, order)
    case Train(train, k, entering, c) => ChoiceFor(s, k, entering, c)
    case Reconcile(now, stations, orders) => OrdersFor(s, now, stations, orders)
    case _ => true
  }

  /** The same request, possibly served in another map order. */
  ghost predicate Alike(a: Step, b: Step) {
    match a
    case Indicate(w, ok, _) => b.Indicate? && b.switch == w && b.ok == ok
    case Train(train, k, entering, _) => b.Train? && b.train == train && b.section == k && b.entering == entering
    case Reconcile(now, stations, _) => b.Reconcile? && b.now == now && b.stations == stations
    case _ => b == a
  }

  ghost function Next(s: State, step: Step): State
    requires Keyed(s.routes) && Enabled(s, step)
  {
    match step
    case Define(r) => After(s, DefineTx(s, r))
    case Establish(rid, now) => After(s, EstablishTx(s, rid, now))
    case Cancel(rid, now) => After(s, CancelTx(s, rid, now))
    case Complete(rid, now) => After(s, CompleteTx(s, rid, now))
    case FaultUnlock(rid, now) => After(s, FaultTx(s, rid, now))
    case ReverseSwitch(w) => After(s, ReverseTx(s, w))
    case Indicate(w, ok, order) => After(s, IndicateTx(s, w, ok, order))
    case Train(train, k, entering, c) => After(s, MoveTx(s, train, k, entering, c))
    case Reconcile(now, stations, orders) => AllPasses(s, now, stations, orders).state
  }

  /** Rows as route definition leaves them: keyed by id, every reference inside the route's own station. */
  ghost predicate WellFormed(s: State) {
    && Keyed(s.routes)
    && (forall id :: id in s.routes ==> Defined(LoadYard(s, s.routes[id].station), s.routes[id]))
  }

  /** A new installation: no lock held, no route defined, nothing logged. */
  ghost predicate Initial(s: State) {
    && s.routes == map[] && s.once == map[] && s.timers == map[] && s.log == []
    && (forall k :: k in s.sections ==> !s.sections[k].locked)
    && (forall w :: w in s.switches ==> !s.switches[w].locked)
    && (forall g :: g in s.signals ==> s.signals[g].aspect == Red)
  }

  /** `states` are the successive rows of a run that takes `steps`. */
  ghost predicate IsRun(states: seq<State>, steps: seq<Step>) {
    && |states| == |steps| + 1
    && (forall i :: 0 <= i < |states| ==> Keyed(states[i].routes))
    && (forall i :: 0 <= i < |steps| ==> Enabled(states[i], steps[i]) && states[i + 1] == Next(states[i], steps[i]))
  }

  lemma RunStarts(s: State)
    requires Keyed(s.routes)
    ensures IsRun([s], [])
  {
  }

  lemma RunExtends(states: seq<State>, steps: seq<Step>, step: Step, t: State)
    requires IsRun(states, steps) && Keyed(t.routes)
    requires Enabled(states[|steps|], step) && t == Next(states[|steps|], step)
    ensures IsRun(states + [t], steps + [step])
  {
    var more, taken := states + [t], steps + [step];
    forall i | 0 <= i < |taken|
      ensures Keyed(more[i].routes) && Enabled(more[i], taken[i]) && more[i + 1] == Next(more[i], taken[i])
    {
      if i < |steps| {
        assert more[i] == states[i] && more[i + 1] == states[i + 1] && taken[i] == steps[i];
      } else {
        assert more[i] == states[|steps|] && more[i + 1] == t && taken[i] == step;
      }
    }
  }

  // ----- What no step changes -----

  ghost predicate SameElements(s: State, t: State) {
    && s.sections.Keys == t.sections.Keys
    && s.switches.Keys == t.switches.Keys
    && s.signals.Keys == t.signals.Keys
    && (forall k :: k in s.sections ==> t.sections[k].station == s.sections[k].station)
    && (forall w :: w in s.switches ==>
          t.switches[w].station == s.switches[w].station && t.switches[w].section == s.switches[w].section)
    && (forall g :: g in s.signals ==> t.signals[g].station == s.signals[g].station)
  }

  ghost predicate SameDefinitions(s: State, t: State) {
    && s.routes.Keys == t.routes.Keys
    && (forall id :: id in s.routes ==> s.routes[id].SameDefinition(t.routes[id]))
  }

  ghost predicate Fixed(s: State, t: State) {
    SameElements(s, t) && SameDefinitions(s, t)
  }

  lemma FixedTransitive(s: State, t: State, u: State)
    requires Fixed(s, t) && Fixed(t, u)
    ensures Fixed(s, u)
  {
  }

  lemma DefinedInBoth(s: State, t: State, r: Route, r': Route)
    requires SameElements(s, t) && r.SameDefinition(r')
    requires Defined(LoadYard(s, r.station), r)
    ensures Defined(LoadYard(t, r'.station), r')
  {
    var y, z := LoadYard(s, r.station), LoadYard(t, r.station);
    assert forall k :: k in y.sections <==> k in z.sections;
    forall w
      ensures w in y.switches <==> w in z.switches
    {
      if w in s.switches {
        assert t.switches[w].station == s.switches[w].station;
      }
    }
    forall g
      ensures g in y.signals <==> g in z.signals
    {
      if g in s.signals {
        assert t.signals[g].station == s.signals[g].station;
      }
    }
  }

  lemma FixedKeepsWellFormed(s: State, t: State)
    requires WellFormed(s) && Fixed(s, t)
    ensures WellFormed(t)
  {
    forall id | id in t.routes
      ensures t.routes[id].id == id && t.routes[id].KeysUnique()
      ensures Defined(LoadYard(t, t.routes[id].station), t.routes[id])
    {
      DefinedInBoth(s, t, s.routes[id], t.routes[id]);
    }
  }

  lemma ReleasedFixed(s: State, r: Route, secs: seq<Id>, sws: seq<Id>, secKind: EventKind, row: Route,
                      signals: map<Id, Signal>, timers: map<Id, Timer>, tail: seq<Event>)
    requires r.id in s.routes && s.routes[r.id].SameDefinition(row)
    requires signals == Closed(s.signals, r.signal) || signals == Protect(s.signals, r.signal, NO_ID)
    ensures Fixed(s, Released(s, r, secs, sws, secKind, row, signals, timers, tail))
  {
  }

  lemma EstablishedFixed(s: State, r: Route, plan: Plan, now: int)
    requires r.id in s.routes && s.routes[r.id] == r
    ensures Fixed(s, EstablishedState(s, r, plan, now))
  {
  }

  lemma RefreshFixed(s: State, r: Route)
    ensures Fixed(s, Refresh(s, r))
    ensures var t := Refresh(s, r);
      t == s.(signals := t.signals, log := t.log)
  {
  }

  lemma {:induction false} RefreshAllFixed(s: State, w: Id, routes: map<Id, Route>, order: seq<Id>)
    requires forall id :: id in order ==> id in routes
    ensures Fixed(s, RefreshAll(s, w, routes, order))
    ensures var t := RefreshAll(s, w, routes, order);
      t == s.(signals := t.signals, log := t.log)
  {
    if order != [] {
      var init, last := order[..|order| - 1], order[|order| - 1];
      RefreshAllFixed(s, w, routes, init);
      RefreshFixed(RefreshAll(s, w, routes, init), routes[last]);
    }
  }

  lemma MovedFixed(s: State, station: Id, train: Id, eff: Effect, owners: seq<Id>)
    requires |owners| == |eff.unlock|
    requires forall id :: id in eff.closeSignals ==> id in s.routes
    ensures Fixed(s, Moved(s, station, train, eff, owners))
  {
  }

  lemma {:induction false} CompleteDueFixed(s: State, now: int, order: seq<Id>)
    requires Keyed(s.routes)
    ensures Fixed(s, CompleteDue(s, now, order).state)
  {
    if order != [] {
      CompleteDueFixed(s, now, order[..|order| - 1]);
      var p := CompleteDue(s, now, order[..|order| - 1]);
      FixedKeepsKeyed(s, p.state);
      CompleteFixed(p.state, order[|order| - 1], now);
    }
  }

  lemma CompleteFixed(s: State, rid: Id, now: int)
    requires Keyed(s.routes)
    ensures Fixed(s, After(s, CompleteTx(s, rid, now)))
  {
    if rid in s.routes {
      var r := s.routes[rid];
      ReleasedFixed(s, r, HeldSecs(s, r), HeldSws(s, r), LockReleased,
                    r.WithState(Cancelled, None, Some(now), None),
                    Protect(s.signals, r.signal, NO_ID), s.timers - {r.id},
                    [RouteEvent(r, DelayUnlockCompleted, NoPayload), RouteEvent(r, DelayUnlockCompleted, NoPayload)]);
    }
  }

  lemma FixedKeepsKeyed(s: State, t: State)
    requires Keyed(s.routes) && Fixed(s, t)
    ensures Keyed(t.routes)
  {
  }

  lemma {:induction false} AllPassesFixed(s: State, now: int, stations: seq<Id>, orders: seq<seq<Id>>)
    requires Keyed(s.routes) && |orders| == |stations|
    ensures Fixed(s, AllPasses(s, now, stations, orders).state)
  {
    if stations != [] {
      var n := |stations| - 1;
      AllPassesFixed(s, now, stations[..n], orders[..n]);
      var b := AllPasses(s, now, stations[..n], orders[..n]).state;
      FixedKeepsKeyed(s, b);
      var c := Corrected(b, stations[n]);
      assert Fixed(b, c);
      FixedKeepsKeyed(b, c);
      CompleteDueFixed(c, now, orders[n]);
    }
  }

  lemma CancelledNowFixed(s: State, r: Route, now: int)
    requires r.id in s.routes && s.routes[r.id].SameDefinition(r)
    ensures Fixed(s, CancelledNow(s, r, now))
  {
    ReleasedFixed(s, r, HeldSecs(s, r), HeldSws(s, r), LockReleased,
                  r.WithState(Cancelled, None, Some(now), None), Closed(s.signals, r.signal), s.timers,
                  [RouteEvent(r, RouteUnlocked, NoPayload),
                   SignalEvent(r, SignalClosed, NoPayload),
                   RouteEvent(r, CancelRequested, ImmediateMode)]);
  }

  lemma FaultUnlockedFixed(s: State, r: Route, now: int)
    requires r.id in s.routes && s.routes[r.id].SameDefinition(r)
    ensures Fixed(s, FaultUnlocked(s, r, now))
  {
    var y := LoadYard(s, r.station);
    ReleasedFixed(s, r, HeldSections(y.sections, r.path, r.id), HeldSwitches(y.switches, r.SwitchIds(), r.id),
                  LockReleased, r.WithState(Cancelled, None, Some(now), None),
                  Closed(s.signals, r.signal), s.timers - {r.id}, []);
  }

  lemma NormallyReleasedFixed(s: State, r: Route)
    requires r.id in s.routes && s.routes[r.id].SameDefinition(r)
    ensures Fixed(s, NormallyReleased(s, r))
  {
    ReleasedFixed(s, r, HeldSecs(s, r), HeldSws(s, r), RouteSectionUnlocked,
                  r.WithState(Unlocked, r.establishedAt, None, None), Closed(s.signals, r.signal), s.timers,
                  [SignalEvent(r, SignalClosed, NoPayload), RouteEvent(r, RouteUnlocked, NoPayload)]);
  }

  lemma CancelStartedFixed(s: State, r: Route, now: int, delay: int)
    requires r.id in s.routes && s.routes[r.id].SameDefinition(r)
    ensures Fixed(s, CancelStarted(s, r, now, delay))
  {
  }

  lemma CancelFixed(s: State, rid: Id, now: int)
    requires Keyed(s.routes)
    ensures Fixed(s, After(s, CancelTx(s, rid, now)))
  {
    var o := CancelTx(s, rid, now);
    if o.Committed? {
      var r := s.routes[rid];
      if o.state == CancelledNow(s, r, now) {
        CancelledNowFixed(s, r, now);
      } else {
        CancelStartedFixed(s, r, now, r.kind.ApproachLockDelay());
      }
    }
  }

  /** The one way establishment commits: the check passed and so did every re-check of a move. */
  ghost predicate EstablishCommits(s: State, rid: Id) {
    rid in s.routes &&
    var r := s.routes[rid];
    var y := LoadYard(s, r.station);
    CheckEstablish(y, r).Ok? && FirstMoveFault(y, Moves(y, r.requirements)).None?
  }

  function StationPlan(s: State, r: Route): Plan {
    PlanOf(LoadYard(s, r.station), r)
  }

  lemma EstablishCases(s: State, rid: Id, now: int)
    ensures EstablishTx(s, rid, now).Committed? <==> EstablishCommits(s, rid)
    ensures EstablishCommits(s, rid) ==>
      EstablishTx(s, rid, now).state == EstablishedState(s, s.routes[rid], StationPlan(s, s.routes[rid]), now)
  {
    if rid in s.routes {
      var r := s.routes[rid];
      CheckEstablishExact(LoadYard(s, r.station), r);
    }
  }

  lemma EstablishFixed(s: State, rid: Id, now: int)
    requires Keyed(s.routes)
    ensures Fixed(s, After(s, EstablishTx(s, rid, now)))
  {
    EstablishCases(s, rid, now);
    if EstablishCommits(s, rid) {
      EstablishedFixed(s, s.routes[rid], StationPlan(s, s.routes[rid]), now);
    }
  }

  lemma IndicateFixed(s: State, w: Id, ok: bool, order: seq<Id>)
    requires w in s.switches ==> OrderFor(s, s.switches[w].station, order)
    ensures Fixed(s, After(s, IndicateTx(s, w, ok, order)))
  {
    if w in s.switches {
      RefreshAllFixed(Indicated(s, w, ok), w, StationRoutes(s, s.switches[w].station), order);
    }
  }

  lemma ReverseFixed(s: State, w: Id)
    ensures Fixed(s, After(s, ReverseTx(s, w)))
  {
  }

  /** No step touches an element's place in the yard or a route's definition; only Define adds a route. */
  lemma NextFixed(s: State, step: Step)
    requires Keyed(s.routes) && Enabled(s, step) && !step.Define?
    ensures Fixed(s, Next(s, step))
  {
    match step {
      case Establish(rid, now) => EstablishFixed(s, rid, now);
      case Cancel(rid, now) => CancelFixed(s, rid, now);
      case Complete(rid, now) => CompleteFixed(s, rid, now);
      case FaultUnlock(rid, now) =>
        if rid in s.routes {
          FaultUnlockedFixed(s, s.routes[rid], now);
        }
      case ReverseSwitch(w) => ReverseFixed(s, w);
      case Indicate(w, ok, order) => IndicateFixed(s, w, ok, order);
      case Train(train, k, entering, c) =>
        if k in s.sections {
          TrainFixed(s, train, k, entering, c);
        }
      case Reconcile(now, stations, orders) => AllPassesFixed(s, now, stations, orders);
    }
  }

  lemma TrainFixed(s: State, train: Id, k: Id, entering: bool, c: Choice)
    requires Keyed(s.routes) && k in s.sections && ChoiceFor(s, k, entering, c)
    ensures Fixed(s, After(s, MoveTx(s, train, k, entering, c)))
  {
    MoveTouchesKnownRoutes(s, k, entering, c);
    var eff := MoveEffect(s, k, entering, c);
    var moved := Moved(s, s.sections[k].station, train, eff, c.owners);
    MovedFixed(s, s.sections[k].station, train, eff, c.owners);
    if eff.complete != NO_ID {
      NormallyReleasedFixed(moved, s.routes[eff.complete]);
    }
  }

  lemma DefineKeepsWellFormed(s: State, r: Route)
    requires WellFormed(s) && r.id != NO_ID
    ensures WellFormed(After(s, DefineTx(s, r)))
  {
    var t := After(s, DefineTx(s, r));
    if t != s {
      forall id | id in t.routes
        ensures Defined(LoadYard(t, t.routes[id].station), t.routes[id])
      {
        if id == r.id {
          DefinedInBoth(s, t, r, t.routes[id]);
        } else {
          DefinedInBoth(s, t, s.routes[id], t.routes[id]);
        }
      }
    }
  }

  /** Referential integrity is kept by every step. */
  lemma NextWellFormed(s: State, step: Step)
    requires WellFormed(s) && Enabled(s, step)
    ensures WellFormed(Next(s, step))
  {
    if step.Define? {
      DefineKeepsWellFormed(s, step.route);
    } else {
      NextFixed(s, step);
      FixedKeepsWellFormed(s, Next(s, step));
    }
  }
}
