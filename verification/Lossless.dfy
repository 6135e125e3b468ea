/**
 The event log is lossless for the yard elements: a fold over it from the initial rows rebuilds
 each section's lock, holder and occupancy and each switch's lock, holder, position and
 indication. This holds on every run, restarts included.
 */
module Lossless {
  import opened Model
  import opened RoutePlan
  import opened Interlocking
  import opened TrainOps
  import opened Database
  import opened Steps
  import opened Replay
  import opened Runs

  datatype Elements = Elements(sections: map<Id, Section>, switches: map<Id, Switch>)

  function ElementsOf(s: State): Elements {
    Elements(s.sections, s.switches)
  }

  function AbsorbSection(sec: Section, ev: Event): Section {
    match ev.kind
    case LockSet => sec.(locked := true, holder := ev.route)
    case LockReleased | RouteSectionUnlocked => sec.(locked := false, holder := NO_ID)
    case SectionOccupied =>
      sec.(occupied := true, train := if ev.payload.ByTrain? then ev.payload.train else NO_ID)
    case SectionCleared => sec.(occupied := false, train := NO_ID)
    case _ => sec
  }

  function AbsorbSwitch(sw: Switch, ev: Event): Switch {
    match ev.kind
    case SwitchLocked => sw.(locked := true, holder := ev.route)
    case SwitchReleased => sw.(locked := false, holder := NO_ID)
    case SwitchReversed => if ev.payload.MovedTo? then sw.(position := ev.payload.position) else sw
    case IndicationLost => sw.(indicated := false)
    case IndicationRestored => sw.(indicated := true)
    case _ => sw
  }

  /** How one event changes the elements; events about signals and routes change none. */
  function Absorb(e: Elements, ev: Event): Elements {
    match ev.entity
    case OfSection(k) =>
      if k in e.sections then e.(sections := e.sections[k := AbsorbSection(e.sections[k], ev)]) else e
    case OfSwitch(w) =>
      if w in e.switches then e.(switches := e.switches[w := AbsorbSwitch(e.switches[w], ev)]) else e
    case OfSignal(_) => e
    case OfRoute(_) => e
  }

  function Rebuild(e: Elements, log: seq<Event>): Elements {
    if log == [] then e
    else Absorb(Rebuild(e, log[..|log| - 1]), log[|log| - 1])
  }

  lemma {:induction false} RebuildConcat(e: Elements, a: seq<Event>, b: seq<Event>)
    ensures Rebuild(e, a + b) == Rebuild(Rebuild(e, a), b)
  {
    if b == [] {
      assert a + b == a;
    } else {
      var n := |b| - 1;
      RebuildConcat(e, a, b[..n]);
      assert (a + b)[..|a + b| - 1] == a + b[..n];
    }
  }

  ghost predicate AboutOthers(events: seq<Event>) {
    forall ev :: ev in events ==> !ev.entity.OfSection? && !ev.entity.OfSwitch?
  }

  lemma {:induction false} OthersChangeNothing(e: Elements, events: seq<Event>)
    requires AboutOthers(events)
    ensures Rebuild(e, events) == e
  {
    if events != [] {
      assert events[|events| - 1] in events;
      OthersChangeNothing(e, events[..|events| - 1]);
    }
  }

  // ----- One lemma per bulk update -----

  lemma {:induction false} RebuildLocks(e: Elements, station: Id, ids: seq<Id>, rid: Id)
    ensures Rebuild(e, SectionEvents(station, LockSet, ids, rid)) == e.(sections := LockSections(e.sections, ids, rid))
  {
    var events := SectionEvents(station, LockSet, ids, rid);
    if ids == [] {
      assert LockSections(e.sections, ids, rid) == e.sections;
    } else {
      var n := |ids| - 1;
      RebuildLocks(e, station, ids[..n], rid);
      assert events[..n] == SectionEvents(station, LockSet, ids[..n], rid);
      assert ids == ids[..n] + [ids[n]];
      var before := LockSections(e.sections, ids[..n], rid);
      assert LockSections(e.sections, ids, rid) ==
        if ids[n] in before then before[ids[n] := before[ids[n]].(locked := true, holder := rid)] else before;
    }
  }

  lemma {:induction false} RebuildUnlocks(e: Elements, events: seq<Event>, ids: seq<Id>)
    requires |events| == |ids|
    requires forall i :: 0 <= i < |ids| ==>
      events[i].entity == OfSection(ids[i])
        && (events[i].kind == LockReleased || events[i].kind == RouteSectionUnlocked)
    ensures Rebuild(e, events) == e.(sections := UnlockSections(e.sections, ids))
  {
    if ids == [] {
      assert UnlockSections(e.sections, ids) == e.sections;
    } else {
      var n := |ids| - 1;
      RebuildUnlocks(e, events[..n], ids[..n]);
      assert ids == ids[..n] + [ids[n]];
      var before := UnlockSections(e.sections, ids[..n]);
      assert UnlockSections(e.sections, ids) ==
        if ids[n] in before then before[ids[n] := before[ids[n]].(locked := false, holder := NO_ID)] else before;
    }
  }

  lemma {:induction false} RebuildSwitchLocks(e: Elements, station: Id, ids: seq<Id>, rid: Id)
    ensures Rebuild(e, SwitchEvents(station, SwitchLocked, ids, rid))
      == e.(switches := LockSwitches(e.switches, ids, rid))
  {
    var events := SwitchEvents(station, SwitchLocked, ids, rid);
    if ids == [] {
      assert LockSwitches(e.switches, ids, rid) == e.switches;
    } else {
      var n := |ids| - 1;
      RebuildSwitchLocks(e, station, ids[..n], rid);
      assert events[..n] == SwitchEvents(station, SwitchLocked, ids[..n], rid);
      assert ids == ids[..n] + [ids[n]];
      var before := LockSwitches(e.switches, ids[..n], rid);
      assert LockSwitches(e.switches, ids, rid) ==
        if ids[n] in before then before[ids[n] := before[ids[n]].(locked := true, holder := rid)] else before;
    }
  }

  lemma {:induction false} RebuildSwitchUnlocks(e: Elements, station: Id, ids: seq<Id>, rid: Id)
    ensures Rebuild(e, SwitchEvents(station, SwitchReleased, ids, rid))
      == e.(switches := UnlockSwitches(e.switches, ids))
  {
    var events := SwitchEvents(station, SwitchReleased, ids, rid);
    if ids == [] {
      assert UnlockSwitches(e.switches, ids) == e.switches;
    } else {
      var n := |ids| - 1;
      RebuildSwitchUnlocks(e, station, ids[..n], rid);
      assert events[..n] == SwitchEvents(station, SwitchReleased, ids[..n], rid);
      assert ids == ids[..n] + [ids[n]];
      var before := UnlockSwitches(e.switches, ids[..n]);
      assert UnlockSwitches(e.switches, ids) ==
        if ids[n] in before then before[ids[n] := before[ids[n]].(locked := false, holder := NO_ID)] else before;
    }
  }

  lemma {:induction false} RebuildMoves(e: Elements, station: Id, moves: seq<Requirement>, rid: Id)
    requires DistinctMoves(moves)
    ensures Rebuild(e, MoveEvents(station, moves, rid)) == e.(switches := MoveSwitches(e.switches, moves))
  {
    var events := MoveEvents(station, moves, rid);
    if moves == [] {
      assert MoveSwitches(e.switches, moves) == e.switches;
    } else {
      var n := |moves| - 1;
      RebuildMoves(e, station, moves[..n], rid);
      assert events[..n] == MoveEvents(station, moves[..n], rid);
      MoveLast(e.switches, moves);
    }
  }

  // ----- One lemma per step -----

  /** `t` extends the log of `s` by events that describe exactly the change of elements. */
  ghost predicate Faithful(s: State, t: State) {
    && s.log <= t.log
    && Rebuild(ElementsOf(s), t.log[|s.log|..]) == ElementsOf(t)
  }

  lemma FaithfulBy(s: State, t: State, suffix: seq<Event>)
    requires t.log == s.log + suffix && Rebuild(ElementsOf(s), suffix) == ElementsOf(t)
    ensures Faithful(s, t)
  {
    assert t.log[|s.log|..] == suffix;
  }

  lemma FaithfulTransitive(s: State, t: State, u: State)
    requires Faithful(s, t) && Faithful(t, u)
    ensures Faithful(s, u)
  {
    var a, b := t.log[|s.log|..], u.log[|t.log|..];
    RebuildConcat(ElementsOf(s), a, b);
    assert u.log == s.log + (a + b);
    FaithfulBy(s, u, a + b);
  }

  lemma FaithfulSame(s: State, t: State)
    requires t.log == s.log && ElementsOf(t) == ElementsOf(s)
    ensures Faithful(s, t)
  {
    FaithfulBy(s, t, []);
  }

  lemma RebuildEstablish(e: Elements, station: Id, plan: Plan, rid: Id)
    requires DistinctMoves(plan.moves)
    ensures
      var events := MoveEvents(station, plan.moves, rid)
        + SwitchEvents(station, SwitchLocked, plan.switchLocks, rid)
        + SectionEvents(station, LockSet, plan.sectionLocks, rid);
      Rebuild(e, events) ==
        Elements(LockSections(e.sections, plan.sectionLocks, rid),
                 LockSwitches(MoveSwitches(e.switches, plan.moves), plan.switchLocks, rid))
  {
    var a := MoveEvents(station, plan.moves, rid);
    var b := SwitchEvents(station, SwitchLocked, plan.switchLocks, rid);
    var c := SectionEvents(station, LockSet, plan.sectionLocks, rid);
    RebuildConcat(e, a + b, c);
    RebuildConcat(e, a, b);
    RebuildMoves(e, station, plan.moves, rid);
    var e1 := e.(switches := MoveSwitches(e.switches, plan.moves));
    RebuildSwitchLocks(e1, station, plan.switchLocks, rid);
    var e2 := e1.(switches := LockSwitches(e1.switches, plan.switchLocks, rid));
    RebuildLocks(e2, station, plan.sectionLocks, rid);
  }

  lemma EstablishLogged(s: State, r: Route, plan: Plan, aspect: Aspect, t: State)
    requires DistinctMoves(plan.moves)
    requires t.sections == LockSections(s.sections, plan.sectionLocks, r.id)
    requires t.switches == EstablishedSwitches(s, r, plan)
    requires t.log == s.log + EstablishEvents(r, plan, aspect)
    ensures Faithful(s, t)
  {
    var locks := MoveEvents(r.station, plan.moves, r.id)
      + SwitchEvents(r.station, SwitchLocked, plan.switchLocks, r.id)
      + SectionEvents(r.station, LockSet, plan.sectionLocks, r.id);
    var d := [RouteEvent(r, RouteEstablished, NoPayload)]
      + if aspect != Red then [SignalEvent(r, SignalOpened, Shows(aspect))] else [];
    RebuildEstablish(ElementsOf(s), r.station, plan, r.id);
    OthersChangeNothing(ElementsOf(t), d);
    RebuildConcat(ElementsOf(s), locks, d);
    assert EstablishEvents(r, plan, aspect) == locks + d;
    FaithfulBy(s, t, locks + d);
  }

  lemma EstablishFaithful(s: State, rid: Id, now: int)
    requires Keyed(s.routes) && EstablishCommits(s, rid)
    ensures Faithful(s, EstablishedState(s, s.routes[rid], StationPlan(s, s.routes[rid]), now))
  {
    var r := s.routes[rid];
    var plan := StationPlan(s, r);
    MovesDistinct(LoadYard(s, r.station), r.requirements);
    EstablishLogged(s, r, plan, OpenAspect(s, r, plan), EstablishedState(s, r, plan, now));
  }

  lemma Chain4(e: Elements, a: seq<Event>, b: seq<Event>, c: seq<Event>, d: seq<Event>)
    ensures Rebuild(e, a + b + c + d) == Rebuild(Rebuild(Rebuild(Rebuild(e, a), b), c), d)
  {
    RebuildConcat(e, a + b + c, d);
    RebuildConcat(e, a + b, c);
    RebuildConcat(e, a, b);
  }

  lemma ReleasedFaithful(s: State, r: Route, secs: seq<Id>, sws: seq<Id>, secKind: EventKind, row: Route,
                         signals: map<Id, Signal>, timers: map<Id, Timer>, tail: seq<Event>)
    requires secKind == LockReleased || secKind == RouteSectionUnlocked
    requires AboutOthers(tail)
    ensures Faithful(s, Released(s, r, secs, sws, secKind, row, signals, timers, tail))
  {
    var t := Released(s, r, secs, sws, secKind, row, signals, timers, tail);
    var e0 := ElementsOf(s);
    var a := SectionEvents(r.station, secKind, secs, r.id);
    var b := SwitchEvents(r.station, SwitchReleased, sws, r.id);
    RebuildUnlocks(e0, a, secs);
    var e1 := e0.(sections := UnlockSections(e0.sections, secs));
    RebuildSwitchUnlocks(e1, r.station, sws, r.id);
    var e2 := e1.(switches := UnlockSwitches(e1.switches, sws));
    OthersChangeNothing(e2, tail);
    Chain4(e0, a, b, tail, []);
    assert a + b + tail + [] == a + b + tail;
    assert t.log == s.log + (a + b + tail);
    FaithfulBy(s, t, a + b + tail);
  }

  lemma CancelFaithful(s: State, rid: Id, now: int)
    ensures Faithful(s, After(s, CancelTx(s, rid, now)))
  {
    var o := CancelTx(s, rid, now);
    if o.RolledBack? {
      FaithfulSame(s, s);
    } else {
      var r := s.routes[rid];
      if DecideCancel(LoadYard(s, r.station), r).value.Immediate? {
        ReleasedFaithful(s, r, HeldSecs(s, r), HeldSws(s, r), LockReleased,
                         r.WithState(Cancelled, None, Some(now), None), Closed(s.signals, r.signal), s.timers,
                         [RouteEvent(r, RouteUnlocked, NoPayload),
                          SignalEvent(r, SignalClosed, NoPayload),
                          RouteEvent(r, CancelRequested, ImmediateMode)]);
      } else {
        var delay := r.kind.ApproachLockDelay();
        var tail := [RouteEvent(r, CancelRequested, TimedMode), RouteEvent(r, DelayUnlockStarted, Delay(delay)),
                     SignalEvent(r, SignalClosed, NoPayload)];
        OthersChangeNothing(ElementsOf(s), tail);
        FaithfulBy(s, CancelStarted(s, r, now, delay), tail);
      }
    }
  }

  lemma CompleteFaithful(s: State, rid: Id, now: int)
    ensures Faithful(s, After(s, CompleteTx(s, rid, now)))
  {
    var o := CompleteTx(s, rid, now);
    if o.RolledBack? {
      FaithfulSame(s, s);
    } else {
      var r := s.routes[rid];
      ReleasedFaithful(s, r, HeldSecs(s, r), HeldSws(s, r), LockReleased,
                       r.WithState(Cancelled, None, Some(now), None),
                       Protect(s.signals, r.signal, NO_ID), s.timers - {r.id},
                       [RouteEvent(r, DelayUnlockCompleted, NoPayload),
                           RouteEvent(r, DelayUnlockCompleted, NoPayload)]);
    }
  }

  lemma FaultFaithful(s: State, rid: Id, now: int)
    ensures Faithful(s, After(s, FaultTx(s, rid, now)))
  {
    if rid in s.routes {
      var r := s.routes[rid];
      var y := LoadYard(s, r.station);
      ReleasedFaithful(s, r, HeldSections(y.sections, r.path, r.id), HeldSwitches(y.switches, r.SwitchIds(), r.id),
                       LockReleased, r.WithState(Cancelled, None, Some(now), None),
                       Closed(s.signals, r.signal), s.timers - {r.id}, []);
    } else {
      FaithfulSame(s, s);
    }
  }

  lemma ReverseFaithful(s: State, w: Id)
    ensures Faithful(s, After(s, ReverseTx(s, w)))
  {
    var o := ReverseTx(s, w);
    if o.RolledBack? {
      FaithfulSame(s, s);
    } else {
      var move := Requirement(w, s.switches[w].position.Opposite());
      RebuildMoves(ElementsOf(s), s.switches[w].station, [move], NO_ID);
      assert MoveSwitches(s.switches, [move]) == o.state.switches;
      FaithfulBy(s, o.state, MoveEvents(s.switches[w].station, [move], NO_ID));
    }
  }

  lemma RefreshFaithful(s: State, r: Route)
    ensures Faithful(s, Refresh(s, r))
  {
    var t := Refresh(s, r);
    if t == s {
      FaithfulSame(s, s);
    } else {
      var e := t.log[|t.log| - 1];
      OthersChangeNothing(ElementsOf(s), [e]);
      FaithfulBy(s, t, [e]);
    }
  }

  lemma {:induction false} RefreshAllFaithful(s: State, w: Id, routes: map<Id, Route>, order: seq<Id>)
    requires forall id :: id in order ==> id in routes
    ensures Faithful(s, RefreshAll(s, w, routes, order))
  {
    if order == [] {
      FaithfulSame(s, s);
    } else {
      var init, last := order[..|order| - 1], order[|order| - 1];
      RefreshAllFaithful(s, w, routes, init);
      var m := RefreshAll(s, w, routes, init);
      var r := routes[last];
      if r.state.IsLocked() && r.UsesSwitch(w) {
        RefreshFaithful(m, r);
        FaithfulTransitive(s, m, Refresh(m, r));
      }
    }
  }

  lemma IndicatedFaithful(s: State, w: Id, ok: bool)
    requires w in s.switches
    ensures Faithful(s, Indicated(s, w, ok))
  {
    var t := Indicated(s, w, ok);
    var e := t.log[|t.log| - 1];
    assert [e][..0] == [];
    assert Rebuild(ElementsOf(s), [e]) == Absorb(ElementsOf(s), e);
    FaithfulBy(s, t, [e]);
  }

  lemma IndicateFaithful(s: State, w: Id, ok: bool, order: seq<Id>)
    requires w in s.switches ==> OrderFor(s, s.switches[w].station, order)
    ensures Faithful(s, After(s, IndicateTx(s, w, ok, order)))
  {
    if w !in s.switches || s.switches[w].indicated == ok {
      FaithfulSame(s, s);
    } else {
      var m := Indicated(s, w, ok);
      IndicatedFaithful(s, w, ok);
      RefreshAllFaithful(m, w, StationRoutes(s, s.switches[w].station), order);
      FaithfulTransitive(s, m, RefreshAll(m, w, StationRoutes(s, s.switches[w].station), order));
    }
  }

  lemma MovedFaithful(s: State, station: Id, train: Id, eff: Effect, owners: seq<Id>)
    requires |owners| == |eff.unlock|
    requires forall id :: id in eff.closeSignals ==> id in s.routes
    ensures Faithful(s, Moved(s, station, train, eff, owners))
  {
    var t := Moved(s, station, train, eff, owners);
    var k := eff.section;
    var e0 := ElementsOf(s);
    var a := [Event(station, if eff.nowOccupied then SectionOccupied else SectionCleared,
      OfSection(k), NO_ID, ByTrain(train))];
    var b := if eff.approachLock in s.routes
             then [Event(station, LockSet, OfRoute(eff.approachLock), eff.approachLock, ApproachNote)] else [];
    var c := CloseEvents(station, s.routes, eff.closeSignals);
    var d := ReleaseEvents(station, eff.unlock, owners);
    assert a[..0] == [];
    var e1 := Elements(Occupy(s.sections, k, eff.nowOccupied, train), s.switches);
    assert Rebuild(e0, a) == Absorb(e0, a[0]) == e1;
    OthersChangeNothing(e1, b);
    OthersChangeNothing(e1, c);
    RebuildUnlocks(e1, d, eff.unlock);
    Chain4(e0, a, b, c, d);
    assert MoveEventsOf(s, station, k, train, eff, owners) == a + b + c + d;
    FaithfulBy(s, t, a + b + c + d);
  }

  lemma TrainFaithful(s: State, train: Id, k: Id, entering: bool, c: Choice)
    requires Keyed(s.routes) && ChoiceFor(s, k, entering, c)
    ensures Faithful(s, After(s, MoveTx(s, train, k, entering, c)))
  {
    if k !in s.sections {
      FaithfulSame(s, s);
    } else {
      MoveTouchesKnownRoutes(s, k, entering, c);
      var eff := MoveEffect(s, k, entering, c);
      var station := s.sections[k].station;
      var m := Moved(s, station, train, eff, c.owners);
      MovedFaithful(s, station, train, eff, c.owners);
      if eff.complete != NO_ID {
        var r := s.routes[eff.complete];
        ReleasedFaithful(m, r, HeldSecs(m, r), HeldSws(m, r), RouteSectionUnlocked,
                         r.WithState(Unlocked, r.establishedAt, None, None), Closed(m.signals, r.signal), m.timers,
                         [SignalEvent(r, SignalClosed, NoPayload), RouteEvent(r, RouteUnlocked, NoPayload)]);
        FaithfulTransitive(s, m, NormallyReleased(m, r));
      }
    }
  }

  lemma {:induction false} CompleteDueFaithful(s: State, now: int, order: seq<Id>)
    ensures Faithful(s, CompleteDue(s, now, order).state)
  {
    if order == [] {
      FaithfulSame(s, s);
    } else {
      var init, last := order[..|order| - 1], order[|order| - 1];
      CompleteDueFaithful(s, now, init);
      var m := CompleteDue(s, now, init).state;
      CompleteFaithful(m, last, now);
      if CompleteDue(s, now, order).state != m {
        FaithfulTransitive(s, m, After(m, CompleteTx(m, last, now)));
      }
    }
  }

  lemma {:induction false} ReconcileFaithful(s: State, now: int, stations: seq<Id>, orders: seq<seq<Id>>)
    requires |orders| == |stations|
    ensures Faithful(s, AllPasses(s, now, stations, orders).state)
  {
    if stations == [] {
      FaithfulSame(s, s);
    } else {
      var n := |stations| - 1;
      ReconcileFaithful(s, now, stations[..n], orders[..n]);
      var b := AllPasses(s, now, stations[..n], orders[..n]).state;
      var c := Corrected(b, stations[n]);
      FaithfulSame(b, c);
      CompleteDueFaithful(c, now, orders[n]);
      FaithfulTransitive(b, c, CompleteDue(c, now, orders[n]).state);
      FaithfulTransitive(s, b, CompleteDue(c, now, orders[n]).state);
    }
  }

  lemma EstablishTxFaithful(s: State, rid: Id, now: int)
    requires Keyed(s.routes)
    ensures Faithful(s, After(s, EstablishTx(s, rid, now)))
  {
    EstablishCases(s, rid, now);
    if EstablishCommits(s, rid) {
      EstablishFaithful(s, rid, now);
    } else {
      FaithfulSame(s, s);
    }
  }

  /** Every step logs exactly what it does to the elements. */
  lemma NextFaithful(s: State, step: Step)
    requires Keyed(s.routes) && Enabled(s, step)
    ensures Faithful(s, Next(s, step))
  {
    match step {
      case Define(r) => FaithfulSame(s, Next(s, step));
      case Establish(rid, now) => EstablishTxFaithful(s, rid, now);
      case Cancel(rid, now) => CancelFaithful(s, rid, now);
      case Complete(rid, now) => CompleteFaithful(s, rid, now);
      case FaultUnlock(rid, now) => FaultFaithful(s, rid, now);
      case ReverseSwitch(w) => ReverseFaithful(s, w);
      case Indicate(w, ok, order) => IndicateFaithful(s, w, ok, order);
      case Train(train, k, entering, c) => TrainFaithful(s, train, k, entering, c);
      case Reconcile(now, stations, orders) => ReconcileFaithful(s, now, stations, orders);
    }
  }

  /** Main result: from any initial rows and log, the events of the run rebuild the elements. */
  lemma {:induction false} LogIsLossless(states: seq<State>, steps: seq<Step>)
    requires IsRun(states, steps)
    ensures Faithful(states[0], states[|steps|])
  {
    if steps == [] {
      FaithfulSame(states[0], states[0]);
    } else {
      var n := |steps| - 1;
      LogIsLossless(states[..n + 1], steps[..n]);
      NextFaithful(states[n], steps[n]);
      FaithfulTransitive(states[0], states[n], states[n + 1]);
    }
  }
}
