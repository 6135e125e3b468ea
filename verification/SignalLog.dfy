/**
 Signals and the log. The logged openings and closings rebuild every stored aspect, with one
 exception: a fault unlock closes the signal without an event.
 */
module SignalLog {
  import opened Model
  import opened RoutePlan
  import opened Interlocking
  import opened TrainOps
  import opened Database
  import opened Steps
  import opened Replay
  import opened Runs
  import opened Requests
  import opened Cancels
  import opened Reuse

  type Board = map<Id, Aspect>

  function Shown(signals: map<Id, Signal>): Board {
    map g | g in signals :: signals[g].aspect
  }

  /** How one event changes what the signals show. */
  function Heard(b: Board, e: Event): Board {
    if e.entity.OfSignal? && e.entity.id in b then
      if e.kind == SignalClosed then b[e.entity.id := Red]
      else if e.kind == SignalOpened && e.payload.Shows? then b[e.entity.id := e.payload.aspect]
      else b
    else b
  }

  function Retold(b: Board, log: seq<Event>): Board {
    if log == [] then b else Heard(Retold(b, log[..|log| - 1]), log[|log| - 1])
  }

  /** `t` extends the log of `s` by events that tell exactly how the aspects changed. */
  ghost predicate Tells(s: State, t: State) {
    s.log <= t.log && Retold(Shown(s.signals), t.log[|s.log|..]) == Shown(t.signals)
  }

  // ----- Folding -----

  lemma {:induction false} RetoldConcat(b: Board, x: seq<Event>, y: seq<Event>)
    ensures Retold(b, x + y) == Retold(Retold(b, x), y)
  {
    if y == [] {
      assert x + y == x;
    } else {
      var n := |y| - 1;
      RetoldConcat(b, x, y[..n]);
      assert (x + y)[..|x + y| - 1] == x + y[..n];
    }
  }

  ghost predicate Mute(events: seq<Event>) {
    forall e :: e in events ==> !e.entity.OfSignal?
  }

  lemma {:induction false} MuteTellsNothing(b: Board, events: seq<Event>)
    requires Mute(events)
    ensures Retold(b, events) == b
  {
    if events != [] {
      assert events[|events| - 1] in events;
      MuteTellsNothing(b, events[..|events| - 1]);
    }
  }

  lemma TellsBy(s: State, t: State, suffix: seq<Event>)
    requires t.log == s.log + suffix
    ensures Tells(s, t) <==> Retold(Shown(s.signals), suffix) == Shown(t.signals)
  {
    assert t.log[|s.log|..] == suffix;
  }

  lemma TellsSame(s: State, t: State)
    requires t.log == s.log && Shown(t.signals) == Shown(s.signals)
    ensures Tells(s, t)
  {
    TellsBy(s, t, []);
  }

  lemma TellsTransitive(s: State, t: State, u: State)
    requires Tells(s, t) && Tells(t, u)
    ensures Tells(s, u)
  {
    var x, y := t.log[|s.log|..], u.log[|t.log|..];
    RetoldConcat(Shown(s.signals), x, y);
    assert u.log == s.log + (x + y);
    TellsBy(s, u, x + y);
  }

  /** A suffix in which one event speaks of a signal. */
  lemma OneSpeaks(b: Board, x: seq<Event>, e: Event, y: seq<Event>)
    requires Mute(x) && Mute(y)
    ensures Retold(b, x + [e] + y) == Heard(b, e)
  {
    RetoldConcat(b, x + [e], y);
    RetoldConcat(b, x, [e]);
    MuteTellsNothing(b, x);
    assert [e][..0] == [];
    assert Retold(b, [e]) == Heard(Retold(b, []), e);
    MuteTellsNothing(Heard(b, e), y);
  }

  // ----- Steps -----

  lemma OneShown(m: map<Id, Signal>, n: map<Id, Signal>, g: Id)
    requires n.Keys == m.Keys && g in m && forall h :: h in m && h != g ==> n[h] == m[h]
    ensures Shown(n) == Shown(m)[g := n[g].aspect]
  {
    forall h | h in m
      ensures h in n && Shown(n)[h] == Shown(m)[g := n[g].aspect][h]
    {
      assert h in n.Keys;
    }
  }

  lemma OpeningTells(s: State, t: State, quiet: seq<Event>, e: Event, g: Id)
    requires Mute(quiet) && t.log == s.log + (quiet + [e])
    requires e.entity == OfSignal(g) && e.kind == SignalOpened && e.payload.Shows?
    requires OnlySignal(s, t, g) && g in s.signals && t.signals[g].aspect == e.payload.aspect
    ensures Tells(s, t)
  {
    OneSpeaks(Shown(s.signals), quiet, e, []);
    assert quiet + [e] + [] == quiet + [e];
    TellsBy(s, t, quiet + [e]);
    OneShown(s.signals, t.signals, g);
  }

  function BeforeOpening(r: Route, plan: Plan): seq<Event> {
    MoveEvents(r.station, plan.moves, r.id) + SwitchEvents(r.station, SwitchLocked, plan.switchLocks, r.id)
    + SectionEvents(r.station, LockSet, plan.sectionLocks, r.id) + [RouteEvent(r, RouteEstablished, NoPayload)]
  }

  lemma SettingEvents(r: Route, plan: Plan, aspect: Aspect)
    requires aspect != Red
    ensures EstablishEvents(r, plan, aspect) == BeforeOpening(r, plan) + [SignalEvent(r, SignalOpened, Shows(aspect))]
    ensures Mute(BeforeOpening(r, plan))
  {
  }

  lemma EstablishTells(s: State, rid: Id, now: int)
    requires WellFormed(s)
    ensures Tells(s, After(s, EstablishTx(s, rid, now)))
  {
    EstablishCases(s, rid, now);
    if EstablishCommits(s, rid) {
      var r := s.routes[rid];
      SetSignal(s, rid, now);
      SettingEvents(r, StationPlan(s, r), OpeningAspect(r));
      OpeningTells(s, EstablishedState(s, r, StationPlan(s, r), now), BeforeOpening(r, StationPlan(s, r)),
                   SignalEvent(r, SignalOpened, Shows(OpeningAspect(r))), r.signal);
    } else {
      TellsSame(s, s);
    }
  }

  lemma ReleasedTells(s: State, r: Route, secs: seq<Id>, sws: seq<Id>, secKind: EventKind, row: Route,
                      signals: map<Id, Signal>, timers: map<Id, Timer>, tail: seq<Event>)
    ensures
      Tells(s, Released(s, r, secs, sws, secKind, row, signals, timers, tail)) <==>
        Retold(Shown(s.signals), tail) == Shown(signals)
  {
    var quiet := SectionEvents(r.station, secKind, secs, r.id) + SwitchEvents(r.station, SwitchReleased, sws, r.id);
    var t := Released(s, r, secs, sws, secKind, row, signals, timers, tail);
    assert t.log == s.log + (quiet + tail);
    RetoldConcat(Shown(s.signals), quiet, tail);
    MuteTellsNothing(Shown(s.signals), quiet);
    TellsBy(s, t, quiet + tail);
  }

  lemma CancelNowTells(s: State, r: Route, now: int)
    ensures Tells(s, CancelledNow(s, r, now))
  {
    var a, closed, b := RouteEvent(r, RouteUnlocked, NoPayload), SignalEvent(r, SignalClosed, NoPayload),
                        RouteEvent(r, CancelRequested, ImmediateMode);
    assert [a] + [closed] + [b] == [a, closed, b];
    OneSpeaks(Shown(s.signals), [a], closed, [b]);
    ReleasedTells(s, r, HeldSecs(s, r), HeldSws(s, r), LockReleased, r.WithState(Cancelled, None, Some(now), None),
                  Closed(s.signals, r.signal), s.timers, [a, closed, b]);
  }

  lemma CancelStartTells(s: State, r: Route, now: int, delay: int)
    ensures Tells(s, CancelStarted(s, r, now, delay))
  {
    var a, b, closed := RouteEvent(r, CancelRequested, TimedMode), RouteEvent(r, DelayUnlockStarted, Delay(delay)),
                        SignalEvent(r, SignalClosed, NoPayload);
    assert [a, b] + [closed] + [] == [a, b, closed];
    OneSpeaks(Shown(s.signals), [a, b], closed, []);
    TellsBy(s, CancelStarted(s, r, now, delay), [a, b, closed]);
  }

  lemma CancelTells(s: State, rid: Id, now: int)
    ensures Tells(s, After(s, CancelTx(s, rid, now)))
  {
    var o := CancelTx(s, rid, now);
    if o.RolledBack? {
      TellsSame(s, s);
    } else {
      var r := s.routes[rid];
      CancelNowTells(s, r, now);
      if !DecideCancel(LoadYard(s, r.station), r).value.Immediate? {
        CancelStartTells(s, r, now, DecideCancel(LoadYard(s, r.station), r).value.delay);
      }
    }
  }

  lemma CompleteTells(s: State, rid: Id, now: int)
    ensures Tells(s, After(s, CompleteTx(s, rid, now)))
  {
    var o := CompleteTx(s, rid, now);
    if o.RolledBack? {
      TellsSame(s, s);
    } else {
      var r := s.routes[rid];
      var e := RouteEvent(r, DelayUnlockCompleted, NoPayload);
      MuteTellsNothing(Shown(s.signals), [e, e]);
      ReleasedTells(s, r, HeldSecs(s, r), HeldSws(s, r), LockReleased, r.WithState(Cancelled, None, Some(now), None),
                    Protect(s.signals, r.signal, NO_ID), s.timers - {r.id}, [e, e]);
    }
  }

  /** The one silent closing. */
  lemma FaultTellsIff(s: State, rid: Id, now: int)
    requires WellFormed(s)
    ensures Tells(s, After(s, FaultTx(s, rid, now))) <==>
      (rid in s.routes && s.routes[rid].signal in s.signals ==> s.signals[s.routes[rid].signal].aspect == Red)
  {
    if rid in s.routes {
      var r := s.routes[rid];
      var y := LoadYard(s, r.station);
      var signals := Closed(s.signals, r.signal);
      ReleasedTells(s, r, HeldSections(y.sections, r.path, r.id), HeldSwitches(y.switches, r.SwitchIds(), r.id),
                    LockReleased, r.WithState(Cancelled, None, Some(now), None), signals, s.timers - {r.id}, []);
      if r.signal in s.signals {
        assert Shown(signals)[r.signal] == Red && Shown(s.signals)[r.signal] == s.signals[r.signal].aspect;
        assert s.signals[r.signal].aspect == Red ==> Shown(signals) == Shown(s.signals);
      }
    } else {
      TellsSame(s, s);
    }
  }

  lemma RefreshTells(s: State, r: Route)
    ensures Tells(s, Refresh(s, r))
  {
    var t := Refresh(s, r);
    if t == s {
      TellsSame(s, s);
    } else {
      var e := t.log[|t.log| - 1];
      assert [] + [e] + [] == [e];
      OneSpeaks(Shown(s.signals), [], e, []);
      TellsBy(s, t, [e]);
    }
  }

  lemma {:induction false} RefreshAllTells(s: State, w: Id, routes: map<Id, Route>, order: seq<Id>)
    requires forall id :: id in order ==> id in routes
    ensures Tells(s, RefreshAll(s, w, routes, order))
  {
    if order == [] {
      TellsSame(s, s);
    } else {
      var init, last := order[..|order| - 1], order[|order| - 1];
      assert order == init + [last];
      var m := RefreshAll(s, w, routes, init);
      var r := routes[last];
      RefreshAllTells(s, w, routes, init);
      RefreshTells(m, r);
      if r.state.IsLocked() && r.UsesSwitch(w) {
        TellsTransitive(s, m, Refresh(m, r));
      }
    }
  }

  lemma QuietTells(s: State, t: State, suffix: seq<Event>)
    requires t.log == s.log + suffix && Mute(suffix) && t.signals == s.signals
    ensures Tells(s, t)
  {
    MuteTellsNothing(Shown(s.signals), suffix);
    TellsBy(s, t, suffix);
  }

  lemma IndicatedTells(s: State, w: Id, ok: bool)
    requires w in s.switches
    ensures Tells(s, Indicated(s, w, ok))
  {
    var m := Indicated(s, w, ok);
    QuietTells(s, m, [m.log[|m.log| - 1]]);
  }

  lemma ReverseTells(s: State, w: Id)
    ensures Tells(s, After(s, ReverseTx(s, w)))
  {
    ReverseAnswers(s, w);
    var t := After(s, ReverseTx(s, w));
    QuietTells(s, t, t.log[|s.log|..]);
  }

  lemma IndicateTells(s: State, w: Id, ok: bool, order: seq<Id>)
    requires w in s.switches ==> OrderFor(s, s.switches[w].station, order)
    ensures Tells(s, After(s, IndicateTx(s, w, ok, order)))
  {
    if w !in s.switches || s.switches[w].indicated == ok {
      TellsSame(s, s);
    } else {
      var m := Indicated(s, w, ok);
      var routes := StationRoutes(s, s.switches[w].station);
      IndicatedTells(s, w, ok);
      RefreshAllTells(m, w, routes, order);
      TellsTransitive(s, m, RefreshAll(m, w, routes, order));
    }
  }

  lemma OneMoreClosed(signals: map<Id, Signal>, routes: map<Id, Route>, init: seq<Id>, last: Id)
    requires last in routes
    ensures
      var before, after := CloseSignals(signals, routes, init), CloseSignals(signals, routes, init + [last]);
      Shown(after) == if routes[last].signal in before then Shown(before)[routes[last].signal := Red] else Shown(before)
  {
    var before, after := CloseSignals(signals, routes, init), CloseSignals(signals, routes, init + [last]);
    assert forall id :: id in init + [last] <==> id in init || id == last;
    forall g | g in signals
      ensures after[g].aspect == if g == routes[last].signal then Red else before[g].aspect
    {
      if g == routes[last].signal {
        assert last in init + [last];
      }
    }
  }

  lemma {:induction false} ClosingsTell(signals: map<Id, Signal>, station: Id, routes: map<Id, Route>, ids: seq<Id>)
    requires forall id :: id in ids ==> id in routes
    ensures Retold(Shown(signals), CloseEvents(station, routes, ids)) == Shown(CloseSignals(signals, routes, ids))
  {
    if ids == [] {
      assert Shown(CloseSignals(signals, routes, ids)) == Shown(signals);
    } else {
      var init, last := ids[..|ids| - 1], ids[|ids| - 1];
      assert ids == init + [last];
      var events := CloseEvents(station, routes, ids);
      ClosingsTell(signals, station, routes, init);
      assert events[..|events| - 1] == CloseEvents(station, routes, init);
      OneMoreClosed(signals, routes, init, last);
    }
  }

  lemma MovedTells(s: State, station: Id, train: Id, eff: Effect, owners: seq<Id>)
    requires |owners| == |eff.unlock|
    requires forall id :: id in eff.closeSignals ==> id in s.routes
    ensures Tells(s, Moved(s, station, train, eff, owners))
  {
    var b := Shown(s.signals);
    var front := [Event(station, if eff.nowOccupied then SectionOccupied else SectionCleared,
                        OfSection(eff.section), NO_ID, ByTrain(train))]
      + if eff.approachLock in s.routes
        then [Event(station, LockSet, OfRoute(eff.approachLock), eff.approachLock, ApproachNote)] else [];
    var mid := CloseEvents(station, s.routes, eff.closeSignals);
    var rear := ReleaseEvents(station, eff.unlock, owners);
    RetoldConcat(b, front + mid, rear);
    RetoldConcat(b, front, mid);
    MuteTellsNothing(b, front);
    ClosingsTell(s.signals, station, s.routes, eff.closeSignals);
    MuteTellsNothing(Retold(b, mid), rear);
    assert MoveEventsOf(s, station, eff.section, train, eff, owners) == front + mid + rear;
    TellsBy(s, Moved(s, station, train, eff, owners), front + mid + rear);
  }

  lemma NormalReleaseTells(m: State, r: Route)
    ensures Tells(m, NormallyReleased(m, r))
  {
    var closed, last := SignalEvent(r, SignalClosed, NoPayload), RouteEvent(r, RouteUnlocked, NoPayload);
    assert [] + [closed] + [last] == [closed, last];
    OneSpeaks(Shown(m.signals), [], closed, [last]);
    ReleasedTells(m, r, HeldSecs(m, r), HeldSws(m, r), RouteSectionUnlocked,
                  r.WithState(Unlocked, r.establishedAt, None, None), Closed(m.signals, r.signal), m.timers,
                  [closed, last]);
  }

  lemma TrainTells(s: State, train: Id, k: Id, entering: bool, c: Choice)
    requires Keyed(s.routes) && ChoiceFor(s, k, entering, c)
    ensures Tells(s, After(s, MoveTx(s, train, k, entering, c)))
  {
    if k !in s.sections {
      TellsSame(s, s);
    } else {
      MoveTouchesKnownRoutes(s, k, entering, c);
      var eff := MoveEffect(s, k, entering, c);
      var m := Moved(s, s.sections[k].station, train, eff, c.owners);
      MovedTells(s, s.sections[k].station, train, eff, c.owners);
      if eff.complete != NO_ID {
        NormalReleaseTells(m, s.routes[eff.complete]);
        TellsTransitive(s, m, NormallyReleased(m, s.routes[eff.complete]));
      }
    }
  }

  lemma {:induction false} CompleteDueTells(s: State, now: int, order: seq<Id>)
    ensures Tells(s, CompleteDue(s, now, order).state)
  {
    if order == [] {
      TellsSame(s, s);
    } else {
      var init, last := order[..|order| - 1], order[|order| - 1];
      CompleteDueTells(s, now, init);
      var m := CompleteDue(s, now, init).state;
      CompleteTells(m, last, now);
      if CompleteDue(s, now, order).state != m {
        TellsTransitive(s, m, After(m, CompleteTx(m, last, now)));
      }
    }
  }

  lemma {:induction false} RestartTells(s: State, now: int, stations: seq<Id>, orders: seq<seq<Id>>)
    requires |orders| == |stations|
    ensures Tells(s, AllPasses(s, now, stations, orders).state)
  {
    if stations == [] {
      TellsSame(s, s);
    } else {
      var n := |stations| - 1;
      RestartTells(s, now, stations[..n], orders[..n]);
      var b := AllPasses(s, now, stations[..n], orders[..n]).state;
      var c := Corrected(b, stations[n]);
      TellsSame(b, c);
      CompleteDueTells(c, now, orders[n]);
      TellsTransitive(b, c, CompleteDue(c, now, orders[n]).state);
      TellsTransitive(s, b, CompleteDue(c, now, orders[n]).state);
    }
  }

  /** The step closes a permissive signal without saying so. */
  ghost predicate ClosesSilently(s: State, step: Step) {
    step.FaultUnlock? && step.rid in s.routes && s.routes[step.rid].signal in s.signals
    && s.signals[s.routes[step.rid].signal].aspect != Red
  }

  /** Main result, one step: the log tells every change of aspect except a fault unlock at a permissive signal. */
  lemma NextTellsIff(s: State, step: Step)
    requires WellFormed(s) && Enabled(s, step)
    ensures Tells(s, Next(s, step)) <==> !ClosesSilently(s, step)
  {
    match step {
      case Define(r) => TellsSame(s, Next(s, step));
      case Establish(rid, now) => EstablishTells(s, rid, now);
      case Cancel(rid, now) => CancelTells(s, rid, now);
      case Complete(rid, now) => CompleteTells(s, rid, now);
      case FaultUnlock(rid, now) => FaultTellsIff(s, rid, now);
      case ReverseSwitch(w) => ReverseTells(s, w);
      case Indicate(w, ok, order) => IndicateTells(s, w, ok, order);
      case Train(train, k, entering, c) => TrainTells(s, train, k, entering, c);
      case Reconcile(now, stations, orders) => RestartTells(s, now, stations, orders);
    }
  }

  /** Main result: over any run without such a step the log rebuilds what every signal shows. */
  lemma {:induction false} LogShowsSignals(states: seq<State>, steps: seq<Step>)
    requires IsRun(states, steps) && WellFormed(states[0])
    requires forall i :: 0 <= i < |steps| ==> !ClosesSilently(states[i], steps[i])
    ensures WellFormed(states[|steps|]) && Tells(states[0], states[|steps|])
  {
    if steps == [] {
      TellsSame(states[0], states[0]);
    } else {
      var n := |steps| - 1;
      LogShowsSignals(states[..n + 1], steps[..n]);
      NextTellsIff(states[n], steps[n]);
      NextWellFormed(states[n], steps[n]);
      TellsTransitive(states[0], states[n], states[n + 1]);
    }
  }
}
