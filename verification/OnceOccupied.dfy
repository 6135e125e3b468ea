/**
 On disciplined runs a locked route's once-occupied set is exactly the set of its sections a train
 has entered since the route was last established; a route without locks has none.
 */
module OnceOccupied {
  import opened Model
  import opened RoutePlan
  import opened Interlocking
  import opened TrainOps
  import opened Database
  import opened Steps
  import opened Runs
  import opened Exclusion
  import opened TrainEffects

  /** Sections of `path` occupied by a logged move after the last establishment of the route. */
  function EnteredSince(log: seq<Event>, rid: Id, path: seq<Id>): set<Id> {
    if log == [] then {}
    else
      var last := log[|log| - 1];
      var before := EnteredSince(log[..|log| - 1], rid, path);
      if last.kind == RouteEstablished && last.route == rid then {}
      else if last.kind == SectionOccupied && last.entity.OfSection? && last.entity.id in path
        then before + {last.entity.id}
      else before
  }

  ghost predicate OnceExactFor(s: State, rid: Id) {
    OnceOf(s.once, rid) == if IsLockedRoute(s, rid) then EnteredSince(s.log, rid, s.routes[rid].path) else {}
  }

  ghost predicate OnceExact(s: State) {
    forall rid :: OnceExactFor(s, rid)
  }

  // ----- Log suffixes -----

  ghost predicate NoEntry(events: seq<Event>) {
    forall e :: e in events ==> e.kind != RouteEstablished && e.kind != SectionOccupied
  }

  lemma {:induction false} NoEntrySuffix(log: seq<Event>, events: seq<Event>, rid: Id, path: seq<Id>)
    requires NoEntry(events)
    ensures EnteredSince(log + events, rid, path) == EnteredSince(log, rid, path)
  {
    if events == [] {
      assert log + events == log;
    } else {
      var n := |events| - 1;
      NoEntrySuffix(log, events[..n], rid, path);
      assert (log + events)[..|log + events| - 1] == log + events[..n];
      assert events[n] in events;
    }
  }

  ghost predicate SameEntries(s: State, t: State) {
    forall rid, path :: EnteredSince(t.log, rid, path) == EnteredSince(s.log, rid, path)
  }

  lemma SameEntriesBy(s: State, t: State, suffix: seq<Event>)
    requires t.log == s.log + suffix && NoEntry(suffix)
    ensures SameEntries(s, t)
  {
    forall rid, path {
      NoEntrySuffix(s.log, suffix, rid, path);
    }
  }

  // ----- Steps -----

  lemma EstablishEntries(s: State, r: Route, plan: Plan, aspect: Aspect, t: State, rid: Id, path: seq<Id>)
    requires t.log == s.log + EstablishEvents(r, plan, aspect)
    ensures EnteredSince(t.log, rid, path) == if rid == r.id then {} else EnteredSince(s.log, rid, path)
  {
    var quiet := MoveEvents(r.station, plan.moves, r.id)
      + SwitchEvents(r.station, SwitchLocked, plan.switchLocks, r.id)
      + SectionEvents(r.station, LockSet, plan.sectionLocks, r.id);
    var e := RouteEvent(r, RouteEstablished, NoPayload);
    var rest := if aspect != Red then [SignalEvent(r, SignalOpened, Shows(aspect))] else [];
    NoEntrySuffix(s.log, quiet, rid, path);
    var l := s.log + quiet;
    assert (l + [e])[..|l + [e]| - 1] == l;
    NoEntrySuffix(l + [e], rest, rid, path);
    assert t.log == l + [e] + rest;
  }

  lemma EstablishKeepsOnce(s: State, rid: Id, now: int)
    requires Safe(s) && OnceExact(s)
    ensures OnceExact(After(s, EstablishTx(s, rid, now)))
  {
    EstablishCases(s, rid, now);
    if EstablishCommits(s, rid) {
      var r := s.routes[rid];
      var plan := StationPlan(s, r);
      CheckEstablishExact(LoadYard(s, r.station), r);
      EstablishedKeepsOnce(s, r, plan, OpenAspect(s, r, plan), EstablishedState(s, r, plan, now));
    }
  }

  lemma EstablishedKeepsOnce(s: State, r: Route, plan: Plan, aspect: Aspect, t: State)
    requires OnceExact(s) && r.id in s.routes && s.routes[r.id] == r && !r.state.IsLocked()
    requires t.log == s.log + EstablishEvents(r, plan, aspect) && t.once == s.once
    requires r.id in t.routes
    requires t.routes == s.routes[r.id := r.WithState(Established, t.routes[r.id].establishedAt, None, None)]
    ensures OnceExact(t)
  {
    forall id
      ensures OnceExactFor(t, id)
    {
      assert OnceExactFor(s, id);
      if id in t.routes {
        EstablishEntries(s, r, plan, aspect, t, id, s.routes[id].path);
      }
    }
  }

  /** A release of `r`: its flags are cleared, it is no longer locked, nothing is entered. */
  lemma ReleaseKeepsOnce(s: State, r: Route, t: State)
    requires OnceExact(s) && r.id in s.routes && Fixed(s, t) && SameEntries(s, t)
    requires t.once == s.once - {r.id} && !t.routes[r.id].state.IsLocked()
    requires forall id :: id in s.routes && id != r.id ==> t.routes[id] == s.routes[id]
    ensures OnceExact(t)
  {
    forall id
      ensures OnceExactFor(t, id)
    {
      assert OnceExactFor(s, id);
    }
  }

  /** Flags and lock status unchanged, nothing entered. */
  lemma QuietKeepsOnce(s: State, t: State)
    requires OnceExact(s) && Fixed(s, t) && SameEntries(s, t) && t.once == s.once
    requires forall id :: IsLockedRoute(t, id) <==> IsLockedRoute(s, id)
    ensures OnceExact(t)
  {
    forall id
      ensures OnceExactFor(t, id)
    {
      assert OnceExactFor(s, id);
    }
  }

  lemma ReleasedEntries(s: State, r: Route, secs: seq<Id>, sws: seq<Id>, secKind: EventKind, t: State, tail: seq<Event>)
    requires secKind == LockReleased || secKind == RouteSectionUnlocked
    requires NoEntry(tail)
    requires t.log == s.log + SectionEvents(r.station, secKind, secs, r.id)
      + SwitchEvents(r.station, SwitchReleased, sws, r.id) + tail
    ensures SameEntries(s, t)
  {
    var suffix := SectionEvents(r.station, secKind, secs, r.id)
      + SwitchEvents(r.station, SwitchReleased, sws, r.id) + tail;
    assert t.log == s.log + suffix;
    SameEntriesBy(s, t, suffix);
  }

  lemma CancelKeepsOnce(s: State, rid: Id, now: int)
    requires Safe(s) && OnceExact(s)
    ensures OnceExact(After(s, CancelTx(s, rid, now)))
  {
    var o := CancelTx(s, rid, now);
    if o.Committed? {
      var r := s.routes[rid];
      if DecideCancel(LoadYard(s, r.station), r).value.Immediate? {
        CancelledNowKeepsOnce(s, r, now);
      } else {
        CancelStartedKeepsOnce(s, r, now, r.kind.ApproachLockDelay());
      }
    }
  }

  lemma CancelledNowKeepsOnce(s: State, r: Route, now: int)
    requires OnceExact(s) && r.id in s.routes && s.routes[r.id] == r
    ensures OnceExact(CancelledNow(s, r, now))
  {
    var t := CancelledNow(s, r, now);
    CancelledNowFixed(s, r, now);
    ReleasedEntries(s, r, HeldSecs(s, r), HeldSws(s, r), LockReleased, t,
                    [RouteEvent(r, RouteUnlocked, NoPayload), SignalEvent(r, SignalClosed, NoPayload),
                     RouteEvent(r, CancelRequested, ImmediateMode)]);
    ReleaseKeepsOnce(s, r, t);
  }

  lemma CancelStartedKeepsOnce(s: State, r: Route, now: int, delay: int)
    requires OnceExact(s) && r.id in s.routes && s.routes[r.id] == r && r.state.IsLocked()
    ensures OnceExact(CancelStarted(s, r, now, delay))
  {
    var t := CancelStarted(s, r, now, delay);
    CancelStartedFixed(s, r, now, delay);
    SameEntriesBy(s, t, [RouteEvent(r, CancelRequested, TimedMode), RouteEvent(r, DelayUnlockStarted, Delay(delay)),
                         SignalEvent(r, SignalClosed, NoPayload)]);
    QuietKeepsOnce(s, t);
  }

  lemma CompletedKeepsOnce(s: State, r: Route, now: int)
    requires OnceExact(s) && r.id in s.routes && s.routes[r.id] == r && Fixed(s, CancelCompleted(s, r, now))
    ensures OnceExact(CancelCompleted(s, r, now))
  {
    var t := CancelCompleted(s, r, now);
    ReleasedEntries(s, r, HeldSecs(s, r), HeldSws(s, r), LockReleased, t,
                    [RouteEvent(r, DelayUnlockCompleted, NoPayload), RouteEvent(r, DelayUnlockCompleted, NoPayload)]);
    ReleaseKeepsOnce(s, r, t);
  }

  lemma CompleteKeepsOnce(s: State, rid: Id, now: int)
    requires Safe(s) && OnceExact(s)
    ensures OnceExact(After(s, CompleteTx(s, rid, now)))
  {
    if CompleteTx(s, rid, now).Committed? {
      CompleteFixed(s, rid, now);
      CompletedKeepsOnce(s, s.routes[rid], now);
    }
  }

  lemma FaultKeepsOnce(s: State, rid: Id, now: int)
    requires Safe(s) && OnceExact(s)
    ensures OnceExact(After(s, FaultTx(s, rid, now)))
  {
    if rid in s.routes {
      FaultUnlockedKeepsOnce(s, s.routes[rid], now);
    }
  }

  lemma FaultUnlockedKeepsOnce(s: State, r: Route, now: int)
    requires OnceExact(s) && r.id in s.routes && s.routes[r.id] == r
    ensures OnceExact(FaultUnlocked(s, r, now))
  {
    var y := LoadYard(s, r.station);
    var t := FaultUnlocked(s, r, now);
    FaultUnlockedFixed(s, r, now);
    ReleasedEntries(s, r, HeldSections(y.sections, r.path, r.id), HeldSwitches(y.switches, r.SwitchIds(), r.id),
                    LockReleased, t, []);
    ReleaseKeepsOnce(s, r, t);
  }

  lemma NormalReleaseKeepsOnce(s: State, r: Route)
    requires OnceExact(s) && r.id in s.routes && s.routes[r.id].SameDefinition(r)
    ensures OnceExact(NormallyReleased(s, r))
  {
    var t := NormallyReleased(s, r);
    NormallyReleasedFixed(s, r);
    ReleasedEntries(s, r, HeldSecs(s, r), HeldSws(s, r), RouteSectionUnlocked, t,
                    [SignalEvent(r, SignalClosed, NoPayload), RouteEvent(r, RouteUnlocked, NoPayload)]);
    ReleaseKeepsOnce(s, r, t);
  }

  lemma {:induction false} RefreshAllEntries(s: State, w: Id, routes: map<Id, Route>, order: seq<Id>)
    requires forall id :: id in order ==> id in routes
    ensures SameEntries(s, RefreshAll(s, w, routes, order))
  {
    if order != [] {
      var init, last := order[..|order| - 1], order[|order| - 1];
      RefreshAllEntries(s, w, routes, init);
      var m := RefreshAll(s, w, routes, init);
      var t := RefreshAll(s, w, routes, order);
      if t != m {
        SameEntriesBy(m, t, [t.log[|t.log| - 1]]);
      }
    }
  }

  lemma IndicateKeepsOnce(s: State, w: Id, ok: bool, order: seq<Id>)
    requires w in s.switches ==> OrderFor(s, s.switches[w].station, order)
    requires OnceExact(s)
    ensures OnceExact(After(s, IndicateTx(s, w, ok, order)))
  {
    var t := After(s, IndicateTx(s, w, ok, order));
    IndicateFixed(s, w, ok, order);
    if t != s {
      var m := Indicated(s, w, ok);
      SameEntriesBy(s, m, [m.log[|m.log| - 1]]);
      RefreshAllFixed(m, w, StationRoutes(s, s.switches[w].station), order);
      RefreshAllEntries(m, w, StationRoutes(s, s.switches[w].station), order);
      QuietKeepsOnce(s, t);
    }
  }

  lemma ReverseKeepsOnce(s: State, w: Id)
    requires OnceExact(s)
    ensures OnceExact(After(s, ReverseTx(s, w)))
  {
    var u := After(s, ReverseTx(s, w));
    ReverseFixed(s, w);
    if u != s {
      var move := Requirement(w, s.switches[w].position.Opposite());
      SameEntriesBy(s, u, MoveEvents(s.switches[w].station, [move], NO_ID));
      QuietKeepsOnce(s, u);
    }
  }

  lemma EntryThenQuiet(log: seq<Event>, e: Event, a: seq<Event>, b: seq<Event>, c: seq<Event>, rid: Id, path: seq<Id>)
    requires NoEntry(a) && NoEntry(b) && NoEntry(c)
    ensures EnteredSince(log + ([e] + a + b + c), rid, path) == EnteredSince(log + [e], rid, path)
  {
    var x := [e];
    Reassociate(log, x, a, b, c);
    NoEntrySuffix(log + x, a, rid, path);
    NoEntrySuffix(log + x + a, b, rid, path);
    NoEntrySuffix(log + x + a + b, c, rid, path);
  }

  lemma Associate(l: seq<Event>, x: seq<Event>, y: seq<Event>)
    ensures l + (x + y) == l + x + y
  {
  }

  lemma Reassociate(l: seq<Event>, x: seq<Event>, a: seq<Event>, b: seq<Event>, c: seq<Event>)
    ensures l + (x + a + b + c) == l + x + a + b + c
  {
    Associate(l, x + a + b, c);
    Associate(l, x + a, b);
    Associate(l, x, a);
  }

  lemma MovedEntries(s: State, station: Id, train: Id, eff: Effect, owners: seq<Id>, rid: Id, path: seq<Id>)
    requires |owners| == |eff.unlock|
    requires forall id :: id in eff.closeSignals ==> id in s.routes
    ensures EnteredSince(s.log + MoveEventsOf(s, station, eff.section, train, eff, owners), rid, path) ==
      EnteredSince(s.log, rid, path) + if eff.nowOccupied && eff.section in path then {eff.section} else {}
  {
    var k := eff.section;
    var e := Event(station, if eff.nowOccupied then SectionOccupied else SectionCleared,
      OfSection(k), NO_ID, ByTrain(train));
    var a := if eff.approachLock in s.routes then
         [Event(station, LockSet, OfRoute(eff.approachLock), eff.approachLock, ApproachNote)]
       else [];
    EntryThenQuiet(s.log, e, a, CloseEvents(station, s.routes, eff.closeSignals),
                   ReleaseEvents(station, eff.unlock, owners), rid, path);
    var l := s.log + [e];
    assert l[..|l| - 1] == s.log;
  }

  /** The flag set by an entering move: for the solo route, if there is one. */
  lemma MovedFlags(s: State, m: State, k: Id, entering: bool, solo: Id, id: Id)
    requires OnceExactFor(s, id) && Fixed(s, m)
    requires IsLockedRoute(m, id) <==> IsLockedRoute(s, id)
    requires m.once == MarkedOnce(s.once, if entering then solo else NO_ID, k)
    requires IsLockedRoute(s, id) && s.routes[id].HasSection(k) ==> id == solo && id != NO_ID
    requires solo != NO_ID ==> IsLockedRoute(s, solo) && s.routes[solo].HasSection(k)
    requires id in s.routes ==>
      EnteredSince(m.log, id, s.routes[id].path) ==
        EnteredSince(s.log, id, s.routes[id].path) + if entering && k in s.routes[id].path then {k} else {}
    ensures OnceExactFor(m, id)
  {
  }

  lemma MovedKeepsOnce(s: State, train: Id, k: Id, entering: bool, c: Choice)
    requires Safe(s) && OnceExact(s) && k in s.sections && ChoiceFor(s, k, entering, c) && GatedMove(s, k, entering, c)
    ensures OnceExact(MovedOf(s, train, k, entering, c))
  {
    var station := s.sections[k].station;
    var eff := MoveEffect(s, k, entering, c);
    var m := MovedOf(s, train, k, entering, c);
    MoveTouchesKnownRoutes(s, k, entering, c);
    TrainCases(s, train, k, entering, c);
    var solo := MarkIsSolo(s, k, entering, c);
    GatedKeepsLocks(s, train, k, entering, c);
    forall id
      ensures OnceExactFor(m, id)
    {
      assert OnceExactFor(s, id);
      if id in s.routes {
        MovedEntries(s, station, train, eff, c.owners, id, s.routes[id].path);
      }
      MovedFlags(s, m, k, entering, solo, id);
    }
  }

  lemma GatedKeepsLocks(s: State, train: Id, k: Id, entering: bool, c: Choice)
    requires Keyed(s.routes) && k in s.sections && ChoiceFor(s, k, entering, c) && GatedMove(s, k, entering, c)
    ensures forall id :: IsLockedRoute(MovedOf(s, train, k, entering, c), id) <==> IsLockedRoute(s, id)
  {
  }

  lemma MarkIsSolo(s: State, k: Id, entering: bool, c: Choice) returns (solo: Id)
    requires WellFormed(s) && Exclusive(s) && k in s.sections && ChoiceFor(s, k, entering, c)
    ensures solo == NO_ID || (IsLockedRoute(s, solo) && s.routes[solo].HasSection(k))
    ensures forall id :: IsLockedRoute(s, id) && s.routes[id].HasSection(k) ==> id == solo
    ensures MoveEffect(s, k, entering, c).onceRoute == if entering then solo else NO_ID
  {
    solo := AtMostOneTouched(s, k);
    SoloApplyMove(LoadYard(s, s.sections[k].station), k, entering, c.order, solo);
    SoloIsInYard(s, k, solo);
  }

  /** The one locked route over a section belongs to the section's station. */
  lemma SoloIsInYard(s: State, k: Id, solo: Id)
    requires WellFormed(s) && k in s.sections
    requires solo == NO_ID || (IsLockedRoute(s, solo) && s.routes[solo].HasSection(k))
    ensures
      var y := LoadYard(s, s.sections[k].station);
      solo != NO_ID <==> solo in y.routes && Touched(y.routes[solo], k)
  {
    if solo != NO_ID {
      assert k in LoadYard(s, s.routes[solo].station).sections;
    }
  }

  lemma TrainKeepsOnce(s: State, train: Id, k: Id, entering: bool, c: Choice)
    requires Safe(s) && OnceExact(s) && ChoiceFor(s, k, entering, c) && GatedMove(s, k, entering, c)
    ensures OnceExact(After(s, MoveTx(s, train, k, entering, c)))
  {
    if k in s.sections {
      var eff := MoveEffect(s, k, entering, c);
      MovedKeepsOnce(s, train, k, entering, c);
      TrainCases(s, train, k, entering, c);
      if eff.complete != NO_ID {
        NormalReleaseKeepsOnce(MovedOf(s, train, k, entering, c), s.routes[eff.complete]);
      }
    }
  }

  lemma DefineKeepsOnce(s: State, r: Route)
    requires OnceExact(s)
    ensures OnceExact(After(s, DefineTx(s, r)))
  {
    var t := After(s, DefineTx(s, r));
    forall id
      ensures OnceExactFor(t, id)
    {
      assert OnceExactFor(s, id);
    }
  }

  lemma NextOnce(s: State, step: Step)
    requires Safe(s) && OnceExact(s) && Enabled(s, step) && Disciplined(s, step)
    ensures OnceExact(Next(s, step))
  {
    match step {
      case Define(r) => DefineKeepsOnce(s, r);
      case Establish(rid, now) => EstablishKeepsOnce(s, rid, now);
      case Cancel(rid, now) => CancelKeepsOnce(s, rid, now);
      case Complete(rid, now) => CompleteKeepsOnce(s, rid, now);
      case FaultUnlock(rid, now) => FaultKeepsOnce(s, rid, now);
      case ReverseSwitch(w) => ReverseKeepsOnce(s, w);
      case Indicate(w, ok, order) => IndicateKeepsOnce(s, w, ok, order);
      case Train(train, k, entering, c) => TrainKeepsOnce(s, train, k, entering, c);
    }
  }

  /** Main result: the flags are exactly the entries since the latest establishment. */
  lemma {:induction false} OnceFlagsAreEntries(states: seq<State>, steps: seq<Step>)
    requires IsDisciplinedRun(states, steps) && Initial(states[0])
    ensures Safe(states[|steps|]) && OnceExact(states[|steps|])
  {
    if steps == [] {
      InitialIsSafe(states[0]);
    } else {
      var n := |steps| - 1;
      OnceFlagsAreEntries(states[..n + 1], steps[..n]);
      NextSafe(states[n], steps[n]);
      NextOnce(states[n], steps[n]);
    }
  }
}
