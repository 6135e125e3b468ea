/**
 What the events say of themselves. Every event a step logs names the station of the thing it is about,
 so the log of one station is complete for that station, and the events of locks name the route whose
 lock it is.
 */
module Attribution {
  import opened Model
  import opened RoutePlan
  import opened Interlocking
  import opened TrainOps
  import opened Database
  import opened Steps
  import opened Replay
  import opened Runs
  import opened Ownership
  import opened Exclusion
  import opened Requests
  import opened Releases

  /** Sections: a lock set names the new holder, a released one the old, a passed section a route in force over it. */
  ghost predicate SectionEventRight(s: State, t: State, e: Event, k: Id) {
    && k in s.sections && k in t.sections && e.station == s.sections[k].station
    && match e.kind
       case LockSet => t.sections[k].locked && t.sections[k].holder == e.route
       case LockReleased => s.sections[k].locked && s.sections[k].holder == e.route
       case RouteSectionUnlocked =>
         if exists q :: InForceOver(s, q, k) then InForceOver(s, e.route, k) else e.route == NO_ID
       case SectionOccupied => e.route == NO_ID
       case SectionCleared => e.route == NO_ID
       case _ => false
  }

  predicate InForceOver(s: State, q: Id, k: Id) {
    q in s.routes && InForce(s.routes[q].state) && k in s.routes[q].path
  }

  /** Switches: the same for locks; a move is the route's that takes the lock, or nobody's. */
  ghost predicate SwitchEventRight(s: State, t: State, e: Event, w: Id) {
    && w in s.switches && w in t.switches && e.station == s.switches[w].station
    && match e.kind
       case SwitchLocked => t.switches[w].locked && t.switches[w].holder == e.route
       case SwitchReleased => s.switches[w].locked && s.switches[w].holder == e.route
       case SwitchReversed => e.route != NO_ID ==> t.switches[w].locked && t.switches[w].holder == e.route
       case IndicationLost => e.route == NO_ID
       case IndicationRestored => e.route == NO_ID
       case _ => false
  }

  ghost predicate EventRight(s: State, t: State, e: Event) {
    match e.entity
    case OfSection(k) => SectionEventRight(s, t, e, k)
    case OfSwitch(w) => SwitchEventRight(s, t, e, w)
    case OfSignal(g) => e.route in s.routes && s.routes[e.route].signal == g && e.station == s.routes[e.route].station
    case OfRoute(q) => e.route == q && q in s.routes && e.station == s.routes[q].station
  }

  /** The log only grows, and each new event is right about itself. */
  ghost predicate Attributed(s: State, t: State) {
    s.log <= t.log && forall e :: e in t.log[|s.log|..] ==> EventRight(s, t, e)
  }

  lemma AttributedBy(s: State, t: State, events: seq<Event>)
    requires t.log == s.log + events && forall e :: e in events ==> EventRight(s, t, e)
    ensures Attributed(s, t)
  {
    assert t.log[|s.log|..] == events;
  }

  lemma NothingLogged(s: State, t: State)
    requires t.log == s.log
    ensures Attributed(s, t)
  {
    assert t.log[|s.log|..] == [];
  }

  // ----- Route requests -----

  lemma EstablishAttributed(s: State, rid: Id, now: int)
    requires WellFormed(s)
    ensures Attributed(s, After(s, EstablishTx(s, rid, now)))
  {
    EstablishCases(s, rid, now);
    if EstablishCommits(s, rid) {
      SetAttributed(s, rid, now);
    } else {
      NothingLogged(s, s);
    }
  }

  lemma SetAttributed(s: State, rid: Id, now: int)
    requires WellFormed(s) && EstablishCommits(s, rid)
    ensures Attributed(s, EstablishedState(s, s.routes[rid], StationPlan(s, s.routes[rid]), now))
  {
    var r := s.routes[rid];
    var plan := StationPlan(s, r);
    var t := EstablishedState(s, r, plan, now);
    forall e | e in EstablishEvents(r, plan, OpenAspect(s, r, plan))
      ensures EventRight(s, t, e)
    {
      if e in MoveEvents(r.station, plan.moves, r.id) {
        SetMoveRight(s, rid, now, e);
      } else if e in SwitchEvents(r.station, SwitchLocked, plan.switchLocks, r.id) {
        SetSwitchRight(s, rid, now, e);
      } else if e in SectionEvents(r.station, LockSet, plan.sectionLocks, r.id) {
        SetSectionRight(s, rid, now, e);
      } else {
        assert OwnWord(s, rid, e);
      }
    }
    AttributedBy(s, t, EstablishEvents(r, plan, OpenAspect(s, r, plan)));
  }

  lemma SetMoveRight(s: State, rid: Id, now: int, e: Event)
    requires WellFormed(s) && EstablishCommits(s, rid)
    requires var r := s.routes[rid]; e in MoveEvents(r.station, StationPlan(s, r).moves, rid)
    ensures EventRight(s, EstablishedState(s, s.routes[rid], StationPlan(s, s.routes[rid]), now), e)
  {
    var r := s.routes[rid];
    var plan := StationPlan(s, r);
    var i :| 0 <= i < |plan.moves| && MoveEvents(r.station, plan.moves, rid)[i] == e;
    PlannedMove(s, rid, plan.moves[i]);
  }

  lemma SetSwitchRight(s: State, rid: Id, now: int, e: Event)
    requires WellFormed(s) && EstablishCommits(s, rid)
    requires var r := s.routes[rid]; e in SwitchEvents(r.station, SwitchLocked, StationPlan(s, r).switchLocks, rid)
    ensures EventRight(s, EstablishedState(s, s.routes[rid], StationPlan(s, s.routes[rid]), now), e)
  {
    var r := s.routes[rid];
    var plan := StationPlan(s, r);
    var i :| 0 <= i < |plan.switchLocks| && SwitchEvents(r.station, SwitchLocked, plan.switchLocks, rid)[i] == e;
    PlannedSwitch(s, rid, plan.switchLocks[i]);
  }

  lemma SetSectionRight(s: State, rid: Id, now: int, e: Event)
    requires WellFormed(s) && EstablishCommits(s, rid)
    requires var r := s.routes[rid]; e in SectionEvents(r.station, LockSet, StationPlan(s, r).sectionLocks, rid)
    ensures EventRight(s, EstablishedState(s, s.routes[rid], StationPlan(s, s.routes[rid]), now), e)
  {
    var r := s.routes[rid];
    var plan := StationPlan(s, r);
    var i :| 0 <= i < |plan.sectionLocks| && SectionEvents(r.station, LockSet, plan.sectionLocks, rid)[i] == e;
    PlannedSection(s, rid, plan.sectionLocks[i]);
  }

  lemma PlannedSwitch(s: State, rid: Id, w: Id)
    requires WellFormed(s) && rid in s.routes && w in s.routes[rid].SwitchIds()
    ensures w in s.switches && s.switches[w].station == s.routes[rid].station
  {
    var r := s.routes[rid];
    var i :| 0 <= i < |r.SwitchIds()| && r.SwitchIds()[i] == w;
    assert r.requirements[i] in r.requirements;
    assert w in LoadYard(s, r.station).switches;
  }

  lemma PlannedMove(s: State, rid: Id, q: Requirement)
    requires WellFormed(s) && rid in s.routes && q in StationPlan(s, s.routes[rid]).moves
    ensures q.switch in s.switches && s.switches[q.switch].station == s.routes[rid].station
    ensures q.switch in StationPlan(s, s.routes[rid]).switchLocks
  {
    var r := s.routes[rid];
    MovesMeaning(LoadYard(s, r.station), r.requirements, q);
    var i :| 0 <= i < |r.requirements| && r.requirements[i] == q;
    assert r.SwitchIds()[i] == q.switch;
    PlannedSwitch(s, rid, q.switch);
  }

  lemma PlannedSection(s: State, rid: Id, k: Id)
    requires WellFormed(s) && rid in s.routes && k in StationPlan(s, s.routes[rid]).sectionLocks
    ensures k in s.sections && s.sections[k].station == s.routes[rid].station
  {
    var r := s.routes[rid];
    WithoutApproachMeaning(r.path, r.approach, k);
    assert k in LoadYard(s, r.station).sections;
  }

  /** An event of the route about itself or its signal. */
  predicate OwnWord(s: State, rid: Id, e: Event) {
    && rid in s.routes && e.station == s.routes[rid].station && e.route == rid
    && (e.entity == OfRoute(rid) || e.entity == OfSignal(s.routes[rid].signal))
  }

  /** The release events of any of the operations that give a route up. */
  lemma ReleasedAttributed(s: State, rid: Id, secs: seq<Id>, sws: seq<Id>, row: Route,
                           signals: map<Id, Signal>, timers: map<Id, Timer>, tail: seq<Event>)
    requires WellFormed(s) && rid in s.routes
    requires forall k :: k in secs ==> k in s.routes[rid].path && SectionHeld(s.sections, k, rid)
    requires forall w :: w in sws ==> w in s.routes[rid].SwitchIds() && SwitchHeld(s.switches, w, rid)
    requires forall e :: e in tail ==> OwnWord(s, rid, e)
    ensures Attributed(s, Released(s, s.routes[rid], secs, sws, LockReleased, row, signals, timers, tail))
  {
    var r := s.routes[rid];
    var t := Released(s, r, secs, sws, LockReleased, row, signals, timers, tail);
    var events := SectionEvents(r.station, LockReleased, secs, rid)
      + SwitchEvents(r.station, SwitchReleased, sws, rid) + tail;
    forall e | e in events
      ensures EventRight(s, t, e)
    {
      if e in SectionEvents(r.station, LockReleased, secs, rid) {
        var i :| 0 <= i < |secs| && SectionEvents(r.station, LockReleased, secs, rid)[i] == e;
        assert secs[i] in secs && secs[i] in LoadYard(s, r.station).sections;
      } else if e in SwitchEvents(r.station, SwitchReleased, sws, rid) {
        var i :| 0 <= i < |sws| && SwitchEvents(r.station, SwitchReleased, sws, rid)[i] == e;
        assert sws[i] in sws;
        PlannedSwitch(s, rid, sws[i]);
      }
    }
    assert t.log == s.log + events;
    AttributedBy(s, t, events);
  }

  lemma HeldAreOwn(s: State, r: Route)
    ensures forall k :: k in HeldSecs(s, r) ==> k in r.path && SectionHeld(s.sections, k, r.id)
    ensures forall w :: w in HeldSws(s, r) ==> w in r.SwitchIds() && SwitchHeld(s.switches, w, r.id)
  {
    forall k {
      HeldSectionsMeaning(s.sections, r.path, r.id, k);
    }
    forall w {
      HeldSwitchesMeaning(s.switches, r.SwitchIds(), r.id, w);
    }
  }

  lemma CancelAttributed(s: State, rid: Id, now: int)
    requires WellFormed(s)
    ensures Attributed(s, After(s, CancelTx(s, rid, now)))
  {
    var o := CancelTx(s, rid, now);
    if o.RolledBack? {
      NothingLogged(s, s);
    } else {
      var r := s.routes[rid];
      HeldAreOwn(s, r);
      if DecideCancel(LoadYard(s, r.station), r).value.Immediate? {
        ReleasedAttributed(s, rid, HeldSecs(s, r), HeldSws(s, r), r.WithState(Cancelled, None, Some(now), None),
                           Closed(s.signals, r.signal), s.timers,
                           [RouteEvent(r, RouteUnlocked, NoPayload), SignalEvent(r, SignalClosed, NoPayload),
                            RouteEvent(r, CancelRequested, ImmediateMode)]);
      } else {
        var delay := DecideCancel(LoadYard(s, r.station), r).value.delay;
        AttributedBy(s, o.state, [RouteEvent(r, CancelRequested, TimedMode),
                                  RouteEvent(r, DelayUnlockStarted, Delay(delay)),
                                  SignalEvent(r, SignalClosed, NoPayload)]);
      }
    }
  }

  lemma CompleteAttributed(s: State, rid: Id, now: int)
    requires WellFormed(s)
    ensures Attributed(s, After(s, CompleteTx(s, rid, now)))
  {
    if CompleteTx(s, rid, now).RolledBack? {
      NothingLogged(s, s);
    } else {
      var r := s.routes[rid];
      HeldAreOwn(s, r);
      ReleasedAttributed(s, rid, HeldSecs(s, r), HeldSws(s, r), r.WithState(Cancelled, None, Some(now), None),
                         Protect(s.signals, r.signal, NO_ID), s.timers - {r.id},
                         [RouteEvent(r, DelayUnlockCompleted, NoPayload),
                          RouteEvent(r, DelayUnlockCompleted, NoPayload)]);
    }
  }

  lemma FaultAttributed(s: State, rid: Id, now: int)
    requires WellFormed(s)
    ensures Attributed(s, After(s, FaultTx(s, rid, now)))
  {
    if rid !in s.routes {
      NothingLogged(s, s);
    } else {
      var r := s.routes[rid];
      var y := LoadYard(s, r.station);
      var secs, sws := HeldSections(y.sections, r.path, r.id), HeldSwitches(y.switches, r.SwitchIds(), r.id);
      forall k {
        HeldSectionsMeaning(y.sections, r.path, r.id, k);
      }
      forall w {
        HeldSwitchesMeaning(y.switches, r.SwitchIds(), r.id, w);
      }
      ReleasedAttributed(s, rid, secs, sws, r.WithState(Cancelled, None, Some(now), None),
                         Closed(s.signals, r.signal), s.timers - {r.id}, []);
    }
  }

  // ----- Switches and signals -----

  lemma ReverseAttributed(s: State, w: Id)
    ensures Attributed(s, After(s, ReverseTx(s, w)))
  {
    ReverseAnswers(s, w);
    var t := After(s, ReverseTx(s, w));
    if t == s {
      NothingLogged(s, s);
    } else {
      AttributedBy(s, t, [t.log[|s.log|]]);
    }
  }

  /** Signal events of routes that exist, whatever happened to the rows in between. */
  ghost predicate SignalWords(s: State, events: seq<Event>) {
    forall e :: e in events ==> e.entity.OfSignal? && EventRight(s, s, e)
  }

  lemma {:induction false} RefreshAllWords(s: State, w: Id, routes: map<Id, Route>, order: seq<Id>)
      returns (events: seq<Event>)
    requires Keyed(s.routes)
    requires forall id :: id in order ==> id in routes && id in s.routes && routes[id] == s.routes[id]
    ensures RefreshAll(s, w, routes, order).log == s.log + events && SignalWords(s, events)
  {
    events := [];
    if order != [] {
      var init, last := order[..|order| - 1], order[|order| - 1];
      assert order == init + [last];
      var before := RefreshAllWords(s, w, routes, init);
      var m, t := RefreshAll(s, w, routes, init), RefreshAll(s, w, routes, order);
      events := if t == m then before else before + [t.log[|t.log| - 1]];
    }
  }

  lemma IndicateAttributed(s: State, w: Id, ok: bool, order: seq<Id>)
    requires WellFormed(s) && (w in s.switches ==> OrderFor(s, s.switches[w].station, order))
    ensures Attributed(s, After(s, IndicateTx(s, w, ok, order)))
  {
    if w !in s.switches || s.switches[w].indicated == ok {
      NothingLogged(s, s);
    } else {
      ChangedAttributed(s, w, ok, order);
    }
  }

  lemma ChangedAttributed(s: State, w: Id, ok: bool, order: seq<Id>)
    requires WellFormed(s) && w in s.switches && OrderFor(s, s.switches[w].station, order)
    ensures Attributed(s, RefreshAll(Indicated(s, w, ok), w, StationRoutes(s, s.switches[w].station), order))
  {
    var m := Indicated(s, w, ok);
    var routes := StationRoutes(s, s.switches[w].station);
    var words := RefreshAllWords(m, w, routes, order);
    RefreshAllFixed(m, w, routes, order);
    var t := RefreshAll(m, w, routes, order);
    assert m.log == s.log + [m.log[|s.log|]];
    WordsFollow(s, m, t, w, words);
  }

  lemma WordsFollow(s: State, m: State, t: State, w: Id, words: seq<Event>)
    requires w in s.switches && w in t.switches && m.routes == s.routes
    requires |m.log| == |s.log| + 1 && s.log <= m.log && t.log == m.log + words && SignalWords(m, words)
    requires
      var first := m.log[|s.log|];
      first.entity == OfSwitch(w) && first.station == s.switches[w].station && first.route == NO_ID
      && (first.kind == IndicationLost || first.kind == IndicationRestored)
    ensures Attributed(s, t)
  {
    var first := m.log[|s.log|];
    assert t.log == s.log + ([first] + words);
    forall e | e in words
      ensures EventRight(s, t, e)
    {
      assert EventRight(m, m, e) && e.entity.OfSignal?;
    }
    AttributedBy(s, t, [first] + words);
  }

  // ----- Train moves -----

  lemma PassedEventRight(s: State, t: State, k: Id, entering: bool, c: Choice, e: Event)
    requires WellFormed(s) && k in s.sections && ChoiceFor(s, k, entering, c) && t.sections.Keys == s.sections.Keys
    requires e in ReleaseEvents(s.sections[k].station, MoveEffect(s, k, entering, c).unlock, c.owners)
    ensures EventRight(s, t, e)
  {
    var y := LoadYard(s, s.sections[k].station);
    var unlock := MoveEffect(s, k, entering, c).unlock;
    var i :| 0 <= i < |unlock| && ReleaseEvents(s.sections[k].station, unlock, c.owners)[i] == e;
    var x := unlock[i];
    var q := NamedBySome(s, k, entering, c, x);
    LetGoIsListed(s, q, k, entering, x);
    YardShows(s, q, x);
    forall p
      ensures InForceOver(s, p, x) <==> p in y.routes && Touched(y.routes[p], x)
    {
      if InForceOver(s, p, x) {
        YardShows(s, p, x);
      }
    }
  }

  lemma LetGoIsListed(s: State, q: Id, k: Id, entering: bool, x: Id)
    requires LetsGo(s, q, k, entering, x)
    ensures x in s.routes[q].path
  {
  }

  lemma ClosedEventRight(s: State, t: State, k: Id, entering: bool, c: Choice, e: Event)
    requires WellFormed(s) && k in s.sections && ChoiceFor(s, k, entering, c)
    requires forall id :: id in MoveEffect(s, k, entering, c).closeSignals ==> id in s.routes
    requires e in CloseEvents(s.sections[k].station, s.routes, MoveEffect(s, k, entering, c).closeSignals)
    ensures EventRight(s, t, e)
  {
    var ids := MoveEffect(s, k, entering, c).closeSignals;
    VisitAllTraced(LoadYard(s, s.sections[k].station), k, entering, c.order);
    var i :| 0 <= i < |ids| && CloseEvents(s.sections[k].station, s.routes, ids)[i] == e;
    assert ids[i] in ids;
  }

  lemma MovedAttributed(s: State, train: Id, k: Id, entering: bool, c: Choice)
    requires WellFormed(s) && k in s.sections && ChoiceFor(s, k, entering, c)
    ensures Attributed(s, MovedOf(s, train, k, entering, c))
  {
    var eff, m := MoveEffect(s, k, entering, c), MovedOf(s, train, k, entering, c);
    MoveTouchesKnownRoutes(s, k, entering, c);
    TargetIsCandidate(s, k, entering, c);
    var events := MoveEventsOf(s, s.sections[k].station, k, train, eff, c.owners);
    forall e | e in events
      ensures EventRight(s, m, e)
    {
      if e in ReleaseEvents(s.sections[k].station, eff.unlock, c.owners) {
        PassedEventRight(s, m, k, entering, c, e);
      } else if e in CloseEvents(s.sections[k].station, s.routes, eff.closeSignals) {
        ClosedEventRight(s, m, k, entering, c, e);
      }
    }
    AttributedBy(s, m, events);
  }

  /** Locks are only taken away, and no route is redefined. */
  ghost predicate OnlyUnlocked(s: State, m: State) {
    && Fixed(s, m)
    && (forall k :: k in m.sections && m.sections[k].locked ==>
          s.sections[k].locked && s.sections[k].holder == m.sections[k].holder)
    && (forall w :: w in m.switches && m.switches[w].locked ==>
          s.switches[w].locked && s.switches[w].holder == m.switches[w].holder)
  }

  /** The events of a release by the route, told of the rows before. */
  ghost predicate ReleaseWord(s: State, rid: Id, e: Event) {
    && rid in s.routes && e.station == s.routes[rid].station && e.route == rid
    && match e.entity
       case OfSection(k) =>
         && k in s.sections && s.sections[k].station == e.station && k in s.routes[rid].path
         && SectionHeld(s.sections, k, rid) && (e.kind == LockReleased || e.kind == RouteSectionUnlocked)
       case OfSwitch(w) =>
         && w in s.switches && s.switches[w].station == e.station
         && SwitchHeld(s.switches, w, rid) && e.kind == SwitchReleased
       case OfSignal(g) => g == s.routes[rid].signal
       case OfRoute(q) => q == rid
  }

  lemma ReleaseWords(m: State, rid: Id, secKind: EventKind, tail: seq<Event>, e: Event)
    requires WellFormed(m) && rid in m.routes && (secKind == LockReleased || secKind == RouteSectionUnlocked)
    requires forall x :: x in tail ==> OwnWord(m, rid, x)
    requires
      var r := m.routes[rid];
      e in SectionEvents(r.station, secKind, HeldSecs(m, r), rid)
           + SwitchEvents(r.station, SwitchReleased, HeldSws(m, r), rid) + tail
    ensures ReleaseWord(m, rid, e)
  {
    var r := m.routes[rid];
    var secs, sws := HeldSecs(m, r), HeldSws(m, r);
    HeldAreOwn(m, r);
    if e in SectionEvents(r.station, secKind, secs, rid) {
      var i :| 0 <= i < |secs| && SectionEvents(r.station, secKind, secs, rid)[i] == e;
      assert secs[i] in secs && secs[i] in LoadYard(m, r.station).sections;
    } else if e in SwitchEvents(r.station, SwitchReleased, sws, rid) {
      var i :| 0 <= i < |sws| && SwitchEvents(r.station, SwitchReleased, sws, rid)[i] == e;
      assert sws[i] in sws;
      PlannedSwitch(m, rid, sws[i]);
    } else {
      assert OwnWord(m, rid, e);
    }
  }

  lemma WordCarriesBack(s: State, m: State, t: State, rid: Id, e: Event)
    requires OnlyUnlocked(s, m) && Fixed(s, t) && ReleaseWord(m, rid, e)
    requires e.kind == RouteSectionUnlocked ==> IsLockedRoute(s, rid)
    ensures EventRight(s, t, e)
  {
    assert s.routes[rid].SameDefinition(m.routes[rid]);
    if e.kind == RouteSectionUnlocked && e.entity.OfSection? {
      assert InForceOver(s, rid, e.entity.id);
    }
  }

  lemma TrainAttributed(s: State, train: Id, k: Id, entering: bool, c: Choice)
    requires WellFormed(s) && ChoiceFor(s, k, entering, c)
    ensures Attributed(s, After(s, MoveTx(s, train, k, entering, c)))
  {
    if k !in s.sections {
      NothingLogged(s, s);
    } else {
      TrainCases(s, train, k, entering, c);
      MovedAttributed(s, train, k, entering, c);
      if MoveEffect(s, k, entering, c).complete != NO_ID {
        CompletionAttributed(s, train, k, entering, c);
      }
    }
  }

  lemma CompletionAttributed(s: State, train: Id, k: Id, entering: bool, c: Choice)
    requires WellFormed(s) && k in s.sections && ChoiceFor(s, k, entering, c)
    requires MoveEffect(s, k, entering, c).complete != NO_ID
    ensures Attributed(s, After(s, MoveTx(s, train, k, entering, c)))
  {
    var m, q := MovedOf(s, train, k, entering, c), MoveEffect(s, k, entering, c).complete;
    TrainCases(s, train, k, entering, c);
    MovedAttributed(s, train, k, entering, c);
    MoveTouchesKnownRoutes(s, k, entering, c);
    MovedOnlyUnlocks(s, train, k, entering, c);
    FixedKeepsWellFormed(s, m);
    NormalWordsRight(s, m, q);
    MovedSetsNoLock(s, train, k, entering, c);
    MoreAttributed(s, m, NormallyReleased(m, m.routes[q]), NormalWords(m, q));
  }

  function NormalWords(m: State, q: Id): seq<Event>
    requires q in m.routes
  {
    var r := m.routes[q];
    SectionEvents(r.station, RouteSectionUnlocked, HeldSecs(m, r), q)
    + SwitchEvents(r.station, SwitchReleased, HeldSws(m, r), q)
    + [SignalEvent(r, SignalClosed, NoPayload), RouteEvent(r, RouteUnlocked, NoPayload)]
  }

  lemma NormalWordsRight(s: State, m: State, q: Id)
    requires OnlyUnlocked(s, m) && WellFormed(m) && IsLockedRoute(s, q)
    ensures
      var t := NormallyReleased(m, m.routes[q]);
      && Fixed(s, t) && t.log == m.log + NormalWords(m, q)
      && forall e :: e in NormalWords(m, q) ==> EventRight(s, t, e)
  {
    var r := m.routes[q];
    var t := NormallyReleased(m, r);
    NormallyReleasedFixed(m, r);
    FixedTransitive(s, m, t);
    forall e | e in NormalWords(m, q)
      ensures EventRight(s, t, e)
    {
      ReleaseWords(m, q, RouteSectionUnlocked,
                   [SignalEvent(r, SignalClosed, NoPayload), RouteEvent(r, RouteUnlocked, NoPayload)], e);
      WordCarriesBack(s, m, t, q, e);
    }
  }

  lemma MovedOnlyUnlocks(s: State, train: Id, k: Id, entering: bool, c: Choice)
    requires Keyed(s.routes) && k in s.sections && ChoiceFor(s, k, entering, c)
    ensures OnlyUnlocked(s, MovedOf(s, train, k, entering, c))
  {
    TrainCases(s, train, k, entering, c);
  }

  /** What the move itself logged stays right after the completion: none of it speaks of the rows afterwards. */
  lemma MoreAttributed(s: State, m: State, t: State, events: seq<Event>)
    requires Attributed(s, m) && Fixed(s, t) && Fixed(s, m) && t.log == m.log + events
    requires forall e :: e in m.log[|s.log|..] ==> !e.entity.OfSwitch? && (e.entity.OfSection? ==> e.kind != LockSet)
    requires forall e :: e in events ==> EventRight(s, t, e)
    ensures Attributed(s, t)
  {
    var before := m.log[|s.log|..];
    forall e | e in before
      ensures EventRight(s, t, e)
    {
      RightLater(s, m, t, e);
    }
    assert t.log == s.log + (before + events);
    AttributedBy(s, t, before + events);
  }

  lemma MovedSetsNoLock(s: State, train: Id, k: Id, entering: bool, c: Choice)
    requires Keyed(s.routes) && k in s.sections && ChoiceFor(s, k, entering, c)
    ensures forall e :: e in MovedOf(s, train, k, entering, c).log[|s.log|..] ==>
      !e.entity.OfSwitch? && (e.entity.OfSection? ==> e.kind != LockSet)
  {
    MoveTouchesKnownRoutes(s, k, entering, c);
    assert MovedOf(s, train, k, entering, c).log[|s.log|..] ==
      MoveEventsOf(s, s.sections[k].station, k, train, MoveEffect(s, k, entering, c), c.owners);
  }

  lemma RightLater(s: State, m: State, t: State, e: Event)
    requires EventRight(s, m, e) && t.sections.Keys == m.sections.Keys
    requires !e.entity.OfSwitch? && (e.entity.OfSection? ==> e.kind != LockSet)
    ensures EventRight(s, t, e)
  {
  }

  // ----- Restarts -----

  ghost predicate RestartWords(s: State, t: State) {
    && OnlyUnlocked(s, t) && WellFormed(t) && s.log <= t.log
    && forall e :: e in t.log[|s.log|..] ==> ReleaseWord(s, e.route, e) && e.kind != RouteSectionUnlocked
  }

  lemma WordBack(s: State, m: State, rid: Id, e: Event)
    requires OnlyUnlocked(s, m) && ReleaseWord(m, rid, e)
    ensures ReleaseWord(s, rid, e)
  {
    assert s.routes[rid].SameDefinition(m.routes[rid]);
  }

  function CompletionWords(m: State, rid: Id): seq<Event>
    requires rid in m.routes
  {
    var r := m.routes[rid];
    SectionEvents(r.station, LockReleased, HeldSecs(m, r), rid)
    + SwitchEvents(r.station, SwitchReleased, HeldSws(m, r), rid)
    + [RouteEvent(r, DelayUnlockCompleted, NoPayload), RouteEvent(r, DelayUnlockCompleted, NoPayload)]
  }

  lemma CompletionWord(s: State, m: State, rid: Id, e: Event)
    requires OnlyUnlocked(s, m) && WellFormed(m) && rid in m.routes && e in CompletionWords(m, rid)
    ensures ReleaseWord(s, e.route, e) && e.kind != RouteSectionUnlocked
  {
    var word := RouteEvent(m.routes[rid], DelayUnlockCompleted, NoPayload);
    ReleaseWords(m, rid, LockReleased, [word, word], e);
    WordBack(s, m, rid, e);
  }

  lemma CompletionLogs(m: State, rid: Id, now: int)
    requires Keyed(m.routes) && CompleteTx(m, rid, now).Committed?
    ensures CompleteTx(m, rid, now).state.log == m.log + CompletionWords(m, rid)
  {
  }

  lemma CompletionUnlocks(s: State, m: State, rid: Id, now: int)
    requires OnlyUnlocked(s, m) && WellFormed(m) && CompleteTx(m, rid, now).Committed?
    ensures OnlyUnlocked(s, CompleteTx(m, rid, now).state) && WellFormed(CompleteTx(m, rid, now).state)
  {
    var t := CompleteTx(m, rid, now).state;
    CompleteFixed(m, rid, now);
    FixedTransitive(s, m, t);
    FixedKeepsWellFormed(m, t);
  }

  lemma CompleteWords(s: State, m: State, rid: Id, now: int)
    requires RestartWords(s, m) && CompleteTx(m, rid, now).Committed?
    ensures RestartWords(s, CompleteTx(m, rid, now).state)
  {
    CompletionUnlocks(s, m, rid, now);
    CompletionLogs(m, rid, now);
    forall e | e in CompletionWords(m, rid)
      ensures ReleaseWord(s, e.route, e) && e.kind != RouteSectionUnlocked
    {
      CompletionWord(s, m, rid, e);
    }
    WordsAdd(s, m, CompleteTx(m, rid, now).state, CompletionWords(m, rid));
  }

  lemma WordsAdd(s: State, m: State, t: State, events: seq<Event>)
    requires RestartWords(s, m) && t.log == m.log + events && OnlyUnlocked(s, t) && WellFormed(t)
    requires forall e :: e in events ==> ReleaseWord(s, e.route, e) && e.kind != RouteSectionUnlocked
    ensures RestartWords(s, t)
  {
    assert t.log[|s.log|..] == m.log[|s.log|..] + events;
  }

  lemma {:induction false} CompleteDueWords(s: State, m: State, now: int, order: seq<Id>)
    requires RestartWords(s, m)
    ensures RestartWords(s, CompleteDue(m, now, order).state)
  {
    if order != [] {
      var init, last := order[..|order| - 1], order[|order| - 1];
      CompleteDueWords(s, m, now, init);
      var b := CompleteDue(m, now, init);
      if CompleteOne(b, last, now) != b {
        CompleteWords(s, b.state, last, now);
      }
    }
  }

  lemma {:induction false} RestartSpeaks(s: State, now: int, stations: seq<Id>, orders: seq<seq<Id>>)
    requires WellFormed(s) && |orders| == |stations|
    ensures RestartWords(s, AllPasses(s, now, stations, orders).state)
  {
    if stations == [] {
      assert s.log[|s.log|..] == [];
    } else {
      var n := |stations| - 1;
      RestartSpeaks(s, now, stations[..n], orders[..n]);
      var b := AllPasses(s, now, stations[..n], orders[..n]).state;
      var c := Corrected(b, stations[n]);
      FixedKeepsWellFormed(b, c);
      FixedTransitive(s, b, c);
      assert RestartWords(s, c);
      CompleteDueWords(s, c, now, orders[n]);
    }
  }

  lemma RestartAttributed(s: State, now: int, stations: seq<Id>, orders: seq<seq<Id>>)
    requires WellFormed(s) && |orders| == |stations|
    ensures Attributed(s, AllPasses(s, now, stations, orders).state)
  {
    var t := AllPasses(s, now, stations, orders).state;
    RestartSpeaks(s, now, stations, orders);
    forall e | e in t.log[|s.log|..]
      ensures EventRight(s, t, e)
    {
      WordCarriesBack(s, s, t, e.route, e);
    }
  }

  /** Main result: whatever a step logs is right about itself. */
  lemma NextAttributed(s: State, step: Step)
    requires WellFormed(s) && Enabled(s, step)
    ensures Attributed(s, Next(s, step))
  {
    match step {
      case Define(r) => NothingLogged(s, Next(s, step));
      case Establish(rid, now) => EstablishAttributed(s, rid, now);
      case Cancel(rid, now) => CancelAttributed(s, rid, now);
      case Complete(rid, now) => CompleteAttributed(s, rid, now);
      case FaultUnlock(rid, now) => FaultAttributed(s, rid, now);
      case ReverseSwitch(w) => ReverseAttributed(s, w);
      case Indicate(w, ok, order) => IndicateAttributed(s, w, ok, order);
      case Train(train, k, entering, c) => TrainAttributed(s, train, k, entering, c);
      case Reconcile(now, stations, orders) => RestartAttributed(s, now, stations, orders);
    }
  }

  /** In a safe yard the release of a locked section names its holder, although the log takes any route over it. */
  lemma ReleaseNamesHolder(s: State, t: State, e: Event, k: Id)
    requires Safe(s) && Attributed(s, t) && e in t.log[|s.log|..]
    requires e.kind == RouteSectionUnlocked && e.entity == OfSection(k)
    requires k in s.sections && s.sections[k].locked
    ensures e.route == s.sections[k].holder
  {
    assert EventRight(s, t, e);
    var h := s.sections[k].holder;
    assert SectionOwned(s, k);
    assert InForceOver(s, h, k);
    assert IsLockedRoute(s, h) && IsLockedRoute(s, e.route);
    assert SharesSection(s.routes[h], s.routes[e.route]);
    assert !Conflicts(s.routes[h], s.routes[e.route]);
  }
}
