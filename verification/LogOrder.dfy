/**
 The exact words of the log, in order: what each request appends, told requirement by requirement and
 section by section from the rows before it.
 */
module LogOrder {
  import opened Model
  import opened RoutePlan
  import opened Interlocking
  import opened TrainOps
  import opened Database
  import opened Steps
  import opened Runs
  import opened Signals
  import opened Requests
  import opened Cancels
  import opened Reuse
  import opened Exclusion
  import opened TrainMoves

  // ----- Words told along a route -----

  /** One reversal for each requirement whose switch stands elsewhere. */
  function MoveWords(s: State, r: Route, reqs: seq<Requirement>): seq<Event> {
    if reqs == [] then []
    else
      var q := reqs[0];
      (if q.switch in s.switches && s.switches[q.switch].position != q.position then
         [Event(r.station, SwitchReversed, OfSwitch(q.switch), r.id, MovedTo(q.position))] else [])
      + MoveWords(s, r, reqs[1..])
  }

  /** One lock for each required switch. */
  function SwitchWords(r: Route, reqs: seq<Requirement>): seq<Event> {
    if reqs == [] then []
    else [Event(r.station, SwitchLocked, OfSwitch(reqs[0].switch), r.id, NoPayload)] + SwitchWords(r, reqs[1..])
  }

  /** One lock for each section but the approach. */
  function SectionWords(r: Route, path: seq<Id>): seq<Event> {
    if path == [] then []
    else
      (if path[0] != r.approach then [Event(r.station, LockSet, OfSection(path[0]), r.id, NoPayload)] else [])
      + SectionWords(r, path[1..])
  }

  /** One release for each section the route has locked. */
  function FreedSections(s: State, r: Route, kind: EventKind, path: seq<Id>): seq<Event> {
    if path == [] then []
    else
      (if path[0] in s.sections && s.sections[path[0]].locked && s.sections[path[0]].holder == r.id then
         [Event(r.station, kind, OfSection(path[0]), r.id, NoPayload)] else [])
      + FreedSections(s, r, kind, path[1..])
  }

  /** One release for each switch the route has locked. */
  function FreedSwitches(s: State, r: Route, reqs: seq<Requirement>): seq<Event> {
    if reqs == [] then []
    else
      var w := reqs[0].switch;
      (if w in s.switches && s.switches[w].locked && s.switches[w].holder == r.id then
         [Event(r.station, SwitchReleased, OfSwitch(w), r.id, NoPayload)] else [])
      + FreedSwitches(s, r, reqs[1..])
  }

  // ----- They are what the operations log -----

  lemma SectionEventsStep(station: Id, kind: EventKind, k: Id, ids: seq<Id>, rid: Id)
    ensures SectionEvents(station, kind, [k] + ids, rid) ==
      [Event(station, kind, OfSection(k), rid, NoPayload)] + SectionEvents(station, kind, ids, rid)
  {
  }

  lemma SwitchEventsStep(station: Id, kind: EventKind, w: Id, ids: seq<Id>, rid: Id)
    ensures SwitchEvents(station, kind, [w] + ids, rid) ==
      [Event(station, kind, OfSwitch(w), rid, NoPayload)] + SwitchEvents(station, kind, ids, rid)
  {
  }

  lemma MoveEventsStep(station: Id, q: Requirement, moves: seq<Requirement>, rid: Id)
    ensures MoveEvents(station, [q] + moves, rid) ==
      [Event(station, SwitchReversed, OfSwitch(q.switch), rid, MovedTo(q.position))] + MoveEvents(station, moves, rid)
  {
  }

  lemma {:induction false} MovesAreTold(s: State, r: Route, reqs: seq<Requirement>)
    requires forall q :: q in reqs ==> q.switch in LoadYard(s, r.station).switches
    ensures MoveEvents(r.station, Moves(LoadYard(s, r.station), reqs), r.id) == MoveWords(s, r, reqs)
  {
    if reqs != [] {
      var y := LoadYard(s, r.station);
      assert reqs[0] in reqs;
      MovesAreTold(s, r, reqs[1..]);
      MoveEventsStep(r.station, reqs[0], Moves(y, reqs[1..]), r.id);
      assert [] + Moves(y, reqs[1..]) == Moves(y, reqs[1..]);
    }
  }

  function IdsOf(reqs: seq<Requirement>): seq<Id> {
    seq(|reqs|, i requires 0 <= i < |reqs| => reqs[i].switch)
  }

  lemma {:induction false} LocksAreTold(r: Route, reqs: seq<Requirement>)
    ensures SwitchEvents(r.station, SwitchLocked, IdsOf(reqs), r.id) == SwitchWords(r, reqs)
  {
    if reqs != [] {
      LocksAreTold(r, reqs[1..]);
      assert IdsOf(reqs) == [reqs[0].switch] + IdsOf(reqs[1..]);
      SwitchEventsStep(r.station, SwitchLocked, reqs[0].switch, IdsOf(reqs[1..]), r.id);
    }
  }

  lemma {:induction false} SectionsAreTold(r: Route, path: seq<Id>)
    ensures SectionEvents(r.station, LockSet, WithoutApproach(path, r.approach), r.id) == SectionWords(r, path)
  {
    if path != [] {
      var rest := WithoutApproach(path[1..], r.approach);
      SectionsAreTold(r, path[1..]);
      SectionEventsStep(r.station, LockSet, path[0], rest, r.id);
      assert [] + rest == rest;
    }
  }

  lemma {:induction false} FreedAreTold(s: State, m: map<Id, Section>, r: Route, kind: EventKind, path: seq<Id>)
    requires forall k :: k in path ==> (k in m <==> k in s.sections) && (k in m ==> m[k] == s.sections[k])
    ensures SectionEvents(r.station, kind, HeldSections(m, path, r.id), r.id) == FreedSections(s, r, kind, path)
  {
    if path != [] {
      var rest := HeldSections(m, path[1..], r.id);
      assert path[0] in path;
      FreedAreTold(s, m, r, kind, path[1..]);
      SectionEventsStep(r.station, kind, path[0], rest, r.id);
      assert [] + rest == rest;
    }
  }

  lemma {:induction false} FreedSwitchesAreTold(s: State, m: map<Id, Switch>, r: Route, reqs: seq<Requirement>)
    requires forall q :: q in reqs ==>
      (q.switch in m <==> q.switch in s.switches) && (q.switch in m ==> m[q.switch] == s.switches[q.switch])
    ensures SwitchEvents(r.station, SwitchReleased, HeldSwitches(m, IdsOf(reqs), r.id), r.id) ==
      FreedSwitches(s, r, reqs)
  {
    if reqs != [] {
      var rest := HeldSwitches(m, IdsOf(reqs[1..]), r.id);
      assert reqs[0] in reqs;
      FreedSwitchesAreTold(s, m, r, reqs[1..]);
      assert IdsOf(reqs)[1..] == IdsOf(reqs[1..]);
      SwitchEventsStep(r.station, SwitchReleased, reqs[0].switch, rest, r.id);
      assert [] + rest == rest;
    }
  }

  // ----- What each request appends -----

  lemma IdsAgree(r: Route)
    ensures IdsOf(r.requirements) == r.SwitchIds()
  {
  }

  /** Reversals, switch locks and section locks in the order of the route, then the route and its signal. */
  lemma EstablishLogs(s: State, rid: Id, now: int)
    requires WellFormed(s) && MaySet(s, rid)
    ensures
      var r := s.routes[rid];
      After(s, EstablishTx(s, rid, now)).log == s.log
        + MoveWords(s, r, r.requirements) + SwitchWords(r, r.requirements) + SectionWords(r, r.path)
        + [Event(r.station, RouteEstablished, OfRoute(rid), rid, NoPayload)]
        + [Event(r.station, SignalOpened, OfSignal(r.signal), rid, Shows(OpeningAspect(r)))]
  {
    var r := s.routes[rid];
    var plan := StationPlan(s, r);
    EstablishGrantedIff(s, rid, now);
    EstablishCases(s, rid, now);
    SetSignal(s, rid, now);
    MovesAreTold(s, r, r.requirements);
    IdsAgree(r);
    LocksAreTold(r, r.requirements);
    SectionsAreTold(r, r.path);
    AppendFive(s.log, MoveEvents(r.station, plan.moves, rid),
               SwitchEvents(r.station, SwitchLocked, plan.switchLocks, rid),
               SectionEvents(r.station, LockSet, plan.sectionLocks, rid), [RouteEvent(r, RouteEstablished, NoPayload)],
               [SignalEvent(r, SignalOpened, Shows(OpeningAspect(r)))]);
  }

  lemma AppendFive(log: seq<Event>, a: seq<Event>, b: seq<Event>, c: seq<Event>, d: seq<Event>, e: seq<Event>)
    ensures log + (a + b + c + d + e) == log + a + b + c + d + e
  {
  }

  /** The releases told of the rows, with what follows them. */
  function FreedWords(s: State, r: Route, kind: EventKind): seq<Event> {
    FreedSections(s, r, kind, r.path) + FreedSwitches(s, r, r.requirements)
  }

  lemma HeldAreTold(s: State, r: Route, kind: EventKind)
    ensures FreedWords(s, r, kind) ==
      SectionEvents(r.station, kind, HeldSecs(s, r), r.id)
      + SwitchEvents(r.station, SwitchReleased, HeldSws(s, r), r.id)
  {
    FreedAreTold(s, s.sections, r, kind, r.path);
    IdsAgree(r);
    FreedSwitchesAreTold(s, s.switches, r, r.requirements);
  }

  lemma Regroup(log: seq<Event>, a: seq<Event>, b: seq<Event>, tail: seq<Event>)
    ensures log + a + b + tail == log + (a + b) + tail
  {
  }

  lemma CancelLogs(s: State, rid: Id, now: int)
    requires Keyed(s.routes) && rid in s.routes && s.routes[rid].state == Established && !MustWait(s, rid)
    ensures
      var r := s.routes[rid];
      After(s, CancelTx(s, rid, now)).log == s.log + FreedWords(s, r, LockReleased)
        + [Event(r.station, RouteUnlocked, OfRoute(rid), rid, NoPayload),
           Event(r.station, SignalClosed, OfSignal(r.signal), rid, NoPayload),
           Event(r.station, CancelRequested, OfRoute(rid), rid, ImmediateMode)]
  {
    var r := s.routes[rid];
    HeldAreTold(s, r, LockReleased);
    assert LoadYard(s, r.station).Occupied(r.approach) <==> OccupiedAt(s, r.station, r.approach);
    Regroup(s.log, SectionEvents(r.station, LockReleased, HeldSecs(s, r), rid),
            SwitchEvents(r.station, SwitchReleased, HeldSws(s, r), rid),
            [RouteEvent(r, RouteUnlocked, NoPayload), SignalEvent(r, SignalClosed, NoPayload),
             RouteEvent(r, CancelRequested, ImmediateMode)]);
  }

  lemma CompleteLogs(s: State, rid: Id, now: int)
    requires Keyed(s.routes) && rid in s.routes && s.routes[rid].state == Cancelling
    ensures
      var r := s.routes[rid];
      var word := Event(r.station, DelayUnlockCompleted, OfRoute(rid), rid, NoPayload);
      After(s, CompleteTx(s, rid, now)).log == s.log + FreedWords(s, r, LockReleased) + [word, word]
  {
    var r := s.routes[rid];
    var word := RouteEvent(r, DelayUnlockCompleted, NoPayload);
    HeldAreTold(s, r, LockReleased);
    Regroup(s.log, SectionEvents(r.station, LockReleased, HeldSecs(s, r), rid),
            SwitchEvents(r.station, SwitchReleased, HeldSws(s, r), rid), [word, word]);
  }

  lemma FaultLogs(s: State, rid: Id, now: int)
    requires WellFormed(s) && rid in s.routes
    ensures After(s, FaultTx(s, rid, now)).log == s.log + FreedWords(s, s.routes[rid], LockReleased)
  {
    var r := s.routes[rid];
    var y := LoadYard(s, r.station);
    FreedAreTold(s, y.sections, r, LockReleased, r.path);
    IdsAgree(r);
    FreedSwitchesAreTold(s, y.switches, r, r.requirements);
    Regroup(s.log, SectionEvents(r.station, LockReleased, HeldSections(y.sections, r.path, rid), rid),
            SwitchEvents(r.station, SwitchReleased, HeldSwitches(y.switches, r.SwitchIds(), rid), rid), []);
  }

  // ----- Train moves -----

  /** An entry is logged first, then the approach lock it sets, if any. */
  lemma EntryLogs(s: State, train: Id, k: Id, c: Choice)
    requires Keyed(s.routes) && k in s.sections && ChoiceFor(s, k, true, c)
    ensures
      var t := After(s, MoveTx(s, train, k, true, c));
      var station := s.sections[k].station;
      && s.log + [Event(station, SectionOccupied, OfSection(k), NO_ID, ByTrain(train))] <= t.log
      && ((exists q :: AtApproach(s, q, k)) ==>
            exists q ::
              && AtApproach(s, q, k) && q in t.routes && t.routes[q].state == ApproachLocked
              && |s.log| + 1 < |t.log|
              && t.log[|s.log| + 1] == Event(station, LockSet, OfRoute(q), q, ApproachNote))
  {
    var y := LoadYard(s, s.sections[k].station);
    var eff := MoveEffect(s, k, true, c);
    TrainCases(s, train, k, true, c);
    VisitAllTraced(y, k, true, c.order);
    TargetIsCandidate(s, k, true, c);
    ApproachMeans(s, eff.approachLock, k);
    if q :| AtApproach(s, q, k) {
      ApproachMeans(s, q, k);
      assert q in y.routes.Keys && q in c.order && RouteSeen(y, k, true, eff, y.routes[q]);
      assert AtApproach(s, eff.approachLock, k);
    }
  }

  lemma ClearLogs(s: State, train: Id, k: Id, c: Choice)
    requires Keyed(s.routes) && k in s.sections && ChoiceFor(s, k, false, c)
    ensures
      s.log + [Event(s.sections[k].station, SectionCleared, OfSection(k), NO_ID, ByTrain(train))]
        <= After(s, MoveTx(s, train, k, false, c)).log
  {
    TrainCases(s, train, k, false, c);
    VisitAllTraced(LoadYard(s, s.sections[k].station), k, false, c.order);
    MoveLogsFirst(s, train, k, c);
    if MoveEffect(s, k, false, c).complete != NO_ID {
      ReleaseOnlyAppends(MovedOf(s, train, k, false, c), s.routes[MoveEffect(s, k, false, c).complete]);
    }
  }

  lemma MoveLogsFirst(s: State, train: Id, k: Id, c: Choice)
    requires Keyed(s.routes) && k in s.sections && ChoiceFor(s, k, false, c)
    requires var eff := MoveEffect(s, k, false, c); eff.section == k && !eff.nowOccupied
    ensures
      s.log + [Event(s.sections[k].station, SectionCleared, OfSection(k), NO_ID, ByTrain(train))]
        <= MovedOf(s, train, k, false, c).log
  {
    MoveTouchesKnownRoutes(s, k, false, c);
  }

  lemma ReleaseOnlyAppends(m: State, r: Route)
    ensures m.log <= NormallyReleased(m, r).log
  {
  }
}
