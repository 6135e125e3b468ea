/**
 The route operations as they run against the store, each inside one transaction, proved equal to
 the step functions (internal/service/route_service.go).
 */
module RouteService {
  import opened Model
  import opened RoutePlan
  import opened Interlocking
  import opened Signaling
  import opened Database
  import opened Steps
  import opened Storage

  // ----- Bulk updates, one row and one event at a time -----

  lemma MovesPrefix(m: map<Id, Switch>, station: Id, moves: seq<Requirement>, i: int, rid: Id)
    requires DistinctMoves(moves) && 0 <= i < |moves|
    ensures
      var before := MoveSwitches(m, moves[..i]);
      MoveSwitches(m, moves[..i + 1]) ==
        if moves[i].switch in before
        then before[moves[i].switch := before[moves[i].switch].(position := moves[i].position)]
        else before
    ensures MoveEvents(station, moves[..i + 1], rid) == MoveEvents(station, moves[..i], rid)
      + [Event(station, SwitchReversed, OfSwitch(moves[i].switch), rid, MovedTo(moves[i].position))]
  {
    assert moves[..i + 1][..i] == moves[..i];
    MoveLast(m, moves[..i + 1]);
  }

  lemma MoveFaultStep(y: Yard, moves: seq<Requirement>, i: int)
    requires 0 <= i < |moves|
    ensures
      var e := CheckSwitchMove(y, moves[i].switch);
      FirstMoveFault(y, moves[i..]) == if e.Some? then e else FirstMoveFault(y, moves[i + 1..])
  {
    assert moves[i..][1..] == moves[i + 1..];
  }

  /** Step (3) of establishment: re-check, reverse and log each planned move. */
  method PerformMoves(st: Store, y: Yard, r: Route, moves: seq<Requirement>) returns (fault: Option<Error>)
    requires DistinctMoves(moves)
    requires forall q :: q in moves ==> q.switch in st.switches
    modifies st
    ensures fault == FirstMoveFault(y, moves)
    ensures fault.None? ==>
      st.Rows() == old(st.Rows()).(switches := MoveSwitches(old(st.switches), moves),
                                   log := old(st.log) + MoveEvents(r.station, moves, r.id))
  {
    ghost var s := st.Rows();
    assert MoveSwitches(s.switches, []) == s.switches;
    for i := 0 to |moves|
      invariant st.Rows() == s.(switches := MoveSwitches(s.switches, moves[..i]),
                                log := s.log + MoveEvents(r.station, moves[..i], r.id))
      invariant FirstMoveFault(y, moves) == FirstMoveFault(y, moves[i..])
    {
      var mv := moves[i];
      assert mv in moves;
      MoveFaultStep(y, moves, i);
      if mv.switch !in st.switches {
        return Some(ErrInvalidRoute);
      }
      var e := CheckSwitchMove(y, mv.switch);
      if e.Some? {
        return e;
      }
      MovesPrefix(s.switches, r.station, moves, i, r.id);
      st.SetSwitchPosition(mv.switch, mv.position);
      st.AppendEvent(Event(r.station, SwitchReversed, OfSwitch(mv.switch), r.id, MovedTo(mv.position)));
    }
    assert moves[..|moves|] == moves;
    fault := None;
  }

  lemma LockSwitchesLast(m: map<Id, Switch>, ids: seq<Id>, i: int, rid: Id)
    requires 0 <= i < |ids|
    ensures
      var before := LockSwitches(m, ids[..i], rid);
      LockSwitches(m, ids[..i + 1], rid) ==
        if ids[i] in before then before[ids[i] := before[ids[i]].(locked := true, holder := rid)] else before
  {
    assert ids[..i + 1] == ids[..i] + [ids[i]];
  }

  method LockAllSwitches(st: Store, r: Route, ids: seq<Id>)
    modifies st
    ensures st.Rows() == old(st.Rows()).(switches := LockSwitches(old(st.switches), ids, r.id),
                                         log := old(st.log) + SwitchEvents(r.station, SwitchLocked, ids, r.id))
  {
    ghost var s := st.Rows();
    assert LockSwitches(s.switches, [], r.id) == s.switches;
    for i := 0 to |ids|
      invariant st.Rows() == s.(switches := LockSwitches(s.switches, ids[..i], r.id),
                                log := s.log + SwitchEvents(r.station, SwitchLocked, ids[..i], r.id))
    {
      LockSwitchesLast(s.switches, ids, i, r.id);
      st.SetSwitchLocked(ids[i], true, r.id);
      st.AppendEvent(Event(r.station, SwitchLocked, OfSwitch(ids[i]), r.id, NoPayload));
      assert SwitchEvents(r.station, SwitchLocked, ids[..i + 1], r.id) ==
        SwitchEvents(r.station, SwitchLocked, ids[..i], r.id)
        + [Event(r.station, SwitchLocked, OfSwitch(ids[i]), r.id, NoPayload)];
    }
    assert ids[..|ids|] == ids;
  }

  lemma LockSectionsLast(m: map<Id, Section>, ids: seq<Id>, i: int, rid: Id)
    requires 0 <= i < |ids|
    ensures
      var before := LockSections(m, ids[..i], rid);
      LockSections(m, ids[..i + 1], rid) ==
        if ids[i] in before then before[ids[i] := before[ids[i]].(locked := true, holder := rid)] else before
  {
    assert ids[..i + 1] == ids[..i] + [ids[i]];
  }

  method LockAllSections(st: Store, r: Route, ids: seq<Id>)
    modifies st
    ensures st.Rows() == old(st.Rows()).(sections := LockSections(old(st.sections), ids, r.id),
                                         log := old(st.log) + SectionEvents(r.station, LockSet, ids, r.id))
  {
    ghost var s := st.Rows();
    assert LockSections(s.sections, [], r.id) == s.sections;
    for i := 0 to |ids|
      invariant st.Rows() == s.(sections := LockSections(s.sections, ids[..i], r.id),
                                log := s.log + SectionEvents(r.station, LockSet, ids[..i], r.id))
    {
      LockSectionsLast(s.sections, ids, i, r.id);
      st.SetSectionLocked(ids[i], true, r.id);
      st.AppendEvent(Event(r.station, LockSet, OfSection(ids[i]), r.id, NoPayload));
      assert SectionEvents(r.station, LockSet, ids[..i + 1], r.id) ==
        SectionEvents(r.station, LockSet, ids[..i], r.id)
        + [Event(r.station, LockSet, OfSection(ids[i]), r.id, NoPayload)];
    }
    assert ids[..|ids|] == ids;
  }

  lemma UnlockSectionsSnoc(m: map<Id, Section>, ids: seq<Id>, k: Id)
    ensures
      var before := UnlockSections(m, ids);
      UnlockSections(m, ids + [k]) ==
        if k in before then before[k := before[k].(locked := false, holder := NO_ID)] else before
  {
  }

  lemma UnlockSwitchesSnoc(m: map<Id, Switch>, ids: seq<Id>, w: Id)
    ensures
      var before := UnlockSwitches(m, ids);
      UnlockSwitches(m, ids + [w]) ==
        if w in before then before[w := before[w].(locked := false, holder := NO_ID)] else before
  {
  }

  lemma SectionEventsSnoc(station: Id, kind: EventKind, ids: seq<Id>, k: Id, rid: Id)
    ensures SectionEvents(station, kind, ids + [k], rid) ==
      SectionEvents(station, kind, ids, rid) + [Event(station, kind, OfSection(k), rid, NoPayload)]
  {
  }

  lemma SwitchEventsSnoc(station: Id, kind: EventKind, ids: seq<Id>, w: Id, rid: Id)
    ensures SwitchEvents(station, kind, ids + [w], rid) ==
      SwitchEvents(station, kind, ids, rid) + [Event(station, kind, OfSwitch(w), rid, NoPayload)]
  {
  }

  lemma HeldSectionsStep(m: map<Id, Section>, path: seq<Id>, i: int, rid: Id)
    requires 0 <= i < |path|
    ensures HeldSections(m, path[i..], rid) ==
      (if SectionHeld(m, path[i], rid) then [path[i]] else []) + HeldSections(m, path[i + 1..], rid)
  {
    assert path[i..][1..] == path[i + 1..];
  }

  lemma HeldSwitchesStep(m: map<Id, Switch>, ids: seq<Id>, i: int, rid: Id)
    requires 0 <= i < |ids|
    ensures HeldSwitches(m, ids[i..], rid) ==
      (if SwitchHeld(m, ids[i], rid) then [ids[i]] else []) + HeldSwitches(m, ids[i + 1..], rid)
  {
    assert ids[i..][1..] == ids[i + 1..];
  }

  /** One more section unlocked and logged, on top of `dropped`. */
  method DropSection(st: Store, r: Route, k: Id, kind: EventKind, ghost s: State, ghost dropped: seq<Id>)
    requires st.Rows() == s.(sections := UnlockSections(s.sections, dropped),
                             log := s.log + SectionEvents(r.station, kind, dropped, r.id))
    modifies st
    ensures st.Rows() == s.(sections := UnlockSections(s.sections, dropped + [k]),
                            log := s.log + SectionEvents(r.station, kind, dropped + [k], r.id))
  {
    UnlockSectionsSnoc(s.sections, dropped, k);
    SectionEventsSnoc(r.station, kind, dropped, k, r.id);
    st.SetSectionLocked(k, false, NO_ID);
    st.AppendEvent(Event(r.station, kind, OfSection(k), r.id, NoPayload));
  }

  /** One more switch unlocked and logged, on top of `dropped`. */
  method DropSwitch(st: Store, r: Route, w: Id, ghost s: State, ghost dropped: seq<Id>)
    requires st.Rows() == s.(switches := UnlockSwitches(s.switches, dropped),
                             log := s.log + SwitchEvents(r.station, SwitchReleased, dropped, r.id))
    modifies st
    ensures st.Rows() == s.(switches := UnlockSwitches(s.switches, dropped + [w]),
                            log := s.log + SwitchEvents(r.station, SwitchReleased, dropped + [w], r.id))
  {
    UnlockSwitchesSnoc(s.switches, dropped, w);
    SwitchEventsSnoc(r.station, SwitchReleased, dropped, w, r.id);
    st.SetSwitchLocked(w, false, NO_ID);
    st.AppendEvent(Event(r.station, SwitchReleased, OfSwitch(w), r.id, NoPayload));
  }

  lemma UnlockSpares(m: map<Id, Section>, ids: seq<Id>, k: Id, rid: Id)
    requires k !in ids
    ensures SectionHeld(UnlockSections(m, ids), k, rid) == SectionHeld(m, k, rid)
  {
  }

  /** Walks the route's sections and drops each lock still held by the route. */
  method DropHeldSections(st: Store, r: Route, kind: EventKind) returns (ghost dropped: seq<Id>)
    requires r.KeysUnique()
    modifies st
    ensures dropped == HeldSections(old(st.sections), r.path, r.id)
    ensures st.Rows() == old(st.Rows()).(sections := UnlockSections(old(st.sections), dropped),
                                         log := old(st.log) + SectionEvents(r.station, kind, dropped, r.id))
  {
    dropped := DropHeldOn(st, r, r.path, kind);
  }

  method DropHeldOn(st: Store, r: Route, path: seq<Id>, kind: EventKind) returns (ghost dropped: seq<Id>)
    requires forall i, j :: 0 <= i < j < |path| ==> path[i] != path[j]
    modifies st
    ensures dropped == HeldSections(old(st.sections), path, r.id)
    ensures st.Rows() == old(st.Rows()).(sections := UnlockSections(old(st.sections), dropped),
                                         log := old(st.log) + SectionEvents(r.station, kind, dropped, r.id))
  {
    ghost var s := st.Rows();
    dropped := [];
    assert UnlockSections(s.sections, []) == s.sections;
    for i := 0 to |path|
      invariant HeldSections(s.sections, path, r.id) == dropped + HeldSections(s.sections, path[i..], r.id)
      invariant forall k :: k in dropped ==> k in path[..i]
      invariant st.Rows() == s.(sections := UnlockSections(s.sections, dropped),
                                log := s.log + SectionEvents(r.station, kind, dropped, r.id))
    {
      var k := path[i];
      assert path[..i + 1] == path[..i] + [k] && k !in path[..i];
      HeldSectionsStep(s.sections, path, i, r.id);
      UnlockSpares(s.sections, dropped, k, r.id);
      if SectionHeld(st.sections, k, r.id) {
        DropSection(st, r, k, kind, s, dropped);
        dropped := dropped + [k];
      }
    }
  }

  lemma SwitchIdsDistinct(r: Route)
    requires r.KeysUnique()
    ensures forall i, j :: 0 <= i < j < |r.SwitchIds()| ==> r.SwitchIds()[i] != r.SwitchIds()[j]
  {
  }

  method DropHeldSwitches(st: Store, r: Route) returns (ghost dropped: seq<Id>)
    requires r.KeysUnique()
    modifies st
    ensures dropped == HeldSwitches(old(st.switches), r.SwitchIds(), r.id)
    ensures st.Rows() == old(st.Rows()).(switches := UnlockSwitches(old(st.switches), dropped),
                                         log := old(st.log) + SwitchEvents(r.station, SwitchReleased, dropped, r.id))
  {
    SwitchIdsDistinct(r);
    dropped := DropHeldAmong(st, r, r.SwitchIds());
  }

  lemma UnlockSwitchSpares(m: map<Id, Switch>, ids: seq<Id>, w: Id, rid: Id)
    requires w !in ids
    ensures SwitchHeld(UnlockSwitches(m, ids), w, rid) == SwitchHeld(m, w, rid)
  {
  }

  method DropHeldAmong(st: Store, r: Route, ids: seq<Id>) returns (ghost dropped: seq<Id>)
    requires forall i, j :: 0 <= i < j < |ids| ==> ids[i] != ids[j]
    modifies st
    ensures dropped == HeldSwitches(old(st.switches), ids, r.id)
    ensures st.Rows() == old(st.Rows()).(switches := UnlockSwitches(old(st.switches), dropped),
                                         log := old(st.log) + SwitchEvents(r.station, SwitchReleased, dropped, r.id))
  {
    ghost var s := st.Rows();
    dropped := [];
    assert UnlockSwitches(s.switches, []) == s.switches;
    for i := 0 to |ids|
      invariant HeldSwitches(s.switches, ids, r.id) == dropped + HeldSwitches(s.switches, ids[i..], r.id)
      invariant forall w :: w in dropped ==> w in ids[..i]
      invariant st.Rows() == s.(switches := UnlockSwitches(s.switches, dropped),
                                log := s.log + SwitchEvents(r.station, SwitchReleased, dropped, r.id))
    {
      var w := ids[i];
      assert ids[..i + 1] == ids[..i] + [w] && w !in ids[..i];
      HeldSwitchesStep(s.switches, ids, i, r.id);
      UnlockSwitchSpares(s.switches, dropped, w, r.id);
      if SwitchHeld(st.switches, w, r.id) {
        DropSwitch(st, r, w, s, dropped);
        dropped := dropped + [w];
      }
    }
  }

  /** The fault unlock works through explicit lists. */
  method UnlockListed(st: Store, r: Route, secs: seq<Id>, sws: seq<Id>)
    modifies st
    ensures st.Rows() == old(st.Rows()).(
      sections := UnlockSections(old(st.sections), secs),
      switches := UnlockSwitches(old(st.switches), sws),
      log := old(st.log) + SectionEvents(r.station, LockReleased, secs, r.id)
                         + SwitchEvents(r.station, SwitchReleased, sws, r.id))
  {
    UnlockListedSections(st, r, secs);
    UnlockListedSwitches(st, r, sws);
  }

  method UnlockListedSections(st: Store, r: Route, secs: seq<Id>)
    modifies st
    ensures st.Rows() == old(st.Rows()).(sections := UnlockSections(old(st.sections), secs),
                                         log := old(st.log) + SectionEvents(r.station, LockReleased, secs, r.id))
  {
    ghost var s := st.Rows();
    assert UnlockSections(s.sections, []) == s.sections;
    for i := 0 to |secs|
      invariant st.Rows() == s.(sections := UnlockSections(s.sections, secs[..i]),
                                log := s.log + SectionEvents(r.station, LockReleased, secs[..i], r.id))
    {
      assert secs[..i + 1] == secs[..i] + [secs[i]];
      DropSection(st, r, secs[i], LockReleased, s, secs[..i]);
    }
    assert secs[..|secs|] == secs;
  }

  method UnlockListedSwitches(st: Store, r: Route, sws: seq<Id>)
    modifies st
    ensures st.Rows() == old(st.Rows()).(switches := UnlockSwitches(old(st.switches), sws),
                                         log := old(st.log) + SwitchEvents(r.station, SwitchReleased, sws, r.id))
  {
    ghost var s := st.Rows();
    assert UnlockSwitches(s.switches, []) == s.switches;
    for i := 0 to |sws|
      invariant st.Rows() == s.(switches := UnlockSwitches(s.switches, sws[..i]),
                                log := s.log + SwitchEvents(r.station, SwitchReleased, sws[..i], r.id))
    {
      assert sws[..i + 1] == sws[..i] + [sws[i]];
      DropSwitch(st, r, sws[i], s, sws[..i]);
    }
    assert sws[..|sws|] == sws;
  }

  // ----- The operations -----

  /** What the caller gets: the fresh row, or the error of a transaction that left no trace. */
  ghost predicate Answers(res: Result<Route>, o: Outcome, rid: Id) {
    match o
    case Committed(t) => rid in t.routes && res == Ok(t.routes[rid])
    case RolledBack(e) => res == Err(e)
  }

  method DefineRoute(st: Store, r: Route) returns (err: Option<Error>)
    requires Keyed(st.routes) && r.id != NO_ID
    modifies st
    ensures st.Rows() == After(old(st.Rows()), DefineTx(old(st.Rows()), r))
    ensures err == match DefineTx(old(st.Rows()), r) case Committed(_) => None case RolledBack(e) => Some(e)
  {
    var y, table := st.Load(r.station);
    var defined := ValidateRouteDefinition(y, r);
    if !defined {
      return Some(ErrInvalidRoute);
    }
    var unique := KeysAreUnique(r);
    if r.id in st.routes || !unique {
      return Some(ErrDuplicateKey);
    }
    st.routes := st.routes[r.id := r.WithState(Pending, None, None, None)];
    return None;
  }

  /** The primary keys of the child tables reject a repeated section or switch. */
  method KeysAreUnique(r: Route) returns (unique: bool)
    ensures unique == r.KeysUnique()
  {
    for i := 0 to |r.path|
      invariant forall a, b :: 0 <= a < b < i ==> r.path[a] != r.path[b]
    {
      var seen := Contains(r.path[..i], r.path[i]);
      if seen {
        var a :| 0 <= a < i && r.path[..i][a] == r.path[i];
        assert r.path[a] == r.path[i];
        return false;
      }
      assert forall a :: 0 <= a < i ==> r.path[a] in r.path[..i];
    }
    var ids := r.SwitchIds();
    for i := 0 to |ids|
      invariant forall a, b :: 0 <= a < b < i ==> ids[a] != ids[b]
    {
      var seen := Contains(ids[..i], ids[i]);
      if seen {
        var a :| 0 <= a < i && ids[..i][a] == ids[i];
        assert r.requirements[a].switch == r.requirements[i].switch;
        return false;
      }
      assert forall a :: 0 <= a < i ==> ids[a] in ids[..i];
    }
    assert forall a, b :: 0 <= a < b < |ids| ==> r.requirements[a].switch == ids[a] != ids[b];
    return true;
  }

  /** Steps (4) and (5): locks, state, protection and the opening aspect. */
  method CommitEstablish(st: Store, r: Route, plan: Plan, now: int)
    requires r.id in st.routes && st.routes[r.id] == r
    modifies st
    ensures
      var s := old(st.Rows());
      var switches := LockSwitches(s.switches, plan.switchLocks, r.id);
      var aspect := AspectForOpen(r, map w | w in plan.switchLocks && w in switches :: switches[w]);
      st.Rows() == s.(
        sections := LockSections(s.sections, plan.sectionLocks, r.id),
        switches := switches,
        signals := ShowAspect(Protect(s.signals, r.signal, r.id), r.signal, aspect),
        routes := s.routes[r.id := r.WithState(Established, Some(now), None, None)],
        log := s.log + SwitchEvents(r.station, SwitchLocked, plan.switchLocks, r.id)
                     + SectionEvents(r.station, LockSet, plan.sectionLocks, r.id)
                     + [RouteEvent(r, RouteEstablished, NoPayload)]
                     + if aspect != Red then [SignalEvent(r, SignalOpened, Shows(aspect))] else [])
  {
    LockAllSwitches(st, r, plan.switchLocks);
    LockAllSections(st, r, plan.sectionLocks);
    st.SetRouteState(r.id, Established, Some(now), None, None);
    st.AppendEvent(RouteEvent(r, RouteEstablished, NoPayload));
    st.SetSignalProtectsRoute(r.signal, r.id);
    var locked := ReadBack(st, plan.switchLocks);
    var aspect := ScanAspectForOpen(r, locked);
    st.SetSignalAspect(r.signal, aspect);
    if aspect != Red {
      st.AppendEvent(SignalEvent(r, SignalOpened, Shows(aspect)));
    }
  }

  method ReadBack(st: Store, ids: seq<Id>) returns (m: map<Id, Switch>)
    ensures m == map w | w in ids && w in st.switches :: st.switches[w]
  {
    m := map[];
    for i := 0 to |ids|
      invariant m == map w | w in ids[..i] && w in st.switches :: st.switches[w]
    {
      assert ids[..i + 1] == ids[..i] + [ids[i]];
      if ids[i] in st.switches {
        m := m[ids[i] := st.switches[ids[i]]];
      }
    }
    assert ids[..|ids|] == ids;
  }

  method Establish(st: Store, rid: Id, now: int) returns (res: Result<Route>)
    requires Keyed(st.routes)
    modifies st
    ensures st.Rows() == After(old(st.Rows()), EstablishTx(old(st.Rows()), rid, now))
    ensures Answers(res, EstablishTx(old(st.Rows()), rid, now), rid)
  {
    var saved := st.Rows();
    if rid !in st.routes {
      return Err(ErrNoRows);
    }
    var r := st.routes[rid];
    var y, table := st.Load(r.station);
    var check := RunCheckEstablish(y, table, r);
    if check.Err? {
      // The failed row and its event are written, and then undone with the transaction.
      st.SetRouteState(rid, Failed, None, None, None);
      st.AppendEvent(RouteEvent(r, RouteFailed, Reason(check.error)));
      st.Rollback(saved);
      return Err(check.error);
    }
    PlanMovesAreKnown(saved, r, check.value);
    var fault := ApplyPlan(st, y, r, check.value, now);
    if fault.Some? {
      st.Rollback(saved);
      return Err(fault.value);
    }
    return Ok(st.routes[rid]);
  }

  /** Steps (3) to (5). */
  method ApplyPlan(st: Store, y: Yard, r: Route, plan: Plan, now: int) returns (fault: Option<Error>)
    requires r.id in st.routes && st.routes[r.id] == r
    requires DistinctMoves(plan.moves) && forall q :: q in plan.moves ==> q.switch in st.switches
    modifies st
    ensures fault == FirstMoveFault(y, plan.moves)
    ensures fault.None? ==> st.Rows() == EstablishedState(old(st.Rows()), r, plan, now)
  {
    ghost var s := st.Rows();
    fault := PerformMoves(st, y, r, plan.moves);
    if fault.None? {
      CommitEstablish(st, r, plan, now);
      assert st.log == s.log + EstablishEvents(r, plan, OpenAspect(s, r, plan));
    }
  }

  lemma PlanMovesAreKnown(s: State, r: Route, plan: Plan)
    requires r.KeysUnique() && CheckEstablish(LoadYard(s, r.station), r) == Ok(plan)
    ensures DistinctMoves(plan.moves)
    ensures forall q :: q in plan.moves ==> q.switch in s.switches
  {
    var y := LoadYard(s, r.station);
    MovesDistinct(y, r.requirements);
    forall q | q in plan.moves
      ensures q.switch in s.switches
    {
      MovesMeaning(y, r.requirements, q);
    }
  }

  /** Drops the route's locks and moves it to Unlocked or Cancelled; callers then overwrite the row. */
  method ReleaseRouteLocks(st: Store, r: Route, viaCancel: bool)
    requires r.KeysUnique() && r.id in st.routes && st.routes[r.id] == r
    modifies st
    ensures
      var s := old(st.Rows());
      st.Rows() == s.(
        sections := UnlockSections(s.sections, HeldSecs(s, r)),
        switches := UnlockSwitches(s.switches, HeldSws(s, r)),
        routes := s.routes[r.id :=
          r.WithState(if viaCancel then Cancelled else Unlocked, r.establishedAt, r.cancelledAt, None)],
        log := s.log + SectionEvents(r.station, LockReleased, HeldSecs(s, r), r.id)
                     + SwitchEvents(r.station, SwitchReleased, HeldSws(s, r), r.id)
                     + [RouteEvent(r, if viaCancel then DelayUnlockCompleted else RouteUnlocked, NoPayload)])
  {
    ghost var secs := DropHeldSections(st, r, LockReleased);
    ghost var sws := DropHeldSwitches(st, r);
    st.SetRouteState(r.id, if viaCancel then Cancelled else Unlocked, r.establishedAt, r.cancelledAt, None);
    st.AppendEvent(RouteEvent(r, if viaCancel then DelayUnlockCompleted else RouteUnlocked, NoPayload));
  }

  method CancelImmediately(st: Store, r: Route, now: int)
    requires r.KeysUnique() && r.id in st.routes && st.routes[r.id] == r
    modifies st
    ensures st.Rows() == CancelledNow(old(st.Rows()), r, now)
  {
    ghost var s := st.Rows();
    ThreeEvents(s.log + SectionEvents(r.station, LockReleased, HeldSecs(s, r), r.id)
                      + SwitchEvents(r.station, SwitchReleased, HeldSws(s, r), r.id),
                RouteEvent(r, RouteUnlocked, NoPayload), SignalEvent(r, SignalClosed, NoPayload),
                RouteEvent(r, CancelRequested, ImmediateMode));
    ReleaseRouteLocks(st, r, false);
    st.SetSignalAspect(r.signal, Red);
    st.SetSignalProtectsRoute(r.signal, NO_ID);
    st.AppendEvent(SignalEvent(r, SignalClosed, NoPayload));
    st.SetRouteState(r.id, Cancelled, None, Some(now), None);
    assert st.routes == s.routes[r.id := r.WithState(Cancelled, None, Some(now), None)];
    st.AppendEvent(RouteEvent(r, CancelRequested, ImmediateMode));
    st.ClearOnceOccupied(r.id);
  }

  method CancelTimed(st: Store, r: Route, now: int, delay: int)
    requires r.id in st.routes && st.routes[r.id] == r
    modifies st
    ensures st.Rows() == CancelStarted(old(st.Rows()), r, now, delay)
  {
    ghost var s := st.Rows();
    st.SetRouteState(r.id, Cancelling, None, Some(now), Some(now));
    st.AppendEvent(RouteEvent(r, CancelRequested, TimedMode));
    st.CreateDelayTimer(r.id, r.station, r.kind, now, delay);
    st.AppendEvent(RouteEvent(r, DelayUnlockStarted, Delay(delay)));
    st.SetSignalAspect(r.signal, Red);
    st.AppendEvent(SignalEvent(r, SignalClosed, NoPayload));
    assert st.log == CancelStarted(s, r, now, delay).log;
  }

  method Cancel(st: Store, rid: Id, now: int) returns (res: Result<Route>)
    requires Keyed(st.routes)
    modifies st
    ensures st.Rows() == After(old(st.Rows()), CancelTx(old(st.Rows()), rid, now))
    ensures Answers(res, CancelTx(old(st.Rows()), rid, now), rid)
  {
    if rid !in st.routes {
      return Err(ErrNoRows);
    }
    var r := st.routes[rid];
    var y, table := st.Load(r.station);
    var decision := DecideCancel(y, r);
    if decision.Err? {
      return Err(decision.error);
    }
    match decision.value {
      case Immediate => CancelImmediately(st, r, now);
      case Timed(delay) => CancelTimed(st, r, now, delay);
    }
    return Ok(st.routes[rid]);
  }

  method CompleteDelayedCancel(st: Store, rid: Id, now: int) returns (res: Result<Route>)
    requires Keyed(st.routes)
    modifies st
    ensures st.Rows() == After(old(st.Rows()), CompleteTx(old(st.Rows()), rid, now))
    ensures Answers(res, CompleteTx(old(st.Rows()), rid, now), rid)
  {
    if rid !in st.routes {
      return Err(ErrNoRows);
    }
    var r := st.routes[rid];
    if r.state != Cancelling {
      return Err(ErrRouteNotEstablished);
    }
    FinishCancel(st, r, now);
    return Ok(st.routes[rid]);
  }

  lemma TwoEvents(log: seq<Event>, x: Event, y: Event)
    ensures log + [x] + [y] == log + [x, y]
  {
  }

  lemma ThreeEvents(log: seq<Event>, x: Event, y: Event, z: Event)
    ensures log + [x] + [y] + [z] == log + [x, y, z]
  {
  }

  /** Marks the timer completed and deletes it at once. */
  method DropTimer(st: Store, rid: Id)
    modifies st`timers
    ensures st.timers == old(st.timers) - {rid}
  {
    st.CompleteDelayTimer(rid);
    st.DeleteDelayTimer(rid);
  }

  method FinishCancel(st: Store, r: Route, now: int)
    requires r.KeysUnique() && r.id in st.routes && st.routes[r.id] == r
    modifies st
    ensures st.Rows() == CancelCompleted(old(st.Rows()), r, now)
  {
    ghost var s := st.Rows();
    var e := RouteEvent(r, DelayUnlockCompleted, NoPayload);
    TwoEvents(s.log + SectionEvents(r.station, LockReleased, HeldSecs(s, r), r.id)
                    + SwitchEvents(r.station, SwitchReleased, HeldSws(s, r), r.id), e, e);
    ReleaseRouteLocks(st, r, true);
    st.SetSignalProtectsRoute(r.signal, NO_ID);
    DropTimer(st, r.id);
    st.SetRouteState(r.id, Cancelled, None, Some(now), None);
    assert st.routes == s.routes[r.id := r.WithState(Cancelled, None, Some(now), None)];
    st.AppendEvent(e);
    st.ClearOnceOccupied(r.id);
  }

  method FaultUnlock(st: Store, rid: Id, now: int) returns (res: Result<Route>)
    requires Keyed(st.routes)
    modifies st
    ensures st.Rows() == After(old(st.Rows()), FaultTx(old(st.Rows()), rid, now))
    ensures Answers(res, FaultTx(old(st.Rows()), rid, now), rid)
  {
    if rid !in st.routes {
      return Err(ErrNoRows);
    }
    var r := st.routes[rid];
    var y, table := st.Load(r.station);
    ForceUnlock(st, y, r, now);
    return Ok(st.routes[rid]);
  }

  method ForceUnlock(st: Store, y: Yard, r: Route, now: int)
    requires r.id in st.routes && st.routes[r.id] == r && y == LoadYard(st.Rows(), r.station)
    modifies st
    ensures st.Rows() == FaultUnlocked(old(st.Rows()), r, now)
  {
    ghost var s := st.Rows();
    var secs, sws := FaultUnlockTarget(y, r);
    UnlockListed(st, r, secs, sws);
    st.SetSignalAspect(r.signal, Red);
    st.SetSignalProtectsRoute(r.signal, NO_ID);
    st.DeleteDelayTimer(r.id);
    st.SetRouteState(r.id, Cancelled, None, Some(now), None);
    st.ClearOnceOccupied(r.id);
    assert st.log == FaultUnlocked(s, r, now).log;
  }

  /** Normal release at the end of a train's passage. `r` is the row of the move's snapshot. */
  method ReleaseNormal(st: Store, r: Route)
    requires r.KeysUnique() && r.id in st.routes && st.routes[r.id].SameDefinition(r)
    modifies st
    ensures st.Rows() == NormallyReleased(old(st.Rows()), r)
  {
    ghost var s := st.Rows();
    ghost var secs := DropHeldSections(st, r, RouteSectionUnlocked);
    ghost var sws := DropHeldSwitches(st, r);
    TwoEvents(st.log, SignalEvent(r, SignalClosed, NoPayload), RouteEvent(r, RouteUnlocked, NoPayload));
    st.SetSignalAspect(r.signal, Red);
    st.AppendEvent(SignalEvent(r, SignalClosed, NoPayload));
    st.SetSignalProtectsRoute(r.signal, NO_ID);
    st.SetRouteState(r.id, Unlocked, r.establishedAt, None, None);
    st.AppendEvent(RouteEvent(r, RouteUnlocked, NoPayload));
    st.ClearOnceOccupied(r.id);
  }
}
