/**
 When a route or switch request is granted and which error refuses it, read off the stored rows
 alone: states by name, elements one by one, conflicts by shared sections and opposite positions.
 */
module Requests {
  import opened Model
  import opened RoutePlan
  import opened Interlocking
  import opened Database
  import opened Steps
  import opened Runs
  import opened Ownership

  // ----- The vocabulary of the rows -----

  /** The states in which a route keeps its locks. */
  predicate InForce(state: RouteState) {
    state == Established || state == ApproachLocked || state == Cancelling
  }

  /** Two routes over one section, or over one switch in two positions. */
  ghost predicate Clash(a: Route, b: Route) {
    && a.id != b.id
    && ((exists k :: k in a.path && k in b.path)
        || (exists w :: Requirement(w, Normal) in a.requirements && Requirement(w, Reverse) in b.requirements)
        || (exists w :: Requirement(w, Reverse) in a.requirements && Requirement(w, Normal) in b.requirements))
  }

  /** Section `k` is recorded as occupied and belongs to the station. */
  predicate OccupiedAt(s: State, station: Id, k: Id) {
    k in s.sections && s.sections[k].station == station && s.sections[k].occupied
  }

  /** The section that holds the switch is one of the switch's own station. */
  predicate SectionKnown(s: State, w: Id)
    requires w in s.switches
  {
    s.switches[w].section in s.sections && s.sections[s.switches[w].section].station == s.switches[w].station
  }

  // ----- Establishment: granted -----

  /** The switch is indicated, and stands right or can be moved. */
  predicate SwitchServes(s: State, q: Requirement) {
    && q.switch in s.switches && s.switches[q.switch].indicated
    && (s.switches[q.switch].position != q.position ==>
          && !s.switches[q.switch].locked
          && SectionKnown(s, q.switch) && !s.sections[s.switches[q.switch].section].occupied)
  }

  /** The section is free, unless it is the approach, and no other route has locked it. */
  predicate SectionServes(s: State, r: Route, k: Id) {
    && k in s.sections
    && (k != r.approach ==> !s.sections[k].occupied)
    && (s.sections[k].locked ==> s.sections[k].holder == r.id)
  }

  ghost predicate NoClash(s: State, r: Route) {
    forall b :: b in s.routes && InForce(s.routes[b].state) ==> !Clash(r, s.routes[b])
  }

  /** The route may be set now. */
  ghost predicate MaySet(s: State, rid: Id) {
    && rid in s.routes
    && var r := s.routes[rid];
       && (r.state == Pending || r.state == Unlocked || r.state == Cancelled || r.state == Failed)
       && NoClash(s, r)
       && (forall q :: q in r.requirements ==> SwitchServes(s, q))
       && (forall k :: k in r.path ==> SectionServes(s, r, k))
  }

  lemma ClashIsConflict(a: Route, b: Route)
    ensures Clash(a, b) <==> Conflicts(a, b)
  {
    if Conflicts(a, b) && !SharesSection(a, b) {
      var w, p: Position :| a.Requires(w, p) && b.Requires(w, p.Opposite());
      assert if p == Normal then Requirement(w, Normal) in a.requirements && Requirement(w, Reverse) in b.requirements
             else Requirement(w, Reverse) in a.requirements && Requirement(w, Normal) in b.requirements;
    }
    if Clash(a, b) && !SharesSection(a, b) {
      if w :| Requirement(w, Normal) in a.requirements && Requirement(w, Reverse) in b.requirements {
        assert a.Requires(w, Normal) && b.Requires(w, Normal.Opposite());
      } else {
        var w :| Requirement(w, Reverse) in a.requirements && Requirement(w, Normal) in b.requirements;
        assert a.Requires(w, Reverse) && b.Requires(w, Reverse.Opposite());
      }
    }
  }

  /** Clashing routes belong to one station, so the station's own rows are enough. */
  lemma ClashesAtHome(s: State, r: Route)
    requires WellFormed(s) && r.id in s.routes && s.routes[r.id] == r
    ensures NoClash(s, r) <==> !Blocked(LoadYard(s, r.station), r)
  {
    var y := LoadYard(s, r.station);
    forall b | b in s.routes
      ensures Clash(r, s.routes[b]) <==> b in y.routes && Conflicts(r, y.routes[b])
      ensures InForce(s.routes[b].state) <==> s.routes[b].state.IsLocked()
    {
      ClashIsConflict(r, s.routes[b]);
      if Clash(r, s.routes[b]) {
        ConflictsAtHome(s, r.id, b);
      }
    }
    if b :| b in y.routes && Conflicts(r, y.routes[b]) && y.routes[b].state.IsLocked() {
      assert Clash(r, s.routes[b]);
    }
    if b :| b in s.routes && InForce(s.routes[b].state) && Clash(r, s.routes[b]) {
      assert Blocked(y, r);
    }
  }

  lemma ConflictsAtHome(s: State, a: Id, b: Id)
    requires WellFormed(s) && a in s.routes && b in s.routes && Conflicts(s.routes[a], s.routes[b])
    ensures s.routes[a].station == s.routes[b].station
  {
    var x, z := s.routes[a], s.routes[b];
    if SharesSection(x, z) {
      var k :| k in x.path && k in z.path;
      assert k in LoadYard(s, x.station).sections && k in LoadYard(s, z.station).sections;
    } else {
      var w, p: Position :| x.Requires(w, p) && z.Requires(w, p.Opposite());
      assert w in LoadYard(s, x.station).switches && w in LoadYard(s, z.station).switches;
    }
  }

  /** The rule's view of one required switch, together with the re-check of the move. */
  lemma SwitchServesMeans(s: State, rid: Id, q: Requirement)
    requires WellFormed(s) && rid in s.routes && q in s.routes[rid].requirements
    ensures
      var y := LoadYard(s, s.routes[rid].station);
      SwitchServes(s, q) <==> SwitchReady(y, rid, q) && (MustMove(y, q) ==> Movable(y, q.switch))
  {
    assert q.switch in LoadYard(s, s.routes[rid].station).switches;
  }

  lemma SectionServesMeans(s: State, rid: Id, k: Id)
    requires WellFormed(s) && rid in s.routes && k in s.routes[rid].path
    ensures SectionServes(s, s.routes[rid], k) <==> SectionReady(LoadYard(s, s.routes[rid].station), s.routes[rid], k)
  {
    assert k in LoadYard(s, s.routes[rid].station).sections;
  }

  lemma MovesPassIff(s: State, rid: Id)
    requires WellFormed(s) && rid in s.routes
    ensures
      var r := s.routes[rid];
      var y := LoadYard(s, r.station);
      FirstMoveFault(y, Moves(y, r.requirements)).None? <==>
        forall q :: q in r.requirements && MustMove(y, q) ==> Movable(y, q.switch)
  {
    var r := s.routes[rid];
    var y := LoadYard(s, r.station);
    MoveChecksPassed(y, Moves(y, r.requirements));
    forall q
      ensures q in Moves(y, r.requirements) <==> q in r.requirements && MustMove(y, q)
    {
      MovesMeaning(y, r.requirements, q);
    }
  }

  /**
   Main result: a route is set if and only if it is pending, unlocked, cancelled or failed, its way
   is free and not locked by others, its switches are indicated and stand right or can move, and no
   route in force clashes with it.
   */
  lemma EstablishGrantedIff(s: State, rid: Id, now: int)
    requires WellFormed(s)
    ensures EstablishTx(s, rid, now).Committed? <==> MaySet(s, rid)
  {
    EstablishCases(s, rid, now);
    if rid in s.routes {
      var r := s.routes[rid];
      var y := LoadYard(s, r.station);
      CheckEstablishExact(y, r);
      MovesPassIff(s, rid);
      ClashesAtHome(s, r);
      forall q | q in r.requirements {
        SwitchServesMeans(s, rid, q);
      }
      forall k | k in r.path {
        SectionServesMeans(s, rid, k);
      }
    }
  }

  // ----- Establishment: refused -----

  /** The switch keeps the route from being set, and this is what is wrong with it. */
  predicate SwitchHinders(s: State, r: Route, q: Requirement, e: Error) {
    && q.switch in s.switches
    && var sw := s.switches[q.switch];
       match e
       case ErrSwitchLostIndication => !sw.indicated
       case ErrInvalidRoute => sw.indicated && sw.position != q.position && !SectionKnown(s, q.switch)
       case ErrSwitchInOccupiedSection =>
         sw.indicated && sw.position != q.position && SectionKnown(s, q.switch) && s.sections[sw.section].occupied
       case ErrSwitchLocked =>
         && sw.indicated && sw.position != q.position && SectionKnown(s, q.switch) && !s.sections[sw.section].occupied
         && sw.locked && sw.holder != r.id
       case _ => false
  }

  predicate SectionHinders(s: State, r: Route, k: Id, e: Error) {
    && k in s.sections
    && var sec := s.sections[k];
       match e
       case ErrSectionOccupied => k != r.approach && sec.occupied
       case ErrSectionLocked => !(k != r.approach && sec.occupied) && sec.locked && sec.holder != r.id
       case _ => false
  }

  predicate SwitchFaulty(s: State, r: Route, q: Requirement) {
    exists e :: SwitchHinders(s, r, q, e)
  }

  predicate SectionFaulty(s: State, r: Route, k: Id) {
    exists e :: SectionHinders(s, r, k, e)
  }

  /** The first switch listed that hinders the route. */
  ghost predicate FirstSwitchHinders(s: State, r: Route, reqs: seq<Requirement>, e: Error) {
    exists i :: 0 <= i < |reqs| && SwitchHinders(s, r, reqs[i], e)
      && forall j :: 0 <= j < i ==> !SwitchFaulty(s, r, reqs[j])
  }

  ghost predicate FirstSectionHinders(s: State, r: Route, path: seq<Id>, e: Error) {
    exists i :: 0 <= i < |path| && SectionHinders(s, r, path[i], e)
      && forall j :: 0 <= j < i ==> !SectionFaulty(s, r, path[j])
  }

  predicate HinderedBySwitch(s: State, r: Route) {
    exists q :: q in r.requirements && SwitchFaulty(s, r, q)
  }

  predicate HinderedBySection(s: State, r: Route) {
    exists k :: k in r.path && SectionFaulty(s, r, k)
  }

  /** A switch to be moved is locked by the very route to be set, which no run leads to. */
  predicate LockedByItself(s: State, r: Route) {
    exists q :: q in r.requirements && q.switch in s.switches
      && s.switches[q.switch].position != q.position && s.switches[q.switch].locked
  }

  /** The answer of a refused establishment: state first, then switches as listed, conflicts, sections as listed. */
  ghost predicate Refuses(s: State, rid: Id, e: Error) {
    if rid !in s.routes then e == ErrNoRows
    else
      var r := s.routes[rid];
      if r.state == Requested || InForce(r.state) then e == ErrRouteTerminalState
      else if HinderedBySwitch(s, r) then FirstSwitchHinders(s, r, r.requirements, e)
      else if !NoClash(s, r) then e == ErrConflictingRoute
      else if HinderedBySection(s, r) then FirstSectionHinders(s, r, r.path, e)
      else LockedByItself(s, r) && e == ErrSwitchLocked
  }

  lemma FirstSwitchLater(s: State, r: Route, reqs: seq<Requirement>, e: Error)
    requires reqs != [] && !SwitchFaulty(s, r, reqs[0]) && FirstSwitchHinders(s, r, reqs, e)
    ensures FirstSwitchHinders(s, r, reqs[1..], e)
  {
    var rest := reqs[1..];
    var i :| 0 <= i < |reqs| && SwitchHinders(s, r, reqs[i], e)
      && forall j :: 0 <= j < i ==> !SwitchFaulty(s, r, reqs[j]);
    assert rest[i - 1] == reqs[i] && forall j :: 0 <= j < i - 1 ==> rest[j] == reqs[j + 1];
  }

  lemma FirstSwitchEarlier(s: State, r: Route, reqs: seq<Requirement>, e: Error)
    requires reqs != [] && !SwitchFaulty(s, r, reqs[0]) && FirstSwitchHinders(s, r, reqs[1..], e)
    ensures FirstSwitchHinders(s, r, reqs, e)
  {
    var rest := reqs[1..];
    var i :| 0 <= i < |rest| && SwitchHinders(s, r, rest[i], e)
      && forall j :: 0 <= j < i ==> !SwitchFaulty(s, r, rest[j]);
    assert reqs[i + 1] == rest[i] && forall j :: 1 <= j < i + 1 ==> reqs[j] == rest[j - 1];
  }

  lemma FirstSwitchStep(s: State, r: Route, reqs: seq<Requirement>, e: Error)
    requires reqs != []
    ensures FirstSwitchHinders(s, r, reqs, e) <==>
      if SwitchFaulty(s, r, reqs[0]) then SwitchHinders(s, r, reqs[0], e)
      else FirstSwitchHinders(s, r, reqs[1..], e)
  {
    if !SwitchFaulty(s, r, reqs[0]) {
      if FirstSwitchHinders(s, r, reqs, e) {
        FirstSwitchLater(s, r, reqs, e);
      }
      if FirstSwitchHinders(s, r, reqs[1..], e) {
        FirstSwitchEarlier(s, r, reqs, e);
      }
    }
  }

  lemma SwitchFaultMeans(s: State, r: Route, q: Requirement, e: Error)
    requires q.switch in LoadYard(s, r.station).switches
    ensures SwitchFault(LoadYard(s, r.station), r.id, q) == Some(e) <==> SwitchHinders(s, r, q, e)
    ensures SwitchFault(LoadYard(s, r.station), r.id, q).Some? <==> SwitchFaulty(s, r, q)
  {
    var fault := SwitchFault(LoadYard(s, r.station), r.id, q);
    if fault.Some? {
      assert SwitchHinders(s, r, q, fault.value);
    }
  }

  lemma {:induction false} FirstSwitchFaultMeans(s: State, r: Route, reqs: seq<Requirement>, e: Error)
    requires forall q :: q in reqs ==> q.switch in LoadYard(s, r.station).switches
    ensures FirstSwitchFault(LoadYard(s, r.station), r.id, reqs) == Some(e) <==> FirstSwitchHinders(s, r, reqs, e)
  {
    if reqs != [] {
      assert reqs == [reqs[0]] + reqs[1..];
      FirstSwitchFaultMeans(s, r, reqs[1..], e);
      FirstSwitchStep(s, r, reqs, e);
      SwitchFaultMeans(s, r, reqs[0], e);
    }
  }

  lemma {:induction false} SomeSwitchFault(s: State, r: Route, reqs: seq<Requirement>)
    requires forall q :: q in reqs ==> q.switch in LoadYard(s, r.station).switches
    ensures FirstSwitchFault(LoadYard(s, r.station), r.id, reqs).Some? <==>
      exists q :: q in reqs && SwitchFaulty(s, r, q)
  {
    if reqs != [] {
      assert reqs == [reqs[0]] + reqs[1..];
      SomeSwitchFault(s, r, reqs[1..]);
      SwitchFaultMeans(s, r, reqs[0], ErrNoRows);
    }
  }

  lemma FirstSectionLater(s: State, r: Route, path: seq<Id>, e: Error)
    requires path != [] && !SectionFaulty(s, r, path[0]) && FirstSectionHinders(s, r, path, e)
    ensures FirstSectionHinders(s, r, path[1..], e)
  {
    var rest := path[1..];
    var i :| 0 <= i < |path| && SectionHinders(s, r, path[i], e)
      && forall j :: 0 <= j < i ==> !SectionFaulty(s, r, path[j]);
    assert rest[i - 1] == path[i] && forall j :: 0 <= j < i - 1 ==> rest[j] == path[j + 1];
  }

  lemma FirstSectionEarlier(s: State, r: Route, path: seq<Id>, e: Error)
    requires path != [] && !SectionFaulty(s, r, path[0]) && FirstSectionHinders(s, r, path[1..], e)
    ensures FirstSectionHinders(s, r, path, e)
  {
    var rest := path[1..];
    var i :| 0 <= i < |rest| && SectionHinders(s, r, rest[i], e)
      && forall j :: 0 <= j < i ==> !SectionFaulty(s, r, rest[j]);
    assert path[i + 1] == rest[i] && forall j :: 1 <= j < i + 1 ==> path[j] == rest[j - 1];
  }

  lemma FirstSectionStep(s: State, r: Route, path: seq<Id>, e: Error)
    requires path != []
    ensures FirstSectionHinders(s, r, path, e) <==>
      if SectionFaulty(s, r, path[0]) then SectionHinders(s, r, path[0], e)
      else FirstSectionHinders(s, r, path[1..], e)
  {
    if !SectionFaulty(s, r, path[0]) {
      if FirstSectionHinders(s, r, path, e) {
        FirstSectionLater(s, r, path, e);
      }
      if FirstSectionHinders(s, r, path[1..], e) {
        FirstSectionEarlier(s, r, path, e);
      }
    }
  }

  lemma SectionFaultMeans(s: State, r: Route, k: Id, e: Error)
    requires k in LoadYard(s, r.station).sections
    ensures SectionFault(LoadYard(s, r.station), r, k) == Some(e) <==> SectionHinders(s, r, k, e)
    ensures SectionFault(LoadYard(s, r.station), r, k).Some? <==> SectionFaulty(s, r, k)
  {
    var fault := SectionFault(LoadYard(s, r.station), r, k);
    if fault.Some? {
      assert SectionHinders(s, r, k, fault.value);
    }
  }

  lemma {:induction false} FirstSectionFaultMeans(s: State, r: Route, path: seq<Id>, e: Error)
    requires forall k :: k in path ==> k in LoadYard(s, r.station).sections
    ensures FirstSectionFault(LoadYard(s, r.station), r, path) == Some(e) <==> FirstSectionHinders(s, r, path, e)
  {
    if path != [] {
      assert path == [path[0]] + path[1..];
      FirstSectionFaultMeans(s, r, path[1..], e);
      FirstSectionStep(s, r, path, e);
      SectionFaultMeans(s, r, path[0], e);
    }
  }

  lemma {:induction false} SomeSectionFault(s: State, r: Route, path: seq<Id>)
    requires forall k :: k in path ==> k in LoadYard(s, r.station).sections
    ensures FirstSectionFault(LoadYard(s, r.station), r, path).Some? <==>
      exists k :: k in path && SectionFaulty(s, r, k)
  {
    if path != [] {
      assert path == [path[0]] + path[1..];
      SomeSectionFault(s, r, path[1..]);
      SectionFaultMeans(s, r, path[0], ErrNoRows);
    }
  }

  /** After a passed check the re-check of a move can only find the switch locked. */
  lemma {:induction false} MoveFaultIsLock(y: Yard, moves: seq<Requirement>, rid: Id)
    requires forall q :: q in moves ==> MustMove(y, q) && SwitchReady(y, rid, q)
    ensures FirstMoveFault(y, moves) ==
      if exists q :: q in moves && q.switch in y.switches && y.switches[q.switch].locked then Some(ErrSwitchLocked)
      else None
  {
    if moves != [] {
      assert moves[0] in moves && moves == [moves[0]] + moves[1..];
      MoveFaultIsLock(y, moves[1..], rid);
    }
  }

  lemma RecheckMeans(s: State, rid: Id)
    requires WellFormed(s) && rid in s.routes
    requires CheckEstablish(LoadYard(s, s.routes[rid].station), s.routes[rid]).Ok?
    ensures
      var r := s.routes[rid];
      var y := LoadYard(s, r.station);
      FirstMoveFault(y, Moves(y, r.requirements)) == if LockedByItself(s, r) then Some(ErrSwitchLocked) else None
  {
    var r := s.routes[rid];
    var y := LoadYard(s, r.station);
    var moves := Moves(y, r.requirements);
    CheckEstablishExact(y, r);
    forall q
      ensures q in moves <==> q in r.requirements && MustMove(y, q)
    {
      MovesMeaning(y, r.requirements, q);
    }
    MoveFaultIsLock(y, moves, rid);
    if LockedByItself(s, r) {
      var q :| q in r.requirements && q.switch in s.switches
        && s.switches[q.switch].position != q.position && s.switches[q.switch].locked;
      assert q.switch in y.switches && q in moves;
    }
  }

  /** The check's own order of questions. */
  lemma CheckUnfolds(s: State, rid: Id, e: Error)
    requires WellFormed(s) && rid in s.routes
    ensures
      var r := s.routes[rid];
      var y := LoadYard(s, r.station);
      CheckEstablish(y, r) == Err(e) <==>
        if r.state == Requested || InForce(r.state) then e == ErrRouteTerminalState
        else if FirstSwitchFault(y, rid, r.requirements).Some? then FirstSwitchFault(y, rid, r.requirements) == Some(e)
        else if !NoClash(s, r) then e == ErrConflictingRoute
        else FirstSectionFault(y, r, r.path) == Some(e)
  {
    ClashesAtHome(s, s.routes[rid]);
  }

  /** The check's own answer, before any move is re-checked. */
  lemma CheckErrs(s: State, rid: Id, e: Error)
    requires WellFormed(s) && rid in s.routes
    ensures
      var r := s.routes[rid];
      CheckEstablish(LoadYard(s, r.station), r) == Err(e) <==>
        if r.state == Requested || InForce(r.state) then e == ErrRouteTerminalState
        else if HinderedBySwitch(s, r) then FirstSwitchHinders(s, r, r.requirements, e)
        else if !NoClash(s, r) then e == ErrConflictingRoute
        else HinderedBySection(s, r) && FirstSectionHinders(s, r, r.path, e)
  {
    CheckUnfolds(s, rid, e);
    SwitchAnswer(s, s.routes[rid], e);
    SectionAnswer(s, s.routes[rid], e);
  }

  lemma SwitchAnswer(s: State, r: Route, e: Error)
    requires WellFormed(s) && r.id in s.routes && s.routes[r.id] == r
    ensures
      var fault := FirstSwitchFault(LoadYard(s, r.station), r.id, r.requirements);
      && (fault.Some? <==> HinderedBySwitch(s, r))
      && (fault == Some(e) <==> FirstSwitchHinders(s, r, r.requirements, e))
  {
    FirstSwitchFaultMeans(s, r, r.requirements, e);
    SomeSwitchFault(s, r, r.requirements);
  }

  lemma SectionAnswer(s: State, r: Route, e: Error)
    requires WellFormed(s) && r.id in s.routes && s.routes[r.id] == r
    ensures
      var fault := FirstSectionFault(LoadYard(s, r.station), r, r.path);
      && (fault.Some? <==> HinderedBySection(s, r))
      && (fault == Some(e) <==> FirstSectionHinders(s, r, r.path, e))
  {
    FirstSectionFaultMeans(s, r, r.path, e);
    SomeSectionFault(s, r, r.path);
  }

  /** Which error answers a refused establishment. */
  lemma EstablishRefusedIff(s: State, rid: Id, now: int, e: Error)
    requires WellFormed(s)
    ensures EstablishTx(s, rid, now) == RolledBack(e) <==> Refuses(s, rid, e)
  {
    if rid in s.routes {
      var check := CheckEstablish(LoadYard(s, s.routes[rid].station), s.routes[rid]);
      CheckErrs(s, rid, e);
      if check.Ok? {
        RecheckMeans(s, rid);
        CheckPassed(s, rid);
      } else {
        CheckErrs(s, rid, check.error);
      }
    }
  }

  lemma CheckPassed(s: State, rid: Id)
    requires WellFormed(s) && rid in s.routes
    requires CheckEstablish(LoadYard(s, s.routes[rid].station), s.routes[rid]).Ok?
    ensures
      var r := s.routes[rid];
      && !(r.state == Requested || InForce(r.state)) && !HinderedBySwitch(s, r) && NoClash(s, r)
      && !HinderedBySection(s, r)
  {
    var r := s.routes[rid];
    ClashesAtHome(s, r);
    SomeSwitchFault(s, r, r.requirements);
    SomeSectionFault(s, r, r.path);
  }

  // ----- Definition -----

  /** Every element the route names is one of its own station, and nothing is listed twice. */
  ghost predicate Definable(s: State, r: Route) {
    && r.station != NO_ID && r.signal != NO_ID && r.terminal != NO_ID && r.path != []
    && r.signal in s.signals && s.signals[r.signal].station == r.station
    && (forall q :: q in r.requirements ==> q.switch in s.switches && s.switches[q.switch].station == r.station)
    && (forall k :: k in r.path ==> k in s.sections && s.sections[k].station == r.station)
    && (r.approach != NO_ID ==> r.approach in s.sections && s.sections[r.approach].station == r.station)
  }

  ghost predicate ListedOnce(r: Route) {
    && (forall i, j :: 0 <= i < j < |r.path| ==> r.path[i] != r.path[j])
    && (forall i, j :: 0 <= i < j < |r.requirements| ==> r.requirements[i].switch != r.requirements[j].switch)
  }

  /** A definition is stored pending and touches nothing else, or its fault is reported. */
  lemma DefineGrantedIff(s: State, r: Route)
    ensures DefineTx(s, r) ==
      if !Definable(s, r) then RolledBack(ErrInvalidRoute)
      else if r.id in s.routes || !ListedOnce(r) then RolledBack(ErrDuplicateKey)
      else Committed(s.(routes := s.routes[r.id :=
        r.(state := Pending, establishedAt := None, cancelledAt := None, timerStartedAt := None)]))
  {
  }

  /** A route just defined over a free way with standing switches can be set at once. */
  lemma DefinedMayBeSet(s: State, r: Route, now: int)
    requires WellFormed(s) && r.id != NO_ID && DefineTx(s, r).Committed?
    requires forall k :: k in r.path ==> !s.sections[k].occupied && !s.sections[k].locked
    requires forall q :: q in r.requirements ==>
      s.switches[q.switch].indicated && s.switches[q.switch].position == q.position
    requires NoClash(s, r)
    ensures EstablishTx(DefineTx(s, r).state, r.id, now).Committed?
  {
    var t := DefineTx(s, r).state;
    DefineKeepsWellFormed(s, r);
    EstablishGrantedIff(t, r.id, now);
    assert t.routes[r.id].path == r.path && t.routes[r.id].requirements == r.requirements;
    forall b | b in t.routes && InForce(t.routes[b].state)
      ensures !Clash(t.routes[r.id], t.routes[b])
    {
      assert b != r.id ==> !Clash(r, s.routes[b]);
    }
  }

  // ----- Switches -----

  /** A reversal is refused for the first of three reasons, and otherwise moves the switch across. */
  lemma ReverseAnswers(s: State, w: Id)
    ensures
      var o := ReverseTx(s, w);
      if w !in s.switches then o == RolledBack(ErrNoRows)
      else if !s.switches[w].indicated then o == RolledBack(ErrSwitchLostIndication)
      else if OccupiedAt(s, s.switches[w].station, s.switches[w].section) then
        o == RolledBack(ErrSwitchInOccupiedSection)
      else if s.switches[w].locked then o == RolledBack(ErrSwitchLocked)
      else
        && o.Committed? && w in o.state.switches
        && o.state.switches[w].position == (if s.switches[w].position == Normal then Reverse else Normal)
        && o.state == s.(switches := s.switches[w := s.switches[w].(position := o.state.switches[w].position)],
                         log := s.log + [Event(s.switches[w].station, SwitchReversed, OfSwitch(w), NO_ID,
                                               MovedTo(o.state.switches[w].position))])
  {
  }

  /** Reversing is its own inverse. */
  lemma ReverseTwice(s: State, w: Id)
    requires ReverseTx(s, w).Committed?
    ensures
      var t := ReverseTx(s, w).state;
      && ReverseTx(t, w).Committed? && ReverseTx(t, w).state.switches == s.switches
      && ReverseTx(t, w).state.sections == s.sections
  {
    ReverseAnswers(s, w);
    ReverseAnswers(ReverseTx(s, w).state, w);
  }
}
