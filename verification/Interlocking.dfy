/**
 The safety rules (internal/interlocking) over a read-only yard snapshot: preconditions of
 establishment, the switch movement check, three-point sectional release and the cancel decision.
 */
module Interlocking {
  import opened Model
  import opened RoutePlan

  /** What the service loads for one station before it asks a rule. */
  datatype Yard = Yard(
    station: Id,
    switches: map<Id, Switch>,
    signals: map<Id, Signal>,
    sections: map<Id, Section>,
    once: map<Id, set<Id>>,
    routes: map<Id, Route>)
  {
    function Get(id: Id): Option<Route> {
      if id in routes then Some(routes[id]) else None
    }

    predicate OnceOccupied(rid: Id, k: Id) {
      rid in once && k in once[rid]
    }

    predicate Occupied(k: Id) {
      k in sections && sections[k].occupied
    }

    /** Present, free, and seen by a train since the route was established. */
    predicate Passed(rid: Id, k: Id) {
      k in sections && !sections[k].occupied && OnceOccupied(rid, k)
    }
  }

  datatype Plan = Plan(moves: seq<Requirement>, switchLocks: seq<Id>, sectionLocks: seq<Id>)

  // ----- Establishment -----

  predicate Defined(y: Yard, r: Route) {
    && r.station != NO_ID && r.signal != NO_ID && r.terminal != NO_ID
    && r.path != []
    && r.signal in y.signals
    && (forall q :: q in r.requirements ==> q.switch in y.switches)
    && (forall k :: k in r.path ==> k in y.sections)
    && (r.approach != NO_ID ==> r.approach in y.sections)
  }

  predicate Establishable(s: RouteState) {
    s.Pending? || s.Failed? || s.Unlocked? || s.Cancelled?
  }

  /** Why one required switch prevents the route, if it does. */
  function SwitchFault(y: Yard, rid: Id, q: Requirement): Option<Error> {
    if q.switch !in y.switches then Some(ErrInvalidRoute)
    else
      var sw := y.switches[q.switch];
      if !sw.indicated then Some(ErrSwitchLostIndication)
      else if sw.position == q.position then None
      else if sw.section !in y.sections then Some(ErrInvalidRoute)
      else if y.sections[sw.section].occupied then Some(ErrSwitchInOccupiedSection)
      else if sw.locked && sw.holder != rid then Some(ErrSwitchLocked)
      else None
  }

  function FirstSwitchFault(y: Yard, rid: Id, reqs: seq<Requirement>): Option<Error> {
    if reqs == [] then None
    else
      var e := SwitchFault(y, rid, reqs[0]);
      if e.Some? then e else FirstSwitchFault(y, rid, reqs[1..])
  }

  predicate MustMove(y: Yard, q: Requirement) {
    q.switch in y.switches && y.switches[q.switch].position != q.position
  }

  function Moves(y: Yard, reqs: seq<Requirement>): seq<Requirement> {
    if reqs == [] then []
    else (if MustMove(y, reqs[0]) then [reqs[0]] else []) + Moves(y, reqs[1..])
  }

  ghost predicate Blocked(y: Yard, r: Route) {
    exists b :: b in y.routes && Conflicts(r, y.routes[b]) && y.routes[b].state.IsLocked()
  }

  /** Why one section prevents the route, if it does. */
  function SectionFault(y: Yard, r: Route, k: Id): Option<Error> {
    if k !in y.sections then Some(ErrInvalidRoute)
    else
      var sec := y.sections[k];
      if k != r.approach && sec.occupied then Some(ErrSectionOccupied)
      else if sec.locked && sec.holder != r.id then Some(ErrSectionLocked)
      else None
  }

  function FirstSectionFault(y: Yard, r: Route, path: seq<Id>): Option<Error> {
    if path == [] then None
    else
      var e := SectionFault(y, r, path[0]);
      if e.Some? then e else FirstSectionFault(y, r, path[1..])
  }

  function WithoutApproach(path: seq<Id>, approach: Id): seq<Id> {
    if path == [] then []
    else (if path[0] == approach then [] else [path[0]]) + WithoutApproach(path[1..], approach)
  }

  function PlanOf(y: Yard, r: Route): Plan {
    Plan(Moves(y, r.requirements), r.SwitchIds(), WithoutApproach(r.path, r.approach))
  }

  ghost function CheckEstablish(y: Yard, r: Route): Result<Plan> {
    if !Defined(y, r) then Err(ErrInvalidRoute)
    else if !Establishable(r.state) then Err(ErrRouteTerminalState)
    else if FirstSwitchFault(y, r.id, r.requirements).Some? then
      Err(FirstSwitchFault(y, r.id, r.requirements).value)
    else if Blocked(y, r) then Err(ErrConflictingRoute)
    else if FirstSectionFault(y, r, r.path).Some? then Err(FirstSectionFault(y, r, r.path).value)
    else Ok(PlanOf(y, r))
  }

  method ValidateRouteDefinition(y: Yard, r: Route) returns (ok: bool)
    ensures ok == Defined(y, r)
  {
    if r.station == NO_ID || r.signal == NO_ID || r.terminal == NO_ID {
      return false;
    }
    if |r.path| == 0 {
      return false;
    }
    if r.signal !in y.signals {
      return false;
    }
    for i := 0 to |r.requirements|
      invariant forall m :: 0 <= m < i ==> r.requirements[m].switch in y.switches
    {
      var q := r.requirements[i];
      assert q in r.requirements;
      if q.switch !in y.switches {
        return false;
      }
    }
    for i := 0 to |r.path|
      invariant forall m :: 0 <= m < i ==> r.path[m] in y.sections
    {
      var k := r.path[i];
      assert k in r.path;
      if k !in y.sections {
        return false;
      }
    }
    return r.approach == NO_ID || r.approach in y.sections;
  }

  lemma SwitchScanStep(y: Yard, rid: Id, reqs: seq<Requirement>, i: int)
    requires 0 <= i < |reqs|
    ensures
      var e := SwitchFault(y, rid, reqs[i]);
      FirstSwitchFault(y, rid, reqs[i..]) == if e.Some? then e else FirstSwitchFault(y, rid, reqs[i + 1..])
    ensures Moves(y, reqs[i..]) == (if MustMove(y, reqs[i]) then [reqs[i]] else []) + Moves(y, reqs[i + 1..])
  {
    assert reqs[i..][1..] == reqs[i + 1..];
  }

  /** Moving one requirement from the rest of a scan to its result. */
  lemma ScanRequirements(done: seq<Requirement>, q: Requirement, rest: seq<Requirement>)
    ensures done + ([q] + rest) == (done + [q]) + rest
    ensures done + ([] + rest) == done + rest
  {
  }

  method PlanSwitches(y: Yard, r: Route) returns (fault: Option<Error>, moves: seq<Requirement>, locks: seq<Id>)
    ensures fault == FirstSwitchFault(y, r.id, r.requirements)
    ensures fault.None? ==> moves == Moves(y, r.requirements) && locks == r.SwitchIds()
  {
    moves, locks := [], [];
    for i := 0 to |r.requirements|
      invariant FirstSwitchFault(y, r.id, r.requirements) == FirstSwitchFault(y, r.id, r.requirements[i..])
      invariant Moves(y, r.requirements) == moves + Moves(y, r.requirements[i..])
      invariant locks == r.SwitchIds()[..i]
    {
      var q := r.requirements[i];
      SwitchScanStep(y, r.id, r.requirements, i);
      ScanRequirements(moves, q, Moves(y, r.requirements[i + 1..]));
      if q.switch !in y.switches {
        return Some(ErrInvalidRoute), moves, locks;
      }
      var sw := y.switches[q.switch];
      if !sw.indicated {
        return Some(ErrSwitchLostIndication), moves, locks;
      }
      if sw.position != q.position {
        if sw.section !in y.sections {
          return Some(ErrInvalidRoute), moves, locks;
        }
        if y.sections[sw.section].occupied {
          return Some(ErrSwitchInOccupiedSection), moves, locks;
        }
        if sw.locked && sw.holder != r.id {
          return Some(ErrSwitchLocked), moves, locks;
        }
        moves := moves + [q];
      }
      locks := locks + [q.switch];
    }
    fault := None;
  }

  /** Moving one element from the rest of a scan to its result. */
  lemma ScanMoves(done: seq<Id>, k: Id, rest: seq<Id>)
    ensures done + ([k] + rest) == (done + [k]) + rest
    ensures done + ([] + rest) == done + rest
  {
  }

  lemma SectionScanStep(y: Yard, r: Route, i: int)
    requires 0 <= i < |r.path|
    ensures
      var e := SectionFault(y, r, r.path[i]);
      FirstSectionFault(y, r, r.path[i..]) == if e.Some? then e else FirstSectionFault(y, r, r.path[i + 1..])
    ensures WithoutApproach(r.path[i..], r.approach) ==
      (if r.path[i] == r.approach then [] else [r.path[i]]) + WithoutApproach(r.path[i + 1..], r.approach)
  {
    assert r.path[i..][1..] == r.path[i + 1..];
  }

  method PlanSections(y: Yard, r: Route) returns (fault: Option<Error>, locks: seq<Id>)
    ensures fault == FirstSectionFault(y, r, r.path)
    ensures fault.None? ==> locks == WithoutApproach(r.path, r.approach)
  {
    locks := [];
    for i := 0 to |r.path|
      invariant FirstSectionFault(y, r, r.path) == FirstSectionFault(y, r, r.path[i..])
      invariant WithoutApproach(r.path, r.approach) == locks + WithoutApproach(r.path[i..], r.approach)
    {
      var k := r.path[i];
      SectionScanStep(y, r, i);
      ScanMoves(locks, k, WithoutApproach(r.path[i + 1..], r.approach));
      if k !in y.sections {
        return Some(ErrInvalidRoute), locks;
      }
      var sec := y.sections[k];
      if k == r.approach {
        if sec.locked && sec.holder != r.id {
          return Some(ErrSectionLocked), locks;
        }
        continue;
      }
      if sec.occupied {
        return Some(ErrSectionOccupied), locks;
      }
      if sec.locked && sec.holder != r.id {
        return Some(ErrSectionLocked), locks;
      }
      locks := locks + [k];
    }
    fault := None;
  }

  /** Looks through the conflict neighbours in table order for one that is locked. */
  method FindBlocker(y: Yard, table: Table, r: Route) returns (blocked: bool)
    requires table.Valid() && table.routes == y.routes && r.id in y.routes && y.routes[r.id] == r
    ensures blocked == Blocked(y, r)
  {
    var conflicts := table.ConflictsOf(r.id);
    for i := 0 to |conflicts|
      invariant forall m :: 0 <= m < i ==> conflicts[m] in y.routes && !y.routes[conflicts[m]].state.IsLocked()
    {
      var other := y.Get(conflicts[i]);
      assert conflicts[i] in conflicts;
      if other.Some? && other.value.state.IsLocked() {
        return true;
      }
    }
    return false;
  }

  method RunCheckEstablish(y: Yard, table: Table, r: Route) returns (res: Result<Plan>)
    requires table.Valid() && table.routes == y.routes && r.id in y.routes && y.routes[r.id] == r
    ensures res == CheckEstablish(y, r)
    ensures res.Ok? <==> Permitted(y, r)
  {
    CheckEstablishExact(y, r);
    var defined := ValidateRouteDefinition(y, r);
    if !defined {
      return Err(ErrInvalidRoute);
    }
    match r.state {
      case Pending | Failed | Unlocked | Cancelled =>
      case _ => return Err(ErrRouteTerminalState);
    }
    var fault, moves, switchLocks := PlanSwitches(y, r);
    if fault.Some? {
      return Err(fault.value);
    }
    var blocked := FindBlocker(y, table, r);
    if blocked {
      return Err(ErrConflictingRoute);
    }
    var secFault, sectionLocks := PlanSections(y, r);
    if secFault.Some? {
      return Err(secFault.value);
    }
    return Ok(Plan(moves, switchLocks, sectionLocks));
  }

  /** Declarative form of "may be established": no order of checks, no error codes. */
  ghost predicate Permitted(y: Yard, r: Route) {
    && Defined(y, r)
    && (r.state == Pending || r.state == Failed || r.state == Unlocked || r.state == Cancelled)
    && !Blocked(y, r)
    && (forall q :: q in r.requirements ==> SwitchReady(y, r.id, q))
    && (forall k :: k in r.path ==> SectionReady(y, r, k))
  }

  predicate SwitchReady(y: Yard, rid: Id, q: Requirement) {
    && q.switch in y.switches
    && y.switches[q.switch].indicated
    && (y.switches[q.switch].position != q.position ==>
          && y.switches[q.switch].section in y.sections
          && !y.sections[y.switches[q.switch].section].occupied
          && (y.switches[q.switch].locked ==> y.switches[q.switch].holder == rid))
  }

  predicate SectionReady(y: Yard, r: Route, k: Id) {
    && k in y.sections
    && (k == r.approach || !y.sections[k].occupied)
    && (y.sections[k].locked ==> y.sections[k].holder == r.id)
  }

  lemma {:induction false} NoSwitchFault(y: Yard, rid: Id, reqs: seq<Requirement>)
    ensures FirstSwitchFault(y, rid, reqs).None? <==> forall q :: q in reqs ==> SwitchReady(y, rid, q)
  {
    if reqs != [] {
      NoSwitchFault(y, rid, reqs[1..]);
      assert reqs == [reqs[0]] + reqs[1..];
      assert SwitchFault(y, rid, reqs[0]).None? <==> SwitchReady(y, rid, reqs[0]);
    }
  }

  lemma {:induction false} NoSectionFault(y: Yard, r: Route, path: seq<Id>)
    ensures FirstSectionFault(y, r, path).None? <==> forall k :: k in path ==> SectionReady(y, r, k)
  {
    if path != [] {
      NoSectionFault(y, r, path[1..]);
      assert path == [path[0]] + path[1..];
      assert SectionFault(y, r, path[0]).None? <==> SectionReady(y, r, path[0]);
    }
  }

  /** The check succeeds exactly on the declarative condition, and then returns the plan. */
  lemma CheckEstablishExact(y: Yard, r: Route)
    ensures CheckEstablish(y, r).Ok? <==> Permitted(y, r)
    ensures CheckEstablish(y, r).Ok? ==> CheckEstablish(y, r).value == PlanOf(y, r)
  {
    NoSwitchFault(y, r.id, r.requirements);
    NoSectionFault(y, r, r.path);
  }

  lemma {:induction false} MovesMeaning(y: Yard, reqs: seq<Requirement>, q: Requirement)
    ensures q in Moves(y, reqs) <==> q in reqs && MustMove(y, q)
  {
    if reqs != [] {
      MovesMeaning(y, reqs[1..], q);
      assert reqs == [reqs[0]] + reqs[1..];
    }
  }

  lemma {:induction false} MovesDistinct(y: Yard, reqs: seq<Requirement>)
    requires forall i, j :: 0 <= i < j < |reqs| ==> reqs[i].switch != reqs[j].switch
    ensures forall i, j :: 0 <= i < j < |Moves(y, reqs)| ==> Moves(y, reqs)[i].switch != Moves(y, reqs)[j].switch
  {
    if reqs != [] {
      var rest := reqs[1..];
      MovesDistinct(y, rest);
      forall i | 0 <= i < |Moves(y, rest)|
        ensures Moves(y, rest)[i].switch != reqs[0].switch
      {
        MovesMeaning(y, rest, Moves(y, rest)[i]);
      }
    }
  }

  lemma {:induction false} WithoutApproachMeaning(path: seq<Id>, approach: Id, k: Id)
    ensures k in WithoutApproach(path, approach) <==> k in path && k != approach
  {
    if path != [] {
      WithoutApproachMeaning(path[1..], approach, k);
      assert path == [path[0]] + path[1..];
    }
  }

  // ----- Switch movement -----

  function CheckSwitchMove(y: Yard, w: Id): Option<Error> {
    if w !in y.switches then Some(ErrInvalidRoute)
    else
      var sw := y.switches[w];
      if !sw.indicated then Some(ErrSwitchLostIndication)
      else if y.Occupied(sw.section) then Some(ErrSwitchInOccupiedSection)
      else if sw.locked then Some(ErrSwitchLocked)
      else None
  }

  // ----- Sectional release -----

  datatype Release = Release(unlock: seq<Id>, complete: bool)

  function IndexOf(path: seq<Id>, k: Id): (i: int)
    ensures -1 <= i < |path|
    ensures i >= 0 ==> path[i] == k && k !in path[..i]
    ensures i < 0 ==> k !in path
  {
    if path == [] then -1
    else if path[0] == k then 0
    else
      var j := IndexOf(path[1..], k);
      assert path == [path[0]] + path[1..];
      if j < 0 then -1
      else
        assert path[..j + 1] == [path[0]] + path[1..][..j];
        j + 1
  }

  /** The sections of a path that are locked by the given route, in path order. */
  function HeldSections(sections: map<Id, Section>, path: seq<Id>, rid: Id): seq<Id> {
    if path == [] then []
    else (if SectionHeld(sections, path[0], rid) then [path[0]] else []) + HeldSections(sections, path[1..], rid)
  }

  predicate SectionHeld(sections: map<Id, Section>, k: Id, rid: Id) {
    k in sections && sections[k].locked && sections[k].holder == rid
  }

  function HeldSwitches(switches: map<Id, Switch>, ids: seq<Id>, rid: Id): seq<Id> {
    if ids == [] then []
    else (if SwitchHeld(switches, ids[0], rid) then [ids[0]] else []) + HeldSwitches(switches, ids[1..], rid)
  }

  predicate SwitchHeld(switches: map<Id, Switch>, w: Id, rid: Id) {
    w in switches && switches[w].locked && switches[w].holder == rid
  }

  lemma {:induction false} HeldSectionsMeaning(sections: map<Id, Section>, path: seq<Id>, rid: Id, k: Id)
    ensures k in HeldSections(sections, path, rid) <==> k in path && SectionHeld(sections, k, rid)
  {
    if path != [] {
      HeldSectionsMeaning(sections, path[1..], rid, k);
      assert path == [path[0]] + path[1..];
    }
  }

  lemma {:induction false} HeldSwitchesMeaning(switches: map<Id, Switch>, ids: seq<Id>, rid: Id, w: Id)
    ensures w in HeldSwitches(switches, ids, rid) <==> w in ids && SwitchHeld(switches, w, rid)
  {
    if ids != [] {
      HeldSwitchesMeaning(switches, ids[1..], rid, w);
      assert ids == [ids[0]] + ids[1..];
    }
  }

  /** Entering index `i`: the one or two sections behind that the train has passed. */
  function Trailing(r: Route, y: Yard, i: int): seq<Id>
    requires 0 <= i < |r.path|
  {
    var near := if i >= 1 && y.Passed(r.id, r.path[i - 1]) then [r.path[i - 1]] else [];
    if i >= 2 && y.Passed(r.id, r.path[i - 2]) && r.path[i - 2] !in near then near + [r.path[i - 2]] else near
  }

  /** Leaving a section that is not the occupied-and-cleared terminal: that section, if the train is ahead. */
  predicate AheadOccupied(path: seq<Id>, y: Yard, i: int)
    requires 0 <= i < |path| - 1
  {
    && y.Occupied(path[i + 1])
    && (i + 2 < |path| ==> y.Occupied(path[i + 2]))
  }

  function ThreePointRelease(r: Route, y: Yard, k: Id, entering: bool): Release {
    var i := IndexOf(r.path, k);
    if !r.state.IsLocked() || i < 0 then Release([], false)
    else if entering then Release(Trailing(r, y, i), false)
    else if !y.OnceOccupied(r.id, k) then Release([], false)
    else if i == |r.path| - 1 then Release(HeldSections(y.sections, r.path, r.id), true)
    else if AheadOccupied(r.path, y, i) then Release([k], false)
    else Release([], false)
  }

  method FindIndex(path: seq<Id>, k: Id) returns (i: int)
    ensures i == IndexOf(path, k)
  {
    i := 0;
    while i < |path|
      invariant 0 <= i <= |path|
      invariant k !in path[..i]
    {
      if path[i] == k {
        FirstIndex(path, k, i);
        return i;
      }
      assert path[..i + 1] == path[..i] + [path[i]];
      i := i + 1;
    }
    assert path[..|path|] == path;
    i := -1;
  }

  lemma FirstIndex(path: seq<Id>, k: Id, i: int)
    requires 0 <= i < |path| && path[i] == k && k !in path[..i]
    ensures IndexOf(path, k) == i
  {
    var j := IndexOf(path, k);
    assert k in path;
    forall m | 0 <= m < i
      ensures path[m] != k
    {
      assert path[m] in path[..i];
    }
    forall m | 0 <= m < j
      ensures path[m] != k
    {
      assert path[m] in path[..j];
    }
  }

  lemma UniqueIndex(r: Route, k: Id)
    requires r.KeysUnique()
    ensures forall i :: 0 <= i < |r.path| && r.path[i] == k ==> IndexOf(r.path, k) == i
  {
  }

  method Contains(ids: seq<Id>, k: Id) returns (found: bool)
    ensures found == (k in ids)
  {
    for i := 0 to |ids|
      invariant k !in ids[..i]
    {
      if ids[i] == k {
        return true;
      }
      assert ids[..i + 1] == ids[..i] + [ids[i]];
    }
    assert ids[..|ids|] == ids;
    return false;
  }

  method ReleaseWhole(r: Route, y: Yard) returns (unlock: seq<Id>)
    requires r.KeysUnique()
    ensures unlock == HeldSections(y.sections, r.path, r.id)
  {
    unlock := [];
    for i := 0 to |r.path|
      invariant HeldSections(y.sections, r.path, r.id) == unlock + HeldSections(y.sections, r.path[i..], r.id)
      invariant forall m :: m in unlock ==> m in r.path[..i]
    {
      var k := r.path[i];
      assert r.path[i..][0] == k && r.path[i..][1..] == r.path[i + 1..];
      assert r.path[..i + 1] == r.path[..i] + [k];
      if k in y.sections && y.sections[k].locked && y.sections[k].holder == r.id {
        var seen := Contains(unlock, k);
        if !seen {
          unlock := unlock + [k];
        }
      }
    }
  }

  /** The rule as the source runs it; every `r.path[...]` access is checked to be in range. */
  method RunThreePointRelease(r: Route, y: Yard, k: Id, entering: bool) returns (out: Release)
    requires r.KeysUnique()
    ensures out == ThreePointRelease(r, y, k, entering)
    ensures forall i :: 0 <= i < |r.path| - 1 && r.path[i] == k && !entering ==>
      (k in out.unlock <==> r.state.IsLocked() && y.OnceOccupied(r.id, k) && y.Occupied(r.path[i + 1])
                            && (i + 2 == |r.path| || y.Occupied(r.path[i + 2])))
    ensures forall i :: 2 <= i < |r.path| && r.path[i] == k && entering && |out.unlock| == 2 ==>
      out.unlock == [r.path[i - 1], r.path[i - 2]]
  {
    UniqueIndex(r, k);
    out := Release([], false);
    if !r.state.IsLocked() && r.state != Cancelling {
      return;
    }
    var idx := FindIndex(r.path, k);
    if idx < 0 {
      return;
    }
    if entering {
      var unlock := [];
      if idx >= 1 {
        var prev := r.path[idx - 1];
        if prev in y.sections && !y.sections[prev].occupied && y.OnceOccupied(r.id, prev) {
          unlock := unlock + [prev];
        }
      }
      if idx >= 2 {
        var trail := r.path[idx - 2];
        if trail in y.sections && !y.sections[trail].occupied && y.OnceOccupied(r.id, trail) {
          var seen := Contains(unlock, trail);
          if !seen {
            unlock := unlock + [trail];
          }
        }
      }
      return Release(unlock, false);
    }
    if idx == |r.path| - 1 && y.OnceOccupied(r.id, k) {
      var unlock := ReleaseWhole(r, y);
      return Release(unlock, true);
    }
    if !y.OnceOccupied(r.id, k) {
      return;
    }
    var ahead1 := r.path[idx + 1];
    if ahead1 !in y.sections || !y.sections[ahead1].occupied {
      return;
    }
    var twoAhead := idx + 2;
    if twoAhead >= |r.path| {
      return Release([k], false);
    }
    var ahead2 := r.path[twoAhead];
    if ahead2 in y.sections && y.sections[ahead2].occupied {
      return Release([k], false);
    }
  }

  // ----- Cancelling -----

  datatype CancelDecision = Immediate | Timed(delay: int)

  function DecideCancel(y: Yard, r: Route): Result<CancelDecision> {
    match r.state
    case Cancelling => Err(ErrApproachLocked)
    case Established =>
      if r.approach != NO_ID && y.Occupied(r.approach) then Ok(Timed(r.kind.ApproachLockDelay()))
      else Ok(Immediate)
    case ApproachLocked => Ok(Timed(r.kind.ApproachLockDelay()))
    case _ => Err(ErrRouteNotEstablished)
  }

  method HeldSectionsOf(sections: map<Id, Section>, path: seq<Id>, rid: Id) returns (secs: seq<Id>)
    ensures secs == HeldSections(sections, path, rid)
  {
    secs := [];
    for i := 0 to |path|
      invariant HeldSections(sections, path, rid) == secs + HeldSections(sections, path[i..], rid)
    {
      var k := path[i];
      assert path[i..][0] == k && path[i..][1..] == path[i + 1..];
      if k in sections && sections[k].locked && sections[k].holder == rid {
        secs := secs + [k];
      }
    }
  }

  method HeldSwitchesOf(switches: map<Id, Switch>, r: Route) returns (sws: seq<Id>)
    ensures sws == HeldSwitches(switches, r.SwitchIds(), r.id)
  {
    sws := [];
    ghost var ids := r.SwitchIds();
    for i := 0 to |r.requirements|
      invariant HeldSwitches(switches, ids, r.id) == sws + HeldSwitches(switches, ids[i..], r.id)
    {
      var w := r.requirements[i].switch;
      assert ids[i..][0] == w && ids[i..][1..] == ids[i + 1..];
      ScanMoves(sws, w, HeldSwitches(switches, ids[i + 1..], r.id));
      if w in switches && switches[w].locked && switches[w].holder == r.id {
        sws := sws + [w];
      }
    }
  }

  /** Every lock the route holds, whatever is occupied. */
  method FaultUnlockTarget(y: Yard, r: Route) returns (secs: seq<Id>, sws: seq<Id>)
    ensures secs == HeldSections(y.sections, r.path, r.id)
    ensures sws == HeldSwitches(y.switches, r.SwitchIds(), r.id)
  {
    secs := HeldSectionsOf(y.sections, r.path, r.id);
    sws := HeldSwitchesOf(y.switches, r);
  }

  datatype ApproachEffect = BecomesApproachLocked | AbandonsCancel | NoApproachEffect

  /** The gate the source defines for an occupied approach, and that train moves never consult. */
  function OnApproachOccupied(s: RouteState): ApproachEffect {
    match s
    case Established => BecomesApproachLocked
    case Cancelling => AbandonsCancel
    case _ => NoApproachEffect
  }
}
