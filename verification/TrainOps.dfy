/**
 The effect of one train move over all routes of a station (internal/trainops). The routes are
 visited in map order, so the order is an explicit argument here.
 */
module TrainOps {
  import opened Model
  import opened RoutePlan
  import opened Interlocking

  datatype Effect = Effect(
    section: Id,
    nowOccupied: bool,
    onceRoute: Id,         // marks the section once-occupied for this route
    approachLock: Id,      // becomes approach-locked
    abandonCancel: Id,     // never set by ApplyMove
    unlock: seq<Id>,       // sections the three-point rule releases
    complete: Id,          // has fully released
    closeSignals: seq<Id>) // the train entered these routes

  function NoEffect(k: Id, entering: bool): Effect {
    Effect(k, entering, NO_ID, NO_ID, NO_ID, [], NO_ID, [])
  }

  /** The move happens on one of the sections of a route that holds locks. */
  predicate Touched(r: Route, k: Id) {
    r.state.IsLocked() && r.HasSection(k)
  }

  /** The move enters the approach section of a route it does not touch, whatever that route's state. */
  predicate ApproachHit(r: Route, k: Id, entering: bool) {
    entering && k == r.approach && !Touched(r, k)
  }

  function Visit(eff: Effect, y: Yard, k: Id, entering: bool, r: Route): Effect {
    if !Touched(r, k) then
      if ApproachHit(r, k, entering) then eff.(approachLock := r.id) else eff
    else
      var rel := ThreePointRelease(r, y, k, entering);
      var released := eff.(unlock := eff.unlock + rel.unlock,
                           complete := if rel.complete then r.id else eff.complete);
      if entering then released.(onceRoute := r.id, closeSignals := eff.closeSignals + [r.id])
      else released
  }

  function VisitAll(y: Yard, k: Id, entering: bool, order: seq<Id>): Effect
    requires forall id :: id in order ==> id in y.routes
  {
    if order == [] then NoEffect(k, entering)
    else
      var last := order[|order| - 1];
      Visit(VisitAll(y, k, entering, order[..|order| - 1]), y, k, entering, y.routes[last])
  }

  function ApplyMove(y: Yard, k: Id, entering: bool, order: seq<Id>): Effect
    requires forall id :: id in order ==> id in y.routes
  {
    if k !in y.sections then NoEffect(k, entering) else VisitAll(y, k, entering, order)
  }

  /** The effect is that of visiting the routes of the yard in some order. */
  ghost predicate EffectOfSomeOrder(y: Yard, k: Id, entering: bool, eff: Effect) {
    exists order :: Enumerates(order, y.routes.Keys) && eff == ApplyMove(y, k, entering, order)
  }

  method RunApplyMove(y: Yard, table: Table, k: Id, entering: bool) returns (eff: Effect, ghost order: seq<Id>)
    requires table.Valid() && table.routes == y.routes
    ensures EffectOfSomeOrder(y, k, entering, eff)
    ensures Enumerates(order, y.routes.Keys)
    ensures eff == ApplyMove(y, k, entering, order)
  {
    eff := NoEffect(k, entering);
    assert Indexed(y.routes);
    var all := table.All();
    order := all;
    if k !in y.sections {
      return;
    }
    for i := 0 to |all|
      invariant eff == VisitAll(y, k, entering, all[..i])
    {
      assert all[..i + 1][..i] == all[..i];
      var r := y.routes[all[i]];
      assert all[i] in y.routes.Keys;
      if !r.state.IsLocked() && r.state != Cancelling {
        if k == r.approach && entering {
          eff := eff.(approachLock := r.id);
        }
        continue;
      }
      if !r.HasSection(k) {
        if k == r.approach && entering {
          eff := eff.(approachLock := r.id);
        }
        continue;
      }
      if entering {
        eff := eff.(onceRoute := r.id);
        eff := eff.(closeSignals := eff.closeSignals + [r.id]);
        var rel := RunThreePointRelease(r, y, k, true);
        eff := eff.(unlock := eff.unlock + rel.unlock);
        if rel.complete {
          eff := eff.(complete := r.id);
        }
      } else {
        var rel := RunThreePointRelease(r, y, k, false);
        eff := eff.(unlock := eff.unlock + rel.unlock);
        if rel.complete {
          eff := eff.(complete := r.id);
        }
      }
    }
    assert all[..|all|] == all;
  }

  // ----- What the effect says, whatever the order -----

  /** Each field of the effect traced back to routes among the visited ones. */
  ghost predicate EffectTraced(y: Yard, k: Id, entering: bool, order: seq<Id>, eff: Effect)
    requires forall id :: id in order ==> id in y.routes
  {
    && eff.section == k && eff.nowOccupied == entering && eff.abandonCancel == NO_ID
    && (eff.onceRoute != NO_ID ==>
          entering && eff.onceRoute in order && Touched(y.routes[eff.onceRoute], k))
    && (eff.approachLock != NO_ID ==>
          eff.approachLock in order && ApproachHit(y.routes[eff.approachLock], k, entering))
    && (eff.complete != NO_ID ==>
          && eff.complete in order && Touched(y.routes[eff.complete], k)
          && ThreePointRelease(y.routes[eff.complete], y, k, entering).complete)
    && (forall id :: id in eff.closeSignals <==> entering && id in order && Touched(y.routes[id], k))
    && (forall x :: x in eff.unlock ==>
          exists id ::
            id in order && Touched(y.routes[id], k) && x in ThreePointRelease(y.routes[id], y, k, entering).unlock)
    && (forall id :: id in order ==> RouteSeen(y, k, entering, eff, y.routes[id]))
  }

  ghost predicate RouteSeen(y: Yard, k: Id, entering: bool, eff: Effect, r: Route) {
    && (Touched(r, k) ==>
          && (entering ==> eff.onceRoute != NO_ID)
          && (ThreePointRelease(r, y, k, entering).complete ==> eff.complete != NO_ID)
          && (forall x :: x in ThreePointRelease(r, y, k, entering).unlock ==> x in eff.unlock))
    && (ApproachHit(r, k, entering) ==> eff.approachLock != NO_ID)
  }

  lemma {:induction false} VisitAllTraced(y: Yard, k: Id, entering: bool, order: seq<Id>)
    requires Keyed(y.routes)
    requires forall id :: id in order ==> id in y.routes
    ensures EffectTraced(y, k, entering, order, VisitAll(y, k, entering, order))
  {
    if order != [] {
      var init, last := order[..|order| - 1], order[|order| - 1];
      VisitAllTraced(y, k, entering, init);
      assert order == init + [last];
      VisitTraced(y, k, entering, init, VisitAll(y, k, entering, init), last);
    }
  }

  lemma VisitTraced(y: Yard, k: Id, entering: bool, init: seq<Id>, eff: Effect, last: Id)
    requires Keyed(y.routes) && last in y.routes
    requires forall id :: id in init ==> id in y.routes
    requires EffectTraced(y, k, entering, init, eff)
    ensures EffectTraced(y, k, entering, init + [last], Visit(eff, y, k, entering, y.routes[last]))
  {
    var order := init + [last];
    var r := y.routes[last];
    var next := Visit(eff, y, k, entering, r);
    assert forall id :: id in order <==> id in init || id == last;
    forall x | x in next.unlock
      ensures exists id ::
        id in order && Touched(y.routes[id], k) && x in ThreePointRelease(y.routes[id], y, k, entering).unlock
    {
      if x in eff.unlock {
        var id :| id in init && Touched(y.routes[id], k) && x in ThreePointRelease(y.routes[id], y, k, entering).unlock;
        assert id in order;
      } else {
        assert last in order;
      }
    }
    forall id | id in order
      ensures RouteSeen(y, k, entering, next, y.routes[id])
    {
      if id in init {
        assert RouteSeen(y, k, entering, eff, y.routes[id]);
      }
    }
  }

  // ----- At most one locked route has the section: the order does not matter -----

  /** No route but `rid` is touched by a move on `k`. */
  ghost predicate OnlyTouched(y: Yard, k: Id, rid: Id) {
    forall id :: id in y.routes && Touched(y.routes[id], k) ==> id == rid
  }

  /** The effect when only `rid` can be touched, apart from the approach-lock choice. */
  function SoloEffect(y: Yard, k: Id, entering: bool, rid: Id, approachLock: Id): Effect {
    if rid in y.routes && Touched(y.routes[rid], k) then
      var rel := ThreePointRelease(y.routes[rid], y, k, entering);
      Effect(k, entering, if entering then rid else NO_ID, approachLock, NO_ID,
             rel.unlock, if rel.complete then rid else NO_ID, if entering then [rid] else [])
    else NoEffect(k, entering).(approachLock := approachLock)
  }

  /** Every other locked route over `k` contributes nothing to the move: it is no entry, and its rule does not fire. */
  ghost predicate OthersIdle(y: Yard, k: Id, entering: bool, rid: Id) {
    forall id :: id in y.routes && Touched(y.routes[id], k) && id != rid ==>
      !entering && ThreePointRelease(y.routes[id], y, k, entering) == Release([], false)
  }

  lemma {:induction false} VisitAllSolo(y: Yard, k: Id, entering: bool, order: seq<Id>, rid: Id)
    requires Keyed(y.routes) && OthersIdle(y, k, entering, rid)
    requires forall id :: id in order ==> id in y.routes
    requires forall i, j :: 0 <= i < j < |order| ==> order[i] != order[j]
    ensures
      var eff := VisitAll(y, k, entering, order);
      eff == if rid in order then SoloEffect(y, k, entering, rid, eff.approachLock)
             else NoEffect(k, entering).(approachLock := eff.approachLock)
  {
    if order != [] {
      var init, last := order[..|order| - 1], order[|order| - 1];
      assert order == init + [last];
      VisitAllSolo(y, k, entering, init, rid);
      if last == rid {
        assert last !in init;
      } else {
        IdleVisit(VisitAll(y, k, entering, init), y, k, entering, last, rid);
      }
    }
  }

  lemma IdleVisit(eff: Effect, y: Yard, k: Id, entering: bool, last: Id, rid: Id)
    requires OthersIdle(y, k, entering, rid) && last in y.routes && last != rid
    ensures
      var next := Visit(eff, y, k, entering, y.routes[last]);
      next == eff.(approachLock := next.approachLock)
  {
  }

  /** Where all others are idle, the effect is that of `rid` alone, whatever the order. */
  lemma IdleApplyMove(y: Yard, k: Id, entering: bool, order: seq<Id>, rid: Id)
    requires Keyed(y.routes) && OthersIdle(y, k, entering, rid) && Enumerates(order, y.routes.Keys) && k in y.sections
    ensures
      var eff := ApplyMove(y, k, entering, order);
      eff == SoloEffect(y, k, entering, rid, eff.approachLock)
  {
    VisitAllSolo(y, k, entering, order, rid);
  }

  lemma SoloApplyMove(y: Yard, k: Id, entering: bool, order: seq<Id>, rid: Id)
    requires Keyed(y.routes) && OnlyTouched(y, k, rid) && Enumerates(order, y.routes.Keys) && k in y.sections
    ensures
      var eff := ApplyMove(y, k, entering, order);
      eff == SoloEffect(y, k, entering, rid, eff.approachLock)
  {
    IdleApplyMove(y, k, entering, order, rid);
  }

  /** Where at most one locked route has the section, only the approach-lock field can depend on the order. */
  lemma OrderMattersOnlyForApproach(y: Yard, k: Id, entering: bool, order1: seq<Id>, order2: seq<Id>, rid: Id)
    requires Keyed(y.routes) && OnlyTouched(y, k, rid)
    requires Enumerates(order1, y.routes.Keys) && Enumerates(order2, y.routes.Keys)
    ensures
      var eff1, eff2 := ApplyMove(y, k, entering, order1), ApplyMove(y, k, entering, order2);
      eff1.(approachLock := NO_ID) == eff2.(approachLock := NO_ID)
  {
    if k in y.sections {
      SoloApplyMove(y, k, entering, order1, rid);
      SoloApplyMove(y, k, entering, order2, rid);
    }
  }

  /** ... and there every candidate wins under some order: the field is order-independent iff there is one candidate. */
  lemma EveryCandidateCanWin(y: Yard, k: Id, order: seq<Id>, c: Id) returns (other: seq<Id>)
    requires Keyed(y.routes) && k in y.sections
    requires Enumerates(order, y.routes.Keys)
    requires c in y.routes && ApproachHit(y.routes[c], k, true)
    ensures Enumerates(other, y.routes.Keys)
    ensures ApplyMove(y, k, true, other).approachLock == c
  {
    var i :| 0 <= i < |order| && order[i] == c;
    MovedLast(order, y.routes.Keys, i);
    var rest := order[..i] + order[i + 1..];
    other := rest + [c];
    assert other[..|other| - 1] == rest;
  }

  lemma MovedLast(order: seq<Id>, ids: set<Id>, i: nat)
    requires Enumerates(order, ids) && i < |order|
    ensures Enumerates(order[..i] + order[i + 1..] + [order[i]], ids)
  {
    var other := order[..i] + order[i + 1..] + [order[i]];
    forall id | id in ids
      ensures id in other
    {
      var j :| 0 <= j < |order| && order[j] == id;
      assert other[if j < i then j else if j == i then |order| - 1 else j - 1] == id;
    }
  }

  // ----- What the three-point rule may release -----

  /** Occupancy after the move, for a section of the yard. */
  predicate OccupiedAfter(y: Yard, k: Id, entering: bool, x: Id) {
    if x == k then entering else y.Occupied(x)
  }

  /** After the move `x` is free and passed, and the train stands one or two places further on. */
  ghost predicate ProvablyPassed(y: Yard, r: Route, k: Id, entering: bool, x: Id) {
    exists i, j :: 0 <= i < j <= i + 2 && j < |r.path|
      && r.path[i] == x && OccupiedAfter(y, k, entering, r.path[j])
      && x in y.sections && !OccupiedAfter(y, k, entering, x) && y.OnceOccupied(r.id, x)
  }

  lemma ReleaseIsSafe(r: Route, y: Yard, k: Id, entering: bool, x: Id)
    requires r.KeysUnique() && k in y.sections
    requires var rel := ThreePointRelease(r, y, k, entering); !rel.complete && x in rel.unlock
    ensures ProvablyPassed(y, r, k, entering, x)
  {
    var i := IndexOf(r.path, k);
    if entering {
      var d := if i >= 1 && x == r.path[i - 1] then 1 else 2;
      assert r.path[i - d] == x && r.path[i] == k;
    } else {
      assert r.path[i] == x == k && r.path[i + 1] != k;
    }
  }

  /** A move that completes no route releases only provably passed sections of locked routes, in any order. */
  lemma MoveReleasesPassedSections(y: Yard, k: Id, entering: bool, order: seq<Id>, x: Id) returns (id: Id)
    requires Keyed(y.routes) && Enumerates(order, y.routes.Keys)
    requires var eff := ApplyMove(y, k, entering, order); eff.complete == NO_ID && x in eff.unlock
    ensures id in y.routes && y.routes[id].state.IsLocked() && ProvablyPassed(y, y.routes[id], k, entering, x)
  {
    VisitAllTraced(y, k, entering, order);
    id :| id in order && Touched(y.routes[id], k) && x in ThreePointRelease(y.routes[id], y, k, entering).unlock;
    assert RouteSeen(y, k, entering, ApplyMove(y, k, entering, order), y.routes[id]);
    ReleaseIsSafe(y.routes[id], y, k, entering, x);
  }
}
