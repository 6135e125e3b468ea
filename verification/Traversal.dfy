/**
 The moves of a train through a route. Nothing is assumed of the yard but what holds on every run,
 and that no other route takes the train's entries for its own. Each move takes the front the train
 stands on one section further, and the last one releases the route.
 */
module Traversal {
  import opened Model
  import opened RoutePlan
  import opened Interlocking
  import opened TrainOps
  import opened Database
  import opened Steps
  import opened Runs
  import opened Ownership
  import opened Exclusion

  // ----- Other routes over the same sections -----

  /** Route `q` shares no section of `rid` past index `i`, and none it counts as entered. */
  ghost predicate SharesOnlyUpTo(s: State, rid: Id, q: Id, i: int)
    requires rid in s.routes && q in s.routes
  {
    var path := s.routes[rid].path;
    forall j :: 0 <= j < |path| && s.routes[q].HasSection(path[j]) ==> j <= i && path[j] !in OnceOf(s.once, q)
  }

  /** The approach of `q` is section `a` of `rid`. */
  predicate ApproachAt(s: State, rid: Id, q: Id, a: int)
    requires rid in s.routes && q in s.routes
  {
    0 <= a < |s.routes[rid].path| && s.routes[rid].path[a] == s.routes[q].approach
  }

  /**
   A train that has entered `rid` up to index `hi` has its further entries to itself: a locked route
   shares only sections already entered, and so does a route still to be approach-locked by the train,
   from that moment on. A departure back over the sections of an arrival is allowed.
   */
  ghost predicate ClearOf(s: State, rid: Id, q: Id, hi: int)
    requires rid in s.routes && q in s.routes
  {
    if s.routes[q].state.IsLocked() then SharesOnlyUpTo(s, rid, q, hi)
    else forall a :: hi < a && ApproachAt(s, rid, q, a) ==> SharesOnlyUpTo(s, rid, q, a)
  }

  ghost predicate Undisturbed(s: State, rid: Id, hi: int) {
    rid in s.routes && forall q :: q in s.routes && q != rid ==> ClearOf(s, rid, q, hi)
  }

  /** Two locked routes over a section: the map order may attribute the entry to either. */
  lemma EntryCanGoAstray(s: State, k: Id, q: Id) returns (c: Choice)
    requires Keyed(s.routes) && k in s.sections
    requires q in s.routes && s.routes[q].station == s.sections[k].station && Touched(s.routes[q], k)
    ensures ChoiceFor(s, k, true, c) && MoveEffect(s, k, true, c).onceRoute == q
  {
    var y := LoadYard(s, s.sections[k].station);
    var any := SomeOrder(y.routes.Keys);
    assert q in y.routes.Keys && q in any;
    var i :| 0 <= i < |any| && any[i] == q;
    MovedLast(any, y.routes.Keys, i);
    var rest := any[..i] + any[i + 1..];
    c := OrderIsPossible(s, k, true, rest + [q]);
    assert (rest + [q])[..|rest|] == rest;
  }

  // ----- Where the train is -----

  /** What the passage needs of the rows besides the route's own sections. */
  ghost predicate Ready(s: State, rid: Id, hi: int) {
    WellFormed(s) && Owned(s) && IsLockedRoute(s, rid) && Undisturbed(s, rid, hi)
  }

  /** The approach may be listed as the first of several sections; the train may then stand there from the start. */
  predicate ListsApproach(r: Route) {
    |r.path| > 1 && r.path[0] == r.approach
  }

  /** Occupancy and lock of one section. */
  ghost predicate RowAt(s: State, rid: Id, k: Id, occupied: bool, held: bool) {
    && k in s.sections
    && s.sections[k].occupied == occupied
    && (if held then SectionHeld(s.sections, k, rid) else !s.sections[k].locked)
  }

  /** Section `i` of the route when the train stands on `lo..hi` and the locks from `held` on remain. */
  ghost predicate At(s: State, rid: Id, i: int, lo: int, hi: int, held: int)
    requires rid in s.routes && 0 <= i < |s.routes[rid].path|
  {
    var r := s.routes[rid];
    && RowAt(s, rid, r.path[i], lo <= i <= hi, held <= i && r.path[i] != r.approach)
    && ((i == 0 && ListsApproach(r)) || (r.path[i] in OnceOf(s.once, rid)) == (i <= hi))
  }

  /**
   The train occupies exactly the sections `lo..hi` of the route, has entered all up to `hi`, and
   exactly the sections from `held` on, other than the approach, are still locked for it.
   */
  ghost predicate Front(s: State, rid: Id, lo: int, hi: int, held: int) {
    Ready(s, rid, hi) && forall i :: 0 <= i < |s.routes[rid].path| ==> At(s, rid, i, lo, hi, held)
  }

  /** The rule's answer for a section of the route, read off the rows. */
  function RuleAt(s: State, rid: Id, i: int, entering: bool): Release
    requires rid in s.routes && 0 <= i < |s.routes[rid].path|
  {
    ThreePointRelease(s.routes[rid], LoadYard(s, s.routes[rid].station), s.routes[rid].path[i], entering)
  }

  // ----- One move -----

  lemma OthersAreIdle(s: State, rid: Id, hi: int, i: int, entering: bool)
    requires Ready(s, rid, hi) && 0 <= i < |s.routes[rid].path| && (if entering then hi < i else i <= hi)
    ensures OthersIdle(LoadYard(s, s.routes[rid].station), s.routes[rid].path[i], entering, rid)
  {
    var k := s.routes[rid].path[i];
    var y := LoadYard(s, s.routes[rid].station);
    forall q | q in y.routes && Touched(y.routes[q], k) && q != rid
      ensures !entering && ThreePointRelease(y.routes[q], y, k, entering) == Release([], false)
    {
      assert ClearOf(s, rid, q, hi);
      assert s.routes[q].HasSection(s.routes[rid].path[i]);
    }
  }

  /** A move on a section of the route: the effect is the route's own. */
  lemma MoveOnRoute(s: State, rid: Id, hi: int, i: int, entering: bool, c: Choice)
    requires Ready(s, rid, hi) && 0 <= i < |s.routes[rid].path| && (if entering then hi < i else i <= hi)
    requires ChoiceFor(s, s.routes[rid].path[i], entering, c)
    ensures
      var k, rel := s.routes[rid].path[i], RuleAt(s, rid, i, entering);
      && k in s.sections && s.sections[k].station == s.routes[rid].station
      && var eff := MoveEffect(s, k, entering, c);
         && eff.section == k && eff.nowOccupied == entering
         && eff.onceRoute == (if entering then rid else NO_ID)
         && eff.unlock == rel.unlock
         && eff.complete == (if rel.complete then rid else NO_ID)
  {
    var r := s.routes[rid];
    var y := LoadYard(s, r.station);
    assert r.path[i] in r.path && r.path[i] in y.sections;
    OthersAreIdle(s, rid, hi, i, entering);
    IdleApplyMove(y, r.path[i], entering, c.order, rid);
  }

  /** The section rows and flags of a move whose effect is known. */
  lemma MovedRows(s: State, rid: Id, k: Id, entering: bool, train: Id, c: Choice, unlock: seq<Id>)
    requires Keyed(s.routes) && k in s.sections && ChoiceFor(s, k, entering, c) && rid in s.routes
    requires
      var eff := MoveEffect(s, k, entering, c);
      && eff.section == k && eff.nowOccupied == entering && eff.unlock == unlock
      && eff.onceRoute == if entering then rid else NO_ID
    ensures
      var m := MovedOf(s, train, k, entering, c);
      && m.sections == UnlockSections(Occupy(s.sections, k, entering, train), unlock)
      && OnceOf(m.once, rid) == OnceOf(s.once, rid) + (if entering then {k} else {})
      && forall q :: q != rid ==> OnceOf(m.once, q) == OnceOf(s.once, q)
  {
  }

  lemma MovedKeepsLocked(s: State, train: Id, k: Id, entering: bool, c: Choice)
    requires Keyed(s.routes) && k in s.sections && ChoiceFor(s, k, entering, c)
    ensures forall id :: IsLockedRoute(s, id) ==> IsLockedRoute(MovedOf(s, train, k, entering, c), id)
    ensures forall id :: IsLockedRoute(MovedOf(s, train, k, entering, c), id) ==>
      IsLockedRoute(s, id) || (entering && ApproachCandidate(s, k, id))
  {
    TargetIsCandidate(s, k, entering, c);
  }

  lemma SharesKept(s: State, t: State, rid: Id, q: Id, i: int, j: int)
    requires rid in s.routes && q in s.routes && Fixed(s, t) && i <= j
    requires SharesOnlyUpTo(s, rid, q, i) && OnceOf(t.once, q) == OnceOf(s.once, q)
    ensures SharesOnlyUpTo(t, rid, q, j)
  {
    assert s.routes[q].SameDefinition(t.routes[q]) && s.routes[rid].SameDefinition(t.routes[rid]);
  }

  /** The move leaves the train's further entries to it. */
  lemma StaysUndisturbed(s: State, t: State, rid: Id, hi: int, hi': int, k: Id)
    requires Undisturbed(s, rid, hi) && Fixed(s, t) && hi <= hi'
    requires forall q :: q != rid ==> OnceOf(t.once, q) == OnceOf(s.once, q)
    requires forall q :: IsLockedRoute(s, q) ==> IsLockedRoute(t, q)
    requires forall q :: IsLockedRoute(t, q) ==> IsLockedRoute(s, q) || s.routes[q].approach == k
    requires (exists q :: IsLockedRoute(t, q) && !IsLockedRoute(s, q)) ==>
      0 <= hi' < |s.routes[rid].path| && hi < hi' && s.routes[rid].path[hi'] == k
    ensures Undisturbed(t, rid, hi')
  {
    var path := s.routes[rid].path;
    forall q | q in t.routes && q != rid
      ensures ClearOf(t, rid, q, hi')
    {
      assert ClearOf(s, rid, q, hi) && s.routes[q].SameDefinition(t.routes[q])
        && s.routes[rid].SameDefinition(t.routes[rid]);
      if IsLockedRoute(s, q) {
        SharesKept(s, t, rid, q, hi, hi');
      } else if IsLockedRoute(t, q) {
        assert ApproachAt(s, rid, q, hi');
        SharesKept(s, t, rid, q, hi', hi');
      } else {
        forall a | hi' < a && ApproachAt(t, rid, q, a)
          ensures SharesOnlyUpTo(t, rid, q, a)
        {
          assert ApproachAt(s, rid, q, a);
          SharesKept(s, t, rid, q, a, a);
        }
      }
    }
  }

  function EnteredUpTo(hi: int, i: int, entering: bool): int {
    if entering then i else hi
  }

  /** A move that completes nothing keeps the rows ready for the next one. */
  lemma StepInside(s: State, rid: Id, hi: int, i: int, entering: bool, train: Id, c: Choice)
    requires Ready(s, rid, hi) && 0 <= i < |s.routes[rid].path| && (if entering then i == hi + 1 else i <= hi)
    requires ChoiceFor(s, s.routes[rid].path[i], entering, c)
    requires !RuleAt(s, rid, i, entering).complete
    ensures
      var k := s.routes[rid].path[i];
      && k in s.sections
      && var t := After(s, MoveTx(s, train, k, entering, c));
         && t == MovedOf(s, train, k, entering, c)
         && Ready(t, rid, EnteredUpTo(hi, i, entering)) && s.routes[rid].SameDefinition(t.routes[rid])
  {
    var k := s.routes[rid].path[i];
    MoveOnRoute(s, rid, hi, i, entering, c);
    TrainCases(s, train, k, entering, c);
    var t := MovedOf(s, train, k, entering, c);
    FixedKeepsWellFormed(s, t);
    TrainKeepsOwned(s, train, k, entering, c);
    MovedRows(s, rid, k, entering, train, c, RuleAt(s, rid, i, entering).unlock);
    MovedKeepsLocked(s, train, k, entering, c);
    StaysUndisturbed(s, t, rid, hi, EnteredUpTo(hi, i, entering), k);
  }

  // ----- The rule at the places the train is -----

  lemma RuleInputs(s: State, rid: Id, lo: int, hi: int, held: int, i: int)
    requires Front(s, rid, lo, hi, held) && 0 <= i < |s.routes[rid].path|
    ensures
      var r := s.routes[rid];
      var y := LoadYard(s, r.station);
      && IndexOf(r.path, r.path[i]) == i
      && r.path[i] in y.sections
      && y.Occupied(r.path[i]) == (lo <= i <= hi)
      && ((i == 0 && ListsApproach(r)) || y.OnceOccupied(rid, r.path[i]) == (i <= hi))
  {
    var r := s.routes[rid];
    forall m | 0 <= m < i
      ensures r.path[m] != r.path[i]
    {
    }
    FirstIndex(r.path, r.path[i], i);
    assert r.path[i] in r.path && r.path[i] in LoadYard(s, r.station).sections;
    assert At(s, rid, i, lo, hi, held);
  }

  /** The release names section `j` and no other; a listed approach holds no lock, so it may be left out. */
  ghost predicate ReleasesJust(r: Route, unlock: seq<Id>, j: int)
    requires j < |r.path|
  {
    && (forall x :: x in unlock ==> 0 <= j && x == r.path[j])
    && (0 <= j && r.path[j] != r.approach ==> r.path[j] in unlock)
  }

  /** The train stands in `j` alone and enters `k`, the next one. */
  lemma RuleOnEnter(s: State, rid: Id, j: int, k: int, held: int)
    requires 0 <= j && Front(s, rid, j, j, held) && k == j + 1 < |s.routes[rid].path|
    ensures var rel := RuleAt(s, rid, k, true); !rel.complete && ReleasesJust(s.routes[rid], rel.unlock, j - 1)
  {
    RuleInputs(s, rid, j, j, held, k);
    RuleInputs(s, rid, j, j, held, j);
    if j >= 1 {
      RuleInputs(s, rid, j, j, held, j - 1);
    }
  }

  lemma RuleOnClear(s: State, rid: Id, k: int, held: int)
    requires 1 <= k && Front(s, rid, k - 1, k, held) && k < |s.routes[rid].path|
    ensures
      var rel := RuleAt(s, rid, k - 1, false);
      !rel.complete && ReleasesJust(s.routes[rid], rel.unlock, if k + 1 == |s.routes[rid].path| then k - 1 else -1)
  {
    RuleInputs(s, rid, k - 1, k, held, k - 1);
    RuleInputs(s, rid, k - 1, k, held, k);
    if k + 1 < |s.routes[rid].path| {
      RuleInputs(s, rid, k - 1, k, held, k + 1);
    }
  }

  /** How the description of section `j` moves on when the train enters or leaves section `i`. */
  ghost predicate Shifts(r: Route, unlock: seq<Id>, i: int, entering: bool,
                         lo: int, hi: int, held: int, lo': int, hi': int, held': int, j: int)
    requires 0 <= j < |r.path|
  {
    && (lo' <= j <= hi') == (if j == i then entering else lo <= j <= hi)
    && (j <= hi') == (j <= hi || (entering && j == i))
    && (r.path[j] != r.approach ==> (held' <= j) == (held <= j && r.path[j] !in unlock))
  }

  ghost predicate AllShift(r: Route, unlock: seq<Id>, i: int, entering: bool,
                           lo: int, hi: int, held: int, lo': int, hi': int, held': int)
  {
    forall j :: 0 <= j < |r.path| ==> Shifts(r, unlock, i, entering, lo, hi, held, lo', hi', held', j)
  }

  lemma SectionAfter(s: State, rid: Id, m: State, unlock: seq<Id>, i: int, entering: bool, train: Id,
                     lo: int, hi: int, held: int, lo': int, hi': int, held': int, j: int)
    requires rid in s.routes && rid in m.routes && s.routes[rid].SameDefinition(m.routes[rid])
    requires
      var r := s.routes[rid];
      && 0 <= i < |r.path| && 0 <= j < |r.path| && (j != i ==> r.path[j] != r.path[i])
      && At(s, rid, j, lo, hi, held)
      && m.sections == UnlockSections(Occupy(s.sections, r.path[i], entering, train), unlock)
      && OnceOf(m.once, rid) == OnceOf(s.once, rid) + (if entering then {r.path[i]} else {})
      && Shifts(r, unlock, i, entering, lo, hi, held, lo', hi', held', j)
    ensures At(m, rid, j, lo', hi', held')
  {
  }

  /** After a non-completing move the front is read off section by section. */
  lemma FrontAfter(s: State, rid: Id, i: int, entering: bool, train: Id, c: Choice,
                   lo: int, hi: int, held: int, lo': int, held': int)
    requires Front(s, rid, lo, hi, held) && 0 <= i < |s.routes[rid].path| && (if entering then i == hi + 1 else i <= hi)
    requires ChoiceFor(s, s.routes[rid].path[i], entering, c)
    requires !RuleAt(s, rid, i, entering).complete
    requires
      AllShift(s.routes[rid], RuleAt(s, rid, i, entering).unlock, i, entering,
               lo, hi, held, lo', EnteredUpTo(hi, i, entering), held')
    ensures
      var t := After(s, MoveTx(s, train, s.routes[rid].path[i], entering, c));
      Front(t, rid, lo', EnteredUpTo(hi, i, entering), held') && t.routes[rid].path == s.routes[rid].path
  {
    var path, unlock, hi' := s.routes[rid].path, RuleAt(s, rid, i, entering).unlock, EnteredUpTo(hi, i, entering);
    MoveOnRoute(s, rid, hi, i, entering, c);
    StepInside(s, rid, hi, i, entering, train, c);
    MovedRows(s, rid, path[i], entering, train, c, unlock);
    var t := MovedOf(s, train, path[i], entering, c);
    forall j | 0 <= j < |path|
      ensures At(t, rid, j, lo', hi', held')
    {
      SectionAfter(s, rid, t, unlock, i, entering, train, lo, hi, held, lo', hi', held', j);
    }
  }

  // ----- The four kinds of move -----

  /** Where the locks begin once the train stands in section `k` only. */
  function HeldFrom(n: int, k: int): int {
    if k == 0 then 0 else if k == n - 1 then k else k - 1
  }

  lemma EnterShifts(r: Route, unlock: seq<Id>, j: int, k: int)
    requires 0 <= j && k == j + 1 < |r.path| && r.KeysUnique() && ReleasesJust(r, unlock, j - 1)
    ensures AllShift(r, unlock, k, true, j, j, HeldFrom(|r.path|, j), j, k, j)
  {
  }

  lemma ClearShifts(r: Route, unlock: seq<Id>, k: int)
    requires 1 <= k < |r.path| && r.KeysUnique() && ReleasesJust(r, unlock, if k + 1 == |r.path| then k - 1 else -1)
    ensures AllShift(r, unlock, k - 1, false, k - 1, k, k - 1, k, k, HeldFrom(|r.path|, k))
  {
  }

  /** Unlocked, and nothing in the yard is held by the route any more. */
  ghost predicate FullyReleased(s: State, rid: Id) {
    && rid in s.routes && s.routes[rid].state == Unlocked
    && (forall k :: !SectionHeld(s.sections, k, rid))
    && (forall w :: !SwitchHeld(s.switches, w, rid))
    && OnceOf(s.once, rid) == {}
    && (forall i :: 0 <= i < |s.routes[rid].path| ==> RowAt(s, rid, s.routes[rid].path[i], false, false))
  }

  ghost predicate AfterLast(m: State, rid: Id, k: Id) {
    k in m.sections && !m.sections[k].occupied && (m.sections[k].locked ==> m.sections[k].holder == rid)
  }

  /** The train stands in the last section only. */
  ghost predicate AtEnd(s: State, rid: Id) {
    rid in s.routes && |s.routes[rid].path| >= 1 &&
    var n := |s.routes[rid].path|;
    Front(s, rid, n - 1, n - 1, HeldFrom(n, n - 1))
  }

  function LastSection(s: State, rid: Id): Id
    requires rid in s.routes && |s.routes[rid].path| >= 1
  {
    s.routes[rid].path[|s.routes[rid].path| - 1]
  }

  lemma RuleOnLastClear(s: State, rid: Id)
    requires AtEnd(s, rid)
    ensures RuleAt(s, rid, |s.routes[rid].path| - 1, false).complete
  {
    var n := |s.routes[rid].path|;
    RuleInputs(s, rid, n - 1, n - 1, HeldFrom(n, n - 1), n - 1);
  }

  lemma LastMove(s: State, rid: Id, n: int, c: Choice)
    requires AtEnd(s, rid) && n == |s.routes[rid].path| && ChoiceFor(s, s.routes[rid].path[n - 1], false, c)
    ensures
      var k := s.routes[rid].path[n - 1];
      && k in s.sections
      && var eff := MoveEffect(s, k, false, c);
         && eff.section == k && !eff.nowOccupied && eff.unlock == RuleAt(s, rid, n - 1, false).unlock
         && eff.onceRoute == NO_ID && eff.complete == rid
  {
    RuleOnLastClear(s, rid);
    ReadyAtEnd(s, rid, n);
    MoveOnRoute(s, rid, n - 1, n - 1, false, c);
  }

  lemma ReadyAtEnd(s: State, rid: Id, n: int)
    requires AtEnd(s, rid) && n == |s.routes[rid].path|
    ensures Ready(s, rid, n - 1)
  {
  }

  lemma ClearLastCompletes(s: State, rid: Id, train: Id, c: Choice)
    requires AtEnd(s, rid) && ChoiceFor(s, LastSection(s, rid), false, c)
    ensures
      var k, unlock := LastSection(s, rid), RuleAt(s, rid, |s.routes[rid].path| - 1, false).unlock;
      && k in s.sections && MoveEffect(s, k, false, c).complete == rid
      && MovedOf(s, train, k, false, c).sections == UnlockSections(Occupy(s.sections, k, false, train), unlock)
  {
    LastMove(s, rid, |s.routes[rid].path|, c);
    MovedRows(s, rid, LastSection(s, rid), false, train, c, RuleAt(s, rid, |s.routes[rid].path| - 1, false).unlock);
  }

  lemma ClearLastRows(s: State, rid: Id, train: Id, c: Choice, m: State, unlock: seq<Id>)
    requires AtEnd(s, rid)
    requires m.sections == UnlockSections(Occupy(s.sections, LastSection(s, rid), false, train), unlock)
    ensures forall i :: 0 <= i < |s.routes[rid].path| ==> AfterLast(m, rid, s.routes[rid].path[i])
  {
    forall i | 0 <= i < |s.routes[rid].path|
      ensures AfterLast(m, rid, s.routes[rid].path[i])
    {
      LastRow(s, rid, m, unlock, train, i);
    }
  }

  lemma LastRow(s: State, rid: Id, m: State, unlock: seq<Id>, train: Id, i: int)
    requires rid in s.routes && 0 <= i < |s.routes[rid].path|
    requires
      var path := s.routes[rid].path;
      var n := |path|;
      && (i != n - 1 ==> path[i] != path[n - 1])
      && At(s, rid, i, n - 1, n - 1, HeldFrom(n, n - 1))
      && m.sections == UnlockSections(Occupy(s.sections, path[n - 1], false, train), unlock)
    ensures AfterLast(m, rid, s.routes[rid].path[i])
  {
  }

  lemma ClearLast(s: State, rid: Id, train: Id, c: Choice)
    requires AtEnd(s, rid) && ChoiceFor(s, LastSection(s, rid), false, c)
    ensures
      var t := After(s, MoveTx(s, train, LastSection(s, rid), false, c));
      FullyReleased(t, rid) && t.routes[rid].path == s.routes[rid].path
  {
    var k := LastSection(s, rid);
    ClearLastCompletes(s, rid, train, c);
    TrainCases(s, train, k, false, c);
    var m := MovedOf(s, train, k, false, c);
    ClearLastRows(s, rid, train, c, m, RuleAt(s, rid, |s.routes[rid].path| - 1, false).unlock);
    MoveTouchesKnownRoutes(s, k, false, c);
    MovedKeepsOwned(s, s.sections[k].station, train, MoveEffect(s, k, false, c), c.owners);
    HeldIsExact(m, s.routes[rid]);
    ReleasedFully(m, s.routes[rid]);
  }

  lemma ReleasedFully(m: State, r: Route)
    requires r.id in m.routes && ExactlyHeld(m, r, HeldSecs(m, r), HeldSws(m, r))
    requires forall i :: 0 <= i < |r.path| ==> AfterLast(m, r.id, r.path[i])
    ensures FullyReleased(NormallyReleased(m, r), r.id)
  {
    var t := NormallyReleased(m, r);
    forall i | 0 <= i < |r.path|
      ensures RowAt(t, r.id, r.path[i], false, false)
    {
      assert AfterLast(m, r.id, r.path[i]);
    }
  }
}
