/**
 Exactly which locks a train's move takes away, in any rows and for any map order, and what else the
 move leaves in the tables: the rule of the source read off the rows before the move.
 */
module Releases {
  import opened Model
  import opened RoutePlan
  import opened Interlocking
  import opened TrainOps
  import opened Database
  import opened Steps
  import opened Runs
  import opened Ownership
  import opened Exclusion
  import opened TrainEffects
  import opened Requests

  /** A train has been seen on the section since the route was set. */
  predicate Flagged(s: State, q: Id, k: Id) {
    q in s.once && k in s.once[q]
  }

  predicate IsOccupied(s: State, k: Id) {
    k in s.sections && s.sections[k].occupied
  }

  /** The move concerns the route: it is in force and section `k` of its station is on its path. */
  predicate Concerns(s: State, q: Id, k: Id) {
    && k in s.sections && q in s.routes && s.routes[q].station == s.sections[k].station
    && InForce(s.routes[q].state) && k in s.routes[q].path
  }

  /** Entering section `i` of the route lets go of the one or two sections behind it that are free and were entered. */
  predicate LeftBehind(s: State, q: Id, i: int, x: Id)
    requires q in s.routes
  {
    var path := s.routes[q].path;
    && 0 <= i < |path|
    && ((i >= 1 && x == path[i - 1]) || (i >= 2 && x == path[i - 2]))
    && x in s.sections && !s.sections[x].occupied && Flagged(s, q, x)
  }

  /** Three points: clearing an entered section lets go of it with the next two, or all that remain, occupied. */
  predicate ThreePoints(s: State, q: Id, i: int)
    requires q in s.routes
  {
    var path := s.routes[q].path;
    && 0 <= i < |path| - 1 && Flagged(s, q, path[i])
    && IsOccupied(s, path[i + 1]) && (i + 2 == |path| || IsOccupied(s, path[i + 2]))
  }

  /** Clearing the entered last section lets go of all the route holds. */
  predicate ClearsLast(s: State, q: Id, k: Id)
    requires q in s.routes
  {
    var path := s.routes[q].path;
    path != [] && k == path[|path| - 1] && Flagged(s, q, k)
  }

  /** The route lets go of section `x` when `k` is entered or cleared. */
  predicate LetsGo(s: State, q: Id, k: Id, entering: bool, x: Id) {
    && Concerns(s, q, k)
    && var path := s.routes[q].path;
       if entering then exists i :: 0 <= i < |path| && path[i] == k && LeftBehind(s, q, i, x)
       else
         || (x == k && exists i :: 0 <= i < |path| && path[i] == k && ThreePoints(s, q, i))
         || (ClearsLast(s, q, k) && x in path && SectionHeld(s.sections, x, q))
  }

  // ----- The rule names exactly these sections -----

  lemma IndexIsUnique(path: seq<Id>, k: Id, i: int)
    requires forall a, b :: 0 <= a < b < |path| ==> path[a] != path[b]
    requires 0 <= i < |path| && path[i] == k
    ensures IndexOf(path, k) == i
  {
  }

  /** What the snapshot shows of a section of the route is what the row shows. */
  lemma YardShows(s: State, q: Id, x: Id)
    requires WellFormed(s) && q in s.routes && x in s.routes[q].path
    ensures
      var y := LoadYard(s, s.routes[q].station);
      && x in y.sections && y.sections[x] == s.sections[x] && y.Occupied(x) == IsOccupied(s, x)
      && (InForce(s.routes[q].state) ==> y.OnceOccupied(q, x) == Flagged(s, q, x))
  {
  }

  /** The rule's answer for a route that the move concerns. */
  function Ruling(s: State, q: Id, k: Id, entering: bool): Release
    requires k in s.sections && q in s.routes
  {
    ThreePointRelease(s.routes[q], LoadYard(s, s.sections[k].station), k, entering)
  }

  lemma NamedOnEntry(s: State, q: Id, k: Id, x: Id, i: int)
    requires WellFormed(s) && Concerns(s, q, k) && 0 <= i < |s.routes[q].path| && s.routes[q].path[i] == k
    ensures x in Ruling(s, q, k, true).unlock <==> LeftBehind(s, q, i, x)
  {
    var path := s.routes[q].path;
    IndexIsUnique(path, k, i);
    if i >= 1 {
      YardShows(s, q, path[i - 1]);
    }
    if i >= 2 {
      YardShows(s, q, path[i - 2]);
    }
  }

  lemma NamedOnClear(s: State, q: Id, k: Id, x: Id, i: int)
    requires WellFormed(s) && Concerns(s, q, k) && 0 <= i < |s.routes[q].path| - 1 && s.routes[q].path[i] == k
    ensures x in Ruling(s, q, k, false).unlock <==> x == k && ThreePoints(s, q, i)
    ensures !Ruling(s, q, k, false).complete
  {
    var path := s.routes[q].path;
    IndexIsUnique(path, k, i);
    YardShows(s, q, k);
    YardShows(s, q, path[i + 1]);
    if i + 2 < |path| {
      YardShows(s, q, path[i + 2]);
    }
  }

  lemma NamedOnLastClear(s: State, q: Id, k: Id, x: Id)
    requires WellFormed(s) && Concerns(s, q, k) && k == s.routes[q].path[|s.routes[q].path| - 1]
    ensures x in Ruling(s, q, k, false).unlock
      <==> ClearsLast(s, q, k) && x in s.routes[q].path && SectionHeld(s.sections, x, q)
    ensures Ruling(s, q, k, false).complete <==> ClearsLast(s, q, k)
  {
    var path := s.routes[q].path;
    IndexIsUnique(path, k, |path| - 1);
    YardShows(s, q, k);
    HeldSectionsMeaning(LoadYard(s, s.routes[q].station).sections, path, q, x);
    if x in path {
      YardShows(s, q, x);
    }
  }

  lemma RuleMeans(s: State, q: Id, k: Id, entering: bool, x: Id)
    requires WellFormed(s) && Concerns(s, q, k)
    ensures x in Ruling(s, q, k, entering).unlock <==> LetsGo(s, q, k, entering, x)
    ensures Ruling(s, q, k, entering).complete <==> !entering && ClearsLast(s, q, k)
  {
    var path := s.routes[q].path;
    var i :| 0 <= i < |path| && path[i] == k;
    OnlyIndex(path, k, i);
    if entering {
      NamedOnEntry(s, q, k, x, i);
    } else if i < |path| - 1 {
      NamedOnClear(s, q, k, x, i);
    } else {
      NamedOnLastClear(s, q, k, x);
    }
  }

  lemma OnlyIndex(path: seq<Id>, k: Id, i: int)
    requires forall a, b :: 0 <= a < b < |path| ==> path[a] != path[b]
    requires 0 <= i < |path| && path[i] == k
    ensures forall j :: 0 <= j < |path| && path[j] == k ==> j == i
  {
  }

  lemma NamedIff(s: State, k: Id, entering: bool, c: Choice, x: Id)
    requires WellFormed(s) && k in s.sections && ChoiceFor(s, k, entering, c)
    ensures x in MoveEffect(s, k, entering, c).unlock <==> exists q :: LetsGo(s, q, k, entering, x)
  {
    if x in MoveEffect(s, k, entering, c).unlock {
      var q := NamedBySome(s, k, entering, c, x);
      assert LetsGo(s, q, k, entering, x);
    }
    if q :| LetsGo(s, q, k, entering, x) {
      LetGoIsNamed(s, k, entering, c, x, q);
    }
  }

  lemma NamedBySome(s: State, k: Id, entering: bool, c: Choice, x: Id) returns (q: Id)
    requires WellFormed(s) && k in s.sections && ChoiceFor(s, k, entering, c)
    requires x in MoveEffect(s, k, entering, c).unlock
    ensures LetsGo(s, q, k, entering, x)
  {
    var y := LoadYard(s, s.sections[k].station);
    VisitAllTraced(y, k, entering, c.order);
    q :| q in c.order && Touched(y.routes[q], k) && x in ThreePointRelease(y.routes[q], y, k, entering).unlock;
    TouchedIsConcerned(s, q, k);
    RuleMeans(s, q, k, entering, x);
  }

  lemma TouchedIsConcerned(s: State, q: Id, k: Id)
    requires k in s.sections
    ensures
      var y := LoadYard(s, s.sections[k].station);
      Concerns(s, q, k) <==> q in y.routes && Touched(y.routes[q], k)
  {
  }

  lemma LetGoIsNamed(s: State, k: Id, entering: bool, c: Choice, x: Id, q: Id)
    requires WellFormed(s) && k in s.sections && ChoiceFor(s, k, entering, c) && LetsGo(s, q, k, entering, x)
    ensures x in MoveEffect(s, k, entering, c).unlock
  {
    var y := LoadYard(s, s.sections[k].station);
    VisitAllTraced(y, k, entering, c.order);
    RuleMeans(s, q, k, entering, x);
    assert q in y.routes.Keys && q in c.order;
    assert RouteSeen(y, k, entering, MoveEffect(s, k, entering, c), y.routes[q]);
  }

  // ----- The locks that go -----

  /** A completed route held nothing that its own rule did not name. */
  lemma CompletedWasNamed(s: State, train: Id, k: Id, entering: bool, c: Choice, x: Id)
    requires WellFormed(s) && k in s.sections && ChoiceFor(s, k, entering, c)
    requires MoveEffect(s, k, entering, c).complete != NO_ID && x !in MoveEffect(s, k, entering, c).unlock
    ensures
      var eff := MoveEffect(s, k, entering, c);
      eff.complete in s.routes && x !in HeldSecs(MovedOf(s, train, k, entering, c), s.routes[eff.complete])
  {
    var y := LoadYard(s, s.sections[k].station);
    var eff := MoveEffect(s, k, entering, c);
    var m := MovedOf(s, train, k, entering, c);
    MoveTouchesKnownRoutes(s, k, entering, c);
    var q := eff.complete;
    HeldSectionsMeaning(m.sections, s.routes[q].path, q, x);
    RuleMeans(s, q, k, entering, x);
    NamedIff(s, k, entering, c, x);
    if x in s.routes[q].path && x in s.sections {
      KeptUnlessNamed(s, train, k, entering, c, x);
    }
  }

  /**
   Main result: from any rows, and whatever the map order, a locked section is unlocked by a move if
   and only if some route in force over the moved section lets go of it.
   */
  lemma LockLostIff(s: State, train: Id, k: Id, entering: bool, c: Choice, x: Id)
    requires WellFormed(s) && k in s.sections && ChoiceFor(s, k, entering, c)
    requires x in s.sections && s.sections[x].locked
    ensures
      var t := After(s, MoveTx(s, train, k, entering, c));
      x in t.sections && (!t.sections[x].locked <==> exists q :: LetsGo(s, q, k, entering, x))
  {
    var eff := MoveEffect(s, k, entering, c);
    TrainCases(s, train, k, entering, c);
    NamedIff(s, k, entering, c, x);
    if x in eff.unlock {
      UnlockedStays(s, train, k, entering, c, x);
    } else {
      KeptUnlessNamed(s, train, k, entering, c, x);
      if eff.complete != NO_ID {
        CompletedWasNamed(s, train, k, entering, c, x);
      }
    }
  }

  lemma UnlockedStays(s: State, train: Id, k: Id, entering: bool, c: Choice, x: Id)
    requires Keyed(s.routes) && k in s.sections && ChoiceFor(s, k, entering, c)
    requires x in s.sections && x in MoveEffect(s, k, entering, c).unlock
    ensures
      var t := After(s, MoveTx(s, train, k, entering, c));
      x in t.sections && !t.sections[x].locked
  {
    TrainCases(s, train, k, entering, c);
    NamedIsUnlocked(s, train, k, entering, c, x);
    if MoveEffect(s, k, entering, c).complete != NO_ID {
      ReleaseLocksNothing(MovedOf(s, train, k, entering, c), s.routes[MoveEffect(s, k, entering, c).complete], x);
    }
  }

  lemma NamedIsUnlocked(s: State, train: Id, k: Id, entering: bool, c: Choice, x: Id)
    requires Keyed(s.routes) && k in s.sections && ChoiceFor(s, k, entering, c)
    requires x in s.sections && x in MoveEffect(s, k, entering, c).unlock
    ensures var m := MovedOf(s, train, k, entering, c); x in m.sections && !m.sections[x].locked
  {
  }

  lemma ReleaseLocksNothing(m: State, r: Route, x: Id)
    requires x in m.sections && !m.sections[x].locked
    ensures var t := NormallyReleased(m, r); x in t.sections && !t.sections[x].locked
  {
  }

  /** In a safe yard nobody but the holder can let go of a section. */
  lemma HeldGoesIff(s: State, train: Id, k: Id, entering: bool, c: Choice, x: Id, q: Id)
    requires Safe(s) && k in s.sections && ChoiceFor(s, k, entering, c)
    requires SectionHeld(s.sections, x, q) && q in s.routes && k in s.routes[q].path
    ensures
      var t := After(s, MoveTx(s, train, k, entering, c));
      Concerns(s, q, k) && x in t.sections && (!t.sections[x].locked <==> LetsGo(s, q, k, entering, x))
  {
    HolderConcerned(s, q, k, x);
    LockLostIff(s, train, k, entering, c, x);
    if p :| LetsGo(s, p, k, entering, x) {
      OnlyOneConcerned(s, q, p, k);
    }
  }

  /** There, the section just cleared goes exactly on the three points ... */
  lemma ClearedGoesIff(s: State, train: Id, c: Choice, q: Id, i: int)
    requires Safe(s) && q in s.routes && 0 <= i < |s.routes[q].path| - 1
    requires SectionHeld(s.sections, s.routes[q].path[i], q) && ChoiceFor(s, s.routes[q].path[i], false, c)
    ensures
      var k := s.routes[q].path[i];
      var t := After(s, MoveTx(s, train, k, false, c));
      k in t.sections && (!t.sections[k].locked <==> ThreePoints(s, q, i))
  {
    var path := s.routes[q].path;
    HeldGoesIff(s, train, path[i], false, c, path[i], q);
    OnlyIndex(path, path[i], i);
    assert path[|path| - 1] != path[i];
  }

  /** ... and a section one or two behind the train's new one goes exactly when it is free and was entered. */
  lemma BehindGoesIff(s: State, train: Id, c: Choice, q: Id, i: int, d: int)
    requires Safe(s) && q in s.routes && 1 <= d <= 2 && d <= i < |s.routes[q].path|
    requires SectionHeld(s.sections, s.routes[q].path[i - d], q) && ChoiceFor(s, s.routes[q].path[i], true, c)
    ensures
      var k, x := s.routes[q].path[i], s.routes[q].path[i - d];
      var t := After(s, MoveTx(s, train, k, true, c));
      x in t.sections && (!t.sections[x].locked <==> !s.sections[x].occupied && Flagged(s, q, x))
  {
    var path := s.routes[q].path;
    assert path[i] in LoadYard(s, s.routes[q].station).sections;
    HeldGoesIff(s, train, path[i], true, c, path[i - d], q);
    EntryLetsGoIff(s, q, i, d);
  }

  lemma EntryLetsGoIff(s: State, q: Id, i: int, d: int)
    requires q in s.routes && s.routes[q].KeysUnique() && 1 <= d <= 2 && d <= i < |s.routes[q].path|
    requires s.routes[q].path[i - d] in s.sections && Concerns(s, q, s.routes[q].path[i])
    ensures
      var k, x := s.routes[q].path[i], s.routes[q].path[i - d];
      LetsGo(s, q, k, true, x) <==> !s.sections[x].occupied && Flagged(s, q, x)
  {
    var path := s.routes[q].path;
    OnlyIndex(path, path[i], i);
    assert LetsGo(s, q, path[i], true, path[i - d]) <==> LeftBehind(s, q, i, path[i - d]);
  }

  lemma HolderConcerned(s: State, q: Id, k: Id, x: Id)
    requires Safe(s) && q in s.routes && SectionHeld(s.sections, x, q) && k in s.routes[q].path
    ensures Concerns(s, q, k)
  {
    assert SectionOwned(s, x);
    YardShows(s, q, k);
  }

  lemma OnlyOneConcerned(s: State, q: Id, p: Id, k: Id)
    requires Safe(s) && Concerns(s, q, k) && Concerns(s, p, k)
    ensures p == q
  {
    assert IsLockedRoute(s, q) && IsLockedRoute(s, p);
    assert SharesSection(s.routes[q], s.routes[p]);
    assert !Conflicts(s.routes[q], s.routes[p]);
  }
}
