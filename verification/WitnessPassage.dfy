/**
 A run from a new installation in which a train runs through a whole established route and leaves
 its last section locked: its entry there was attributed to another route, which the
 train's own entry had approach-locked.
 */
module WitnessPassage {
  import opened Model
  import opened RoutePlan
  import opened Interlocking
  import opened TrainOps
  import opened Database
  import opened Steps
  import opened Runs
  import opened Ownership
  import opened Exclusion
  import opened Traversal
  import opened Scenes

  const TWO_SECTIONS := NewYard(map[TRACK := FREE, SECOND_TRACK := FREE], map[])

  /** The first route runs over both sections; the first of them is the approach of the second route. */
  const OVERLAPPING :=
    map[FIRST := Planned(FIRST, [], [TRACK, SECOND_TRACK], NO_ID),
        SECOND := Planned(SECOND, [], [SECOND_TRACK], TRACK)]

  /** The first route is locked and holds its last section, which is not marked as entered for it. */
  ghost predicate Unmarked(s: State) {
    && WellFormed(s) && Fixed(TWO_SECTIONS.(routes := OVERLAPPING), s)
    && IsLockedRoute(s, FIRST) && SectionHeld(s.sections, SECOND_TRACK, FIRST)
    && SECOND_TRACK !in OnceOf(s.once, FIRST)
  }

  lemma KnownRoutes(s: State)
    requires Fixed(TWO_SECTIONS.(routes := OVERLAPPING), s)
    ensures s.routes.Keys == {FIRST, SECOND} && s.sections.Keys == {TRACK, SECOND_TRACK}
    ensures s.routes[FIRST].path == [TRACK, SECOND_TRACK] && s.routes[SECOND].path == [SECOND_TRACK]
    ensures s.routes[FIRST].approach == NO_ID && s.routes[SECOND].approach == TRACK
    ensures s.routes[FIRST].id == FIRST && s.routes[SECOND].id == SECOND
    ensures s.routes[FIRST].station == STATION && s.routes[SECOND].station == STATION
    ensures s.sections[TRACK].station == STATION && s.sections[SECOND_TRACK].station == STATION
  {
    var was := TWO_SECTIONS.(routes := OVERLAPPING);
    assert was.routes[FIRST].SameDefinition(s.routes[FIRST]) && was.routes[SECOND].SameDefinition(s.routes[SECOND]);
  }

  /** The rule never releases the last section for the first route, and has no lock of the second's to release. */
  lemma RuleKeepsLast(s: State, k: Id, entering: bool, q: Id)
    requires Unmarked(s) && k in s.sections && q in s.routes
    ensures
      var rel := ThreePointRelease(s.routes[q], LoadYard(s, STATION), k, entering);
      SECOND_TRACK !in rel.unlock && (q == FIRST ==> !rel.complete)
  {
    KnownRoutes(s);
    var path := s.routes[q].path;
    var y := LoadYard(s, STATION);
    assert y.once.Keys <= s.routes.Keys && !y.OnceOccupied(FIRST, SECOND_TRACK);
    if k in path {
      FirstIndex(path, k, if path[0] == k then 0 else 1);
    }
    HeldSectionsMeaning(y.sections, path, q, SECOND_TRACK);
  }

  lemma LastStaysHeld(s: State, k: Id, entering: bool, c: Choice)
    requires Unmarked(s) && k in s.sections && ChoiceFor(s, k, entering, c)
    ensures
      var eff := MoveEffect(s, k, entering, c);
      SECOND_TRACK !in eff.unlock && eff.complete != FIRST && eff.section == k && eff.nowOccupied == entering
  {
    KnownRoutes(s);
    MoveTouchesKnownRoutes(s, k, entering, c);
    var y, eff := LoadYard(s, STATION), MoveEffect(s, k, entering, c);
    if SECOND_TRACK in eff.unlock {
      var q :| q in c.order && Touched(y.routes[q], k)
               && SECOND_TRACK in ThreePointRelease(y.routes[q], y, k, entering).unlock;
      RuleKeepsLast(s, k, entering, q);
      assert false;
    }
    if eff.complete == FIRST {
      RuleKeepsLast(s, k, entering, FIRST);
      assert false;
    }
  }

  /** The two occupancy bits after a move. */
  ghost predicate Occupancy(s: State, t: State, k: Id, entering: bool) {
    && k in s.sections && t.sections.Keys == s.sections.Keys
    && t.sections[k].occupied == entering
    && forall x :: x in s.sections && x != k ==> t.sections[x].occupied == s.sections[x].occupied
  }

  /** A move that does not mark the last section for the first route leaves things as they are. */
  lemma StaysUnmarked(s: State, k: Id, entering: bool, c: Choice)
    requires Unmarked(s) && k in s.sections && ChoiceFor(s, k, entering, c)
    requires entering && k == SECOND_TRACK ==> MoveEffect(s, k, entering, c).onceRoute != FIRST
    ensures
      var t := Next(s, Train(TRAIN, k, entering, c));
      Unmarked(t) && Occupancy(s, t, k, entering)
  {
    var was := TWO_SECTIONS.(routes := OVERLAPPING);
    var t := Next(s, Train(TRAIN, k, entering, c));
    LastStaysHeld(s, k, entering, c);
    TrainCases(s, TRAIN, k, entering, c);
    MovedKeepsLast(s, k, entering, c);
    NextFixed(s, Train(TRAIN, k, entering, c));
    NextWellFormed(s, Train(TRAIN, k, entering, c));
    FixedTransitive(was, s, t);
    var eff, m := MoveEffect(s, k, entering, c), MovedOf(s, TRAIN, k, entering, c);
    if eff.complete != NO_ID {
      ReleaseKeepsLast(m, s.routes[eff.complete]);
    }
  }

  /** What has to survive in the rows themselves. */
  ghost predicate LastHeld(m: State) {
    IsLockedRoute(m, FIRST) && SectionHeld(m.sections, SECOND_TRACK, FIRST) && SECOND_TRACK !in OnceOf(m.once, FIRST)
  }

  lemma MovedShape(s: State, k: Id, entering: bool, c: Choice)
    requires Keyed(s.routes) && k in s.sections && ChoiceFor(s, k, entering, c)
    ensures
      var m, eff := MovedOf(s, TRAIN, k, entering, c), MoveEffect(s, k, entering, c);
      && m.sections == UnlockSections(Occupy(s.sections, eff.section, eff.nowOccupied, TRAIN), eff.unlock)
      && m.once == MarkedOnce(s.once, if eff.nowOccupied then eff.onceRoute else NO_ID, eff.section)
  {
  }

  lemma MovedKeepsLast(s: State, k: Id, entering: bool, c: Choice)
    requires Unmarked(s) && k in s.sections && ChoiceFor(s, k, entering, c)
    requires
      var eff := MoveEffect(s, k, entering, c);
      && SECOND_TRACK !in eff.unlock && eff.section == k && eff.nowOccupied == entering
      && (entering && k == SECOND_TRACK ==> eff.onceRoute != FIRST)
    ensures var m := MovedOf(s, TRAIN, k, entering, c); LastHeld(m) && Occupancy(s, m, k, entering)
  {
    var m, eff := MovedOf(s, TRAIN, k, entering, c), MoveEffect(s, k, entering, c);
    MovedShape(s, k, entering, c);
    MovedKeepsLocked(s, TRAIN, k, entering, c);
    RowsKeepLast(s, m, k, entering, eff.onceRoute, eff.unlock);
  }

  lemma RowsKeepLast(s: State, m: State, k: Id, entering: bool, marked: Id, unlock: seq<Id>)
    requires LastHeld(s) && IsLockedRoute(m, FIRST) && k in s.sections && SECOND_TRACK !in unlock
    requires m.sections == UnlockSections(Occupy(s.sections, k, entering, TRAIN), unlock)
    requires m.once == MarkedOnce(s.once, if entering then marked else NO_ID, k)
    requires entering && k == SECOND_TRACK ==> marked != FIRST
    ensures LastHeld(m) && Occupancy(s, m, k, entering)
  {
  }

  lemma ReleaseKeepsLast(m: State, r: Route)
    requires LastHeld(m) && r.id != FIRST
    ensures
      var t := NormallyReleased(m, r);
      LastHeld(t) && forall k :: k in m.sections ==> Occupancy(m, t, k, m.sections[k].occupied)
  {
    HeldSectionsMeaning(m.sections, r.path, r.id, SECOND_TRACK);
  }

  // ----- The run -----

  lemma FirstMayRun(s: State)
    requires s == TWO_SECTIONS.(routes := OVERLAPPING) && WellFormed(s) && Owned(s)
    ensures EstablishCommits(s, FIRST)
  {
    var y := LoadYard(s, STATION);
    assert forall k :: k in s.routes[FIRST].path ==> SectionReady(y, s.routes[FIRST], k);
    assert !Blocked(y, s.routes[FIRST]);
    CommitsIffPermitted(s, FIRST);
  }

  lemma FirstRuns(s: State)
    requires s == TWO_SECTIONS.(routes := OVERLAPPING) && WellFormed(s) && Owned(s)
    ensures Unmarked(Next(s, Establish(FIRST, 0)))
  {
    FirstMayRun(s);
    EstablishCases(s, FIRST, 0);
    EstablishRows(s, FIRST, 0);
    EstablishFixed(s, FIRST, 0);
    NextWellFormed(s, Establish(FIRST, 0));
    SetHoldsLast(s, Next(s, Establish(FIRST, 0)));
  }

  lemma SetHoldsLast(s: State, t: State)
    requires s == TWO_SECTIONS.(routes := OVERLAPPING) && EstablishedRows(s, s.routes[FIRST], t) && t.once == s.once
    ensures SectionHeld(t.sections, SECOND_TRACK, FIRST) && SECOND_TRACK !in OnceOf(t.once, FIRST)
  {
    assert s.routes[FIRST].path[1] == SECOND_TRACK;
  }

  /** Reachable, and the first route holds its unmarked last section. */
  ghost predicate OnTheWay(s: State) {
    Reachable(TWO_SECTIONS, s) && Unmarked(s)
  }

  lemma SetsFirst() returns (t: State)
    ensures Initial(TWO_SECTIONS) && OnTheWay(t)
  {
    ReachesTwo(TWO_SECTIONS, OVERLAPPING[FIRST], OVERLAPPING[SECOND]);
    var s := TWO_SECTIONS.(routes := OVERLAPPING);
    FirstRuns(s);
    ReachesNext(TWO_SECTIONS, s, Establish(FIRST, 0));
    t := Next(s, Establish(FIRST, 0));
  }

  /** Entering the first section approach-locks the second route, as it is the only candidate. */
  lemma EntersFirst(s: State) returns (t: State)
    requires OnTheWay(s)
    ensures OnTheWay(t) && IsLockedRoute(t, SECOND)
  {
    KnownRoutes(s);
    var c := CandidateCanWin(s, TRACK, SECOND);
    StaysUnmarked(s, TRACK, true, c);
    TrainCases(s, TRAIN, TRACK, true, c);
    ReachesNext(TWO_SECTIONS, s, Train(TRAIN, TRACK, true, c));
    t := Next(s, Train(TRAIN, TRACK, true, c));
  }

  /** Entering the second section may be attributed to the second route. */
  lemma EntersSecond(s: State) returns (t: State)
    requires OnTheWay(s) && IsLockedRoute(s, SECOND)
    ensures OnTheWay(t)
  {
    KnownRoutes(s);
    var c := EntryCanGoAstray(s, SECOND_TRACK, SECOND);
    StaysUnmarked(s, SECOND_TRACK, true, c);
    ReachesNext(TWO_SECTIONS, s, Train(TRAIN, SECOND_TRACK, true, c));
    t := Next(s, Train(TRAIN, SECOND_TRACK, true, c));
  }

  /** The train leaves section `k`, in any map order. */
  lemma Leaves(s: State, k: Id) returns (t: State)
    requires OnTheWay(s) && k in s.sections
    ensures OnTheWay(t) && Occupancy(s, t, k, false)
  {
    KnownRoutes(s);
    var order := SomeOrder(StationRoutes(s, s.sections[k].station).Keys);
    var c := OrderIsPossible(s, k, false, order);
    StaysUnmarked(s, k, false, c);
    ReachesNext(TWO_SECTIONS, s, Train(TRAIN, k, false, c));
    t := Next(s, Train(TRAIN, k, false, c));
  }

  /** Two routes, an establishment, and the four moves of a passage: the route is still locked although the train
      is gone. */
  lemma PassageCanFail() returns (t: State)
    ensures Initial(TWO_SECTIONS) && Reachable(TWO_SECTIONS, t)
    ensures IsLockedRoute(t, FIRST) && SectionHeld(t.sections, SECOND_TRACK, FIRST)
    ensures TRACK in t.sections && !t.sections[TRACK].occupied && !t.sections[SECOND_TRACK].occupied
  {
    t := SetsFirst();
    t := EntersFirst(t);
    t := EntersSecond(t);
    KnownRoutes(t);
    t := Leaves(t, TRACK);
    t := Leaves(t, SECOND_TRACK);
  }
}
