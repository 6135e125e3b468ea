/**
 Runs from a new installation in which one undisciplined step breaks what disciplined runs guarantee.
 */
module Witnesses {
  import opened Model
  import opened RoutePlan
  import opened Interlocking
  import opened Database
  import opened Steps
  import opened Runs
  import opened Ownership
  import opened SwitchSafety
  import opened Exclusion
  import opened Scenes

  // ----- An approach effect on a route without locks -----

  const ONE_TRACK := NewYard(map[TRACK := FREE, OUTLYING := FREE], map[])

  const OVER_ONE_TRACK :=
    ONE_TRACK.(routes := map[FIRST := Planned(FIRST, [], [TRACK], NO_ID),
                             SECOND := Planned(SECOND, [], [TRACK], OUTLYING)])

  /** Both routes over the track are pending, the first without an approach. */
  lemma TwoOverOneTrack()
    ensures Initial(ONE_TRACK) && Reachable(ONE_TRACK, OVER_ONE_TRACK) && WellFormed(OVER_ONE_TRACK)
    ensures Owned(OVER_ONE_TRACK)
  {
    ReachesTwo(ONE_TRACK, Planned(FIRST, [], [TRACK], NO_ID), Planned(SECOND, [], [TRACK], OUTLYING));
  }

  ghost predicate FirstSet(t: State) {
    && IsLockedRoute(t, FIRST) && SECOND in t.routes && t.routes[SECOND] == Planned(SECOND, [], [TRACK], OUTLYING)
    && t.routes[FIRST].path == [TRACK] && OUTLYING in t.sections && t.sections[OUTLYING].station == STATION
  }

  /** Two conflicting routes are locked together. */
  ghost predicate Clash(t: State) {
    IsLockedRoute(t, FIRST) && IsLockedRoute(t, SECOND) && Conflicts(t.routes[FIRST], t.routes[SECOND])
  }

  lemma FirstMayBeSet(s: State)
    requires s == OVER_ONE_TRACK && WellFormed(s) && Owned(s)
    ensures EstablishCommits(s, FIRST)
  {
    var y := LoadYard(s, STATION);
    assert forall k :: k in [TRACK] ==> SectionReady(y, s.routes[FIRST], k);
    assert !Blocked(y, s.routes[FIRST]);
    CommitsIffPermitted(s, FIRST);
  }

  /** The first route can be set; the second stays pending. */
  lemma FirstIsSet(s: State)
    requires s == OVER_ONE_TRACK && WellFormed(s) && Owned(s)
    ensures FirstSet(Next(s, Establish(FIRST, 0)))
  {
    FirstMayBeSet(s);
    EstablishCases(s, FIRST, 0);
    EstablishFixed(s, FIRST, 0);
  }

  /**
   Two conflicting routes over one track are defined and the first is set. A train entering the
   second route's approach locks that route as well.
   */
  lemma UngatedApproachBreaksExclusion() returns (s: State, c: Choice)
    ensures Initial(ONE_TRACK) && Reachable(ONE_TRACK, s) && WellFormed(s) && FirstSet(s)
    ensures Enabled(s, Train(TRAIN, OUTLYING, true, c))
    ensures var t := Next(s, Train(TRAIN, OUTLYING, true, c)); Reachable(ONE_TRACK, t) && Clash(t)
  {
    TwoOverOneTrack();
    FirstIsSet(OVER_ONE_TRACK);
    ReachesNext(ONE_TRACK, OVER_ONE_TRACK, Establish(FIRST, 0));
    s := Next(OVER_ONE_TRACK, Establish(FIRST, 0));
    c := EntersApproach(s);
    ReachesNext(ONE_TRACK, s, Train(TRAIN, OUTLYING, true, c));
  }

  /** A choice of the train's move after which both routes are locked. */
  lemma EntersApproach(s: State) returns (c: Choice)
    requires Keyed(s.routes) && FirstSet(s)
    ensures Enabled(s, Train(TRAIN, OUTLYING, true, c)) && Clash(Next(s, Train(TRAIN, OUTLYING, true, c)))
  {
    c := CandidateCanWin(s, OUTLYING, SECOND);
    TrainCases(s, TRAIN, OUTLYING, true, c);
    var t := Next(s, Train(TRAIN, OUTLYING, true, c));
    assert TRACK in t.routes[FIRST].path && TRACK in t.routes[SECOND].path;
  }

  // ----- A switch off the paths of the routes that need it -----

  const OUTLYING_POINTS :=
    NewYard(map[TRACK := FREE, SECOND_TRACK := FREE, OUTLYING := FREE],
         map[POINTS := Switch(STATION, OUTLYING, Normal, false, NO_ID, true)])
  const NEEDS_POINTS := [Requirement(POINTS, Normal)]
  const TWO_TRACKS :=
    OUTLYING_POINTS.(
      routes := map[FIRST := Planned(FIRST, NEEDS_POINTS, [TRACK], NO_ID),
                    SECOND := Planned(SECOND, NEEDS_POINTS, [SECOND_TRACK], NO_ID)])

  lemma TwoTracksAreDefined()
    ensures Initial(OUTLYING_POINTS) && Reachable(OUTLYING_POINTS, TWO_TRACKS) && WellFormed(TWO_TRACKS)
    ensures Owned(TWO_TRACKS)
  {
    ReachesTwo(OUTLYING_POINTS, Planned(FIRST, NEEDS_POINTS, [TRACK], NO_ID),
               Planned(SECOND, NEEDS_POINTS, [SECOND_TRACK], NO_ID));
  }

  lemma FirstTakesPoints(s: State)
    requires s == TWO_TRACKS && WellFormed(s) && Owned(s)
    ensures EstablishCommits(s, FIRST)
  {
    var y := LoadYard(s, STATION);
    var r := s.routes[FIRST];
    assert forall k :: k in r.path ==> SectionReady(y, r, k);
    assert forall q :: q in r.requirements ==> SwitchReady(y, FIRST, q);
    assert !Blocked(y, r);
    CommitsIffPermitted(s, FIRST);
  }

  /** The rows after the first route is set: it alone is locked, and the points stand as before. */
  ghost predicate FirstHas(t: State) {
    && Fixed(TWO_TRACKS, t) && WellFormed(t) && Owned(t) && IsLockedRoute(t, FIRST)
    && t.routes[SECOND] == TWO_TRACKS.routes[SECOND]
    && t.switches[POINTS] == TWO_TRACKS.switches[POINTS].(locked := true, holder := FIRST)
    && t.sections[SECOND_TRACK] == FREE
  }

  lemma FirstHasPoints(s: State, t: State)
    requires s == TWO_TRACKS && WellFormed(t) && Owned(t) && Fixed(s, t) && IsLockedRoute(t, FIRST)
    requires EstablishedRows(s, s.routes[FIRST], t) && t.routes[SECOND] == s.routes[SECOND]
    ensures FirstHas(t)
  {
    assert s.routes[FIRST].Requires(POINTS, Normal) && !s.routes[FIRST].Requires(POINTS, Reverse);
    assert SECOND_TRACK !in s.routes[FIRST].path;
  }

  lemma SecondTakesPoints(t: State)
    requires FirstHas(t)
    ensures EstablishCommits(t, SECOND)
  {
    var y := LoadYard(t, STATION);
    var r := t.routes[SECOND];
    assert forall k :: k in r.path ==> SectionReady(y, r, k);
    assert forall q :: q in r.requirements ==> SwitchReady(y, SECOND, q);
    assert SameDefinitions(TWO_TRACKS, t) && TWO_TRACKS.routes[FIRST].SameDefinition(t.routes[FIRST]);
    NoConflict(r, t.routes[FIRST]);
    assert !Blocked(y, r);
    CommitsIffPermitted(t, SECOND);
  }

  lemma NoConflict(a: Route, b: Route)
    requires a.path == [SECOND_TRACK] && b.path == [TRACK] && a.requirements == b.requirements == NEEDS_POINTS
    ensures !Conflicts(a, b)
  {
    assert forall w, p :: a.Requires(w, p) ==> p == Normal;
    assert forall w, p :: b.Requires(w, p) ==> p == Normal;
    assert forall k :: k in a.path ==> k == SECOND_TRACK;
    assert forall k :: k in b.path ==> k == TRACK;
  }

  lemma FirstIsSetOverPoints(s: State)
    requires s == TWO_TRACKS && WellFormed(s) && Owned(s)
    ensures FirstHas(Next(s, Establish(FIRST, 0)))
  {
    FirstTakesPoints(s);
    EstablishCases(s, FIRST, 0);
    EstablishRows(s, FIRST, 0);
    EstablishFixed(s, FIRST, 0);
    NextWellFormed(s, Establish(FIRST, 0));
    NextOwned(s, Establish(FIRST, 0));
    FirstHasPoints(s, Next(s, Establish(FIRST, 0)));
  }

  /** Both routes are locked without a conflict, and only the second holds the points. */
  ghost predicate PointsTaken(t: State) {
    && IsLockedRoute(t, FIRST) && IsLockedRoute(t, SECOND) && !Conflicts(t.routes[FIRST], t.routes[SECOND])
    && t.routes[FIRST].UsesSwitch(POINTS) && SwitchHeld(t.switches, POINTS, SECOND) && !Holding(t)
  }

  /** Both routes are set one after the other; the second takes the switch over and the first no longer holds it. */
  lemma SharedPointsBreakHolding() returns (s: State)
    ensures Initial(OUTLYING_POINTS) && Reachable(OUTLYING_POINTS, s) && WellFormed(s) && FirstHas(s)
    ensures var t := Next(s, Establish(SECOND, 0)); Reachable(OUTLYING_POINTS, t) && PointsTaken(t)
  {
    TwoTracksAreDefined();
    FirstIsSetOverPoints(TWO_TRACKS);
    ReachesNext(OUTLYING_POINTS, TWO_TRACKS, Establish(FIRST, 0));
    s := Next(TWO_TRACKS, Establish(FIRST, 0));
    SecondIsSet(s);
    ReachesNext(OUTLYING_POINTS, s, Establish(SECOND, 0));
  }

  lemma SecondIsSet(m: State)
    requires FirstHas(m)
    ensures PointsTaken(Next(m, Establish(SECOND, 0)))
  {
    SecondTakesPoints(m);
    EstablishCases(m, SECOND, 0);
    EstablishRows(m, SECOND, 0);
    EstablishFixed(m, SECOND, 0);
    assert TWO_TRACKS.routes[FIRST].SameDefinition(m.routes[FIRST]);
    PointsChangeHands(m, Next(m, Establish(SECOND, 0)));
  }

  lemma PointsChangeHands(m: State, t: State)
    requires IsLockedRoute(m, FIRST) && SECOND in m.routes && POINTS in m.switches && Fixed(m, t)
    requires EstablishedRows(m, m.routes[SECOND], t) && IsLockedRoute(t, SECOND) && t.routes[FIRST] == m.routes[FIRST]
    requires m.routes[FIRST].requirements == NEEDS_POINTS == m.routes[SECOND].requirements
    requires m.routes[FIRST].path == [TRACK] && m.routes[SECOND].path == [SECOND_TRACK] && m.routes[SECOND].id == SECOND
    ensures !Conflicts(t.routes[FIRST], t.routes[SECOND]) && t.routes[FIRST].UsesSwitch(POINTS)
    ensures SwitchHeld(t.switches, POINTS, SECOND) && !Holding(t)
  {
    assert m.routes[SECOND].Requires(POINTS, Normal) && t.routes[FIRST].Requires(POINTS, Normal);
    NoConflict(t.routes[SECOND], t.routes[FIRST]);
    ConflictsSymmetric(t.routes[SECOND], t.routes[FIRST]);
    assert !HoldsSwitches(t, FIRST);
  }

  // ----- A switch in a section of another station -----

  const FOREIGN_SECTION :=
    NewYard(map[OUTLYING := Section(OTHER_STATION, true, TRAIN, false, NO_ID)],
         map[POINTS := Switch(STATION, OUTLYING, Normal, false, NO_ID, true)])

  /** A switch is reversed by hand while a train stands on its section, which another station owns. */
  lemma ForeignSectionLetsSwitchMove()
    ensures Initial(FOREIGN_SECTION)
    ensures
      var t := Next(FOREIGN_SECTION, ReverseSwitch(POINTS));
      && Reachable(FOREIGN_SECTION, t)
      && UnderTrain(FOREIGN_SECTION, POINTS) && UnderTrain(t, POINTS)
      && t.switches[POINTS].position == Reverse != FOREIGN_SECTION.switches[POINTS].position
  {
    ReachesItself(FOREIGN_SECTION);
    MovesUnderTrainIff(FOREIGN_SECTION, ReverseSwitch(POINTS), POINTS);
    ReachesNext(FOREIGN_SECTION, FOREIGN_SECTION, ReverseSwitch(POINTS));
  }
}
