/**
 A run from a new installation that ends with a permissive signal and no locked route behind it: a
 lost indication comes back while the route's timed cancel is running.
 */
module WitnessSignal {
  import opened Model
  import opened RoutePlan
  import opened Interlocking
  import opened Signaling
  import opened Database
  import opened Steps
  import opened Runs
  import opened Ownership
  import opened Exclusion
  import opened Signals
  import opened Indications
  import opened Scenes

  const POINTS_ON_TRACK :=
    NewYard(map[TRACK := FREE, OUTLYING := FREE], map[POINTS := Switch(STATION, TRACK, Normal, false, NO_ID, true)])
  const ONE_ROUTE := map[FIRST := Planned(FIRST, [Requirement(POINTS, Normal)], [TRACK], OUTLYING)]

  /** The one route is in the given state; its switch stands right and its section is free. */
  ghost predicate Scene(s: State, state: RouteState, indicated: bool) {
    && WellFormed(s) && Fixed(POINTS_ON_TRACK.(routes := ONE_ROUTE), s)
    && FIRST in s.routes && s.routes[FIRST].state == state
    && POINTS in s.switches && s.switches[POINTS].position == Normal && s.switches[POINTS].indicated == indicated
    && TRACK in s.sections && !s.sections[TRACK].occupied
  }

  lemma SceneRoute(s: State, state: RouteState, indicated: bool)
    requires Scene(s, state, indicated)
    ensures s.routes.Keys == {FIRST} && s.routes[FIRST].requirements == [Requirement(POINTS, Normal)]
    ensures s.routes[FIRST].path == [TRACK] && s.routes[FIRST].approach == OUTLYING && s.routes[FIRST].id == FIRST
    ensures s.routes[FIRST].station == STATION && s.switches[POINTS].station == STATION
    ensures s.sections[TRACK].station == STATION && s.routes[FIRST].UsesSwitch(POINTS)
    ensures OUTLYING in s.sections && s.sections[OUTLYING].station == STATION
  {
    var was := POINTS_ON_TRACK.(routes := ONE_ROUTE);
    assert was.routes[FIRST].SameDefinition(s.routes[FIRST]);
    assert s.routes[FIRST].Requires(POINTS, Normal);
  }

  /** A step that is not a definition keeps the definitions of the scene. */
  lemma SceneFixed(s: State, step: Step, state: RouteState, indicated: bool)
    requires Scene(s, state, indicated) && Enabled(s, step) && !step.Define?
    ensures WellFormed(Next(s, step)) && Fixed(POINTS_ON_TRACK.(routes := ONE_ROUTE), Next(s, step))
  {
    NextWellFormed(s, step);
    NextFixed(s, step);
    FixedTransitive(POINTS_ON_TRACK.(routes := ONE_ROUTE), s, Next(s, step));
  }

  lemma MayBeSet(s: State)
    requires s == POINTS_ON_TRACK.(routes := ONE_ROUTE) && WellFormed(s) && Owned(s)
    ensures EstablishCommits(s, FIRST)
  {
    var y := LoadYard(s, STATION);
    var r := s.routes[FIRST];
    assert forall k :: k in r.path ==> SectionReady(y, r, k);
    assert forall q :: q in r.requirements ==> SwitchReady(y, FIRST, q);
    assert !Blocked(y, r);
    CommitsIffPermitted(s, FIRST);
  }

  lemma IsSet(s: State)
    requires s == POINTS_ON_TRACK.(routes := ONE_ROUTE) && WellFormed(s) && Owned(s)
    ensures Scene(Next(s, Establish(FIRST, 0)), Established, true)
  {
    MayBeSet(s);
    EstablishCases(s, FIRST, 0);
    EstablishRows(s, FIRST, 0);
    EstablishFixed(s, FIRST, 0);
    NextWellFormed(s, Establish(FIRST, 0));
    SetKeepsPoints(s, Next(s, Establish(FIRST, 0)));
  }

  lemma SetKeepsPoints(s: State, t: State)
    requires s == POINTS_ON_TRACK.(routes := ONE_ROUTE) && EstablishedRows(s, s.routes[FIRST], t)
    ensures POINTS in t.switches && t.switches[POINTS].position == Normal && t.switches[POINTS].indicated
    ensures TRACK in t.sections && !t.sections[TRACK].occupied
  {
    assert s.routes[FIRST].Requires(POINTS, Normal) && !s.routes[FIRST].Requires(POINTS, Reverse);
  }

  lemma SetsRoute() returns (t: State)
    ensures Initial(POINTS_ON_TRACK) && Reachable(POINTS_ON_TRACK, t) && Scene(t, Established, true)
  {
    ReachesItself(POINTS_ON_TRACK);
    ReachesDefined(POINTS_ON_TRACK, POINTS_ON_TRACK, ONE_ROUTE[FIRST]);
    var s := POINTS_ON_TRACK.(routes := ONE_ROUTE);
    assert POINTS_ON_TRACK.routes[FIRST := ONE_ROUTE[FIRST]] == ONE_ROUTE;
    ReachableIsOwned(POINTS_ON_TRACK, s);
    IsSet(s);
    ReachesNext(POINTS_ON_TRACK, s, Establish(FIRST, 0));
    t := Next(s, Establish(FIRST, 0));
  }

  /** A train in the approach locks it. */
  lemma EntersApproach(s: State) returns (c: Choice)
    requires Scene(s, Established, true)
    ensures Enabled(s, Train(TRAIN, OUTLYING, true, c))
    ensures Scene(Next(s, Train(TRAIN, OUTLYING, true, c)), ApproachLocked, true)
  {
    SceneRoute(s, Established, true);
    c := CandidateCanWin(s, OUTLYING, FIRST);
    TrainCases(s, TRAIN, OUTLYING, true, c);
    ApproachRows(s, c);
    SceneFixed(s, Train(TRAIN, OUTLYING, true, c), Established, true);
  }

  lemma ApproachRows(s: State, c: Choice)
    requires Keyed(s.routes) && OUTLYING in s.sections && ChoiceFor(s, OUTLYING, true, c)
    requires FIRST in s.routes && MoveEffect(s, OUTLYING, true, c).approachLock == FIRST
    ensures
      var m := MovedOf(s, TRAIN, OUTLYING, true, c);
      && m.switches == s.switches && FIRST in m.routes && m.routes[FIRST].state == ApproachLocked
      && (TRACK in s.sections ==> TRACK in m.sections && m.sections[TRACK].occupied == s.sections[TRACK].occupied)
  {
    MoveTouchesKnownRoutes(s, OUTLYING, true, c);
  }

  lemma CancelRows(s: State)
    requires FIRST in s.routes && s.routes[FIRST].id == FIRST && s.routes[FIRST].state == ApproachLocked
    ensures
      var t := After(s, CancelTx(s, FIRST, 0));
      && t.switches == s.switches && t.sections == s.sections
      && FIRST in t.routes && t.routes[FIRST].state == Cancelling
  {
  }

  lemma StartsCancel(s: State)
    requires Scene(s, ApproachLocked, true)
    ensures Scene(Next(s, Cancel(FIRST, 0)), Cancelling, true)
  {
    SceneRoute(s, ApproachLocked, true);
    SceneFixed(s, Cancel(FIRST, 0), ApproachLocked, true);
    CancelRows(s);
  }

  lemma OnlyOrder(s: State, indicated: bool)
    requires Scene(s, Cancelling, indicated)
    ensures OrderFor(s, s.switches[POINTS].station, [FIRST])
  {
    SceneRoute(s, Cancelling, indicated);
    assert StationRoutes(s, STATION).Keys == {FIRST};
  }

  lemma LosesIndication(s: State)
    requires Scene(s, Cancelling, true) && Enabled(s, Indicate(POINTS, false, [FIRST]))
    ensures Scene(Next(s, Indicate(POINTS, false, [FIRST])), Cancelling, false)
  {
    SceneFixed(s, Indicate(POINTS, false, [FIRST]), Cancelling, true);
    RefreshAllFixed(Indicated(s, POINTS, false), POINTS, StationRoutes(s, s.switches[POINTS].station), [FIRST]);
  }

  /** With the indication back the rule is permissive again. */
  lemma WouldBePermissive(s: State)
    requires Scene(s, Cancelling, false)
    ensures AspectNow(Indicated(s, POINTS, true), FIRST) != Red
  {
    SceneRoute(s, Cancelling, false);
    var m := Indicated(s, POINTS, true);
    var y := LoadYard(m, STATION);
    var r := m.routes[FIRST];
    assert forall q :: q in r.requirements ==> SwitchSet(q, y.switches);
    assert forall k :: k in r.path ==> ClearSection(k, y.sections);
  }

  /** A permissive signal that no locked route guards. */
  ghost predicate OpenUnguarded(t: State) {
    SIGNAL in t.signals && t.signals[SIGNAL].aspect != Red && !Guarded(t, SIGNAL)
  }

  lemma ComesBack(s: State, t: State)
    requires Scene(s, Cancelling, false) && OrderFor(s, s.switches[POINTS].station, [FIRST])
    requires t == After(s, IndicateTx(s, POINTS, true, [FIRST]))
    ensures OpenUnguarded(After(t, CompleteTx(t, FIRST, 0)))
  {
    SceneRoute(s, Cancelling, false);
    SceneSignal(s, Cancelling, false);
    WouldBePermissive(s);
    RestoredIndicationReopens(s, POINTS, [FIRST], FIRST, 0);
  }

  lemma SceneSignal(s: State, state: RouteState, indicated: bool)
    requires Scene(s, state, indicated)
    ensures s.routes[FIRST].signal == SIGNAL
  {
    assert POINTS_ON_TRACK.(routes := ONE_ROUTE).routes[FIRST].SameDefinition(s.routes[FIRST]);
  }

  lemma Cancels(s: State) returns (t: State)
    requires Reachable(POINTS_ON_TRACK, s) && Scene(s, Established, true)
    ensures Reachable(POINTS_ON_TRACK, t) && Scene(t, Cancelling, true)
  {
    var c := EntersApproach(s);
    ReachesNext(POINTS_ON_TRACK, s, Train(TRAIN, OUTLYING, true, c));
    t := Next(s, Train(TRAIN, OUTLYING, true, c));
    StartsCancel(t);
    ReachesNext(POINTS_ON_TRACK, t, Cancel(FIRST, 0));
    t := Next(t, Cancel(FIRST, 0));
  }

  lemma Loses(s: State) returns (t: State)
    requires Reachable(POINTS_ON_TRACK, s) && Scene(s, Cancelling, true)
    ensures Reachable(POINTS_ON_TRACK, t) && Scene(t, Cancelling, false)
  {
    OnlyOrder(s, true);
    LosesIndication(s);
    ReachesNext(POINTS_ON_TRACK, s, Indicate(POINTS, false, [FIRST]));
    t := Next(s, Indicate(POINTS, false, [FIRST]));
  }

  lemma Restores(s: State) returns (t: State)
    requires Reachable(POINTS_ON_TRACK, s) && Scene(s, Cancelling, false)
    ensures Reachable(POINTS_ON_TRACK, t) && OpenUnguarded(t)
  {
    OnlyOrder(s, false);
    ReachesNext(POINTS_ON_TRACK, s, Indicate(POINTS, true, [FIRST]));
    t := Next(s, Indicate(POINTS, true, [FIRST]));
    ComesBack(s, t);
    ReachesNext(POINTS_ON_TRACK, t, Complete(FIRST, 0));
    t := Next(t, Complete(FIRST, 0));
  }

  /** Seven steps after which a signal is permissive although no locked route starts there. */
  lemma SignalCanBeLeftOpen() returns (t: State)
    ensures Initial(POINTS_ON_TRACK) && Reachable(POINTS_ON_TRACK, t) && OpenUnguarded(t)
  {
    t := SetsRoute();
    t := Cancels(t);
    t := Loses(t);
    t := Restores(t);
  }
}
