/**
 A run from a new installation in which a restart brings a route back without its locks, while a
 conflicting route has been set in between.
 */
module WitnessRestart {
  import opened Model
  import opened Interlocking
  import opened Database
  import opened Replay
  import opened Runs
  import opened Ownership
  import opened Agreement
  import opened Fates
  import opened Scenes
  import opened Witnesses

  /** The first route is established with nothing pending; the second is still only defined. */
  ghost predicate JustSet(t: State) {
    && WellFormed(t) && Owned(t) && Fixed(OVER_ONE_TRACK, t) && t.timers == map[]
    && FIRST in t.routes && t.routes[FIRST].state == Established
    && SECOND in t.routes && t.routes[SECOND] == OVER_ONE_TRACK.routes[SECOND]
    && TRACK in t.sections && !t.sections[TRACK].occupied
  }

  lemma FirstJustSet(s: State)
    requires s == OVER_ONE_TRACK && WellFormed(s) && Owned(s)
    ensures JustSet(Next(s, Establish(FIRST, 0)))
  {
    FirstMayBeSet(s);
    EstablishCases(s, FIRST, 0);
    EstablishFixed(s, FIRST, 0);
    NextWellFormed(s, Establish(FIRST, 0));
    NextOwned(s, Establish(FIRST, 0));
  }

  /** The first route is cancelled at once; the log ends with its cancel request. */
  ghost predicate JustCancelled(t: State) {
    && WellFormed(t) && Owned(t) && Fixed(OVER_ONE_TRACK, t) && t.timers == map[]
    && FIRST in t.routes && t.routes[FIRST].state == Cancelled && ExpectedOf(t, FIRST) == Some(Cancelling)
    && SECOND in t.routes && t.routes[SECOND] == OVER_ONE_TRACK.routes[SECOND]
    && TRACK in t.sections && !t.sections[TRACK].occupied
  }

  lemma FirstJustCancelled(s: State)
    requires JustSet(s)
    ensures JustCancelled(Next(s, Cancel(FIRST, 0)))
  {
    var was := OVER_ONE_TRACK;
    assert was.routes[FIRST].SameDefinition(s.routes[FIRST]);
    ImmediateCancelComesBack(s, FIRST, 0);
    CancelNowWord(s, s.routes[FIRST], 0);
    CancelFixed(s, FIRST, 0);
    FixedTransitive(was, s, Next(s, Cancel(FIRST, 0)));
    NextWellFormed(s, Cancel(FIRST, 0));
    NextOwned(s, Cancel(FIRST, 0));
  }

  lemma SecondMayBeSet(s: State)
    requires JustCancelled(s)
    ensures EstablishCommits(s, SECOND)
  {
    var was := OVER_ONE_TRACK;
    var y := LoadYard(s, STATION);
    assert was.routes[FIRST].SameDefinition(s.routes[FIRST]);
    assert forall id :: id in s.routes ==> id == FIRST || id == SECOND;
    assert SectionOwned(s, TRACK);
    assert forall k :: k in [TRACK] ==> SectionReady(y, s.routes[SECOND], k);
    assert !Blocked(y, s.routes[SECOND]);
    CommitsIffPermitted(s, SECOND);
  }

  /** The second route is set; the log still says the first is being cancelled. */
  ghost predicate LogDisagrees(t: State) {
    && WellFormed(t) && t.timers == map[] && FIRST in t.routes && SECOND in t.routes
    && t.routes[FIRST].station == t.routes[SECOND].station == STATION
    && t.routes[FIRST].path == t.routes[SECOND].path == [TRACK]
    && ExpectedOf(t, FIRST) == Some(Cancelling) && ExpectedOf(t, SECOND) == Some(Established)
  }

  lemma SecondSet(s: State)
    requires JustCancelled(s)
    ensures LogDisagrees(Next(s, Establish(SECOND, 0)))
  {
    var was := OVER_ONE_TRACK;
    assert was.routes[FIRST].SameDefinition(s.routes[FIRST]);
    SecondMayBeSet(s);
    EstablishCases(s, SECOND, 0);
    EstablishWord(s, s.routes[SECOND], StationPlan(s, s.routes[SECOND]), 0);
    NextWellFormed(s, Establish(SECOND, 0));
  }

  const RESTART := Reconcile(0, [STATION], [[]])

  lemma RestartIsPossible(s: State)
    requires LogDisagrees(s)
    ensures Enabled(s, RESTART)
  {
    var orders: seq<seq<Id>> := [[]];
    assert [STATION][..0] == [] && orders[..0] == [];
    assert OrdersFor(s, 0, [], []);
    assert PendingTimers(s) == {};
  }

  lemma RestartClashes(s: State)
    requires LogDisagrees(s) && Enabled(s, RESTART)
    ensures Clash(Next(s, RESTART))
  {
    var t := Next(s, RESTART);
    assert [STATION][..0] == [];
    AllPassesFixed(s, 0, [STATION], [[]]);
    assert FateOf(s, 0, [], FIRST) == FateNow(s, 0, FIRST) && FateOf(s, 0, [], SECOND) == FateNow(s, 0, SECOND);
    EndLocks(s, 0, [STATION], [[]], FIRST);
    EndLocks(s, 0, [STATION], [[]], SECOND);
    assert s.routes[FIRST].SameDefinition(t.routes[FIRST]) && s.routes[SECOND].SameDefinition(t.routes[SECOND]);
    assert TRACK in t.routes[FIRST].path && TRACK in t.routes[SECOND].path;
  }

  /** The first route is set and cancelled at once, the second is set, and a restart locks the first again: they
      conflict. */
  lemma RestartBreaksExclusion() returns (s: State)
    ensures Initial(ONE_TRACK) && Reachable(ONE_TRACK, s) && WellFormed(s) && LogDisagrees(s) && Enabled(s, RESTART)
    ensures Reachable(ONE_TRACK, Next(s, RESTART)) && Clash(Next(s, RESTART))
  {
    TwoOverOneTrack();
    s := OVER_ONE_TRACK;
    FirstJustSet(s);
    ReachesNext(ONE_TRACK, s, Establish(FIRST, 0));
    s := Next(s, Establish(FIRST, 0));
    FirstJustCancelled(s);
    ReachesNext(ONE_TRACK, s, Cancel(FIRST, 0));
    s := Next(s, Cancel(FIRST, 0));
    SecondSet(s);
    ReachesNext(ONE_TRACK, s, Establish(SECOND, 0));
    s := Next(s, Establish(SECOND, 0));
    RestartIsPossible(s);
    RestartClashes(s);
    ReachesNext(ONE_TRACK, s, RESTART);
  }
}
