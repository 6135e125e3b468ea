/**
 Mutual exclusion on disciplined runs: no two conflicting routes are ever locked together, and a
 locked route holds each of its switches in the required position. A run is disciplined when it
 has no restart, an approach effect only lands on a locked route, and each switch of a defined
 route lies in a section of that route.
 */
module Exclusion {
  import opened Model
  import opened RoutePlan
  import opened Interlocking
  import opened Database
  import opened Steps
  import opened Runs
  import opened Ownership

  ghost predicate SwitchesOnPath(s: State, r: Route) {
    forall w, p :: r.Requires(w, p) ==> w in s.switches && r.HasSection(s.switches[w].section)
  }

  ghost predicate AllOnPath(s: State) {
    forall id :: id in s.routes ==> SwitchesOnPath(s, s.routes[id])
  }

  predicate IsLockedRoute(s: State, rid: Id) {
    rid in s.routes && s.routes[rid].state.IsLocked()
  }

  ghost predicate Exclusive(s: State) {
    forall a, b :: IsLockedRoute(s, a) && IsLockedRoute(s, b) ==> !Conflicts(s.routes[a], s.routes[b])
  }

  ghost predicate HoldsSwitches(s: State, rid: Id)
    requires rid in s.routes
  {
    forall w, p :: s.routes[rid].Requires(w, p) ==>
      SwitchHeld(s.switches, w, rid) && s.switches[w].position == p
  }

  ghost predicate Holding(s: State) {
    forall rid :: IsLockedRoute(s, rid) ==> HoldsSwitches(s, rid)
  }

  ghost predicate Safe(s: State) {
    WellFormed(s) && Owned(s) && AllOnPath(s) && Exclusive(s) && Holding(s)
  }

  /** The approach effect of the move lands on a route that already holds its locks, or nowhere. */
  ghost predicate GatedMove(s: State, k: Id, entering: bool, c: Choice) {
    k in s.sections && ChoiceFor(s, k, entering, c) ==>
      var target := MoveEffect(s, k, entering, c).approachLock;
      target == NO_ID || IsLockedRoute(s, target)
  }

  ghost predicate Disciplined(s: State, step: Step) {
    match step
    case Define(r) => SwitchesOnPath(s, r)
    case Train(train, k, entering, c) => GatedMove(s, k, entering, c)
    case Reconcile(_, _, _) => false
    case _ => true
  }

  // ----- Frames -----

  lemma OnPathKept(s: State, t: State)
    requires AllOnPath(s) && Fixed(s, t)
    ensures AllOnPath(t)
  {
    forall id | id in t.routes
      ensures SwitchesOnPath(t, t.routes[id])
    {
      assert SwitchesOnPath(s, s.routes[id]);
      forall w, p | t.routes[id].Requires(w, p)
        ensures w in t.switches && t.routes[id].HasSection(t.switches[w].section)
      {
        assert s.routes[id].Requires(w, p);
      }
    }
  }

  lemma SameDefinitionConflicts(a: Route, a': Route, b: Route, b': Route)
    requires a.SameDefinition(a') && b.SameDefinition(b')
    ensures Conflicts(a, b) == Conflicts(a', b')
  {
    if Conflicts(a, b) && OpposesSwitch(a, b) {
      var w, p: Position :| a.Requires(w, p) && b.Requires(w, p.Opposite());
      assert a'.Requires(w, p) && b'.Requires(w, p.Opposite());
    }
    if Conflicts(a', b') && OpposesSwitch(a', b') {
      var w, p: Position :| a'.Requires(w, p) && b'.Requires(w, p.Opposite());
      assert a.Requires(w, p) && b.Requires(w, p.Opposite());
    }
  }

  /** No new locked route: exclusion carries over. */
  lemma FewerLocked(s: State, t: State)
    requires Exclusive(s) && Fixed(s, t)
    requires forall id :: IsLockedRoute(t, id) ==> IsLockedRoute(s, id)
    ensures Exclusive(t)
  {
    forall a, b | IsLockedRoute(t, a) && IsLockedRoute(t, b)
      ensures !Conflicts(t.routes[a], t.routes[b])
    {
      SameDefinitionConflicts(s.routes[a], t.routes[a], s.routes[b], t.routes[b]);
    }
  }

  /** ... and switches held by the remaining locked routes are untouched. */
  lemma StillHolding(s: State, t: State)
    requires Holding(s) && Fixed(s, t)
    requires forall id :: IsLockedRoute(t, id) ==> IsLockedRoute(s, id)
    requires forall id, w :: IsLockedRoute(t, id) && SwitchHeld(s.switches, w, id) ==>
      SwitchHeld(t.switches, w, id) && t.switches[w].position == s.switches[w].position
    ensures Holding(t)
  {
    forall rid | IsLockedRoute(t, rid)
      ensures HoldsSwitches(t, rid)
    {
      assert HoldsSwitches(s, rid);
      forall w, p | t.routes[rid].Requires(w, p)
        ensures SwitchHeld(t.switches, w, rid) && t.switches[w].position == p
      {
        assert s.routes[rid].Requires(w, p);
      }
    }
  }

  // ----- Establish -----

  lemma ForeignStationsNeverConflict(s: State, a: Id, b: Id)
    requires WellFormed(s) && a in s.routes && b in s.routes
    requires s.routes[a].station != s.routes[b].station
    ensures !Conflicts(s.routes[a], s.routes[b])
  {
    var ra, rb := s.routes[a], s.routes[b];
    var ya, yb := LoadYard(s, ra.station), LoadYard(s, rb.station);
    forall k
      ensures !(k in ra.path && k in rb.path)
    {
      assert k in ra.path ==> k in ya.sections;
      assert k in rb.path ==> k in yb.sections;
    }
    forall w, p: Position
      ensures !(ra.Requires(w, p) && rb.Requires(w, p.Opposite()))
    {
      var q, q' := Requirement(w, p), Requirement(w, p.Opposite());
      assert q in ra.requirements ==> q.switch in ya.switches;
      assert q' in rb.requirements ==> q'.switch in yb.switches;
    }
  }

  /** Establishing past the conflict check cannot clash with any locked route of any station. */
  lemma NewRouteFitsIn(s: State, rid: Id, b: Id)
    requires WellFormed(s) && EstablishCommits(s, rid) && IsLockedRoute(s, b)
    ensures !Conflicts(s.routes[rid], s.routes[b])
  {
    var r := s.routes[rid];
    if r.station != s.routes[b].station {
      ForeignStationsNeverConflict(s, rid, b);
    } else {
      var y := LoadYard(s, r.station);
      CheckEstablishExact(y, r);
      assert b in y.routes && y.routes[b] == s.routes[b];
    }
  }

  lemma EstablishKeepsExclusive(s: State, rid: Id, t: State)
    requires Safe(s) && EstablishCommits(s, rid) && Fixed(s, t)
    requires forall id :: id in s.routes && id != rid ==> t.routes[id] == s.routes[id]
    ensures Exclusive(t)
  {
    forall a, b | IsLockedRoute(t, a) && IsLockedRoute(t, b)
      ensures !Conflicts(t.routes[a], t.routes[b])
    {
      SameDefinitionConflicts(s.routes[a], t.routes[a], s.routes[b], t.routes[b]);
      ConflictsSymmetric(s.routes[a], s.routes[b]);
      if a == rid && b != rid {
        NewRouteFitsIn(s, rid, b);
      } else if a != rid && b == rid {
        NewRouteFitsIn(s, rid, a);
      }
    }
  }

  /** A switch of a locked route is never stolen: its section would be shared. */
  lemma NoSharedSwitch(s: State, a: Id, b: Id, w: Id)
    requires AllOnPath(s) && a in s.routes && b in s.routes && s.routes[a].id != s.routes[b].id
    requires s.routes[a].UsesSwitch(w) && s.routes[b].UsesSwitch(w)
    ensures Conflicts(s.routes[a], s.routes[b])
  {
    var ra, rb := s.routes[a], s.routes[b];
    assert SwitchesOnPath(s, ra) && SwitchesOnPath(s, rb);
    var k := s.switches[w].section;
    assert k in ra.path && k in rb.path;
  }

  /** Some locked route other than `rid` also runs over a switch of `rid`. */
  ghost predicate SharesHeldSwitch(s: State, rid: Id, b: Id, w: Id)
    requires rid in s.routes
  {
    b != rid && IsLockedRoute(s, b) && s.routes[b].UsesSwitch(w) && s.routes[rid].UsesSwitch(w)
  }

  /** Establishing takes every switch of the route over: the others go on holding theirs iff none is shared. */
  lemma HoldingIffNoneShared(s: State, rid: Id, t: State)
    requires WellFormed(s) && Holding(s) && EstablishCommits(s, rid) && Fixed(s, t)
    requires EstablishedRows(s, s.routes[rid], t) && IsLockedRoute(t, rid)
    requires forall id :: id in s.routes && id != rid ==> t.routes[id] == s.routes[id]
    ensures Holding(t) <==> forall b, w :: !SharesHeldSwitch(s, rid, b, w)
  {
    if b, w :| SharesHeldSwitch(s, rid, b, w) {
      assert t.switches[w].holder == rid by {
        SharedSwitchExists(s, rid, w);
      }
      var p := if s.routes[b].Requires(w, Normal) then Normal else Reverse;
      assert t.routes[b].Requires(w, p) && !SwitchHeld(t.switches, w, b);
      assert !HoldsSwitches(t, b);
    } else {
      forall b | IsLockedRoute(t, b)
        ensures HoldsSwitches(t, b)
      {
        UnsharedStaysHeld(s, rid, t, b);
      }
    }
  }

  lemma SharedSwitchExists(s: State, rid: Id, w: Id)
    requires WellFormed(s) && rid in s.routes && s.routes[rid].UsesSwitch(w)
    ensures w in s.switches
  {
    var p := if s.routes[rid].Requires(w, Normal) then Normal else Reverse;
    assert Requirement(w, p) in s.routes[rid].requirements;
  }

  lemma UnsharedStaysHeld(s: State, rid: Id, t: State, b: Id)
    requires WellFormed(s) && Holding(s) && rid in s.routes && Fixed(s, t) && IsLockedRoute(t, b)
    requires EstablishedRows(s, s.routes[rid], t)
    requires forall id :: id in s.routes && id != rid ==> t.routes[id] == s.routes[id]
    requires forall w :: !SharesHeldSwitch(s, rid, b, w)
    ensures HoldsSwitches(t, b)
  {
    forall w, p | t.routes[b].Requires(w, p)
      ensures SwitchHeld(t.switches, w, b) && t.switches[w].position == p
    {
      assert p == Normal || p == Reverse;
      if b == rid {
        SharedSwitchExists(s, rid, w);
        OnePosition(s.routes[rid], w, p, t.switches[w].position);
      } else {
        assert HoldsSwitches(s, b);
        assert !SharesHeldSwitch(s, rid, b, w);
      }
    }
  }

  lemma EstablishKeepsHolding(s: State, rid: Id, t: State)
    requires Safe(s) && EstablishCommits(s, rid) && Fixed(s, t)
    requires EstablishedRows(s, s.routes[rid], t) && IsLockedRoute(t, rid)
    requires forall id :: id in s.routes && id != rid ==> t.routes[id] == s.routes[id]
    ensures Holding(t)
  {
    forall b, w
      ensures !SharesHeldSwitch(s, rid, b, w)
    {
      if SharesHeldSwitch(s, rid, b, w) {
        NoSharedSwitch(s, rid, b, w);
        NewRouteFitsIn(s, rid, b);
      }
    }
    HoldingIffNoneShared(s, rid, t);
  }

  lemma EstablishKeepsSafe(s: State, rid: Id, now: int)
    requires Safe(s)
    ensures Exclusive(After(s, EstablishTx(s, rid, now))) && Holding(After(s, EstablishTx(s, rid, now)))
  {
    EstablishCases(s, rid, now);
    if EstablishCommits(s, rid) {
      var t := EstablishedState(s, s.routes[rid], StationPlan(s, s.routes[rid]), now);
      EstablishedFixed(s, s.routes[rid], StationPlan(s, s.routes[rid]), now);
      EstablishRows(s, rid, now);
      EstablishKeepsExclusive(s, rid, t);
      EstablishKeepsHolding(s, rid, t);
    }
  }

  /** Why each switch must lie on its route's path: without it, establishment keeps the locks of others iff none is
      shared. */
  lemma EstablishHoldingIff(s: State, rid: Id, now: int)
    requires WellFormed(s) && Holding(s) && EstablishCommits(s, rid)
    ensures Holding(After(s, EstablishTx(s, rid, now))) <==> forall b, w :: !SharesHeldSwitch(s, rid, b, w)
  {
    EstablishCases(s, rid, now);
    EstablishedFixed(s, s.routes[rid], StationPlan(s, s.routes[rid]), now);
    EstablishRows(s, rid, now);
    HoldingIffNoneShared(s, rid, EstablishedState(s, s.routes[rid], StationPlan(s, s.routes[rid]), now));
  }

  // ----- Releases -----

  lemma ReleaseKeepsSafe(s: State, r: Route, secs: seq<Id>, sws: seq<Id>, t: State)
    requires Exclusive(s) && Holding(s) && Fixed(s, t) && ExactlyHeld(s, r, secs, sws)
    requires t.switches == UnlockSwitches(s.switches, sws)
    requires r.id in t.routes && !t.routes[r.id].state.IsLocked()
    requires forall id :: id in s.routes && id != r.id ==> t.routes[id] == s.routes[id]
    ensures Exclusive(t) && Holding(t)
  {
    FewerLocked(s, t);
    forall id, w | IsLockedRoute(t, id) && SwitchHeld(s.switches, w, id)
      ensures SwitchHeld(t.switches, w, id) && t.switches[w].position == s.switches[w].position
    {
      assert !SwitchHeld(s.switches, w, r.id);
    }
    StillHolding(s, t);
  }

  lemma CancelKeepsSafe(s: State, rid: Id, now: int)
    requires Safe(s)
    ensures Exclusive(After(s, CancelTx(s, rid, now))) && Holding(After(s, CancelTx(s, rid, now)))
  {
    var o := CancelTx(s, rid, now);
    if o.Committed? {
      var r := s.routes[rid];
      if DecideCancel(LoadYard(s, r.station), r).value.Immediate? {
        HeldIsExact(s, r);
        CancelledNowFixed(s, r, now);
        ReleaseKeepsSafe(s, r, HeldSecs(s, r), HeldSws(s, r), CancelledNow(s, r, now));
      } else {
        CancelStartKeepsSafe(s, r, now, r.kind.ApproachLockDelay());
      }
    }
  }

  lemma CancelStartKeepsSafe(s: State, r: Route, now: int, delay: int)
    requires Exclusive(s) && Holding(s) && r.id in s.routes && s.routes[r.id] == r && r.state.IsLocked()
    ensures Exclusive(CancelStarted(s, r, now, delay)) && Holding(CancelStarted(s, r, now, delay))
  {
    var t := CancelStarted(s, r, now, delay);
    CancelStartedFixed(s, r, now, delay);
    FewerLocked(s, t);
    StillHolding(s, t);
  }

  lemma CompleteKeepsSafe(s: State, rid: Id, now: int)
    requires Safe(s)
    ensures Exclusive(After(s, CompleteTx(s, rid, now))) && Holding(After(s, CompleteTx(s, rid, now)))
  {
    if CompleteTx(s, rid, now).Committed? {
      var r := s.routes[rid];
      HeldIsExact(s, r);
      CompleteFixed(s, rid, now);
      ReleaseKeepsSafe(s, r, HeldSecs(s, r), HeldSws(s, r), CancelCompleted(s, r, now));
    }
  }

  lemma FaultKeepsSafe(s: State, rid: Id, now: int)
    requires Safe(s)
    ensures Exclusive(After(s, FaultTx(s, rid, now))) && Holding(After(s, FaultTx(s, rid, now)))
  {
    if rid in s.routes {
      var r := s.routes[rid];
      var y := LoadYard(s, r.station);
      YardHeldIsExact(s, r);
      FaultUnlockedFixed(s, r, now);
      ReleaseKeepsSafe(s, r, HeldSections(y.sections, r.path, r.id), HeldSwitches(y.switches, r.SwitchIds(), r.id),
                       FaultUnlocked(s, r, now));
    }
  }

  lemma NormalReleaseKeepsSafe(s: State, r: Route)
    requires Owned(s) && Exclusive(s) && Holding(s) && r.id in s.routes && s.routes[r.id].SameDefinition(r)
    ensures Exclusive(NormallyReleased(s, r)) && Holding(NormallyReleased(s, r))
  {
    HeldIsExact(s, r);
    NormallyReleasedFixed(s, r);
    ReleaseKeepsSafe(s, r, HeldSecs(s, r), HeldSws(s, r), NormallyReleased(s, r));
  }

  // ----- Switches and trains -----

  lemma ReverseKeepsSafe(s: State, w: Id)
    requires Safe(s)
    ensures Exclusive(After(s, ReverseTx(s, w))) && Holding(After(s, ReverseTx(s, w)))
  {
    var t := After(s, ReverseTx(s, w));
    ReverseFixed(s, w);
    FewerLocked(s, t);
    ReverseSparesHeld(s, w);
    StillHolding(s, t);
  }

  lemma ReverseSparesHeld(s: State, w: Id)
    ensures
      var t := After(s, ReverseTx(s, w));
      t.routes == s.routes && forall id, v :: SwitchHeld(s.switches, v, id) ==>
        SwitchHeld(t.switches, v, id) && t.switches[v].position == s.switches[v].position
  {
  }

  lemma IndicateKeepsSafe(s: State, w: Id, ok: bool, order: seq<Id>)
    requires w in s.switches ==> OrderFor(s, s.switches[w].station, order)
    requires Safe(s)
    ensures var t := After(s, IndicateTx(s, w, ok, order)); Exclusive(t) && Holding(t)
  {
    var t := After(s, IndicateTx(s, w, ok, order));
    IndicateFixed(s, w, ok, order);
    if w in s.switches {
      RefreshAllFixed(Indicated(s, w, ok), w, StationRoutes(s, s.switches[w].station), order);
    }
    FewerLocked(s, t);
    StillHolding(s, t);
  }

  /** The rows between the effects of a move and the release of a completed route. */
  function MovedOf(s: State, train: Id, k: Id, entering: bool, c: Choice): State
    requires Keyed(s.routes) && k in s.sections && ChoiceFor(s, k, entering, c)
  {
    MoveTouchesKnownRoutes(s, k, entering, c);
    Moved(s, s.sections[k].station, train, MoveEffect(s, k, entering, c), c.owners)
  }

  lemma TrainCases(s: State, train: Id, k: Id, entering: bool, c: Choice)
    requires Keyed(s.routes) && k in s.sections && ChoiceFor(s, k, entering, c)
    ensures
      var eff, m := MoveEffect(s, k, entering, c), MovedOf(s, train, k, entering, c);
      && Fixed(s, m)
      && (eff.complete != NO_ID ==>
          !entering && eff.complete in s.routes && eff.approachLock == NO_ID && m.routes == s.routes)
      && After(s, MoveTx(s, train, k, entering, c)) ==
           (if eff.complete == NO_ID then m else NormallyReleased(m, s.routes[eff.complete]))
  {
    MoveTouchesKnownRoutes(s, k, entering, c);
    MovedFixed(s, s.sections[k].station, train, MoveEffect(s, k, entering, c), c.owners);
  }

  lemma MovedKeepsSafe(s: State, train: Id, k: Id, entering: bool, c: Choice)
    requires Safe(s) && k in s.sections && ChoiceFor(s, k, entering, c) && GatedMove(s, k, entering, c)
    ensures var m := MovedOf(s, train, k, entering, c); Owned(m) && Exclusive(m) && Holding(m)
  {
    var m := MovedOf(s, train, k, entering, c);
    MoveTouchesKnownRoutes(s, k, entering, c);
    MovedKeepsOwned(s, s.sections[k].station, train, MoveEffect(s, k, entering, c), c.owners);
    TrainCases(s, train, k, entering, c);
    FewerLocked(s, m);
    StillHolding(s, m);
  }

  lemma TrainKeepsSafe(s: State, train: Id, k: Id, entering: bool, c: Choice)
    requires Safe(s) && ChoiceFor(s, k, entering, c) && GatedMove(s, k, entering, c)
    ensures var t := After(s, MoveTx(s, train, k, entering, c)); Exclusive(t) && Holding(t)
  {
    if k in s.sections {
      var eff := MoveEffect(s, k, entering, c);
      MovedKeepsSafe(s, train, k, entering, c);
      TrainCases(s, train, k, entering, c);
      if eff.complete != NO_ID {
        NormalReleaseKeepsSafe(MovedOf(s, train, k, entering, c), s.routes[eff.complete]);
      }
    }
  }

  lemma DefineKeepsSafe(s: State, r: Route)
    requires Safe(s) && r.id != NO_ID && SwitchesOnPath(s, r)
    ensures Safe(After(s, DefineTx(s, r)))
  {
    DefineKeepsWellFormed(s, r);
    DefineKeepsOwned(s, r);
    if DefineTx(s, r).Committed? {
      DefinedKeepsOnPath(s, r);
      DefinedKeepsLocked(s, r);
    }
  }

  lemma DefinedKeepsOnPath(s: State, r: Route)
    requires AllOnPath(s) && SwitchesOnPath(s, r) && DefineTx(s, r).Committed?
    ensures AllOnPath(DefineTx(s, r).state)
  {
    var t := DefineTx(s, r).state;
    forall id | id in t.routes
      ensures SwitchesOnPath(t, t.routes[id])
    {
      if id != r.id {
        assert SwitchesOnPath(s, s.routes[id]);
      } else {
        forall w, p | t.routes[id].Requires(w, p)
          ensures w in t.switches && t.routes[id].HasSection(t.switches[w].section)
        {
          assert r.Requires(w, p);
        }
      }
    }
  }

  lemma DefinedKeepsLocked(s: State, r: Route)
    requires Exclusive(s) && Holding(s) && DefineTx(s, r).Committed?
    ensures Exclusive(DefineTx(s, r).state) && Holding(DefineTx(s, r).state)
  {
    var t := DefineTx(s, r).state;
    assert forall id :: IsLockedRoute(t, id) ==> IsLockedRoute(s, id) && t.routes[id] == s.routes[id];
    forall id | IsLockedRoute(t, id)
      ensures HoldsSwitches(t, id)
    {
      assert HoldsSwitches(s, id);
    }
  }

  lemma NextSafe(s: State, step: Step)
    requires Safe(s) && Enabled(s, step) && Disciplined(s, step)
    ensures Safe(Next(s, step))
  {
    if step.Define? {
      DefineKeepsSafe(s, step.route);
    } else {
      NextFixed(s, step);
      NextWellFormed(s, step);
      NextOwned(s, step);
      OnPathKept(s, Next(s, step));
      NextExclusive(s, step);
    }
  }

  lemma NextExclusive(s: State, step: Step)
    requires Safe(s) && Enabled(s, step) && Disciplined(s, step) && !step.Define?
    ensures Exclusive(Next(s, step)) && Holding(Next(s, step))
  {
    match step {
      case Establish(rid, now) => EstablishKeepsSafe(s, rid, now);
      case Cancel(rid, now) => CancelKeepsSafe(s, rid, now);
      case Complete(rid, now) => CompleteKeepsSafe(s, rid, now);
      case FaultUnlock(rid, now) => FaultKeepsSafe(s, rid, now);
      case ReverseSwitch(w) => ReverseKeepsSafe(s, w);
      case Indicate(w, ok, order) => IndicateKeepsSafe(s, w, ok, order);
      case Train(train, k, entering, c) => TrainKeepsSafe(s, train, k, entering, c);
    }
  }

  ghost predicate IsDisciplinedRun(states: seq<State>, steps: seq<Step>) {
    IsRun(states, steps) && forall i :: 0 <= i < |steps| ==> Disciplined(states[i], steps[i])
  }

  lemma InitialIsSafe(s: State)
    requires Initial(s)
    ensures Safe(s)
  {
  }

  predicate KeepsLocks(s: State, a: Id) {
    && a in s.routes
    && (s.routes[a].state == Established || s.routes[a].state == ApproachLocked || s.routes[a].state == Cancelling)
  }

  /** In the rows: no two such routes share a section or oppose over a switch, and each holds its switches. */
  ghost predicate ApartAndHeld(s: State) {
    && (forall a, b :: KeepsLocks(s, a) && KeepsLocks(s, b) && a != b ==>
          && (forall k :: k in s.routes[a].path ==> k !in s.routes[b].path)
          && (forall w :: Requirement(w, Normal) in s.routes[a].requirements ==>
                Requirement(w, Reverse) !in s.routes[b].requirements))
    && (forall a, q :: KeepsLocks(s, a) && q in s.routes[a].requirements ==>
          && q.switch in s.switches && s.switches[q.switch].locked && s.switches[q.switch].holder == a
          && s.switches[q.switch].position == q.position)
  }

  lemma SafeMeans(s: State)
    requires Safe(s)
    ensures ApartAndHeld(s)
  {
    forall a, b | KeepsLocks(s, a) && KeepsLocks(s, b) && a != b
      ensures forall k :: k in s.routes[a].path ==> k !in s.routes[b].path
      ensures forall w :: Requirement(w, Normal) in s.routes[a].requirements ==>
        Requirement(w, Reverse) !in s.routes[b].requirements
    {
      assert IsLockedRoute(s, a) && IsLockedRoute(s, b) && !Conflicts(s.routes[a], s.routes[b]);
      forall w | Requirement(w, Normal) in s.routes[a].requirements
        ensures Requirement(w, Reverse) !in s.routes[b].requirements
      {
        assert s.routes[a].Requires(w, Normal) && !s.routes[b].Requires(w, Normal.Opposite());
      }
    }
    forall a, q | KeepsLocks(s, a) && q in s.routes[a].requirements
      ensures q.switch in s.switches && s.switches[q.switch].locked && s.switches[q.switch].holder == a
      ensures s.switches[q.switch].position == q.position
    {
      assert IsLockedRoute(s, a) && s.routes[a].Requires(q.switch, q.position);
    }
  }

  /** Main result: disciplined runs never have two conflicting locked routes, and locked routes hold their switches. */
  lemma {:induction false} DisciplinedRunIsSafe(states: seq<State>, steps: seq<Step>)
    requires IsDisciplinedRun(states, steps) && Safe(states[0])
    ensures Safe(states[|steps|]) && ApartAndHeld(states[|steps|])
  {
    SafeMeans(states[0]);
    if steps != [] {
      var n := |steps| - 1;
      DisciplinedRunIsSafe(states[..n + 1], steps[..n]);
      NextSafe(states[n], steps[n]);
      SafeMeans(states[n + 1]);
    }
  }
}
