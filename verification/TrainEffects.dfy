/**
 Train moves in safe yards: exactly when a move keeps exclusion, what its effect does not depend on,
 and whose section locks it takes away.
 */
module TrainEffects {
  import opened Model
  import opened RoutePlan
  import opened Interlocking
  import opened TrainOps
  import opened Database
  import opened Steps
  import opened Runs
  import opened Ownership
  import opened Exclusion

  // ----- The gate is exactly what a train move needs -----

  /** An approach effect on a route without locks is harmless only if it needs no switch and clashes with nothing. */
  ghost predicate HarmlessTarget(s: State, target: Id) {
    || target == NO_ID
    || IsLockedRoute(s, target)
    || (target in s.routes && s.routes[target].requirements == []
        && forall b :: IsLockedRoute(s, b) ==> !Conflicts(s.routes[target], s.routes[b]))
  }

  /** One way the move can go leaves exclusion and held switches intact. */
  ghost predicate KeepsSafeBy(s: State, train: Id, k: Id, entering: bool, c: Choice)
    requires Keyed(s.routes) && ChoiceFor(s, k, entering, c)
  {
    var t := After(s, MoveTx(s, train, k, entering, c));
    Exclusive(t) && Holding(t)
  }

  /**
   In a safe yard a train move keeps exclusion and held switches in whatever order the routes are
   visited, if and only if every route whose approach is entered is a harmless target.
   */
  lemma TrainSafeIffGated(s: State, train: Id, k: Id, entering: bool)
    requires Safe(s) && k in s.sections
    ensures (forall c :: ChoiceFor(s, k, entering, c) ==> KeepsSafeBy(s, train, k, entering, c)) <==>
      (entering ==> forall q :: ApproachCandidate(s, k, q) ==> HarmlessTarget(s, q))
  {
    forall c | ChoiceFor(s, k, entering, c)
      ensures KeepsSafeBy(s, train, k, entering, c) <==> HarmlessTarget(s, MoveEffect(s, k, entering, c).approachLock)
    {
      ChoiceSafeIff(s, train, k, entering, c);
      TargetIsCandidate(s, k, entering, c);
    }
    if entering && !forall q :: ApproachCandidate(s, k, q) ==> HarmlessTarget(s, q) {
      var q :| ApproachCandidate(s, k, q) && !HarmlessTarget(s, q);
      var c := CandidateCanWin(s, k, q);
      assert !KeepsSafeBy(s, train, k, entering, c);
    } else {
      forall c | ChoiceFor(s, k, entering, c)
        ensures KeepsSafeBy(s, train, k, entering, c)
      {
        TargetIsCandidate(s, k, entering, c);
      }
    }
  }

  /** The gate lets an approach effect through for established routes and those being cancelled, and for no others. */
  lemma GateMeans(state: RouteState)
    ensures OnApproachOccupied(state) == BecomesApproachLocked <==> state == Established
    ensures OnApproachOccupied(state) == AbandonsCancel <==> state == Cancelling
  {
  }

  /** Had the loop asked the gate the rules define, no approach effect could break anything. */
  lemma GateSuffices(s: State, train: Id, k: Id, c: Choice)
    requires Safe(s) && k in s.sections && ChoiceFor(s, k, true, c)
    requires
      var target := MoveEffect(s, k, true, c).approachLock;
      target in s.routes ==> OnApproachOccupied(s.routes[target].state) != NoApproachEffect
    ensures KeepsSafeBy(s, train, k, true, c)
  {
    TargetIsCandidate(s, k, true, c);
    ChoiceSafeIff(s, train, k, true, c);
  }

  /** For one choice: the move keeps exclusion and holding if and only if the target it picks is harmless. */
  lemma ChoiceSafeIff(s: State, train: Id, k: Id, entering: bool, c: Choice)
    requires Safe(s) && k in s.sections && ChoiceFor(s, k, entering, c)
    ensures KeepsSafeBy(s, train, k, entering, c) <==> HarmlessTarget(s, MoveEffect(s, k, entering, c).approachLock)
  {
    var target := MoveEffect(s, k, entering, c).approachLock;
    var t := After(s, MoveTx(s, train, k, entering, c));
    TrainCases(s, train, k, entering, c);
    if target == NO_ID || IsLockedRoute(s, target) {
      TrainKeepsSafe(s, train, k, entering, c);
    } else {
      MoveTouchesKnownRoutes(s, k, entering, c);
      assert target in s.routes && t == MovedOf(s, train, k, entering, c);
      if HarmlessTarget(s, target) {
        HarmlessKeepsSafe(s, t, target);
      } else {
        HarmfulBreaksSafe(s, t, target);
      }
    }
  }

  lemma HarmlessKeepsSafe(s: State, t: State, target: Id)
    requires Safe(s) && target in s.routes && Fixed(s, t) && t.switches == s.switches
    requires forall id :: id in s.routes && id != target ==> t.routes[id] == s.routes[id]
    requires s.routes[target].requirements == []
    requires forall b :: IsLockedRoute(s, b) ==> !Conflicts(s.routes[target], s.routes[b])
    ensures Exclusive(t) && Holding(t)
  {
    forall a, b | IsLockedRoute(t, a) && IsLockedRoute(t, b)
      ensures !Conflicts(t.routes[a], t.routes[b])
    {
      SameDefinitionConflicts(s.routes[a], t.routes[a], s.routes[b], t.routes[b]);
      ConflictsSymmetric(s.routes[a], s.routes[b]);
    }
    forall id | IsLockedRoute(t, id)
      ensures HoldsSwitches(t, id)
    {
      if id != target {
        assert HoldsSwitches(s, id);
      }
    }
  }

  lemma HarmfulBreaksSafe(s: State, t: State, target: Id)
    requires Safe(s) && target in s.routes && !IsLockedRoute(s, target) && Fixed(s, t) && t.switches == s.switches
    requires IsLockedRoute(t, target)
    requires forall id :: id in s.routes && id != target ==> t.routes[id] == s.routes[id]
    requires !HarmlessTarget(s, target)
    ensures !(Exclusive(t) && Holding(t))
  {
    if s.routes[target].requirements != [] {
      var q := s.routes[target].requirements[0];
      assert t.routes[target].Requires(q.switch, q.position);
      assert q.switch in s.switches ==> SwitchOwned(s, q.switch);
      assert !HoldsSwitches(t, target);
    } else {
      var b :| IsLockedRoute(s, b) && Conflicts(s.routes[target], s.routes[b]);
      SameDefinitionConflicts(s.routes[target], t.routes[target], s.routes[b], t.routes[b]);
    }
  }

  // ----- Consequences for train moves -----

  /** Under exclusion at most one locked route of a station has a given section. */
  lemma AtMostOneTouched(s: State, k: Id) returns (rid: Id)
    requires WellFormed(s) && Exclusive(s) && k in s.sections
    ensures OnlyTouched(LoadYard(s, s.sections[k].station), k, rid)
    ensures forall id :: IsLockedRoute(s, id) && s.routes[id].HasSection(k) ==> id == rid
    ensures rid == NO_ID || (IsLockedRoute(s, rid) && s.routes[rid].HasSection(k))
  {
    rid := NO_ID;
    if id :| IsLockedRoute(s, id) && s.routes[id].HasSection(k) {
      rid := id;
      forall other | IsLockedRoute(s, other) && s.routes[other].HasSection(k)
        ensures other == rid
      {
        assert SharesSection(s.routes[rid], s.routes[other]);
        assert !Conflicts(s.routes[rid], s.routes[other]);
      }
    } else {
      forall other | IsLockedRoute(s, other) && s.routes[other].HasSection(k)
        ensures false
      {
        assert false;
      }
    }
  }

  /** In any safe yard the effect of a move does not depend on the map order, except for the approach target. */
  lemma MoveEffectOrderIndependent(s: State, k: Id, entering: bool, order1: seq<Id>, order2: seq<Id>)
    requires WellFormed(s) && Exclusive(s) && k in s.sections
    requires OrderFor(s, s.sections[k].station, order1) && OrderFor(s, s.sections[k].station, order2)
    ensures
      var y := LoadYard(s, s.sections[k].station);
      ApplyMove(y, k, entering, order1).(approachLock := NO_ID)
        == ApplyMove(y, k, entering, order2).(approachLock := NO_ID)
  {
    var rid := AtMostOneTouched(s, k);
    OrderMattersOnlyForApproach(LoadYard(s, s.sections[k].station), k, entering, order1, order2, rid);
  }

  lemma ReleasesOwnPath(r: Route, y: Yard, k: Id, entering: bool, x: Id)
    requires x in ThreePointRelease(r, y, k, entering).unlock
    ensures r.HasSection(x)
  {
    HeldSectionsMeaning(y.sections, r.path, r.id, x);
  }

  /** A section named for release belongs to the only route that can hold it. */
  lemma ReleasedByHolder(s: State, k: Id, entering: bool, c: Choice, x: Id)
    requires Safe(s) && k in s.sections && ChoiceFor(s, k, entering, c) && x in s.sections && s.sections[x].locked
    requires x in MoveEffect(s, k, entering, c).unlock
    ensures
      var h := s.sections[x].holder;
      && IsLockedRoute(s, h) && s.routes[h].HasSection(k)
      && x in ThreePointRelease(s.routes[h], LoadYard(s, s.sections[k].station), k, entering).unlock
  {
    var y := LoadYard(s, s.sections[k].station);
    var h := s.sections[x].holder;
    VisitAllTraced(y, k, entering, c.order);
    var id :| id in c.order && Touched(y.routes[id], k) && x in ThreePointRelease(y.routes[id], y, k, entering).unlock;
    ReleasesOwnPath(y.routes[id], y, k, entering, x);
    assert SectionOwned(s, x);
    assert SharesSection(s.routes[id], s.routes[h]);
    assert IsLockedRoute(s, id) && IsLockedRoute(s, h);
    assert !Conflicts(s.routes[id], s.routes[h]);
  }

  /** `x` was locked by `h` and the move took that lock away. */
  ghost predicate LosesLock(s: State, t: State, x: Id) {
    && x in s.sections && x in t.sections && s.sections[x].locked
    && !(t.sections[x].locked && t.sections[x].holder == s.sections[x].holder)
  }

  lemma KeptUnlessNamed(s: State, train: Id, k: Id, entering: bool, c: Choice, x: Id)
    requires Keyed(s.routes) && k in s.sections && ChoiceFor(s, k, entering, c) && x in s.sections
    requires x !in MoveEffect(s, k, entering, c).unlock
    ensures
      var m := MovedOf(s, train, k, entering, c);
      x in m.sections && m.sections[x].locked == s.sections[x].locked && m.sections[x].holder == s.sections[x].holder
  {
  }

  lemma NormalReleaseDropsOwn(m: State, r: Route, x: Id)
    requires LosesLock(m, NormallyReleased(m, r), x)
    ensures m.sections[x].holder == r.id && r.HasSection(x)
  {
    HeldSectionsMeaning(m.sections, r.path, r.id, x);
  }

  /** A move drops section locks of the one route it runs on and of no other, although nothing checks the owner. */
  lemma MoveDropsOwnLocksOnly(s: State, train: Id, k: Id, entering: bool, c: Choice, x: Id)
    requires Safe(s) && k in s.sections && ChoiceFor(s, k, entering, c)
    requires LosesLock(s, After(s, MoveTx(s, train, k, entering, c)), x)
    ensures
      var h := s.sections[x].holder;
      && IsLockedRoute(s, h) && s.routes[h].HasSection(x) && s.routes[h].HasSection(k)
      && var rel := ThreePointRelease(s.routes[h], LoadYard(s, s.sections[k].station), k, entering);
         x in rel.unlock || rel.complete
  {
    var y := LoadYard(s, s.sections[k].station);
    var eff := MoveEffect(s, k, entering, c);
    assert SectionOwned(s, x);
    if x in eff.unlock {
      ReleasedByHolder(s, k, entering, c, x);
    } else {
      KeptUnlessNamed(s, train, k, entering, c, x);
      TrainCases(s, train, k, entering, c);
      MoveTouchesKnownRoutes(s, k, entering, c);
      NormalReleaseDropsOwn(MovedOf(s, train, k, entering, c), s.routes[eff.complete], x);
    }
  }
}
