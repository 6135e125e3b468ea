/**
 What may go on around a train passage: establishing any route, giving up any other route, moving
 switches and signals, trains on other sections, and restarts while the log is truthful. None of it
 touches the sections of the route the train runs on, so such steps fit between the moves of a passage.
 */
module Bystanders {
  import opened Model
  import opened RoutePlan
  import opened Interlocking
  import opened TrainOps
  import opened Database
  import opened Steps
  import opened Replay
  import opened Runs
  import opened Ownership
  import opened Exclusion
  import opened Agreement
  import opened TrainEffects
  import opened Traversal
  import opened Passages

  /** The route is not waiting for a timer that has elapsed. */
  predicate NotOverdue(s: State, rid: Id, now: int)
    requires rid in s.routes
  {
    s.routes[rid].state == Cancelling && rid in s.timers ==> !Due(s.timers[rid], now)
  }

  /** Read off the request and the rows: no section of `rid` is moved on, and no new claim to its further sections
      arises. */
  ghost predicate Bystander(s: State, step: Step, rid: Id, hi: int)
    requires rid in s.routes
  {
    match step
    case Define(r) => r.approach !in s.routes[rid].path
    case Establish(_, _) => true
    case Cancel(q, _) => q != rid
    case Complete(q, _) => q != rid
    case FaultUnlock(q, _) => q != rid
    case ReverseSwitch(_) => true
    case Indicate(_, _, _) => true
    case Train(_, k, entering, _) =>
      && k !in s.routes[rid].path
      && (entering ==> forall q ::
          ApproachCandidate(s, k, q) && q != rid && !IsLockedRoute(s, q) ==> SharesOnlyUpTo(s, rid, q, hi))
    case Reconcile(now, _, _) => Agrees(s) && NotOverdue(s, rid, now)
  }

  /** The locks on the route's sections are its own. */
  ghost predicate OwnRows(s: State, rid: Id) {
    rid in s.routes && forall k :: k in s.routes[rid].path ==> OwnRow(s, rid, k)
  }

  ghost predicate OwnRow(s: State, rid: Id, k: Id) {
    k in s.sections && (s.sections[k].locked ==> s.sections[k].holder == rid)
  }

  lemma StageHasOwnRows(s: State, rid: Id, path: seq<Id>, stage: Stage)
    requires StandsAt(s, rid, path, stage) && stage != Gone
    ensures Ready(s, rid, Reached(stage)) && OwnRows(s, rid)
  {
    forall k | k in path
      ensures OwnRow(s, rid, k)
    {
      var i :| 0 <= i < |path| && path[i] == k;
      match stage {
        case Approaching => assert At(s, rid, i, 0, -1, 0);
        case Inside(n) => assert At(s, rid, i, n, n, HeldFrom(|path|, n));
        case Across(n) => assert At(s, rid, i, n - 1, n, n - 1);
      }
    }
  }

  /** One other route changes its state; it ends unlocked without flags, or as clear of `rid` as before. */
  lemma OtherChanges(s: State, t: State, rid: Id, q: Id, hi: int)
    requires Undisturbed(s, rid, hi) && q != rid && q in s.routes && Fixed(s, t)
    requires forall id :: id in s.routes && id != q ==>
      t.routes[id] == s.routes[id] && OnceOf(t.once, id) == OnceOf(s.once, id)
    requires if IsLockedRoute(t, q) then SharesOnlyUpTo(t, rid, q, hi) else OnceOf(t.once, q) == {}
    ensures Undisturbed(t, rid, hi)
  {
    forall id | id in t.routes && id != rid
      ensures ClearOf(t, rid, id, hi)
    {
      assert ClearOf(s, rid, id, hi) && s.routes[id].SameDefinition(t.routes[id]);
      if id == q && !IsLockedRoute(t, q) {
        ReleasedIsClear(s, t, rid, q, hi);
      } else if id != q {
        SameIsClear(s, t, rid, id, hi);
      }
    }
  }

  lemma ReleasedIsClear(s: State, t: State, rid: Id, q: Id, hi: int)
    requires rid in s.routes && q in s.routes && Fixed(s, t) && ClearOf(s, rid, q, hi)
    requires !IsLockedRoute(t, q) && OnceOf(t.once, q) == {}
    ensures ClearOf(t, rid, q, hi)
  {
    assert s.routes[q].SameDefinition(t.routes[q]) && s.routes[rid].SameDefinition(t.routes[rid]);
    forall a | hi < a && ApproachAt(t, rid, q, a)
      ensures SharesOnlyUpTo(t, rid, q, a)
    {
      assert ApproachAt(s, rid, q, a);
    }
  }

  lemma SameIsClear(s: State, t: State, rid: Id, q: Id, hi: int)
    requires rid in s.routes && q in s.routes && rid in t.routes && s.routes[rid].SameDefinition(t.routes[rid])
    requires q in t.routes && t.routes[q] == s.routes[q]
    requires forall k :: k in s.routes[rid].path ==> (k in OnceOf(t.once, q) <==> k in OnceOf(s.once, q))
    requires ClearOf(s, rid, q, hi)
    ensures ClearOf(t, rid, q, hi)
  {
    if IsLockedRoute(t, q) {
      SameShare(s, t, rid, q, hi);
    } else {
      forall a | hi < a && ApproachAt(t, rid, q, a)
        ensures SharesOnlyUpTo(t, rid, q, a)
      {
        assert ApproachAt(s, rid, q, a);
        SameShare(s, t, rid, q, a);
      }
    }
  }

  lemma SameShare(s: State, t: State, rid: Id, q: Id, i: int)
    requires rid in s.routes && q in s.routes && rid in t.routes && s.routes[rid].SameDefinition(t.routes[rid])
    requires q in t.routes && s.routes[q].SameDefinition(t.routes[q])
    requires forall k :: k in s.routes[rid].path ==> (k in OnceOf(t.once, q) <==> k in OnceOf(s.once, q))
    requires SharesOnlyUpTo(s, rid, q, i)
    ensures SharesOnlyUpTo(t, rid, q, i)
  {
  }

  /** The rows of the route's sections survive a release of locks that are not its own. */
  lemma ForeignUnlockSpares(s: State, t: State, rid: Id, secs: seq<Id>)
    requires OwnRows(s, rid) && t.sections == UnlockSections(s.sections, secs)
    requires forall k :: k in secs ==> k !in s.routes[rid].path
    requires OnceOf(t.once, rid) == OnceOf(s.once, rid)
    ensures forall k :: k in s.routes[rid].path ==> SameRow(s, t, rid, k)
  {
  }

  /** A release of another route. */
  lemma ReleaseSpares(s: State, t: State, rid: Id, r: Route, secs: seq<Id>, hi: int)
    requires Ready(s, rid, hi) && OwnRows(s, rid) && r.id in s.routes && r.id != rid && Fixed(s, t)
    requires t.sections == UnlockSections(s.sections, secs)
      && forall k :: k in secs ==> SectionHeld(s.sections, k, r.id)
    requires t.once == s.once - {r.id} && !IsLockedRoute(t, r.id)
    requires forall id :: id in s.routes && id != r.id ==> t.routes[id] == s.routes[id]
    ensures Spared(s, t, rid, hi)
  {
    ForeignLocks(s, rid, r.id, secs);
    FlagsDropped(s, t, r.id);
    ForeignUnlockSpares(s, t, rid, secs);
    OtherChanges(s, t, rid, r.id, hi);
    SparedIf(s, t, rid, hi);
  }

  lemma FlagsDropped(s: State, t: State, q: Id)
    requires t.once == s.once - {q}
    ensures OnceOf(t.once, q) == {} && forall id :: id != q ==> OnceOf(t.once, id) == OnceOf(s.once, id)
  {
  }

  lemma SparedIf(s: State, t: State, rid: Id, hi: int)
    requires rid in s.routes && IsLockedRoute(t, rid) && Undisturbed(t, rid, hi)
    requires forall k :: k in s.routes[rid].path ==> SameRow(s, t, rid, k)
    ensures Spared(s, t, rid, hi)
  {
  }

  lemma ForeignLocks(s: State, rid: Id, q: Id, secs: seq<Id>)
    requires OwnRows(s, rid) && q != rid && forall k :: k in secs ==> SectionHeld(s.sections, k, q)
    ensures forall k :: k in secs ==> k !in s.routes[rid].path
  {
    forall k | k in secs
      ensures k !in s.routes[rid].path
    {
      assert k in s.routes[rid].path ==> OwnRow(s, rid, k);
    }
  }

  /** Nothing but the state of one other route changes, and it stays locked or unlocked. */
  lemma QuietSpares(s: State, t: State, rid: Id, q: Id, hi: int)
    requires Ready(s, rid, hi) && OwnRows(s, rid) && q != rid && Fixed(s, t)
    requires t.sections == s.sections && t.once == s.once
    requires forall id :: id in s.routes && id != q ==> t.routes[id] == s.routes[id]
    requires q in s.routes ==> t.routes[q] == s.routes[q] || (IsLockedRoute(s, q) && IsLockedRoute(t, q))
    ensures Spared(s, t, rid, hi)
  {
    SameTables(s, t, rid);
    QuietUndisturbed(s, t, rid, hi);
    SparedIf(s, t, rid, hi);
  }

  /** Definitions, flags and lock status of all routes are as before. */
  lemma QuietUndisturbed(s: State, t: State, rid: Id, hi: int)
    requires Undisturbed(s, rid, hi) && Fixed(s, t) && t.once == s.once
    requires forall id :: IsLockedRoute(t, id) <==> IsLockedRoute(s, id)
    ensures Undisturbed(t, rid, hi)
  {
    forall q | q in t.routes && q != rid
      ensures ClearOf(t, rid, q, hi)
    {
      assert ClearOf(s, rid, q, hi) && s.routes[q].SameDefinition(t.routes[q]);
      assert s.routes[rid].SameDefinition(t.routes[rid]);
      if IsLockedRoute(t, q) {
        SameShare(s, t, rid, q, hi);
      } else {
        forall a | hi < a && ApproachAt(t, rid, q, a)
          ensures SharesOnlyUpTo(t, rid, q, a)
        {
          assert ApproachAt(s, rid, q, a);
          SameShare(s, t, rid, q, a);
        }
      }
    }
  }

  lemma UnchangedSpares(s: State, rid: Id, hi: int)
    requires Ready(s, rid, hi) && OwnRows(s, rid)
    ensures Spared(s, s, rid, hi)
  {
    QuietSpares(s, s, rid, NO_ID, hi);
  }

  // ----- Steps -----

  lemma EstablishSpares(s: State, q: Id, now: int, rid: Id, hi: int)
    requires Ready(s, rid, hi) && OwnRows(s, rid)
    ensures Spared(s, After(s, EstablishTx(s, q, now)), rid, hi)
  {
    var t := After(s, EstablishTx(s, q, now));
    EstablishCases(s, q, now);
    if EstablishCommits(s, q) {
      CheckEstablishExact(LoadYard(s, s.routes[q].station), s.routes[q]);
      EstablishedFixed(s, s.routes[q], StationPlan(s, s.routes[q]), now);
      EstablishRows(s, q, now);
      NewRouteFitsIn(s, q, rid);
      NothingShared(s, q, rid);
      NewcomerSpares(s, t, q, rid, hi);
    } else {
      UnchangedSpares(s, rid, hi);
    }
  }

  lemma NewcomerSpares(s: State, t: State, q: Id, rid: Id, hi: int)
    requires Ready(s, rid, hi) && OwnRows(s, rid) && q in s.routes && q != rid && Fixed(s, t)
    requires forall k :: k in s.routes[rid].path ==> k !in s.routes[q].path
    requires EstablishedRows(s, s.routes[q], t) && t.once == s.once && IsLockedRoute(t, q)
    requires forall id :: id in s.routes && id != q ==> t.routes[id] == s.routes[id]
    ensures Spared(s, t, rid, hi)
  {
    forall k | k in s.routes[rid].path
      ensures SameRow(s, t, rid, k)
    {
      assert OwnRow(s, rid, k);
    }
    OtherChanges(s, t, rid, q, hi);
  }

  lemma NothingShared(s: State, q: Id, rid: Id)
    requires q in s.routes && rid in s.routes && s.routes[q].id != s.routes[rid].id
    requires !Conflicts(s.routes[q], s.routes[rid])
    ensures forall k :: k in s.routes[rid].path ==> k !in s.routes[q].path
  {
    assert !SharesSection(s.routes[q], s.routes[rid]);
  }

  lemma CancelSpares(s: State, q: Id, now: int, rid: Id, hi: int)
    requires Ready(s, rid, hi) && OwnRows(s, rid) && q != rid
    ensures Spared(s, After(s, CancelTx(s, q, now)), rid, hi)
  {
    var o := CancelTx(s, q, now);
    if o.Committed? {
      var r := s.routes[q];
      if DecideCancel(LoadYard(s, r.station), r) == Ok(Immediate) {
        CancelNowSpares(s, r, now, rid, hi);
      } else {
        CancelStartSpares(s, r, now, r.kind.ApproachLockDelay(), rid, hi);
      }
    } else {
      UnchangedSpares(s, rid, hi);
    }
  }

  lemma CancelNowSpares(s: State, r: Route, now: int, rid: Id, hi: int)
    requires Ready(s, rid, hi) && OwnRows(s, rid) && r.id in s.routes && s.routes[r.id] == r && r.id != rid
    ensures Spared(s, CancelledNow(s, r, now), rid, hi)
  {
    CancelledNowFixed(s, r, now);
    HeldIsExact(s, r);
    ReleaseSpares(s, CancelledNow(s, r, now), rid, r, HeldSecs(s, r), hi);
  }

  lemma CancelStartSpares(s: State, r: Route, now: int, delay: int, rid: Id, hi: int)
    requires Ready(s, rid, hi) && OwnRows(s, rid) && r.id in s.routes && s.routes[r.id] == r && r.id != rid
    requires r.state.IsLocked()
    ensures Spared(s, CancelStarted(s, r, now, delay), rid, hi)
  {
    CancelStartedFixed(s, r, now, delay);
    QuietSpares(s, CancelStarted(s, r, now, delay), rid, r.id, hi);
  }

  lemma CompleteSpares(s: State, q: Id, now: int, rid: Id, hi: int)
    requires Ready(s, rid, hi) && OwnRows(s, rid) && q != rid
    ensures Spared(s, After(s, CompleteTx(s, q, now)), rid, hi)
  {
    if CompleteTx(s, q, now).Committed? {
      CompletionSpares(s, s.routes[q], now, rid, hi);
    } else {
      UnchangedSpares(s, rid, hi);
    }
  }

  lemma CompletionSpares(s: State, r: Route, now: int, rid: Id, hi: int)
    requires Ready(s, rid, hi) && OwnRows(s, rid) && r.id != rid
    requires r.id in s.routes && s.routes[r.id] == r && r.state == Cancelling
    ensures Spared(s, CancelCompleted(s, r, now), rid, hi)
  {
    CompleteFixed(s, r.id, now);
    HeldIsExact(s, r);
    ReleaseSpares(s, CancelCompleted(s, r, now), rid, r, HeldSecs(s, r), hi);
  }

  lemma FaultSpares(s: State, q: Id, now: int, rid: Id, hi: int)
    requires Ready(s, rid, hi) && OwnRows(s, rid) && q != rid
    ensures Spared(s, After(s, FaultTx(s, q, now)), rid, hi)
  {
    if q in s.routes {
      var r := s.routes[q];
      FaultUnlockedFixed(s, r, now);
      YardHeldIsExact(s, r);
      ReleaseSpares(s, FaultUnlocked(s, r, now), rid, r,
          HeldSections(LoadYard(s, r.station).sections, r.path, r.id), hi);
    } else {
      UnchangedSpares(s, rid, hi);
    }
  }

  lemma FieldSpares(s: State, step: Step, rid: Id, hi: int)
    requires Ready(s, rid, hi) && OwnRows(s, rid) && Enabled(s, step) && (step.ReverseSwitch? || step.Indicate?)
    ensures Spared(s, Next(s, step), rid, hi)
  {
    NextFixed(s, step);
    FieldChanges(s, step);
    QuietSpares(s, Next(s, step), rid, NO_ID, hi);
  }

  lemma FieldChanges(s: State, step: Step)
    requires Keyed(s.routes) && Enabled(s, step) && (step.ReverseSwitch? || step.Indicate?)
    ensures var t := Next(s, step); t.sections == s.sections && t.once == s.once && t.routes == s.routes
  {
    if step.Indicate? && step.switch in s.switches {
      var w := step.switch;
      RefreshAllFixed(Indicated(s, w, step.ok), w, StationRoutes(s, s.switches[w].station), step.order);
    }
  }

  lemma DefineSpares(s: State, r: Route, rid: Id, hi: int)
    requires Ready(s, rid, hi) && OwnRows(s, rid) && r.approach !in s.routes[rid].path
    ensures Spared(s, After(s, DefineTx(s, r)), rid, hi)
  {
    var t := After(s, DefineTx(s, r));
    SameTables(s, t, rid);
    forall q | q in t.routes && q != rid
      ensures ClearOf(t, rid, q, hi)
    {
      if q in s.routes {
        assert ClearOf(s, rid, q, hi);
        SameIsClear(s, t, rid, q, hi);
      } else {
        NewIsClear(t, rid, q, hi);
      }
    }
  }

  lemma SameTables(s: State, t: State, rid: Id)
    requires OwnRows(s, rid) && t.sections == s.sections && t.once == s.once
    ensures forall k :: k in s.routes[rid].path ==> SameRow(s, t, rid, k)
  {
    forall k | k in s.routes[rid].path
      ensures SameRow(s, t, rid, k)
    {
      assert OwnRow(s, rid, k);
    }
  }

  lemma NewIsClear(t: State, rid: Id, q: Id, hi: int)
    requires rid in t.routes && q in t.routes && !IsLockedRoute(t, q) && t.routes[q].approach !in t.routes[rid].path
    ensures ClearOf(t, rid, q, hi)
  {
  }

  // ----- Trains elsewhere -----

  /** What a move on a section outside the route names for release, or completes, is not the route's. */
  lemma OutsideMove(s: State, k: Id, entering: bool, c: Choice, rid: Id, hi: int)
    requires Ready(s, rid, hi) && OwnRows(s, rid) && k !in s.routes[rid].path && k in s.sections
    requires ChoiceFor(s, k, entering, c)
    ensures
      var eff := MoveEffect(s, k, entering, c);
      && eff.section == k && eff.onceRoute != rid && eff.complete != rid
      && forall x :: x in eff.unlock ==> x !in s.routes[rid].path
  {
    var y := LoadYard(s, s.sections[k].station);
    var eff := MoveEffect(s, k, entering, c);
    MoveTouchesKnownRoutes(s, k, entering, c);
    forall x | x in eff.unlock
      ensures x !in s.routes[rid].path
    {
      var q :| q in c.order && Touched(y.routes[q], k) && x in ThreePointRelease(y.routes[q], y, k, entering).unlock;
      OutsideRelease(s, y, k, entering, q, x, rid, hi);
    }
  }

  lemma OutsideRelease(s: State, y: Yard, k: Id, entering: bool, q: Id, x: Id, rid: Id, hi: int)
    requires Ready(s, rid, hi) && OwnRows(s, rid) && k !in s.routes[rid].path && k in s.sections
    requires y == LoadYard(s, s.sections[k].station) && q in y.routes && Touched(y.routes[q], k)
    requires x in ThreePointRelease(y.routes[q], y, k, entering).unlock
    ensures x !in s.routes[rid].path
  {
    var r := s.routes[q];
    assert ClearOf(s, rid, q, hi);
    if x in s.routes[rid].path {
      var j :| 0 <= j < |s.routes[rid].path| && s.routes[rid].path[j] == x;
      ReleasesOwnPath(r, y, k, entering, x);
      assert r.HasSection(s.routes[rid].path[j]) && x !in OnceOf(s.once, q);
      HeldSectionsMeaning(y.sections, r.path, r.id, x);
      NotHeldByOther(s, rid, r.id, x);
      assert false;
    }
  }

  lemma NotHeldByOther(s: State, rid: Id, q: Id, x: Id)
    requires OwnRows(s, rid) && x in s.routes[rid].path && q != rid
    ensures !SectionHeld(s.sections, x, q)
  {
    assert OwnRow(s, rid, x);
  }

  /** The rows between the effects of the move and the release of a completed route. */
  lemma MovedSpares(s: State, train: Id, k: Id, entering: bool, c: Choice, rid: Id, hi: int)
    requires Ready(s, rid, hi) && OwnRows(s, rid) && k in s.sections && ChoiceFor(s, k, entering, c)
    requires Bystander(s, Train(train, k, entering, c), rid, hi)
    ensures Spared(s, MovedOf(s, train, k, entering, c), rid, hi)
  {
    var m := MovedOf(s, train, k, entering, c);
    TrainCases(s, train, k, entering, c);
    MovedOnlyOutside(s, train, k, entering, c);
    OutsideRows(s, train, k, entering, c, rid, hi);
    forall q | q in m.routes && q != rid
      ensures ClearOf(m, rid, q, hi)
    {
      MovedIsClear(s, m, k, entering, rid, q, hi);
    }
    SparedIf(s, m, rid, hi);
  }

  lemma OutsideRows(s: State, train: Id, k: Id, entering: bool, c: Choice, rid: Id, hi: int)
    requires Ready(s, rid, hi) && OwnRows(s, rid) && k in s.sections && ChoiceFor(s, k, entering, c)
    requires k !in s.routes[rid].path
    ensures forall x :: x in s.routes[rid].path ==> SameRow(s, MovedOf(s, train, k, entering, c), rid, x)
  {
    OutsideMove(s, k, entering, c, rid, hi);
    forall x | x in s.routes[rid].path
      ensures SameRow(s, MovedOf(s, train, k, entering, c), rid, x)
    {
      assert OwnRow(s, rid, x);
    }
  }

  /** What a move outside the route changes in other routes: flags of `k` only, and locks of candidates only. */
  ghost predicate OnlyOutside(s: State, m: State, k: Id, entering: bool) {
    && (forall q, x :: x != k ==> (x in OnceOf(m.once, q) <==> x in OnceOf(s.once, q)))
    && (forall q :: q in s.routes ==> q in m.routes && (m.routes[q] == s.routes[q] || IsLockedRoute(m, q)))
    && (forall q :: IsLockedRoute(m, q) ==> IsLockedRoute(s, q) || (entering && ApproachCandidate(s, k, q)))
  }

  lemma MovedOnlyOutside(s: State, train: Id, k: Id, entering: bool, c: Choice)
    requires Keyed(s.routes) && k in s.sections && ChoiceFor(s, k, entering, c)
    ensures OnlyOutside(s, MovedOf(s, train, k, entering, c), k, entering)
  {
    MoveTouchesKnownRoutes(s, k, entering, c);
    MovedKeepsLocked(s, train, k, entering, c);
  }

  lemma MovedIsClear(s: State, m: State, k: Id, entering: bool, rid: Id, q: Id, hi: int)
    requires Undisturbed(s, rid, hi) && q in s.routes && q != rid && Fixed(s, m) && OnlyOutside(s, m, k, entering)
    requires k !in s.routes[rid].path
    requires entering && ApproachCandidate(s, k, q) && !IsLockedRoute(s, q) ==> SharesOnlyUpTo(s, rid, q, hi)
    ensures ClearOf(m, rid, q, hi)
  {
    assert ClearOf(s, rid, q, hi) && s.routes[q].SameDefinition(m.routes[q])
      && s.routes[rid].SameDefinition(m.routes[rid]);
    if IsLockedRoute(m, q) {
      SameShare(s, m, rid, q, hi);
    } else {
      SameIsClear(s, m, rid, q, hi);
    }
  }

  lemma TrainSpares(s: State, train: Id, k: Id, entering: bool, c: Choice, rid: Id, hi: int)
    requires Ready(s, rid, hi) && OwnRows(s, rid) && ChoiceFor(s, k, entering, c)
    requires Bystander(s, Train(train, k, entering, c), rid, hi)
    ensures Spared(s, After(s, MoveTx(s, train, k, entering, c)), rid, hi)
  {
    if k in s.sections {
      var eff, m := MoveEffect(s, k, entering, c), MovedOf(s, train, k, entering, c);
      TrainCases(s, train, k, entering, c);
      MovedSpares(s, train, k, entering, c, rid, hi);
      if eff.complete != NO_ID {
        OutsideMove(s, k, entering, c, rid, hi);
        MovedStaysReady(s, train, k, entering, c, rid, hi);
        NormalReleaseSpares(m, s.routes[eff.complete], rid, hi);
        SparedTwice(s, m, NormallyReleased(m, s.routes[eff.complete]), rid, hi);
      }
    } else {
      UnchangedSpares(s, rid, hi);
    }
  }

  lemma NormalReleaseSpares(m: State, r: Route, rid: Id, hi: int)
    requires Ready(m, rid, hi) && OwnRows(m, rid) && r.id in m.routes && m.routes[r.id].SameDefinition(r) && r.id != rid
    ensures Spared(m, NormallyReleased(m, r), rid, hi)
  {
    NormallyReleasedFixed(m, r);
    HeldIsExact(m, r);
    ReleaseSpares(m, NormallyReleased(m, r), rid, r, HeldSecs(m, r), hi);
  }

  lemma MovedStaysReady(s: State, train: Id, k: Id, entering: bool, c: Choice, rid: Id, hi: int)
    requires Ready(s, rid, hi) && OwnRows(s, rid) && k in s.sections && ChoiceFor(s, k, entering, c)
    requires Spared(s, MovedOf(s, train, k, entering, c), rid, hi) && Fixed(s, MovedOf(s, train, k, entering, c))
    ensures var m := MovedOf(s, train, k, entering, c); Ready(m, rid, hi) && OwnRows(m, rid)
  {
    var m := MovedOf(s, train, k, entering, c);
    MoveTouchesKnownRoutes(s, k, entering, c);
    MovedKeepsOwned(s, s.sections[k].station, train, MoveEffect(s, k, entering, c), c.owners);
    SparedStaysReady(s, m, rid, hi);
  }

  lemma SparedStaysReady(s: State, t: State, rid: Id, hi: int)
    requires Ready(s, rid, hi) && OwnRows(s, rid) && Spared(s, t, rid, hi) && Fixed(s, t) && Owned(t)
    ensures Ready(t, rid, hi) && OwnRows(t, rid)
  {
    FixedKeepsWellFormed(s, t);
    assert s.routes[rid].SameDefinition(t.routes[rid]);
    forall x | x in t.routes[rid].path
      ensures OwnRow(t, rid, x)
    {
      var i :| 0 <= i < |s.routes[rid].path| && s.routes[rid].path[i] == x;
      assert OwnRow(s, rid, x) && SameRow(s, t, rid, s.routes[rid].path[i]);
    }
  }

  lemma SparedTwice(s: State, m: State, t: State, rid: Id, hi: int)
    requires Spared(s, m, rid, hi) && Spared(m, t, rid, hi) && s.routes[rid].SameDefinition(m.routes[rid])
    ensures Spared(s, t, rid, hi)
  {
    forall i | 0 <= i < |s.routes[rid].path|
      ensures SameRow(s, t, rid, s.routes[rid].path[i])
    {
      assert SameRow(s, m, rid, s.routes[rid].path[i]) && SameRow(m, t, rid, m.routes[rid].path[i]);
    }
  }

  // ----- Restarts -----

  /** Everything a further pass of a restart needs, and what the passes so far have spared. */
  ghost predicate RestartSpares(s: State, t: State, rid: Id, hi: int, now: int) {
    && Fixed(s, t) && Spared(s, t, rid, hi) && Ready(t, rid, hi) && OwnRows(t, rid)
    && Agrees(t) && NotOverdue(t, rid, now)
  }

  lemma CorrectionSpares(s: State, station: Id, rid: Id, hi: int, now: int)
    requires Ready(s, rid, hi) && OwnRows(s, rid) && Agrees(s) && NotOverdue(s, rid, now)
    ensures RestartSpares(s, Corrected(s, station), rid, hi, now)
  {
    var t := Corrected(s, station);
    CorrectionKeepsLocked(s, station);
    SameTables(s, t, rid);
    QuietUndisturbed(s, t, rid, hi);
    SparedIf(s, t, rid, hi);
    CorrectionKeepsOwned(s, station);
    SparedStaysReady(s, t, rid, hi);
    Agreement.CorrectedAgrees(s, station);
  }

  lemma OneTimerSpares(s: State, other: Id, now: int, rid: Id, hi: int)
    requires Ready(s, rid, hi) && OwnRows(s, rid) && Agrees(s) && NotOverdue(s, rid, now)
    ensures RestartSpares(s, CompleteOne(Pass(s, 0), other, now).state, rid, hi, now)
  {
    var t := CompleteOne(Pass(s, 0), other, now).state;
    if t == s {
      UnchangedSpares(s, rid, hi);
    } else {
      CompleteSpares(s, other, now, rid, hi);
      CompleteFixed(s, other, now);
      CompleteKeepsOwned(s, other, now);
      SparedStaysReady(s, t, rid, hi);
      CompleteAgrees(s, other, now);
    }
  }

  lemma RestartSparesTwice(s: State, m: State, t: State, rid: Id, hi: int, now: int)
    requires RestartSpares(s, m, rid, hi, now) && RestartSpares(m, t, rid, hi, now) && rid in s.routes
    ensures RestartSpares(s, t, rid, hi, now)
  {
    assert s.routes[rid].SameDefinition(m.routes[rid]);
    SparedTwice(s, m, t, rid, hi);
    FixedTransitive(s, m, t);
  }

  lemma {:induction false} TimersSpare(s: State, now: int, order: seq<Id>, rid: Id, hi: int)
    requires Ready(s, rid, hi) && OwnRows(s, rid) && Agrees(s) && NotOverdue(s, rid, now)
    ensures RestartSpares(s, CompleteDue(s, now, order).state, rid, hi, now)
  {
    if order == [] {
      UnchangedSpares(s, rid, hi);
    } else {
      var init, last := order[..|order| - 1], order[|order| - 1];
      TimersSpare(s, now, init, rid, hi);
      var m := CompleteDue(s, now, init).state;
      OneTimerSpares(m, last, now, rid, hi);
      RestartSparesTwice(s, m, CompleteDue(s, now, order).state, rid, hi, now);
    }
  }

  lemma {:induction false} PassesSpare(s: State, now: int, stations: seq<Id>, orders: seq<seq<Id>>, rid: Id, hi: int)
    requires Ready(s, rid, hi) && OwnRows(s, rid) && Agrees(s) && NotOverdue(s, rid, now) && |orders| == |stations|
    ensures RestartSpares(s, AllPasses(s, now, stations, orders).state, rid, hi, now)
  {
    if stations == [] {
      UnchangedSpares(s, rid, hi);
    } else {
      var n := |stations| - 1;
      var b := AllPasses(s, now, stations[..n], orders[..n]).state;
      var c := Corrected(b, stations[n]);
      var t := CompleteDue(c, now, orders[n]).state;
      PassesSpare(s, now, stations[..n], orders[..n], rid, hi);
      CorrectionSpares(b, stations[n], rid, hi, now);
      TimersSpare(c, now, orders[n], rid, hi);
      RestartSparesTwice(s, b, c, rid, hi, now);
      RestartSparesTwice(s, c, t, rid, hi, now);
    }
  }

  /** Main result: at any stage of a passage, every bystander's step leaves the passage alone. */
  lemma BystandersSpare(s: State, step: Step, rid: Id, path: seq<Id>, stage: Stage)
    requires StandsAt(s, rid, path, stage) && stage != Gone && Keyed(s.routes) && Enabled(s, step)
    requires Bystander(s, step, rid, Reached(stage))
    ensures Spared(s, Next(s, step), rid, Reached(stage))
  {
    StageHasOwnRows(s, rid, path, stage);
    match step {
      case Define(r) => DefineSpares(s, r, rid, Reached(stage));
      case Establish(q, now) => EstablishSpares(s, q, now, rid, Reached(stage));
      case Cancel(q, now) => CancelSpares(s, q, now, rid, Reached(stage));
      case Complete(q, now) => CompleteSpares(s, q, now, rid, Reached(stage));
      case FaultUnlock(q, now) => FaultSpares(s, q, now, rid, Reached(stage));
      case ReverseSwitch(_) => FieldSpares(s, step, rid, Reached(stage));
      case Indicate(_, _, _) => FieldSpares(s, step, rid, Reached(stage));
      case Train(train, k, entering, c) => TrainSpares(s, train, k, entering, c, rid, Reached(stage));
      case Reconcile(now, stations, orders) => PassesSpare(s, now, stations, orders, rid, Reached(stage));
    }
  }
}
