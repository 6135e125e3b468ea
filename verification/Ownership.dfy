/**
 Lock ownership on every run, restarts included: a locked section or switch is held by a route
 that is in a locked state, lists the element, and that the log also believes to be locked; a
 locked switch stands in the position its holder requires.
 */
module Ownership {
  import opened Model
  import opened RoutePlan
  import opened Interlocking
  import opened TrainOps
  import opened Database
  import opened Steps
  import opened Replay
  import opened Runs

  /** Locked in its row and, so that a restart does not unlock it silently, in the replayed log. */
  ghost predicate LiveHolder(s: State, h: Id) {
    && h in s.routes
    && s.routes[h].state.IsLocked()
    && ExpectedOf(s, h).Some?
    && ExpectedOf(s, h).value.IsLocked()
  }

  ghost predicate SectionOwned(s: State, k: Id)
    requires k in s.sections
  {
    var sec := s.sections[k];
    sec.locked ==>
      LiveHolder(s, sec.holder) && s.routes[sec.holder].HasSection(k)
      && s.routes[sec.holder].station == sec.station
  }

  ghost predicate SwitchOwned(s: State, w: Id)
    requires w in s.switches
  {
    var sw := s.switches[w];
    sw.locked ==>
      LiveHolder(s, sw.holder) && s.routes[sw.holder].Requires(w, sw.position)
      && s.routes[sw.holder].station == sw.station
  }

  ghost predicate Owned(s: State) {
    && (forall k :: k in s.sections ==> SectionOwned(s, k))
    && (forall w :: w in s.switches ==> SwitchOwned(s, w))
  }

  /** `h` keeps everything that makes it a live holder. */
  ghost predicate HolderKept(s: State, t: State, h: Id) {
    LiveHolder(s, h) ==> LiveHolder(t, h) && s.routes[h].SameDefinition(t.routes[h])
  }

  // ----- Establish -----

  /** The element rows after establishment, element by element. */
  ghost predicate EstablishedRows(s: State, r: Route, t: State) {
    && t.sections.Keys == s.sections.Keys && t.switches.Keys == s.switches.Keys
    && (forall k :: k in s.sections ==>
          t.sections[k] == if r.HasSection(k) && k != r.approach then s.sections[k].(locked := true, holder := r.id)
                           else s.sections[k])
    && (forall w :: w in s.switches ==>
          if r.UsesSwitch(w) then
            && t.switches[w] == s.switches[w].(position := t.switches[w].position, locked := true, holder := r.id)
            && r.Requires(w, t.switches[w].position)
          else t.switches[w] == s.switches[w])
  }

  ghost predicate Movable(y: Yard, w: Id) {
    w in y.switches && y.switches[w].indicated && !y.switches[w].locked && !y.Occupied(y.switches[w].section)
  }

  lemma {:induction false} MoveChecksPassed(y: Yard, moves: seq<Requirement>)
    ensures FirstMoveFault(y, moves).None? <==> forall q :: q in moves ==> Movable(y, q.switch)
  {
    if moves != [] {
      MoveChecksPassed(y, moves[1..]);
      assert moves == [moves[0]] + moves[1..];
    }
  }

  lemma EstablishRows(s: State, rid: Id, now: int)
    requires WellFormed(s) && EstablishCommits(s, rid)
    ensures
      var r := s.routes[rid];
      EstablishedRows(s, r, EstablishedState(s, r, StationPlan(s, r), now))
  {
    var r := s.routes[rid];
    var plan := StationPlan(s, r);
    var t := EstablishedState(s, r, plan, now);
    forall k | k in s.sections
      ensures k in plan.sectionLocks <==> r.HasSection(k) && k != r.approach
    {
      WithoutApproachMeaning(r.path, r.approach, k);
    }
    forall w | w in s.switches
      ensures if r.UsesSwitch(w) then
            && t.switches[w] == s.switches[w].(position := t.switches[w].position, locked := true, holder := r.id)
            && r.Requires(w, t.switches[w].position)
          else t.switches[w] == s.switches[w]
    {
      EstablishedSwitch(s, r, w);
    }
  }

  lemma EstablishedSwitch(s: State, r: Route, w: Id)
    requires w in s.switches && Defined(LoadYard(s, r.station), r)
    ensures
      var sw := EstablishedSwitches(s, r, StationPlan(s, r))[w];
      if r.UsesSwitch(w) then
        sw == s.switches[w].(position := sw.position, locked := true, holder := r.id) && r.Requires(w, sw.position)
      else sw == s.switches[w]
  {
    var y := LoadYard(s, r.station);
    MovesMeaning(y, r.requirements, Requirement(w, Normal));
    MovesMeaning(y, r.requirements, Requirement(w, Reverse));
    SwitchIdsAreUsed(r, w);
    if r.UsesSwitch(w) {
      var p := if r.Requires(w, Normal) then Normal else Reverse;
      assert Requirement(w, p) in r.requirements;
      assert y.switches[w] == s.switches[w];
    }
  }

  lemma OthersKept(s: State, t: State, r: Route, h: Id, word: Option<RouteState>)
    requires r.id in s.routes && h != r.id
    requires t.routes.Keys == s.routes.Keys
    requires forall id :: id in s.routes && id != r.id ==> t.routes[id] == s.routes[id]
    requires LastWordIs(s, t, r, word)
    ensures HolderKept(s, t, h)
  {
  }

  lemma EstablishKeepsOwned(s: State, rid: Id, now: int)
    requires WellFormed(s) && Owned(s)
    ensures Owned(After(s, EstablishTx(s, rid, now)))
  {
    EstablishCases(s, rid, now);
    if EstablishCommits(s, rid) {
      var r := s.routes[rid];
      var t := EstablishedState(s, r, StationPlan(s, r), now);
      EstablishRows(s, rid, now);
      EstablishWord(s, r, StationPlan(s, r), now);
      assert Establishable(r.state);
      assert LiveHolder(t, rid);
      forall k | k in t.sections
        ensures SectionOwned(t, k)
      {
        EstablishSectionOwned(s, t, r, k);
      }
      forall w | w in t.switches
        ensures SwitchOwned(t, w)
      {
        EstablishSwitchOwned(s, t, r, w);
      }
    }
  }

  lemma EstablishSectionOwned(s: State, t: State, r: Route, k: Id)
    requires WellFormed(s) && Owned(s) && r.id in s.routes && s.routes[r.id] == r && !r.state.IsLocked()
    requires EstablishedRows(s, r, t) && LastWordIs(s, t, r, Some(Established)) && LiveHolder(t, r.id)
    requires t.routes == s.routes[r.id := r.WithState(Established, t.routes[r.id].establishedAt, None, None)]
    requires k in t.sections
    ensures SectionOwned(t, k)
  {
    assert SectionOwned(s, k);
    if r.HasSection(k) && k != r.approach {
      assert k in LoadYard(s, r.station).sections;
    } else if t.sections[k].locked {
      OthersKept(s, t, r, s.sections[k].holder, Some(Established));
    }
  }

  lemma EstablishSwitchOwned(s: State, t: State, r: Route, w: Id)
    requires WellFormed(s) && Owned(s) && r.id in s.routes && s.routes[r.id] == r && !r.state.IsLocked()
    requires EstablishedRows(s, r, t) && LastWordIs(s, t, r, Some(Established)) && LiveHolder(t, r.id)
    requires t.routes == s.routes[r.id := r.WithState(Established, t.routes[r.id].establishedAt, None, None)]
    requires w in t.switches
    ensures SwitchOwned(t, w)
  {
    assert SwitchOwned(s, w);
    if r.UsesSwitch(w) {
      var q := Requirement(w, t.switches[w].position);
      assert q in r.requirements && q.switch in LoadYard(s, r.station).switches;
    } else if t.switches[w].locked {
      OthersKept(s, t, r, s.switches[w].holder, Some(Established));
    }
  }

  // ----- Releases -----

  /** The lists name exactly the elements locked by `r`. */
  ghost predicate ExactlyHeld(s: State, r: Route, secs: seq<Id>, sws: seq<Id>) {
    && (forall k :: k in secs <==> SectionHeld(s.sections, k, r.id))
    && (forall w :: w in sws <==> SwitchHeld(s.switches, w, r.id))
  }

  lemma HeldIsExact(s: State, r: Route)
    requires Owned(s) && r.id in s.routes && s.routes[r.id].SameDefinition(r)
    ensures ExactlyHeld(s, r, HeldSecs(s, r), HeldSws(s, r))
  {
    forall k
      ensures k in HeldSecs(s, r) <==> SectionHeld(s.sections, k, r.id)
    {
      HeldSectionsMeaning(s.sections, r.path, r.id, k);
      if SectionHeld(s.sections, k, r.id) {
        assert SectionOwned(s, k);
      }
    }
    forall w
      ensures w in HeldSws(s, r) <==> SwitchHeld(s.switches, w, r.id)
    {
      HeldSwitchesMeaning(s.switches, r.SwitchIds(), r.id, w);
      SwitchIdsAreUsed(r, w);
      if SwitchHeld(s.switches, w, r.id) {
        assert SwitchOwned(s, w);
      }
    }
  }

  /** The fault unlock looks at the station's yard only; ownership makes that the whole truth. */
  lemma YardHeldIsExact(s: State, r: Route)
    requires Owned(s) && r.id in s.routes && s.routes[r.id].SameDefinition(r)
    ensures
      var y := LoadYard(s, r.station);
      ExactlyHeld(s, r, HeldSections(y.sections, r.path, r.id), HeldSwitches(y.switches, r.SwitchIds(), r.id))
  {
    var y := LoadYard(s, r.station);
    forall k
      ensures k in HeldSections(y.sections, r.path, r.id) <==> SectionHeld(s.sections, k, r.id)
    {
      HeldSectionsMeaning(y.sections, r.path, r.id, k);
      if SectionHeld(s.sections, k, r.id) {
        assert SectionOwned(s, k);
      }
    }
    forall w
      ensures w in HeldSwitches(y.switches, r.SwitchIds(), r.id) <==> SwitchHeld(s.switches, w, r.id)
    {
      HeldSwitchesMeaning(y.switches, r.SwitchIds(), r.id, w);
      SwitchIdsAreUsed(r, w);
      if SwitchHeld(s.switches, w, r.id) {
        assert SwitchOwned(s, w);
      }
    }
  }

  /** A release of exactly the held locks keeps ownership, whatever it does to the route itself. */
  lemma ReleaseKeepsOwned(s: State, r: Route, secs: seq<Id>, sws: seq<Id>, t: State, word: Option<RouteState>)
    requires Owned(s) && r.id in s.routes && ExactlyHeld(s, r, secs, sws)
    requires t.sections == UnlockSections(s.sections, secs) && t.switches == UnlockSwitches(s.switches, sws)
    requires t.routes.Keys == s.routes.Keys
    requires forall id :: id in s.routes && id != r.id ==> t.routes[id] == s.routes[id]
    requires LastWordIs(s, t, r, word)
    ensures Owned(t)
  {
    forall k | k in t.sections
      ensures SectionOwned(t, k)
    {
      if t.sections[k].locked {
        assert SectionOwned(s, k) && !SectionHeld(s.sections, k, r.id);
        OthersKept(s, t, r, s.sections[k].holder, word);
      }
    }
    forall w | w in t.switches
      ensures SwitchOwned(t, w)
    {
      if t.switches[w].locked {
        assert SwitchOwned(s, w) && !SwitchHeld(s.switches, w, r.id);
        OthersKept(s, t, r, s.switches[w].holder, word);
      }
    }
  }

  lemma CancelKeepsOwned(s: State, rid: Id, now: int)
    requires Keyed(s.routes) && Owned(s)
    ensures Owned(After(s, CancelTx(s, rid, now)))
  {
    var o := CancelTx(s, rid, now);
    if o.Committed? {
      var r := s.routes[rid];
      if DecideCancel(LoadYard(s, r.station), r).value.Immediate? {
        HeldIsExact(s, r);
        CancelNowWord(s, r, now);
        ReleaseKeepsOwned(s, r, HeldSecs(s, r), HeldSws(s, r), CancelledNow(s, r, now), Some(Cancelling));
      } else {
        CancelStartKeepsOwned(s, r, now, r.kind.ApproachLockDelay());
      }
    }
  }

  lemma CancelStartKeepsOwned(s: State, r: Route, now: int, delay: int)
    requires Owned(s) && r.id in s.routes && s.routes[r.id] == r
    ensures Owned(CancelStarted(s, r, now, delay))
  {
    var t := CancelStarted(s, r, now, delay);
    CancelStartWord(s, r, now, delay);
    StillOwned(s, t);
  }

  /** Rows untouched, every live holder kept: ownership carries over. */
  lemma StillOwned(s: State, t: State)
    requires Owned(s)
    requires t.sections == s.sections && t.switches == s.switches
    requires forall h :: HolderKept(s, t, h)
    ensures Owned(t)
  {
    forall k | k in t.sections
      ensures SectionOwned(t, k)
    {
      assert SectionOwned(s, k) && HolderKept(s, t, s.sections[k].holder);
    }
    forall w | w in t.switches
      ensures SwitchOwned(t, w)
    {
      assert SwitchOwned(s, w) && HolderKept(s, t, s.switches[w].holder);
    }
  }

  lemma CompleteKeepsOwned(s: State, rid: Id, now: int)
    requires Keyed(s.routes) && Owned(s)
    ensures Owned(After(s, CompleteTx(s, rid, now)))
  {
    if CompleteTx(s, rid, now).Committed? {
      var r := s.routes[rid];
      HeldIsExact(s, r);
      CompleteWord(s, r, now);
      ReleaseKeepsOwned(s, r, HeldSecs(s, r), HeldSws(s, r), CancelCompleted(s, r, now), Some(Cancelled));
    }
  }

  lemma FaultKeepsOwned(s: State, rid: Id, now: int)
    requires Keyed(s.routes) && Owned(s)
    ensures Owned(After(s, FaultTx(s, rid, now)))
  {
    if rid in s.routes {
      var r := s.routes[rid];
      var y := LoadYard(s, r.station);
      YardHeldIsExact(s, r);
      FaultQuiet(s, r, now);
      ReleaseKeepsOwned(s, r, HeldSections(y.sections, r.path, r.id), HeldSwitches(y.switches, r.SwitchIds(), r.id),
                        FaultUnlocked(s, r, now), None);
    }
  }

  lemma NormalReleaseKeepsOwned(s: State, r: Route)
    requires Owned(s) && r.id in s.routes && s.routes[r.id].SameDefinition(r)
    ensures Owned(NormallyReleased(s, r))
  {
    HeldIsExact(s, r);
    NormalReleaseWord(s, r);
    ReleaseKeepsOwned(s, r, HeldSecs(s, r), HeldSws(s, r), NormallyReleased(s, r), Some(Unlocked));
  }

  // ----- Switches, trains, restarts -----

  lemma ReverseKeepsOwned(s: State, w: Id)
    requires Owned(s)
    ensures Owned(After(s, ReverseTx(s, w)))
  {
    var t := After(s, ReverseTx(s, w));
    if t != s {
      ReverseQuiet(s, w);
      forall k | k in t.sections
        ensures SectionOwned(t, k)
      {
        assert SectionOwned(s, k);
      }
      forall v | v in t.switches
        ensures SwitchOwned(t, v)
      {
        assert SwitchOwned(s, v);
      }
    }
  }

  lemma IndicateKeepsOwned(s: State, w: Id, ok: bool, order: seq<Id>)
    requires w in s.switches ==> OrderFor(s, s.switches[w].station, order)
    requires Owned(s)
    ensures Owned(After(s, IndicateTx(s, w, ok, order)))
  {
    var t := After(s, IndicateTx(s, w, ok, order));
    if t != s {
      var m := Indicated(s, w, ok);
      var routes := StationRoutes(s, s.switches[w].station);
      IndicatedQuiet(s, w, ok);
      RefreshAllQuiet(m, w, routes, order);
      RefreshAllFixed(m, w, routes, order);
      forall k | k in t.sections
        ensures SectionOwned(t, k)
      {
        assert SectionOwned(s, k);
      }
      forall v | v in t.switches
        ensures SwitchOwned(t, v)
      {
        assert SwitchOwned(s, v);
      }
    }
  }

  lemma MovedKeepsOwned(s: State, station: Id, train: Id, eff: Effect, owners: seq<Id>)
    requires Owned(s) && |owners| == |eff.unlock|
    requires forall id :: id in eff.closeSignals ==> id in s.routes
    ensures Owned(Moved(s, station, train, eff, owners))
  {
    var t := Moved(s, station, train, eff, owners);
    MovedQuiet(s, station, train, eff, owners);
    forall h
      ensures HolderKept(s, t, h)
    {
    }
    forall k | k in t.sections
      ensures SectionOwned(t, k)
    {
      assert SectionOwned(s, k) && HolderKept(s, t, s.sections[k].holder);
    }
    forall w | w in t.switches
      ensures SwitchOwned(t, w)
    {
      assert SwitchOwned(s, w) && HolderKept(s, t, s.switches[w].holder);
    }
  }

  lemma TrainKeepsOwned(s: State, train: Id, k: Id, entering: bool, c: Choice)
    requires Keyed(s.routes) && ChoiceFor(s, k, entering, c) && Owned(s)
    ensures Owned(After(s, MoveTx(s, train, k, entering, c)))
  {
    if k in s.sections {
      MoveTouchesKnownRoutes(s, k, entering, c);
      var eff := MoveEffect(s, k, entering, c);
      var station := s.sections[k].station;
      var m := Moved(s, station, train, eff, c.owners);
      MovedKeepsOwned(s, station, train, eff, c.owners);
      if eff.complete != NO_ID {
        MovedFixed(s, station, train, eff, c.owners);
        NormalReleaseKeepsOwned(m, s.routes[eff.complete]);
      }
    }
  }

  lemma CorrectionKeepsOwned(s: State, station: Id)
    requires Owned(s)
    ensures Owned(Corrected(s, station))
  {
    StillOwned(s, Corrected(s, station));
  }

  lemma {:induction false} CompleteDueKeepsOwned(s: State, now: int, order: seq<Id>)
    requires Keyed(s.routes) && Owned(s)
    ensures Owned(CompleteDue(s, now, order).state)
  {
    if order != [] {
      var init, last := order[..|order| - 1], order[|order| - 1];
      CompleteDueKeepsOwned(s, now, init);
      CompleteDueFixed(s, now, init);
      FixedKeepsKeyed(s, CompleteDue(s, now, init).state);
      CompleteKeepsOwned(CompleteDue(s, now, init).state, last, now);
    }
  }

  lemma {:induction false} ReconcileKeepsOwned(s: State, now: int, stations: seq<Id>, orders: seq<seq<Id>>)
    requires Keyed(s.routes) && Owned(s) && |orders| == |stations|
    ensures Owned(AllPasses(s, now, stations, orders).state)
  {
    if stations != [] {
      var n := |stations| - 1;
      var b := AllPasses(s, now, stations[..n], orders[..n]).state;
      ReconcileKeepsOwned(s, now, stations[..n], orders[..n]);
      AllPassesFixed(s, now, stations[..n], orders[..n]);
      FixedKeepsKeyed(s, b);
      CorrectionKeepsOwned(b, stations[n]);
      FixedKeepsKeyed(b, Corrected(b, stations[n]));
      CompleteDueKeepsOwned(Corrected(b, stations[n]), now, orders[n]);
    }
  }

  lemma DefineKeepsOwned(s: State, r: Route)
    requires Keyed(s.routes) && Owned(s)
    ensures Owned(After(s, DefineTx(s, r)))
  {
    StillOwned(s, After(s, DefineTx(s, r)));
  }

  lemma NextOwned(s: State, step: Step)
    requires WellFormed(s) && Enabled(s, step) && Owned(s)
    ensures Owned(Next(s, step))
  {
    match step {
      case Define(r) => DefineKeepsOwned(s, r);
      case Establish(rid, now) => EstablishKeepsOwned(s, rid, now);
      case Cancel(rid, now) => CancelKeepsOwned(s, rid, now);
      case Complete(rid, now) => CompleteKeepsOwned(s, rid, now);
      case FaultUnlock(rid, now) => FaultKeepsOwned(s, rid, now);
      case ReverseSwitch(w) => ReverseKeepsOwned(s, w);
      case Indicate(w, ok, order) => IndicateKeepsOwned(s, w, ok, order);
      case Train(train, k, entering, c) => TrainKeepsOwned(s, train, k, entering, c);
      case Reconcile(now, stations, orders) => ReconcileKeepsOwned(s, now, stations, orders);
    }
  }

  /** Main result: ownership holds after every run from a new installation, restarts included. */
  lemma {:induction false} EveryRunIsOwned(states: seq<State>, steps: seq<Step>)
    requires IsRun(states, steps) && Initial(states[0])
    ensures WellFormed(states[|steps|]) && Owned(states[|steps|])
  {
    if steps != [] {
      var n := |steps| - 1;
      EveryRunIsOwned(states[..n + 1], steps[..n]);
      NextWellFormed(states[n], steps[n]);
      NextOwned(states[n], steps[n]);
    }
  }

  // ----- Consequences for establishment -----

  /** The re-check of each planned move inside the transaction can never fail. */
  lemma PlanAlwaysCommits(s: State, rid: Id)
    requires WellFormed(s) && Owned(s) && rid in s.routes
    requires CheckEstablish(LoadYard(s, s.routes[rid].station), s.routes[rid]).Ok?
    ensures EstablishCommits(s, rid)
  {
    var r := s.routes[rid];
    var y := LoadYard(s, r.station);
    CheckEstablishExact(y, r);
    var moves := Moves(y, r.requirements);
    MoveChecksPassed(y, moves);
    forall q | q in moves
      ensures Movable(y, q.switch)
    {
      MovesMeaning(y, r.requirements, q);
      assert SwitchReady(y, rid, q) && SwitchOwned(s, q.switch);
    }
  }

  /** A foreign lock on a route section always shows up first as a locked conflicting route. */
  lemma SectionLockImpliesBlocked(s: State, rid: Id, k: Id)
    requires WellFormed(s) && Owned(s) && rid in s.routes
    requires
      var r := s.routes[rid];
      var y := LoadYard(s, r.station);
      k in r.path && k in y.sections && y.sections[k].locked && y.sections[k].holder != rid
    ensures Blocked(LoadYard(s, s.routes[rid].station), s.routes[rid])
  {
    var r := s.routes[rid];
    assert SectionOwned(s, k);
    var b := s.sections[k].holder;
    assert SharesSection(r, s.routes[b]);
    assert b in LoadYard(s, r.station).routes;
  }

  lemma {:induction false} FirstSectionFaultIsSome(y: Yard, r: Route, path: seq<Id>)
    requires FirstSectionFault(y, r, path) == Some(ErrSectionLocked)
    ensures exists k :: k in path && k in y.sections && y.sections[k].locked && y.sections[k].holder != r.id
  {
    if SectionFault(y, r, path[0]) != Some(ErrSectionLocked) {
      FirstSectionFaultIsSome(y, r, path[1..]);
      var k :| k in path[1..] && k in y.sections && y.sections[k].locked && y.sections[k].holder != r.id;
      assert k in path;
    } else {
      assert path[0] in path;
    }
  }

  lemma {:induction false} SwitchFaultNotSectionLock(y: Yard, rid: Id, reqs: seq<Requirement>)
    ensures FirstSwitchFault(y, rid, reqs) != Some(ErrSectionLocked)
  {
    if reqs != [] {
      SwitchFaultNotSectionLock(y, rid, reqs[1..]);
    }
  }

  /** The "section is locked" answer is unreachable: the conflict check comes first. */
  lemma NeverSectionLocked(s: State, rid: Id)
    requires WellFormed(s) && Owned(s) && rid in s.routes
    ensures CheckEstablish(LoadYard(s, s.routes[rid].station), s.routes[rid]) != Err(ErrSectionLocked)
  {
    var r := s.routes[rid];
    var y := LoadYard(s, r.station);
    SwitchFaultNotSectionLock(y, rid, r.requirements);
    if FirstSectionFault(y, r, r.path) == Some(ErrSectionLocked) {
      FirstSectionFaultIsSome(y, r, r.path);
      var k :| k in r.path && k in y.sections && y.sections[k].locked && y.sections[k].holder != r.id;
      SectionLockImpliesBlocked(s, rid, k);
    }
  }

  /** Where ownership holds, establishment commits exactly on the order-free condition. */
  lemma CommitsIffPermitted(s: State, rid: Id)
    requires WellFormed(s) && Owned(s) && rid in s.routes
    ensures EstablishCommits(s, rid) <==> Permitted(LoadYard(s, s.routes[rid].station), s.routes[rid])
  {
    CheckEstablishExact(LoadYard(s, s.routes[rid].station), s.routes[rid]);
    if Permitted(LoadYard(s, s.routes[rid].station), s.routes[rid]) {
      PlanAlwaysCommits(s, rid);
    }
  }

  /** On every run: a passing check commits, and "section is locked" is never the answer. */
  lemma EstablishOnEveryRun(states: seq<State>, steps: seq<Step>, rid: Id, now: int)
    requires IsRun(states, steps) && Initial(states[0])
    requires rid in states[|steps|].routes
    ensures
      var s := states[|steps|];
      var check := CheckEstablish(LoadYard(s, s.routes[rid].station), s.routes[rid]);
      && (check.Ok? <==> EstablishTx(s, rid, now).Committed?)
      && check != Err(ErrSectionLocked)
  {
    var s := states[|steps|];
    EveryRunIsOwned(states, steps);
    NeverSectionLocked(s, rid);
    if CheckEstablish(LoadYard(s, s.routes[rid].station), s.routes[rid]).Ok? {
      PlanAlwaysCommits(s, rid);
    }
    EstablishCases(s, rid, now);
  }
}
