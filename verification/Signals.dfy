/**
 Stored signal aspects. After an establishment the opened aspect is the recomputed one; on
 disciplined runs that restore no indication on a switch of a cancelling route, a permissive
 signal always shows what the rule computes for some locked route starting there.
 */
module Signals {
  import opened Model
  import opened RoutePlan
  import opened Interlocking
  import opened Signaling
  import opened TrainOps
  import opened Database
  import opened Steps
  import opened Runs
  import opened Ownership
  import opened Exclusion

  /** The aspect the rule gives for a route right now. */
  function AspectNow(s: State, rid: Id): Aspect
    requires rid in s.routes
  {
    var y := LoadYard(s, s.routes[rid].station);
    ComputeAspect(y.Get(rid), y.switches, y.sections)
  }

  // ----- Opening -----

  lemma EstablishedSwitchesSet(s: State, rid: Id, now: int, q: Requirement)
    requires WellFormed(s) && EstablishCommits(s, rid) && q in s.routes[rid].requirements
    ensures
      var t := EstablishedState(s, s.routes[rid], StationPlan(s, s.routes[rid]), now);
      && SwitchSet(q, t.switches) && t.switches[q.switch].station == s.routes[rid].station
      && q.switch in StationPlan(s, s.routes[rid]).switchLocks
  {
    var r := s.routes[rid];
    var y := LoadYard(s, r.station);
    CheckEstablishExact(y, r);
    EstablishRows(s, rid, now);
    EstablishedFixed(s, r, StationPlan(s, r), now);
    SwitchIdsAreUsed(r, q.switch);
    assert SwitchReady(y, rid, q) && r.Requires(q.switch, q.position);
    assert q.position == Normal || q.position == Reverse;
    OnePosition(r, q.switch, q.position,
                EstablishedState(s, r, StationPlan(s, r), now).switches[q.switch].position);
  }

  /** What establishment stores on the signal is the recomputed aspect, permissive, and diverging iff a switch is
      reversed. */
  lemma OpensToComputedAspect(s: State, rid: Id, now: int)
    requires WellFormed(s) && EstablishCommits(s, rid)
    ensures
      var r := s.routes[rid];
      var t := EstablishedState(s, r, StationPlan(s, r), now);
      && r.signal in t.signals
      && t.signals[r.signal].aspect == AspectNow(t, rid) == OpenAspect(s, r, StationPlan(s, r))
      && AspectNow(t, rid) != Red
      && (AspectNow(t, rid) == DoubleYellow <==> exists w :: r.Requires(w, Reverse))
  {
    var r := s.routes[rid];
    AllSwitchesSet(s, rid, now);
    WayIsClear(s, rid, now);
    assert r.signal in LoadYard(s, r.station).signals;
    DivergingMeans(r);
  }

  lemma AllSwitchesSet(s: State, rid: Id, now: int)
    requires WellFormed(s) && EstablishCommits(s, rid)
    ensures
      var r := s.routes[rid];
      var plan := StationPlan(s, r);
      && SwitchesSet(r.requirements, LoadYard(EstablishedState(s, r, plan, now), r.station).switches)
      && OpenAspect(s, r, plan) == Permissive(r)
  {
    var r := s.routes[rid];
    var plan := StationPlan(s, r);
    var t := EstablishedState(s, r, plan, now);
    var z := LoadYard(t, r.station);
    var shown := map w | w in plan.switchLocks && w in t.switches :: t.switches[w];
    forall q | q in r.requirements
      ensures SwitchSet(q, z.switches) && SwitchSet(q, shown)
    {
      EstablishedSwitchesSet(s, rid, now, q);
    }
    assert OpenAspect(s, r, plan) == AspectForOpen(r, shown);
  }

  lemma WayIsClear(s: State, rid: Id, now: int)
    requires WellFormed(s) && EstablishCommits(s, rid)
    ensures
      var r := s.routes[rid];
      PathClear(r.path, r.approach, LoadYard(EstablishedState(s, r, StationPlan(s, r), now), r.station).sections)
  {
    var r := s.routes[rid];
    var y := LoadYard(s, r.station);
    var t := EstablishedState(s, r, StationPlan(s, r), now);
    CheckEstablishExact(y, r);
    EstablishRows(s, rid, now);
    forall k | k in r.path
      ensures k == r.approach || ClearSection(k, LoadYard(t, r.station).sections)
    {
      assert SectionReady(y, r, k);
    }
  }

  lemma DivergingMeans(r: Route)
    ensures Diverging(r.requirements) <==> exists w :: r.Requires(w, Reverse)
  {
    if Diverging(r.requirements) {
      var q :| q in r.requirements && q.position == Reverse;
      assert r.Requires(q.switch, Reverse);
    }
  }

  // ----- Justified signals -----

  /** A locked route, not being cancelled, starts at the signal and the rule gives the stored aspect for it. */
  ghost predicate Justifies(s: State, rid: Id, g: Id) {
    && g in s.signals && IsLockedRoute(s, rid) && s.routes[rid].state != Cancelling
    && s.routes[rid].signal == g
    && AspectNow(s, rid) == s.signals[g].aspect
  }

  ghost predicate Justified(s: State, g: Id) {
    g in s.signals && s.signals[g].aspect != Red ==> exists rid :: Justifies(s, rid, g)
  }

  ghost predicate SignalsJustified(s: State) {
    forall g :: Justified(s, g)
  }

  /** No indication is restored on a switch of a route whose timed cancel is running. */
  ghost predicate SignalDiscipline(s: State, step: Step) {
    step.Indicate? && step.ok ==>
      forall id :: id in s.routes && s.routes[id].state == Cancelling ==> !s.routes[id].UsesSwitch(step.switch)
  }

  /** What a permissive route needs from a step to stay as permissive as it was. */
  ghost predicate StaysPermissive(s: State, t: State, rid: Id) {
    && IsLockedRoute(s, rid) && IsLockedRoute(t, rid)
    && (t.routes[rid].state == Cancelling ==> s.routes[rid].state == Cancelling)
    && (forall w :: s.routes[rid].UsesSwitch(w) && w in s.switches ==> SameShown(s, t, w))
    && (forall k :: k in s.routes[rid].path && k in s.sections && k in t.sections ==>
          t.sections[k].occupied ==> s.sections[k].occupied)
  }

  predicate SameShown(s: State, t: State, w: Id)
    requires w in s.switches
  {
    w in t.switches && t.switches[w].position == s.switches[w].position
    && t.switches[w].indicated == s.switches[w].indicated
  }

  lemma PermissiveKept(s: State, t: State, rid: Id)
    requires Keyed(s.routes) && Fixed(s, t) && StaysPermissive(s, t, rid)
    requires AspectNow(s, rid) != Red
    ensures AspectNow(t, rid) == AspectNow(s, rid)
  {
    var r, r' := s.routes[rid], t.routes[rid];
    var y, z := LoadYard(s, r.station), LoadYard(t, r.station);
    forall q | q in r'.requirements
      ensures SwitchSet(q, z.switches)
    {
      assert SwitchSet(q, y.switches);
      assert q == Requirement(q.switch, Normal) || q == Requirement(q.switch, Reverse);
      assert r.UsesSwitch(q.switch);
    }
    forall k | k in r'.path
      ensures k == r'.approach || ClearSection(k, z.sections)
    {
      assert k == r.approach || ClearSection(k, y.sections);
    }
  }

  lemma JustificationCarries(s: State, t: State, g: Id)
    requires Keyed(s.routes) && Fixed(s, t) && Justified(s, g)
    requires g in s.signals && t.signals[g].aspect == s.signals[g].aspect
    requires forall rid :: Justifies(s, rid, g) && AspectNow(s, rid) != Red ==> StaysPermissive(s, t, rid)
    ensures Justified(t, g)
  {
    if t.signals[g].aspect != Red {
      var rid :| Justifies(s, rid, g);
      PermissiveKept(s, t, rid);
      assert Justifies(t, rid, g);
    }
  }

  // ----- Steps -----

  lemma EstablishKeepsSignals(s: State, rid: Id, now: int)
    requires Safe(s) && SignalsJustified(s)
    ensures SignalsJustified(After(s, EstablishTx(s, rid, now)))
  {
    EstablishCases(s, rid, now);
    if EstablishCommits(s, rid) {
      var r := s.routes[rid];
      var t := EstablishedState(s, r, StationPlan(s, r), now);
      EstablishedFixed(s, r, StationPlan(s, r), now);
      forall g
        ensures Justified(t, g)
      {
        if g == r.signal {
          OpensToComputedAspect(s, rid, now);
          assert Justifies(t, rid, g);
        } else if g in s.signals {
          assert Justified(s, g);
          forall b | Justifies(s, b, g)
            ensures StaysPermissive(s, t, b)
          {
            EstablishSparesLocked(s, rid, now, b);
          }
          JustificationCarries(s, t, g);
        }
      }
    }
  }

  lemma EstablishSparesLocked(s: State, rid: Id, now: int, b: Id)
    requires Safe(s) && EstablishCommits(s, rid) && IsLockedRoute(s, b)
    ensures StaysPermissive(s, EstablishedState(s, s.routes[rid], StationPlan(s, s.routes[rid]), now), b)
  {
    var r := s.routes[rid];
    EstablishRows(s, rid, now);
    NewRouteFitsIn(s, rid, b);
    forall w | s.routes[b].UsesSwitch(w)
      ensures !r.UsesSwitch(w)
    {
      if r.UsesSwitch(w) {
        NoSharedSwitch(s, rid, b, w);
      }
    }
  }

  /** A release of `r` that leaves other signals alone, and either closes its own or was not its justification. */
  lemma ReleaseKeepsSignals(s: State, r: Route, secs: seq<Id>, sws: seq<Id>, t: State)
    requires Keyed(s.routes) && SignalsJustified(s) && Fixed(s, t) && r.id in s.routes
    requires s.routes[r.id].SameDefinition(r)
    requires t.sections == UnlockSections(s.sections, secs) && t.switches == UnlockSwitches(s.switches, sws)
    requires forall id :: id in s.routes && id != r.id ==> t.routes[id] == s.routes[id]
    requires s.routes[r.id].state != Cancelling && r.signal in s.signals ==> t.signals[r.signal].aspect == Red
    requires forall g :: g in s.signals && t.signals[g].aspect != Red ==> t.signals[g].aspect == s.signals[g].aspect
    ensures SignalsJustified(t)
  {
    forall g
      ensures Justified(t, g)
    {
      if g in s.signals && t.signals[g].aspect != Red {
        assert Justified(s, g);
        forall b | Justifies(s, b, g)
          ensures StaysPermissive(s, t, b)
        {
          assert b != r.id;
        }
        JustificationCarries(s, t, g);
      }
    }
  }

  lemma CancelKeepsSignals(s: State, rid: Id, now: int)
    requires Safe(s) && SignalsJustified(s)
    ensures SignalsJustified(After(s, CancelTx(s, rid, now)))
  {
    var o := CancelTx(s, rid, now);
    if o.Committed? {
      var r := s.routes[rid];
      if DecideCancel(LoadYard(s, r.station), r).value.Immediate? {
        CancelledNowFixed(s, r, now);
        ReleaseKeepsSignals(s, r, HeldSecs(s, r), HeldSws(s, r), o.state);
      } else {
        CancelStartKeepsSignals(s, r, now, r.kind.ApproachLockDelay());
      }
    }
  }

  lemma CancelStartKeepsSignals(s: State, r: Route, now: int, delay: int)
    requires Keyed(s.routes) && SignalsJustified(s) && r.id in s.routes && s.routes[r.id] == r
    ensures SignalsJustified(CancelStarted(s, r, now, delay))
  {
    var t := CancelStarted(s, r, now, delay);
    CancelStartedFixed(s, r, now, delay);
    forall g
      ensures Justified(t, g)
    {
      if g in s.signals && g != r.signal {
        assert Justified(s, g);
        JustificationCarries(s, t, g);
      }
    }
  }

  lemma CompleteKeepsSignals(s: State, rid: Id, now: int)
    requires Safe(s) && SignalsJustified(s)
    ensures SignalsJustified(After(s, CompleteTx(s, rid, now)))
  {
    var o := CompleteTx(s, rid, now);
    if o.Committed? {
      var r := s.routes[rid];
      CompleteFixed(s, rid, now);
      ReleaseKeepsSignals(s, r, HeldSecs(s, r), HeldSws(s, r), o.state);
    }
  }

  lemma FaultKeepsSignals(s: State, rid: Id, now: int)
    requires Safe(s) && SignalsJustified(s)
    ensures SignalsJustified(After(s, FaultTx(s, rid, now)))
  {
    if rid in s.routes {
      var r := s.routes[rid];
      var y := LoadYard(s, r.station);
      FaultUnlockedFixed(s, r, now);
      ReleaseKeepsSignals(s, r, HeldSections(y.sections, r.path, r.id), HeldSwitches(y.switches, r.SwitchIds(), r.id),
                          FaultUnlocked(s, r, now));
    }
  }

  lemma NormalReleaseKeepsSignals(s: State, r: Route)
    requires Keyed(s.routes) && SignalsJustified(s) && r.id in s.routes && s.routes[r.id].SameDefinition(r)
    ensures SignalsJustified(NormallyReleased(s, r))
  {
    NormallyReleasedFixed(s, r);
    ReleaseKeepsSignals(s, r, HeldSecs(s, r), HeldSws(s, r), NormallyReleased(s, r));
  }

  lemma ReverseSparesLocked(s: State, w: Id, b: Id)
    requires Safe(s) && IsLockedRoute(s, b) && ReverseTx(s, w).Committed?
    ensures StaysPermissive(s, After(s, ReverseTx(s, w)), b)
  {
    assert HoldsSwitches(s, b);
    assert !s.routes[b].UsesSwitch(w);
  }

  lemma ReverseKeepsSignals(s: State, w: Id)
    requires Safe(s) && SignalsJustified(s)
    ensures SignalsJustified(After(s, ReverseTx(s, w)))
  {
    var t := After(s, ReverseTx(s, w));
    ReverseFixed(s, w);
    if t != s {
      forall g
        ensures Justified(t, g)
      {
        assert Justified(s, g);
        if g in s.signals {
          forall b | Justifies(s, b, g)
            ensures StaysPermissive(s, t, b)
          {
            ReverseSparesLocked(s, w, b);
          }
          JustificationCarries(s, t, g);
        }
      }
    }
  }

  // ----- Indication -----

  predicate IsRefreshed(r: Route, w: Id) {
    r.state.IsLocked() && r.UsesSwitch(w)
  }

  /** After refreshing the routes of `order`, a signal is as before or shows the rule's aspect for a refreshed route. */
  ghost predicate RefreshedSo(m: State, w: Id, order: seq<Id>, u: State, g: Id)
    requires forall id :: id in order ==> id in m.routes
    requires g in m.signals && g in u.signals
  {
    || (u.signals[g].aspect == m.signals[g].aspect
        && forall id :: id in order && IsRefreshed(m.routes[id], w) ==> m.routes[id].signal != g)
    || (exists id :: id in order && IsRefreshed(m.routes[id], w) && m.routes[id].signal == g
                     && u.signals[g].aspect == AspectNow(m, id))
  }

  lemma RefreshShowsAspect(m: State, u: State, rid: Id)
    requires WellFormed(m) && rid in m.routes && u == m.(signals := u.signals, log := u.log) && Fixed(m, u)
    ensures
      var g, v := m.routes[rid].signal, Refresh(u, m.routes[rid]);
      && g in v.signals && v.signals[g].aspect == AspectNow(m, rid)
      && v.signals.Keys == u.signals.Keys
      && (forall h :: h in u.signals && h != g ==> v.signals[h] == u.signals[h])
  {
    var r := m.routes[rid];
    var y, z := LoadYard(m, r.station), LoadYard(u, r.station);
    assert z.switches == y.switches && z.sections == y.sections && z.Get(rid) == y.Get(rid);
    assert r.signal in y.signals;
  }

  lemma {:induction false} RefreshAllSo(m: State, w: Id, routes: map<Id, Route>, order: seq<Id>, g: Id)
    requires WellFormed(m) && g in m.signals
    requires forall id :: id in order ==> id in routes && id in m.routes && routes[id] == m.routes[id]
    ensures
      var u := RefreshAll(m, w, routes, order);
      g in u.signals && RefreshedSo(m, w, order, u, g)
  {
    if order != [] {
      var init, last := order[..|order| - 1], order[|order| - 1];
      assert order == init + [last];
      RefreshAllSo(m, w, routes, init, g);
      RefreshAllFixed(m, w, routes, init);
      var u := RefreshAll(m, w, routes, init);
      var v := RefreshAll(m, w, routes, order);
      if IsRefreshed(m.routes[last], w) {
        RefreshShowsAspect(m, u, last);
        if m.routes[last].signal == g {
          assert last in order;
        } else {
          RefreshedExtends(m, w, init, last, u, v, g);
        }
      } else {
        RefreshedExtends(m, w, init, last, u, v, g);
      }
    }
  }

  lemma RefreshedExtends(m: State, w: Id, init: seq<Id>, last: Id, u: State, v: State, g: Id)
    requires last in m.routes && forall id :: id in init ==> id in m.routes
    requires g in m.signals && g in u.signals && g in v.signals && v.signals[g] == u.signals[g]
    requires IsRefreshed(m.routes[last], w) ==> m.routes[last].signal != g
    requires RefreshedSo(m, w, init, u, g)
    ensures RefreshedSo(m, w, init + [last], v, g)
  {
    assert forall id :: id in init + [last] <==> id in init || id == last;
  }

  lemma LostIndicationIsRed(m: State, rid: Id, w: Id)
    requires Keyed(m.routes) && rid in m.routes && m.routes[rid].UsesSwitch(w)
    requires w in m.switches ==> !m.switches[w].indicated
    ensures AspectNow(m, rid) == Red
  {
    var q := if m.routes[rid].Requires(w, Normal) then Requirement(w, Normal) else Requirement(w, Reverse);
    assert q in m.routes[rid].requirements;
    assert !SwitchSet(q, LoadYard(m, m.routes[rid].station).switches);
  }

  lemma IndicateKeepsSignals(s: State, w: Id, ok: bool, order: seq<Id>)
    requires w in s.switches ==> OrderFor(s, s.switches[w].station, order)
    requires Safe(s) && SignalsJustified(s) && SignalDiscipline(s, Indicate(w, ok, order))
    ensures SignalsJustified(After(s, IndicateTx(s, w, ok, order)))
  {
    if w in s.switches && s.switches[w].indicated != ok {
      var m := Indicated(s, w, ok);
      var routes := StationRoutes(s, s.switches[w].station);
      var t := RefreshAll(m, w, routes, order);
      assert Fixed(s, m);
      FixedKeepsWellFormed(s, m);
      RefreshAllFixed(m, w, routes, order);
      forall g
        ensures Justified(t, g)
      {
        if g in t.signals && t.signals[g].aspect != Red {
          RefreshAllSo(m, w, routes, order, g);
          IndicateJustifies(s, w, ok, order, m, t, g);
        }
      }
    }
  }

  lemma IndicateJustifies(s: State, w: Id, ok: bool, order: seq<Id>, m: State, t: State, g: Id)
    requires Safe(s) && SignalsJustified(s) && SignalDiscipline(s, Indicate(w, ok, order))
    requires w in s.switches && OrderFor(s, s.switches[w].station, order) && m == Indicated(s, w, ok)
    requires WellFormed(m) && Fixed(m, t) && t == m.(signals := t.signals, log := t.log)
    requires g in t.signals && t.signals[g].aspect != Red && RefreshedSo(m, w, order, t, g)
    ensures Justified(t, g)
  {
    if id :| id in order && IsRefreshed(m.routes[id], w) && m.routes[id].signal == g
             && t.signals[g].aspect == AspectNow(m, id) {
      RefreshedJustifies(s, w, ok, order, m, t, g, id);
    } else {
      UnrefreshedJustified(s, w, ok, order, m, t, g);
    }
  }

  lemma RefreshedJustifies(s: State, w: Id, ok: bool, order: seq<Id>, m: State, t: State, g: Id, id: Id)
    requires Keyed(m.routes) && SignalDiscipline(s, Indicate(w, ok, order))
    requires w in s.switches && m == Indicated(s, w, ok)
    requires t == m.(signals := t.signals, log := t.log)
    requires g in t.signals && t.signals[g].aspect != Red
    requires id in m.routes && IsRefreshed(m.routes[id], w) && m.routes[id].signal == g
    requires t.signals[g].aspect == AspectNow(m, id)
    ensures Justified(t, g)
  {
    if !ok {
      LostIndicationIsRed(m, id, w);
    }
    SameYardSameAspect(m, t, id);
    assert Justifies(t, id, g);
  }

  lemma UnrefreshedJustified(s: State, w: Id, ok: bool, order: seq<Id>, m: State, t: State, g: Id)
    requires WellFormed(s) && SignalsJustified(s)
    requires w in s.switches && OrderFor(s, s.switches[w].station, order) && m == Indicated(s, w, ok)
    requires Fixed(s, t) && t == m.(signals := t.signals, log := t.log)
    requires g in s.signals && g in t.signals && t.signals[g].aspect == s.signals[g].aspect
    requires forall id :: id in order && id in m.routes && IsRefreshed(m.routes[id], w) ==> m.routes[id].signal != g
    ensures Justified(t, g)
  {
    assert Justified(s, g);
    forall b | Justifies(s, b, g)
      ensures StaysPermissive(s, t, b)
    {
      NotAUser(s, w, order, b, g);
      NonUserStaysPermissive(s, w, ok, t, b);
    }
    JustificationCarries(s, t, g);
  }

  lemma NonUserStaysPermissive(s: State, w: Id, ok: bool, t: State, b: Id)
    requires w in s.switches && IsLockedRoute(s, b) && !s.routes[b].UsesSwitch(w)
    requires t.routes == s.routes && t.sections == s.sections && t.switches == SetIndicated(s.switches, w, ok)
    ensures StaysPermissive(s, t, b)
  {
  }

  /** A route whose signal no refresh touched does not run over the switch. */
  lemma NotAUser(s: State, w: Id, order: seq<Id>, b: Id, g: Id)
    requires WellFormed(s) && w in s.switches && OrderFor(s, s.switches[w].station, order) && Justifies(s, b, g)
    requires forall id :: id in order && id in s.routes && IsRefreshed(s.routes[id], w) ==> s.routes[id].signal != g
    ensures !s.routes[b].UsesSwitch(w)
  {
    UsersAreRefreshed(s, w, order, b);
  }

  lemma SameYardSameAspect(m: State, t: State, id: Id)
    requires t.sections == m.sections && t.switches == m.switches
    requires id in m.routes && id in t.routes && t.routes[id] == m.routes[id]
    ensures AspectNow(t, id) == AspectNow(m, id)
  {
    var y, z := LoadYard(m, m.routes[id].station), LoadYard(t, m.routes[id].station);
    assert z.switches == y.switches && z.sections == y.sections;
  }

  /** Every locked route over a switch is listed among the routes of the switch's station. */
  lemma UsersAreRefreshed(s: State, w: Id, order: seq<Id>, b: Id)
    requires WellFormed(s) && w in s.switches && OrderFor(s, s.switches[w].station, order) && IsLockedRoute(s, b)
    ensures s.routes[b].UsesSwitch(w) ==> b in order && IsRefreshed(s.routes[b], w)
  {
    if s.routes[b].UsesSwitch(w) {
      var q := if s.routes[b].Requires(w, Normal) then Requirement(w, Normal) else Requirement(w, Reverse);
      assert q in s.routes[b].requirements && q.switch in LoadYard(s, s.routes[b].station).switches;
      assert b in StationRoutes(s, s.switches[w].station).Keys;
    }
  }

  // ----- Trains -----

  lemma MovedKeepsSignals(s: State, train: Id, k: Id, entering: bool, c: Choice)
    requires Safe(s) && SignalsJustified(s) && k in s.sections && ChoiceFor(s, k, entering, c)
    ensures SignalsJustified(MovedOf(s, train, k, entering, c))
  {
    var m := MovedOf(s, train, k, entering, c);
    TrainCases(s, train, k, entering, c);
    forall g
      ensures Justified(m, g)
    {
      if g in m.signals && m.signals[g].aspect != Red {
        assert Justified(s, g);
        forall b | Justifies(s, b, g)
          ensures StaysPermissive(s, m, b)
        {
          MovedSparesOthers(s, train, k, entering, c, b, g);
        }
        JustificationCarries(s, m, g);
      }
    }
  }

  lemma MovedSparesOthers(s: State, train: Id, k: Id, entering: bool, c: Choice, b: Id, g: Id)
    requires Safe(s) && k in s.sections && ChoiceFor(s, k, entering, c) && Justifies(s, b, g)
    requires g in MovedOf(s, train, k, entering, c).signals
    requires MovedOf(s, train, k, entering, c).signals[g].aspect != Red
    ensures StaysPermissive(s, MovedOf(s, train, k, entering, c), b)
  {
    StillOpenIsUntouched(s, train, k, entering, c, b, g);
    UntouchedStaysPermissive(s, train, k, entering, c, b);
  }

  /** A move closes the signals of the routes it enters, so a signal left open starts none of them. */
  lemma StillOpenIsUntouched(s: State, train: Id, k: Id, entering: bool, c: Choice, b: Id, g: Id)
    requires Safe(s) && k in s.sections && ChoiceFor(s, k, entering, c) && Justifies(s, b, g)
    requires g in MovedOf(s, train, k, entering, c).signals
    requires MovedOf(s, train, k, entering, c).signals[g].aspect != Red
    ensures !entering || !s.routes[b].HasSection(k)
  {
    MoveTouchesKnownRoutes(s, k, entering, c);
    assert b !in MoveEffect(s, k, entering, c).closeSignals;
    TouchedIsListed(s, k, entering, c, b);
  }

  lemma UntouchedStaysPermissive(s: State, train: Id, k: Id, entering: bool, c: Choice, b: Id)
    requires Keyed(s.routes) && k in s.sections && ChoiceFor(s, k, entering, c) && IsLockedRoute(s, b)
    requires !entering || !s.routes[b].HasSection(k)
    ensures StaysPermissive(s, MovedOf(s, train, k, entering, c), b)
  {
    MoveTouchesKnownRoutes(s, k, entering, c);
  }

  lemma TouchedIsListed(s: State, k: Id, entering: bool, c: Choice, b: Id)
    requires WellFormed(s) && k in s.sections && ChoiceFor(s, k, entering, c) && IsLockedRoute(s, b)
    ensures s.routes[b].HasSection(k) ==>
      b in c.order && b in LoadYard(s, s.sections[k].station).routes && Touched(s.routes[b], k)
  {
    assert s.routes[b].HasSection(k) ==> k in LoadYard(s, s.routes[b].station).sections;
  }

  lemma TrainKeepsSignals(s: State, train: Id, k: Id, entering: bool, c: Choice)
    requires Safe(s) && SignalsJustified(s) && ChoiceFor(s, k, entering, c)
    ensures SignalsJustified(After(s, MoveTx(s, train, k, entering, c)))
  {
    if k in s.sections {
      var eff := MoveEffect(s, k, entering, c);
      var m := MovedOf(s, train, k, entering, c);
      MovedKeepsSignals(s, train, k, entering, c);
      TrainCases(s, train, k, entering, c);
      if eff.complete != NO_ID {
        FixedKeepsKeyed(s, m);
        NormalReleaseKeepsSignals(m, s.routes[eff.complete]);
      }
    }
  }

  lemma DefineKeepsSignals(s: State, r: Route)
    requires Keyed(s.routes) && SignalsJustified(s)
    ensures SignalsJustified(After(s, DefineTx(s, r)))
  {
    var t := After(s, DefineTx(s, r));
    if t != s {
      forall g
        ensures Justified(t, g)
      {
        SameRowsJustified(s, t, g);
      }
    }
  }

  lemma SameRowsJustified(s: State, t: State, g: Id)
    requires Justified(s, g) && t.sections == s.sections && t.switches == s.switches && t.signals == s.signals
    requires forall id :: id in s.routes ==> id in t.routes && t.routes[id] == s.routes[id]
    ensures Justified(t, g)
  {
    if g in s.signals && s.signals[g].aspect != Red {
      var b :| Justifies(s, b, g);
      SameYardSameAspect(s, t, b);
      assert Justifies(t, b, g);
    }
  }

  lemma NextSignals(s: State, step: Step)
    requires Safe(s) && SignalsJustified(s) && Enabled(s, step) && Disciplined(s, step) && SignalDiscipline(s, step)
    ensures SignalsJustified(Next(s, step))
  {
    match step {
      case Define(r) => DefineKeepsSignals(s, r);
      case Establish(rid, now) => EstablishKeepsSignals(s, rid, now);
      case Cancel(rid, now) => CancelKeepsSignals(s, rid, now);
      case Complete(rid, now) => CompleteKeepsSignals(s, rid, now);
      case FaultUnlock(rid, now) => FaultKeepsSignals(s, rid, now);
      case ReverseSwitch(w) => ReverseKeepsSignals(s, w);
      case Indicate(w, ok, order) => IndicateKeepsSignals(s, w, ok, order);
      case Train(train, k, entering, c) => TrainKeepsSignals(s, train, k, entering, c);
    }
  }

  /** Main result: permissive signals are always justified by a locked route. */
  lemma {:induction false} SignalsStayJustified(states: seq<State>, steps: seq<Step>)
    requires IsDisciplinedRun(states, steps) && Initial(states[0])
    requires forall i :: 0 <= i < |steps| ==> SignalDiscipline(states[i], steps[i])
    ensures Safe(states[|steps|]) && SignalsJustified(states[|steps|])
  {
    if steps == [] {
      InitialIsSafe(states[0]);
    } else {
      var n := |steps| - 1;
      SignalsStayJustified(states[..n + 1], steps[..n]);
      NextSafe(states[n], steps[n]);
      NextSignals(states[n], steps[n]);
    }
  }

  /** What a driver may rely on: behind a permissive signal the switches are set and the way is clear. */
  lemma PermissiveSignalMeansSafeWay(states: seq<State>, steps: seq<Step>, g: Id) returns (rid: Id)
    requires IsDisciplinedRun(states, steps) && Initial(states[0])
    requires forall i :: 0 <= i < |steps| ==> SignalDiscipline(states[i], steps[i])
    requires g in states[|steps|].signals && states[|steps|].signals[g].aspect != Red
    ensures
      var s := states[|steps|];
      && IsLockedRoute(s, rid) && s.routes[rid].signal == g
      && SwitchesSet(s.routes[rid].requirements, s.switches)
      && PathClear(s.routes[rid].path, s.routes[rid].approach, s.sections)
      && (forall w :: s.routes[rid].UsesSwitch(w) ==> SwitchHeld(s.switches, w, rid))
  {
    var s := states[|steps|];
    SignalsStayJustified(states, steps);
    assert Justified(s, g);
    rid :| Justifies(s, rid, g);
    var y := LoadYard(s, s.routes[rid].station);
    AspectRule(y.Get(rid), y.switches, y.sections);
    forall q | q in s.routes[rid].requirements
      ensures SwitchSet(q, s.switches)
    {
      assert SwitchSet(q, y.switches);
    }
    forall k | k in s.routes[rid].path
      ensures k == s.routes[rid].approach || ClearSection(k, s.sections)
    {
      assert k == s.routes[rid].approach || ClearSection(k, y.sections);
    }
    assert HoldsSwitches(s, rid);
  }
}
