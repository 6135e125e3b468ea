/**
 Which route a signal protects. Where routes that start at one signal exclude each other, on disciplined
 runs each signal protects exactly the route in force that starts there; only a fault unlock of an
 idle route can break that, because it gives up a signal it does not own.
 */
module Protection {
  import opened Model
  import opened RoutePlan
  import opened Database
  import opened Steps
  import opened Runs
  import opened Exclusion
  import opened Requests
  import opened Cancels
  import opened Reuse
  import opened Releases
  import opened TrainMoves

  /** The route is in force and starts at the signal. */
  predicate StartsAt(s: State, q: Id, g: Id) {
    q in s.routes && InForce(s.routes[q].state) && s.routes[q].signal == g
  }

  /** Each signal protects exactly the routes in force that start there. */
  ghost predicate BoundRight(s: State) {
    forall g, q :: g in s.signals && q != NO_ID ==> (s.signals[g].protects == q <==> StartsAt(s, q, g))
  }

  /** Any two routes that start at one signal exclude each other. */
  ghost predicate SignalsApart(s: State) {
    forall a, b :: a in s.routes && b in s.routes && a != b && s.routes[a].signal == s.routes[b].signal ==>
      Clash(s.routes[a], s.routes[b])
  }

  /** The fault unlock of a route gives up a signal at which another route in force starts. */
  ghost predicate TakesSignal(s: State, step: Step) {
    step.FaultUnlock? && step.rid in s.routes
    && exists q :: q != step.rid && StartsAt(s, q, s.routes[step.rid].signal)
  }

  lemma AtMostOneStarts(s: State, a: Id, b: Id, g: Id)
    requires Safe(s) && SignalsApart(s) && StartsAt(s, a, g) && StartsAt(s, b, g)
    ensures a == b
  {
    ClashIsConflict(s.routes[a], s.routes[b]);
    assert IsLockedRoute(s, a) && IsLockedRoute(s, b);
  }

  // ----- How binding and routes in force change together -----

  ghost predicate SameProtects(s: State, t: State) {
    t.signals.Keys == s.signals.Keys && forall g :: g in s.signals ==> t.signals[g].protects == s.signals[g].protects
  }

  lemma NothingBinds(s: State, t: State)
    requires BoundRight(s) && SameProtects(s, t)
    requires forall q, g :: StartsAt(t, q, g) <==> StartsAt(s, q, g)
    ensures BoundRight(t)
  {
  }

  /** Of all signals only `g` may protect another route than before. */
  ghost predicate OnlyRebound(s: State, t: State, g: Id, q: Id) {
    && t.signals.Keys == s.signals.Keys
    && forall h :: h in s.signals ==> t.signals[h].protects == if h == g then q else s.signals[h].protects
  }

  lemma Binds(s: State, t: State, rid: Id, g: Id)
    requires BoundRight(s) && rid != NO_ID && OnlyRebound(s, t, g, rid) && StartsAt(t, rid, g)
    requires forall q, h :: q != rid ==> (StartsAt(t, q, h) <==> StartsAt(s, q, h))
    requires forall h :: StartsAt(s, rid, h) || StartsAt(t, rid, h) ==> h == g
    requires forall q :: StartsAt(t, q, g) ==> q == rid
    ensures BoundRight(t)
  {
  }

  /** The route gives up its signal and is not, or no longer, in force. */
  ghost predicate LetsSignalGo(s: State, t: State, rid: Id) {
    && rid != NO_ID && NO_ID !in s.routes && rid in s.routes && s.routes[rid].signal in s.signals
    && OnlyRebound(s, t, s.routes[rid].signal, NO_ID)
    && t.routes.Keys == s.routes.Keys && !InForce(t.routes[rid].state)
    && forall q :: q in s.routes && q != rid ==> t.routes[q] == s.routes[q]
  }

  lemma Unbinds(s: State, t: State, rid: Id)
    requires BoundRight(s) && LetsSignalGo(s, t, rid)
    requires !exists q :: q != rid && StartsAt(s, q, s.routes[rid].signal)
    ensures BoundRight(t)
  {
    forall g, q | g in t.signals && q != NO_ID
      ensures t.signals[g].protects == q <==> StartsAt(t, q, g)
    {
      assert g in s.signals;
      assert q != rid ==> (StartsAt(t, q, g) <==> StartsAt(s, q, g));
      assert s.signals[g].protects == q <==> StartsAt(s, q, g);
    }
  }

  lemma UnbindsAnother(s: State, t: State, rid: Id, q: Id)
    requires LetsSignalGo(s, t, rid) && q != rid && StartsAt(s, q, s.routes[rid].signal)
    ensures !BoundRight(t)
  {
    var g := s.routes[rid].signal;
    assert StartsAt(t, q, g) && g in t.signals && t.signals[g].protects == NO_ID;
  }

  // ----- Steps -----

  lemma EstablishBinds(s: State, rid: Id, now: int)
    requires Safe(s) && BoundRight(s) && SignalsApart(s)
    ensures BoundRight(After(s, EstablishTx(s, rid, now)))
  {
    EstablishGrantedIff(s, rid, now);
    if MaySet(s, rid) {
      EstablishLeaves(s, rid, now);
      var t := EstablishTx(s, rid, now).state;
      var g := s.routes[rid].signal;
      forall q | StartsAt(t, q, g)
        ensures q == rid
      {
        assert q in s.routes;
      }
      Binds(s, t, rid, g);
    }
  }

  lemma SignalExists(s: State, rid: Id)
    requires WellFormed(s) && rid in s.routes
    ensures s.routes[rid].signal in s.signals && rid != NO_ID
  {
    assert s.routes[rid].signal in LoadYard(s, s.routes[rid].station).signals;
  }

  lemma CancelBinds(s: State, rid: Id, now: int)
    requires Safe(s) && BoundRight(s) && SignalsApart(s)
    ensures BoundRight(After(s, CancelTx(s, rid, now)))
  {
    CancelAnswers(s, rid, now);
    if CancelTx(s, rid, now).Committed? {
      var t := CancelTx(s, rid, now).state;
      if MustWait(s, rid) {
        NothingBinds(s, t);
      } else {
        OwnSignalOnly(s, rid);
        SignalExists(s, rid);
        Unbinds(s, t, rid);
      }
    }
  }

  lemma OwnSignalOnly(s: State, rid: Id)
    requires Safe(s) && SignalsApart(s) && rid in s.routes && InForce(s.routes[rid].state)
    ensures !exists q :: q != rid && StartsAt(s, q, s.routes[rid].signal)
  {
    if q :| q != rid && StartsAt(s, q, s.routes[rid].signal) {
      AtMostOneStarts(s, rid, q, s.routes[rid].signal);
    }
  }

  lemma CompleteBinds(s: State, rid: Id, now: int)
    requires Safe(s) && BoundRight(s) && SignalsApart(s)
    ensures BoundRight(After(s, CompleteTx(s, rid, now)))
  {
    CompleteAnswers(s, rid, now);
    if CompleteTx(s, rid, now).Committed? {
      OwnSignalOnly(s, rid);
      SignalExists(s, rid);
      Unbinds(s, CompleteTx(s, rid, now).state, rid);
    }
  }

  lemma FaultBindsIff(s: State, rid: Id, now: int)
    requires Safe(s) && BoundRight(s)
    ensures BoundRight(After(s, FaultTx(s, rid, now))) <==> !TakesSignal(s, Step.FaultUnlock(rid, now))
  {
    FaultAnswers(s, rid, now);
    if rid in s.routes {
      SignalExists(s, rid);
      if q :| q != rid && StartsAt(s, q, s.routes[rid].signal) {
        UnbindsAnother(s, FaultTx(s, rid, now).state, rid, q);
      } else {
        Unbinds(s, FaultTx(s, rid, now).state, rid);
      }
    }
  }

  lemma {:induction false} RefreshAllKeepsProtects(s: State, w: Id, routes: map<Id, Route>, order: seq<Id>)
    requires forall id :: id in order ==> id in routes
    ensures SameProtects(s, RefreshAll(s, w, routes, order)) && RefreshAll(s, w, routes, order).routes == s.routes
  {
    if order != [] {
      var init, last := order[..|order| - 1], order[|order| - 1];
      assert order == init + [last];
      RefreshAllKeepsProtects(s, w, routes, init);
      RefreshKeepsProtects(RefreshAll(s, w, routes, init), routes[last]);
    }
  }

  lemma RefreshKeepsProtects(s: State, r: Route)
    ensures SameProtects(s, Refresh(s, r)) && Refresh(s, r).routes == s.routes
  {
  }

  lemma IndicateBinds(s: State, w: Id, ok: bool, order: seq<Id>)
    requires BoundRight(s) && (w in s.switches ==> OrderFor(s, s.switches[w].station, order))
    ensures BoundRight(After(s, IndicateTx(s, w, ok, order)))
  {
    if w in s.switches {
      RefreshAllKeepsProtects(Indicated(s, w, ok), w, StationRoutes(s, s.switches[w].station), order);
    }
    NothingBinds(s, After(s, IndicateTx(s, w, ok, order)));
  }

  /** The rows of an entry whose approach effect, if any, lands on a route already in force. */
  ghost predicate GatedRows(s: State, t: State) {
    t.routes == s.routes
    || exists q ::
         && q in s.routes && InForce(s.routes[q].state)
         && t.routes ==
            s.routes[q := s.routes[q].(state := ApproachLocked, cancelledAt := None, timerStartedAt := None)]
  }

  lemma EntryRowsBind(s: State, t: State, k: Id)
    requires BoundRight(s) && SignalsClosed(s, t, k) && GatedRows(s, t)
    ensures BoundRight(t)
  {
    NothingBinds(s, t);
  }

  lemma EntryIsGated(s: State, train: Id, k: Id, c: Choice)
    requires Keyed(s.routes) && k in s.sections && ChoiceFor(s, k, true, c) && GatedMove(s, k, true, c)
    ensures GatedRows(s, MovedOf(s, train, k, true, c))
  {
    var q := MoveEffect(s, k, true, c).approachLock;
    assert q in s.routes ==> InForce(s.routes[q].state);
  }

  lemma EntryBinds(s: State, train: Id, k: Id, c: Choice)
    requires Safe(s) && BoundRight(s) && k in s.sections && ChoiceFor(s, k, true, c) && GatedMove(s, k, true, c)
    ensures BoundRight(After(s, MoveTx(s, train, k, true, c)))
  {
    TrainCases(s, train, k, true, c);
    EntryCloses(s, train, k, c);
    EntryIsGated(s, train, k, c);
    EntryRowsBind(s, MovedOf(s, train, k, true, c), k);
  }

  lemma CompletionBinds(s: State, t: State, q: Id)
    requires Safe(s) && BoundRight(s) && SignalsApart(s) && q in s.routes && InForce(s.routes[q].state)
    requires CompletedBy(s, t, q)
    ensures BoundRight(t)
  {
    OwnSignalOnly(s, q);
    SignalExists(s, q);
    Unbinds(s, t, q);
  }

  lemma ClearBinds(s: State, train: Id, k: Id, c: Choice)
    requires Safe(s) && BoundRight(s) && SignalsApart(s) && k in s.sections && ChoiceFor(s, k, false, c)
    ensures BoundRight(After(s, MoveTx(s, train, k, false, c)))
  {
    var t := After(s, MoveTx(s, train, k, false, c));
    ClearLeaves(s, train, k, c);
    if q :| Concerns(s, q, k) && ClearsLast(s, q, k) && CompletedBy(s, t, q) {
      CompletionBinds(s, t, q);
    } else {
      NothingBinds(s, t);
    }
  }

  lemma TrainBinds(s: State, train: Id, k: Id, entering: bool, c: Choice)
    requires Safe(s) && BoundRight(s) && SignalsApart(s) && ChoiceFor(s, k, entering, c) && GatedMove(s, k, entering, c)
    ensures BoundRight(After(s, MoveTx(s, train, k, entering, c)))
  {
    if k in s.sections {
      if entering {
        EntryBinds(s, train, k, c);
      } else {
        ClearBinds(s, train, k, c);
      }
    }
  }

  /** Main result, one step: the binding is kept, unless a fault unlock takes another route's signal. */
  lemma NextBoundIff(s: State, step: Step)
    requires Safe(s) && BoundRight(s) && SignalsApart(s) && Enabled(s, step) && Disciplined(s, step)
    ensures BoundRight(Next(s, step)) <==> !TakesSignal(s, step)
  {
    match step {
      case Define(r) => NothingBinds(s, Next(s, step));
      case Establish(rid, now) => EstablishBinds(s, rid, now);
      case Cancel(rid, now) => CancelBinds(s, rid, now);
      case Complete(rid, now) => CompleteBinds(s, rid, now);
      case FaultUnlock(rid, now) => FaultBindsIff(s, rid, now);
      case ReverseSwitch(w) =>
        ReverseAnswers(s, w);
        NothingBinds(s, Next(s, step));
      case Indicate(w, ok, order) => IndicateBinds(s, w, ok, order);
      case Train(train, k, entering, c) => TrainBinds(s, train, k, entering, c);
    }
  }

  /** Routes are only added, so the condition on their signals holds all along if it holds in the end. */
  lemma ApartBefore(s: State, step: Step)
    requires Keyed(s.routes) && Enabled(s, step) && SignalsApart(Next(s, step))
    ensures SignalsApart(s)
  {
    forall a, b | a in s.routes && b in s.routes && a != b && s.routes[a].signal == s.routes[b].signal
      ensures Clash(s.routes[a], s.routes[b])
    {
      if !step.Define? {
        NextFixed(s, step);
      }
      var t := Next(s, step);
      assert s.routes[a].SameDefinition(t.routes[a]) && s.routes[b].SameDefinition(t.routes[b]);
      assert Clash(t.routes[a], t.routes[b]);
    }
  }

  /** Main result: on disciplined runs each signal protects exactly the route in force that starts there. */
  lemma {:induction false} SignalsAreBound(states: seq<State>, steps: seq<Step>)
    requires IsDisciplinedRun(states, steps) && Safe(states[0]) && BoundRight(states[0])
    requires SignalsApart(states[|steps|])
    requires forall i :: 0 <= i < |steps| ==> !TakesSignal(states[i], steps[i])
    ensures BoundRight(states[|steps|])
  {
    if steps != [] {
      var n := |steps| - 1;
      ApartBefore(states[n], steps[n]);
      DisciplinedRunIsSafe(states[..n + 1], steps[..n]);
      SignalsAreBound(states[..n + 1], steps[..n]);
      NextBoundIff(states[n], steps[n]);
    }
  }
}
