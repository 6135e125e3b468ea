/**
 Restored indications. Completing a timed cancel does not close the signal, so an indication that
 comes back on a switch of a cancelling route can leave a permissive signal without a route; here it
 is shown how, and exactly when a restored indication is harmless.
 */
module Indications {
  import opened Model
  import opened RoutePlan
  import opened Signaling
  import opened TrainOps
  import opened Database
  import opened Steps
  import opened Runs
  import opened Exclusion
  import opened Signals

  // ----- Why the restored indication matters: completion does not close the signal -----

  /** The weaker promise that also admits cancelling routes. */
  ghost predicate Guards(s: State, rid: Id, g: Id) {
    g in s.signals && IsLockedRoute(s, rid) && s.routes[rid].signal == g && AspectNow(s, rid) == s.signals[g].aspect
  }

  ghost predicate Guarded(s: State, g: Id) {
    g in s.signals && s.signals[g].aspect != Red ==> exists rid :: Guards(s, rid, g)
  }

  /** Completing a timed cancel keeps the route's signal guarded exactly if it was red or another locked route
      guards it. */
  lemma CompletionGuardedIff(s: State, rid: Id, now: int)
    requires WellFormed(s) && rid in s.routes && s.routes[rid].state == Cancelling
    ensures
      var g := s.routes[rid].signal;
      Guarded(After(s, CompleteTx(s, rid, now)), g) <==>
        s.signals[g].aspect == Red || exists b :: b != rid && Guards(s, b, g)
  {
    var r := s.routes[rid];
    var g := r.signal;
    var t := CancelCompleted(s, r, now);
    CompleteFixed(s, rid, now);
    assert g in LoadYard(s, r.station).signals;
    forall b | b != rid
      ensures Guards(t, b, g) <==> Guards(s, b, g)
    {
      if b in s.routes {
        UnlockKeepsAspect(s, t, r, b);
      }
    }
    if b :| Guards(t, b, g) {
      assert b != rid;
      assert Guards(s, b, g);
    }
    if b :| b != rid && Guards(s, b, g) {
      assert Guards(t, b, g);
    }
  }

  lemma UnlockKeepsAspect(s: State, t: State, r: Route, b: Id)
    requires Fixed(s, t) && b in s.routes && t.routes[b] == s.routes[b]
    requires t.sections == UnlockSections(s.sections, HeldSecs(s, r))
    requires t.switches == UnlockSwitches(s.switches, HeldSws(s, r))
    ensures AspectNow(t, b) == AspectNow(s, b)
  {
    var rb := s.routes[b];
    var y, z := LoadYard(s, rb.station), LoadYard(t, rb.station);
    assert forall q :: SwitchSet(q, z.switches) <==> SwitchSet(q, y.switches);
    assert forall k :: ClearSection(k, z.sections) <==> ClearSection(k, y.sections);
  }

  /**
   Restoring an indication reopens the signal of a cancelling route, and the completion that
   follows releases the locks but leaves the signal permissive with no locked route behind it.
   */
  lemma RestoredIndicationReopens(s: State, w: Id, order: seq<Id>, rid: Id, now: int)
    requires WellFormed(s) && w in s.switches && OrderFor(s, s.switches[w].station, order) && !s.switches[w].indicated
    requires rid in s.routes && s.routes[rid].state == Cancelling && s.routes[rid].UsesSwitch(w)
    requires AspectNow(Indicated(s, w, true), rid) != Red
    requires forall b :: b != rid && IsLockedRoute(s, b) ==> s.routes[b].signal != s.routes[rid].signal
    ensures
      var g := s.routes[rid].signal;
      var t := After(s, IndicateTx(s, w, true, order));
      var u := After(t, CompleteTx(t, rid, now));
      && g in t.signals && t.signals[g].aspect == AspectNow(Indicated(s, w, true), rid)
      && g in u.signals && u.signals[g].aspect != Red
      && !IsLockedRoute(u, rid) && !Guarded(u, g)
  {
    SoleUserIsShown(s, w, order, rid);
    LeftOpen(After(s, IndicateTx(s, w, true, order)), rid, now);
  }

  /** A refreshed route that alone starts at its signal determines what the signal shows. */
  lemma SoleUserIsShown(s: State, w: Id, order: seq<Id>, rid: Id)
    requires WellFormed(s) && w in s.switches && OrderFor(s, s.switches[w].station, order) && !s.switches[w].indicated
    requires IsLockedRoute(s, rid) && s.routes[rid].UsesSwitch(w)
    requires forall b :: b != rid && IsLockedRoute(s, b) ==> s.routes[b].signal != s.routes[rid].signal
    ensures
      var g := s.routes[rid].signal;
      var t := After(s, IndicateTx(s, w, true, order));
      && WellFormed(t) && t.routes == s.routes
      && g in t.signals && t.signals[g].aspect == AspectNow(Indicated(s, w, true), rid)
  {
    var g, m := s.routes[rid].signal, Indicated(s, w, true);
    var routes := StationRoutes(s, s.switches[w].station);
    IndicatedFixedRows(s, w);
    assert g in LoadYard(s, s.routes[rid].station).signals;
    RefreshAllSo(m, w, routes, order, g);
    RefreshAllFixed(m, w, routes, order);
    UsersAreRefreshed(s, w, order, rid);
    FixedKeepsWellFormed(m, RefreshAll(m, w, routes, order));
  }

  lemma IndicatedFixedRows(s: State, w: Id)
    requires WellFormed(s) && w in s.switches
    ensures WellFormed(Indicated(s, w, true)) && Indicated(s, w, true).routes == s.routes
  {
    FixedKeepsWellFormed(s, Indicated(s, w, true));
  }

  /** Completing the cancel of the only locked route at a permissive signal leaves it permissive and unguarded. */
  lemma LeftOpen(t: State, rid: Id, now: int)
    requires WellFormed(t) && rid in t.routes && t.routes[rid].state == Cancelling
    requires var g := t.routes[rid].signal; g in t.signals && t.signals[g].aspect != Red
    requires forall b :: b != rid && IsLockedRoute(t, b) ==> t.routes[b].signal != t.routes[rid].signal
    ensures
      var g, u := t.routes[rid].signal, After(t, CompleteTx(t, rid, now));
      g in u.signals && u.signals[g].aspect != Red && !IsLockedRoute(u, rid) && !Guarded(u, g)
  {
    CompletionGuardedIff(t, rid, now);
  }

  // ----- Exactly which restored indications leave the signals justified -----

  /** Another locked route, not being cancelled, starts at the same signal and gives the same aspect. */
  ghost predicate HasCompanion(m: State, id: Id)
    requires id in m.routes
  {
    exists b :: IsLockedRoute(m, b) && m.routes[b].state != Cancelling
      && m.routes[b].signal == m.routes[id].signal && AspectNow(m, b) == AspectNow(m, id)
  }

  /** Once the indication is back, a cancelling route over the switch gets a permissive aspect. */
  ghost predicate WouldReopen(s: State, w: Id, id: Id)
    requires w in s.switches
  {
    id in s.routes && s.routes[id].state == Cancelling && s.routes[id].UsesSwitch(w)
    && AspectNow(Indicated(s, w, true), id) != Red
  }

  ghost predicate JustifiedBy(s: State, w: Id, order: seq<Id>)
    requires w in s.switches && OrderFor(s, s.switches[w].station, order)
  {
    SignalsJustified(After(s, IndicateTx(s, w, true, order)))
  }

  lemma CompanionsJustify(s: State, w: Id, order: seq<Id>)
    requires Safe(s) && SignalsJustified(s) && w in s.switches && !s.switches[w].indicated
    requires OrderFor(s, s.switches[w].station, order)
    requires forall id :: WouldReopen(s, w, id) ==> HasCompanion(Indicated(s, w, true), id)
    ensures JustifiedBy(s, w, order)
  {
    var m := Indicated(s, w, true);
    var routes := StationRoutes(s, s.switches[w].station);
    var t := RefreshAll(m, w, routes, order);
    IndicatedFixedRows(s, w);
    RefreshAllFixed(m, w, routes, order);
    FixedTransitive(s, m, t);
    forall g
      ensures Justified(t, g)
    {
      if g in t.signals && t.signals[g].aspect != Red {
        RefreshAllSo(m, w, routes, order, g);
        if id :| id in order && IsRefreshed(m.routes[id], w) && m.routes[id].signal == g
                 && t.signals[g].aspect == AspectNow(m, id) {
          ShownIsJustified(s, w, m, t, id);
        } else {
          UnrefreshedJustified(s, w, true, order, m, t, g);
        }
      }
    }
  }

  lemma ShownIsJustified(s: State, w: Id, m: State, t: State, id: Id)
    requires w in s.switches && m == Indicated(s, w, true) && t == m.(signals := t.signals, log := t.log)
    requires id in m.routes && IsRefreshed(m.routes[id], w) && AspectNow(m, id) != Red
    requires m.routes[id].signal in t.signals && t.signals[m.routes[id].signal].aspect == AspectNow(m, id)
    requires WouldReopen(s, w, id) ==> HasCompanion(m, id)
    ensures Justified(t, m.routes[id].signal)
  {
    if m.routes[id].state == Cancelling {
      var b :| IsLockedRoute(m, b) && m.routes[b].state != Cancelling
               && m.routes[b].signal == m.routes[id].signal && AspectNow(m, b) == AspectNow(m, id);
      SameYardSameAspect(m, t, b);
      assert Justifies(t, b, m.routes[id].signal);
    } else {
      SameYardSameAspect(m, t, id);
      assert Justifies(t, id, m.routes[id].signal);
    }
  }

  /** The route refreshed last determines what its signal shows. */
  lemma LastIsShown(s: State, w: Id, rest: seq<Id>, id: Id)
    requires WellFormed(s) && w in s.switches && !s.switches[w].indicated && IsLockedRoute(s, id)
    requires s.routes[id].UsesSwitch(w)
    requires OrderFor(s, s.switches[w].station, rest + [id])
    ensures
      var m, g := Indicated(s, w, true), s.routes[id].signal;
      var t := After(s, IndicateTx(s, w, true, rest + [id]));
      && t == m.(signals := t.signals, log := t.log)
      && g in t.signals && t.signals[g].aspect == AspectNow(m, id)
  {
    var m := Indicated(s, w, true);
    var routes := StationRoutes(s, s.switches[w].station);
    var order := rest + [id];
    assert order[..|order| - 1] == rest && id in order;
    forall x | x in rest
      ensures x in routes
    {
      assert x in order;
    }
    IndicatedFixedRows(s, w);
    RefreshAllFixed(m, w, routes, rest);
    RefreshAllFixed(m, w, routes, order);
    RefreshShowsAspect(m, RefreshAll(m, w, routes, rest), id);
  }

  lemma LonelyReopens(s: State, w: Id, id: Id) returns (order: seq<Id>)
    requires WellFormed(s) && w in s.switches && !s.switches[w].indicated
    requires WouldReopen(s, w, id) && !HasCompanion(Indicated(s, w, true), id)
    ensures OrderFor(s, s.switches[w].station, order) && !JustifiedBy(s, w, order)
  {
    var m := Indicated(s, w, true);
    var keys := StationRoutes(s, s.switches[w].station).Keys;
    var any := SomeOrder(keys);
    UsersAreRefreshed(s, w, any, id);
    var i :| 0 <= i < |any| && any[i] == id;
    MovedLast(any, keys, i);
    var rest := any[..i] + any[i + 1..];
    order := rest + [id];
    LastIsShown(s, w, rest, id);
    var t, g := After(s, IndicateTx(s, w, true, order)), s.routes[id].signal;
    if b :| Justifies(t, b, g) {
      SameYardSameAspect(m, t, b);
      assert false;
    }
    assert !Justified(t, g);
  }

  /**
   Restoring an indication leaves all signals justified, in whatever order the routes are refreshed,
   if and only if each cancelling route it would reopen has a companion.
   */
  lemma RestoringJustifiedIff(s: State, w: Id)
    requires Safe(s) && SignalsJustified(s) && w in s.switches && !s.switches[w].indicated
    ensures (forall order :: OrderFor(s, s.switches[w].station, order) ==> JustifiedBy(s, w, order)) <==>
      forall id :: WouldReopen(s, w, id) ==> HasCompanion(Indicated(s, w, true), id)
  {
    if id :| WouldReopen(s, w, id) && !HasCompanion(Indicated(s, w, true), id) {
      var order := LonelyReopens(s, w, id);
      assert !JustifiedBy(s, w, order);
    } else {
      forall order | OrderFor(s, s.switches[w].station, order)
        ensures JustifiedBy(s, w, order)
      {
        CompanionsJustify(s, w, order);
      }
    }
  }
}
