/**
 One train after another over the same route. Where no other route reaches into its way, a passage
 leaves nothing behind that could refuse the next one.
 */
module Cycles {
  import opened Model
  import opened RoutePlan
  import opened Database
  import opened Steps
  import opened Runs
  import opened Ownership
  import opened Exclusion
  import opened Traversal
  import opened Passages
  import opened Requests
  import opened Releases
  import opened TrainMoves
  import opened Reuse

  /** No other route has its approach on the way, and none in force clashes with the route. */
  ghost predicate Alone(s: State, rid: Id) {
    && rid in s.routes
    && forall q :: q in s.routes && q != rid ==>
         && s.routes[q].approach !in s.routes[rid].path
         && (InForce(s.routes[q].state) ==> !Clash(s.routes[rid], s.routes[q]))
  }

  /** Every other route, and position and indication of every switch, are as they were. */
  ghost predicate OthersUntouched(s: State, t: State, rid: Id) {
    && t.routes.Keys == s.routes.Keys && t.switches.Keys == s.switches.Keys
    && (forall q :: q in s.routes && q != rid ==> t.routes[q] == s.routes[q])
    && (rid in s.routes ==> s.routes[rid].SameDefinition(t.routes[rid]))
    && (forall w :: w in s.switches ==>
          t.switches[w].position == s.switches[w].position && t.switches[w].indicated == s.switches[w].indicated)
  }

  lemma OthersTransitive(s: State, t: State, u: State, rid: Id)
    requires OthersUntouched(s, t, rid) && OthersUntouched(t, u, rid)
    ensures OthersUntouched(s, u, rid)
  {
  }

  /** A move on the way of a route that is alone concerns that route only. */
  lemma OnlyItselfConcerned(s: State, rid: Id, k: Id, q: Id)
    requires Keyed(s.routes) && Alone(s, rid) && IsLockedRoute(s, rid) && k in s.routes[rid].path
    ensures Concerns(s, q, k) ==> q == rid
    ensures !AtApproach(s, q, k)
  {
    if Concerns(s, q, k) && q != rid {
      assert k in s.routes[rid].path && k in s.routes[q].path;
      assert Clash(s.routes[rid], s.routes[q]);
    }
  }

  lemma EntrySparesOthers(s: State, train: Id, k: Id, c: Choice, rid: Id)
    requires WellFormed(s) && k in s.sections && ChoiceFor(s, k, true, c) && rid in s.routes
    requires forall q :: !AtApproach(s, q, k)
    ensures OthersUntouched(s, After(s, MoveTx(s, train, k, true, c)), rid)
  {
    var t := After(s, MoveTx(s, train, k, true, c));
    EntryLeaves(s, train, k, c);
    NoApproachTaken(s, t, k);
    NothingTouched(s, t, rid);
  }

  lemma NoApproachTaken(s: State, t: State, k: Id)
    requires ApproachTaken(s, t, k) && forall q :: !AtApproach(s, q, k)
    ensures t.routes == s.routes
  {
  }

  lemma NothingTouched(s: State, t: State, rid: Id)
    requires t.routes == s.routes && t.switches == s.switches
    ensures OthersUntouched(s, t, rid)
  {
  }

  lemma CompletionSparesOthers(s: State, t: State, rid: Id)
    requires rid in s.routes && CompletedBy(s, t, rid)
    ensures OthersUntouched(s, t, rid)
  {
  }

  lemma ClearSparesOthers(s: State, train: Id, k: Id, c: Choice, rid: Id)
    requires WellFormed(s) && k in s.sections && ChoiceFor(s, k, false, c) && rid in s.routes
    requires forall q :: Concerns(s, q, k) ==> q == rid
    ensures OthersUntouched(s, After(s, MoveTx(s, train, k, false, c)), rid)
  {
    var t := After(s, MoveTx(s, train, k, false, c));
    ClearLeaves(s, train, k, c);
    if q :| Concerns(s, q, k) && ClearsLast(s, q, k) && CompletedBy(s, t, q) {
      CompletionSparesOthers(s, t, rid);
    }
  }

  lemma MoveSparesOthers(s: State, train: Id, k: Id, entering: bool, c: Choice, rid: Id)
    requires WellFormed(s) && Alone(s, rid) && IsLockedRoute(s, rid) && k in s.routes[rid].path
    requires ChoiceFor(s, k, entering, c)
    ensures OthersUntouched(s, After(s, MoveTx(s, train, k, entering, c)), rid)
  {
    assert k in LoadYard(s, s.routes[rid].station).sections;
    forall q
      ensures Concerns(s, q, k) ==> q == rid
      ensures !AtApproach(s, q, k)
    {
      OnlyItselfConcerned(s, rid, k, q);
    }
    if entering {
      EntrySparesOthers(s, train, k, c, rid);
    } else {
      ClearSparesOthers(s, train, k, c, rid);
    }
  }

  /** Setting the route touches no other, and brings every required switch where it is required. */
  lemma SettingSparesOthers(s: State, t: State, rid: Id, now: int)
    requires rid in s.routes && s.routes[rid].KeysUnique() && IsSet(s, t, rid, now)
    ensures forall q :: q in s.routes && q != rid ==> q in t.routes && t.routes[q] == s.routes[q]
    ensures t.routes.Keys == s.routes.Keys && s.routes[rid].SameDefinition(t.routes[rid])
    ensures forall q :: q in s.routes[rid].requirements && q.switch in s.switches ==>
      t.switches[q.switch].position == q.position && t.switches[q.switch].indicated == s.switches[q.switch].indicated
  {
    forall q | q in s.routes[rid].requirements && q.switch in s.switches
      ensures t.switches[q.switch].position == q.position
    {
      var p := if Requirement(q.switch, Normal) in s.routes[rid].requirements then Normal else Reverse;
      assert q.position == Normal || q.position == Reverse;
      OnePosition(s.routes[rid], q.switch, q.position, p);
    }
  }

  /** Ready for the next train: everything an establishment and a passage ask for. */
  ghost predicate ReadyForTrain(s: State, rid: Id) {
    WellFormed(s) && Owned(s) && Alone(s, rid) && MaySet(s, rid) && MayStart(s, rid)
  }

  /** After a whole cycle the route is as ready as before. */
  lemma ReadyAgain(s: State, t: State, u: State, rid: Id, now: int)
    requires ReadyForTrain(s, rid) && IsSet(s, t, rid, now) && OthersUntouched(t, u, rid)
    requires WellFormed(u) && Owned(u) && FullyReleased(u, rid)
    ensures ReadyForTrain(u, rid)
  {
    SettingSparesOthers(s, t, rid, now);
    assert s.routes[rid].SameDefinition(u.routes[rid]);
    StillAlone(s, u, rid);
    forall q | q in u.routes[rid].requirements
      ensures SwitchServes(u, q)
    {
      assert q in s.routes[rid].requirements && SwitchServes(s, q);
    }
    ReleasedIsReusable(u, rid, now);
    EstablishGrantedIff(u, rid, now);
    FreeAgain(u, rid);
  }

  lemma StillAlone(s: State, u: State, rid: Id)
    requires Alone(s, rid) && u.routes.Keys == s.routes.Keys && s.routes[rid].SameDefinition(u.routes[rid])
    requires forall q :: q in s.routes && q != rid ==> u.routes[q] == s.routes[q]
    ensures Alone(u, rid)
  {
    forall q | q in u.routes && q != rid
      ensures u.routes[q].approach !in u.routes[rid].path
      ensures InForce(u.routes[q].state) ==> !Clash(u.routes[rid], u.routes[q])
    {
      assert u.routes[q] == s.routes[q];
    }
  }

  lemma FreeAgain(u: State, rid: Id)
    requires FullyReleased(u, rid) && Alone(u, rid)
    ensures MayStart(u, rid)
  {
    var path := u.routes[rid].path;
    forall k | k in path
      ensures k in u.sections && !u.sections[k].occupied
    {
      var i :| 0 <= i < |path| && path[i] == k;
      assert RowAt(u, rid, path[i], false, false);
    }
  }
}
