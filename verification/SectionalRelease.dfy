/**
 Sectional release on every run: a lock taken away by a move that completes no route belonged to a
 section that is free and was entered, with the train one or two sections further along a locked
 route.
 */
module SectionalRelease {
  import opened Model
  import opened RoutePlan
  import opened TrainOps
  import opened Database
  import opened Steps
  import opened Exclusion
  import opened TrainEffects

  /** In the rows: `x` is free and was entered, and a section one or two places on is occupied. */
  ghost predicate PassedInRows(t: State, id: Id, x: Id) {
    id in t.routes && t.routes[id].state.IsLocked() && x in t.sections && !t.sections[x].occupied
    && x in OnceOf(t.once, id)
    && var path := t.routes[id].path;
       exists i, j :: 0 <= i < j <= i + 2 && j < |path| && path[i] == x
         && path[j] in t.sections && t.sections[path[j]].occupied
  }

  /** No ownership, exclusion or discipline is assumed: any rows keyed by id, any map order. */
  lemma LostLockWasPassed(s: State, train: Id, k: Id, entering: bool, c: Choice, x: Id) returns (id: Id)
    requires Keyed(s.routes) && k in s.sections && ChoiceFor(s, k, entering, c)
    requires MoveEffect(s, k, entering, c).complete == NO_ID
    requires LosesLock(s, After(s, MoveTx(s, train, k, entering, c)), x)
    ensures PassedInRows(After(s, MoveTx(s, train, k, entering, c)), id, x)
  {
    var y := LoadYard(s, s.sections[k].station);
    TrainCases(s, train, k, entering, c);
    if x !in MoveEffect(s, k, entering, c).unlock {
      KeptUnlessNamed(s, train, k, entering, c, x);
      assert false;
    }
    id := MoveReleasesPassedSections(y, k, entering, c.order, x);
    PassedShowsInRows(s, train, k, entering, c, x, id);
  }

  lemma PassedShowsInRows(s: State, train: Id, k: Id, entering: bool, c: Choice, x: Id, id: Id)
    requires Keyed(s.routes) && k in s.sections && ChoiceFor(s, k, entering, c) && x in s.sections
    requires
      var y := LoadYard(s, s.sections[k].station);
      id in y.routes && y.routes[id].state.IsLocked() && ProvablyPassed(y, y.routes[id], k, entering, x)
    ensures PassedInRows(MovedOf(s, train, k, entering, c), id, x)
  {
    var y := LoadYard(s, s.sections[k].station);
    var m := MovedOf(s, train, k, entering, c);
    var path := y.routes[id].path;
    TrainCases(s, train, k, entering, c);
    var i, j :| 0 <= i < j <= i + 2 && j < |path| && path[i] == x && OccupiedAfter(y, k, entering, path[j])
      && x in y.sections && !OccupiedAfter(y, k, entering, x) && y.OnceOccupied(id, x);
    SectionAfterMove(s, train, k, entering, c, x);
    SectionAfterMove(s, train, k, entering, c, path[j]);
    RouteAfterMove(s, train, k, entering, c, x, id);
    assert m.routes[id].path[i] == x && m.routes[id].path[j] == path[j];
  }

  lemma SectionAfterMove(s: State, train: Id, k: Id, entering: bool, c: Choice, x: Id)
    requires Keyed(s.routes) && k in s.sections && ChoiceFor(s, k, entering, c)
    ensures
      var y := LoadYard(s, s.sections[k].station);
      var m := MovedOf(s, train, k, entering, c);
      && (x in s.sections && s.sections[x].station == y.station ==>
            x in m.sections && m.sections[x].occupied == OccupiedAfter(y, k, entering, x))
      && (OccupiedAfter(y, k, entering, x) ==> x in m.sections && m.sections[x].occupied)
  {
    MoveTouchesKnownRoutes(s, k, entering, c);
  }

  lemma RouteAfterMove(s: State, train: Id, k: Id, entering: bool, c: Choice, x: Id, id: Id)
    requires Keyed(s.routes) && k in s.sections && ChoiceFor(s, k, entering, c)
    ensures
      var y := LoadYard(s, s.sections[k].station);
      var m := MovedOf(s, train, k, entering, c);
      && (id in y.routes && y.OnceOccupied(id, x) ==> x in OnceOf(m.once, id))
      && (id in y.routes && y.routes[id].state.IsLocked() ==> id in m.routes && m.routes[id].state.IsLocked())
  {
  }
}
