/**
 Small concrete installations and runs in the making, for showing what undisciplined steps can do.
 */
module Scenes {
  import opened Model
  import opened Interlocking
  import opened Database
  import opened Runs
  import opened Ownership

  const STATION: Id := 9
  const OTHER_STATION: Id := 8
  const TRACK: Id := 1
  const SECOND_TRACK: Id := 2
  const OUTLYING: Id := 3
  const SIGNAL: Id := 4
  const POINTS: Id := 5
  const TRAIN: Id := 6
  const FIRST: Id := 10
  const SECOND: Id := 11
  const FREE := Section(STATION, false, NO_ID, false, NO_ID)

  function Planned(id: Id, reqs: seq<Requirement>, path: seq<Id>, approach: Id): Route {
    Route(id, STATION, TrainRoute, SIGNAL, TRACK, reqs, path, approach, Pending, None, None, None)
  }

  function NewYard(sections: map<Id, Section>, switches: map<Id, Switch>): State {
    State(sections, switches, map[SIGNAL := Signal(STATION, Red, NO_ID)], map[], map[], map[], [])
  }

  // ----- States a run can reach -----

  ghost predicate Reachable(s: State, t: State) {
    exists states, steps :: IsRun(states, steps) && states[0] == s && states[|steps|] == t
  }

  lemma ReachesItself(s: State)
    requires WellFormed(s)
    ensures Reachable(s, s)
  {
    RunStarts(s);
    var states, steps: seq<Step> := [s], [];
    assert IsRun(states, steps) && states[0] == s && states[|steps|] == s;
  }

  /** A run may take any enabled step. */
  lemma ReachesNext(s: State, t: State, step: Step)
    requires Reachable(s, t) && WellFormed(t) && Enabled(t, step)
    ensures Reachable(s, Next(t, step)) && WellFormed(Next(t, step))
  {
    var states, steps :| IsRun(states, steps) && states[0] == s && states[|steps|] == t;
    var u := Next(t, step);
    NextWellFormed(t, step);
    RunExtends(states, steps, step, u);
    var states', steps' := states + [u], steps + [step];
    assert IsRun(states', steps') && states'[0] == s && states'[|steps'|] == u;
  }

  lemma ReachableIsOwned(s: State, t: State)
    requires Initial(s) && Reachable(s, t)
    ensures WellFormed(t) && Owned(t)
  {
    var states, steps :| IsRun(states, steps) && states[0] == s && states[|steps|] == t;
    EveryRunIsOwned(states, steps);
  }

  lemma ReachesDefined(s: State, t: State, r: Route)
    requires Reachable(s, t) && WellFormed(t) && r.id != NO_ID && r.id !in t.routes && r.state == Pending
    requires r.KeysUnique()
    requires r.WithState(Pending, None, None, None) == r && Defined(LoadYard(t, r.station), r)
    ensures Reachable(s, t.(routes := t.routes[r.id := r])) && WellFormed(t.(routes := t.routes[r.id := r]))
  {
    ReachesNext(s, t, Define(r));
  }

  /** Two pending routes over a new installation. */
  lemma ReachesTwo(s: State, a: Route, b: Route)
    requires Initial(s) && a.id == FIRST && b.id == SECOND && a.station == b.station && a.KeysUnique() && b.KeysUnique()
    requires a.state == b.state == Pending
    requires a.WithState(Pending, None, None, None) == a && b.WithState(Pending, None, None, None) == b
    requires Defined(LoadYard(s, a.station), a) && Defined(LoadYard(s, b.station), b)
    ensures var t := s.(routes := map[FIRST := a, SECOND := b]); Reachable(s, t) && WellFormed(t) && Owned(t)
  {
    ReachesItself(s);
    ReachesDefined(s, s, a);
    var m := s.(routes := s.routes[a.id := a]);
    DefinedInBoth(s, m, b, b);
    ReachesDefined(s, m, b);
    assert m.routes[b.id := b] == map[FIRST := a, SECOND := b];
    ReachableIsOwned(s, m.(routes := m.routes[b.id := b]));
  }
}
