/**
 The route table and its conflict graph (internal/routeplan). Two routes conflict when they
 share a section or require one switch in opposite positions.
 */
module RoutePlan {
  import opened Model

  ghost predicate SharesSection(a: Route, b: Route) {
    exists k :: k in a.path && k in b.path
  }

  ghost predicate OpposesSwitch(a: Route, b: Route) {
    exists w, p: Position :: a.Requires(w, p) && b.Requires(w, p.Opposite())
  }

  ghost predicate Conflicts(a: Route, b: Route) {
    a.id != b.id && (SharesSection(a, b) || OpposesSwitch(a, b))
  }

  lemma ConflictsSymmetric(a: Route, b: Route)
    ensures Conflicts(a, b) == Conflicts(b, a)
  {
    OpposesSymmetric(a, b);
    OpposesSymmetric(b, a);
  }

  lemma OpposesSymmetric(a: Route, b: Route)
    ensures OpposesSwitch(a, b) ==> OpposesSwitch(b, a)
  {
    if OpposesSwitch(a, b) {
      var w, p: Position :| a.Requires(w, p) && b.Requires(w, p.Opposite());
      assert b.Requires(w, p.Opposite()) && a.Requires(w, p.Opposite().Opposite());
    }
  }

  /** The scan of the source: nested loops over sections, then over switch requirements. */
  method ScanConflicts(a: Route, b: Route) returns (found: bool)
    requires a.KeysUnique() && b.KeysUnique()
    ensures found == Conflicts(a, b)
  {
    if a.id == b.id {
      return false;
    }
    for i := 0 to |a.path|
      invariant forall m :: 0 <= m < i ==> a.path[m] !in b.path
    {
      for j := 0 to |b.path|
        invariant forall m :: 0 <= m < j ==> b.path[m] != a.path[i]
      {
        if a.path[i] == b.path[j] {
          assert a.path[i] in a.path && a.path[i] in b.path;
          return true;
        }
      }
    }
    assert !SharesSection(a, b);
    for i := 0 to |a.requirements|
      invariant forall m :: 0 <= m < i ==>
        Requirement(a.requirements[m].switch, a.requirements[m].position.Opposite()) !in b.requirements
    {
      var q := a.requirements[i];
      FirstPositionMeaning(b.requirements, q.switch);
      var other := b.RequiredPositionOf(q.switch);
      if other.Some? && other.value != q.position {
        assert other.value == q.position.Opposite();
        assert a.Requires(q.switch, q.position) && b.Requires(q.switch, q.position.Opposite());
        return true;
      }
      assert b.Requires(q.switch, q.position.Opposite()) ==> other == Some(q.position.Opposite());
    }
    return false;
  }

  /** Every row is stored under its own id and lists a section or switch at most once. */
  ghost predicate Indexed(routes: map<Id, Route>) {
    && (forall id :: id in routes ==> routes[id].id == id)
    && (forall id :: id in routes ==> routes[id].KeysUnique())
  }

  /** ... and, as generated ids never are, no id is empty. */
  ghost predicate Keyed(routes: map<Id, Route>) {
    NO_ID !in routes && Indexed(routes)
  }

  /** The conflict neighbours of a present route: what `ConflictsOf` has to return. */
  ghost function Neighbours(routes: map<Id, Route>, id: Id): set<Id>
    requires id in routes
  {
    set b | b in routes && Conflicts(routes[id], routes[b])
  }

  lemma NeighboursSymmetricIrreflexive(routes: map<Id, Route>, a: Id, b: Id)
    requires Indexed(routes) && a in routes && b in routes
    ensures b in Neighbours(routes, a) <==> a in Neighbours(routes, b)
    ensures a !in Neighbours(routes, a)
  {
    ConflictsSymmetric(routes[a], routes[b]);
  }

  datatype TableOp = AddRoute(route: Route) | RemoveRoute(id: Id)

  /** The routes present after a sequence of operations: the last operation on an id decides. */
  function Contents(ops: seq<TableOp>): map<Id, Route> {
    if ops == [] then map[]
    else
      var before := Contents(ops[..|ops| - 1]);
      match ops[|ops| - 1]
      case AddRoute(r) => before[r.id := r]
      case RemoveRoute(id) => before - {id}
  }

  lemma {:induction false} ContentsIndexed(ops: seq<TableOp>)
    requires forall op :: op in ops && op.AddRoute? ==> op.route.KeysUnique()
    ensures Indexed(Contents(ops))
  {
    if ops != [] {
      ContentsIndexed(ops[..|ops| - 1]);
      assert ops[|ops| - 1] in ops;
    }
  }

  /** Edges between `r` and the routes not in `todo` are recomputed; all others are as in `start`. */
  ghost predicate Rewired(routes: map<Id, Route>, r: Route, todo: set<Id>,
                          start: map<Id, set<Id>>, now: map<Id, set<Id>>)
    requires r.id in routes && start.Keys == now.Keys == routes.Keys
  {
    && (forall b :: b in now[r.id] <==>
          if b in routes && b != r.id && b !in todo then Conflicts(r, routes[b]) else b in start[r.id])
    && (forall a, b {:trigger b in now[a]} :: a in routes && a != r.id ==>
          (b in now[a] <==>
            if b == r.id && a !in todo then Conflicts(r, routes[a]) else b in start[a]))
  }

  /** Both directions of one edge set or deleted. */
  function WithEdge(edges: map<Id, set<Id>>, a: Id, b: Id, present: bool): map<Id, set<Id>>
    requires a in edges && b in edges && a != b
  {
    if present then edges[a := edges[a] + {b}][b := edges[b] + {a}]
    else edges[a := edges[a] - {b}][b := edges[b] - {a}]
  }

  lemma RewireOne(routes: map<Id, Route>, r: Route, other: Id, todo: set<Id>,
                  start: map<Id, set<Id>>, now: map<Id, set<Id>>)
    requires r.id in routes && start.Keys == now.Keys == routes.Keys
    requires other in todo && other in routes && other != r.id
    requires Rewired(routes, r, todo, start, now)
    ensures
      Rewired(routes, r, todo - {other}, start, WithEdge(now, r.id, other, Conflicts(r, routes[other])))
  {
  }

  lemma AddIsExact(before: map<Id, Route>, r: Route, start: map<Id, set<Id>>, now: map<Id, set<Id>>)
    requires Indexed(before) && r.KeysUnique()
    requires var routes := before[r.id := r];
      && start.Keys == now.Keys == routes.Keys
      && (forall a :: a in before ==> start[a] == Neighbours(before, a))
      && (r.id !in before ==> start[r.id] == {})
      && Rewired(routes, r, {}, start, now)
    ensures var routes := before[r.id := r];
      forall a :: a in routes ==> now[a] == Neighbours(routes, a)
  {
    var routes := before[r.id := r];
    forall a | a in routes
      ensures now[a] == Neighbours(routes, a)
    {
      forall b
        ensures b in now[a] <==> b in Neighbours(routes, a)
      {
        if b in routes {
          ConflictsSymmetric(routes[a], routes[b]);
        }
      }
    }
  }

  class Table {
    var routes: map<Id, Route>
    var conflicts: map<Id, set<Id>>

    ghost predicate Valid()
      reads this
    {
      && Indexed(routes)
      && conflicts.Keys == routes.Keys
      && (forall a :: a in routes ==> conflicts[a] == Neighbours(routes, a))
    }

    constructor ()
      ensures Valid() && routes == map[]
    {
      routes := map[];
      conflicts := map[];
    }

    /** Adds or replaces a route and recomputes its edges to every other route. */
    method Add(r: Route)
      requires Valid() && r.KeysUnique()
      modifies this
      ensures Valid() && routes == old(routes)[r.id := r]
    {
      ghost var before := routes;
      routes := routes[r.id := r];
      if r.id !in conflicts {
        conflicts := conflicts[r.id := {}];
      }
      ghost var start := conflicts;
      var todo := routes.Keys - {r.id};
      while todo != {}
        invariant todo <= routes.Keys - {r.id}
        invariant routes == before[r.id := r]
        invariant conflicts.Keys == routes.Keys
        invariant Rewired(routes, r, todo, start, conflicts)
        decreases todo
      {
        var other := Pick(todo);
        var hit := ScanConflicts(r, routes[other]);
        RewireOne(routes, r, other, todo, start, conflicts);
        SetEdge(r.id, other, hit);
        todo := todo - {other};
      }
      AddIsExact(before, r, start, conflicts);
    }

    method SetEdge(a: Id, b: Id, present: bool)
      requires a in conflicts && b in conflicts && a != b
      modifies this`conflicts
      ensures conflicts == WithEdge(old(conflicts), a, b, present)
    {
      if present {
        conflicts := conflicts[a := conflicts[a] + {b}];
        conflicts := conflicts[b := conflicts[b] + {a}];
      } else {
        conflicts := conflicts[a := conflicts[a] - {b}];
        conflicts := conflicts[b := conflicts[b] - {a}];
      }
    }

    /** Drops a route and its edges; unknown ids are ignored. */
    method Remove(id: Id)
      requires Valid()
      modifies this
      ensures Valid() && routes == old(routes) - {id}
    {
      routes := routes - {id};
      if id in conflicts {
        ghost var edges := conflicts[id];
        var todo := conflicts[id];
        while todo != {}
          invariant todo <= edges <= routes.Keys
          invariant routes == old(routes) - {id} && conflicts.Keys == old(conflicts).Keys
          invariant forall a :: a in routes ==>
            conflicts[a] == if a in edges - todo then old(conflicts)[a] - {id} else old(conflicts)[a]
          decreases todo
        {
          var other := Pick(todo);
          conflicts := conflicts[other := conflicts[other] - {id}];
          todo := todo - {other};
        }
        conflicts := conflicts - {id};
        forall a | a in routes
          ensures conflicts[a] == Neighbours(routes, a)
        {
          ConflictsSymmetric(old(routes)[a], old(routes)[id]);
        }
      }
    }

    /** The neighbours in map order: each exactly once, nothing for an unknown id. */
    method ConflictsOf(id: Id) returns (out: seq<Id>)
      requires Valid()
      ensures id !in routes ==> out == []
      ensures id in routes ==> (forall b :: b in out <==> b in routes && Conflicts(routes[id], routes[b]))
      ensures forall i, j :: 0 <= i < j < |out| ==> out[i] != out[j]
    {
      out := [];
      if id !in conflicts {
        return;
      }
      var todo := conflicts[id];
      ghost var all := todo;
      while todo != {}
        invariant todo <= all
        invariant forall b :: b in out <==> b in all && b !in todo
        invariant forall i, j :: 0 <= i < j < |out| ==> out[i] != out[j]
        decreases todo
      {
        var b := Pick(todo);
        out := out + [b];
        todo := todo - {b};
      }
    }

    /** The ids of all routes, in an order the caller cannot predict. */
    method All() returns (out: seq<Id>)
      requires Valid()
      ensures Enumerates(out, routes.Keys)
    {
      out := EnumerateKeys(routes.Keys);
    }
  }

  /** One element, whichever the map iteration happens to produce. */
  method Pick(ids: set<Id>) returns (id: Id)
    requires ids != {}
    ensures id in ids
  {
    if forall i :: i !in ids {
      assert false;
    }
    id :| id in ids;
  }

  /** `order` lists every element of `ids` exactly once. */
  predicate Enumerates(order: seq<Id>, ids: set<Id>) {
    && (forall i, j :: 0 <= i < j < |order| ==> order[i] != order[j])
    && (forall i :: 0 <= i < |order| ==> order[i] in ids)
    && (forall id :: id in ids ==> id in order)
  }

  /** Every finite set can be listed. */
  lemma {:induction false} SomeOrder(ids: set<Id>) returns (order: seq<Id>)
    ensures Enumerates(order, ids)
  {
    if ids == {} {
      order := [];
    } else {
      if forall i :: i !in ids {
        assert false;
      }
      var id :| id in ids;
      var rest := SomeOrder(ids - {id});
      order := rest + [id];
    }
  }

  method EnumerateKeys(ids: set<Id>) returns (out: seq<Id>)
    ensures Enumerates(out, ids)
  {
    out := [];
    var todo := ids;
    while todo != {}
      invariant todo <= ids
      invariant forall b :: b in out <==> b in ids && b !in todo
      invariant forall i :: 0 <= i < |out| ==> out[i] in ids
      invariant forall i, j :: 0 <= i < j < |out| ==> out[i] != out[j]
      decreases todo
    {
      var b := Pick(todo);
      out := out + [b];
      todo := todo - {b};
    }
  }

  /** Any sequence of additions, replacements and removals leaves the exact conflict graph of the contents. */
  method Build(ops: seq<TableOp>) returns (t: Table)
    requires forall op :: op in ops && op.AddRoute? ==> op.route.KeysUnique()
    ensures fresh(t) && t.Valid() && t.routes == Contents(ops)
  {
    t := new Table();
    for i := 0 to |ops|
      invariant fresh(t) && t.Valid() && t.routes == Contents(ops[..i])
    {
      assert ops[..i + 1][..i] == ops[..i];
      match ops[i]
      case AddRoute(r) =>
        assert ops[i] in ops;
        t.Add(r);
      case RemoveRoute(id) =>
        t.Remove(id);
    }
    assert ops[..|ops|] == ops;
  }
}
