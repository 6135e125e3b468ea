/**
 The store as an object: one field per table, row setters that update in place, an append-only
 log, and rollback to the rows a transaction started from (internal/store).
 */
module Storage {
  import opened Model
  import opened RoutePlan
  import opened Interlocking
  import opened Database

  class Store {
    var sections: map<Id, Section>
    var switches: map<Id, Switch>
    var signals: map<Id, Signal>
    var routes: map<Id, Route>
    var once: map<Id, set<Id>>
    var timers: map<Id, Timer>
    var log: seq<Event>

    constructor (s: State)
      ensures Rows() == s
    {
      sections, switches, signals, routes := s.sections, s.switches, s.signals, s.routes;
      once, timers, log := s.once, s.timers, s.log;
    }

    /** All tables as one value. */
    function Rows(): State
      reads this
    {
      State(sections, switches, signals, routes, once, timers, log)
    }

    /** Undoes everything since `saved` was read. */
    method Rollback(saved: State)
      modifies this
      ensures Rows() == saved
    {
      sections, switches, signals, routes := saved.sections, saved.switches, saved.signals, saved.routes;
      once, timers, log := saved.once, saved.timers, saved.log;
    }

    method AppendEvent(e: Event)
      modifies this`log
      ensures log == old(log) + [e]
    {
      log := log + [e];
    }

    method SetSectionOccupied(k: Id, occupied: bool, train: Id)
      modifies this`sections
      ensures sections == old(if k in sections
        then sections[k := sections[k].(occupied := occupied, train := train)] else sections)
    {
      if k in sections {
        sections := sections[k := sections[k].(occupied := occupied, train := train)];
      }
    }

    method SetSectionLocked(k: Id, locked: bool, rid: Id)
      modifies this`sections
      ensures sections == old(if k in sections then sections[k := sections[k].(locked := locked, holder := rid)]
        else sections)
    {
      if k in sections {
        sections := sections[k := sections[k].(locked := locked, holder := rid)];
      }
    }

    method SetSwitchPosition(w: Id, p: Position)
      modifies this`switches
      ensures switches == old(if w in switches then switches[w := switches[w].(position := p)] else switches)
    {
      if w in switches {
        switches := switches[w := switches[w].(position := p)];
      }
    }

    method SetSwitchLocked(w: Id, locked: bool, rid: Id)
      modifies this`switches
      ensures switches == old(if w in switches then switches[w := switches[w].(locked := locked, holder := rid)]
        else switches)
    {
      if w in switches {
        switches := switches[w := switches[w].(locked := locked, holder := rid)];
      }
    }

    method SetSwitchIndication(w: Id, ok: bool)
      modifies this`switches
      ensures switches == SetIndicated(old(switches), w, ok)
    {
      if w in switches {
        switches := switches[w := switches[w].(indicated := ok)];
      }
    }

    method SetSignalAspect(g: Id, a: Aspect)
      modifies this`signals
      ensures signals == ShowAspect(old(signals), g, a)
    {
      if g in signals {
        signals := signals[g := signals[g].(aspect := a)];
      }
    }

    method SetSignalProtectsRoute(g: Id, rid: Id)
      modifies this`signals
      ensures signals == Protect(old(signals), g, rid)
    {
      if g in signals {
        signals := signals[g := signals[g].(protects := rid)];
      }
    }

    method SetRouteState(rid: Id, state: RouteState, established: Option<int>, cancelled: Option<int>,
        timer: Option<int>)
      modifies this`routes
      ensures routes == old(if rid in routes
        then routes[rid := routes[rid].WithState(state, established, cancelled, timer)] else routes)
    {
      if rid in routes {
        routes := routes[rid := routes[rid].WithState(state, established, cancelled, timer)];
      }
    }

    method CreateDelayTimer(rid: Id, station: Id, kind: RouteKind, startedAt: int, delay: int)
      modifies this`timers
      ensures timers == old(timers)[rid := Timer(station, kind, startedAt, delay, false)]
    {
      timers := timers[rid := Timer(station, kind, startedAt, delay, false)];
    }

    method CompleteDelayTimer(rid: Id)
      modifies this`timers
      ensures timers == old(if rid in timers then timers[rid := timers[rid].(completed := true)] else timers)
    {
      if rid in timers {
        timers := timers[rid := timers[rid].(completed := true)];
      }
    }

    method DeleteDelayTimer(rid: Id)
      modifies this`timers
      ensures timers == old(timers) - {rid}
    {
      timers := timers - {rid};
    }

    method MarkSectionOnceOccupied(rid: Id, k: Id)
      modifies this`once
      ensures once == old(once)[rid := OnceOf(old(once), rid) + {k}]
    {
      once := once[rid := OnceOf(once, rid) + {k}];
    }

    method ClearOnceOccupied(rid: Id)
      modifies this`once
      ensures once == old(once) - {rid}
    {
      once := once - {rid};
    }

    // ----- Loading the yard of one station -----

    method StationSwitches(station: Id) returns (m: map<Id, Switch>)
      ensures m == LoadYard(Rows(), station).switches
    {
      m := map[];
      var todo := switches.Keys;
      while todo != {}
        invariant todo <= switches.Keys
        invariant m == map w | w in switches && w !in todo && switches[w].station == station :: switches[w]
        decreases todo
      {
        var w := Pick(todo);
        if switches[w].station == station {
          m := m[w := switches[w]];
        }
        todo := todo - {w};
      }
    }

    method StationSignals(station: Id) returns (m: map<Id, Signal>)
      ensures m == LoadYard(Rows(), station).signals
    {
      m := map[];
      var todo := signals.Keys;
      while todo != {}
        invariant todo <= signals.Keys
        invariant m == map g | g in signals && g !in todo && signals[g].station == station :: signals[g]
        decreases todo
      {
        var g := Pick(todo);
        if signals[g].station == station {
          m := m[g := signals[g]];
        }
        todo := todo - {g};
      }
    }

    method StationSections(station: Id) returns (m: map<Id, Section>)
      ensures m == LoadYard(Rows(), station).sections
    {
      m := map[];
      var todo := sections.Keys;
      while todo != {}
        invariant todo <= sections.Keys
        invariant m == map k | k in sections && k !in todo && sections[k].station == station :: sections[k]
        decreases todo
      {
        var k := Pick(todo);
        if sections[k].station == station {
          m := m[k := sections[k]];
        }
        todo := todo - {k};
      }
    }

    /** The route table is rebuilt by adding the station's routes one by one. */
    method StationTable(station: Id) returns (table: Table)
      requires Keyed(routes)
      ensures fresh(table) && table.Valid() && table.routes == LoadYard(Rows(), station).routes
    {
      table := new Table();
      var todo := routes.Keys;
      while todo != {}
        invariant todo <= routes.Keys
        invariant fresh(table) && table.Valid()
        invariant table.routes == map r | r in routes && r !in todo && routes[r].station == station :: routes[r]
        decreases todo
      {
        var r := Pick(todo);
        if routes[r].station == station {
          table.Add(routes[r]);
        }
        todo := todo - {r};
      }
    }

    /** Once-occupied rows are loaded for the locked routes only. */
    method StationOnce(table: Table) returns (m: map<Id, set<Id>>)
      ensures m == map r | r in table.routes && table.routes[r].state.IsLocked() :: OnceOf(once, r)
    {
      m := map[];
      var todo := table.routes.Keys;
      while todo != {}
        invariant todo <= table.routes.Keys
        invariant m == map r | r in table.routes && r !in todo && table.routes[r].state.IsLocked() :: OnceOf(once, r)
        decreases todo
      {
        var r := Pick(todo);
        if table.routes[r].state.IsLocked() {
          m := m[r := OnceOf(once, r)];
        }
        todo := todo - {r};
      }
    }

    method Load(station: Id) returns (y: Yard, table: Table)
      requires Keyed(routes)
      ensures y == LoadYard(Rows(), station)
      ensures fresh(table) && table.Valid() && table.routes == y.routes
    {
      var sws := StationSwitches(station);
      var sigs := StationSignals(station);
      var secs := StationSections(station);
      table := StationTable(station);
      var flags := StationOnce(table);
      y := Yard(station, sws, sigs, secs, flags, table.routes);
    }
  }
}
