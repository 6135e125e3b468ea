/**
 Train moves as they run against the store (internal/service/train_service.go).
 */
module TrainService {
  import opened Model
  import opened RoutePlan
  import opened Interlocking
  import opened TrainOps
  import opened Database
  import opened Steps
  import opened Storage
  import opened RouteService

  /** The first active route over a section, in table order; `NO_ID` if there is none. */
  method RouteIdForSection(y: Yard, table: Table, k: Id) returns (owner: Id)
    requires table.Valid() && table.routes == y.routes && NO_ID !in y.routes
    ensures OwnerOf(y, k, owner)
  {
    var all := table.All();
    for i := 0 to |all|
      invariant forall j :: 0 <= j < i ==> !Touched(y.routes[all[j]], k)
    {
      var r := y.routes[all[i]];
      if !r.state.IsLocked() && r.state != Cancelling {
        continue;
      }
      if r.HasSection(k) {
        return all[i];
      }
    }
    return NO_ID;
  }

  method CloseRouteSignals(st: Store, station: Id, routes: map<Id, Route>, ids: seq<Id>)
    requires forall id :: id in ids ==> id in routes
    modifies st
    ensures st.Rows() == old(st.Rows()).(signals := CloseSignals(old(st.signals), routes, ids),
                                         log := old(st.log) + CloseEvents(station, routes, ids))
  {
    ghost var s := st.Rows();
    assert CloseSignals(s.signals, routes, []) == s.signals;
    for i := 0 to |ids|
      invariant st.Rows() == s.(signals := CloseSignals(s.signals, routes, ids[..i]),
                                log := s.log + CloseEvents(station, routes, ids[..i]))
    {
      var id := ids[i];
      assert ids[..i + 1] == ids[..i] + [id];
      CloseSnoc(s.signals, station, routes, ids[..i], id);
      st.SetSignalAspect(routes[id].signal, Red);
      st.AppendEvent(Event(station, SignalClosed, OfSignal(routes[id].signal), id, NoPayload));
    }
    assert ids[..|ids|] == ids;
  }

  lemma CloseSnoc(m: map<Id, Signal>, station: Id, routes: map<Id, Route>, ids: seq<Id>, id: Id)
    requires id in routes && forall x :: x in ids ==> x in routes
    ensures CloseSignals(m, routes, ids + [id]) == ShowAspect(CloseSignals(m, routes, ids), routes[id].signal, Red)
    ensures CloseEvents(station, routes, ids + [id]) ==
      CloseEvents(station, routes, ids) + [Event(station, SignalClosed, OfSignal(routes[id].signal), id, NoPayload)]
  {
    assert forall x :: x in ids + [id] <==> x in ids || x == id;
  }

  /** One more section unlocked and attributed, on top of those in `done`. */
  method UnlockOne(st: Store, station: Id, y: Yard, table: Table, k: Id,
                   ghost s: State, ghost done: seq<Id>, ghost owners: seq<Id>)
    returns (ghost owner: Id)
    requires table.Valid() && table.routes == y.routes && NO_ID !in y.routes && |owners| == |done|
    requires st.Rows() == s.(sections := UnlockSections(s.sections, done),
                             log := s.log + ReleaseEvents(station, done, owners))
    modifies st
    ensures OwnerOf(y, k, owner)
    ensures st.Rows() == s.(sections := UnlockSections(s.sections, done + [k]),
                            log := s.log + ReleaseEvents(station, done + [k], owners + [owner]))
  {
    UnlockSectionsSnoc(s.sections, done, k);
    st.SetSectionLocked(k, false, NO_ID);
    var rid := RouteIdForSection(y, table, k);
    owner := rid;
    ReleaseEventsSnoc(station, done, owners, k, rid);
    st.AppendEvent(Event(station, RouteSectionUnlocked, OfSection(k), rid, NoPayload));
  }

  method UnlockPassed(st: Store, station: Id, y: Yard, table: Table, ids: seq<Id>) returns (ghost owners: seq<Id>)
    requires table.Valid() && table.routes == y.routes && NO_ID !in y.routes
    modifies st
    ensures |owners| == |ids| && forall i :: 0 <= i < |ids| ==> OwnerOf(y, ids[i], owners[i])
    ensures st.Rows() == old(st.Rows()).(sections := UnlockSections(old(st.sections), ids),
                                         log := old(st.log) + ReleaseEvents(station, ids, owners))
  {
    ghost var s := st.Rows();
    owners := [];
    assert UnlockSections(s.sections, []) == s.sections;
    for i := 0 to |ids|
      invariant |owners| == i && forall j :: 0 <= j < i ==> OwnerOf(y, ids[j], owners[j])
      invariant st.Rows() == s.(sections := UnlockSections(s.sections, ids[..i]),
                                log := s.log + ReleaseEvents(station, ids[..i], owners))
    {
      ghost var owner := UnlockOne(st, station, y, table, ids[i], s, ids[..i], owners);
      assert ids[..i + 1] == ids[..i] + [ids[i]];
      owners := owners + [owner];
    }
    assert ids[..|ids|] == ids;
  }

  lemma ReleaseEventsSnoc(station: Id, ids: seq<Id>, owners: seq<Id>, k: Id, owner: Id)
    requires |owners| == |ids|
    ensures ReleaseEvents(station, ids + [k], owners + [owner]) ==
      ReleaseEvents(station, ids, owners) + [Event(station, RouteSectionUnlocked, OfSection(k), owner, NoPayload)]
  {
  }

  /** Occupancy, the once-occupied row and the approach lock, in the order the source writes them. */
  method ApplyEntry(st: Store, station: Id, train: Id, eff: Effect)
    requires eff.section in st.sections
    modifies st
    ensures
      var s := old(st.Rows());
      st.Rows() == s.(
        sections := Occupy(s.sections, eff.section, eff.nowOccupied, train),
        once := MarkedOnce(s.once, if eff.nowOccupied then eff.onceRoute else NO_ID, eff.section),
        routes := ApproachLockedRoutes(s.routes, eff.approachLock),
        log := s.log
          + [Event(station, if eff.nowOccupied then SectionOccupied else SectionCleared,
              OfSection(eff.section), NO_ID, ByTrain(train))]
          + if eff.approachLock in s.routes then
              [Event(station, LockSet, OfRoute(eff.approachLock), eff.approachLock, ApproachNote)]
            else [])
  {
    var k := eff.section;
    st.SetSectionOccupied(k, eff.nowOccupied, if eff.nowOccupied then train else NO_ID);
    st.AppendEvent(Event(station, if eff.nowOccupied then SectionOccupied else SectionCleared,
      OfSection(k), NO_ID, ByTrain(train)));
    if eff.onceRoute != NO_ID && eff.nowOccupied {
      st.MarkSectionOnceOccupied(eff.onceRoute, k);
    }
    if eff.approachLock in st.routes {
      var r := st.routes[eff.approachLock];
      st.SetRouteState(eff.approachLock, ApproachLocked, r.establishedAt, None, None);
      st.AppendEvent(Event(station, LockSet, OfRoute(eff.approachLock), eff.approachLock, ApproachNote));
    }
  }

  method ApplyEffect(st: Store, station: Id, train: Id, y: Yard, table: Table, eff: Effect)
      returns (ghost owners: seq<Id>)
    requires eff.section in st.sections && table.Valid() && table.routes == y.routes && NO_ID !in y.routes
    requires forall id :: id in eff.closeSignals ==> id in st.routes
    modifies st
    ensures |owners| == |eff.unlock| && forall i :: 0 <= i < |eff.unlock| ==> OwnerOf(y, eff.unlock[i], owners[i])
    ensures st.Rows() == Moved(old(st.Rows()), station, train, eff, owners)
  {
    ghost var s := st.Rows();
    var before := st.routes;
    ApplyEntry(st, station, train, eff);
    CloseRouteSignals(st, station, before, eff.closeSignals);
    owners := UnlockPassed(st, station, y, table, eff.unlock);
    assert st.log == s.log + MoveEventsOf(s, station, eff.section, train, eff, owners);
  }

  method ApplyMoveTx(st: Store, train: Id, k: Id, entering: bool) returns (err: Option<Error>, ghost c: Choice)
    requires Keyed(st.routes)
    modifies st
    ensures ChoiceFor(old(st.Rows()), k, entering, c)
    ensures st.Rows() == After(old(st.Rows()), MoveTx(old(st.Rows()), train, k, entering, c))
    ensures err == if k in old(st.sections) then None else Some(ErrNoRows)
  {
    ghost var s := st.Rows();
    c := Choice([], []);
    if k !in st.sections {
      return Some(ErrNoRows), c;
    }
    var station := st.sections[k].station;
    var y, table := st.Load(station);
    var eff: Effect;
    ghost var order: seq<Id>;
    eff, order := RunApplyMove(y, table, k, entering);
    VisitAllTraced(y, k, entering, order);
    var snapshot := st.routes;
    ghost var owners := ApplyEffect(st, station, train, y, table, eff);
    c := Choice(order, owners);
    if eff.complete != NO_ID {
      FixedDefinition(s, station, train, eff, owners);
      ReleaseNormal(st, snapshot[eff.complete]);
    }
    return None, c;
  }

  lemma FixedDefinition(s: State, station: Id, train: Id, eff: Effect, owners: seq<Id>)
    requires Keyed(s.routes) && eff.complete in s.routes && |owners| == |eff.unlock|
    requires forall id :: id in eff.closeSignals ==> id in s.routes
    ensures
      var m := Moved(s, station, train, eff, owners);
      eff.complete in m.routes && m.routes[eff.complete].SameDefinition(s.routes[eff.complete])
  {
  }

  /** A train enters a section. */
  method Enter(st: Store, train: Id, k: Id) returns (err: Option<Error>, ghost c: Choice)
    requires Keyed(st.routes)
    modifies st
    ensures ChoiceFor(old(st.Rows()), k, true, c)
    ensures st.Rows() == After(old(st.Rows()), MoveTx(old(st.Rows()), train, k, true, c))
    ensures err == if k in old(st.sections) then None else Some(ErrNoRows)
  {
    err, c := ApplyMoveTx(st, train, k, true);
  }

  /** A train leaves a section. */
  method Clear(st: Store, train: Id, k: Id) returns (err: Option<Error>, ghost c: Choice)
    requires Keyed(st.routes)
    modifies st
    ensures ChoiceFor(old(st.Rows()), k, false, c)
    ensures st.Rows() == After(old(st.Rows()), MoveTx(old(st.Rows()), train, k, false, c))
    ensures err == if k in old(st.sections) then None else Some(ErrNoRows)
  {
    err, c := ApplyMoveTx(st, train, k, false);
  }
}
