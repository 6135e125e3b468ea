/**
 The entities of the interlocking: switches, signals, sections, routes, delay timers and
 log events, with the small value helpers the rules use.
 */
module Model {

  /** Identifiers are opaque tokens that are only compared; `NO_ID` is the empty string. */
  type Id = int
  const NO_ID: Id := 0

  datatype Option<+T> = None | Some(value: T)

  datatype Error =
    | ErrConflictingRoute
    | ErrSectionOccupied
    | ErrSectionLocked
    | ErrSwitchInOccupiedSection
    | ErrSwitchLocked
    | ErrSwitchLostIndication
    | ErrRouteNotEstablished
    | ErrRouteTerminalState
    | ErrApproachLocked
    | ErrInvalidRoute
    | ErrNoRows        // the store found no row with that key
    | ErrDuplicateKey  // a primary key is already taken

  datatype Result<+T> = Ok(value: T) | Err(error: Error)

  datatype Position = Normal | Reverse {
    function Opposite(): Position {
      if Normal? then Reverse else Normal
    }
  }

  datatype Aspect = Red | Yellow | DoubleYellow | Green

  /** The kind is free text in the store; everything but a shunt is delayed like a train. */
  datatype RouteKind = TrainRoute | ShuntRoute | OtherRoute {
    function ApproachLockDelay(): int {
      if ShuntRoute? then 30 else 180
    }
  }

  datatype RouteState =
    | Pending | Requested | Established | ApproachLocked | Cancelling
    | Unlocked | Cancelled | Failed
  {
    predicate IsLocked() {
      Established? || ApproachLocked? || Cancelling?
    }
  }

  datatype Section = Section(station: Id, occupied: bool, train: Id, locked: bool, holder: Id)

  datatype Switch = Switch(station: Id, section: Id, position: Position,
                           locked: bool, holder: Id, indicated: bool)

  datatype Signal = Signal(station: Id, aspect: Aspect, protects: Id)

  /** A switch and a position: one requirement of a route, or one planned switch move. */
  datatype Requirement = Requirement(switch: Id, position: Position)

  /** `path` holds the section ids in traversal order; `approach` is `NO_ID` when absent. */
  datatype Route = Route(
    id: Id,
    station: Id,
    kind: RouteKind,
    signal: Id,
    terminal: Id,
    requirements: seq<Requirement>,
    path: seq<Id>,
    approach: Id,
    state: RouteState,
    establishedAt: Option<int>,
    cancelledAt: Option<int>,
    timerStartedAt: Option<int>)
  {
    predicate HasSection(k: Id) {
      k in path
    }

    predicate Requires(w: Id, p: Position) {
      Requirement(w, p) in requirements
    }

    predicate UsesSwitch(w: Id) {
      Requires(w, Normal) || Requires(w, Reverse)
    }

    function RequiredPositionOf(w: Id): Option<Position> {
      FirstPosition(requirements, w)
    }

    function SwitchIds(): (ids: seq<Id>)
      ensures |ids| == |requirements|
      ensures forall i :: 0 <= i < |ids| ==> ids[i] == requirements[i].switch
    {
      seq(|requirements|, i requires 0 <= i < |requirements| => requirements[i].switch)
    }

    /** The row written by the store's state update: new state and all three timestamps. */
    function WithState(s: RouteState, established: Option<int>, cancelled: Option<int>, timer: Option<int>): Route {
      this.(state := s, establishedAt := established, cancelledAt := cancelled, timerStartedAt := timer)
    }

    /** Primary keys of the child tables: a route lists a section or a switch at most once. */
    ghost predicate KeysUnique() {
      && (forall i, j :: 0 <= i < j < |path| ==> path[i] != path[j])
      && (forall i, j :: 0 <= i < j < |requirements| ==> requirements[i].switch != requirements[j].switch)
    }

    /** Same definition, whatever the lifecycle state and timestamps. */
    ghost predicate SameDefinition(other: Route) {
      other == WithState(other.state, other.establishedAt, other.cancelledAt, other.timerStartedAt)
    }
  }

  function FirstPosition(reqs: seq<Requirement>, w: Id): Option<Position> {
    if reqs == [] then None
    else if reqs[0].switch == w then Some(reqs[0].position)
    else FirstPosition(reqs[1..], w)
  }

  lemma {:induction false} FirstPositionMeaning(reqs: seq<Requirement>, w: Id)
    requires forall i, j :: 0 <= i < j < |reqs| ==> reqs[i].switch != reqs[j].switch
    ensures forall p :: FirstPosition(reqs, w) == Some(p) <==> Requirement(w, p) in reqs
  {
    if reqs != [] {
      var rest := reqs[1..];
      FirstPositionMeaning(rest, w);
      assert reqs == [reqs[0]] + rest;
    }
  }

  /** A route requires each of its switches in one position only. */
  lemma OnePosition(r: Route, w: Id, p: Position, q: Position)
    requires r.KeysUnique() && r.Requires(w, p) && r.Requires(w, q)
    ensures p == q
  {
    FirstPositionMeaning(r.requirements, w);
  }

  lemma SwitchIdsAreUsed(r: Route, w: Id)
    ensures w in r.SwitchIds() <==> r.UsesSwitch(w)
  {
    var ids := r.SwitchIds();
    if w in ids {
      var i :| 0 <= i < |ids| && ids[i] == w;
      var p := r.requirements[i].position;
      assert r.Requires(w, p) && (p == Normal || p == Reverse);
    }
    if r.UsesSwitch(w) {
      var q := if r.Requires(w, Normal) then Requirement(w, Normal) else Requirement(w, Reverse);
      var i :| 0 <= i < |r.requirements| && r.requirements[i] == q;
      assert ids[i] == w;
    }
  }

  datatype Timer = Timer(station: Id, kind: RouteKind, startedAt: int, delaySecs: int, completed: bool)

  datatype EventKind =
    | SwitchReversed | RouteRequested | RouteEstablished | RouteFailed
    | SignalOpened | SignalClosed | SectionOccupied | SectionCleared
    | RouteSectionUnlocked | RouteUnlocked | CancelRequested
    | DelayUnlockStarted | DelayUnlockCompleted | DelayUnlockAbandoned
    | LockSet | LockReleased | IndicationLost | IndicationRestored
    | SwitchLocked | SwitchReleased

  /** What an event is about: the entity type together with the entity id. */
  datatype Entity = OfSection(id: Id) | OfSwitch(id: Id) | OfSignal(id: Id) | OfRoute(id: Id)

  datatype Payload =
    | NoPayload
    | MovedTo(position: Position)
    | ByTrain(train: Id)
    | Shows(aspect: Aspect)
    | ImmediateMode
    | TimedMode
    | Delay(secs: int)
    | ApproachNote
    | Reason(error: Error)

  datatype Event = Event(station: Id, kind: EventKind, entity: Entity, route: Id, payload: Payload)
}
