/**
 The rows of all stations as one value, the bulk updates the services perform on them, and the
 snapshot a service loads for one station (internal/store, internal/service/loadyard.go).
 */
module Database {
  import opened Model
  import opened Interlocking

  datatype State = State(
    sections: map<Id, Section>,
    switches: map<Id, Switch>,
    signals: map<Id, Signal>,
    routes: map<Id, Route>,
    once: map<Id, set<Id>>,
    timers: map<Id, Timer>,
    log: seq<Event>)

  /** A transaction either commits a new state or leaves the old one behind an error. */
  datatype Outcome = Committed(state: State) | RolledBack(error: Error)

  function After(s: State, o: Outcome): State {
    if o.Committed? then o.state else s
  }

  function OnceOf(once: map<Id, set<Id>>, rid: Id): set<Id> {
    if rid in once then once[rid] else {}
  }

  // ----- Snapshot of one station -----

  function LoadYard(s: State, station: Id): Yard {
    var routes := map r | r in s.routes && s.routes[r].station == station :: s.routes[r];
    Yard(
      station,
      map k | k in s.switches && s.switches[k].station == station :: s.switches[k],
      map k | k in s.signals && s.signals[k].station == station :: s.signals[k],
      map k | k in s.sections && s.sections[k].station == station :: s.sections[k],
      map r | r in routes && routes[r].state.IsLocked() :: OnceOf(s.once, r),
      routes)
  }

  // ----- Bulk row updates -----

  function LockSections(m: map<Id, Section>, ids: seq<Id>, rid: Id): map<Id, Section> {
    map k | k in m :: if k in ids then m[k].(locked := true, holder := rid) else m[k]
  }

  function UnlockSections(m: map<Id, Section>, ids: seq<Id>): map<Id, Section> {
    map k | k in m :: if k in ids then m[k].(locked := false, holder := NO_ID) else m[k]
  }

  function Occupy(m: map<Id, Section>, k: Id, entering: bool, train: Id): map<Id, Section> {
    if k in m then m[k := m[k].(occupied := entering, train := if entering then train else NO_ID)] else m
  }

  function LockSwitches(m: map<Id, Switch>, ids: seq<Id>, rid: Id): map<Id, Switch> {
    map w | w in m :: if w in ids then m[w].(locked := true, holder := rid) else m[w]
  }

  function UnlockSwitches(m: map<Id, Switch>, ids: seq<Id>): map<Id, Switch> {
    map w | w in m :: if w in ids then m[w].(locked := false, holder := NO_ID) else m[w]
  }

  /** Switches after a list of moves: each named switch stands where its move sends it. */
  function MoveSwitches(m: map<Id, Switch>, moves: seq<Requirement>): map<Id, Switch> {
    map w | w in m ::
      if Requirement(w, Reverse) in moves then m[w].(position := Reverse)
      else if Requirement(w, Normal) in moves then m[w].(position := Normal)
      else m[w]
  }

  ghost predicate DistinctMoves(moves: seq<Requirement>) {
    forall i, j :: 0 <= i < j < |moves| ==> moves[i].switch != moves[j].switch
  }

  lemma MoveLast(m: map<Id, Switch>, moves: seq<Requirement>)
    requires moves != [] && DistinctMoves(moves)
    ensures
      var last := moves[|moves| - 1];
      var before := MoveSwitches(m, moves[..|moves| - 1]);
      MoveSwitches(m, moves) ==
        if last.switch in before then before[last.switch := before[last.switch].(position := last.position)] else before
  {
    var init, last := moves[..|moves| - 1], moves[|moves| - 1];
    assert moves == init + [last];
    assert forall q :: q in init ==> q.switch != last.switch;
    assert forall q :: q in moves <==> q in init || q == last;
    var before := MoveSwitches(m, init);
    var after := MoveSwitches(m, moves);
    forall w | w in m
      ensures after[w] == if w == last.switch then before[w].(position := last.position) else before[w]
    {
      if w == last.switch {
        assert Requirement(w, last.position) in moves && Requirement(w, last.position.Opposite()) !in moves;
        assert Requirement(w, Normal) !in init && Requirement(w, Reverse) !in init;
      }
    }
  }

  function SetIndicated(m: map<Id, Switch>, w: Id, ok: bool): map<Id, Switch> {
    if w in m then m[w := m[w].(indicated := ok)] else m
  }

  function ShowAspect(m: map<Id, Signal>, g: Id, a: Aspect): map<Id, Signal> {
    if g in m then m[g := m[g].(aspect := a)] else m
  }

  function Protect(m: map<Id, Signal>, g: Id, rid: Id): map<Id, Signal> {
    if g in m then m[g := m[g].(protects := rid)] else m
  }

  /** The signals of the listed routes drop to red. */
  function CloseSignals(m: map<Id, Signal>, routes: map<Id, Route>, ids: seq<Id>): map<Id, Signal> {
    map g | g in m ::
      if exists id :: id in ids && id in routes && routes[id].signal == g then m[g].(aspect := Red) else m[g]
  }

  // ----- Runs of log events -----

  function SectionEvents(station: Id, kind: EventKind, ids: seq<Id>, rid: Id): (events: seq<Event>)
    ensures |events| == |ids|
  {
    seq(|ids|, i requires 0 <= i < |ids| => Event(station, kind, OfSection(ids[i]), rid, NoPayload))
  }

  function SwitchEvents(station: Id, kind: EventKind, ids: seq<Id>, rid: Id): (events: seq<Event>)
    ensures |events| == |ids|
  {
    seq(|ids|, i requires 0 <= i < |ids| => Event(station, kind, OfSwitch(ids[i]), rid, NoPayload))
  }

  function MoveEvents(station: Id, moves: seq<Requirement>, rid: Id): (events: seq<Event>)
    ensures |events| == |moves|
  {
    seq(|moves|, i requires 0 <= i < |moves| =>
      Event(station, SwitchReversed, OfSwitch(moves[i].switch), rid, MovedTo(moves[i].position)))
  }

  function CloseEvents(station: Id, routes: map<Id, Route>, ids: seq<Id>): (events: seq<Event>)
    requires forall id :: id in ids ==> id in routes
    ensures |events| == |ids|
  {
    seq(|ids|, i requires 0 <= i < |ids| =>
      var id := ids[i];
      assert id in ids;
      Event(station, SignalClosed, OfSignal(routes[id].signal), id, NoPayload))
  }

  /** Sectional release events; `owners` are the routes they are attributed to. */
  function ReleaseEvents(station: Id, ids: seq<Id>, owners: seq<Id>): (events: seq<Event>)
    requires |owners| == |ids|
    ensures |events| == |ids|
  {
    seq(|ids|, i requires 0 <= i < |ids| =>
      Event(station, RouteSectionUnlocked, OfSection(ids[i]), owners[i], NoPayload))
  }

  function RouteEvent(r: Route, kind: EventKind, payload: Payload): Event {
    Event(r.station, kind, OfRoute(r.id), r.id, payload)
  }

  function SignalEvent(r: Route, kind: EventKind, payload: Payload): Event {
    Event(r.station, kind, OfSignal(r.signal), r.id, payload)
  }
}
