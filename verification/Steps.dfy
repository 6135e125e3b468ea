/**
 Every service operation as a function on the stored rows (internal/service). Where the source
 iterates a Go map, the visiting order is part of the step, so that `Next` is deterministic and
 a run may choose any order.
 */
module Steps {
  import opened Model
  import opened RoutePlan
  import opened Interlocking
  import opened Signaling
  import opened TrainOps
  import opened Database

  // ----- Route definition -----

  ghost function DefineTx(s: State, r: Route): Outcome {
    var y := LoadYard(s, r.station);
    if !Defined(y, r) then RolledBack(ErrInvalidRoute)
    else if r.id in s.routes || !r.KeysUnique() then RolledBack(ErrDuplicateKey)
    else Committed(s.(routes := s.routes[r.id := r.WithState(Pending, None, None, None)]))
  }

  // ----- Establish -----

  function FirstMoveFault(y: Yard, moves: seq<Requirement>): Option<Error> {
    if moves == [] then None
    else
      var e := CheckSwitchMove(y, moves[0].switch);
      if e.Some? then e else FirstMoveFault(y, moves[1..])
  }

  function EstablishedSwitches(s: State, r: Route, plan: Plan): map<Id, Switch> {
    LockSwitches(MoveSwitches(s.switches, plan.moves), plan.switchLocks, r.id)
  }

  function OpenAspect(s: State, r: Route, plan: Plan): Aspect {
    var switches := EstablishedSwitches(s, r, plan);
    AspectForOpen(r, map w | w in plan.switchLocks && w in switches :: switches[w])
  }

  function EstablishEvents(r: Route, plan: Plan, aspect: Aspect): seq<Event> {
    MoveEvents(r.station, plan.moves, r.id)
    + SwitchEvents(r.station, SwitchLocked, plan.switchLocks, r.id)
    + SectionEvents(r.station, LockSet, plan.sectionLocks, r.id)
    + [RouteEvent(r, RouteEstablished, NoPayload)]
    + (if aspect != Red then [SignalEvent(r, SignalOpened, Shows(aspect))] else [])
  }

  function EstablishedState(s: State, r: Route, plan: Plan, now: int): State {
    var aspect := OpenAspect(s, r, plan);
    s.(sections := LockSections(s.sections, plan.sectionLocks, r.id),
       switches := EstablishedSwitches(s, r, plan),
       signals := ShowAspect(Protect(s.signals, r.signal, r.id), r.signal, aspect),
       routes := s.routes[r.id := r.WithState(Established, Some(now), None, None)],
       log := s.log + EstablishEvents(r, plan, aspect))
  }

  ghost function EstablishTx(s: State, rid: Id, now: int): Outcome {
    if rid !in s.routes then RolledBack(ErrNoRows)
    else
      var r := s.routes[rid];
      var y := LoadYard(s, r.station);
      var check := CheckEstablish(y, r);
      if check.Err? then RolledBack(check.error)
      else
        var fault := FirstMoveFault(y, check.value.moves);
        if fault.Some? then RolledBack(fault.value)
        else Committed(EstablishedState(s, r, check.value, now))
  }

  // ----- Releases: every way a route gives up its locks -----

  /** The listed locks dropped, the route row replaced, its once-occupied rows cleared. */
  function Released(s: State, r: Route, secs: seq<Id>, sws: seq<Id>, secKind: EventKind, row: Route,
                    signals: map<Id, Signal>, timers: map<Id, Timer>, tail: seq<Event>): State
  {
    State(
      UnlockSections(s.sections, secs),
      UnlockSwitches(s.switches, sws),
      signals,
      s.routes[r.id := row],
      s.once - {r.id},
      timers,
      s.log
      + SectionEvents(r.station, secKind, secs, r.id)
      + SwitchEvents(r.station, SwitchReleased, sws, r.id)
      + tail)
  }

  function Closed(signals: map<Id, Signal>, g: Id): map<Id, Signal> {
    Protect(ShowAspect(signals, g, Red), g, NO_ID)
  }

  function HeldSecs(s: State, r: Route): seq<Id> {
    HeldSections(s.sections, r.path, r.id)
  }

  function HeldSws(s: State, r: Route): seq<Id> {
    HeldSwitches(s.switches, r.SwitchIds(), r.id)
  }

  function CancelledNow(s: State, r: Route, now: int): State {
    Released(s, r, HeldSecs(s, r), HeldSws(s, r), LockReleased,
             r.WithState(Cancelled, None, Some(now), None),
             Closed(s.signals, r.signal), s.timers,
             [RouteEvent(r, RouteUnlocked, NoPayload),
              SignalEvent(r, SignalClosed, NoPayload),
              RouteEvent(r, CancelRequested, ImmediateMode)])
  }

  function CancelStarted(s: State, r: Route, now: int, delay: int): State {
    s.(signals := ShowAspect(s.signals, r.signal, Red),
       routes := s.routes[r.id := r.WithState(Cancelling, None, Some(now), Some(now))],
       timers := s.timers[r.id := Timer(r.station, r.kind, now, delay, false)],
       log := s.log + [RouteEvent(r, CancelRequested, TimedMode),
                       RouteEvent(r, DelayUnlockStarted, Delay(delay)),
                       SignalEvent(r, SignalClosed, NoPayload)])
  }

  function CancelTx(s: State, rid: Id, now: int): Outcome {
    if rid !in s.routes then RolledBack(ErrNoRows)
    else
      var r := s.routes[rid];
      var decision := DecideCancel(LoadYard(s, r.station), r);
      if decision.Err? then RolledBack(decision.error)
      else if decision.value.Immediate? then Committed(CancelledNow(s, r, now))
      else Committed(CancelStarted(s, r, now, decision.value.delay))
  }

  function CancelCompleted(s: State, r: Route, now: int): State {
    Released(s, r, HeldSecs(s, r), HeldSws(s, r), LockReleased,
             r.WithState(Cancelled, None, Some(now), None),
             Protect(s.signals, r.signal, NO_ID), s.timers - {r.id},
             [RouteEvent(r, DelayUnlockCompleted, NoPayload), RouteEvent(r, DelayUnlockCompleted, NoPayload)])
  }

  function CompleteTx(s: State, rid: Id, now: int): Outcome {
    if rid !in s.routes then RolledBack(ErrNoRows)
    else if s.routes[rid].state != Cancelling then RolledBack(ErrRouteNotEstablished)
    else Committed(CancelCompleted(s, s.routes[rid], now))
  }

  function FaultUnlocked(s: State, r: Route, now: int): State {
    var y := LoadYard(s, r.station);
    Released(s, r, HeldSections(y.sections, r.path, r.id), HeldSwitches(y.switches, r.SwitchIds(), r.id),
             LockReleased, r.WithState(Cancelled, None, Some(now), None),
             Closed(s.signals, r.signal), s.timers - {r.id}, [])
  }

  function FaultTx(s: State, rid: Id, now: int): Outcome {
    if rid !in s.routes then RolledBack(ErrNoRows)
    else Committed(FaultUnlocked(s, s.routes[rid], now))
  }

  // ----- Switches -----

  function ReverseTx(s: State, w: Id): Outcome {
    if w !in s.switches then RolledBack(ErrNoRows)
    else
      var sw := s.switches[w];
      var fault := CheckSwitchMove(LoadYard(s, sw.station), w);
      if fault.Some? then RolledBack(fault.value)
      else
        var move := Requirement(w, sw.position.Opposite());
        Committed(s.(switches := s.switches[w := sw.(position := move.position)],
                     log := s.log + MoveEvents(sw.station, [move], NO_ID)))
  }

  /** Recomputes the stored aspect of a route's home signal. */
  function Refresh(s: State, r: Route): State {
    var y := LoadYard(s, r.station);
    if r.signal !in y.signals then s
    else
      var aspect := ComputeAspect(y.Get(r.id), y.switches, y.sections);
      if aspect == y.signals[r.signal].aspect then s
      else
        s.(signals := ShowAspect(s.signals, r.signal, aspect),
           log := s.log + [if aspect == Red then SignalEvent(r, SignalClosed, NoPayload)
                           else SignalEvent(r, SignalOpened, Shows(aspect))])
  }

  /** The locked routes over switch `w` are refreshed in the given order. */
  function RefreshAll(s: State, w: Id, routes: map<Id, Route>, order: seq<Id>): State
    requires forall id :: id in order ==> id in routes
  {
    if order == [] then s
    else
      var before := RefreshAll(s, w, routes, order[..|order| - 1]);
      var last := order[|order| - 1];
      var r := routes[last];
      if r.state.IsLocked() && r.UsesSwitch(w) then Refresh(before, r) else before
  }

  function Indicated(s: State, w: Id, ok: bool): State
    requires w in s.switches
  {
    s.(switches := SetIndicated(s.switches, w, ok),
       log := s.log + [Event(s.switches[w].station, if ok then IndicationRestored else IndicationLost,
                             OfSwitch(w), NO_ID, NoPayload)])
  }

  function StationRoutes(s: State, station: Id): map<Id, Route> {
    LoadYard(s, station).routes
  }

  ghost predicate OrderFor(s: State, station: Id, order: seq<Id>) {
    Enumerates(order, StationRoutes(s, station).Keys)
  }

  ghost function IndicateTx(s: State, w: Id, ok: bool, order: seq<Id>): Outcome
    requires w in s.switches ==> OrderFor(s, s.switches[w].station, order)
  {
    if w !in s.switches then RolledBack(ErrNoRows)
    else if s.switches[w].indicated == ok then Committed(s)
    else Committed(RefreshAll(Indicated(s, w, ok), w, StationRoutes(s, s.switches[w].station), order))
  }

  // ----- Train moves -----

  /** An attribution the source may pick for a released section: some locked route over it, or none. */
  predicate OwnerOf(y: Yard, k: Id, owner: Id) {
    if owner == NO_ID then forall id :: id in y.routes ==> !Touched(y.routes[id], k)
    else owner in y.routes && Touched(y.routes[owner], k)
  }

  /** How a move was resolved: the visiting order and the attribution of each released section. */
  datatype Choice = Choice(order: seq<Id>, owners: seq<Id>)

  ghost predicate ChoiceFor(s: State, k: Id, entering: bool, c: Choice) {
    k in s.sections ==>
      var y := LoadYard(s, s.sections[k].station);
      && Enumerates(c.order, y.routes.Keys)
      && (var eff := ApplyMove(y, k, entering, c.order);
          && |c.owners| == |eff.unlock|
          && (forall i :: 0 <= i < |eff.unlock| ==> OwnerOf(y, eff.unlock[i], c.owners[i])))
  }

  function MoveEffect(s: State, k: Id, entering: bool, c: Choice): Effect
    requires k in s.sections && ChoiceFor(s, k, entering, c)
  {
    ApplyMove(LoadYard(s, s.sections[k].station), k, entering, c.order)
  }

  function MarkedOnce(once: map<Id, set<Id>>, rid: Id, k: Id): map<Id, set<Id>> {
    if rid == NO_ID then once else once[rid := OnceOf(once, rid) + {k}]
  }

  function ApproachLockedRoutes(routes: map<Id, Route>, rid: Id): map<Id, Route> {
    if rid in routes then
      routes[rid := routes[rid].WithState(ApproachLocked, routes[rid].establishedAt, None, None)]
    else routes
  }

  function MoveEventsOf(s: State, station: Id, k: Id, train: Id, eff: Effect, owners: seq<Id>): seq<Event>
    requires |owners| == |eff.unlock|
    requires forall id :: id in eff.closeSignals ==> id in s.routes
  {
    [Event(station, if eff.nowOccupied then SectionOccupied else SectionCleared, OfSection(k), NO_ID, ByTrain(train))]
    + (if eff.approachLock in s.routes then
         [Event(station, LockSet, OfRoute(eff.approachLock), eff.approachLock, ApproachNote)]
       else [])
    + CloseEvents(station, s.routes, eff.closeSignals)
    + ReleaseEvents(station, eff.unlock, owners)
  }

  /** Everything a move does before a completed route is released. */
  function Moved(s: State, station: Id, train: Id, eff: Effect, owners: seq<Id>): State
    requires |owners| == |eff.unlock|
    requires forall id :: id in eff.closeSignals ==> id in s.routes
  {
    s.(sections := UnlockSections(Occupy(s.sections, eff.section, eff.nowOccupied, train), eff.unlock),
       signals := CloseSignals(s.signals, s.routes, eff.closeSignals),
       routes := ApproachLockedRoutes(s.routes, eff.approachLock),
       once := MarkedOnce(s.once, if eff.nowOccupied then eff.onceRoute else NO_ID, eff.section),
       log := s.log + MoveEventsOf(s, station, eff.section, train, eff, owners))
  }

  function NormallyReleased(s: State, r: Route): State {
    Released(s, r, HeldSecs(s, r), HeldSws(s, r), RouteSectionUnlocked,
             r.WithState(Unlocked, r.establishedAt, None, None),
             Closed(s.signals, r.signal), s.timers,
             [SignalEvent(r, SignalClosed, NoPayload), RouteEvent(r, RouteUnlocked, NoPayload)])
  }

  lemma MoveTouchesKnownRoutes(s: State, k: Id, entering: bool, c: Choice)
    requires Keyed(s.routes) && k in s.sections && ChoiceFor(s, k, entering, c)
    ensures
      var y, eff := LoadYard(s, s.sections[k].station), MoveEffect(s, k, entering, c);
      && EffectTraced(y, k, entering, c.order, eff)
      && (forall id :: id in eff.closeSignals ==> id in s.routes)
      && (eff.complete != NO_ID ==> eff.complete in y.routes && !entering)
  {
    VisitAllTraced(LoadYard(s, s.sections[k].station), k, entering, c.order);
  }

  // ----- Every order can happen -----

  /** A route whose approach a train entering `k` hits: which of them becomes approach-locked, the map order decides. */
  predicate ApproachCandidate(s: State, k: Id, q: Id) {
    && k in s.sections && q in s.routes && s.routes[q].station == s.sections[k].station
    && ApproachHit(s.routes[q], k, true)
  }

  lemma {:induction false} SomeOwners(y: Yard, ids: seq<Id>) returns (owners: seq<Id>)
    requires NO_ID !in y.routes
    ensures |owners| == |ids| && forall i :: 0 <= i < |ids| ==> OwnerOf(y, ids[i], owners[i])
  {
    owners := [];
    if ids != [] {
      var n := |ids| - 1;
      var init := SomeOwners(y, ids[..n]);
      if id :| id in y.routes && Touched(y.routes[id], ids[n]) {
        owners := init + [id];
      } else {
        owners := init + [NO_ID];
      }
    }
  }

  /** Any visiting order belongs to some choice. */
  lemma OrderIsPossible(s: State, k: Id, entering: bool, order: seq<Id>) returns (c: Choice)
    requires Keyed(s.routes) && k in s.sections && OrderFor(s, s.sections[k].station, order)
    ensures ChoiceFor(s, k, entering, c) && c.order == order
  {
    var y := LoadYard(s, s.sections[k].station);
    var owners := SomeOwners(y, ApplyMove(y, k, entering, order).unlock);
    c := Choice(order, owners);
  }

  /** Every candidate is the approach target of some choice ... */
  lemma CandidateCanWin(s: State, k: Id, q: Id) returns (c: Choice)
    requires Keyed(s.routes) && ApproachCandidate(s, k, q)
    ensures ChoiceFor(s, k, true, c) && MoveEffect(s, k, true, c).approachLock == q
  {
    var y := LoadYard(s, s.sections[k].station);
    var any := SomeOrder(y.routes.Keys);
    var order := EveryCandidateCanWin(y, k, any, q);
    c := OrderIsPossible(s, k, true, order);
  }

  /** ... and nothing else is. */
  lemma TargetIsCandidate(s: State, k: Id, entering: bool, c: Choice)
    requires Keyed(s.routes) && k in s.sections && ChoiceFor(s, k, entering, c)
    ensures
      var target := MoveEffect(s, k, entering, c).approachLock;
      target != NO_ID ==> entering && ApproachCandidate(s, k, target)
  {
    VisitAllTraced(LoadYard(s, s.sections[k].station), k, entering, c.order);
  }

  function MoveTx(s: State, train: Id, k: Id, entering: bool, c: Choice): Outcome
    requires Keyed(s.routes) && ChoiceFor(s, k, entering, c)
  {
    if k !in s.sections then RolledBack(ErrNoRows)
    else
      var station := s.sections[k].station;
      var eff := MoveEffect(s, k, entering, c);
      MoveTouchesKnownRoutes(s, k, entering, c);
      var moved := Moved(s, station, train, eff, c.owners);
      if eff.complete == NO_ID then Committed(moved)
      else Committed(NormallyReleased(moved, s.routes[eff.complete]))
  }
}
