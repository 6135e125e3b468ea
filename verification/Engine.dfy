/**
 The service operations behind one door: serving any list of requests on a store is a run of the
 step model, so everything proved about runs holds of the rows the services leave behind.
 */
module Engine {
  import opened Model
  import opened RoutePlan
  import opened Interlocking
  import opened Database
  import opened Steps
  import opened Runs
  import opened Ownership
  import opened Lossless
  import opened Storage
  import opened Traversal
  import opened Passages
  import opened Requests
  import opened Reuse
  import opened Cycles
  import RouteService
  import SwitchService
  import TrainService
  import ReconcileService

  datatype Request =
    | DefineRequest(route: Route)
    | EstablishRequest(rid: Id, now: int)
    | CancelRequest(rid: Id, now: int)
    | CompleteRequest(rid: Id, now: int)
    | FaultRequest(rid: Id, now: int)
    | ReverseRequest(switch: Id)
    | IndicationRequest(switch: Id, ok: bool)
    | OccupyRequest(train: Id, section: Id)
    | ClearRequest(train: Id, section: Id)
    | RestartRequest(stations: seq<Id>, now: int)

  /** The step records the request and the choices the services made while serving it. */
  ghost predicate Serves(req: Request, step: Step) {
    match req
    case DefineRequest(r) => step == Define(r)
    case EstablishRequest(rid, now) => step == Establish(rid, now)
    case CancelRequest(rid, now) => step == Cancel(rid, now)
    case CompleteRequest(rid, now) => step == Complete(rid, now)
    case FaultRequest(rid, now) => step == FaultUnlock(rid, now)
    case ReverseRequest(w) => step == ReverseSwitch(w)
    case IndicationRequest(w, ok) => step.Indicate? && step.switch == w && step.ok == ok
    case OccupyRequest(train, k) => step.Train? && step.train == train && step.section == k && step.entering
    case ClearRequest(train, k) => step.Train? && step.train == train && step.section == k && !step.entering
    case RestartRequest(stations, now) => step.Reconcile? && step.stations == stations && step.now == now
  }

  method ServeRoute(st: Store, req: Request) returns (ghost step: Step)
    requires Keyed(st.routes) && (req.DefineRequest? ==> req.route.id != NO_ID)
    requires req.DefineRequest? || req.EstablishRequest? || req.CancelRequest? || req.CompleteRequest?
      || req.FaultRequest?
    modifies st
    ensures Serves(req, step) && Enabled(old(st.Rows()), step) && st.Rows() == Next(old(st.Rows()), step)
  {
    match req {
      case DefineRequest(r) =>
        var err := RouteService.DefineRoute(st, r);
        step := Define(r);
      case EstablishRequest(rid, now) =>
        var res := RouteService.Establish(st, rid, now);
        step := Establish(rid, now);
      case CancelRequest(rid, now) =>
        var res := RouteService.Cancel(st, rid, now);
        step := Cancel(rid, now);
      case CompleteRequest(rid, now) =>
        var res := RouteService.CompleteDelayedCancel(st, rid, now);
        step := Complete(rid, now);
      case FaultRequest(rid, now) =>
        var res := RouteService.FaultUnlock(st, rid, now);
        step := FaultUnlock(rid, now);
    }
  }

  method ServeField(st: Store, req: Request) returns (ghost step: Step)
    requires Keyed(st.routes)
    requires req.ReverseRequest? || req.IndicationRequest? || req.OccupyRequest? || req.ClearRequest?
      || req.RestartRequest?
    modifies st
    ensures Serves(req, step) && Enabled(old(st.Rows()), step) && st.Rows() == Next(old(st.Rows()), step)
  {
    match req {
      case ReverseRequest(w) =>
        var res := SwitchService.Reverse(st, w);
        step := ReverseSwitch(w);
      case IndicationRequest(w, ok) =>
        var res: Result<Switch>;
        ghost var order: seq<Id>;
        res, order := SwitchService.SetIndication(st, w, ok);
        step := Indicate(w, ok, order);
      case OccupyRequest(train, k) =>
        var err: Option<Error>;
        ghost var c: Choice;
        err, c := TrainService.Enter(st, train, k);
        step := Train(train, k, true, c);
      case ClearRequest(train, k) =>
        var err: Option<Error>;
        ghost var c: Choice;
        err, c := TrainService.Clear(st, train, k);
        step := Train(train, k, false, c);
      case RestartRequest(stations, now) =>
        var n: nat;
        ghost var orders: seq<seq<Id>>;
        n, orders := ReconcileService.ReconcileAll(st, stations, now);
        step := Reconcile(now, stations, orders);
    }
  }

  method Serve(st: Store, req: Request) returns (ghost step: Step)
    requires Keyed(st.routes) && (req.DefineRequest? ==> req.route.id != NO_ID)
    modifies st
    ensures Serves(req, step) && Enabled(old(st.Rows()), step) && st.Rows() == Next(old(st.Rows()), step)
  {
    if req.DefineRequest? || req.EstablishRequest? || req.CancelRequest? || req.CompleteRequest? || req.FaultRequest? {
      step := ServeRoute(st, req);
    } else {
      step := ServeField(st, req);
    }
  }

  /** Any requests, in any order, restarts among them: the outcome is a run, every lock is owned, the log is
      lossless. */
  method ServeAll(initial: State, reqs: seq<Request>)
      returns (st: Store, ghost states: seq<State>, ghost steps: seq<Step>)
    requires Initial(initial)
    requires forall req :: req in reqs && req.DefineRequest? ==> req.route.id != NO_ID
    ensures fresh(st) && |steps| == |reqs|
    ensures IsRun(states, steps) && states[0] == initial && states[|steps|] == st.Rows()
    ensures forall i :: 0 <= i < |reqs| ==> Serves(reqs[i], steps[i])
    ensures WellFormed(st.Rows()) && Owned(st.Rows()) && Faithful(initial, st.Rows())
  {
    st := new Store(initial);
    states, steps := [initial], [];
    for i := 0 to |reqs|
      invariant fresh(st) && |steps| == i && |states| == i + 1
      invariant states[0] == initial && states[i] == st.Rows()
      invariant WellFormed(st.Rows())
      invariant IsRun(states, steps)
      invariant forall j :: 0 <= j < i ==> Serves(reqs[j], steps[j])
    {
      assert reqs[i] in reqs;
      ghost var step := Serve(st, reqs[i]);
      NextWellFormed(states[i], step);
      RunExtends(states, steps, step, st.Rows());
      states, steps := states + [st.Rows()], steps + [step];
    }
    EveryRunIsOwned(states, steps);
    LogIsLossless(states, steps);
  }

  // ----- One train over one route, on the store -----

  method Drive(st: Store, train: Id, k: Id, entering: bool) returns (ghost c: Choice)
    requires Keyed(st.routes)
    modifies st
    ensures ChoiceFor(old(st.Rows()), k, entering, c)
    ensures st.Rows() == After(old(st.Rows()), MoveTx(old(st.Rows()), train, k, entering, c))
  {
    var err: Option<Error>;
    if entering {
      err, c := TrainService.Enter(st, train, k);
    } else {
      err, c := TrainService.Clear(st, train, k);
    }
  }

  /** Moves the train over what is left of its route, section by section: nothing of the route is left locked. */
  method DriveThrough(st: Store, rid: Id, path: seq<Id>, train: Id, from: Stage)
    requires StandsAt(st.Rows(), rid, path, from) && WellFormed(st.Rows()) && Owned(st.Rows())
    modifies st
    ensures FullyReleased(st.Rows(), rid) && st.routes[rid].path == path
    ensures WellFormed(st.Rows()) && Owned(st.Rows())
    ensures Alone(old(st.Rows()), rid) ==> OthersUntouched(old(st.Rows()), st.Rows(), rid)
  {
    ghost var begin := st.Rows();
    var stage := from;
    while stage != Gone
      invariant StandsAt(st.Rows(), rid, path, stage) && WellFormed(st.Rows()) && Owned(st.Rows())
      invariant Alone(begin, rid) ==> Alone(st.Rows(), rid) && OthersUntouched(begin, st.Rows(), rid)
      decreases MovesLeft(|path|, stage)
    {
      ghost var s := st.Rows();
      var x, entering := NextSection(path, stage), EntersNext(path, stage);
      ghost var c := Drive(st, train, x, entering);
      StageMoves(s, rid, path, stage, train, x, entering, c);
      MoveKeepsPace(begin, s, rid, path, stage, train, c);
      stage := NextStage(|path|, stage);
    }
  }

  /** A move of the passage keeps ownership and, where the route is alone, leaves the others alone. */
  lemma MoveKeepsPace(begin: State, s: State, rid: Id, path: seq<Id>, stage: Stage, train: Id, c: Choice)
    requires WellFormed(s) && Owned(s) && StandsAt(s, rid, path, stage) && stage != Gone
    requires ChoiceFor(s, NextSection(path, stage), EntersNext(path, stage), c)
    ensures
      var t := After(s, MoveTx(s, train, NextSection(path, stage), EntersNext(path, stage), c));
      && WellFormed(t) && Owned(t)
      && (Alone(s, rid) && OthersUntouched(begin, s, rid) ==> Alone(t, rid) && OthersUntouched(begin, t, rid))
  {
    var x, entering := NextSection(path, stage), EntersNext(path, stage);
    var step := Step.Train(train, x, entering, c);
    NextWellFormed(s, step);
    NextOwned(s, step);
    if Alone(s, rid) && OthersUntouched(begin, s, rid) {
      MoveSparesOthers(s, train, x, entering, c, rid);
      OthersTransitive(begin, s, Next(s, step), rid);
      StillAlone(s, Next(s, step), rid);
    }
  }

  /**
   A full cycle in any yard a run can reach: the request is refused without a trace, or the route is
   set, used and given up whole, by a train that comes from outside or stands in the listed approach.
   A route that is alone is then as ready for the next train as it was for this one.
   */
  method EstablishAndDrive(st: Store, rid: Id, train: Id, now: int) returns (res: Result<Route>)
    requires WellFormed(st.Rows()) && Owned(st.Rows()) && MayStart(st.Rows(), rid)
    modifies st
    ensures res.Ok? <==> MaySet(old(st.Rows()), rid)
    ensures res.Ok? ==> FullyReleased(st.Rows(), rid)
    ensures res.Err? ==> st.Rows() == old(st.Rows())
    ensures ReadyForTrain(old(st.Rows()), rid) ==> ReadyForTrain(st.Rows(), rid)
  {
    ghost var s := st.Rows();
    var path := st.routes[rid].path;
    var first := FirstStage(st.Rows(), rid);
    EstablishGrantedIff(s, rid, now);
    EstablishCases(s, rid, now);
    res := RouteService.Establish(st, rid, now);
    if res.Ok? {
      ghost var t := st.Rows();
      SettingKeepsPace(s, rid, now);
      EstablishedIsFront(s, rid, now);
      DriveThrough(st, rid, path, train, first);
      if ReadyForTrain(s, rid) {
        ReadyAgain(s, t, st.Rows(), rid, now);
      }
    }
  }

  lemma SettingKeepsPace(s: State, rid: Id, now: int)
    requires WellFormed(s) && Owned(s) && MaySet(s, rid)
    ensures
      var t := After(s, EstablishTx(s, rid, now));
      WellFormed(t) && Owned(t) && IsSet(s, t, rid, now) && (Alone(s, rid) ==> Alone(t, rid))
  {
    var t := After(s, EstablishTx(s, rid, now));
    NextWellFormed(s, Step.Establish(rid, now));
    NextOwned(s, Step.Establish(rid, now));
    EstablishLeaves(s, rid, now);
    SettingSparesOthers(s, t, rid, now);
    if Alone(s, rid) {
      StillAlone(s, t, rid);
    }
  }

  /** Any number of trains, one after another: not one is refused, and nothing is left of any of them. */
  method ServeTrains(st: Store, rid: Id, trains: seq<Id>, now: int) returns (served: nat)
    requires ReadyForTrain(st.Rows(), rid)
    modifies st
    ensures served == |trains|
    ensures ReadyForTrain(st.Rows(), rid) && (trains != [] ==> FullyReleased(st.Rows(), rid))
  {
    served := 0;
    for i := 0 to |trains|
      invariant served == i
      invariant ReadyForTrain(st.Rows(), rid) && (i > 0 ==> FullyReleased(st.Rows(), rid))
    {
      var res := EstablishAndDrive(st, rid, trains[i], now);
      if res.Ok? {
        served := served + 1;
      }
    }
  }
}
