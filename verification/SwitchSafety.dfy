/**
 On every run a switch keeps its position while it is locked, while it shows no indication, and
 while its section is occupied, provided that section belongs to the switch's own station. A
 switch whose section belongs to another station may be reversed under a train.
 */
module SwitchSafety {
  import opened Model
  import opened RoutePlan
  import opened Interlocking
  import opened Database
  import opened Steps
  import opened Replay
  import opened Runs
  import opened Ownership

  predicate Pinned(s: State, w: Id) {
    w in s.switches && (s.switches[w].locked || !s.switches[w].indicated)
  }

  /** The row of the switch's section says occupied, whatever station the section belongs to. */
  predicate UnderTrain(s: State, w: Id) {
    w in s.switches && s.switches[w].section in s.sections && s.sections[s.switches[w].section].occupied
  }

  predicate AtHome(s: State, w: Id) {
    && w in s.switches && s.switches[w].section in s.sections
    && s.sections[s.switches[w].section].station == s.switches[w].station
  }

  /** An occupied section counts only if the switch's own station sees it. */
  predicate Frozen(s: State, w: Id) {
    Pinned(s, w) || (UnderTrain(s, w) && AtHome(s, w))
  }

  ghost predicate SamePositions(s: State, t: State) {
    forall w :: w in s.switches ==> w in t.switches && t.switches[w].position == s.switches[w].position
  }

  lemma {:induction false} CompleteDueKeepsPositions(s: State, now: int, order: seq<Id>)
    ensures SamePositions(s, CompleteDue(s, now, order).state)
  {
    if order != [] {
      CompleteDueKeepsPositions(s, now, order[..|order| - 1]);
    }
  }

  lemma {:induction false} ReconcileKeepsPositions(s: State, now: int, stations: seq<Id>, orders: seq<seq<Id>>)
    requires |orders| == |stations|
    ensures SamePositions(s, AllPasses(s, now, stations, orders).state)
  {
    if stations != [] {
      var n := |stations| - 1;
      ReconcileKeepsPositions(s, now, stations[..n], orders[..n]);
      CompleteDueKeepsPositions(Corrected(AllPasses(s, now, stations[..n], orders[..n]).state, stations[n]), now,
          orders[n]);
    }
  }

  lemma TrainKeepsPositions(s: State, train: Id, k: Id, entering: bool, c: Choice)
    requires Keyed(s.routes) && ChoiceFor(s, k, entering, c)
    ensures SamePositions(s, After(s, MoveTx(s, train, k, entering, c)))
  {
  }

  lemma IndicateKeepsPositions(s: State, w: Id, ok: bool, order: seq<Id>)
    requires w in s.switches ==> OrderFor(s, s.switches[w].station, order)
    ensures SamePositions(s, After(s, IndicateTx(s, w, ok, order)))
  {
    if w in s.switches {
      RefreshAllFixed(Indicated(s, w, ok), w, StationRoutes(s, s.switches[w].station), order);
    }
  }

  lemma ReleasesKeepPositions(s: State, rid: Id, now: int)
    ensures SamePositions(s, After(s, CancelTx(s, rid, now)))
    ensures SamePositions(s, After(s, CompleteTx(s, rid, now)))
    ensures SamePositions(s, After(s, FaultTx(s, rid, now)))
  {
  }

  /** Only establishment and reversal move a switch. */
  lemma OnlyMovesMove(s: State, step: Step)
    requires Keyed(s.routes) && Enabled(s, step) && !step.Establish? && !step.ReverseSwitch?
    ensures SamePositions(s, Next(s, step))
  {
    match step {
      case Define(r) =>
      case Cancel(rid, now) => ReleasesKeepPositions(s, rid, now);
      case Complete(rid, now) => ReleasesKeepPositions(s, rid, now);
      case FaultUnlock(rid, now) => ReleasesKeepPositions(s, rid, now);
      case Indicate(w, ok, order) => IndicateKeepsPositions(s, w, ok, order);
      case Train(train, k, entering, c) => TrainKeepsPositions(s, train, k, entering, c);
      case Reconcile(now, stations, orders) => ReconcileKeepsPositions(s, now, stations, orders);
    }
  }

  lemma EstablishMovesOnlyFree(s: State, rid: Id, now: int, w: Id)
    requires WellFormed(s) && Frozen(s, w)
    ensures After(s, EstablishTx(s, rid, now)).switches[w].position == s.switches[w].position
  {
    EstablishCases(s, rid, now);
    if EstablishCommits(s, rid) {
      var r := s.routes[rid];
      var y := LoadYard(s, r.station);
      MoveChecksPassed(y, Moves(y, r.requirements));
      var q, p := Requirement(w, Normal), Requirement(w, Reverse);
      assert q in Moves(y, r.requirements) ==> Movable(y, w);
      assert p in Moves(y, r.requirements) ==> Movable(y, w);
      assert w in y.switches ==> y.switches[w] == s.switches[w];
    }
  }

  lemma ReverseMovesOnlyFree(s: State, v: Id, w: Id)
    requires Frozen(s, w)
    ensures After(s, ReverseTx(s, v)).switches[w].position == s.switches[w].position
  {
  }

  lemma FrozenStepKeepsPosition(s: State, step: Step, w: Id)
    requires WellFormed(s) && Enabled(s, step) && Frozen(s, w)
    ensures w in Next(s, step).switches && Next(s, step).switches[w].position == s.switches[w].position
  {
    if step.Establish? {
      EstablishFixed(s, step.rid, step.now);
      EstablishMovesOnlyFree(s, step.rid, step.now, w);
    } else if step.ReverseSwitch? {
      ReverseMovesOnlyFree(s, step.switch, w);
    } else {
      OnlyMovesMove(s, step);
    }
  }

  /** Main result: through any stretch of a run a switch does not move that is always pinned, or under a train in
      its own station. */
  lemma {:induction false} FrozenStretch(states: seq<State>, steps: seq<Step>, w: Id)
    requires IsRun(states, steps) && WellFormed(states[0]) && w in states[0].switches
    requires forall i :: 0 <= i < |steps| ==> Pinned(states[i], w) || (UnderTrain(states[i], w) && AtHome(states[i], w))
    ensures w in states[|steps|].switches
    ensures states[|steps|].switches[w].position == states[0].switches[w].position
    ensures WellFormed(states[|steps|])
  {
    if steps != [] {
      var n := |steps| - 1;
      FrozenStretch(states[..n + 1], steps[..n], w);
      NextWellFormed(states[n], steps[n]);
      FrozenStepKeepsPosition(states[n], steps[n], w);
    }
  }

  // ----- A switch whose section belongs to another station -----

  /** Establishment answers "invalid" for such a switch rather than move it, wherever it is under a train. */
  lemma EstablishMovesNoneUnderTrain(s: State, rid: Id, now: int, w: Id)
    requires WellFormed(s) && UnderTrain(s, w)
    ensures After(s, EstablishTx(s, rid, now)).switches[w].position == s.switches[w].position
  {
    EstablishCases(s, rid, now);
    if EstablishCommits(s, rid) {
      var r := s.routes[rid];
      var y := LoadYard(s, r.station);
      CheckEstablishExact(y, r);
      assert Requirement(w, Normal) in r.requirements ==> SwitchReady(y, r.id, Requirement(w, Normal));
      assert Requirement(w, Reverse) in r.requirements ==> SwitchReady(y, r.id, Requirement(w, Reverse));
      MovesMeaning(y, r.requirements, Requirement(w, Normal));
      MovesMeaning(y, r.requirements, Requirement(w, Reverse));
    }
  }

  /** Exactly when a switch moves under a train: it is reversed by hand, unpinned, and its section is another
      station's. */
  lemma MovesUnderTrainIff(s: State, step: Step, w: Id)
    requires WellFormed(s) && Enabled(s, step) && UnderTrain(s, w)
    ensures w in Next(s, step).switches
    ensures Next(s, step).switches[w].position != s.switches[w].position <==>
      step == ReverseSwitch(w) && !AtHome(s, w) && !Pinned(s, w)
  {
    if step.Establish? {
      EstablishFixed(s, step.rid, step.now);
      EstablishMovesNoneUnderTrain(s, step.rid, step.now, w);
    } else if step.ReverseSwitch? {
    } else {
      OnlyMovesMove(s, step);
    }
  }
}
