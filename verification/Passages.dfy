/**
 Whole passages as parts of runs. A train runs through an established route of any length, entering
 each section before leaving the one behind, while steps that leave the route's sections and entries
 alone go on around it. From the moment it enters section k the sections from k-1 on are locked and
 those further back are released; its last clear leaves the route unlocked with no lock held.
 */
module Passages {
  import opened Model
  import opened RoutePlan
  import opened Interlocking
  import opened Database
  import opened Steps
  import opened Runs
  import opened Ownership
  import opened Exclusion
  import opened OnceOccupied
  import opened Traversal

  // ----- Stages of a passage -----

  /** `Inside(k)`: in section `k` alone. `Across(k)`: in `k` and still in the one before. */
  datatype Stage = Approaching | Inside(index: nat) | Across(into: nat) | Gone

  function NextStage(n: nat, stage: Stage): Stage {
    match stage
    case Approaching => Inside(0)
    case Inside(k) => if k + 1 < n then Across(k + 1) else Gone
    case Across(k) => Inside(k)
    case Gone => Gone
  }

  predicate StageOf(path: seq<Id>, stage: Stage) {
    match stage
    case Inside(k) => k < |path|
    case Across(k) => 1 <= k < |path|
    case _ => path != []
  }

  /** The section the train moves on next. */
  function NextSection(path: seq<Id>, stage: Stage): Id
    requires StageOf(path, stage)
  {
    match stage
    case Approaching => path[0]
    case Inside(k) => if k + 1 < |path| then path[k + 1] else path[k]
    case Across(k) => path[k - 1]
    case Gone => NO_ID
  }

  /** Whether that move is an entry. */
  predicate EntersNext(path: seq<Id>, stage: Stage) {
    stage.Approaching? || (stage.Inside? && stage.index + 1 < |path|)
  }

  /** How many moves are left. */
  function MovesLeft(n: int, stage: Stage): int {
    match stage
    case Approaching => 2 * n
    case Inside(k) => 2 * (n - k) - 1
    case Across(k) => 2 * (n - k)
    case Gone => 0
  }

  function Reached(stage: Stage): int {
    match stage
    case Inside(k) => k
    case Across(k) => k
    case _ => -1
  }

  /** The route has this path and the train's front is as the stage says. */
  ghost predicate StandsAt(s: State, rid: Id, path: seq<Id>, stage: Stage) {
    && rid in s.routes && s.routes[rid].path == path && StageOf(path, stage)
    && match stage
       case Approaching => Front(s, rid, 0, -1, 0)
       case Inside(k) => Front(s, rid, k, k, HeldFrom(|path|, k))
       case Across(k) => Front(s, rid, k - 1, k, k - 1)
       case Gone => FullyReleased(s, rid)
  }

  /** A non-completing move carries the description of the front over to the next stage. */
  lemma StageAfter(s: State, rid: Id, path: seq<Id>, i: int, entering: bool, train: Id, c: Choice,
                   lo: int, hi: int, held: int, lo': int, held': int)
    requires rid in s.routes && s.routes[rid].path == path && Front(s, rid, lo, hi, held)
    requires 0 <= i < |path| && (if entering then i == hi + 1 else i <= hi)
    requires ChoiceFor(s, path[i], entering, c) && !RuleAt(s, rid, i, entering).complete
    requires
      AllShift(s.routes[rid], RuleAt(s, rid, i, entering).unlock, i, entering,
               lo, hi, held, lo', EnteredUpTo(hi, i, entering), held')
    ensures
      var t := After(s, MoveTx(s, train, path[i], entering, c));
      Front(t, rid, lo', EnteredUpTo(hi, i, entering), held') && t.routes[rid].path == path
  {
    FrontAfter(s, rid, i, entering, train, c, lo, hi, held, lo', held');
  }

  lemma EntersFirst(s: State, rid: Id, path: seq<Id>, train: Id, c: Choice)
    requires StandsAt(s, rid, path, Approaching) && ChoiceFor(s, path[0], true, c)
    ensures StandsAt(After(s, MoveTx(s, train, path[0], true, c)), rid, path, Inside(0))
  {
    RuleInputs(s, rid, 0, -1, 0, 0);
    StageAfter(s, rid, path, 0, true, train, c, 0, -1, 0, 0, 0);
  }

  lemma EntersAnother(s: State, rid: Id, path: seq<Id>, j: nat, k: nat, train: Id, x: Id, c: Choice)
    requires k == j + 1 < |path| && x == path[k] && StandsAt(s, rid, path, Inside(j)) && ChoiceFor(s, x, true, c)
    ensures StandsAt(After(s, MoveTx(s, train, x, true, c)), rid, path, Across(k))
  {
    var held := HeldFrom(|path|, j);
    RuleOnEnter(s, rid, j, k, held);
    EnterShifts(s.routes[rid], RuleAt(s, rid, k, true).unlock, j, k);
    StageAfter(s, rid, path, k, true, train, c, j, j, held, j, j);
  }

  lemma LeavesPrevious(s: State, rid: Id, path: seq<Id>, k: nat, train: Id, c: Choice)
    requires 1 <= k < |path| && StandsAt(s, rid, path, Across(k)) && ChoiceFor(s, path[k - 1], false, c)
    ensures StandsAt(After(s, MoveTx(s, train, path[k - 1], false, c)), rid, path, Inside(k))
  {
    RuleOnClear(s, rid, k, k - 1);
    ClearShifts(s.routes[rid], RuleAt(s, rid, k - 1, false).unlock, k);
    StageAfter(s, rid, path, k - 1, false, train, c, k - 1, k, k - 1, k, HeldFrom(|path|, k));
  }

  lemma LeavesLast(s: State, rid: Id, path: seq<Id>, k: nat, train: Id, x: Id, c: Choice)
    requires k + 1 == |path| && x == path[k] && StandsAt(s, rid, path, Inside(k)) && ChoiceFor(s, x, false, c)
    ensures StandsAt(After(s, MoveTx(s, train, x, false, c)), rid, path, Gone)
  {
    assert AtEnd(s, rid) && LastSection(s, rid) == path[k];
    ClearLast(s, rid, train, c);
  }

  lemma LeavesInside(s: State, rid: Id, path: seq<Id>, k: nat, train: Id, x: Id, entering: bool, c: Choice)
    requires k < |path| && x == NextSection(path, Inside(k)) && entering == EntersNext(path, Inside(k))
    requires StandsAt(s, rid, path, Inside(k)) && ChoiceFor(s, x, entering, c)
    ensures StandsAt(After(s, MoveTx(s, train, x, entering, c)), rid, path, NextStage(|path|, Inside(k)))
  {
    if k + 1 < |path| {
      EntersAnother(s, rid, path, k, k + 1, train, x, c);
    } else {
      LeavesLast(s, rid, path, k, train, x, c);
    }
  }

  /** The train's next move, on section `x`, takes it to the next stage. */
  lemma StageMoves(s: State, rid: Id, path: seq<Id>, stage: Stage, train: Id, x: Id, entering: bool, c: Choice)
    requires StandsAt(s, rid, path, stage) && stage != Gone
    requires x == NextSection(path, stage) && entering == EntersNext(path, stage)
    requires Keyed(s.routes) && ChoiceFor(s, x, entering, c)
    ensures StandsAt(After(s, MoveTx(s, train, x, entering, c)), rid, path, NextStage(|path|, stage))
  {
    match stage {
      case Approaching => EntersFirst(s, rid, path, train, c);
      case Inside(k) => LeavesInside(s, rid, path, k, train, x, entering, c);
      case Across(k) => LeavesPrevious(s, rid, path, k, train, c);
    }
  }

  // ----- The whole passage, as part of a run -----

  ghost predicate SameRow(s: State, t: State, rid: Id, k: Id) {
    && k in s.sections && k in t.sections
    && t.sections[k].occupied == s.sections[k].occupied
    && t.sections[k].locked == s.sections[k].locked && t.sections[k].holder == s.sections[k].holder
    && (k in OnceOf(t.once, rid) <==> k in OnceOf(s.once, rid))
  }

  /** A step beside the passage: it leaves the route locked, its sections alone and its entries to the train. */
  ghost predicate Spared(s: State, t: State, rid: Id, hi: int) {
    && rid in s.routes && IsLockedRoute(t, rid) && Undisturbed(t, rid, hi)
    && (forall i :: 0 <= i < |s.routes[rid].path| ==> SameRow(s, t, rid, s.routes[rid].path[i]))
  }

  /** A step is the train's next move or leaves the passage alone. */
  ghost predicate Advances(s: State, step: Step, t: State, rid: Id, path: seq<Id>, train: Id, a: Stage, b: Stage) {
    && a != Gone && StageOf(path, a)
    && ((b == NextStage(|path|, a) && step.Train? && step.train == train
         && step.section == NextSection(path, a) && step.entering == EntersNext(path, a))
        || (b == a && Spared(s, t, rid, Reached(a))))
  }

  /** `stages[i]` is how far the train has come in `states[i]`. */
  ghost predicate Passage(states: seq<State>, steps: seq<Step>, stages: seq<Stage>, rid: Id, path: seq<Id>, train: Id) {
    && IsRun(states, steps) && |stages| == |states|
    && (forall i :: 0 <= i < |steps| ==>
          Advances(states[i], steps[i], states[i + 1], rid, path, train, stages[i], stages[i + 1]))
  }

  lemma DefinitionKept(s: State, step: Step, rid: Id)
    requires Keyed(s.routes) && Enabled(s, step) && rid in s.routes
    ensures rid in Next(s, step).routes && s.routes[rid].SameDefinition(Next(s, step).routes[rid])
  {
    if !step.Define? {
      NextFixed(s, step);
    }
  }

  lemma SparedStands(s: State, step: Step, rid: Id, path: seq<Id>, stage: Stage)
    requires StandsAt(s, rid, path, stage) && stage != Gone && Enabled(s, step)
    requires Spared(s, Next(s, step), rid, Reached(stage))
    ensures StandsAt(Next(s, step), rid, path, stage)
  {
    DefinitionKept(s, step, rid);
    NextWellFormed(s, step);
    NextOwned(s, step);
    SparedStage(s, Next(s, step), rid, path, stage);
  }

  lemma SparedStage(s: State, t: State, rid: Id, path: seq<Id>, stage: Stage)
    requires StandsAt(s, rid, path, stage) && stage != Gone && Spared(s, t, rid, Reached(stage))
    requires WellFormed(t) && Owned(t) && s.routes[rid].SameDefinition(t.routes[rid])
    ensures StandsAt(t, rid, path, stage)
  {
    match stage {
      case Approaching => SparedFront(s, t, rid, 0, -1, 0);
      case Inside(k) => SparedFront(s, t, rid, k, k, HeldFrom(|path|, k));
      case Across(k) => SparedFront(s, t, rid, k - 1, k, k - 1);
    }
  }

  lemma SparedFront(s: State, t: State, rid: Id, lo: int, hi: int, held: int)
    requires Front(s, rid, lo, hi, held) && Spared(s, t, rid, hi) && WellFormed(t) && Owned(t)
    requires s.routes[rid].SameDefinition(t.routes[rid])
    ensures Front(t, rid, lo, hi, held)
  {
    forall i | 0 <= i < |t.routes[rid].path|
      ensures At(t, rid, i, lo, hi, held)
    {
      assert At(s, rid, i, lo, hi, held) && SameRow(s, t, rid, s.routes[rid].path[i]);
    }
  }

  lemma AdvanceStands(s: State, step: Step, rid: Id, path: seq<Id>, train: Id, a: Stage, b: Stage)
    requires StandsAt(s, rid, path, a) && Keyed(s.routes) && Enabled(s, step)
    requires Advances(s, step, Next(s, step), rid, path, train, a, b)
    ensures StandsAt(Next(s, step), rid, path, b)
  {
    if b == NextStage(|path|, a) && step.Train? && step.section == NextSection(path, a)
      && step.entering == EntersNext(path, a) {
      StageMoves(s, rid, path, a, step.train, step.section, step.entering, step.choice);
    } else {
      SparedStands(s, step, rid, path, a);
    }
  }

  lemma PassageStep(states: seq<State>, steps: seq<Step>, stages: seq<Stage>, rid: Id, path: seq<Id>, train: Id, j: nat)
    requires Passage(states, steps, stages, rid, path, train) && j < |steps|
    ensures Keyed(states[j].routes) && Enabled(states[j], steps[j]) && states[j + 1] == Next(states[j], steps[j])
    ensures Advances(states[j], steps[j], states[j + 1], rid, path, train, stages[j], stages[j + 1])
  {
  }

  /** Main result: throughout the passage the rows are as the stage says. */
  lemma {:induction false} PassageStands(states: seq<State>, steps: seq<Step>, stages: seq<Stage>,
                                         rid: Id, path: seq<Id>, train: Id, i: nat)
    requires Passage(states, steps, stages, rid, path, train) && StandsAt(states[0], rid, path, stages[0])
    requires i < |states|
    ensures StandsAt(states[i], rid, path, stages[i])
    decreases i
  {
    if i > 0 {
      var j := i - 1;
      PassageStands(states, steps, stages, rid, path, train, j);
      PassageStep(states, steps, stages, rid, path, train, j);
      AdvanceStands(states[j], steps[j], rid, path, train, stages[j], stages[j + 1]);
    }
  }

  /** From entering section `k` (at least 1) until leaving `k - 1`, exactly the sections from `k - 1` on, other
      than the approach, are locked. */
  lemma PassageHolds(states: seq<State>, steps: seq<Step>, stages: seq<Stage>,
                     rid: Id, path: seq<Id>, train: Id, i: nat, k: nat, j: nat)
    requires Passage(states, steps, stages, rid, path, train) && StandsAt(states[0], rid, path, stages[0])
    requires i < |states| && stages[i] == Across(k) && j < |path|
    ensures
      && rid in states[i].routes && path[j] in states[i].sections
      && if k - 1 <= j && path[j] != states[i].routes[rid].approach then SectionHeld(states[i].sections, path[j], rid)
         else !states[i].sections[path[j]].locked
  {
    PassageStands(states, steps, stages, rid, path, train, i);
    assert At(states[i], rid, j, k - 1, k, k - 1);
  }

  /** The last clear of a passage releases the route entirely. */
  lemma PassageEnds(states: seq<State>, steps: seq<Step>, stages: seq<Stage>, rid: Id, path: seq<Id>, train: Id)
    requires Passage(states, steps, stages, rid, path, train) && StandsAt(states[0], rid, path, stages[0])
    requires stages[|steps|] == Gone
    ensures FullyReleased(states[|steps|], rid)
  {
    PassageStands(states, steps, stages, rid, path, train, |steps|);
  }

  // ----- How a passage starts -----

  /** What the rows must look like for a route about to be established. */
  ghost predicate MayStart(s: State, rid: Id) {
    && rid in s.routes
    && var r := s.routes[rid];
       && (forall k :: k in r.path ==> k !in OnceOf(s.once, rid))
       && (forall q, a :: q in s.routes && q != rid && !IsLockedRoute(s, q) && ApproachAt(s, rid, q, a) ==>
             SharesOnlyUpTo(s, rid, q, a))
       && (r.approach in r.path && r.approach in s.sections && s.sections[r.approach].occupied ==> ListsApproach(r))
  }

  /** Where flags are exact, as on disciplined runs, only the order of shared sections remains to be asked for. */
  lemma ExactFlagsMayStart(s: State, rid: Id)
    requires WellFormed(s) && OnceExact(s) && EstablishCommits(s, rid)
    requires forall q, a :: q in s.routes && q != rid && !IsLockedRoute(s, q) && ApproachAt(s, rid, q, a) ==>
      forall j :: 0 <= j < |s.routes[rid].path| && s.routes[q].HasSection(s.routes[rid].path[j]) ==> j <= a
    requires
      var r := s.routes[rid];
      r.approach in r.path && r.approach in s.sections && s.sections[r.approach].occupied ==> ListsApproach(r)
    ensures MayStart(s, rid)
  {
    CheckEstablishExact(LoadYard(s, s.routes[rid].station), s.routes[rid]);
    assert OnceExactFor(s, rid) && !IsLockedRoute(s, rid);
    forall q, a | q in s.routes && q != rid && !IsLockedRoute(s, q) && ApproachAt(s, rid, q, a)
      ensures SharesOnlyUpTo(s, rid, q, a)
    {
      assert OnceExactFor(s, q);
    }
  }

  /** In the listed approach, if the train is already there; otherwise still outside. */
  function FirstStage(s: State, rid: Id): Stage
    requires rid in s.routes
  {
    var r := s.routes[rid];
    if ListsApproach(r) && r.approach in s.sections && s.sections[r.approach].occupied then Inside(0) else Approaching
  }

  /** A fresh establishment is the start of a passage. */
  lemma EstablishedIsFront(s: State, rid: Id, now: int)
    requires WellFormed(s) && Owned(s) && EstablishCommits(s, rid) && MayStart(s, rid)
    ensures StandsAt(After(s, EstablishTx(s, rid, now)), rid, s.routes[rid].path, FirstStage(s, rid))
  {
    var r := s.routes[rid];
    var t := After(s, EstablishTx(s, rid, now));
    EstablishCases(s, rid, now);
    EstablishedFixed(s, r, StationPlan(s, r), now);
    FixedKeepsWellFormed(s, t);
    EstablishKeepsOwned(s, rid, now);
    FreshIsUndisturbed(s, t, rid, Reached(FirstStage(s, rid)));
    FreshRows(s, rid, now);
  }

  lemma FreshIsUndisturbed(s: State, t: State, rid: Id, hi: int)
    requires WellFormed(s) && EstablishCommits(s, rid) && MayStart(s, rid) && Fixed(s, t) && -1 <= hi
    requires t.once == s.once && forall id :: id in s.routes && id != rid ==> t.routes[id] == s.routes[id]
    ensures Undisturbed(t, rid, hi)
  {
    forall q | q in t.routes && q != rid
      ensures ClearOf(t, rid, q, hi)
    {
      assert s.routes[rid].SameDefinition(t.routes[rid]);
      if IsLockedRoute(s, q) {
        NewRouteFitsIn(s, rid, q);
        assert !SharesSection(s.routes[rid], s.routes[q]);
      } else {
        forall a | hi < a && ApproachAt(t, rid, q, a)
          ensures SharesOnlyUpTo(t, rid, q, a)
        {
          assert ApproachAt(s, rid, q, a);
          SharesKept(s, t, rid, q, a, a);
        }
      }
    }
  }

  lemma FreshRow(s: State, rid: Id, t: State, k: Id)
    requires WellFormed(s) && Owned(s) && EstablishCommits(s, rid) && EstablishedRows(s, s.routes[rid], t)
    requires k in s.routes[rid].path
    ensures RowAt(t, rid, k, k == s.routes[rid].approach && s.sections[k].occupied, k != s.routes[rid].approach)
  {
    var r := s.routes[rid];
    CheckEstablishExact(LoadYard(s, r.station), r);
    assert SectionReady(LoadYard(s, r.station), r, k);
    assert SectionOwned(s, k);
  }

  lemma FreshRows(s: State, rid: Id, now: int)
    requires WellFormed(s) && Owned(s) && EstablishCommits(s, rid) && MayStart(s, rid)
    ensures
      var r := s.routes[rid];
      var t := EstablishedState(s, r, StationPlan(s, r), now);
      forall i :: 0 <= i < |r.path| ==> At(t, rid, i, 0, Reached(FirstStage(s, rid)), 0)
  {
    var r := s.routes[rid];
    var t := EstablishedState(s, r, StationPlan(s, r), now);
    EstablishRows(s, rid, now);
    forall i | 0 <= i < |r.path|
      ensures At(t, rid, i, 0, Reached(FirstStage(s, rid)), 0)
    {
      FreshRow(s, rid, t, r.path[i]);
    }
  }
}
