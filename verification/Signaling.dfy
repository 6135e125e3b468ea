/**
 The aspect of a home signal (internal/signaling): red unless the guarded route is locked,
 its switches are set and indicated, and its sections other than the approach are clear.
 */
module Signaling {
  import opened Model

  predicate SwitchesSet(reqs: seq<Requirement>, switches: map<Id, Switch>) {
    forall q :: q in reqs ==> SwitchSet(q, switches)
  }

  predicate SwitchSet(q: Requirement, switches: map<Id, Switch>) {
    q.switch in switches && switches[q.switch].indicated && switches[q.switch].position == q.position
  }

  predicate PathClear(path: seq<Id>, approach: Id, sections: map<Id, Section>) {
    forall k :: k in path ==> k == approach || ClearSection(k, sections)
  }

  predicate ClearSection(k: Id, sections: map<Id, Section>) {
    k in sections && !sections[k].occupied
  }

  predicate Diverging(reqs: seq<Requirement>) {
    exists q :: q in reqs && q.position == Reverse
  }

  function Permissive(r: Route): Aspect {
    if Diverging(r.requirements) then DoubleYellow else Green
  }

  function ComputeAspect(r: Option<Route>, switches: map<Id, Switch>, sections: map<Id, Section>): Aspect {
    if r.None? || !r.value.state.IsLocked() then Red
    else if !SwitchesSet(r.value.requirements, switches) then Red
    else if !PathClear(r.value.path, r.value.approach, sections) then Red
    else Permissive(r.value)
  }

  function AspectForOpen(r: Route, switches: map<Id, Switch>): Aspect {
    if !SwitchesSet(r.requirements, switches) then Red else Permissive(r)
  }

  /** The scan over required switches shared by both aspect computations of the source. */
  method ScanSwitches(reqs: seq<Requirement>, switches: map<Id, Switch>) returns (allSet: bool, diverging: bool)
    ensures allSet == SwitchesSet(reqs, switches)
    ensures allSet ==> diverging == Diverging(reqs)
  {
    diverging := false;
    for i := 0 to |reqs|
      invariant SwitchesSet(reqs[..i], switches)
      invariant diverging == Diverging(reqs[..i])
    {
      var q := reqs[i];
      assert reqs[..i + 1] == reqs[..i] + [q];
      assert q in reqs;
      if q.switch !in switches || !switches[q.switch].indicated {
        return false, diverging;
      }
      if switches[q.switch].position != q.position {
        return false, diverging;
      }
      if q.position == Reverse {
        assert q in reqs[..i + 1];
        diverging := true;
      }
    }
    assert reqs[..|reqs|] == reqs;
    allSet := true;
  }

  method ScanAspect(r: Option<Route>, switches: map<Id, Switch>, sections: map<Id, Section>) returns (a: Aspect)
    ensures a == ComputeAspect(r, switches, sections)
  {
    if r.None? {
      return Red;
    }
    var route := r.value;
    if !route.state.IsLocked() {
      return Red;
    }
    var allSet, diverging := ScanSwitches(route.requirements, switches);
    if !allSet {
      return Red;
    }
    for i := 0 to |route.path|
      invariant forall m :: 0 <= m < i ==> route.path[m] == route.approach || ClearSection(route.path[m], sections)
    {
      var k := route.path[i];
      assert k in route.path;
      if k == route.approach {
        continue;
      }
      if k !in sections {
        return Red;
      }
      if sections[k].occupied {
        return Red;
      }
    }
    a := if diverging then DoubleYellow else Green;
  }

  method ScanAspectForOpen(r: Route, switches: map<Id, Switch>) returns (a: Aspect)
    ensures a == AspectForOpen(r, switches)
  {
    var allSet, diverging := ScanSwitches(r.requirements, switches);
    if !allSet {
      return Red;
    }
    a := if diverging then DoubleYellow else Green;
  }

  /** The rule in full: permissive on exactly this evidence, and double yellow exactly for a diverging route. */
  lemma AspectRule(r: Option<Route>, switches: map<Id, Switch>, sections: map<Id, Section>)
    ensures
      var a := ComputeAspect(r, switches, sections);
      && (a != Red <==>
            && r.Some?
            && (r.value.state == Established || r.value.state == ApproachLocked || r.value.state == Cancelling)
            && (forall q :: q in r.value.requirements ==>
                  q.switch in switches && switches[q.switch].indicated && switches[q.switch].position == q.position)
            && (forall k :: k in r.value.path && k != r.value.approach ==> k in sections && !sections[k].occupied))
      && (a == DoubleYellow <==> a != Red && exists w :: Requirement(w, Reverse) in r.value.requirements)
      && a != Yellow
  {
    if r.Some? && Diverging(r.value.requirements) {
      var q :| q in r.value.requirements && q.position == Reverse;
      assert Requirement(q.switch, Reverse) in r.value.requirements;
    }
  }

  /** The same for the opening, which looks at the switches only. */
  lemma OpeningRule(r: Route, switches: map<Id, Switch>)
    ensures
      var a := AspectForOpen(r, switches);
      && (a != Red <==> forall q :: q in r.requirements ==>
            q.switch in switches && switches[q.switch].indicated && switches[q.switch].position == q.position)
      && (a == DoubleYellow <==> a != Red && exists w :: Requirement(w, Reverse) in r.requirements)
      && a != Yellow
  {
    if Diverging(r.requirements) {
      var q :| q in r.requirements && q.position == Reverse;
      assert Requirement(q.switch, Reverse) in r.requirements;
    }
  }
}
