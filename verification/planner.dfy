/** The plan DAG (flowers/types.py) and the planner's validation of model-written steps (flowers/engine/planner.py). */
module Planner {
  import opened Types
  import opened Text
  import opened Mandate

  datatype StepKind = Generic | AwaitReplies | Monitor | Recurring
  datatype StepStatus = Pending | InProgress | Waiting | Done | Failed | Skipped

  /** `rung` is the step's place on the retry ladder. */
  datatype Step = Step(index: nat, text: string, kind: StepKind, deps: seq<nat>, status: StepStatus, rung: int)

  type Plan = seq<Step>

  /** What the model wrote for one step; a dependency it wrote that is no number is None. */
  datatype RawStep = Junk | Raw(text: string, kind: StepKind, deps: seq<Option<int>>, rung: int)

  const MAX_STEPS := 12

  // ------------------------------------------------------------------ what a plan is

  /** Every step sits at its own index and depends only on earlier ones, each once. */
  predicate WellFormed(plan: Plan) {
    forall i :: 0 <= i < |plan| ==>
      plan[i].index == i && NoRepeats(plan[i].deps) && forall d :: d in plan[i].deps ==> d < i
  }

  predicate IsReady(plan: Plan, i: nat)
    requires i < |plan|
  {
    && plan[i].status == Pending
    && forall d :: d in plan[i].deps ==> exists j :: 0 <= j < |plan| && plan[j].index == d && plan[j].status == Done
  }

  /** The ready steps, in plan order. */
  method ReadyIndices(plan: Plan) returns (ready: seq<nat>)
    ensures forall x :: x in ready <==> exists i :: 0 <= i < |plan| && IsReady(plan, i) && plan[i].index == x
    ensures ready == [] ==> forall j :: 0 <= j < |plan| ==> !IsReady(plan, j)
    ensures ready != [] ==> exists i :: 0 <= i < |plan| && IsReady(plan, i) && plan[i].index == ready[0]
                                        && forall j :: 0 <= j < i ==> !IsReady(plan, j)
  {
    var done := set s | s in plan && s.status == Done :: s.index;
    ready := [];
    for i := 0 to |plan|
      invariant forall x :: x in ready <==> exists k :: 0 <= k < i && IsReady(plan, k) && plan[k].index == x
      invariant ready == [] ==> forall j :: 0 <= j < i ==> !IsReady(plan, j)
      invariant ready != [] ==> exists k :: 0 <= k < i && IsReady(plan, k) && plan[k].index == ready[0]
                                            && forall j :: 0 <= j < k ==> !IsReady(plan, j)
    {
      assert IsReady(plan, i) <==> plan[i].status == Pending && forall d :: d in plan[i].deps ==> d in done;
      if plan[i].status == Pending && forall d :: d in plan[i].deps ==> d in done {
        ready := ready + [plan[i].index];
      }
    }
  }

  predicate IsComplete(plan: Plan) {
    plan != [] && forall s :: s in plan ==> s.status in {Done, Skipped}
  }

  /** Progress: a well-formed plan whose steps are all pending or done, not all done, has a ready step. */
  lemma SomeStepIsReady(plan: Plan) returns (i: nat)
    requires WellFormed(plan)
    requires forall s :: s in plan ==> s.status in {Pending, Done}
    requires exists s :: s in plan && s.status == Pending
    ensures i < |plan| && IsReady(plan, i)
  {
    i := 0;
    while plan[i].status != Pending
      invariant i < |plan| && forall j :: 0 <= j < i ==> plan[j].status == Done
      decreases |plan| - i
    {
      if i == |plan| - 1 {
        var s :| s in plan && s.status == Pending;
        var k :| 0 <= k < |plan| && plan[k] == s;
        assert false;
      }
      i := i + 1;
    }
    forall d | d in plan[i].deps ensures exists j :: 0 <= j < |plan| && plan[j].index == d && plan[j].status == Done {
      assert plan[d].index == d;
    }
  }

  // ------------------------------------------------------------------ validating what the model wrote

  predicate Usable(r: RawStep) {
    r.Raw? && Strip(r.text) != ""
  }

  /** Backward references only, each once, in the order written. */
  function BackwardDeps(written: seq<Option<int>>, index: nat): seq<nat> {
    if written == [] then []
    else
      var kept := BackwardDeps(written[..|written| - 1], index);
      var d := written[|written| - 1];
      if d.Some? && 0 <= d.value < index && d.value !in kept then kept + [d.value] else kept
  }

  function StepOf(r: RawStep, index: nat): Step
    requires r.Raw?
  {
    Step(index, Strip(r.text), r.kind, BackwardDeps(r.deps, index), Pending, r.rung)
  }

  /** The steps of a usable list, numbered on from `offset`. */
  function Parsed(raw: seq<RawStep>, offset: nat): Plan {
    if raw == [] then []
    else
      var steps := Parsed(raw[..|raw| - 1], offset);
      var r := raw[|raw| - 1];
      if Usable(r)
      then
        var index := offset + |steps|;
        steps + [StepOf(r, index)]
      else steps
  }

  function Capped(raw: seq<RawStep>): seq<RawStep> {
    if |raw| > MAX_STEPS then raw[..MAX_STEPS] else raw
  }

  method ParseSteps(raw: seq<RawStep>, offset: nat) returns (steps: Plan)
    ensures steps == Parsed(Capped(raw), offset)
  {
    steps := [];
    var capped := Capped(raw);
    for i := 0 to |capped|
      invariant steps == Parsed(capped[..i], offset)
    {
      assert capped[..i + 1][..i] == capped[..i];
      var r := capped[i];
      if r.Junk? { continue; }
      var text := Strip(r.text);
      if text == "" { continue; }
      var index := offset + |steps|;
      var deps: seq<nat> := [];
      for k := 0 to |r.deps|
        invariant deps == BackwardDeps(r.deps[..k], index)
      {
        assert r.deps[..k + 1][..k] == r.deps[..k];
        var d := r.deps[k];
        if d.Some? && 0 <= d.value < index && d.value !in deps {
          deps := deps + [d.value];
        }
      }
      assert r.deps[..|r.deps|] == r.deps;
      steps := steps + [Step(index, text, r.kind, deps, Pending, r.rung)];
    }
    assert capped[..|capped|] == capped;
  }

  /** The kept dependencies are exactly the written backward ones, without repeats. */
  lemma {:induction false} BackwardDepsMeaning(written: seq<Option<int>>, index: nat)
    ensures NoRepeats(BackwardDeps(written, index))
    ensures forall d: nat :: d in BackwardDeps(written, index) <==> d < index && Some(d as int) in written
  {
    if written != [] {
      var n := |written| - 1;
      BackwardDepsMeaning(written[..n], index);
      assert written == written[..n] + [written[n]];
    }
  }

  /** Parsed steps are new, pending, numbered on from the offset, and depend backward only. */
  lemma {:induction false} ParsedMeaning(raw: seq<RawStep>, offset: nat)
    ensures var steps := Parsed(raw, offset);
            && |steps| <= |raw|
            && forall i :: 0 <= i < |steps| ==>
                 && steps[i].index == offset + i && steps[i].status == Pending && steps[i].text != ""
                 && NoRepeats(steps[i].deps) && forall d :: d in steps[i].deps ==> d < offset + i
  {
    if raw != [] {
      ParsedMeaning(raw[..|raw| - 1], offset);
      var r := raw[|raw| - 1];
      if r.Raw? { BackwardDepsMeaning(r.deps, offset + |Parsed(raw[..|raw| - 1], offset)|); }
    }
  }

  /** The usable entries, in the order written. */
  function UsableOf(raw: seq<RawStep>): seq<RawStep> {
    if raw == [] then []
    else UsableOf(raw[..|raw| - 1]) + if Usable(raw[|raw| - 1]) then [raw[|raw| - 1]] else []
  }

  /** A step is the entry it was written as, with exactly those of its dependencies that point backward. */
  ghost predicate Reads(s: Step, r: RawStep, index: nat) {
    && r.Raw? && s.index == index && s.text == Strip(r.text) && s.kind == r.kind && s.rung == r.rung
    && forall d: nat :: d in s.deps <==> d < index && Some(d as int) in r.deps
  }

  /** Parsing drops the unusable entries and nothing else: one step for each usable one, in order. */
  lemma {:induction false} ParsedReadsTheEntries(raw: seq<RawStep>, offset: nat)
    ensures var steps, usable := Parsed(raw, offset), UsableOf(raw);
            |steps| == |usable| && forall i :: 0 <= i < |steps| ==> Reads(steps[i], usable[i], offset + i)
  {
    if raw != [] {
      ParsedReadsTheEntries(raw[..|raw| - 1], offset);
      var r, before, front := raw[|raw| - 1], Parsed(raw[..|raw| - 1], offset), UsableOf(raw[..|raw| - 1]);
      if Usable(r) {
        var s := StepOf(r, offset + |before|);
        ReadsItsEntry(r, offset + |before|);
        assert Parsed(raw, offset) == before + [s] && UsableOf(raw) == front + [r];
      } else {
        assert Parsed(raw, offset) == before && UsableOf(raw) == front + [];
      }
    }
  }

  lemma ReadsItsEntry(r: RawStep, index: nat)
    requires r.Raw?
    ensures Reads(StepOf(r, index), r, index)
  {
    BackwardDepsMeaning(r.deps, index);
  }

  /** Every usable entry is among them, and only those. */
  lemma {:induction false} UsableOfMeaning(raw: seq<RawStep>)
    ensures forall r :: r in UsableOf(raw) <==> r in raw && Usable(r)
  {
    if raw != [] {
      UsableOfMeaning(raw[..|raw| - 1]);
      assert raw == raw[..|raw| - 1] + [raw[|raw| - 1]];
    }
  }

  lemma {:induction false} ParsedRungs(raw: seq<RawStep>, offset: nat)
    requires forall r :: r in raw && r.Raw? ==> r.rung >= 0
    ensures forall s :: s in Parsed(raw, offset) ==> s.rung >= 0
  {
    if raw != [] {
      assert raw[|raw| - 1] in raw;
      ParsedRungs(raw[..|raw| - 1], offset);
    }
  }

  /** The finished steps, re-indexed from 0; their dependencies are dropped. */
  function KeptDone(steps: Plan): Plan {
    seq(|steps|, i requires 0 <= i < |steps| => Step(i, steps[i].text, steps[i].kind, [], Done, steps[i].rung))
  }

  function Replanned(done: Plan, raw: seq<RawStep>): Plan {
    KeptDone(done) + Parsed(Capped(raw), |done|)
  }

  /** A replan is a well-formed plan: the finished work is its prefix, and at most twelve new pending steps
      follow. */
  lemma ReplanIsWellFormed(done: Plan, raw: seq<RawStep>)
    ensures var plan := Replanned(done, raw);
            && WellFormed(plan)
            && |done| <= |plan| <= |done| + MAX_STEPS
            && (forall i :: 0 <= i < |done| ==> plan[i].status == Done && plan[i].text == done[i].text)
            && (forall i :: |done| <= i < |plan| ==> plan[i].status == Pending)
  {
    ParsedMeaning(Capped(raw), |done|);
    var plan, added := Replanned(done, raw), Parsed(Capped(raw), |done|);
    forall i | 0 <= i < |plan|
      ensures plan[i].index == i && NoRepeats(plan[i].deps) && forall d :: d in plan[i].deps ==> d < i
    {
      if i >= |done| { assert plan[i] == added[i - |done|]; }
    }
  }

  /** So is a first plan; an unusable answer becomes the goal as a single step. */
  function FirstPlan(raw: seq<RawStep>, goal: string): Plan {
    var steps := Parsed(Capped(raw), 0);
    if steps != [] then steps else [Step(0, goal, Generic, [], Pending, 0)]
  }

  /** The goal itself becomes the plan exactly when none of the first twelve entries is usable. */
  lemma FirstPlanFallsBackIff(raw: seq<RawStep>, goal: string)
    ensures var first := Capped(raw);
            && |first| == Min(|raw|, 12) && first == raw[..|first|]
            && ((forall r :: r in first ==> !Usable(r)) ==>
                  FirstPlan(raw, goal) == [Step(0, goal, Generic, [], Pending, 0)])
            && ((exists r :: r in first && Usable(r)) ==> FirstPlan(raw, goal) == Parsed(first, 0))
  {
    UsableOfMeaning(Capped(raw));
    ParsedReadsTheEntries(Capped(raw), 0);
    var usable := UsableOf(Capped(raw));
    if usable != [] { assert usable[0] in usable; }
    if r :| r in Capped(raw) && Usable(r) { assert r in usable; }
  }

  lemma FirstPlanIsWellFormed(raw: seq<RawStep>, goal: string)
    ensures var plan := FirstPlan(raw, goal);
            WellFormed(plan) && 1 <= |plan| <= MAX_STEPS && forall s :: s in plan ==> s.status == Pending
  {
    ParsedMeaning(Capped(raw), 0);
  }
}
