/** The relentless drive (flowers/engine/operator.py, _drive to _replan_remaining): run ready steps, climb a
    step's ladder, re-architect the plan, and stop. What the executor, the planner and the clock answer is
    arbitrary; every theorem holds for all of it. */
module DriveModel {
  import Types
  import opened Planner

  const LADDER_HARD_CAP := 12
  const MAX_REPLANS := 8

  /** How one executor run ends, after the gate. */
  datatype Outcome = Accepted | Refused | Parked | Escalates(failed: bool)

  datatype Settled = Advanced | WasParked | WasEscalated

  datatype DriveEnd = AllDone | ParkedOrEscalated | NothingReady

  /** Everything a drive cannot decide itself: the outcome of its n-th executor run, the planner's n-th answer,
      and whether budget and deadline still allow trying at the n-th check. */
  datatype Answers = Answers(outcome: nat -> Outcome, replan: nat -> seq<RawStep>, headroom: nat -> bool)

  // ------------------------------------------------------------------ the potential

  /** Executor runs a step can still take on its ladder. */
  function Tries(s: Step): nat {
    if s.status == Done then 0 else if s.rung >= LADDER_HARD_CAP then 1 else LADDER_HARD_CAP + 1 - s.rung
  }

  function AllTries(plan: Plan): nat {
    if plan == [] then 0 else AllTries(plan[..|plan| - 1]) + Tries(plan[|plan| - 1])
  }

  /** An upper bound on the executor runs still to come. */
  function Potential(plan: Plan, replans: nat): int {
    (MAX_REPLANS - replans) * MAX_STEPS * (LADDER_HARD_CAP + 1) + AllTries(plan)
  }

  lemma {:induction false} UpdateTries(plan: Plan, i: nat, s: Step)
    requires i < |plan|
    ensures AllTries(plan[i := s]) == AllTries(plan) - Tries(plan[i]) + Tries(s)
  {
    var n := |plan| - 1;
    if i == n {
      assert plan[i := s][..n] == plan[..n];
    } else {
      UpdateTries(plan[..n], i, s);
      assert plan[i := s][..n] == plan[..n][i := s];
    }
  }

  lemma {:induction false} TriesOfMember(plan: Plan, i: nat)
    requires i < |plan|
    ensures AllTries(plan) >= Tries(plan[i])
  {
    if i < |plan| - 1 { TriesOfMember(plan[..|plan| - 1], i); }
  }

  lemma {:induction false} TriesOfConcat(a: Plan, b: Plan)
    ensures AllTries(a + b) == AllTries(a) + AllTries(b)
  {
    if b == [] {
      assert a + b == a;
    } else {
      TriesOfConcat(a, b[..|b| - 1]);
      assert (a + b)[..|a + b| - 1] == a + b[..|b| - 1];
    }
  }

  predicate FromTheBottom(plan: Plan) {
    forall s :: s in plan && s.status != Done ==> s.rung >= 0
  }

  lemma {:induction false} TriesBounded(plan: Plan)
    requires FromTheBottom(plan)
    ensures AllTries(plan) <= OpenSteps(plan) * (LADDER_HARD_CAP + 1)
  {
    if plan != [] {
      assert plan[|plan| - 1] in plan;
      TriesBounded(plan[..|plan| - 1]);
    }
  }

  lemma {:induction false} OpenAtMostAll(plan: Plan)
    ensures OpenSteps(plan) <= |plan|
  {
    if plan != [] { OpenAtMostAll(plan[..|plan| - 1]); }
  }

  lemma {:induction false} DoneCostsNothing(plan: Plan)
    requires forall s :: s in plan ==> s.status == Done
    ensures AllTries(plan) == 0
  {
    if plan != [] {
      assert plan[|plan| - 1] in plan;
      DoneCostsNothing(plan[..|plan| - 1]);
    }
  }

  /** A new route costs at most what one spent replan frees. */
  lemma ReplanCost(done: Plan, raw: seq<RawStep>)
    requires forall r :: r in raw && r.Raw? ==> r.rung >= 0
    ensures AllTries(Replanned(done, raw)) <= MAX_STEPS * (LADDER_HARD_CAP + 1)
    ensures FromTheBottom(Replanned(done, raw))
  {
    var added := Parsed(Capped(raw), |done|);
    ParsedMeaning(Capped(raw), |done|);
    ParsedRungs(Capped(raw), |done|);
    TriesOfConcat(KeptDone(done), added);
    DoneCostsNothing(KeptDone(done));
    TriesBounded(added);
    OpenAtMostAll(added);
  }

  function OpenSteps(plan: Plan): nat {
    if plan == [] then 0 else OpenSteps(plan[..|plan| - 1]) + if plan[|plan| - 1].status == Done then 0 else 1
  }

  lemma {:induction false} UpdateOpen(plan: Plan, i: nat, s: Step)
    requires i < |plan|
    ensures OpenSteps(plan[i := s]) == OpenSteps(plan) - (if plan[i].status == Done then 0 else 1)
                                       + (if s.status == Done then 0 else 1)
  {
    var n := |plan| - 1;
    if i == n {
      assert plan[i := s][..n] == plan[..n];
    } else {
      UpdateOpen(plan[..n], i, s);
      assert plan[i := s][..n] == plan[..n][i := s];
    }
  }

  /** The finished steps, in plan order. */
  function Finished(plan: Plan): Plan {
    if plan == [] then []
    else Finished(plan[..|plan| - 1]) + if plan[|plan| - 1].status == Done then [plan[|plan| - 1]] else []
  }

  lemma {:induction false} UpdateFinished(plan: Plan, i: nat, s: Step)
    requires i < |plan| && plan[i].status != Done && s.status != Done
    ensures Finished(plan[i := s]) == Finished(plan)
  {
    var n := |plan| - 1;
    if i == n {
      assert plan[i := s][..n] == plan[..n];
    } else {
      UpdateFinished(plan[..n], i, s);
      assert plan[i := s][..n] == plan[..n][i := s];
    }
  }

  lemma {:induction false} FinishedPrefix(plan: Plan, n: nat)
    requires n <= |plan|
    requires forall j :: 0 <= j < |plan| ==> (plan[j].status == Done <==> j < n)
    ensures Finished(plan) == plan[..n]
  {
    if plan != [] {
      var m := |plan| - 1;
      FinishedPrefix(plan[..m], if n > m then m else n);
      if n > m { assert plan[..n] == plan[..m] + [plan[m]]; } else { assert plan[..m][..n] == plan[..n]; }
    }
  }

  // ------------------------------------------------------------------ what a started step may rely on

  predicate DepsDone(plan: Plan, i: nat)
    requires WellFormed(plan) && i < |plan|
  {
    forall d :: d in plan[i].deps ==> plan[d].status == Done
  }

  /** One executor run: the step it ran, in the plan of the moment. */
  datatype Started = Started(plan: Plan, step: nat)

  predicate StartedWell(log: seq<Started>) {
    forall e :: e in log ==> WellFormed(e.plan) && e.step < |e.plan| && DepsDone(e.plan, e.step)
  }

  // ------------------------------------------------------------------ what the answers make of a step

  /** A new route can still be had. */
  predicate Replannable(a: Answers, plan: Plan, replans: nat) {
    replans < MAX_REPLANS && |Replanned(Finished(plan), a.replan(replans))| > |Finished(plan)|
  }

  /** Where a step ends when nothing runs out and `last` is its last run's outcome. */
  predicate EndsWith(a: Answers, plan: Plan, replans: nat, i: nat, last: Outcome, end: Settled, later: Plan,
                     laterReplans: nat)
    requires i < |plan|
  {
    match last
    case Accepted =>
      end == Advanced && later == plan[i := plan[i].(status := Done, rung := 0)] && laterReplans == replans
    case Refused =>
      if Replannable(a, plan, replans)
      then end == Advanced && later == Replanned(Finished(plan), a.replan(replans)) && laterReplans == replans + 1
      else end == WasEscalated
    case _ => end != Advanced
  }

  /** A step's rung and progress do not change where it ends. */
  lemma EndsAlike(a: Answers, plan: Plan, replans: nat, i: nat, status: StepStatus, rung: int, last: Outcome,
                  end: Settled, later: Plan, laterReplans: nat)
    requires i < |plan| && plan[i].status != Done && status != Done
    ensures EndsWith(a, plan[i := plan[i].(status := status, rung := rung)], replans, i, last, end, later, laterReplans)
            <==> EndsWith(a, plan, replans, i, last, end, later, laterReplans)
  {
    var s := plan[i].(status := status, rung := rung);
    UpdateFinished(plan, i, s);
    assert plan[i := s][i := s.(status := Done, rung := 0)] == plan[i := plan[i].(status := Done, rung := 0)];
  }

  /** A plan of a single step that is yet to run. */
  predicate OneChore(plan: Plan) {
    |plan| == 1 && plan[0].kind == Generic && plan[0].status == Pending
  }

  ghost predicate Unhurried(a: Answers) {
    forall n :: a.headroom(n)
  }

  predicate RefusedFor(a: Answers, from: nat, n: nat) {
    forall k :: from <= k < from + n ==> a.outcome(k) == Refused
  }

  /** Run number `k` of a step decides it: those before were refused, and it was not, or the ladder ends with it. */
  predicate Decides(a: Answers, plan: Plan, runs: nat, i: nat, k: nat)
    requires i < |plan|
  {
    k < Tries(plan[i]) && RefusedFor(a, runs, k) && (a.outcome(runs + k) != Refused || k == Tries(plan[i]) - 1)
  }

  /** A step that was run, up its ladder, from `runs` on: the deciding run is the last, and it says where it ends. */
  ghost predicate RunDecides(a: Answers, plan: Plan, replans: nat, runs: nat, i: nat, end: Settled, later: Plan,
                             laterReplans: nat, laterRuns: nat)
    requires i < |plan|
  {
    forall k: nat :: Decides(a, plan, runs, i, k) ==>
      laterRuns == runs + k + 1 && EndsWith(a, plan, replans, i, a.outcome(runs + k), end, later, laterReplans)
  }

  /** One rung further up, the same run decides. */
  lemma DecidesFromBelow(a: Answers, plan: Plan, replans: nat, runs: nat, i: nat, end: Settled, later: Plan,
                         laterReplans: nat, laterRuns: nat)
    requires i < |plan| && plan[i].status == InProgress && plan[i].rung < LADDER_HARD_CAP && a.outcome(runs) == Refused
    requires var up := plan[i := plan[i].(status := Pending, rung := plan[i].rung + 1)];
             RunDecides(a, up, replans, runs + 1, i, end, later, laterReplans, laterRuns)
    ensures RunDecides(a, plan, replans, runs, i, end, later, laterReplans, laterRuns)
  {
    var up := plan[i := plan[i].(status := Pending, rung := plan[i].rung + 1)];
    forall k: nat | Decides(a, plan, runs, i, k)
      ensures laterRuns == runs + k + 1 && EndsWith(a, plan, replans, i, a.outcome(runs + k), end, later, laterReplans)
    {
      assert k > 0 && Decides(a, up, runs + 1, i, k - 1);
      EndsAlike(a, plan, replans, i, Pending, plan[i].rung + 1, a.outcome(runs + k), end, later, laterReplans);
    }
  }

  /** Starting a step does not change what decides it. */
  lemma DecidesAlike(a: Answers, plan: Plan, replans: nat, runs: nat, i: nat, end: Settled, later: Plan,
                     laterReplans: nat, laterRuns: nat)
    requires i < |plan| && plan[i].status == Pending
    requires RunDecides(a, plan[i := plan[i].(status := InProgress)], replans, runs, i, end, later, laterReplans,
                        laterRuns)
    ensures RunDecides(a, plan, replans, runs, i, end, later, laterReplans, laterRuns)
  {
    var started := plan[i := plan[i].(status := InProgress)];
    forall k: nat | Decides(a, plan, runs, i, k)
      ensures laterRuns == runs + k + 1 && EndsWith(a, plan, replans, i, a.outcome(runs + k), end, later, laterReplans)
    {
      assert Decides(a, started, runs, i, k);
      assert started[i] == plan[i].(status := InProgress, rung := plan[i].rung);
      EndsAlike(a, plan, replans, i, InProgress, plan[i].rung, a.outcome(runs + k), end, later, laterReplans);
    }
  }

  /** What running a step from `runs` on comes to: an advance spends a replan or finishes a step, every run is paid for,
      nothing is set waiting, and the deciding run decides. */
  ghost predicate StepLeads(a: Answers, plan: Plan, replans: nat, runs: nat, i: nat, end: Settled, later: Plan,
                            laterReplans: nat, laterRuns: nat)
    requires i < |plan|
  {
    && laterReplans >= replans && laterRuns > runs && NoNewWaits(plan, later)
    && (end == Advanced ==> Forward(plan, replans, later, laterReplans))
    && (Grounded(a, plan) ==>
          Grounded(a, later) && Paid(plan, replans, runs, later, laterReplans, laterRuns, end))
    && (Unhurried(a) ==> RunDecides(a, plan, replans, runs, i, end, later, laterReplans, laterRuns))
    && (a.outcome(runs) == Accepted ==>
          laterRuns == runs + 1 && EndsWith(a, plan, replans, i, Accepted, end, later, laterReplans))
  }

  /** The same seen from one rung below, whose run was refused. */
  lemma LeadsFromBelow(a: Answers, plan: Plan, replans: nat, runs: nat, i: nat, end: Settled, later: Plan,
                       laterReplans: nat, laterRuns: nat)
    requires i < |plan| && plan[i].status == InProgress && plan[i].rung < LADDER_HARD_CAP && a.outcome(runs) == Refused
    requires var up := plan[i := plan[i].(status := Pending, rung := plan[i].rung + 1)];
             StepLeads(a, up, replans, runs + 1, i, end, later, laterReplans, laterRuns)
    ensures StepLeads(a, plan, replans, runs, i, end, later, laterReplans, laterRuns)
  {
    var s := plan[i].(status := Pending, rung := plan[i].rung + 1);
    UpdateTries(plan, i, s);
    UpdateOpen(plan, i, s);
    assert plan[i] in plan;
    assert forall x :: x in plan[i := s] ==> x in plan || x == s;
    if Unhurried(a) { DecidesFromBelow(a, plan, replans, runs, i, end, later, laterReplans, laterRuns); }
  }

  /** Seen from before it was started. */
  lemma LeadsFromStart(a: Answers, plan: Plan, replans: nat, runs: nat, i: nat, end: Settled, later: Plan,
                       laterReplans: nat, laterRuns: nat)
    requires i < |plan| && plan[i].status == Pending
    requires StepLeads(a, plan[i := plan[i].(status := InProgress)], replans, runs, i, end, later, laterReplans,
                       laterRuns)
    ensures StepLeads(a, plan, replans, runs, i, end, later, laterReplans, laterRuns)
  {
    var s := plan[i].(status := InProgress);
    UpdateTries(plan, i, s);
    UpdateOpen(plan, i, s);
    assert plan[i] in plan;
    assert forall x :: x in plan[i := s] ==> x in plan || x == s;
    if Unhurried(a) { DecidesAlike(a, plan, replans, runs, i, end, later, laterReplans, laterRuns); }
  }

  /** At the top of the ladder the refused run was the last. */
  lemma LeadsFromTheTop(a: Answers, plan: Plan, replans: nat, runs: nat, i: nat, end: Settled, later: Plan,
                        laterReplans: nat)
    requires i < |plan| && plan[i].status == InProgress && a.outcome(runs) == Refused
    requires replans <= laterReplans <= MAX_REPLANS
    requires end in {Advanced, WasEscalated} && (end == Advanced ==> laterReplans > replans)
    requires NoNewWaits(plan, later)
    requires Grounded(a, plan) ==> Grounded(a, later)
    requires Grounded(a, plan) && end == Advanced ==>
      Potential(later, laterReplans) <= Potential(plan, replans) - AllTries(plan)
    requires Unhurried(a) ==>
      plan[i].rung >= LADDER_HARD_CAP && EndsWith(a, plan, replans, i, Refused, end, later, laterReplans)
    ensures StepLeads(a, plan, replans, runs, i, end, later, laterReplans, runs + 1)
  {
    TriesOfMember(plan, i);
    PotentialIsNatural(plan, replans);
  }

  /** A run that was not refused decided. */
  lemma LeadsAtOnce(a: Answers, plan: Plan, replans: nat, runs: nat, i: nat, end: Settled, later: Plan)
    requires i < |plan| && plan[i].status == InProgress && a.outcome(runs) != Refused && replans <= MAX_REPLANS
    requires end == if a.outcome(runs) == Accepted then Advanced
                    else if a.outcome(runs) == Parked then WasParked else WasEscalated
    requires AllTries(later) <= AllTries(plan) && NoNewWaits(plan, later) && (Grounded(a, plan) ==> Grounded(a, later))
    requires end == Advanced ==>
      && later == plan[i := plan[i].(status := Done, rung := 0)]
      && OpenSteps(later) < OpenSteps(plan) && AllTries(later) == AllTries(plan) - Tries(plan[i])
    ensures StepLeads(a, plan, replans, runs, i, end, later, replans, runs + 1)
  {
    TriesOfMember(plan, i);
  }

  /** Nobody set a step waiting. */
  predicate NoNewWaits(was: Plan, now: Plan) {
    forall s :: s in now && s.status == Waiting ==> s in was
  }

  /** No model-written step starts below the ladder's first rung. */
  ghost predicate Grounded(a: Answers, plan: Plan) {
    FromTheBottom(plan) && forall n, r :: r in a.replan(n) && r.Raw? ==> r.rung >= 0
  }

  /** The worst case: nothing is ever accepted and nothing ever runs out. */
  ghost predicate AlwaysRefused(a: Answers) {
    Unhurried(a) && forall n :: a.outcome(n) == Refused
  }

  /** Step `i` is the one to run next. */
  predicate IsFirstReady(plan: Plan, i: nat) {
    i < |plan| && IsReady(plan, i) && forall j :: 0 <= j < i ==> !IsReady(plan, j)
  }

  /** What a turn does: with nothing ready, nothing; a first ready step that waits on time is set waiting; a generic one
      is run, until a run decides it. */
  ghost predicate TurnRuns(a: Answers, plan: Plan, replans: nat, runs: nat, goesOn: bool, later: Plan,
                           laterReplans: nat, laterRuns: nat)
  {
    && ((forall j :: 0 <= j < |plan| ==> !IsReady(plan, j)) ==>
          !goesOn && later == plan && laterReplans == replans && laterRuns == runs)
    && forall i: nat :: IsFirstReady(plan, i) ==>
         if plan[i].kind != Generic
         then
           && !goesOn && later == plan[i := plan[i].(status := Waiting)]
           && laterReplans == replans && laterRuns == runs
         else
           && laterRuns > runs
           && (a.outcome(runs) == Accepted ==>
                 goesOn && laterRuns == runs + 1 && laterReplans == replans && later == Finishing(plan, i))
           && (Unhurried(a) ==> forall k: nat :: Decides(a, plan, runs, i, k) && a.outcome(runs + k) == Accepted ==>
                 goesOn && laterRuns == runs + k + 1 && laterReplans == replans && later == Finishing(plan, i))
  }

  function Finishing(plan: Plan, i: nat): Plan
    requires i < |plan|
  {
    plan[i := plan[i].(status := Done, rung := 0)]
  }

  /** And what it is worth: a turn that goes on is a step forward and paid for, one that does not says why, and only a
      step that waits on time is ever set waiting. */
  ghost predicate TurnLeads(a: Answers, plan: Plan, replans: nat, runs: nat, end: Types.Option<DriveEnd>, later: Plan,
                            laterReplans: nat, laterRuns: nat)
  {
    && laterReplans >= replans && laterRuns >= runs
    && TurnRuns(a, plan, replans, runs, end.None?, later, laterReplans, laterRuns)
    && (end.None? ==> Forward(plan, replans, later, laterReplans))
    && (end == Types.Some(AllDone) ==> IsComplete(later))
    && (end == Types.Some(NothingReady) && later != [] ==>
          exists s :: s in later && s.status != Pending && s.status != Done)
    && (end.Some? && (forall j :: 0 <= j < |plan| ==> !IsReady(plan, j)) ==>
          end.value == if IsComplete(plan) then AllDone else NothingReady)
    && (Grounded(a, plan) && end.Some? ==> laterRuns - runs <= Potential(plan, replans))
    && (Grounded(a, plan) && end.None? ==>
          Grounded(a, later) && laterRuns - runs + Potential(later, laterReplans) <= Potential(plan, replans))
    && (forall s :: s in later && s.status == Waiting ==> s in plan || s.kind != Generic)
  }

  // ------------------------------------------------------------------ the drive

  class Driver {
    const answers: Answers
    var plan: Plan
    var replans: nat
    var runs: nat
    var checks: nat
    ghost var log: seq<Started>

    constructor (answers: Answers, plan: Plan, replans: nat)
      ensures this.answers == answers && this.plan == plan && this.replans == replans
      ensures runs == 0 && checks == 0 && log == []
    {
      this.answers, this.plan, this.replans := answers, plan, replans;
      runs, checks, log := 0, 0, [];
    }

    ghost predicate Valid()
      reads this
    {
      WellFormed(plan) && StartedWell(log) && |log| == runs && replans <= MAX_REPLANS
    }

    method HasHeadroom() returns (ok: bool)
      modifies this`checks
      ensures ok == answers.headroom(old(checks)) && checks == old(checks) + 1
    {
      ok := answers.headroom(checks);
      checks := checks + 1;
    }

    method SetStep(i: nat, status: StepStatus, rung: int)
      requires Valid() && i < |plan|
      modifies this`plan
      ensures Valid() && plan == old(plan)[i := old(plan)[i].(status := status, rung := rung)]
      ensures AllTries(plan) == AllTries(old(plan)) - Tries(old(plan)[i]) + Tries(plan[i])
      ensures OpenSteps(plan) == OpenSteps(old(plan)) - (if old(plan)[i].status == Done then 0 else 1)
                                 + (if status == Done then 0 else 1)
      ensures status != Waiting ==> NoNewWaits(old(plan), plan)
    {
      UpdateTries(plan, i, plan[i].(status := status, rung := rung));
      UpdateOpen(plan, i, plan[i].(status := status, rung := rung));
      plan := plan[i := plan[i].(status := status, rung := rung)];
    }

    /** One executor run of a step. */
    method StartRun(i: nat) returns (outcome: Outcome)
      requires Valid() && i < |plan| && DepsDone(plan, i) && plan[i].status == Pending
      modifies this`plan, this`log, this`runs
      ensures Valid() && plan == old(plan)[i := old(plan)[i].(status := InProgress)]
      ensures runs == old(runs) + 1 && outcome == answers.outcome(old(runs))
      ensures AllTries(plan) == AllTries(old(plan)) && OpenSteps(plan) == OpenSteps(old(plan))
      ensures Grounded(answers, old(plan)) ==> Grounded(answers, plan)
      ensures NoNewWaits(old(plan), plan)
    {
      SetStep(i, InProgress, plan[i].rung);
      log := log + [Started(plan, i)];
      outcome := answers.outcome(runs);
      runs := runs + 1;
    }

    /** Run one step, up its ladder if it keeps being refused. */
    method RunGenericStep(i: nat) returns (end: Settled)
      requires Valid() && i < |plan| && DepsDone(plan, i) && plan[i].status == Pending
      modifies this
      ensures Valid()
      ensures StepLeads(answers, old(plan), old(replans), old(runs), i, end, plan, replans, runs)
      decreases if plan[i].rung < LADDER_HARD_CAP then LADDER_HARD_CAP - plan[i].rung else 0, 1
    {
      var outcome := StartRun(i);
      ghost var started := plan;
      if outcome == Refused {
        end := ClimbLadder(i);
      } else {
        end := Conclude(i, outcome);
        LeadsAtOnce(answers, started, replans, old(runs), i, end, plan);
      }
      LeadsFromStart(answers, old(plan), old(replans), old(runs), i, end, plan, replans, runs);
    }

    /** A run that was not refused ends its step, parks it or hands it to the owner. */
    method Conclude(i: nat, outcome: Outcome) returns (end: Settled)
      requires Valid() && i < |plan| && plan[i].status == InProgress && outcome != Refused
      modifies this`plan
      ensures Valid() && AllTries(plan) <= AllTries(old(plan)) && NoNewWaits(old(plan), plan)
      ensures outcome == Parked ==> plan == old(plan)
      ensures outcome.Escalates? ==>
        plan == if outcome.failed then old(plan)[i := old(plan)[i].(status := Failed)] else old(plan)
      ensures end == if outcome == Accepted then Advanced else if outcome == Parked then WasParked else WasEscalated
      ensures end == Advanced ==>
        && plan == old(plan)[i := old(plan)[i].(status := Done, rung := 0)]
        && OpenSteps(plan) < OpenSteps(old(plan)) && AllTries(plan) == AllTries(old(plan)) - Tries(old(plan)[i])
      ensures Grounded(answers, old(plan)) ==> Grounded(answers, plan)
    {
      match outcome
      case Parked => end := WasParked;
      case Escalates(failed) =>
        if failed { SetStep(i, Failed, plan[i].rung); }
        end := WasEscalated;
      case Accepted =>
        SetStep(i, Done, 0);
        end := Advanced;
    }

    method ClimbLadder(i: nat) returns (end: Settled)
      requires Valid() && i < |plan| && DepsDone(plan, i) && plan[i].status == InProgress
      requires runs > 0 && answers.outcome(runs - 1) == Refused
      modifies this
      ensures Valid()
      ensures StepLeads(answers, old(plan), old(replans), old(runs) - 1, i, end, plan, replans, runs)
      decreases if plan[i].rung < LADDER_HARD_CAP then LADDER_HARD_CAP - plan[i].rung else 0, 0
    {
      var rung := plan[i].rung;
      var ok := HasHeadroom();
      if !ok || rung >= LADDER_HARD_CAP {
        end := Redirect(i);
        LeadsFromTheTop(answers, old(plan), old(replans), runs - 1, i, end, plan, replans);
      } else {
        SetStep(i, Pending, rung + 1);
        end := RunGenericStep(i);
        LeadsFromBelow(answers, old(plan), old(replans), old(runs) - 1, i, end, plan, replans, runs);
      }
    }

    /** At the top of the ladder, or out of budget: a different route, or the owner. */
    method Redirect(i: nat) returns (end: Settled)
      requires Valid() && i < |plan| && plan[i].status == InProgress
      modifies this`plan, this`replans, this`checks
      ensures Valid() && end in {Advanced, WasEscalated} && old(replans) <= replans
      ensures end == Advanced ==> replans > old(replans)
      ensures Grounded(answers, old(plan)) ==> Grounded(answers, plan)
      ensures Grounded(answers, old(plan)) && end == Advanced ==>
        Potential(plan, replans) <= Potential(old(plan), old(replans)) - AllTries(old(plan))
      ensures Unhurried(answers) ==> EndsWith(answers, old(plan), old(replans), i, Refused, end, plan, replans)
      ensures NoNewWaits(old(plan), plan)
    {
      var ok := HasHeadroom();
      if ok {
        var again := ReplanRemaining();
        if again { return Advanced; }
      }
      SetStep(i, Failed, plan[i].rung);
      return WasEscalated;
    }

    /** A different route for the remaining work, counted before it is asked for. */
    method ReplanRemaining() returns (again: bool)
      requires Valid()
      modifies this`plan, this`replans, this`checks
      ensures Valid()
      ensures again <==> answers.headroom(old(checks)) && Replannable(answers, old(plan), old(replans))
      ensures again ==>
        replans == old(replans) + 1 && plan == Replanned(Finished(old(plan)), answers.replan(old(replans)))
      ensures !again ==> plan == old(plan) && old(replans) <= replans <= old(replans) + 1
      ensures NoNewWaits(old(plan), plan)
      ensures again && Grounded(answers, old(plan)) ==>
        FromTheBottom(plan) && AllTries(plan) <= MAX_STEPS * (LADDER_HARD_CAP + 1)
    {
      var ok := HasHeadroom();
      if !ok || replans >= MAX_REPLANS { return false; }
      var raw := answers.replan(replans);
      replans := replans + 1;
      var done: Plan := [];
      for k := 0 to |plan|
        invariant done == Finished(plan[..k])
      {
        assert plan[..k + 1][..k] == plan[..k];
        if plan[k].status == Done { done := done + [plan[k]]; }
      }
      assert plan[..|plan|] == plan;
      var added := ParseSteps(raw, |done|);
      var next := KeptDone(done) + added;
      ReplanIsWellFormed(done, raw);
      if |next| <= |done| { return false; }
      if Grounded(answers, plan) { ReplanCost(done, raw); }
      plan := next;
      return true;
    }

    /** The first ready step, in plan order. */
    method FirstReady() returns (next: Types.Option<nat>)
      requires Valid()
      ensures next.None? ==> forall j :: 0 <= j < |plan| ==> !IsReady(plan, j)
      ensures next.Some? ==>
        && next.value < |plan| && IsReady(plan, next.value) && DepsDone(plan, next.value)
        && forall j :: 0 <= j < next.value ==> !IsReady(plan, j)
    {
      var ready := ReadyIndices(plan);
      if ready == [] { return Types.None; }
      ghost var k :| 0 <= k < |plan| && IsReady(plan, k) && plan[k].index == ready[0]
                     && forall j :: 0 <= j < k ==> !IsReady(plan, j);
      ReadyDepsDone(plan, k);
      return Types.Some(ready[0]);
    }

    /** One turn of the drive: nothing left to run, a step that waits on time, or one generic step. */
    method Turn(ghost step: nat) returns (end: Types.Option<DriveEnd>)
      requires Valid()
      modifies this
      ensures Valid()
      ensures TurnLeads(answers, old(plan), old(replans), old(runs), end, plan, replans, runs)
      ensures AlwaysRefused(answers) && OneChore(old(plan)) ==> runs >= old(runs) + Tries(old(plan)[0])
      ensures WorstAnswers(answers) && OnSchedule(old(plan), old(replans), old(runs), step) ==>
        KeepsSchedule(old(replans), step, end.None?, plan, replans, runs)
    {
      ghost var was, wasReplans, before := plan, replans, runs;
      var next := FirstReady();
      if next.None? {
        if plan != [] && !IsComplete(plan) { StuckHasAReason(plan); }
        end := Types.Some(if IsComplete(plan) then AllDone else NothingReady);
        IdleTurn(answers, plan, replans, runs, step, end);
      } else if plan[next.value].kind != Generic {
        SetStep(next.value, Waiting, plan[next.value].rung);
        end := Types.Some(ParkedOrEscalated);
        WaitingTurn(answers, was, replans, runs, step, next.value);
      } else {
        var settled := RunGenericStep(next.value);
        end := TurnEnd(settled);
        RunningTurn(answers, was, wasReplans, before, step, next.value, settled, plan, replans, runs);
      }
    }

    /** Turn after turn, until one is the last. */
    method Drive() returns (end: DriveEnd)
      requires Valid()
      modifies this
      ensures Valid()
      ensures DriveLeads(answers, old(plan), old(replans), old(runs), end, plan, replans, runs)
    {
      ghost var step := 0;
      NothingDrivenYet(answers, plan, replans, runs);
      while true
        invariant Valid()
        invariant DrivenSoFar(answers, old(plan), old(replans), old(runs), plan, replans, runs, step)
        decreases MAX_REPLANS - replans, OpenSteps(plan)
      {
        ghost var was, wasReplans, before := plan, replans, runs;
        var over := Turn(step);
        if over.Some? {
          LastTurn(answers, old(plan), old(replans), old(runs), was, wasReplans, before, step, over, plan, replans,
                   runs);
          return over.value;
        }
        OneMoreTurn(answers, old(plan), old(replans), old(runs), was, wasReplans, before, step, plan, replans, runs);
        step := if step < 11 then step + 1 else 0;
      }
    }
  }

  /** Where a drive ends, for any answers: complete plans only are finalized, a stall has a step that is neither pending
      nor done, and the runs are paid for. When every run is accepted, every step of a plan of plain steps is run
      once and done; and when no thirteen runs in a row are refused, each is still done, within its own ladder and
      without a replan. */
  ghost predicate DriveLeads(a: Answers, plan: Plan, replans: nat, runs: nat, end: DriveEnd, later: Plan,
                             laterReplans: nat, laterRuns: nat)
  {
    && (end == AllDone ==> IsComplete(later))
    && (end == NothingReady && later != [] ==> exists s :: s in later && s.status != Pending && s.status != Done)
    && (Grounded(a, plan) ==> laterRuns - runs <= Potential(plan, replans))
    && (AlwaysRefused(a) && OneChore(plan) ==> laterRuns >= runs + Tries(plan[0]))
    && (WorstAnswers(a) && OnSchedule(plan, replans, runs, 0) ==> laterRuns == 9 * 12 * 13)
    && (GetsDone(a, plan) ==>
          && end == AllDone && AllFinished(plan, later) && laterReplans == replans
          && OpenSteps(plan) <= laterRuns - runs <= OpenSteps(plan) * (LADDER_HARD_CAP + 1)
          && (AlwaysAccepted(a) ==> laterRuns - runs == OpenSteps(plan)))
  }

  /** What the turns so far came to. */
  ghost predicate DrivenSoFar(a: Answers, was: Plan, wasReplans: nat, wasRuns: nat, plan: Plan, replans: nat, runs: nat,
                              step: nat)
  {
    && runs >= wasRuns
    && (Grounded(a, was) ==>
          Grounded(a, plan) && runs - wasRuns + Potential(plan, replans) <= Potential(was, wasReplans))
    && ((plan == was && runs == wasRuns)
        || (AlwaysRefused(a) && OneChore(was) ==> runs >= wasRuns + Tries(was[0])))
    && (WorstAnswers(a) && OnSchedule(was, wasReplans, wasRuns, 0) ==> OnSchedule(plan, replans, runs, step))
    && (GetsDone(a, was) ==> WorkedOn(a, was, wasRuns, plan, runs) && replans == wasReplans)
  }

  lemma NothingDrivenYet(a: Answers, plan: Plan, replans: nat, runs: nat)
    ensures DrivenSoFar(a, plan, replans, runs, plan, replans, runs, 0)
  {
  }

  lemma OneMoreTurn(a: Answers, was: Plan, wasReplans: nat, wasRuns: nat, plan: Plan, replans: nat, runs: nat,
                    step: nat, later: Plan, laterReplans: nat, laterRuns: nat)
    requires WellFormed(plan) && DrivenSoFar(a, was, wasReplans, wasRuns, plan, replans, runs, step)
    requires TurnLeads(a, plan, replans, runs, Types.None, later, laterReplans, laterRuns)
    requires AlwaysRefused(a) && OneChore(plan) ==> laterRuns >= runs + Tries(plan[0])
    requires WorstAnswers(a) && OnSchedule(plan, replans, runs, step) ==>
      KeepsSchedule(replans, step, true, later, laterReplans, laterRuns)
    ensures DrivenSoFar(a, was, wasReplans, wasRuns, later, laterReplans, laterRuns, if step < 11 then step + 1 else 0)
    ensures Forward(plan, replans, later, laterReplans)
  {
    if GetsDone(a, was) {
      WorksOn(a, was, wasRuns, plan, replans, runs, Types.None, later, laterReplans, laterRuns);
    }
  }

  lemma LastTurn(a: Answers, was: Plan, wasReplans: nat, wasRuns: nat, plan: Plan, replans: nat, runs: nat, step: nat,
                 end: Types.Option<DriveEnd>, later: Plan, laterReplans: nat, laterRuns: nat)
    requires WellFormed(plan) && DrivenSoFar(a, was, wasReplans, wasRuns, plan, replans, runs, step)
    requires end.Some? && TurnLeads(a, plan, replans, runs, end, later, laterReplans, laterRuns)
    requires AlwaysRefused(a) && OneChore(plan) ==> laterRuns >= runs + Tries(plan[0])
    requires WorstAnswers(a) && OnSchedule(plan, replans, runs, step) ==>
      KeepsSchedule(replans, step, false, later, laterReplans, laterRuns)
    ensures DriveLeads(a, was, wasReplans, wasRuns, end.value, later, laterReplans, laterRuns)
  {
    if GetsDone(a, was) { WorksOn(a, was, wasRuns, plan, replans, runs, end, later, laterReplans, laterRuns); }
  }

  // ------------------------------------------------------------------ the three turns

  lemma IdleTurn(a: Answers, plan: Plan, replans: nat, runs: nat, step: nat, end: Types.Option<DriveEnd>)
    requires WellFormed(plan) && replans <= MAX_REPLANS && forall j :: 0 <= j < |plan| ==> !IsReady(plan, j)
    requires end == Types.Some(if IsComplete(plan) then AllDone else NothingReady)
    requires plan != [] && !IsComplete(plan) ==> exists s :: s in plan && s.status != Pending && s.status != Done
    ensures TurnLeads(a, plan, replans, runs, end, plan, replans, runs)
    ensures !OneChore(plan) && !(WorstAnswers(a) && OnSchedule(plan, replans, runs, step))
  {
    PotentialIsNatural(plan, replans);
    if OneChore(plan) { assert IsReady(plan, 0); }
    if WorstAnswers(a) && OnSchedule(plan, replans, runs, step) { ScheduledStep(a, plan, replans, runs, step); }
  }

  lemma WaitingTurn(a: Answers, plan: Plan, replans: nat, runs: nat, step: nat, i: nat)
    requires WellFormed(plan) && replans <= MAX_REPLANS && IsFirstReady(plan, i) && plan[i].kind != Generic
    ensures TurnLeads(a, plan, replans, runs, Types.Some(ParkedOrEscalated), plan[i := plan[i].(status := Waiting)],
                      replans, runs)
    ensures !OneChore(plan) && !(WorstAnswers(a) && OnSchedule(plan, replans, runs, step))
  {
    PotentialIsNatural(plan, replans);
    FirstReadyIsOne(plan, i);
    if WorstAnswers(a) && OnSchedule(plan, replans, runs, step) { ScheduledStep(a, plan, replans, runs, step); }
  }

  lemma RunningTurn(a: Answers, plan: Plan, replans: nat, runs: nat, step: nat, i: nat, settled: Settled,
                    later: Plan, laterReplans: nat, laterRuns: nat)
    requires WellFormed(plan) && laterReplans <= MAX_REPLANS
    requires IsFirstReady(plan, i) && plan[i].kind == Generic
    requires StepLeads(a, plan, replans, runs, i, settled, later, laterReplans, laterRuns)
    ensures TurnLeads(a, plan, replans, runs, TurnEnd(settled), later, laterReplans, laterRuns)
    ensures AlwaysRefused(a) && OneChore(plan) ==> laterRuns >= runs + Tries(plan[0])
    ensures WorstAnswers(a) && OnSchedule(plan, replans, runs, step) ==>
      KeepsSchedule(replans, step, settled == Advanced, later, laterReplans, laterRuns)
  {
    assert IsReady(plan, i);
    ScheduledRun(a, plan, replans, runs, i, step, settled, later, laterReplans, laterRuns);
    FirstReadyIsOne(plan, i);
    if WorstAnswers(a) && OnSchedule(plan, replans, runs, step) { ScheduledStep(a, plan, replans, runs, step); }
  }

  function TurnEnd(settled: Settled): Types.Option<DriveEnd> {
    if settled == Advanced then Types.None else Types.Some(ParkedOrEscalated)
  }

  lemma FirstReadyIsOne(plan: Plan, i: nat)
    requires IsFirstReady(plan, i)
    ensures forall j: nat :: IsFirstReady(plan, j) ==> j == i
    ensures WellFormed(plan) && OneChore(plan) ==> i == 0
  {
    forall j: nat | IsFirstReady(plan, j) ensures j == i {
      assert IsReady(plan, j) && IsReady(plan, i);
    }
  }

  // ------------------------------------------------------------------ the work gets done

  /** A plan of plain steps, each yet to run or done. */
  predicate PlainWork(plan: Plan) {
    plan != [] && forall s :: s in plan ==> s.kind == Generic && s.status in {Done, Pending}
  }

  predicate AtTheFoot(plan: Plan) {
    forall s :: s in plan && s.status == Pending ==> s.rung == 0
  }

  ghost predicate AlwaysAccepted(a: Answers) {
    forall n :: a.outcome(n) == Accepted
  }

  /** Nothing runs out, nothing parks or fails, and no thirteen runs in a row are refused. */
  ghost predicate Willing(a: Answers) {
    Unhurried(a) && forall n: nat :: GetsThrough(a, n)
  }

  predicate GetsThrough(a: Answers, n: nat) {
    exists k: nat :: k <= LADDER_HARD_CAP && Persuaded(a, n, k)
  }

  predicate Persuaded(a: Answers, n: nat, k: nat) {
    RefusedFor(a, n, k) && a.outcome(n + k) == Accepted
  }

  predicate SameWork(was: Plan, now: Plan) {
    |now| == |was| && forall i :: 0 <= i < |was| ==>
      now[i].text == was[i].text && now[i].kind == was[i].kind && now[i].deps == was[i].deps
  }

  /** The same steps, every one done. */
  predicate AllFinished(was: Plan, now: Plan) {
    SameWork(was, now) && forall s :: s in now ==> s.status == Done
  }

  /** The answers let this plan be worked off. */
  ghost predicate GetsDone(a: Answers, plan: Plan) {
    PlainWork(plan) && (AlwaysAccepted(a) || (Willing(a) && AtTheFoot(plan)))
  }

  /** Part of it is done, each step within one ladder of runs; with every run accepted, in one. */
  ghost predicate WorkedOn(a: Answers, was: Plan, wasRuns: nat, plan: Plan, runs: nat) {
    var done := OpenSteps(was) - OpenSteps(plan);
    && SameWork(was, plan) && GetsDone(a, plan)
    && done <= runs - wasRuns <= done * (LADDER_HARD_CAP + 1)
    && (AlwaysAccepted(a) ==> runs - wasRuns == done)
  }

  /** One turn works off one more step, until all are done. */
  lemma WorksOn(a: Answers, was: Plan, wasRuns: nat, plan: Plan, replans: nat, runs: nat, end: Types.Option<DriveEnd>,
                later: Plan, laterReplans: nat, laterRuns: nat)
    requires WellFormed(plan) && WorkedOn(a, was, wasRuns, plan, runs)
    requires TurnLeads(a, plan, replans, runs, end, later, laterReplans, laterRuns)
    ensures laterReplans == replans
    ensures end.None? ==> WorkedOn(a, was, wasRuns, later, laterRuns)
    ensures end.Some? ==>
      end.value == AllDone && later == plan && laterRuns == runs && OpenSteps(plan) == 0 && AllFinished(was, plan)
  {
    if s :| s in plan && s.status == Pending {
      var i := SomeStepIsReady(plan);
      var j := FirstReadyBefore(plan, i);
      assert plan[j] in plan;
      WorksOff(a, plan, replans, runs, j, end, later, laterReplans, laterRuns);
      FinishingOne(a, was, wasRuns, plan, runs, j, laterRuns);
    } else {
      NothingOpen(plan);
      forall j | 0 <= j < |plan| ensures !IsReady(plan, j) { assert plan[j] in plan; }
      assert plan[0] in plan;
    }
  }

  lemma FirstReadyBefore(plan: Plan, i: nat) returns (j: nat)
    requires i < |plan| && IsReady(plan, i)
    ensures j <= i && IsFirstReady(plan, j)
  {
    j := 0;
    while !IsReady(plan, j)
      invariant j <= i && forall k :: 0 <= k < j ==> !IsReady(plan, k)
      decreases i - j
    {
      j := j + 1;
    }
  }

  lemma {:induction false} NothingOpen(plan: Plan)
    requires forall s :: s in plan ==> s.status == Done
    ensures OpenSteps(plan) == 0
  {
    if plan != [] {
      assert plan[|plan| - 1] in plan;
      NothingOpen(plan[..|plan| - 1]);
    }
  }

  /** The first ready step is run until it is accepted. */
  lemma WorksOff(a: Answers, plan: Plan, replans: nat, runs: nat, i: nat, end: Types.Option<DriveEnd>, later: Plan,
                 laterReplans: nat, laterRuns: nat)
    requires GetsDone(a, plan) && IsFirstReady(plan, i)
    requires TurnRuns(a, plan, replans, runs, end.None?, later, laterReplans, laterRuns)
    ensures end.None? && laterReplans == replans && later == Finishing(plan, i)
    ensures runs < laterRuns <= runs + LADDER_HARD_CAP + 1 && (AlwaysAccepted(a) ==> laterRuns == runs + 1)
  {
    assert plan[i] in plan && IsReady(plan, i);
    if !AlwaysAccepted(a) {
      assert GetsThrough(a, runs);
      var k: nat :| k <= LADDER_HARD_CAP && Persuaded(a, runs, k);
      assert Decides(a, plan, runs, i, k) && a.outcome(runs + k) == Accepted;
    }
  }

  lemma FinishingOne(a: Answers, was: Plan, wasRuns: nat, plan: Plan, runs: nat, i: nat, laterRuns: nat)
    requires WorkedOn(a, was, wasRuns, plan, runs) && i < |plan| && plan[i].status == Pending
    requires runs < laterRuns <= runs + LADDER_HARD_CAP + 1 && (AlwaysAccepted(a) ==> laterRuns == runs + 1)
    ensures WorkedOn(a, was, wasRuns, Finishing(plan, i), laterRuns)
  {
    var s := plan[i].(status := Done, rung := 0);
    UpdateOpen(plan, i, s);
    assert plan[i] in plan;
    assert forall x :: x in Finishing(plan, i) ==> x in plan || x == s;
  }

  lemma PotentialIsNatural(plan: Plan, replans: nat)
    requires replans <= MAX_REPLANS
    ensures Potential(plan, replans) >= 0
  {
  }

  lemma ReadyDepsDone(plan: Plan, i: nat)
    requires WellFormed(plan) && i < |plan| && IsReady(plan, i)
    ensures DepsDone(plan, i)
  {
  }

  lemma StuckHasAReason(plan: Plan)
    requires WellFormed(plan) && plan != [] && !IsComplete(plan)
    requires forall j :: 0 <= j < |plan| ==> !IsReady(plan, j)
    ensures exists s :: s in plan && s.status != Pending && s.status != Done
  {
    if s :| s in plan && s.status !in {Pending, Done} {
    } else {
      var p :| p in plan && p.status !in {Done, Skipped};
      assert p.status == Pending;
      var _ := SomeStepIsReady(plan);
    }
  }

  /** What an advance is worth to the outer loop: a replan spent, or one more step done. */
  predicate Forward(plan: Plan, replans: nat, later: Plan, laterReplans: nat) {
    laterReplans > replans || (laterReplans == replans && OpenSteps(later) < OpenSteps(plan))
  }

  /** Every executor run is paid for out of the potential. */
  predicate Paid(plan: Plan, replans: nat, runs: int, later: Plan, laterReplans: nat, laterRuns: int, end: Settled) {
    if end == Advanced
    then laterRuns - runs + Potential(later, laterReplans) <= Potential(plan, replans)
    else laterRuns - runs <= Potential(plan, replans)
  }

  /** At most 9 * 12 * 13 executor runs, less 12 * 13 for every replan already spent, in a drive over at most
      twelve open steps with every ladder at its foot; finished steps before them cost nothing. */
  lemma DriveBudget(plan: Plan, replans: nat)
    requires FromTheBottom(plan) && OpenSteps(plan) <= MAX_STEPS && replans <= MAX_REPLANS
    ensures Potential(plan, replans) <= (9 - replans) * 12 * 13
  {
    TriesBounded(plan);
  }

  // ------------------------------------------------------------------ the bound is reached

  /** Every step is refused up its ladder; the last rung accepts the first eleven of every twelve. */
  function WorstOutcome(n: nat): Outcome {
    if n % 13 == 12 && n % 156 / 13 < 11 then Accepted else Refused
  }

  /** Twelve plain steps. */
  function Chores(): seq<RawStep> {
    seq(12, _ => Raw("x", Generic, [], 0))
  }

  ghost predicate WorstAnswers(a: Answers) {
    Unhurried(a) && forall n :: a.outcome(n) == WorstOutcome(n) && a.replan(n) == Chores()
  }

  predicate IsFresh(s: Step) {
    s.kind == Generic && s.deps == [] && s.status == Pending && s.rung == 0
  }

  /** `step` of the last twelve steps are done, the rest fresh, and every run so far was paid in full. */
  predicate OnSchedule(plan: Plan, replans: nat, runs: nat, step: nat) {
    && replans <= MAX_REPLANS && step < 12 && |plan| == 11 * replans + 12 && runs == 156 * replans + 13 * step
    && forall j :: 0 <= j < |plan| ==> if j < 11 * replans + step then plan[j].status == Done else IsFresh(plan[j])
  }

  lemma WorstRun(replans: nat, step: nat, rung: nat)
    requires step < 12 && rung < 13
    ensures WorstOutcome(156 * replans + 13 * step + rung) == if rung == 12 && step < 11 then Accepted else Refused
  {
    var n := 156 * replans + 13 * step + rung;
    assert n == 13 * (12 * replans + step) + rung && n == 156 * replans + (13 * step + rung);
    assert n % 13 == rung && n % 156 == 13 * step + rung;
  }

  /** The next ready step of the schedule is refused on every rung but the last. */
  lemma ScheduledStep(a: Answers, plan: Plan, replans: nat, runs: nat, step: nat)
    requires WellFormed(plan) && WorstAnswers(a) && OnSchedule(plan, replans, runs, step)
    ensures var i := 11 * replans + step;
            && IsReady(plan, i) && (forall j :: 0 <= j < i ==> !IsReady(plan, j))
            && plan[i].kind == Generic && Tries(plan[i]) == 13 && RefusedFor(a, runs, 12)
  {
    forall k: nat | runs <= k < runs + 12 ensures a.outcome(k) == Refused {
      WorstRun(replans, step, k - runs);
    }
  }

  lemma {:induction false} ParsedChores(n: nat, offset: nat)
    ensures var steps := Parsed(seq(n, _ => Raw("x", Generic, [], 0)), offset);
            |steps| == n && forall i :: 0 <= i < n ==> IsFresh(steps[i])
  {
    if n > 0 {
      var raw := seq(n, _ => Raw("x", Generic, [], 0));
      assert raw[..n - 1] == seq(n - 1, _ => Raw("x", Generic, [], 0));
      ParsedChores(n - 1, offset);
      assert Usable(raw[n - 1]);
    }
  }

  lemma StaysOnSchedule(a: Answers, plan: Plan, replans: nat, runs: nat, step: nat, end: Settled, later: Plan,
                        laterReplans: nat)
    requires WorstAnswers(a) && OnSchedule(plan, replans, runs, step)
    requires EndsWith(a, plan, replans, 11 * replans + step, a.outcome(runs + 12), end, later, laterReplans)
    ensures if step == 11 && replans == MAX_REPLANS then end == WasEscalated && runs + 13 == 9 * 12 * 13
            else end == Advanced && OnSchedule(later, laterReplans, runs + 13, if step < 11 then step + 1 else 0)
  {
    WorstRun(replans, step, 12);
    if step == 11 {
      var done := Finished(plan);
      FinishedPrefix(plan, 11 * replans + 11);
      ParsedChores(12, |done|);
    }
  }

  /** A turn of the worst case: one step further, or, at the very last step, the end. */
  predicate KeepsSchedule(replans: nat, step: nat, goesOn: bool, later: Plan, laterReplans: nat, laterRuns: nat) {
    if step == 11 && replans == MAX_REPLANS then !goesOn && laterRuns == 9 * 12 * 13
    else goesOn && OnSchedule(later, laterReplans, laterRuns, if step < 11 then step + 1 else 0)
  }

  /** The step at `i` is the schedule's next one. */
  predicate NextOnSchedule(plan: Plan, replans: nat, runs: nat, i: nat, step: nat) {
    OnSchedule(plan, replans, runs, step) && i == 11 * replans + step
  }

  lemma ScheduledRun(a: Answers, plan: Plan, replans: nat, runs: nat, i: nat, step: nat, end: Settled, later: Plan,
                     laterReplans: nat, laterRuns: nat)
    requires WellFormed(plan) && laterRuns > 0 && i < |plan| && plan[i].status != Done
    requires Unhurried(a) ==> RunDecides(a, plan, replans, runs, i, end, later, laterReplans, laterRuns)
    ensures AlwaysRefused(a) ==> laterRuns >= runs + Tries(plan[i])
    ensures WorstAnswers(a) && NextOnSchedule(plan, replans, runs, i, step) ==>
      KeepsSchedule(replans, step, end == Advanced, later, laterReplans, laterRuns)
  {
    if AlwaysRefused(a) { assert Decides(a, plan, runs, i, Tries(plan[i]) - 1); }
    if WorstAnswers(a) && NextOnSchedule(plan, replans, runs, i, step) {
      ScheduledStep(a, plan, replans, runs, step);
      assert Decides(a, plan, runs, i, 12);
      StaysOnSchedule(a, plan, replans, runs, step, end, later, laterReplans);
    }
  }

  /** The bound is exact: a drive over twelve plain steps, refused on every rung but the last, the last accepting all
      but the twelfth step of every route, takes 9 * 12 * 13 runs. */
  method DriveWorstCase() returns (runs: nat)
    ensures runs == 9 * 12 * 13
  {
    var a := Answers(WorstOutcome, n => Chores(), n => true);
    var plan := seq(12, i requires 0 <= i < 12 => Step(i, "x", Generic, [], Pending, 0));
    var d := new Driver(a, plan, 0);
    var _ := d.Drive();
    runs := d.runs;
  }

  /** The bound needs the ladders to start at their foot: a drive over one step whose model-written parameters put
      it far below, refused throughout, takes more runs than that. */
  method DriveBuriedStep(text: string) returns (runs: nat)
    ensures runs > 9 * 12 * 13
  {
    var step := Step(0, text, Generic, [], Pending, -2000);
    var d := new Driver(Answers(n => Refused, n => [], n => true), [step], 0);
    var _ := d.Drive();
    runs := d.runs;
  }
}
