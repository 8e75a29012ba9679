/** The ledger's guarantees over whole runs: every reachable state keeps them, whatever the models, the owner
    and the world do. */
module LedgerRuns {
  import opened Types
  import Text
  import opened TrustGate
  import opened GateTheorems
  import opened BrokerModel
  import opened ReadBack
  import opened ReadbackPoll
  import opened RunModel
  import opened CallFacts
  import opened RunLedger

  // ------------------------------------------------------------------ accepted steps

  /** Why one record does not stand in the way of an accepted step. */
  ghost predicate Justified(e: Effect, ledger: seq<Effect>, before: seq<Event>) {
    match VerdictOf(e)
    case NotAnEffect => true
    case Verified => e.detail.grantKey.Some? && Proven(before, e.detail.grantKey.value)
    case Retryable => e.detail.grantKey.Some? && Proven(before, e.detail.grantKey.value)
    case AskOwner => LabelOf(e) in SettledLabels(ledger)
    case Objected => false
  }

  ghost predicate AllJustified(ledger: seq<Effect>, before: seq<Event>) {
    forall e :: e in ledger ==> Justified(e, ledger, before)
  }

  ghost predicate AcceptedSound(trace: seq<Event>) {
    forall j :: 0 <= j < |trace| && trace[j].StepAccepted? ==> AllJustified(trace[j].ledger, trace[..j])
  }

  lemma NumberedAreDistinct(rows: seq<Effect>, next: nat)
    requires Numbered(rows, next)
    ensures DistinctIds(rows)
  {
  }

  lemma AcceptanceJustifies(ledger: seq<Effect>, next: nat, trace: seq<Event>)
    requires Numbered(ledger, next) && WellKeyed(ledger) && Evidenced(ledger, trace)
    requires Unverified(ledger) == {} && Unconfirmed(ledger) == {}
    ensures AllJustified(ledger, trace)
  {
    NumberedAreDistinct(ledger, next);
    DistinctAreTerminal(ledger);
    var landed := LandedKeys(Terminals(ledger));
    forall e | e in ledger ensures Justified(e, ledger, trace) {
      assert Objects(e, landed) ==> LabelOf(e) in Unverified(ledger);
      assert VerdictOf(e) == AskOwner ==> LabelOf(e) in Unverifiable(ledger);
      if VerdictOf(e) == Verified {
        assert e.detail.grantKey.value in VerifiedKeys(ledger);
      } else if VerdictOf(e) == Retryable {
        var v :| v in ledger && VerdictOf(v) == Verified && v.detail.grantKey == e.detail.grantKey;
        assert v.detail.grantKey.value in VerifiedKeys(ledger);
      }
    }
  }

  lemma OtherEventsKeepAccepted(trace: seq<Event>, evs: seq<Event>)
    requires AcceptedSound(trace)
    requires forall ev :: ev in evs ==> !ev.StepAccepted?
    ensures AcceptedSound(trace + evs)
  {
    var t := trace + evs;
    forall j | 0 <= j < |t| && t[j].StepAccepted?
      ensures j < |trace| && t[j] == trace[j] && t[..j] == trace[..j]
    {
    }
  }

  lemma AcceptKeepsAccepted(trace: seq<Event>, ledger: seq<Effect>)
    requires AcceptedSound(trace) && AllJustified(ledger, trace)
    ensures AcceptedSound(trace + [StepAccepted(ledger)])
  {
    var t := trace + [StepAccepted(ledger)];
    forall j | 0 <= j < |t| && t[j].StepAccepted?
      ensures t[..j] == trace[..j] && (j < |trace| ==> t[j] == trace[j])
    {
    }
    assert trace[..|trace|] == trace;
  }

  // ------------------------------------------------------------------ one bundle, kept by every step

  ghost predicate LedgerGood(rows: seq<Effect>, next: nat, trace: seq<Event>) {
    && Numbered(rows, next) && WellKeyed(rows)
    && SendsOnce(trace) && Accounted(rows, trace)
    && Evidenced(rows, trace)
    && AcceptedSound(trace)
  }

  lemma CallKeepsLedger(cfg: Config, grants: set<GrantKey>, ledger: seq<Effect>, base: seq<Event>, lp: Loop, a: Attempt)
    requires Synced(ledger + lp.effects, lp.broker)
    requires LedgerGood(ledger + lp.effects, lp.nextId, base + lp.trace)
    ensures var lp' := OneCall(cfg, ledger, grants, lp, a);
            && Synced(ledger + lp'.effects, lp'.broker)
            && LedgerGood(ledger + lp'.effects, lp'.nextId, base + lp'.trace)
  {
    var rows, trace := ledger + lp.effects, base + lp.trace;
    var r := Handle(cfg, lp.broker, grants, a.call, a.world, lp.nextId).1;
    var more := Happened(cfg, lp.broker, a, rows, r);
    CallKeepsShape(cfg, lp.broker, grants, a, lp.nextId, rows);
    CallKeepsSendsOnce(cfg, lp.broker, grants, a, lp.nextId, rows, trace);
    CallKeepsEvidence(cfg, lp.broker, grants, a, lp.nextId, rows, trace);
    OtherEventsKeepAccepted(trace, more);
    assert rows + [r.effect] == ledger + (lp.effects + [r.effect]);
    assert trace + more == base + (lp.trace + more);
  }

  lemma {:induction false} LoopKeepsLedger(cfg: Config, grants: set<GrantKey>, ledger: seq<Effect>,
                                           base: seq<Event>, lp: Loop, attempts: seq<Attempt>)
    requires Synced(ledger + lp.effects, lp.broker)
    requires LedgerGood(ledger + lp.effects, lp.nextId, base + lp.trace)
    ensures var end := RunLoop(cfg, ledger, grants, lp, attempts);
            && Synced(ledger + end.effects, end.broker)
            && LedgerGood(ledger + end.effects, end.nextId, base + end.trace)
    decreases |attempts|
  {
    if attempts != [] && lp.parked.None? {
      CallKeepsLedger(cfg, grants, ledger, base, lp, attempts[0]);
      LoopKeepsLedger(cfg, grants, ledger, base, OneCall(cfg, ledger, grants, lp, attempts[0]), attempts[1..]);
    }
  }

  lemma QuietKeepsLedger(rows: seq<Effect>, next: nat, trace: seq<Event>, evs: seq<Event>)
    requires LedgerGood(rows, next, trace)
    requires Quiet(evs) && forall ev :: ev in evs ==> !ev.StepAccepted?
    ensures LedgerGood(rows, next, trace + evs)
  {
    QuietKeepsSendsOnce(trace, evs);
    QuietKeepsAccounted(rows, trace, evs);
    MoreTraceKeepsEvidence(rows, trace, evs);
    OtherEventsKeepAccepted(trace, evs);
  }

  // ------------------------------------------------------------------ writing a loop's records

  /** The kept records are the forwarded, failed and refused ones, in order, bound to their step. */
  lemma {:induction false} KeptMeaning(effs: seq<Effect>, step: nat)
    ensures forall e :: e in effs && e.phase in {Forwarded, Failed, Refused} ==>
      e.(detail := e.detail.(stepIndex := Some(step))) in Kept(effs, step)
    ensures forall k :: k in Kept(effs, step) ==>
      exists e :: e in effs && e.phase in {Forwarded, Failed, Refused}
                  && k == e.(detail := e.detail.(stepIndex := Some(step)))
  {
    if effs != [] {
      KeptMeaning(effs[..|effs| - 1], step);
      assert effs == effs[..|effs| - 1] + [effs[|effs| - 1]];
    }
  }

  function Bound(effs: seq<Effect>, step: nat): seq<Effect> {
    seq(|effs|, i requires 0 <= i < |effs| => effs[i].(detail := effs[i].detail.(stepIndex := Some(step))))
  }

  /** The records of the calls that were answered: all but that of the call the loop parked on. */
  function Answered(lp: Loop): seq<Effect>
    requires lp.parked.Some? ==> lp.effects != []
  {
    if lp.parked.Some? then lp.effects[..|lp.effects| - 1] else lp.effects
  }

  predicate OnlyTheParkedWaits(lp: Loop) {
    && (lp.parked.Some? ==> lp.effects != [] && lp.effects[|lp.effects| - 1].phase == Deferred)
    && forall e :: e in Answered(lp) ==> e.phase in {Forwarded, Failed, Refused}
  }

  /** Every call of a loop is written to the ledger, in order and bound to its step, but the one it parked on. */
  lemma {:induction false} AllButTheParkedIsWritten(cfg: Config, ledger: seq<Effect>, grants: set<GrantKey>, lp: Loop,
                                                    attempts: seq<Attempt>, step: nat)
    requires OnlyTheParkedWaits(lp)
    ensures var end := RunLoop(cfg, ledger, grants, lp, attempts);
            OnlyTheParkedWaits(end) && Kept(end.effects, step) == Bound(Answered(end), step)
    decreases |attempts|
  {
    if attempts == [] || lp.parked.Some? {
      KeptIsAll(Answered(lp), step);
    } else {
      var a := attempts[0];
      PhaseTellsTheAnswer(cfg, lp.broker, grants, a.call, a.world, lp.nextId);
      var next := OneCall(cfg, ledger, grants, lp, a);
      AllButTheParkedIsWritten(cfg, ledger, grants, next, attempts[1..], step);
    }
  }

  lemma {:induction false} KeptIsAll(effs: seq<Effect>, step: nat)
    requires forall e :: e in effs ==> e.phase in {Forwarded, Failed, Refused}
    ensures Kept(effs, step) == Bound(effs, step)
  {
    if effs != [] {
      KeptIsAll(effs[..|effs| - 1], step);
    }
  }

  lemma AppendNumbered(rows: seq<Effect>, e: Effect, next: nat)
    requires e.id.Some? && e.id.value < next && Numbered(rows, e.id.value)
    ensures Numbered(rows + [e], next)
  {
  }

  lemma PrefixNumbered(rows: seq<Effect>, n: nat, next: nat)
    requires n < |rows| && Numbered(rows, next)
    ensures rows[n].id.Some? && rows[n].id.value < next && Numbered(rows[..n], rows[n].id.value)
  {
  }

  lemma {:induction false} KeptNumbered(ledger: seq<Effect>, effs: seq<Effect>, step: nat, next: nat)
    requires Numbered(ledger + effs, next)
    ensures Numbered(ledger + Kept(effs, step), next)
    decreases |effs|
  {
    if effs != [] {
      var n := |effs| - 1;
      PrefixNumbered(ledger + effs, |ledger| + n, next);
      assert (ledger + effs)[..|ledger| + n] == ledger + effs[..n];
      var id := effs[n].id.value;
      KeptNumbered(ledger, effs[..n], step, id);
      var kept, last := Kept(effs[..n], step), effs[n].(detail := effs[n].detail.(stepIndex := Some(step)));
      AppendNumbered(ledger + kept, last, next);
      assert ledger + (kept + [last]) == (ledger + kept) + [last];
    }
  }

  lemma KeptSameKeys(effs: seq<Effect>, step: nat)
    ensures VerifiedKeys(Kept(effs, step)) <= VerifiedKeys(effs)
  {
    KeptMeaning(effs, step);
  }

  lemma WritingKeepsLedger(ledger: seq<Effect>, effs: seq<Effect>, step: nat, next: nat, trace: seq<Event>)
    requires LedgerGood(ledger + effs, next, trace)
    ensures LedgerGood(ledger + Kept(effs, step), next, trace)
  {
    var rows, later := ledger + effs, ledger + Kept(effs, step);
    KeptNumbered(ledger, effs, step, next);
    KeptMeaning(effs, step);
    assert WellKeyed(later) by {
      forall k | k in later
        ensures k.sideEffecting.Some?
                && (k.sideEffecting == Some(true) && k.phase == Forwarded ==> k.detail.grantKey.Some?)
      {
        if k !in ledger {
          var e :| e in effs && k == e.(detail := e.detail.(stepIndex := Some(step)));
          assert e in rows;
        } else { assert k in rows; }
      }
    }
    assert Accounted(later, trace) by {
      forall r | r in rows && Live(r)
        ensures exists x :: x in later && Live(x) && x.id == r.id && x.detail.grantKey == r.detail.grantKey
      {
        if r in ledger { assert r in later; }
        else {
          var x := r.(detail := r.detail.(stepIndex := Some(step)));
          assert x in later && Live(x);
        }
      }
      MoreRecordsKeepAccounted(rows, trace, later);
    }
    KeysOfAppend(ledger, effs);
    KeysOfAppend(ledger, Kept(effs, step));
    KeptSameKeys(effs, step);
  }

  /** Dropping a loop's records is honest in the history: each of them is listed as lost. */
  lemma DroppingKeepsLedger(ledger: seq<Effect>, effs: seq<Effect>, next: nat, trace: seq<Event>)
    requires LedgerGood(ledger + effs, next, trace)
    ensures LedgerGood(ledger, next, trace + [Lost(effs)])
  {
    var rows := ledger + effs;
    var t := trace + [Lost(effs)];
    assert forall i :: 0 <= i < |ledger| ==> rows[i] == ledger[i];
    assert WellKeyed(ledger) by {
      forall e | e in ledger ensures e in rows {}
    }
    QuietKeepsLedger(rows, next, trace, [Lost(effs)]);
    KeysOfAppend(ledger, effs);
    assert Accounted(ledger, t) by {
      forall i | 0 <= i < |t| && SideExec(t[i]) && Live(t[i].effect)
        ensures OnRecord(ledger, t[i].effect) || ReopenedAfter(t, i)
      {
        var e := t[i].effect;
        if OnRecord(rows, e) {
          var r :| r in rows && Live(r) && r.id == e.id && r.detail.grantKey == e.detail.grantKey;
          if r !in ledger {
            assert r in effs;
            assert Reopens(t[|trace|], e);
          }
        }
      }
    }
  }

  // ------------------------------------------------------------------ owner corrections

  lemma ConfirmingKeepsLedger(ledger: seq<Effect>, ids: set<nat>, next: nat, trace: seq<Event>)
    requires LedgerGood(ledger, next, trace)
    ensures LedgerGood(Confirmed(ledger, ids), next, trace)
  {
    var later := Confirmed(ledger, ids);
    assert WellKeyed(later) by {
      forall k | k in later
        ensures k.sideEffecting.Some?
                && (k.sideEffecting == Some(true) && k.phase == Forwarded ==> k.detail.grantKey.Some?)
      {
        var i :| 0 <= i < |later| && later[i] == k;
        assert ledger[i] in ledger;
      }
    }
    forall r | r in ledger && Live(r)
      ensures exists x :: x in later && Live(x) && x.id == r.id && x.detail.grantKey == r.detail.grantKey
    {
      var i :| 0 <= i < |ledger| && ledger[i] == r;
      assert later[i] in later && Live(later[i]);
    }
    MoreRecordsKeepAccounted(ledger, trace, later);
    assert VerifiedKeys(later) <= VerifiedKeys(ledger) by {
      forall x | x in later && Live(x) && x.expected == Some(true)
        ensures x.detail.grantKey.value in VerifiedKeys(ledger)
      {
        var i :| 0 <= i < |later| && later[i] == x;
        assert ledger[i] in ledger && Live(ledger[i]);
      }
    }
  }

  lemma CorrectingKeepsLedger(ledger: seq<Effect>, ids: set<nat>, next: nat, trace: seq<Event>)
    requires LedgerGood(ledger, next, trace)
    ensures LedgerGood(NeverArrived(ledger, ids), next, trace + [Corrected(ids)])
  {
    var later, t := NeverArrived(ledger, ids), trace + [Corrected(ids)];
    QuietKeepsLedger(ledger, next, trace, [Corrected(ids)]);
    assert WellKeyed(later) by {
      forall k | k in later
        ensures k.sideEffecting.Some?
                && (k.sideEffecting == Some(true) && k.phase == Forwarded ==> k.detail.grantKey.Some?)
      {
        var i :| 0 <= i < |later| && later[i] == k;
        assert ledger[i] in ledger;
      }
    }
    assert Accounted(later, t) by {
      forall i | 0 <= i < |t| && SideExec(t[i]) && Live(t[i].effect)
        ensures OnRecord(later, t[i].effect) || ReopenedAfter(t, i)
      {
        var e := t[i].effect;
        if OnRecord(ledger, e) {
          var r :| r in ledger && Live(r) && r.id == e.id && r.detail.grantKey == e.detail.grantKey;
          var n :| 0 <= n < |ledger| && ledger[n] == r;
          assert later[n] in later;
          if Named(r, ids) { assert Reopens(t[|trace|], e); }
        }
      }
    }
    assert VerifiedKeys(later) <= VerifiedKeys(ledger) by {
      forall x | x in later && Live(x) && x.expected == Some(true)
        ensures x.detail.grantKey.value in VerifiedKeys(ledger)
      {
        var i :| 0 <= i < |later| && later[i] == x;
        assert ledger[i] in ledger && Live(ledger[i]);
      }
    }
  }

  // ------------------------------------------------------------------ every input, every run

  ghost predicate RunGood(s: Run) {
    LedgerGood(s.ledger, s.nextId, s.trace)
  }

  lemma WrittenKeepsLedger(setup: Setup, s: Run, lp: Loop, end: End)
    requires LedgerGood(s.ledger + lp.effects, lp.nextId, s.trace + lp.trace)
    ensures RunGood(Written(setup, s, lp, end))
  {
    WritingKeepsLedger(s.ledger, lp.effects, end.stepIndex, lp.nextId, s.trace + lp.trace);
    QuietKeepsLedger(s.ledger + Kept(lp.effects, end.stepIndex), lp.nextId, s.trace + lp.trace, PageEvents(end.pages));
  }

  lemma JudgeKeepsLedger(w: Run, c: Claim)
    requires RunGood(w)
    ensures RunGood(Judge(w, c))
  {
    if !c.toolFailed && GateAccepts(w.ledger, c) {
      AcceptanceJustifies(w.ledger, w.nextId, w.trace);
      var ev := StepAccepted(w.ledger);
      AcceptKeepsAccepted(w.trace, w.ledger);
      QuietKeepsSendsOnce(w.trace, [ev]);
      QuietKeepsAccounted(w.ledger, w.trace, [ev]);
      MoreTraceKeepsEvidence(w.ledger, w.trace, [ev]);
    }
  }

  /** Nothing accepts against the floor: a step is accepted exactly when every check passes. */
  lemma AcceptanceNeedsEverything(w: Run, c: Claim)
    ensures Judge(w, c).trace != w.trace <==>
      && !c.toolFailed && c.claimedDone && c.ok && !c.stale && !c.breaking && c.objectiveMet
      && Unverified(w.ledger) == {} && Unverifiable(w.ledger) <= SettledLabels(w.ledger)
  {
    if GateAccepts(w.ledger, c) { assert |w.trace + [StepAccepted(w.ledger)]| > |w.trace|; }
    forall l | l in Unverifiable(w.ledger) ensures l in Unconfirmed(w.ledger) <==> l !in SettledLabels(w.ledger) {
    }
  }

  lemma DriveKeepsLedger(setup: Setup, s: Run, attempts: seq<Attempt>, trust: map<string, nat>, end: End)
    requires RunGood(s)
    ensures RunGood(DriveLoop(setup, s, attempts, trust, end))
  {
    var cfg := BrokerConfig(setup, s, trust);
    assert s.ledger + [] == s.ledger && s.trace + [] == s.trace;
    LoopKeepsLedger(cfg, s.hot.grants, s.ledger, s.trace, EmptyLoop(s), attempts);
    var lp := RunLoop(cfg, s.ledger, s.hot.grants, EmptyLoop(s), attempts);
    if end.overBudget {
      DroppingKeepsLedger(s.ledger, lp.effects, lp.nextId, s.trace + lp.trace);
    } else {
      WrittenKeepsLedger(setup, s, lp, end);
      if lp.parked.None? { JudgeKeepsLedger(Written(setup, s, lp, end), end.claim); }
    }
  }

  lemma ApproveKeepsLedger(s: Run, byOwner: bool)
    requires RunGood(s) && s.status.AwaitingApproval?
    ensures RunGood(Approve(s, byOwner))
  {
    if s.hot.pendingGrant.Some? {
      QuietKeepsLedger(s.ledger, s.nextId, s.trace,
                       [Granted(s.hot.pendingGrant.value, s.status.shown, s.status.ask, byOwner)]);
    }
  }

  lemma NextKeepsLedger(setup: Setup, s: Run, input: Input)
    requires RunGood(s)
    ensures RunGood(Next(setup, s, input))
  {
    match input
    case Drive(attempts, trust, end) =>
      if s.status.Running? { DriveKeepsLedger(setup, s, attempts, trust, end); }
    case OwnerYes(world, attempts, trust, end) =>
      if s.status.AwaitingApproval? {
        ApproveKeepsLedger(s, true);
        DriveKeepsLedger(setup, Approve(s, true), ResumeAt(s.hot.resume, world, attempts), trust, end);
      }
    case TimerFires(world, attempts, trust, end) =>
      if s.status.AwaitingApproval? && s.status.ask == AskUndo {
        ApproveKeepsLedger(s, false);
        DriveKeepsLedger(setup, Approve(s, false), ResumeAt(s.hot.resume, world, attempts), trust, end);
      }
    case Connected(world, attempts, trust, end) =>
      if s.status.AwaitingConnect? {
        DriveKeepsLedger(setup, DropResume(s).(status := Running), ResumeAt(s.hot.resume, world, attempts), trust, end);
      }
    case OwnerConfirms(_) =>
      if SendQuestion(s.status) {
        ConfirmingKeepsLedger(s.ledger, Subject(s.ledger, s.status.subject), s.nextId, s.trace);
      }
    case OwnerResends(_) =>
      if SendQuestion(s.status) {
        CorrectingKeepsLedger(s.ledger, Subject(s.ledger, s.status.subject), s.nextId, s.trace);
      }
    case _ =>
  }

  lemma {:induction false} EveryRunKeepsLedger(setup: Setup, inputs: seq<Input>)
    ensures RunGood(After(setup, Begin(), inputs))
    decreases |inputs|
  {
    if inputs != [] {
      var n := |inputs| - 1;
      EveryRunKeepsLedger(setup, inputs[..n]);
      NextKeepsLedger(setup, After(setup, Begin(), inputs[..n]), inputs[n]);
    }
  }

  // ------------------------------------------------------------------ the promises

  /** No double send. In any run, for two executions of the same exact side effect the earlier of which stands
      (forwarded, not proven missing), something between them reopened it: the owner said it never arrived, or
      the budget exit dropped its record. And at the later one's moment no record of the run shows the action
      as live. */
  lemma {:induction false} NoDoubleSend(setup: Setup, inputs: seq<Input>, i: nat, j: nat)
    requires var trace := After(setup, Begin(), inputs).trace;
             && i < j < |trace| && SideExec(trace[i]) && SideExec(trace[j])
             && KeyOf(trace[i].call) == KeyOf(trace[j].call) && Live(trace[i].effect)
    ensures var trace := After(setup, Begin(), inputs).trace;
            && KeyOf(trace[j].call) !in ForwardedKeys(trace[j].known)
            && exists k :: i < k < j && Reopens(trace[k], trace[i].effect)
  {
    EveryRunKeepsLedger(setup, inputs);
    SecondSendNeedsReopening(After(setup, Begin(), inputs).trace, i, j);
  }

  /** What the events of a loop carry: their own records, and the ledger the loop was seeded from. */
  ghost predicate LoopEvents(ledger: seq<Effect>, lp: Loop) {
    forall ev :: ev in lp.trace ==> ev.Executed? && ev.effect in lp.effects && ledger <= ev.known
  }

  lemma {:induction false} LoopKeepsEvents(cfg: Config, grants: set<GrantKey>, ledger: seq<Effect>, lp: Loop,
                                           attempts: seq<Attempt>)
    requires LoopEvents(ledger, lp)
    ensures LoopEvents(ledger, RunLoop(cfg, ledger, grants, lp, attempts))
    decreases |attempts|
  {
    if attempts != [] && lp.parked.None? {
      LoopKeepsEvents(cfg, grants, ledger, OneCall(cfg, ledger, grants, lp, attempts[0]), attempts[1..]);
    }
  }

  /** A send of a loop that stands is recognised by every later broker exactly when the loop did not end over
      budget or deadline. */
  lemma {:induction false} SendIsRecognisedIff(setup: Setup, s: Run, attempts: seq<Attempt>, trust: map<string, nat>,
                                               end: End, j: nat)
    requires RunGood(s)
    requires var lp := RunLoop(BrokerConfig(setup, s, trust), s.ledger, s.hot.grants, EmptyLoop(s), attempts);
             j < |lp.trace| && SideExec(lp.trace[j]) && Live(lp.trace[j].effect)
    ensures var lp := RunLoop(BrokerConfig(setup, s, trust), s.ledger, s.hot.grants, EmptyLoop(s), attempts);
            KeyOf(lp.trace[j].call) in Seed(DriveLoop(setup, s, attempts, trust, end)).forwarded <==> !end.overBudget
  {
    var cfg := BrokerConfig(setup, s, trust);
    assert s.ledger + [] == s.ledger && s.trace + [] == s.trace;
    LoopKeepsLedger(cfg, s.hot.grants, s.ledger, s.trace, EmptyLoop(s), attempts);
    LoopKeepsEvents(cfg, s.hot.grants, s.ledger, EmptyLoop(s), attempts);
    var lp := RunLoop(cfg, s.ledger, s.hot.grants, EmptyLoop(s), attempts);
    var ev := lp.trace[j];
    assert ev in lp.trace && (s.trace + lp.trace)[|s.trace| + j] == ev;
    assert ev.effect.detail.grantKey == Some(KeyOf(ev.call)) && KeyOf(ev.call) !in ForwardedKeys(ev.known);
    LedgerAfterResult(setup, s, lp, end);
    if end.overBudget {
      LiveInLonger(s.ledger, ev.known);
    } else {
      KeptMeaning(lp.effects, end.stepIndex);
      var kept := ev.effect.(detail := ev.effect.detail.(stepIndex := Some(end.stepIndex)));
      assert kept in s.ledger + Kept(lp.effects, end.stepIndex) && Live(kept);
    }
  }

  lemma LedgerAfterResult(setup: Setup, s: Run, lp: Loop, end: End)
    ensures HandleResult(setup, s, lp, end).ledger ==
      if end.overBudget then s.ledger else s.ledger + Kept(lp.effects, end.stepIndex)
  {
  }

  lemma LiveInLonger(rows: seq<Effect>, more: seq<Effect>)
    requires rows <= more
    ensures ForwardedKeys(rows) <= ForwardedKeys(more)
  {
    assert forall e :: e in rows ==> e in more;
  }

  /** So in a run where nothing was dropped and the owner denied nothing, a side effect goes out again only after
      its earlier call failed or was proven missing. */
  lemma {:induction false} AtMostOneStands(setup: Setup, inputs: seq<Input>, i: nat, j: nat)
    requires var trace := After(setup, Begin(), inputs).trace;
             && i < j < |trace| && SideExec(trace[i]) && SideExec(trace[j])
             && KeyOf(trace[i].call) == KeyOf(trace[j].call)
             && forall k :: i < k < j ==> !trace[k].Lost? && !trace[k].Corrected?
    ensures !Live(After(setup, Begin(), inputs).trace[i].effect)
  {
    EveryRunKeepsLedger(setup, inputs);
    var trace := After(setup, Begin(), inputs).trace;
    if Live(trace[i].effect) { SecondSendNeedsReopening(trace, i, j); }
  }

  /** What a proof in the history is worth: some poll, within the budget and before any unrecoverable error,
      returned a surface with an item that was not there before the call and carries the whole fingerprint. */
  lemma ProofShowsTheItem(ev: Event, key: GrantKey)
    requires Proves(ev, key)
    ensures var fp := FingerprintOf(ev.cfg, ev.call, ev.world.execution.created);
            && fp.Some? && ev.world.before.Seen?
            && exists n, item :: 0 <= n < Attempts(ev.cfg.verifyAttempts) && n < |ev.world.polls| &&
                 ev.world.polls[n].Seen? &&
                 Witness(ev.world.before.surface, ev.world.polls[n].surface, fp.value, item)
  {
    var fp := FingerprintOf(ev.cfg, ev.call, ev.world.execution.created);
    var before := ev.world.before.surface;
    var looks := Looks(ev.call, ev.world.polls);
    VerifiedIff(before, looks, fp, ev.cfg.verifyAttempts);
    var n :| 0 <= n < Attempts(ev.cfg.verifyAttempts) && Hit(before, looks, fp, n);
    assert looks[n] == Look(ev.call, ev.world.polls[n]);
    var after := ev.world.polls[n].surface;
    var item :| item in after && Witness(before, after, fp.value, item);
  }

  /** For a create that returned an id, the new item is that very record. */
  lemma CreateProofIsExact(ev: Event, key: GrantKey, id: string)
    requires Proves(ev, key) && !ev.call.browser && ev.world.execution.created == Some(id) && !Blank(id)
    ensures exists n, item :: 0 <= n < |ev.world.polls| && ev.world.polls[n].Seen? && ev.world.before.Seen?
              && item in ev.world.polls[n].surface && item !in ev.world.before.surface
              && ItemId(item, ev.world.polls[n].surface[item]) == Text.Norm(id)
  {
    var fp := FingerprintOf(ev.cfg, ev.call, ev.world.execution.created);
    ProofShowsTheItem(ev, key);
    var before := ev.world.before.surface;
    var n, item :| 0 <= n < Attempts(ev.cfg.verifyAttempts) && n < |ev.world.polls| && ev.world.polls[n].Seen?
                   && Witness(before, ev.world.polls[n].surface, fp.value, item);
    var after := ev.world.polls[n].surface;
    assert HasExpectedEffect(before, after, fp) == Some(true) by {
      assert "id" in fp.value && !Blank(fp.value["id"]);
    }
    BoundCreateIsExact(before, after, ev.cfg.fingerprint(ev.call), id);
  }

  /** Nothing verified without a read-back. Every accepted step of every run rests, record by record, on a real
      earlier call of that exact action whose read-back showed the new item; the only records let through
      without one share their label with a send whose read-back tool broke or that the owner confirmed. */
  lemma {:induction false} AcceptedStepsAreProven(setup: Setup, inputs: seq<Input>, j: nat, e: Effect)
    requires var trace := After(setup, Begin(), inputs).trace;
             j < |trace| && trace[j].StepAccepted? && e in trace[j].ledger
             && SideEffecting(e) && e.phase == Forwarded
    ensures var trace := After(setup, Begin(), inputs).trace;
            || (VerdictOf(e) == AskOwner && LabelOf(e) in SettledLabels(trace[j].ledger))
            || (e.expected == Some(true) && e.detail.grantKey.Some? && Proven(trace[..j], e.detail.grantKey.value))
  {
    EveryRunKeepsLedger(setup, inputs);
    var trace := After(setup, Begin(), inputs).trace;
    assert Justified(e, trace[j].ledger, trace[..j]);
  }

  /** A failed attempt is let through an accepted step only when that very action provably landed. */
  lemma {:induction false} ForgivenFailuresLanded(setup: Setup, inputs: seq<Input>, j: nat, e: Effect)
    requires var trace := After(setup, Begin(), inputs).trace;
             j < |trace| && trace[j].StepAccepted? && e in trace[j].ledger
             && SideEffecting(e) && e.phase == Failed && e.mutating
    ensures e.detail.grantKey.Some? && Proven(After(setup, Begin(), inputs).trace[..j], e.detail.grantKey.value)
  {
    EveryRunKeepsLedger(setup, inputs);
    var trace := After(setup, Begin(), inputs).trace;
    assert Justified(e, trace[j].ledger, trace[..j]);
  }
}
