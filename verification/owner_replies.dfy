/** Owner replies to an escalation: what they may rewrite, what they reopen, and what stays refused for ever. */
module OwnerReplies {
  import opened Types
  import opened TrustGate
  import opened GateTheorems
  import opened BrokerModel
  import opened RunModel
  import opened RunLedger
  import opened Mandate
  import opened Policy
  import opened RunAuthority
  import opened CallFacts
  import AuthorityRuns
  import LedgerRuns
  import Text

  // ------------------------------------------------------------------ what a reply may rewrite

  /** An open send question names only records an attestation may rewrite. */
  predicate AsksAboutCorrectable(s: Run) {
    SendQuestion(s.status) ==> forall e :: e in s.ledger && Named(e, s.status.subject) ==> Correctable(e)
  }

  ghost predicate RunGood(s: Run) {
    LedgerRuns.RunGood(s) && AsksAboutCorrectable(s)
  }

  /** Whoever is asked about, by name or by the fallback, is correctable. */
  lemma SubjectsAreCorrectable(s: Run, e: Effect)
    requires RunGood(s) && SendQuestion(s.status)
    requires e in s.ledger && Named(e, Subject(s.ledger, s.status.subject))
    ensures Correctable(e)
  {
  }

  lemma PlainIsCorrectable(ledger: seq<Effect>, next: nat, e: Effect)
    requires Numbered(ledger, next) && e in ledger && Named(e, PlainUnverifiable(ledger))
    ensures Correctable(e)
  {
  }

  lemma ReverifiedIsCorrectable(ledger: seq<Effect>, next: nat, key: Option<GrantKey>, e: Effect)
    requires Numbered(ledger, next) && e in ledger && Named(e, ReverifySubject(ledger, key))
    ensures Correctable(e)
  {
  }

  lemma JudgeAsksAboutCorrectable(w: Run, c: Claim)
    requires LedgerRuns.RunGood(w) && w.status.Running?
    ensures AsksAboutCorrectable(Judge(w, c))
  {
    forall e | e in w.ledger && Named(e, PlainUnverifiable(w.ledger)) ensures Correctable(e) {
      PlainIsCorrectable(w.ledger, w.nextId, e);
    }
  }

  lemma {:induction false} DriveAsksAboutCorrectable(setup: Setup, s: Run, attempts: seq<Attempt>,
                                                     trust: map<string, nat>, end: End)
    requires LedgerRuns.RunGood(s) && s.status.Running?
    ensures AsksAboutCorrectable(DriveLoop(setup, s, attempts, trust, end))
  {
    if !end.overBudget {
      var cfg := BrokerConfig(setup, s, trust);
      assert s.ledger + [] == s.ledger && s.trace + [] == s.trace;
      LedgerRuns.LoopKeepsLedger(cfg, s.hot.grants, s.ledger, s.trace, EmptyLoop(s), attempts);
      var lp := RunLoop(cfg, s.ledger, s.hot.grants, EmptyLoop(s), attempts);
      LedgerRuns.WrittenKeepsLedger(setup, s, lp, end);
      if lp.parked.None? { JudgeAsksAboutCorrectable(Written(setup, s, lp, end), end.claim); }
    }
  }

  lemma {:induction false} NextKeepsGood(setup: Setup, s: Run, input: Input)
    requires RunGood(s)
    ensures RunGood(Next(setup, s, input))
  {
    LedgerRuns.NextKeepsLedger(setup, s, input);
    match input
    case Drive(attempts, trust, end) =>
      if s.status.Running? { DriveAsksAboutCorrectable(setup, s, attempts, trust, end); }
    case OwnerYes(world, attempts, trust, end) =>
      if s.status.AwaitingApproval? {
        LedgerRuns.ApproveKeepsLedger(s, true);
        DriveAsksAboutCorrectable(setup, Approve(s, true), ResumeAt(s.hot.resume, world, attempts), trust, end);
      }
    case TimerFires(world, attempts, trust, end) =>
      if s.status.AwaitingApproval? && s.status.ask == AskUndo {
        LedgerRuns.ApproveKeepsLedger(s, false);
        DriveAsksAboutCorrectable(setup, Approve(s, false), ResumeAt(s.hot.resume, world, attempts), trust, end);
      }
    case Connected(world, attempts, trust, end) =>
      if s.status.AwaitingConnect? {
        DriveAsksAboutCorrectable(setup, DropResume(s).(status := Running), ResumeAt(s.hot.resume, world, attempts),
                                  trust, end);
      }
    case OwnerResends(headroom) =>
      if SendQuestion(s.status) { StillAsksAfterDenial(s, headroom); }
    case Reverified(key) =>
      forall e | e in s.ledger && Named(e, ReverifySubject(s.ledger, key)) ensures Correctable(e) {
        ReverifiedIsCorrectable(s.ledger, s.nextId, key, e);
      }
    case _ =>
  }

  lemma StillAsksAfterDenial(s: Run, headroom: bool)
    requires RunGood(s) && SendQuestion(s.status)
    ensures var later := NeverArrived(s.ledger, Subject(s.ledger, s.status.subject));
            forall e :: e in later && Named(e, s.status.subject) ==> Correctable(e)
  {
  }

  lemma {:induction false} EveryRunIsGood(setup: Setup, inputs: seq<Input>)
    ensures RunGood(After(setup, Begin(), inputs))
    decreases |inputs|
  {
    if inputs != [] {
      var n := |inputs| - 1;
      EveryRunIsGood(setup, inputs[..n]);
      NextKeepsGood(setup, After(setup, Begin(), inputs[..n]), inputs[n]);
    }
  }

  // ------------------------------------------------------------------ refusals are for ever

  /** A later moment of the same run: rows keep their place and number, only correctable ones change, new ones
      are fresh, and the history grew without accepting a step. */
  ghost predicate GrewUnaccepted(s: Run, t: Run) {
    && Evolves(s.ledger, t.ledger)
    && s.trace <= t.trace
    && forall j :: |s.trace| <= j < |t.trace| ==> !t.trace[j].StepAccepted?
  }

  ghost predicate Blocked(s: Run) {
    exists i :: 0 <= i < |s.ledger| && HardRefused(s.ledger[i])
  }

  lemma AppendEvolves(a: seq<Effect>, more: seq<Effect>, next: nat)
    requires Numbered(a + more, next)
    ensures Evolves(a, a + more)
  {
  }

  lemma BlockedStaysBlocked(a: seq<Effect>, b: seq<Effect>, next: nat, i: nat)
    requires Numbered(a, next) && Evolves(a, b) && i < |a| && HardRefused(a[i])
    ensures b[i] == a[i] && Unverified(b) != {}
  {
    LedgerRuns.NumberedAreDistinct(a, next);
    assert IsTerminal(a, i);
    HardRefusalIsPermanent(a, b, i);
  }

  lemma {:induction false} LoopsOnlyExecute(cfg: Config, ledger: seq<Effect>, grants: set<GrantKey>, lp: Loop,
                                            attempts: seq<Attempt>)
    requires forall j :: 0 <= j < |lp.trace| ==> lp.trace[j].Executed?
    ensures var end := RunLoop(cfg, ledger, grants, lp, attempts);
            forall j :: 0 <= j < |end.trace| ==> end.trace[j].Executed?
    decreases |attempts|
  {
    if attempts != [] && lp.parked.None? {
      var next := OneCall(cfg, ledger, grants, lp, attempts[0]);
      LoopsOnlyExecute(cfg, ledger, grants, next, attempts[1..]);
      assert RunLoop(cfg, ledger, grants, lp, attempts) == RunLoop(cfg, ledger, grants, next, attempts[1..]);
    }
  }

  lemma BlockedResult(setup: Setup, s: Run, lp: Loop, end: End)
    requires !end.overBudget && Unverified(Written(setup, s, lp, end).ledger) != {}
    ensures var t := HandleResult(setup, s, lp, end);
            && t.ledger == Written(setup, s, lp, end).ledger
            && t.trace == s.trace + lp.trace + PageEvents(end.pages)
  {
  }

  lemma NoAcceptanceIn(base: seq<Event>, a: seq<Event>, b: seq<Event>)
    requires forall j :: 0 <= j < |a| ==> !a[j].StepAccepted?
    requires forall j :: 0 <= j < |b| ==> !b[j].StepAccepted?
    ensures base <= base + a + b
    ensures forall j :: |base| <= j < |base + a + b| ==> !(base + a + b)[j].StepAccepted?
  {
  }

  lemma DriveGrowsUnaccepted(setup: Setup, s: Run, attempts: seq<Attempt>, trust: map<string, nat>, end: End)
    requires LedgerRuns.RunGood(s) && s.status.Running? && Blocked(s)
    ensures GrewUnaccepted(s, DriveLoop(setup, s, attempts, trust, end))
  {
    var cfg := BrokerConfig(setup, s, trust);
    assert s.ledger + [] == s.ledger && s.trace + [] == s.trace;
    LedgerRuns.LoopKeepsLedger(cfg, s.hot.grants, s.ledger, s.trace, EmptyLoop(s), attempts);
    LoopsOnlyExecute(cfg, s.ledger, s.hot.grants, EmptyLoop(s), attempts);
    ResultGrowsUnaccepted(setup, s, RunLoop(cfg, s.ledger, s.hot.grants, EmptyLoop(s), attempts), end);
  }

  lemma ResultGrowsUnaccepted(setup: Setup, s: Run, lp: Loop, end: End)
    requires LedgerRuns.RunGood(s) && Blocked(s)
    requires LedgerRuns.LedgerGood(s.ledger + lp.effects, lp.nextId, s.trace + lp.trace)
    requires forall j :: 0 <= j < |lp.trace| ==> lp.trace[j].Executed?
    ensures GrewUnaccepted(s, HandleResult(setup, s, lp, end))
  {
    var more := if end.overBudget then [Lost(lp.effects)] else PageEvents(end.pages);
    NoAcceptanceIn(s.trace, lp.trace, more);
    if !end.overBudget {
      WrittenStaysBlocked(setup, s, lp, end);
      BlockedResult(setup, s, lp, end);
    }
    var t := HandleResult(setup, s, lp, end);
    assert t.trace == s.trace + lp.trace + more;
    assert Evolves(s.ledger, t.ledger);
  }

  lemma WrittenStaysBlocked(setup: Setup, s: Run, lp: Loop, end: End)
    requires LedgerRuns.RunGood(s) && Blocked(s)
    requires LedgerRuns.LedgerGood(s.ledger + lp.effects, lp.nextId, s.trace + lp.trace)
    ensures var w := Written(setup, s, lp, end); Evolves(s.ledger, w.ledger) && Unverified(w.ledger) != {}
  {
    LedgerRuns.WrittenKeepsLedger(setup, s, lp, end);
    var w := Written(setup, s, lp, end);
    AppendEvolves(s.ledger, Kept(lp.effects, end.stepIndex), w.nextId);
    var i :| 0 <= i < |s.ledger| && HardRefused(s.ledger[i]);
    BlockedStaysBlocked(s.ledger, w.ledger, s.nextId, i);
  }

  /** An input that leaves the ledger alone and at most notes one other event. */
  lemma Unmoved(s: Run, t: Run)
    requires t.ledger == s.ledger
    requires t.trace == s.trace || exists ev: Event :: !ev.StepAccepted? && t.trace == s.trace + [ev]
    ensures GrewUnaccepted(s, t)
  {
  }

  lemma ReplyGrowsUnaccepted(setup: Setup, s: Run, input: Input)
    requires RunGood(s) && (input.OwnerConfirms? || input.OwnerResends?)
    ensures GrewUnaccepted(s, Next(setup, s, input))
  {
  }

  lemma ResumeGrowsUnaccepted(setup: Setup, s: Run, m: Run, attempts: seq<Attempt>, trust: map<string, nat>, end: End)
    requires LedgerRuns.RunGood(m) && m.status.Running? && Blocked(s) && GrewUnaccepted(s, m) && m.ledger == s.ledger
    ensures GrewUnaccepted(s, DriveLoop(setup, m, attempts, trust, end))
  {
    DriveGrowsUnaccepted(setup, m, attempts, trust, end);
    GrewOn(s, m, DriveLoop(setup, m, attempts, trust, end));
  }

  lemma {:induction false} ApprovedGrowsUnaccepted(setup: Setup, s: Run, byOwner: bool, attempts: seq<Attempt>,
                                                   trust: map<string, nat>, end: End)
    requires RunGood(s) && Blocked(s) && s.status.AwaitingApproval?
    ensures GrewUnaccepted(s, DriveLoop(setup, Approve(s, byOwner), attempts, trust, end))
  {
    LedgerRuns.ApproveKeepsLedger(s, byOwner);
    Unmoved(s, Approve(s, byOwner));
    ResumeGrowsUnaccepted(setup, s, Approve(s, byOwner), attempts, trust, end);
  }

  lemma {:induction false} NextGrowsUnaccepted(setup: Setup, s: Run, input: Input)
    requires RunGood(s) && Blocked(s)
    ensures GrewUnaccepted(s, Next(setup, s, input))
  {
    match input
    case Drive(attempts, trust, end) =>
      Unmoved(s, s);
      if s.status.Running? { ResumeGrowsUnaccepted(setup, s, s, attempts, trust, end); }
    case OwnerYes(world, attempts, trust, end) =>
      Unmoved(s, s);
      if s.status.AwaitingApproval? {
        ApprovedGrowsUnaccepted(setup, s, true, ResumeAt(s.hot.resume, world, attempts), trust, end);
      }
    case TimerFires(world, attempts, trust, end) =>
      Unmoved(s, s);
      if s.status.AwaitingApproval? {
        if s.status.ask == AskUndo {
          ApprovedGrowsUnaccepted(setup, s, false, ResumeAt(s.hot.resume, world, attempts), trust, end);
        } else {
          Unmoved(s, Next(setup, s, input));
        }
      }
    case Connected(world, attempts, trust, end) =>
      Unmoved(s, s);
      if s.status.AwaitingConnect? {
        var m := DropResume(s).(status := Running);
        Unmoved(s, m);
        ResumeGrowsUnaccepted(setup, s, m, ResumeAt(s.hot.resume, world, attempts), trust, end);
      }
    case OwnerConfirms(_) => ReplyGrowsUnaccepted(setup, s, input);
    case OwnerResends(_) => ReplyGrowsUnaccepted(setup, s, input);
    case _ => Unmoved(s, Next(setup, s, input));
  }

  lemma GrewOn(s: Run, m: Run, t: Run)
    requires GrewUnaccepted(s, m) && GrewUnaccepted(m, t)
    ensures GrewUnaccepted(s, t)
  {
  }

  /** Refusal is permanent. Once the ledger of a run holds a refused, denied or deferred side effect, or one
      forwarded and proven missing, that record never changes again and no step is ever accepted after it,
      whatever is appended, approved, confirmed, corrected or restarted. */
  lemma {:induction false} RefusalIsForever(setup: Setup, inputs: seq<Input>, later: seq<Input>, i: nat)
    requires var s := After(setup, Begin(), inputs); i < |s.ledger| && HardRefused(s.ledger[i])
    ensures var s := After(setup, Begin(), inputs); var t := After(setup, s, later);
            && GrewUnaccepted(s, t) && RunGood(t)
            && i < |t.ledger| && t.ledger[i] == s.ledger[i]
    decreases |later|
  {
    var s := After(setup, Begin(), inputs);
    EveryRunIsGood(setup, inputs);
    if later == [] {
      assert GrewUnaccepted(s, s);
    } else {
      var n := |later| - 1;
      RefusalIsForever(setup, inputs, later[..n], i);
      var m := After(setup, s, later[..n]);
      NextKeepsGood(setup, m, later[n]);
      NextGrowsUnaccepted(setup, m, later[n]);
      GrewOn(s, m, Next(setup, m, later[n]));
      BlockedStaysBlocked(s.ledger, Next(setup, m, later[n]).ledger, s.nextId, i);
    }
  }

  // ------------------------------------------------------------------ a denial reopens exactly its subject

  /** The owner says the send never arrived: records outside the subject are untouched, those inside become
      failed attempts, and a key stays closed exactly when some live record of it was outside. */
  lemma DenialReopensItsSubject(setup: Setup, s: Run, key: GrantKey)
    requires SendQuestion(s.status)
    ensures var ids := Subject(s.ledger, s.status.subject);
            var t := Next(setup, s, OwnerResends(true));
            && t.status.Running? && |t.ledger| == |s.ledger|
            && (forall i :: 0 <= i < |s.ledger| && !Named(s.ledger[i], ids) ==> t.ledger[i] == s.ledger[i])
            && (forall i :: 0 <= i < |s.ledger| && Named(s.ledger[i], ids) ==>
                  t.ledger[i] == s.ledger[i].(phase := Failed, expected := Some(false)))
            && (key in Seed(t).forwarded <==>
                  exists e :: e in s.ledger && Live(e) && e.detail.grantKey == Some(key) && !Named(e, ids))
  {
  }

  /** The action is free to go out again: every live record of it is part of what the owner denied. */
  predicate WhollyDenied(s: Run, key: GrantKey)
    requires s.status.Escalated?
  {
    forall e :: e in s.ledger && Live(e) && e.detail.grantKey == Some(key) ==>
      Named(e, Subject(s.ledger, s.status.subject))
  }

  /** Then it is never replayed, and the next loop's broker runs it exactly when the owner's approval of that very
      action still stands, or it needs no new question: automatic by tier, covered and not shown first, or
      learned. */
  lemma {:induction false} DeniedSendGoesOutIff(setup: Setup, s: Run, call: Call, world: World, trust: map<string, nat>)
    requires SendQuestion(s.status) && WhollyDenied(s, KeyOf(call))
    ensures var t := Next(setup, s, OwnerResends(true)); var cfg := BrokerConfig(setup, t, trust);
            && t.hot.grants == s.hot.grants && t.counts == s.counts
            && Decide(cfg, Seed(t), t.hot.grants, call, world) != Replay
            && (Handle(cfg, Seed(t), t.hot.grants, call, world, t.nextId).1.executed <==>
                  && !Floored(cfg, call, world)
                  && (|| KeyOf(call) in s.hot.grants
                      || (&& !ShownFirst(cfg, s.counts, call)
                          && (|| Classify(cfg.rules, call.toolkit, call.action) == Tiered(Auto)
                              || MandateCovers(cfg, s.counts, call) || Learned(cfg, s.counts, call)))))
  {
    DenialReopensItsSubject(setup, s, KeyOf(call));
    var t := Next(setup, s, OwnerResends(true));
    ExecutesIff(BrokerConfig(setup, t, trust), Seed(t), t.hot.grants, call, world, t.nextId);
  }

  /** A send the mandate authorised does not go out again by itself. Its parameters stay in the counter, so the
      mandate no longer covers them, and learned trust never rescues a class the mandate lists: in every run,
      once such a send is denied, the resend executes exactly when that very action was also granted; otherwise
      it parks for the owner's approval. */
  lemma {:induction false} DeniedMandateSendParks(setup: Setup, inputs: seq<Input>, j: nat, world: World,
                                                  trust: map<string, nat>)
    requires var s := After(setup, Begin(), inputs);
             && SendQuestion(s.status) && j < |s.trace| && s.trace[j].Executed? && s.trace[j].counted
             && WhollyDenied(s, KeyOf(s.trace[j].call))
    ensures var s := After(setup, Begin(), inputs); var call := s.trace[j].call;
            var t := Next(setup, s, OwnerResends(true)); var cfg := BrokerConfig(setup, t, trust);
            var r := Handle(cfg, Seed(t), t.hot.grants, call, world, t.nextId).1;
            !Floored(cfg, call, world) ==>
              && (r.executed <==> KeyOf(call) in s.hot.grants)
              && (KeyOf(call) !in s.hot.grants ==> r.status == NeedsApproval(AskSideEffect))
  {
    var s := After(setup, Begin(), inputs);
    AuthorityRuns.CountedSendIsRemembered(setup, inputs, j);
    CountedCallParks(setup, s, s.trace[j].call, world, trust);
  }

  lemma CountedCallParks(setup: Setup, s: Run, call: Call, world: World, trust: map<string, nat>)
    requires SendQuestion(s.status) && WhollyDenied(s, KeyOf(call))
    requires Governed(setup, call) && call.params in s.counts.digests
    ensures var t := Next(setup, s, OwnerResends(true)); var cfg := BrokerConfig(setup, t, trust);
            var r := Handle(cfg, Seed(t), t.hot.grants, call, world, t.nextId).1;
            !Floored(cfg, call, world) ==>
              && (r.executed <==> KeyOf(call) in s.hot.grants)
              && (KeyOf(call) !in s.hot.grants ==> r.status == NeedsApproval(AskSideEffect))
  {
    DenialReopensItsSubject(setup, s, KeyOf(call));
  }

  /** And a resend that verifies clears the denied records from the gate's objections, and nothing else. */
  lemma VerifiedResendClears(s: Run, ids: set<nat>, r: Effect, key: GrantKey, e: Effect)
    requires Numbered(s.ledger, s.nextId) && r.id == Some(s.nextId)
    requires VerdictOf(r) == Verified && r.detail.grantKey == Some(key)
    requires e in NeverArrived(s.ledger, ids)
    ensures var before := NeverArrived(s.ledger, ids); var after := before + [r];
            Objects(e, LandedKeys(Terminals(after))) <==>
              (&& Objects(e, LandedKeys(Terminals(before)))
               && !(VerdictOf(e) == Retryable && e.detail.grantKey == Some(key)))
  {
    var before := NeverArrived(s.ledger, ids);
    assert Numbered(before, s.nextId);
    LedgerRuns.NumberedAreDistinct(before, s.nextId);
    DistinctAreTerminal(before);
    VerifiedForgivesOnlyItsOwnKey(before, r, key, e);
  }

  /** The ledger had the correction set only the absence and kept the phase. */
  function AbsenceOnly(ledger: seq<Effect>, ids: set<nat>): seq<Effect> {
    seq(|ledger|, i requires 0 <= i < |ledger| =>
      if Named(ledger[i], ids) then ledger[i].(expected := Some(false)) else ledger[i])
  }

  /** Why the correction changes the phase. With it, a verified resend leaves the denied record without objection.
      Without it the record would be a hard refusal, and no ledger that evolves from there, by any appends and
      corrections, is ever clean again. */
  lemma PhaseFlipIsWhatForgives(s: Run, ids: set<nat>, i: nat, r: Effect, key: GrantKey)
    requires Numbered(s.ledger, s.nextId) && i < |s.ledger| && Live(s.ledger[i]) && Named(s.ledger[i], ids)
    requires s.ledger[i].detail.grantKey == Some(key)
    requires r.id == Some(s.nextId) && VerdictOf(r) == Verified && r.detail.grantKey == Some(key)
    ensures var after := NeverArrived(s.ledger, ids) + [r];
            !Objects(NeverArrived(s.ledger, ids)[i], LandedKeys(Terminals(after)))
    ensures forall later :: Evolves(AbsenceOnly(s.ledger, ids), later) ==> Unverified(later) != {}
  {
    var flipped, kept := NeverArrived(s.ledger, ids), AbsenceOnly(s.ledger, ids);
    assert flipped[i] in flipped;
    VerifiedResendClears(s, ids, r, key, flipped[i]);
    assert HardRefused(kept[i]);
    forall later | Evolves(kept, later) ensures Unverified(later) != {} {
      BlockedStaysBlocked(kept, later, s.nextId, i);
    }
  }

  /** Only records of this key changed. */
  predicate OnlyKey(was: seq<Effect>, now: seq<Effect>, key: Option<GrantKey>)
    requires |was| == |now|
  {
    forall i :: 0 <= i < |was| && now[i] != was[i] ==> key.Some? && was[i].detail.grantKey == key
  }

  /** A proven-missing re-check whose reply touches other actions: exactly when it resolves no record of its own
      while some plain-unverifiable send stands (for a confirmation: one not confirmed yet), because the empty
      subject falls back to all of those. A re-check resolves none when its timer carries no key, or when its
      record was rewritten since. */
  lemma ReverifyStaysOnItsOwnIff(setup: Setup, s: Run, key: Option<GrantKey>, workRemains: bool)
    requires Numbered(s.ledger, s.nextId) && !s.status.Stopped?
    ensures var q := Next(setup, s, Reverified(key));
            var denied := Next(setup, q, OwnerResends(true)).ledger;
            var confirmed := Next(setup, q, OwnerConfirms(workRemains)).ledger;
            var plain := PlainUnverifiable(s.ledger);
            && |denied| == |confirmed| == |s.ledger|
            && (OnlyKey(s.ledger, denied, key) <==> (ReverifySubject(s.ledger, key) != {} || plain == {}))
            && (OnlyKey(s.ledger, confirmed, key) <==>
                  (|| ReverifySubject(s.ledger, key) != {}
                   || forall e :: e in s.ledger && Named(e, plain) ==> e.detail.ownerConfirmed))
  {
    var own := ReverifySubject(s.ledger, key);
    var q := Next(setup, s, Reverified(key));
    assert Next(setup, q, OwnerResends(true)).ledger == NeverArrived(s.ledger, Subject(s.ledger, own));
    assert Next(setup, q, OwnerConfirms(workRemains)).ledger == Confirmed(s.ledger, Subject(s.ledger, own));
    if own == {} {
      DenialTouches(s, key);
      ConfirmationTouches(s, key);
    } else {
      NamedAreOwn(s, key);
    }
  }

  /** When the re-check does find its record, a denial rewrites it: the send is a failed attempt from then on. */
  lemma OwnSendIsRewritten(setup: Setup, s: Run, k: GrantKey, i: nat, headroom: bool)
    requires !s.status.Stopped? && i < |s.ledger| && s.ledger[i].id.Some? && s.ledger[i].sideEffecting == Some(true)
    requires s.ledger[i].phase == Forwarded && s.ledger[i].expected == None && s.ledger[i].detail.grantKey == Some(k)
    ensures var t := Next(setup, Next(setup, s, Reverified(Some(k))), OwnerResends(headroom));
            |t.ledger| == |s.ledger| && t.ledger[i] == s.ledger[i].(phase := Failed, expected := Some(false))
  {
    var e, own := s.ledger[i], ReverifySubject(s.ledger, Some(k));
    assert e in s.ledger && e.id.value in own;
    assert own != {} && e.id.value in Subject(s.ledger, own);
  }

  /** And a send whose read-back tool broke is never touched by a reply to a question that names no record: the owner is
      not asked about it. */
  lemma BrokenSendsAreSpared(s: Run, i: nat)
    requires Numbered(s.ledger, s.nextId) && i < |s.ledger| && s.ledger[i].detail.readbackError
    ensures var ids := Subject(s.ledger, {});
            NeverArrived(s.ledger, ids)[i] == s.ledger[i] && Confirmed(s.ledger, ids)[i] == s.ledger[i]
  {
    assert s.ledger[i].id.value !in PlainUnverifiable(s.ledger);
  }

  lemma NamedAreOwn(s: Run, key: Option<GrantKey>)
    requires Numbered(s.ledger, s.nextId) && ReverifySubject(s.ledger, key) != {}
    ensures forall e :: e in s.ledger && Named(e, Subject(s.ledger, ReverifySubject(s.ledger, key))) ==>
      key.Some? && e.detail.grantKey == key
  {
  }

  lemma DenialTouches(s: Run, key: Option<GrantKey>)
    requires Numbered(s.ledger, s.nextId) && ReverifySubject(s.ledger, key) == {}
    ensures var plain := PlainUnverifiable(s.ledger);
            OnlyKey(s.ledger, NeverArrived(s.ledger, plain), key) <==> plain == {}
  {
    var plain := PlainUnverifiable(s.ledger);
    if plain != {} {
      var n :| n in plain;
      var e :| e in s.ledger && e.sideEffecting == Some(true) && e.phase == Forwarded && e.expected == None
               && e.id == Some(n);
      var i :| 0 <= i < |s.ledger| && s.ledger[i] == e;
      assert Named(e, plain) && NeverArrived(s.ledger, plain)[i] != e;
      assert n !in ReverifySubject(s.ledger, key);
    }
  }

  lemma ConfirmationTouches(s: Run, key: Option<GrantKey>)
    requires Numbered(s.ledger, s.nextId) && ReverifySubject(s.ledger, key) == {}
    ensures var plain := PlainUnverifiable(s.ledger);
            OnlyKey(s.ledger, Confirmed(s.ledger, plain), key) <==>
            forall e :: e in s.ledger && Named(e, plain) ==> e.detail.ownerConfirmed
  {
    var plain := PlainUnverifiable(s.ledger);
    forall e | e in s.ledger && Named(e, plain) ensures !(key.Some? && e.detail.grantKey == key) {
      PlainIsCorrectable(s.ledger, s.nextId, e);
      assert e.id.value !in ReverifySubject(s.ledger, key);
    }
    if OnlyKey(s.ledger, Confirmed(s.ledger, plain), key) {
      forall e | e in s.ledger && Named(e, plain) ensures e.detail.ownerConfirmed {
        var i :| 0 <= i < |s.ledger| && s.ledger[i] == e;
        assert Confirmed(s.ledger, plain)[i] == e;
      }
    }
  }

  // ------------------------------------------------------------------ a draft that was not approved

  /** Anything but a yes to a draft preview, a timer included, sends and releases nothing: no call is made, no grant
      is added, and the old draft's key and resume point are gone from memory and store. That a draft goes out only
      on a yes to a question that showed it holds over whole runs (AuthorityRuns.DraftsAreApproved). */
  lemma UnapprovedDraftIsGone(setup: Setup, s: Run, input: Input)
    requires s.status.AwaitingApproval? && s.status.ask == AskPreview
    requires input.OwnerNo? || input.OwnerRevises? || input.TimerFires?
    ensures var t := Next(setup, s, input);
            && t.trace == s.trace && t.ledger == s.ledger && t.hot.grants == s.hot.grants
            && t.hot.pendingGrant == t.saved.pendingGrant == None && t.hot.resume == t.saved.resume == None
            && !t.status.AwaitingApproval? && !t.status.Escalated?
  {
  }

  // ------------------------------------------------------------------ the gate forgives by label

  predicate Settled(e: Effect) {
    VerificationBroken(e) || OwnerConfirmed(e)
  }

  /** Records nobody could confirm and nobody settled. */
  function Open(ledger: seq<Effect>): set<Effect> {
    set e | e in Terminals(ledger) && VerdictOf(e) == AskOwner && !Settled(e)
  }

  lemma TerminalsAreRows(ledger: seq<Effect>)
    ensures forall e :: e in Terminals(ledger) ==> e in ledger
  {
  }

  /** The gate works on labels: it misses open records exactly when each of them shares its label with a
      settled one. */
  lemma LabelGateMissesIff(ledger: seq<Effect>)
    ensures (Unconfirmed(ledger) == {} <==> Open(ledger) == {})
            <==> !(Open(ledger) != {} && forall e :: e in Open(ledger) ==> LabelOf(e) in SettledLabels(ledger))
  {
    TerminalsAreRows(ledger);
    forall e | e in Terminals(ledger) && VerdictOf(e) == AskOwner
      ensures LabelOf(e) in Unverifiable(ledger) && (Settled(e) ==> LabelOf(e) in SettledLabels(ledger))
    {
    }
    if l :| l in Unconfirmed(ledger) {
      var e :| e in Terminals(ledger) && VerdictOf(e) == AskOwner && LabelOf(e) == l;
      assert e in Open(ledger);
    }
    if e :| e in Open(ledger) && LabelOf(e) !in SettledLabels(ledger) {
      assert LabelOf(e) in Unconfirmed(ledger);
    }
  }

  /** It does happen: two mails with one label, the tool broke while checking the first, nothing confirms the
      second; a claim of completion is accepted. */
  lemma LabelGateMisses(to: Params, also: Params)
    requires to != also
    ensures var first := SentMail(0, to, true); var second := SentMail(1, also, false);
            var ledger := [first, second];
            && GateAccepts(ledger, Claim(true, true, false, true, false, false, true))
            && second in Open(ledger)
  {
    var first, second := SentMail(0, to, true), SentMail(1, also, false);
    var ledger := [first, second];
    LedgerRuns.NumberedAreDistinct(ledger, 2);
    DistinctAreTerminal(ledger);
    assert Text.Lower("gmail")[0] == 'g' && Text.Lower("composio")[1] == 'o';
    assert "browser"[0] == 'b' && "cua"[0] == 'c' && "cua"[1] == 'u';
    assert !RequiresProvenance(first) && !RequiresProvenance(second);
    assert first in ledger && second in ledger;
    assert LabelOf(first) in SettledLabels(ledger);
  }

  function SentMail(id: nat, params: Params, broken: bool): Effect {
    Effect(Some(id), "gmail", "SEND_EMAIL", Some(true), true, Forwarded, None, None, "composio", None, None, None,
           Detail(Some(GrantKey("gmail", "SEND_EMAIL", params)), broken, false, false, Some(0)))
  }
}
