/** What each input is for: where it leaves a run, what it leaves alone, and what no input can undo. */
module RunMoves {
  import opened Types
  import opened BrokerModel
  import opened RunModel
  import TrustGate

  // ------------------------------------------------------------------ who may move a run

  /** The states an input speaks to. */
  predicate Addresses(st: RunModel.Status, input: Input) {
    match input
    case Drive(_, _, _) => st.Running?
    case Fails => st.Running?
    case Close => st.Running?
    case OwnerYes(_, _, _, _) => st.AwaitingApproval?
    case TimerFires(_, _, _, _) => st.AwaitingApproval?
    case OwnerNo => st.AwaitingApproval?
    case OwnerRevises => st.AwaitingApproval? && st.ask == AskPreview
    case Connected(_, _, _, _) => st.AwaitingConnect?
    case ConnectGaveUp => st.AwaitingConnect?
    case OwnerConfirms(_) => SendQuestion(st)
    case OwnerResends(_) => SendQuestion(st)
    case OwnerGuides => st.Escalated?
    case OwnerStops => st.Escalated?
    case Reverified(_) => !st.Stopped?
    case Restart => true
  }

  /** In any other state it changes nothing at all. */
  lemma OnlyAddressedInputsAct(setup: Setup, s: Run, input: Input)
    requires !Addresses(s.status, input)
    ensures Next(setup, s, input) == s
  {
  }

  /** The inputs that start an executor loop. */
  predicate StartsLoop(st: RunModel.Status, input: Input) {
    || input.Drive? || input.OwnerYes? || input.Connected?
    || (input.TimerFires? && st.AwaitingApproval? && st.ask == AskUndo)
  }

  /** Every other input calls nothing, grants nothing, charges nothing and accepts nothing. */
  lemma OthersOnlyMove(setup: Setup, s: Run, input: Input)
    requires !StartsLoop(s.status, input)
    ensures var t := Next(setup, s, input);
            && t.nextId == s.nextId && t.counts == s.counts && |t.ledger| == |s.ledger|
            && (t.hot.grants == s.hot.grants || input == Restart)
            && (t.ledger == s.ledger || input.OwnerConfirms? || input.OwnerResends?)
            && (t.trace == s.trace || (input.OwnerResends? && exists ids :: t.trace == s.trace + [Corrected(ids)]))
  {
  }

  /** Where they leave the run. */
  lemma WhereOthersLead(setup: Setup, s: Run, input: Input)
    requires Addresses(s.status, input) && !StartsLoop(s.status, input)
    ensures var now := Next(setup, s, input).status;
            match input
            case OwnerStops => now == Stopped
            case OwnerGuides => now == Running
            case OwnerConfirms(workRemains) => now == if workRemains then Running else Finished
            case OwnerResends(headroom) => now == if headroom then Running else s.status
            case OwnerNo => now == if s.status.ask == AskPreview then Stopped else Escalated(OwnerDeclined, {})
            case OwnerRevises => now == Running
            case TimerFires(_, _, _, _) =>
              now == if s.status.ask == AskPreview then Running else Escalated(OwnerDeclined, {})
            case ConnectGaveUp => now == Escalated(OtherReason, {})
            case Fails => now == Escalated(OtherReason, {})
            case Close => now == Finished
            case Reverified(_) => now.Escalated? && now.reason == ReverifyProvenMissing
            case Restart => now == s.status
            case _ => true
  {
  }

  /** An escalation ends exactly with guidance, a stop, a confirmation, or a denial that meets headroom, the last two
      only on a question about a send. */
  lemma EscalationEndsIff(setup: Setup, s: Run, input: Input)
    requires s.status.Escalated?
    ensures !Next(setup, s, input).status.Escalated? <==>
      || input == OwnerGuides || input == OwnerStops
      || (s.status.reason in {NeedsOwnerConfirm, ReverifyProvenMissing}
          && (input.OwnerConfirms? || input == OwnerResends(true)))
  {
    if !Addresses(s.status, input) { OnlyAddressedInputsAct(setup, s, input); }
    else { WhereOthersLead(setup, s, input); }
  }

  /** A finished run is taken up again by a re-check alone. */
  lemma FinishedEndsIff(setup: Setup, s: Run, input: Input)
    requires s.status.Finished?
    ensures !Next(setup, s, input).status.Finished? <==> input.Reverified?
  {
    if !Addresses(s.status, input) { OnlyAddressedInputsAct(setup, s, input); }
    else { WhereOthersLead(setup, s, input); }
  }

  // ------------------------------------------------------------------ a stop is for ever

  /** A stopped run stays as it is, whatever comes: it executes nothing, grants nothing and asks nothing again. */
  lemma {:induction false} StoppedForEver(setup: Setup, s: Run, later: seq<Input>)
    requires s.status == Stopped
    ensures var t := After(setup, s, later);
            && t.status == Stopped && t.trace == s.trace && t.ledger == s.ledger && t.counts == s.counts
            && t.nextId == s.nextId && t.saved == s.saved && t.hot in {s.hot, s.saved}
    decreases |later|
  {
    if later != [] {
      var n := |later| - 1;
      StoppedForEver(setup, s, later[..n]);
      var m := After(setup, s, later[..n]);
      if !Addresses(m.status, later[n]) { OnlyAddressedInputsAct(setup, m, later[n]); }
      assert later[n] == Restart || Next(setup, m, later[n]) == m;
    }
  }

  /** The owner's stop, on any escalation, is one. */
  lemma {:induction false} StopEndsTheRun(setup: Setup, s: Run, later: seq<Input>)
    requires s.status.Escalated?
    ensures var t := After(setup, Next(setup, s, OwnerStops), later);
            t.status == Stopped && t.trace == s.trace && t.ledger == s.ledger && t.counts == s.counts
  {
    WhereOthersLead(setup, s, OwnerStops);
    OthersOnlyMove(setup, s, OwnerStops);
    StoppedForEver(setup, Next(setup, s, OwnerStops), later);
  }

  /** So is a no to a draft. */
  lemma {:induction false} NoToADraftEndsTheRun(setup: Setup, s: Run, later: seq<Input>)
    requires s.status.AwaitingApproval? && s.status.ask == AskPreview
    ensures var t := After(setup, Next(setup, s, OwnerNo), later);
            t.status == Stopped && t.trace == s.trace && t.ledger == s.ledger && t.counts == s.counts
  {
    WhereOthersLead(setup, s, OwnerNo);
    OthersOnlyMove(setup, s, OwnerNo);
    StoppedForEver(setup, Next(setup, s, OwnerNo), later);
  }

  // ------------------------------------------------------------------ where a loop leads

  predicate Records(e: Effect, c: Call, id: nat) {
    e.id == Some(id) && e.toolkit == c.toolkit && e.action == c.action
  }

  /** These calls were made in order, numbered on, each with its record, up to the first that must wait for somebody. */
  predicate Makes(lp: Loop, end: Loop, attempts: seq<Attempt>) {
    var made := |end.effects| - |lp.effects|;
    && 0 <= made <= |attempts| && lp.effects <= end.effects && end.nextId == lp.nextId + made
    && (forall i :: 0 <= i < made ==> Records(end.effects[|lp.effects| + i], attempts[i].call, lp.nextId + i))
    && (end.parked.None? ==> made == |attempts|)
    && (end.parked.Some? ==> made > 0 && end.parked.value.0 == attempts[made - 1].call
                             && (end.parked.value.1.NeedsApproval? || end.parked.value.1.NeedsAuth?))
  }

  lemma {:induction false} MakesOneMore(lp: Loop, next: Loop, end: Loop, attempts: seq<Attempt>)
    requires attempts != [] && Makes(lp, next, attempts[..1]) && next.parked.None? && Makes(next, end, attempts[1..])
    ensures Makes(lp, end, attempts)
  {
    var made := |end.effects| - |next.effects|;
    forall i | 0 <= i < made + 1
      ensures Records(end.effects[|lp.effects| + i], attempts[i].call, lp.nextId + i)
    {
      if i == 0 {
        assert end.effects[|lp.effects|] == next.effects[|lp.effects|];
      } else {
        assert Records(end.effects[|next.effects| + (i - 1)], attempts[1..][i - 1].call, next.nextId + (i - 1));
      }
    }
  }

  lemma {:induction false} OneCallMakes(cfg: Config, ledger: seq<Effect>, grants: set<GrantKey>, lp: Loop, a: Attempt)
    ensures Makes(lp, OneCall(cfg, ledger, grants, lp, a), [a])
  {
    RecordsItsCall(cfg, lp.broker, grants, a, lp.nextId);
  }

  lemma RecordsItsCall(cfg: Config, b: State, grants: set<GrantKey>, a: Attempt, id: nat)
    ensures Records(Handle(cfg, b, grants, a.call, a.world, id).1.effect, a.call, id)
  {
    var d := Decide(cfg, b, grants, a.call, a.world);
    if d.Execute? { RunRecordsItsCall(cfg, b, a, id, d.authority); }
  }

  lemma RunRecordsItsCall(cfg: Config, b: State, a: Attempt, id: nat, authority: Authority)
    ensures Records(RunCall(cfg, b, a.call, a.world, id, authority).1.effect, a.call, id)
  {
  }

  /** A loop makes its calls, all of them or until one parks. */
  lemma {:induction false} LoopMakesItsCalls(cfg: Config, ledger: seq<Effect>, grants: set<GrantKey>, lp: Loop,
                                             attempts: seq<Attempt>)
    requires lp.parked.None?
    ensures Makes(lp, RunLoop(cfg, ledger, grants, lp, attempts), attempts)
    decreases |attempts|
  {
    if attempts != [] {
      var next := OneCall(cfg, ledger, grants, lp, attempts[0]);
      OneCallMakes(cfg, ledger, grants, lp, attempts[0]);
      assert attempts[..1] == [attempts[0]];
      if next.parked.None? {
        LoopMakesItsCalls(cfg, ledger, grants, next, attempts[1..]);
        MakesOneMore(lp, next, RunLoop(cfg, ledger, grants, next, attempts[1..]), attempts);
      } else {
        assert RunLoop(cfg, ledger, grants, lp, attempts) == next;
        ParkedAtOnce(lp, next, attempts);
      }
    }
  }

  lemma ParkedAtOnce(lp: Loop, next: Loop, attempts: seq<Attempt>)
    requires attempts != [] && Makes(lp, next, [attempts[0]]) && next.parked.Some?
    ensures Makes(lp, next, attempts)
  {
  }

  /** Nothing stands in the way of the step but what nobody could verify. */
  predicate CleanClaim(ledger: seq<Effect>, c: Claim) {
    && !c.toolFailed && c.claimedDone && !c.stale && !c.breaking && c.objectiveMet
    && TrustGate.Unverified(ledger) == {}
  }

  /** Where a loop's end leaves the run: over budget, parked, failed, accepted, asked about, or told to try again. */
  lemma WhereLoopsLead(setup: Setup, s: Run, lp: Loop, end: End)
    requires s.status == Running
    ensures var now := HandleResult(setup, s, lp, end).status;
            var ledger := s.ledger + Kept(lp.effects, end.stepIndex);
            var settled := TrustGate.Unverifiable(ledger) <= SettledLabels(ledger);
            if end.overBudget then now == Escalated(OtherReason, {})
            else if lp.parked.Some? then
              now == if lp.parked.value.1.NeedsApproval?
                     then AwaitingApproval(lp.parked.value.0, lp.parked.value.1.ask) else AwaitingConnect
            else if CleanClaim(ledger, end.claim) && !settled then
              now == Escalated(NeedsOwnerConfirm, PlainUnverifiable(ledger))
            else if CleanClaim(ledger, end.claim) && end.claim.ok then now == Running
            else now == if end.claim.toolFailed || !end.claim.mayRedirect then Escalated(OtherReason, {}) else Running
  {
    var ledger := s.ledger + Kept(lp.effects, end.stepIndex);
    assert Unconfirmed(ledger) == {} <==> TrustGate.Unverifiable(ledger) <= SettledLabels(ledger) by {
      forall l | l in TrustGate.Unverifiable(ledger) ensures l in Unconfirmed(ledger) <==> l !in SettledLabels(ledger) {
      }
    }
    if !end.overBudget { assert Written(setup, s, lp, end).ledger == ledger; }
  }

  // ------------------------------------------------------------------ connecting, and restarting

  /** A loop that parked on a call whose account must be connected: once it is, restarts or not, the next loop starts
      with that very call. */
  lemma {:induction false} ConnectResumesAtTheCall(setup: Setup, s: Run, lp: Loop, end: End, restarts: nat,
                                                   world: World, attempts: seq<Attempt>, trust: map<string, nat>,
                                                   later: End)
    requires !end.overBudget && lp.parked.Some? && lp.parked.value.1 == NeedsAuth
    ensures var t := After(setup, HandleResult(setup, s, lp, end), seq(restarts, _ => Restart));
            && t.status == AwaitingConnect
            && Next(setup, t, Connected(world, attempts, trust, later))
               == DriveLoop(setup, DropResume(t).(status := Running), [Attempt(lp.parked.value.0, world)] + attempts,
                            trust, later)
  {
    var t := HandleResult(setup, s, lp, end);
    assert t.hot == t.saved && t.hot.resume == Some(lp.parked.value.0);
    RestartsKeep(setup, t, restarts);
  }

  lemma {:induction false} RestartsKeep(setup: Setup, t: Run, restarts: nat)
    requires t.hot == t.saved
    ensures After(setup, t, seq(restarts, _ => Restart)) == t
    decreases restarts
  {
    var inputs: seq<Input> := seq(restarts, _ => Restart);
    if restarts > 0 {
      var front: seq<Input> := seq(restarts - 1, _ => Restart);
      assert inputs[..restarts - 1] == front;
      RestartsKeep(setup, t, restarts - 1);
    }
  }

  /** Grants, the pending key and the resume point are stored whenever they change; only the addresses a parked run
      let go of are still in the store. */
  predicate Stored(s: Run) {
    && s.hot.grants == s.saved.grants && s.hot.pendingGrant == s.saved.pendingGrant && s.hot.resume == s.saved.resume
    && (s.hot.discovered == s.saved.discovered || s.hot.discovered == [])
  }

  lemma ResultKeepsStored(setup: Setup, s: Run, lp: Loop, end: End)
    requires Stored(s)
    ensures Stored(HandleResult(setup, s, lp, end))
  {
  }

  lemma {:induction false} DriveKeepsStored(setup: Setup, s: Run, attempts: seq<Attempt>, trust: map<string, nat>,
                                            end: End)
    requires Stored(s)
    ensures Stored(DriveLoop(setup, s, attempts, trust, end))
  {
    var lp := RunLoop(BrokerConfig(setup, s, trust), s.ledger, s.hot.grants, EmptyLoop(s), attempts);
    ResultKeepsStored(setup, s, lp, end);
  }

  lemma OthersKeepStored(setup: Setup, s: Run, input: Input)
    requires Stored(s) && !StartsLoop(s.status, input)
    ensures Stored(Next(setup, s, input))
  {
  }

  lemma {:induction false} NextKeepsStored(setup: Setup, s: Run, input: Input)
    requires Stored(s)
    ensures Stored(Next(setup, s, input))
  {
    if !StartsLoop(s.status, input) {
      OthersKeepStored(setup, s, input);
    } else if !Addresses(s.status, input) {
      OnlyAddressedInputsAct(setup, s, input);
    } else {
      match input
      case Drive(attempts, trust, end) => DriveKeepsStored(setup, s, attempts, trust, end);
      case OwnerYes(world, attempts, trust, end) =>
        DriveKeepsStored(setup, Approve(s, true), ResumeAt(s.hot.resume, world, attempts), trust, end);
      case TimerFires(world, attempts, trust, end) =>
        DriveKeepsStored(setup, Approve(s, false), ResumeAt(s.hot.resume, world, attempts), trust, end);
      case Connected(world, attempts, trust, end) =>
        DriveKeepsStored(setup, DropResume(s).(status := Running), ResumeAt(s.hot.resume, world, attempts), trust, end);
      case _ =>
    }
  }

  /** A restart loses nothing: in every reachable state it changes nothing but the vouched-for addresses, and those it
      brings back where a parked or finished run had let go of them. */
  lemma {:induction false} RestartLosesNothing(setup: Setup, inputs: seq<Input>)
    ensures var s := After(setup, Begin(), inputs); var t := Next(setup, s, Restart);
            && Stored(s)
            && t == s.(hot := s.hot.(discovered := s.saved.discovered))
            && (s.hot.discovered != [] ==> t == s)
    decreases |inputs|
  {
    if inputs != [] {
      var n := |inputs| - 1;
      RestartLosesNothing(setup, inputs[..n]);
      NextKeepsStored(setup, After(setup, Begin(), inputs[..n]), inputs[n]);
    }
  }
}
