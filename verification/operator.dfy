/** The operator object (flowers/engine/operator.py) and its effect table (flowers/seams/store.py): the loops
    and in-place updates the program performs, each proved to be the run model's step. */
module OperatorModel {
  import opened Types
  import opened Mandate
  import opened Registrable
  import opened BrokerModel
  import opened RunModel
  import opened RunLedger
  import TrustGate
  import LedgerRuns

  // ------------------------------------------------------------------ the effect table

  /** Rows with the first one of that number overwritten. */
  function Rewritten(rows: seq<Effect>, e: Effect): seq<Effect> {
    if rows == [] then []
    else if rows[0].id == e.id then [e] + rows[1..]
    else [rows[0]] + Rewritten(rows[1..], e)
  }

  lemma {:induction false} RewritesOneRow(rows: seq<Effect>, e: Effect, i: nat)
    requires i < |rows| && rows[i].id == e.id
    requires forall j :: 0 <= j < i ==> rows[j].id != e.id
    ensures Rewritten(rows, e) == rows[i := e]
  {
    if i > 0 {
      RewritesOneRow(rows[1..], e, i - 1);
      assert rows[1..][i - 1 := e] == rows[i := e][1..];
    }
  }

  lemma {:induction false} RewritesNothing(rows: seq<Effect>, e: Effect)
    requires forall r :: r in rows ==> r.id != e.id
    ensures Rewritten(rows, e) == rows
  {
    if rows != [] { RewritesNothing(rows[1..], e); }
  }

  class EffectStore {
    var rows: seq<Effect>

    constructor ()
      ensures rows == []
    {
      rows := [];
    }

    method AppendEffect(e: Effect)
      modifies this
      ensures rows == old(rows) + [e]
    {
      rows := rows + [e];
    }

    /** Scan in order, overwrite the first match, report whether there was one. */
    method UpdateEffect(e: Effect) returns (found: bool)
      modifies this
      ensures rows == Rewritten(old(rows), e)
      ensures found <==> exists r :: r in old(rows) && r.id == e.id
    {
      for i := 0 to |rows|
        invariant rows == old(rows)
        invariant forall j :: 0 <= j < i ==> rows[j].id != e.id
      {
        if rows[i].id == e.id {
          RewritesOneRow(rows, e, i);
          rows := rows[i := e];
          return true;
        }
      }
      RewritesNothing(rows, e);
      return false;
    }
  }

  // ------------------------------------------------------------------ owner attestations

  /** What an attestation writes on a record. */
  function Attested(e: Effect, arrived: bool): Effect {
    if arrived then e.(detail := e.detail.(ownerConfirmed := true)) else e.(phase := Failed, expected := Some(false))
  }

  function Attest(ledger: seq<Effect>, ids: set<nat>, arrived: bool): seq<Effect> {
    if arrived then Confirmed(ledger, ids) else NeverArrived(ledger, ids)
  }

  /** The attestation has reached the records in `done` and no others. */
  predicate Halfway(was: seq<Effect>, rows: seq<Effect>, done: seq<Effect>, arrived: bool) {
    |rows| == |was| && forall i :: 0 <= i < |was| ==>
      rows[i] == if was[i] in done then Attested(was[i], arrived) else was[i]
  }

  lemma PlainNamed(rows: seq<Effect>, next: nat, e: Effect)
    requires Numbered(rows, next) && e in rows
    ensures Named(e, PlainUnverifiable(rows)) <==>
      (e.sideEffecting == Some(true) && e.phase == Forwarded && e.expected == None
       && e.detail.grantKey.Some? && !e.detail.readbackError)
  {
  }

  /** A loop's result carries its own next number. */
  lemma NextNumberIsTheLoops(setup: Setup, s: Run, lp: Loop, end: End, n: nat)
    ensures HandleResult(setup, s.(nextId := n), lp, end) == HandleResult(setup, s, lp, end)
  {
  }

  /** One more address of a page is looked at. */
  lemma AdmitsOneMore(found: seq<string>, host: string, emails: seq<string>, j: nat, suffixes: SuffixList)
    requires j < |emails|
    ensures var rest := AdmittedFrom(host, emails[j + 1..], suffixes);
            found + AdmittedFrom(host, emails[j..], suffixes) ==
              if IsAddress(emails[j]) && HostAdmits(emails[j], host, suffixes) then found + [emails[j]] + rest
              else found + rest
  {
    assert emails[j..][0] == emails[j] && emails[j..][1..] == emails[j + 1..];
    var rest := AdmittedFrom(host, emails[j + 1..], suffixes);
    assert [] + rest == rest && found + ([emails[j]] + rest) == found + [emails[j]] + rest;
  }

  // ------------------------------------------------------------------ the operator

  class Operator {
    const setup: Setup
    const store: EffectStore
    var status: RunModel.Status
    var nextId: nat
    var grants: set<GrantKey>
    var pendingGrant: Option<GrantKey>
    var resumeState: Option<Call>
    var discovered: seq<string>
    var continuation: Continuation
    var mandateCounts: Counts
    ghost var trace: seq<Event>

    constructor (setup: Setup)
      ensures this.setup == setup && fresh(store) && Abstract() == Begin()
    {
      this.setup := setup;
      store := new EffectStore();
      status, nextId, mandateCounts := Running, 0, NewCounts;
      grants, pendingGrant, resumeState, discovered := {}, None, None, [];
      continuation := NoContinuation;
      trace := [];
    }

    ghost function Abstract(): Run
      reads this, store
    {
      Run(status, store.rows, nextId, Continuation(grants, pendingGrant, resumeState, discovered), continuation,
          mandateCounts, trace)
    }

    ghost predicate Valid()
      reads this, store
    {
      LedgerRuns.RunGood(Abstract())
    }

    method PersistContinuation()
      modifies this`continuation
      ensures Abstract() == Persist(old(Abstract()), old(Abstract()).hot)
    {
      continuation := Continuation(grants, pendingGrant, resumeState, discovered);
    }

    // ---------------------------------------------------------------- one executor loop

    /** A broker seeded from the ledger, so that an action of an earlier loop stays closed. */
    method NewBroker(trust: map<string, nat>) returns (b: Broker)
      ensures fresh(b) && b.cfg == BrokerConfig(setup, Abstract(), trust) && b.Abstract() == Seed(Abstract())
    {
      var mandate := setup.config.mandate;
      if mandate.Mandate? && discovered != [] {
        mandate := mandate.(scope := mandate.scope + discovered);
      }
      assert mandate == Widened(setup.config.mandate, discovered) by {
        if setup.config.mandate.Mandate? && discovered == [] {
          assert setup.config.mandate.scope + [] == setup.config.mandate.scope;
        }
      }
      b := new Broker(setup.config.(mandate := mandate, trust := trust),
                      ForwardedKeys(store.rows), VerifiedKeys(store.rows), mandateCounts);
    }

    /** The executor's calls, in order, until one of them parks. */
    method ExecuteCalls(b: Broker, attempts: seq<Attempt>)
      returns (effects: seq<Effect>, parked: Option<(Call, BrokerModel.Status)>, ghost happened: seq<Event>)
      requires b.Abstract() == Seed(Abstract())
      modifies b, this`nextId
      ensures var end := RunLoop(b.cfg, store.rows, grants, EmptyLoop(old(Abstract())), attempts);
              Loop(b.Abstract(), effects, nextId, happened, parked) == end
    {
      effects, parked, happened := [], None, [];
      var i := 0;
      while i < |attempts| && parked.None?
        invariant 0 <= i <= |attempts|
        invariant RunLoop(b.cfg, store.rows, grants, EmptyLoop(old(Abstract())), attempts) ==
                  RunLoop(b.cfg, store.rows, grants, Loop(b.Abstract(), effects, nextId, happened, parked),
                          attempts[i..])
      {
        var a := attempts[i];
        ghost var before := Loop(b.Abstract(), effects, nextId, happened, parked);
        assert attempts[i..][0] == a && attempts[i..][1..] == attempts[i + 1..];
        var r := b.PerformPending(a.call, grants, a.world, nextId);
        happened := happened + Happened(b.cfg, before.broker, a, store.rows + effects, r);
        effects := effects + [r.effect];
        nextId := nextId + 1;
        if r.status.NeedsApproval? || r.status.NeedsAuth? {
          parked := Some((a.call, r.status));
        }
        assert Loop(b.Abstract(), effects, nextId, happened, parked)
               == OneCall(b.cfg, store.rows, grants, before, a);
        i := i + 1;
      }
    }

    // ---------------------------------------------------------------- absorbing its result

    method AppendKept(effects: seq<Effect>, step: nat)
      modifies store
      ensures store.rows == old(store.rows) + Kept(effects, step)
    {
      assert store.rows + [] == store.rows;
      for i := 0 to |effects|
        invariant store.rows == old(store.rows) + Kept(effects[..i], step)
      {
        assert effects[..i + 1][..i] == effects[..i];
        var e := effects[i].(detail := effects[i].detail.(stepIndex := Some(step)));
        if e.phase in {Forwarded, Failed, Refused} {
          ghost var kept := Kept(effects[..i], step);
          assert (old(store.rows) + kept) + [e] == old(store.rows) + (kept + [e]);
          store.AppendEffect(e);
        }
      }
      assert effects[..|effects|] == effects;
    }

    method AdmittedOnPage(host: string, emails: seq<string>) returns (found: seq<string>)
      ensures found == AdmittedFrom(host, emails, setup.suffixes)
    {
      found := [];
      for j := 0 to |emails|
        invariant found + AdmittedFrom(host, emails[j..], setup.suffixes) == AdmittedFrom(host, emails, setup.suffixes)
      {
        AdmitsOneMore(found, host, emails, j, setup.suffixes);
        if IsAddress(emails[j]) && HostAdmits(emails[j], host, setup.suffixes) {
          found := found + [emails[j]];
        }
      }
      assert emails[|emails|..] == [];
    }

    /** The addresses the fetched pages vouch for, page by page. */
    method AdmittedFromFetch(pages: seq<Page>) returns (found: seq<string>)
      ensures found == Admitted(pages, setup.suffixes)
    {
      found := [];
      for i := 0 to |pages|
        invariant found + Admitted(pages[i..], setup.suffixes) == Admitted(pages, setup.suffixes)
      {
        assert pages[i..][0] == pages[i] && pages[i..][1..] == pages[i + 1..];
        var here := AdmittedOnPage(pages[i].host, pages[i].emails);
        ghost var rest := Admitted(pages[i + 1..], setup.suffixes);
        assert found + (here + rest) == (found + here) + rest;
        found := found + here;
      }
      assert pages[|pages|..] == [];
    }

    /** The gate's two answers about one claimed step. */
    method GateStep(c: Claim) returns (accept: bool, needsOwner: bool)
      ensures accept == GateAccepts(store.rows, c) && needsOwner == NeedsOwner(store.rows, c)
    {
      var unver, unverifiable := TrustGate.ClassifyEffects(store.rows, c.claimedDone);
      unverifiable := unverifiable - SettledLabels(store.rows);
      var clean := !c.stale && !c.breaking && c.objectiveMet && unver == {};
      accept := c.claimedDone && c.ok && clean && unverifiable == {};
      needsOwner := unverifiable != {} && clean;
    }

    method EscalateRun(reason: Reason, subject: set<nat>)
      modifies this`status, this`discovered
      ensures Abstract() == Escalate(old(Abstract()), reason, subject)
    {
      status, discovered := Escalated(reason, subject), [];
    }

    method PersistMandateCounts(b: Broker)
      modifies this`mandateCounts
      ensures Abstract() == old(Abstract()).(counts := Persisted(old(Abstract()), b.Abstract()))
    {
      if b.mandateCounts.total != 0 {
        mandateCounts := b.mandateCounts;
      }
    }

    /** Records first, before any park, then the addresses the pages vouched for. */
    method WriteResult(effects: seq<Effect>, end: End)
      modifies this`trace, this`discovered, this`continuation, store
      ensures Abstract() ==
        Discover(setup, old(Abstract()).(ledger := old(store.rows) + Kept(effects, end.stepIndex),
                                         trace := old(trace) + PageEvents(end.pages)), end.pages)
    {
      AppendKept(effects, end.stepIndex);
      trace := trace + PageEvents(end.pages);
      var found := AdmittedFromFetch(end.pages);
      if setup.config.mandate.Mandate? && found != [] {
        discovered := discovered + found;
        PersistContinuation();
      }
    }

    method ParkOn(call: Call, asked: BrokerModel.Status)
      modifies this
      ensures var w := old(Abstract());
              Abstract() == if asked.NeedsApproval?
                then Persist(w, w.hot.(pendingGrant := Some(KeyOf(call)), resume := Some(call)))
                       .(status := AwaitingApproval(call, asked.ask))
                else Persist(w, w.hot.(resume := Some(call))).(status := AwaitingConnect)
    {
      resumeState := Some(call);
      if asked.NeedsApproval? {
        pendingGrant := Some(KeyOf(call));
        PersistContinuation();
        status := AwaitingApproval(call, asked.ask);
      } else {
        PersistContinuation();
        status := AwaitingConnect;
      }
    }

    method JudgeStep(c: Claim)
      modifies this
      ensures Abstract() == Judge(old(Abstract()), c)
    {
      if c.toolFailed {
        EscalateRun(OtherReason, {});
        return;
      }
      var accept, needsOwner := GateStep(c);
      if accept {
        trace := trace + [StepAccepted(store.rows)];
      } else if needsOwner {
        EscalateRun(NeedsOwnerConfirm, PlainUnverifiable(store.rows));
      } else if !c.mayRedirect {
        EscalateRun(OtherReason, {});
      }
    }

    method HandleStepResult(b: Broker, effects: seq<Effect>, parked: Option<(Call, BrokerModel.Status)>,
                            ghost happened: seq<Event>, end: End)
      modifies this, store
      ensures Abstract() == HandleResult(setup, old(Abstract()),
                                         Loop(b.Abstract(), effects, old(nextId), happened, parked), end)
    {
      PersistMandateCounts(b);
      trace := trace + happened;
      if end.overBudget {
        trace := trace + [Lost(effects)];
        EscalateRun(OtherReason, {});
        return;
      }
      WriteResult(effects, end);
      assert Abstract() ==
        Written(setup, old(Abstract()), Loop(b.Abstract(), effects, old(nextId), happened, parked), end);
      if parked.Some? {
        ParkOn(parked.value.0, parked.value.1);
      } else {
        JudgeStep(end.claim);
      }
    }

    /** One executor loop and its outcome. */
    method DriveStep(attempts: seq<Attempt>, trust: map<string, nat>, end: End)
      requires Valid()
      modifies this, store
      ensures Abstract() == DriveLoop(setup, old(Abstract()), attempts, trust, end) && Valid()
    {
      var b := NewBroker(trust);
      var effects, parked, happened := ExecuteCalls(b, attempts);
      ghost var lp := Loop(b.Abstract(), effects, nextId, happened, parked);
      NextNumberIsTheLoops(setup, old(Abstract()), lp, end, nextId);
      HandleStepResult(b, effects, parked, happened, end);
      LedgerRuns.DriveKeepsLedger(setup, old(Abstract()), attempts, trust, end);
    }

    // ---------------------------------------------------------------- the owner's replies

    method PendingSendEffects(subject: set<nat>) returns (chosen: seq<Effect>)
      requires Valid()
      ensures forall e :: e in chosen <==> e in store.rows && Named(e, Subject(store.rows, subject))
    {
      chosen := [];
      for i := 0 to |store.rows|
        invariant forall e :: e in chosen <==> e in store.rows[..i] && Named(e, Subject(store.rows, subject))
      {
        var e := store.rows[i];
        assert store.rows[..i + 1] == store.rows[..i] + [e];
        PlainNamed(store.rows, nextId, e);
        assert subject != {} ==> (Named(e, Subject(store.rows, subject)) <==> Named(e, subject));
        if subject != {} {
          if Named(e, subject) { chosen := chosen + [e]; }
        } else if e.sideEffecting == Some(true) && e.phase == Forwarded && e.expected == None
                  && e.detail.grantKey.Some? && !e.detail.readbackError {
          chosen := chosen + [e];
        }
      }
      assert store.rows[..|store.rows|] == store.rows;
    }

    /** Overwrite one record in place. */
    method Overwrite(e: Effect, arrived: bool, ghost was: seq<Effect>, ghost done: seq<Effect>)
      requires Numbered(was, nextId) && e in was
      requires Halfway(was, store.rows, done, arrived)
      modifies store
      ensures Halfway(was, store.rows, done + [e], arrived)
    {
      ghost var i :| 0 <= i < |was| && was[i] == e;
      ghost var rows := store.rows;
      forall j | 0 <= j < |was| && j != i ensures rows[j].id != e.id && was[j] != e {
        assert was[j].id != was[i].id;
      }
      RewritesOneRow(rows, Attested(e, arrived), i);
      var _ := store.UpdateEffect(Attested(e, arrived));
    }

    /** Overwrite each chosen record in place; together they are the attestation on the whole ledger. */
    method AttestSubject(subject: set<nat>, arrived: bool)
      requires Valid()
      modifies store
      ensures store.rows == Attest(old(store.rows), Subject(old(store.rows), subject), arrived)
    {
      var chosen := PendingSendEffects(subject);
      ghost var was, ids := store.rows, Subject(store.rows, subject);
      for k := 0 to |chosen|
        invariant Halfway(was, store.rows, chosen[..k], arrived)
      {
        assert chosen[k] in chosen;
        Overwrite(chosen[k], arrived, was, chosen[..k]);
        assert chosen[..k + 1] == chosen[..k] + [chosen[k]];
      }
      assert chosen[..|chosen|] == chosen;
      forall i | 0 <= i < |was| ensures store.rows[i] == Attest(was, ids, arrived)[i] {
        assert was[i] in was;
      }
    }

    /** The pending key is popped into the grants, and the parked action is handed over. */
    method PopPendingGrant(byOwner: bool) returns (parked: Option<Call>)
      requires Valid() && status.AwaitingApproval?
      modifies this
      ensures Abstract() == Approve(old(Abstract()), byOwner) && Valid() && parked == old(resumeState)
    {
      LedgerRuns.ApproveKeepsLedger(Abstract(), byOwner);
      if pendingGrant.Some? {
        trace := trace + [Granted(pendingGrant.value, status.shown, status.ask, byOwner)];
        grants := grants + {pendingGrant.value};
      }
      parked := resumeState;
      pendingGrant, resumeState := None, None;
      PersistContinuation();
      status := Running;
    }

    /** A yes, the owner's or an elapsed undo window's, releases the parked action and resumes at it. */
    method OnYes(byOwner: bool, world: World, attempts: seq<Attempt>, trust: map<string, nat>, end: End)
      requires Valid() && status.AwaitingApproval? && (byOwner || status.ask == AskUndo)
      modifies this, store
      ensures Valid()
      ensures Abstract() == Next(setup, old(Abstract()), if byOwner then OwnerYes(world, attempts, trust, end)
                                                         else TimerFires(world, attempts, trust, end))
    {
      var parked := PopPendingGrant(byOwner);
      DriveStep(ResumeAt(parked, world, attempts), trust, end);
    }

    /** The old draft's key and resume point are dropped, and the step is driven again. */
    method RevisePreview()
      requires Valid()
      modifies this
      ensures Abstract() == DropPending(old(Abstract())).(status := Running) && Valid()
    {
      pendingGrant, resumeState := None, None;
      PersistContinuation();
      status := Running;
    }

    /** A no stops at a draft cleanly, and escalates any other question. */
    method OnNo()
      requires Valid() && status.AwaitingApproval?
      modifies this
      ensures Abstract() == Next(setup, old(Abstract()), OwnerNo) && Valid()
    {
      if status.ask == AskPreview {
        pendingGrant, resumeState := None, None;
        PersistContinuation();
        status, discovered := Stopped, [];
      } else {
        EscalateRun(OwnerDeclined, {});
      }
    }

    /** A timer finds no answer: it releases an undo window, revises a draft, and takes anything else as declined. */
    method OnTimer(world: World, attempts: seq<Attempt>, trust: map<string, nat>, end: End)
      requires Valid() && status.AwaitingApproval?
      modifies this, store
      ensures Abstract() == Next(setup, old(Abstract()), TimerFires(world, attempts, trust, end)) && Valid()
    {
      if status.ask == AskUndo {
        OnYes(false, world, attempts, trust, end);
      } else if status.ask == AskPreview {
        RevisePreview();
      } else {
        EscalateRun(OwnerDeclined, {});
      }
    }

    method PopResumeState() returns (parked: Option<Call>)
      requires Valid()
      modifies this`resumeState, this`continuation, this`status
      ensures Abstract() == DropResume(old(Abstract())).(status := Running) && Valid()
      ensures parked == old(resumeState)
    {
      parked := resumeState;
      resumeState := None;
      PersistContinuation();
      status := Running;
    }

    method OnConnected(world: World, attempts: seq<Attempt>, trust: map<string, nat>, end: End)
      requires Valid() && status.AwaitingConnect?
      modifies this, store
      ensures Abstract() == Next(setup, old(Abstract()), Connected(world, attempts, trust, end)) && Valid()
    {
      var parked := PopResumeState();
      DriveStep(ResumeAt(parked, world, attempts), trust, end);
    }

    method GiveUpConnect()
      requires Valid() && status.AwaitingConnect?
      modifies this
      ensures Abstract() == Next(setup, old(Abstract()), ConnectGaveUp) && Valid()
    {
      resumeState := None;
      PersistContinuation();
      EscalateRun(OtherReason, {});
    }

    method OnConfirmed(workRemains: bool)
      requires Valid() && SendQuestion(status)
      modifies this, store
      ensures Abstract() == Next(setup, old(Abstract()), OwnerConfirms(workRemains)) && Valid()
    {
      LedgerRuns.NextKeepsLedger(setup, Abstract(), OwnerConfirms(workRemains));
      AttestSubject(status.subject, true);
      if workRemains {
        status := Running;
      } else {
        status, discovered := Finished, [];
      }
    }

    method OnDenied(headroom: bool)
      requires Valid() && SendQuestion(status)
      modifies this, store
      ensures Abstract() == Next(setup, old(Abstract()), OwnerResends(headroom)) && Valid()
    {
      LedgerRuns.NextKeepsLedger(setup, Abstract(), OwnerResends(headroom));
      trace := trace + [Corrected(Subject(store.rows, status.subject))];
      AttestSubject(status.subject, false);
      if headroom {
        status := Running;
      }
    }

    /** Guidance, a stop, a re-check that proved a send missing, and a failed drive. */
    method OnSteering(input: Input)
      requires Valid() && (input.OwnerGuides? || input.OwnerStops? || input.Reverified? || input.Fails?)
      modifies this
      ensures Abstract() == Next(setup, old(Abstract()), input) && Valid()
    {
      LedgerRuns.NextKeepsLedger(setup, Abstract(), input);
      match input
      case OwnerGuides =>
        if status.Escalated? { status := Running; }
      case OwnerStops =>
        if status.Escalated? { status := Stopped; }
      case Reverified(key) =>
        if !status.Stopped? { EscalateRun(ReverifyProvenMissing, ReverifySubject(store.rows, key)); }
      case Fails =>
        if status.Running? { EscalateRun(OtherReason, {}); }
      case _ =>
    }

    /** Every input, in any state: the object does what the run model says. */
    method Receive(input: Input)
      requires Valid()
      modifies this, store
      ensures Abstract() == Next(setup, old(Abstract()), input) && Valid()
    {
      LedgerRuns.NextKeepsLedger(setup, Abstract(), input);
      match input
      case Drive(attempts, trust, end) =>
        if status.Running? { DriveStep(attempts, trust, end); }
      case OwnerYes(world, attempts, trust, end) =>
        if status.AwaitingApproval? { OnYes(true, world, attempts, trust, end); }
      case TimerFires(world, attempts, trust, end) =>
        if status.AwaitingApproval? { OnTimer(world, attempts, trust, end); }
      case OwnerNo =>
        if status.AwaitingApproval? { OnNo(); }
      case OwnerRevises =>
        if status.AwaitingApproval? && status.ask == AskPreview { RevisePreview(); }
      case Connected(world, attempts, trust, end) =>
        if status.AwaitingConnect? { OnConnected(world, attempts, trust, end); }
      case ConnectGaveUp =>
        if status.AwaitingConnect? { GiveUpConnect(); }
      case OwnerConfirms(workRemains) =>
        if SendQuestion(status) { OnConfirmed(workRemains); }
      case OwnerResends(headroom) =>
        if SendQuestion(status) { OnDenied(headroom); }
      case OwnerGuides => OnSteering(input);
      case OwnerStops => OnSteering(input);
      case Reverified(_) => OnSteering(input);
      case Fails => OnSteering(input);
      case Restart =>
        grants, pendingGrant := continuation.grants, continuation.pendingGrant;
        resumeState, discovered := continuation.resume, continuation.discovered;
      case Close =>
        if status.Running? { status, discovered := Finished, []; }
    }
  }
}
