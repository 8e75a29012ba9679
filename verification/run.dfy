/** One run as a state machine (flowers/engine/operator.py): what every input does to the ledger, the grants,
    the mandate counter and the parked question. Models and owners are arbitrary: every choice they make is
    part of the input. `trace` records the history the theorems speak about. */
module RunModel {
  import opened Types
  import opened ReadBack
  import opened ReadbackPoll
  import opened Policy
  import opened Mandate
  import opened BrokerModel
  import opened Registrable
  import TrustGate

  // ------------------------------------------------------------------ history

  datatype Event =
    // the backend was called; `known` are the records of the run at that moment, `counts` the mandate counter
    | Executed(call: Call, cfg: Config, world: World, authority: Authority, counted: bool, counts: Counts,
               known: seq<Effect>, effect: Effect)
    // the action the parked question was about was released, by the owner or by a timer
    | Granted(key: GrantKey, shown: Call, ask: AskKind, byOwner: bool)
    // the budget or deadline exit dropped the records of one executor loop
    | Lost(effects: seq<Effect>)
    // an owner reply said the sends with these ids never arrived
    | Corrected(ids: set<nat>)
    | Fetched(page: Page)
    | StepAccepted(ledger: seq<Effect>)

  datatype Page = Page(host: string, emails: seq<string>)

  // ------------------------------------------------------------------ state

  datatype Reason = NeedsOwnerConfirm | ReverifyProvenMissing | OwnerDeclined | OtherReason

  datatype Status =
    | Running
    | AwaitingApproval(shown: Call, ask: AskKind)
    | AwaitingConnect
    | Escalated(reason: Reason, subject: set<nat>)
    | Stopped
    | Finished

  /** What lives in the operator's dictionaries, and is written to the store at the persist points. */
  datatype Continuation = Continuation(
    grants: set<GrantKey>,
    pendingGrant: Option<GrantKey>,
    resume: Option<Call>,
    discovered: seq<string>)

  datatype Run = Run(
    status: Status,
    ledger: seq<Effect>,
    nextId: nat,
    hot: Continuation,
    saved: Continuation,
    counts: Counts,
    trace: seq<Event>)

  /** What is fixed for a run: the policy, the world's fingerprints, the owner's mandate and the suffix list. */
  datatype Setup = Setup(config: Config, suffixes: SuffixList)

  const NoContinuation := Continuation({}, None, None, [])

  function Begin(): Run {
    Run(Running, [], 0, NoContinuation, NoContinuation, NewCounts, [])
  }

  function Persist(s: Run, hot: Continuation): Run {
    s.(hot := hot, saved := hot)
  }

  /** Leaving a live drive drops the addresses its pages vouched for; the stored copy keeps them. */
  function Release(s: Run): Run {
    s.(hot := s.hot.(discovered := []))
  }

  function Escalate(s: Run, reason: Reason, subject: set<nat>): Run {
    Release(s).(status := Escalated(reason, subject))
  }

  // ------------------------------------------------------------------ seeding a broker

  /** The provider accepted it and no read-back or owner proved it missing. */
  predicate Live(e: Effect) {
    e.sideEffecting == Some(true) && e.phase == Forwarded && e.detail.grantKey.Some? && e.expected != Some(false)
  }

  function ForwardedKeys(effs: seq<Effect>): set<GrantKey> {
    set e | e in effs && Live(e) :: e.detail.grantKey.value
  }

  function VerifiedKeys(effs: seq<Effect>): set<GrantKey> {
    set e | e in effs && Live(e) && e.expected == Some(true) :: e.detail.grantKey.value
  }

  /** The frozen scope widened by the addresses fetched pages vouched for. */
  function Widened(m: Mandate, discovered: seq<string>): Mandate {
    if m.Mandate? then m.(scope := m.scope + discovered) else m
  }

  function BrokerConfig(setup: Setup, s: Run, trust: map<string, nat>): Config {
    setup.config.(mandate := Widened(setup.config.mandate, s.hot.discovered), trust := trust)
  }

  function Seed(s: Run): State {
    State(ForwardedKeys(s.ledger), VerifiedKeys(s.ledger), s.counts)
  }

  // ------------------------------------------------------------------ the executor's calls

  datatype Attempt = Attempt(call: Call, world: World)

  /** One executor loop under way: the broker, the records made so far, and the call it parked on. */
  datatype Loop = Loop(broker: State, effects: seq<Effect>, nextId: nat, trace: seq<Event>,
                       parked: Option<(Call, BrokerModel.Status)>)

  /** What one call leaves in the history: an event exactly when the backend was reached. */
  function Happened(cfg: Config, b: State, a: Attempt, known: seq<Effect>, r: Reply): seq<Event> {
    if r.executed then [Executed(a.call, cfg, a.world, r.authority, r.counted, b.counts, known, r.effect)] else []
  }

  function OneCall(cfg: Config, ledger: seq<Effect>, grants: set<GrantKey>, lp: Loop, a: Attempt): Loop {
    var (b, r) := Handle(cfg, lp.broker, grants, a.call, a.world, lp.nextId);
    Loop(b, lp.effects + [r.effect], lp.nextId + 1, lp.trace + Happened(cfg, lp.broker, a, ledger + lp.effects, r),
         if r.status.NeedsApproval? || r.status.NeedsAuth? then Some((a.call, r.status)) else None)
  }

  function RunLoop(cfg: Config, ledger: seq<Effect>, grants: set<GrantKey>, lp: Loop, attempts: seq<Attempt>): Loop
    decreases |attempts|
  {
    if attempts == [] || lp.parked.Some? then lp
    else RunLoop(cfg, ledger, grants, OneCall(cfg, ledger, grants, lp, attempts[0]), attempts[1..])
  }

  // ------------------------------------------------------------------ the gate on one step

  /** What the executor and the other checks report when a loop ends without parking. */
  datatype Claim = Claim(claimedDone: bool, ok: bool, toolFailed: bool, objectiveMet: bool, stale: bool,
                         breaking: bool, mayRedirect: bool)

  predicate VerificationBroken(e: Effect) {
    e.sideEffecting == Some(true) && e.phase == Forwarded && e.expected == None && e.detail.readbackError
  }

  predicate OwnerConfirmed(e: Effect) {
    e.phase == Forwarded && e.detail.ownerConfirmed
  }

  function SettledLabels(ledger: seq<Effect>): set<string> {
    set e | e in ledger && (VerificationBroken(e) || OwnerConfirmed(e)) :: TrustGate.LabelOf(e)
  }

  function Unconfirmed(ledger: seq<Effect>): set<string> {
    TrustGate.Unverifiable(ledger) - SettledLabels(ledger)
  }

  predicate GateAccepts(ledger: seq<Effect>, c: Claim) {
    && c.claimedDone && c.ok && !c.stale && !c.breaking && c.objectiveMet
    && TrustGate.Unverified(ledger) == {} && Unconfirmed(ledger) == {}
  }

  predicate NeedsOwner(ledger: seq<Effect>, c: Claim) {
    && c.claimedDone && !c.stale && !c.breaking && c.objectiveMet
    && TrustGate.Unverified(ledger) == {} && Unconfirmed(ledger) != {}
  }

  /** The sends an owner-confirm question is about. */
  function PlainUnverifiable(ledger: seq<Effect>): set<nat> {
    set e | e in ledger && e.sideEffecting == Some(true) && e.phase == Forwarded && e.expected == None
            && e.detail.grantKey.Some? && !e.detail.readbackError && e.id.Some? :: e.id.value
  }

  // ------------------------------------------------------------------ absorbing a finished loop

  datatype End = End(overBudget: bool, pages: seq<Page>, claim: Claim, stepIndex: nat)

  /** Only forwarded, failed and refused records reach the ledger, bound to their step. */
  function Kept(effs: seq<Effect>, step: nat): seq<Effect> {
    if effs == [] then []
    else
      var kept := Kept(effs[..|effs| - 1], step);
      var e := effs[|effs| - 1];
      if e.phase in {Forwarded, Failed, Refused} then kept + [e.(detail := e.detail.(stepIndex := Some(step)))]
      else kept
  }

  /** The addresses a fetched page vouches for. */
  function Admitted(pages: seq<Page>, suffixes: SuffixList): seq<string>
    decreases |pages|
  {
    if pages == [] then []
    else AdmittedFrom(pages[0].host, pages[0].emails, suffixes) + Admitted(pages[1..], suffixes)
  }

  function AdmittedFrom(host: string, emails: seq<string>, suffixes: SuffixList): seq<string> {
    if emails == [] then []
    else (if IsAddress(emails[0]) && HostAdmits(emails[0], host, suffixes) then [emails[0]] else [])
         + AdmittedFrom(host, emails[1..], suffixes)
  }

  function Discover(setup: Setup, s: Run, pages: seq<Page>): Run {
    var found := Admitted(pages, setup.suffixes);
    if setup.config.mandate.NoMandate? || found == [] then s
    else Persist(s, s.hot.(discovered := s.hot.discovered + found))
  }

  function PageEvents(pages: seq<Page>): seq<Event> {
    seq(|pages|, i requires 0 <= i < |pages| => Fetched(pages[i]))
  }

  function Persisted(s: Run, broker: State): Counts {
    if broker.counts.total != 0 then broker.counts else s.counts
  }

  /** The state after a loop's records are written, before its outcome is judged. */
  function Written(setup: Setup, s: Run, lp: Loop, end: End): Run {
    Discover(setup,
             s.(ledger := s.ledger + Kept(lp.effects, end.stepIndex),
                nextId := lp.nextId,
                counts := Persisted(s, lp.broker),
                trace := s.trace + lp.trace + PageEvents(end.pages)),
             end.pages)
  }

  /** The budget and deadline exit: nothing of the loop is written but the mandate counter. */
  function Dropped(s: Run, lp: Loop): Run {
    Escalate(s.(nextId := lp.nextId, counts := Persisted(s, lp.broker),
                trace := s.trace + lp.trace + [Lost(lp.effects)]), OtherReason, {})
  }

  function Judge(w: Run, c: Claim): Run {
    if c.toolFailed then Escalate(w, OtherReason, {})
    else if GateAccepts(w.ledger, c) then w.(trace := w.trace + [StepAccepted(w.ledger)])
    else if NeedsOwner(w.ledger, c) then Escalate(w, NeedsOwnerConfirm, PlainUnverifiable(w.ledger))
    else if !c.mayRedirect then Escalate(w, OtherReason, {})
    else w
  }

  function HandleResult(setup: Setup, s: Run, lp: Loop, end: End): Run {
    if end.overBudget then Dropped(s, lp)
    else
      var w := Written(setup, s, lp, end);
      match lp.parked
      case None => Judge(w, end.claim)
      case Some((c, status)) =>
        if status.NeedsApproval? then
          Persist(w, w.hot.(pendingGrant := Some(KeyOf(c)), resume := Some(c)))
            .(status := AwaitingApproval(c, status.ask))
        else Persist(w, w.hot.(resume := Some(c))).(status := AwaitingConnect)
  }

  function EmptyLoop(s: Run): Loop {
    Loop(Seed(s), [], s.nextId, [], None)
  }

  function DriveLoop(setup: Setup, s: Run, attempts: seq<Attempt>, trust: map<string, nat>, end: End): Run {
    HandleResult(setup, s, RunLoop(BrokerConfig(setup, s, trust), s.ledger, s.hot.grants, EmptyLoop(s), attempts), end)
  }

  // ------------------------------------------------------------------ owner replies to an escalation

  /** The records a reply may correct: the named subject, else every plain-unverifiable send. */
  function Subject(ledger: seq<Effect>, subject: set<nat>): set<nat> {
    if subject != {} then set e | e in ledger && e.id.Some? && e.id.value in subject :: e.id.value
    else PlainUnverifiable(ledger)
  }

  predicate Named(e: Effect, ids: set<nat>) {
    e.id.Some? && e.id.value in ids
  }

  function Confirmed(ledger: seq<Effect>, ids: set<nat>): seq<Effect> {
    seq(|ledger|, i requires 0 <= i < |ledger| =>
      if Named(ledger[i], ids) then ledger[i].(detail := ledger[i].detail.(ownerConfirmed := true)) else ledger[i])
  }

  function NeverArrived(ledger: seq<Effect>, ids: set<nat>): seq<Effect> {
    seq(|ledger|, i requires 0 <= i < |ledger| =>
      if Named(ledger[i], ids) then ledger[i].(phase := Failed, expected := Some(false)) else ledger[i])
  }

  /** The record a proven-missing re-check is about; none when its timer carries no key. */
  function ReverifySubject(ledger: seq<Effect>, key: Option<GrantKey>): set<nat> {
    if key.None? then {}
    else set e | e in ledger && e.sideEffecting == Some(true) && e.phase == Forwarded && e.expected == None
                 && e.detail.grantKey == key && e.id.Some? :: e.id.value
  }

  // ------------------------------------------------------------------ inputs

  datatype Input =
    | Drive(attempts: seq<Attempt>, trust: map<string, nat>, end: End)
    | OwnerYes(world: World, attempts: seq<Attempt>, trust: map<string, nat>, end: End)
    // a timer of the parked run fires and no answer is on record
    | TimerFires(world: World, attempts: seq<Attempt>, trust: map<string, nat>, end: End)
    | OwnerNo
    | OwnerRevises
    | Connected(world: World, attempts: seq<Attempt>, trust: map<string, nat>, end: End)
    | ConnectGaveUp
    | OwnerConfirms(workRemains: bool)
    | OwnerResends(headroom: bool)
    | OwnerGuides
    | OwnerStops
    | Reverified(key: Option<GrantKey>)
    | Fails
    | Restart
    | Close

  predicate SendQuestion(s: Status) {
    s.Escalated? && s.reason in {NeedsOwnerConfirm, ReverifyProvenMissing}
  }

  /** A yes, or an undo window that elapsed, turns the pending key into a grant, once. */
  function Approve(s: Run, byOwner: bool): Run
    requires s.status.AwaitingApproval?
  {
    var key := s.hot.pendingGrant;
    var grants := if key.Some? then s.hot.grants + {key.value} else s.hot.grants;
    Persist(s, s.hot.(grants := grants, pendingGrant := None, resume := None))
      .(status := Running,
        trace := if key.Some? then s.trace + [Granted(key.value, s.status.shown, s.status.ask, byOwner)] else s.trace)
  }

  function DropPending(s: Run): Run {
    Persist(s, s.hot.(pendingGrant := None, resume := None))
  }

  function DropResume(s: Run): Run {
    Persist(s, s.hot.(resume := None))
  }

  /** Resume at the parked action, or drive on when none was kept. */
  function ResumeAt(call: Option<Call>, world: World, attempts: seq<Attempt>): seq<Attempt> {
    if call.Some? then [Attempt(call.value, world)] + attempts else attempts
  }

  function Next(setup: Setup, s: Run, input: Input): Run {
    match input
    case Drive(attempts, trust, end) =>
      if s.status.Running? then DriveLoop(setup, s, attempts, trust, end) else s
    case OwnerYes(world, attempts, trust, end) =>
      if s.status.AwaitingApproval?
      then DriveLoop(setup, Approve(s, true), ResumeAt(s.hot.resume, world, attempts), trust, end) else s
    case TimerFires(world, attempts, trust, end) =>
      if !s.status.AwaitingApproval? then s
      else if s.status.ask == AskUndo
      then DriveLoop(setup, Approve(s, false), ResumeAt(s.hot.resume, world, attempts), trust, end)
      else if s.status.ask == AskPreview then DropPending(s).(status := Running)
      else Escalate(s, OwnerDeclined, {})
    case OwnerNo =>
      if !s.status.AwaitingApproval? then s
      else if s.status.ask == AskPreview then Release(DropPending(s)).(status := Stopped)
      else Escalate(s, OwnerDeclined, {})
    case OwnerRevises =>
      if s.status.AwaitingApproval? && s.status.ask == AskPreview then DropPending(s).(status := Running) else s
    case Connected(world, attempts, trust, end) =>
      if s.status.AwaitingConnect?
      then DriveLoop(setup, DropResume(s).(status := Running), ResumeAt(s.hot.resume, world, attempts), trust, end)
      else s
    case ConnectGaveUp =>
      if s.status.AwaitingConnect? then Escalate(DropResume(s), OtherReason, {}) else s
    case OwnerConfirms(workRemains) =>
      if !SendQuestion(s.status) then s
      else
        var t := s.(ledger := Confirmed(s.ledger, Subject(s.ledger, s.status.subject)));
        if workRemains then t.(status := Running) else Release(t).(status := Finished)
    case OwnerResends(headroom) =>
      if !SendQuestion(s.status) then s
      else
        var ids := Subject(s.ledger, s.status.subject);
        s.(status := if headroom then Running else s.status, ledger := NeverArrived(s.ledger, ids),
           trace := s.trace + [Corrected(ids)])
    case OwnerGuides => if s.status.Escalated? then s.(status := Running) else s
    case OwnerStops => if s.status.Escalated? then s.(status := Stopped) else s
    case Reverified(key) =>
      if s.status.Stopped? then s else Escalate(s, ReverifyProvenMissing, ReverifySubject(s.ledger, key))
    case Fails => if s.status.Running? then Escalate(s, OtherReason, {}) else s
    case Restart => s.(hot := s.saved)
    case Close => if s.status.Running? then Release(s).(status := Finished) else s
  }

  /** The run after a whole history of inputs. */
  function After(setup: Setup, s: Run, inputs: seq<Input>): Run
    decreases |inputs|
  {
    if inputs == [] then s else Next(setup, After(setup, s, inputs[..|inputs| - 1]), inputs[|inputs| - 1])
  }
}
