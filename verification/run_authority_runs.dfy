/** Authorisation, scope and caps over whole runs, across parks, approvals, escalations and restarts. */
module AuthorityRuns {
  import opened Types
  import opened Policy
  import opened Mandate
  import opened Registrable
  import opened BrokerModel
  import opened RunModel
  import opened CallFacts
  import opened RunAuthority

  // ------------------------------------------------------------------ one bundle, kept by every step

  ghost predicate TraceGood(setup: Setup, counts: Counts, trace: seq<Event>) {
    AllAllowed(setup, trace) && Capped(setup, counts, trace) && ReleasesFit(setup, trace)
  }

  /** What both copies of the continuation hold was earned in the history. */
  ghost predicate Earned(setup: Setup, c: Continuation, trace: seq<Event>) {
    GrantsReleased(c.grants, trace) && AllVouched(setup, c.discovered, trace)
  }

  /** A parked question and the key a yes would release are one and the same action, in memory and in store. */
  predicate AsksForItsKey(s: Run) {
    s.status.AwaitingApproval? ==>
      && s.hot.pendingGrant == s.saved.pendingGrant == Some(KeyOf(s.status.shown))
      && s.hot.resume == s.saved.resume == Some(s.status.shown)
  }

  /** The parked question is the one its action's tier calls for. */
  predicate AsksFittingly(setup: Setup, s: Run) {
    s.status.AwaitingApproval? ==> AskFits(setup, s.status.shown, s.status.ask)
  }

  ghost predicate RunGood(setup: Setup, s: Run) {
    && TraceGood(setup, s.counts, s.trace)
    && Earned(setup, s.hot, s.trace) && Earned(setup, s.saved, s.trace)
    && AsksForItsKey(s) && AsksFittingly(setup, s)
  }

  lemma MoreTraceKeepsEarned(setup: Setup, c: Continuation, trace: seq<Event>, more: seq<Event>)
    requires Earned(setup, c, trace)
    ensures Earned(setup, c, trace + more)
  {
  }

  lemma QuietKeepsTrace(setup: Setup, counts: Counts, trace: seq<Event>, evs: seq<Event>)
    requires TraceGood(setup, counts, trace)
    requires ReleasesFit(setup, evs) && forall ev :: ev in evs ==> !ev.Executed?
    ensures TraceGood(setup, counts, trace + evs)
  {
    QuietKeepsAllowed(setup, trace, evs);
    QuietKeepsHistory(trace, evs);
  }

  // ------------------------------------------------------------------ one loop

  /** One call of the loop. */
  lemma {:induction false} StepKeepsTrace(setup: Setup, cfg: Config, hot: Continuation, b: State, a: Attempt, id: nat,
                                          rows: seq<Effect>, trace: seq<Event>)
    requires RunsUnder(setup, cfg, hot.discovered)
    requires Earned(setup, hot, trace) && TraceGood(setup, b.counts, trace)
    ensures var (t, r) := Handle(cfg, b, hot.grants, a.call, a.world, id);
            var later := trace + Happened(cfg, b, a, rows, r);
            Earned(setup, hot, later) && TraceGood(setup, t.counts, later)
  {
    var r := Handle(cfg, b, hot.grants, a.call, a.world, id).1;
    CallKeepsAllowed(setup, cfg, hot.discovered, b, hot.grants, a, id, rows, trace);
    CallKeepsCaps(setup, cfg, hot.discovered, b, hot.grants, a, id, rows, trace);
    MoreTraceKeepsEarned(setup, hot, trace, Happened(cfg, b, a, rows, r));
    ExecutionsReleaseNothing(setup, trace, Happened(cfg, b, a, rows, r));
  }

  lemma ExecutionsReleaseNothing(setup: Setup, trace: seq<Event>, evs: seq<Event>)
    requires ReleasesFit(setup, trace) && forall ev :: ev in evs ==> ev.Executed?
    ensures ReleasesFit(setup, trace + evs)
  {
  }

  lemma {:induction false} LoopKeepsTrace(setup: Setup, cfg: Config, hot: Continuation, ledger: seq<Effect>,
                                          base: seq<Event>, lp: Loop, attempts: seq<Attempt>)
    requires RunsUnder(setup, cfg, hot.discovered)
    requires Earned(setup, hot, base + lp.trace) && TraceGood(setup, lp.broker.counts, base + lp.trace)
    ensures var end := RunLoop(cfg, ledger, hot.grants, lp, attempts);
            TraceGood(setup, end.broker.counts, base + end.trace)
    decreases |attempts|
  {
    if attempts != [] && lp.parked.None? {
      var a, rows, trace := attempts[0], ledger + lp.effects, base + lp.trace;
      var r := Handle(cfg, lp.broker, hot.grants, a.call, a.world, lp.nextId).1;
      var more := Happened(cfg, lp.broker, a, rows, r);
      StepKeepsTrace(setup, cfg, hot, lp.broker, a, lp.nextId, rows, trace);
      var next := OneCall(cfg, ledger, hot.grants, lp, a);
      assert trace + more == base + (lp.trace + more) && next.trace == lp.trace + more;
      LoopKeepsTrace(setup, cfg, hot, ledger, base, next, attempts[1..]);
    }
  }

  /** A loop parks on the question its last call's tier calls for. */
  lemma {:induction false} LoopParksFittingly(setup: Setup, cfg: Config, discovered: seq<string>,
                                              grants: set<GrantKey>, ledger: seq<Effect>, lp: Loop,
                                              attempts: seq<Attempt>)
    requires RunsUnder(setup, cfg, discovered) && lp.parked.None?
    ensures var end := RunLoop(cfg, ledger, grants, lp, attempts);
            end.parked.Some? && end.parked.value.1.NeedsApproval? ==>
              AskFits(setup, end.parked.value.0, end.parked.value.1.ask)
    decreases |attempts|
  {
    if attempts != [] {
      ParksAsItsTier(cfg, lp.broker, grants, attempts[0].call, attempts[0].world, lp.nextId);
      var next := OneCall(cfg, ledger, grants, lp, attempts[0]);
      if next.parked.None? {
        LoopParksFittingly(setup, cfg, discovered, grants, ledger, next, attempts[1..]);
      } else {
        assert RunLoop(cfg, ledger, grants, lp, attempts) == next;
      }
    }
  }

  /** The counter is written back whenever it moved. */
  lemma PersistedIsCurrent(setup: Setup, s: Run, broker: State, trace: seq<Event>, later: seq<Event>)
    requires Capped(setup, s.counts, trace) && Capped(setup, broker.counts, later)
    requires |History(trace)| <= |History(later)|
    ensures Capped(setup, Persisted(s, broker), later)
  {
  }

  lemma {:induction false} HistoryGrows(trace: seq<Event>, more: seq<Event>)
    ensures |History(trace)| <= |History(trace + more)|
  {
    if more == [] {
      assert trace + more == trace;
    } else {
      var n := |more| - 1;
      HistoryGrows(trace, more[..n]);
      assert (trace + more)[..|trace| + n] == trace + more[..n];
    }
  }

  // ------------------------------------------------------------------ pages

  lemma {:induction false} AdmittedFromMeaning(host: string, emails: seq<string>, suffixes: SuffixList)
    ensures forall a :: a in AdmittedFrom(host, emails, suffixes) <==>
      a in emails && IsAddress(a) && HostAdmits(a, host, suffixes)
  {
    if emails != [] {
      AdmittedFromMeaning(host, emails[1..], suffixes);
      assert emails == [emails[0]] + emails[1..];
    }
  }

  lemma {:induction false} AdmittedMeaning(pages: seq<Page>, suffixes: SuffixList)
    ensures forall a :: a in Admitted(pages, suffixes) <==>
      exists p :: p in pages && a in p.emails && IsAddress(a) && HostAdmits(a, p.host, suffixes)
    decreases |pages|
  {
    if pages != [] {
      AdmittedMeaning(pages[1..], suffixes);
      AdmittedFromMeaning(pages[0].host, pages[0].emails, suffixes);
      assert pages == [pages[0]] + pages[1..];
    }
  }

  /** And every later broker of the run, restarted or not, admits what they vouch for, until the run is left. */
  lemma PagesWidenTheScope(setup: Setup, s: Run, lp: Loop, end: End, trust: map<string, nat>, page: Page, email: string)
    requires setup.config.mandate.Mandate?
    requires page in end.pages && email in page.emails && IsAddress(email)
    requires HostAdmits(email, page.host, setup.suffixes)
    ensures var w := Written(setup, s, lp, end);
            && OnAllowlist(email, BrokerConfig(setup, w, trust).mandate.scope)
            && OnAllowlist(email, BrokerConfig(setup, Next(setup, w, Restart), trust).mandate.scope)
  {
    var w := Written(setup, s, lp, end);
    DiscoversAdmitted(setup, s, lp, end, page, email);
    DiscoveredIsAdmitted(setup, w, trust, email);
    DiscoveredIsAdmitted(setup, w.(hot := w.saved), trust, email);
  }

  lemma DiscoversAdmitted(setup: Setup, s: Run, lp: Loop, end: End, page: Page, email: string)
    requires setup.config.mandate.Mandate?
    requires page in end.pages && email in page.emails && IsAddress(email)
    requires HostAdmits(email, page.host, setup.suffixes)
    ensures var w := Written(setup, s, lp, end); email in w.hot.discovered && w.hot == w.saved
  {
    AdmittedMeaning(end.pages, setup.suffixes);
    assert email in Admitted(end.pages, setup.suffixes);
  }

  lemma DiscoveredIsAdmitted(setup: Setup, s: Run, trust: map<string, nat>, email: string)
    requires setup.config.mandate.Mandate? && email in s.hot.discovered && IsAddress(email)
    ensures OnAllowlist(email, BrokerConfig(setup, s, trust).mandate.scope)
  {
    AddressAdmitsOnlyItself(email, email);
    assert email in BrokerConfig(setup, s, trust).mandate.scope;
  }

  lemma PagesVouch(setup: Setup, pages: seq<Page>, trace: seq<Event>)
    ensures AllVouched(setup, Admitted(pages, setup.suffixes), trace + PageEvents(pages))
  {
    AdmittedMeaning(pages, setup.suffixes);
    var t := trace + PageEvents(pages);
    forall a | a in Admitted(pages, setup.suffixes) ensures Vouched(setup, t, a) {
      var p :| p in pages && a in p.emails && IsAddress(a) && HostAdmits(a, p.host, setup.suffixes);
      var i :| 0 <= i < |pages| && pages[i] == p;
      assert t[|trace| + i] == Fetched(p);
    }
  }

  // ------------------------------------------------------------------ every input

  lemma WrittenKeepsRun(setup: Setup, s: Run, lp: Loop, end: End)
    requires RunGood(setup, s)
    requires TraceGood(setup, lp.broker.counts, s.trace + lp.trace)
    ensures var w := Written(setup, s, lp, end);
            && TraceGood(setup, w.counts, w.trace)
            && Earned(setup, w.hot, w.trace) && Earned(setup, w.saved, w.trace)
  {
    var mid, pages := s.trace + lp.trace, PageEvents(end.pages);
    HistoryGrows(s.trace, lp.trace);
    PersistedIsCurrent(setup, s, lp.broker, s.trace, mid);
    QuietKeepsTrace(setup, Persisted(s, lp.broker), mid, pages);
    MoreTraceKeepsEarned(setup, s.hot, s.trace, lp.trace);
    MoreTraceKeepsEarned(setup, s.hot, mid, pages);
    MoreTraceKeepsEarned(setup, s.saved, s.trace, lp.trace);
    MoreTraceKeepsEarned(setup, s.saved, mid, pages);
    PagesVouch(setup, end.pages, mid);
  }

  lemma {:induction false} DriveKeepsRun(setup: Setup, s: Run, attempts: seq<Attempt>, trust: map<string, nat>,
                                         end: End)
    requires RunGood(setup, s) && s.status.Running?
    ensures RunGood(setup, DriveLoop(setup, s, attempts, trust, end))
  {
    var cfg := BrokerConfig(setup, s, trust);
    assert s.trace + [] == s.trace;
    LoopKeepsTrace(setup, cfg, s.hot, s.ledger, s.trace, EmptyLoop(s), attempts);
    var lp := RunLoop(cfg, s.ledger, s.hot.grants, EmptyLoop(s), attempts);
    if end.overBudget {
      var mid := s.trace + lp.trace;
      HistoryGrows(s.trace, lp.trace);
      PersistedIsCurrent(setup, s, lp.broker, s.trace, mid);
      QuietKeepsTrace(setup, Persisted(s, lp.broker), mid, [Lost(lp.effects)]);
      ExtendEarned(setup, s, lp.trace, [Lost(lp.effects)]);
    } else {
      WrittenKeepsRun(setup, s, lp, end);
      var w := Written(setup, s, lp, end);
      LoopParksFittingly(setup, cfg, s.hot.discovered, s.hot.grants, s.ledger, EmptyLoop(s), attempts);
      if lp.parked.None? { JudgeKeepsRun(setup, w, end.claim); }
    }
  }

  lemma ExtendEarned(setup: Setup, s: Run, a: seq<Event>, b: seq<Event>)
    requires Earned(setup, s.hot, s.trace) && Earned(setup, s.saved, s.trace)
    ensures Earned(setup, s.hot, s.trace + a + b) && Earned(setup, s.saved, s.trace + a + b)
  {
  }

  lemma JudgeKeepsRun(setup: Setup, w: Run, c: Claim)
    requires TraceGood(setup, w.counts, w.trace) && w.status.Running?
    requires Earned(setup, w.hot, w.trace) && Earned(setup, w.saved, w.trace)
    ensures RunGood(setup, Judge(w, c))
  {
    var ev := StepAccepted(w.ledger);
    QuietKeepsTrace(setup, w.counts, w.trace, [ev]);
    MoreTraceKeepsEarned(setup, w.hot, w.trace, [ev]);
    MoreTraceKeepsEarned(setup, w.saved, w.trace, [ev]);
  }

  lemma {:induction false} ApproveKeepsRun(setup: Setup, s: Run, byOwner: bool)
    requires RunGood(setup, s) && s.status.AwaitingApproval? && (byOwner || s.status.ask == AskUndo)
    ensures RunGood(setup, Approve(s, byOwner))
  {
    var key := KeyOf(s.status.shown);
    var ev := Granted(key, s.status.shown, s.status.ask, byOwner);
    QuietKeepsTrace(setup, s.counts, s.trace, [ev]);
    MoreTraceKeepsEarned(setup, s.hot, s.trace, [ev]);
    assert ev in s.trace + [ev];
    assert Released(s.trace + [ev], key);
  }

  lemma {:induction false} ReleaseKeepsRun(setup: Setup, s: Run, byOwner: bool, world: World, attempts: seq<Attempt>,
                                           trust: map<string, nat>, end: End)
    requires RunGood(setup, s) && s.status.AwaitingApproval? && (byOwner || s.status.ask == AskUndo)
    ensures RunGood(setup, DriveLoop(setup, Approve(s, byOwner), ResumeAt(s.hot.resume, world, attempts), trust, end))
  {
    ApproveKeepsRun(setup, s, byOwner);
    DriveKeepsRun(setup, Approve(s, byOwner), ResumeAt(s.hot.resume, world, attempts), trust, end);
  }

  /** Every input that starts no loop. */
  lemma {:induction false} ReplyKeepsRun(setup: Setup, s: Run, input: Input)
    requires RunGood(setup, s)
    requires !input.Drive? && !input.OwnerYes? && !input.Connected?
    requires input.TimerFires? && s.status.AwaitingApproval? ==> s.status.ask != AskUndo
    ensures RunGood(setup, Next(setup, s, input))
  {
    if input.OwnerResends? && SendQuestion(s.status) {
      var evs := [Corrected(Subject(s.ledger, s.status.subject))];
      QuietKeepsTrace(setup, s.counts, s.trace, evs);
      MoreTraceKeepsEarned(setup, s.hot, s.trace, evs);
      MoreTraceKeepsEarned(setup, s.saved, s.trace, evs);
    }
  }

  lemma {:induction false} NextKeepsRun(setup: Setup, s: Run, input: Input)
    requires RunGood(setup, s)
    ensures RunGood(setup, Next(setup, s, input))
  {
    match input
    case Drive(attempts, trust, end) =>
      if s.status.Running? { DriveKeepsRun(setup, s, attempts, trust, end); }
    case OwnerYes(world, attempts, trust, end) =>
      if s.status.AwaitingApproval? { ReleaseKeepsRun(setup, s, true, world, attempts, trust, end); }
    case TimerFires(world, attempts, trust, end) =>
      if s.status.AwaitingApproval? && s.status.ask == AskUndo {
        ReleaseKeepsRun(setup, s, false, world, attempts, trust, end);
      } else {
        ReplyKeepsRun(setup, s, input);
      }
    case Connected(world, attempts, trust, end) =>
      if s.status.AwaitingConnect? {
        DriveKeepsRun(setup, DropResume(s).(status := Running), ResumeAt(s.hot.resume, world, attempts), trust, end);
      }
    case _ => ReplyKeepsRun(setup, s, input);
  }

  lemma NothingSentYet(setup: Setup)
    ensures RunGood(setup, Begin())
  {
  }

  lemma {:induction false} EveryRunIsAuthorised(setup: Setup, inputs: seq<Input>)
    ensures RunGood(setup, After(setup, Begin(), inputs))
    decreases |inputs|
  {
    if inputs == [] {
      NothingSentYet(setup);
    } else {
      var n := |inputs| - 1;
      EveryRunIsAuthorised(setup, inputs[..n]);
      NextKeepsRun(setup, After(setup, Begin(), inputs[..n]), inputs[n]);
    }
  }

  // ------------------------------------------------------------------ the promises

  /** Authorisation soundness. In every run, every call that reached the backend was above the floors. One of the
      NEVER tier, by nature or by override, ran on the owner's own release of that exact action, never on an elapsed
      undo window; one of the ASK tier ran on a release, inside the mandate, or on learned trust. */
  lemma {:induction false} NothingRanUnauthorised(setup: Setup, inputs: seq<Input>, j: nat)
    requires var trace := After(setup, Begin(), inputs).trace; j < |trace| && trace[j].Executed?
    ensures var trace := After(setup, Begin(), inputs).trace; var ev := trace[j];
            && !setup.config.rules.refused(ev.call.toolkit, ev.call.action)
            && Classify(setup.config.rules, ev.call.toolkit, ev.call.action).Tiered?
            && var tier := Classify(setup.config.rules, ev.call.toolkit, ev.call.action).tier;
            && (tier == Never || setup.config.rules.natural(ev.call.toolkit, ev.call.action) == Never ==>
                  OwnerReleased(trace[..j], KeyOf(ev.call)))
            && (tier == Ask ==>
                  || Released(trace[..j], KeyOf(ev.call))
                  || Covers(ev.cfg.mandate, setup.config.rules, setup.config.reach, ev.call, Ask, ev.counts)
                  || LearnedCovers(ev.cfg.trust, ev.cfg.trustThreshold, setup.config.rules, setup.config.reach,
                                   ev.call, Ask))
  {
    EveryRunIsAuthorised(setup, inputs);
    var trace := After(setup, Begin(), inputs).trace;
    assert Allowed(trace[..j], trace[j]);
    if trace[j].authority == ByGrant {
      assert ReleasesFit(setup, trace[..j]);
      FittingReleases(setup, trace[..j], trace[j].call);
    }
  }

  /** Undo windows are kept. Under a mandate with an undo window no call of any run executes on the mandate alone, and
      every send it counts was released before, on a question that showed this exact action. */
  lemma {:induction false} UndoWindowIsKept(setup: Setup, inputs: seq<Input>, j: nat)
    requires setup.config.mandate.Mandate? && setup.config.mandate.undoSeconds > 0
    requires var trace := After(setup, Begin(), inputs).trace; j < |trace| && trace[j].Executed?
    ensures var trace := After(setup, Begin(), inputs).trace;
            && trace[j].authority != ByMandate
            && (trace[j].counted ==> Released(trace[..j], KeyOf(trace[j].call)))
  {
    EveryRunIsAuthorised(setup, inputs);
    var trace := After(setup, Begin(), inputs).trace;
    assert Allowed(trace[..j], trace[j]) && GrantedWhenShown(setup, trace[j]);
  }

  /** Drafts are approved. Under an automatically committed mandate with previews on, every integration call of any
      run that delivers something to people, the AUTO tier aside, went out after a question that showed this exact
      action was answered with a yes by the owner, or was released as a browser action. */
  lemma {:induction false} DraftsAreApproved(setup: Setup, inputs: seq<Input>, j: nat)
    requires var trace := After(setup, Begin(), inputs).trace;
             && j < |trace| && trace[j].Executed? && Previews(setup, trace[j].call)
             && Classify(setup.config.rules, trace[j].call.toolkit, trace[j].call.action) != Tiered(Auto)
    ensures var trace := After(setup, Begin(), inputs).trace; var key := KeyOf(trace[j].call);
            || OwnerReleased(trace[..j], key)
            || exists ev :: ev in trace[..j] && ev.Granted? && ev.key == KeyOf(ev.shown) == key && ev.shown.browser
  {
    EveryRunIsAuthorised(setup, inputs);
    var trace := After(setup, Begin(), inputs).trace;
    assert Allowed(trace[..j], trace[j]) && GrantedWhenShown(setup, trace[j]);
    assert ReleasesFit(setup, trace[..j]);
    FittingReleases(setup, trace[..j], trace[j].call);
  }

  /** A yes releases exactly the action the question showed, once, and the next loop starts with that action;
      in every reachable state, restarts between the question and the yes included. */
  lemma {:induction false} YesReleasesWhatWasShown(setup: Setup, inputs: seq<Input>, world: World,
                                                   attempts: seq<Attempt>, trust: map<string, nat>, end: End)
    requires After(setup, Begin(), inputs).status.AwaitingApproval?
    ensures var s := After(setup, Begin(), inputs);
            && Approve(s, true).hot.grants == s.hot.grants + {KeyOf(s.status.shown)}
            && Approve(s, true).hot.pendingGrant == None
            && Next(setup, s, OwnerYes(world, attempts, trust, end))
               == DriveLoop(setup, Approve(s, true), [Attempt(s.status.shown, world)] + attempts, trust, end)
  {
    EveryRunIsAuthorised(setup, inputs);
    YesResumesAtTheCall(setup, After(setup, Begin(), inputs), world, attempts, trust, end);
  }

  lemma YesResumesAtTheCall(setup: Setup, s: Run, world: World, attempts: seq<Attempt>, trust: map<string, nat>,
                            end: End)
    requires s.status.AwaitingApproval? && AsksForItsKey(s)
    ensures Approve(s, true).hot.grants == s.hot.grants + {KeyOf(s.status.shown)}
    ensures Approve(s, true).hot.pendingGrant == None
    ensures Next(setup, s, OwnerYes(world, attempts, trust, end))
            == DriveLoop(setup, Approve(s, true), [Attempt(s.status.shown, world)] + attempts, trust, end)
  {
  }

  /** Mandate caps over whole runs: the counter carried from broker to broker is the exact tally of the counted
      sends, each domain's count is the sum over its recipients, and no cap is ever exceeded, also when a budget
      exit drops the records. */
  lemma {:induction false} CapsHold(setup: Setup, inputs: seq<Input>)
    requires setup.config.mandate.Mandate?
    ensures var s := After(setup, Begin(), inputs);
            && Tallies(s.counts, History(s.trace)) && Balanced(s.counts)
            && WithinCaps(History(s.trace), EffectiveCaps(setup.config.mandate))
  {
    EveryRunIsAuthorised(setup, inputs);
  }

  /** The counter never forgets a send it charged, whatever happens to the record of it. */
  lemma {:induction false} CountedSendIsRemembered(setup: Setup, inputs: seq<Input>, j: nat)
    requires var trace := After(setup, Begin(), inputs).trace; j < |trace| && trace[j].Executed? && trace[j].counted
    ensures var s := After(setup, Begin(), inputs);
            s.trace[j].call.params in s.counts.digests && Governed(setup, s.trace[j].call)
  {
    EveryRunIsAuthorised(setup, inputs);
    var s := After(setup, Begin(), inputs);
    CountedIsInHistory(s.trace, j);
    var i :| 0 <= i < |History(s.trace)| && History(s.trace)[i].params == s.trace[j].call.params;
    assert s.counts.digests[i] == s.trace[j].call.params;
  }

  /** Recipient scope: every recipient of a mandate-authorised call is on the owner's own list, or is the very
      address an earlier fetched page of its own organisation carried. */
  lemma {:induction false} RecipientsStayInScope(setup: Setup, inputs: seq<Input>, j: nat, r: string)
    requires var trace := After(setup, Begin(), inputs).trace;
             j < |trace| && trace[j].Executed? && trace[j].authority == ByMandate
             && r in Recipients(setup.config.reach, trace[j].call)
    ensures setup.config.mandate.Mandate?
    ensures OnAllowlist(r, setup.config.mandate.scope)
            || Vouched(setup, After(setup, Begin(), inputs).trace[..j], r)
  {
    EveryRunIsAuthorised(setup, inputs);
    var trace := After(setup, Begin(), inputs).trace;
    assert InScope(setup, trace[..j], trace[j]);
  }

  /** Under an owner grant over n addresses a whole run makes at most n mandate-counted sends, at most one to
      each recipient, and each goes to an address the owner named or an earlier page vouched for. */
  lemma {:induction false} OwnerGrantOverARun(setup: Setup, types: seq<(string, string)>, scope: seq<string>,
                                              goal: Goal, inputs: seq<Input>)
    requires forall n :: n in goal.named ==> IsAddress(n)
    requires setup.config.mandate == OwnerGrant(setup.config.reach, types, scope, goal)
    requires setup.config.mandate.Mandate?
    ensures var trace := After(setup, Begin(), inputs).trace;
            && |History(trace)| <= |DedupLower(scope)|
            && (forall r :: ToRecipient(History(trace), r) <= 1)
            && (forall j, r :: 0 <= j < |trace| && trace[j].Executed? && trace[j].counted
                               && r in Recipients(setup.config.reach, trace[j].call) ==>
                  r in goal.named || Vouched(setup, trace[..j], r))
  {
    EveryRunIsAuthorised(setup, inputs);
    var trace := After(setup, Begin(), inputs).trace;
    assert EffectiveCaps(setup.config.mandate).maxSends <= |DedupLower(scope)|;
    forall j, r | 0 <= j < |trace| && trace[j].Executed? && trace[j].counted
                  && r in Recipients(setup.config.reach, trace[j].call)
      ensures r in goal.named || Vouched(setup, trace[..j], r)
    {
      assert InScope(setup, trace[..j], trace[j]);
      if OnAllowlist(r, setup.config.mandate.scope) {
        GrantAdmitsOnlyNamed(setup.config.reach, types, scope, goal, trace[j].call, r);
      }
    }
  }
}
