/** What one broker call can and cannot do, whatever the world answers. */
module CallFacts {
  import opened Types
  import opened ReadBack
  import opened ReadbackPoll
  import opened Policy
  import opened Mandate
  import opened BrokerModel
  import opened RunModel
  import Text
  import TrustGate

  /** The call reached the backend and its own read-back matched. */
  predicate Confirms(cfg: Config, c: Call, w: World) {
    && Side(cfg, c) && w.execution.Accepted?
    && Verify(Look(c, w.before), Looks(c, w.polls), FingerprintOf(cfg, c, w.execution.created),
              cfg.verifyAttempts).expected == Some(true)
  }

  /** The record carries the call's number and, when it is a live send, the call's own key; the broker's two
      sets grow by exactly what the record says. */
  lemma {:induction false} SetsFollowRecords(cfg: Config, s: State, grants: set<GrantKey>, c: Call, w: World, id: nat)
    ensures var (t, r) := Handle(cfg, s, grants, c, w, id); var e := r.effect;
            && e.id == Some(id) && e.sideEffecting.Some?
            && (e.sideEffecting == Some(true) && e.phase == Forwarded ==> e.detail.grantKey == Some(KeyOf(c)))
            && t.forwarded == s.forwarded + ForwardedKeys([e])
            && (s.verified <= s.forwarded ==> t.verified == s.verified + VerifiedKeys([e]))
  {
    var r := Handle(cfg, s, grants, c, w, id).1;
    KeysOfOne(r.effect);
    SetsGrowByTheirRecord(cfg, s, grants, c, w, id);
  }

  lemma KeysOfOne(e: Effect)
    ensures ForwardedKeys([e]) == if Live(e) then {e.detail.grantKey.value} else {}
    ensures VerifiedKeys([e]) == if Live(e) && e.expected == Some(true) then {e.detail.grantKey.value} else {}
  {
    assert e in [e];
  }

  lemma ForwardedShape(cfg: Config, c: Call, w: World, id: nat)
    requires w.execution.Accepted?
    ensures var e := ForwardedEffect(cfg, c, w, id);
            && e.id == Some(id) && e.sideEffecting == Some(true) && e.phase == Forwarded
            && e.detail.grantKey == Some(KeyOf(c))
  {
  }

  lemma SettledSets(cfg: Config, s: State, c: Call, expected: Option<bool>)
    ensures var t := Settled(Charge(cfg, s, c), c, expected);
            && t.forwarded == (if expected != Some(false) then s.forwarded + {KeyOf(c)} else s.forwarded)
            && t.verified == (if expected == Some(true) then s.verified + {KeyOf(c)} else s.verified)
  {
  }

  lemma {:induction false} RunGrowsByItsRecord(cfg: Config, s: State, c: Call, w: World, id: nat, authority: Authority)
    ensures var (t, r) := RunCall(cfg, s, c, w, id, authority); var e := r.effect;
            && e.id == Some(id) && e.sideEffecting.Some?
            && (e.sideEffecting == Some(true) && e.phase == Forwarded ==> e.detail.grantKey == Some(KeyOf(c)))
            && t.forwarded == (if Live(e) then s.forwarded + {KeyOf(c)} else s.forwarded)
            && t.verified == (if Live(e) && e.expected == Some(true) then s.verified + {KeyOf(c)} else s.verified)
  {
    if w.execution.Accepted? && Side(cfg, c) {
      var e := ForwardedEffect(cfg, c, w, id);
      ForwardedShape(cfg, c, w, id);
      SettledSets(cfg, s, c, e.expected);
      assert RunCall(cfg, s, c, w, id, authority).1.effect == e;
    }
  }

  lemma SetsGrowByTheirRecord(cfg: Config, s: State, grants: set<GrantKey>, c: Call, w: World, id: nat)
    ensures var (t, r) := Handle(cfg, s, grants, c, w, id); var e := r.effect;
            && e.id == Some(id) && e.sideEffecting.Some?
            && (e.sideEffecting == Some(true) && e.phase == Forwarded ==> e.detail.grantKey == Some(KeyOf(c)))
            && t.forwarded == (if Live(e) then s.forwarded + {KeyOf(c)} else s.forwarded)
            && t.verified == (if Live(e) && e.expected == Some(true) then s.verified + {KeyOf(c)} else s.verified)
  {
    var d := Decide(cfg, s, grants, c, w);
    if d.Execute? { RunGrowsByItsRecord(cfg, s, c, w, id, d.authority); }
  }

  /** A side effect reaches the backend only while its key is open. */
  lemma ExecutesOnlyOpenKeys(cfg: Config, s: State, grants: set<GrantKey>, c: Call, w: World, id: nat)
    ensures var (t, r) := Handle(cfg, s, grants, c, w, id);
            r.executed && Side(cfg, c) ==> KeyOf(c) !in s.forwarded
  {
  }

  /** A record says verified only when this call's read-back matched, or an earlier one of the key did. */
  lemma VerifiedHasASource(cfg: Config, s: State, grants: set<GrantKey>, c: Call, w: World, id: nat)
    ensures var (t, r) := Handle(cfg, s, grants, c, w, id);
            r.effect.expected == Some(true) ==>
              KeyOf(c) in s.verified || (r.executed && Confirms(cfg, c, w))
  {
  }

  /** Nothing runs without one of the four authorities, each with its own conditions; a refused action and a
      payment form never run. */
  lemma NothingRunsUnauthorised(cfg: Config, s: State, grants: set<GrantKey>, c: Call, w: World, id: nat)
    ensures var (t, r) := Handle(cfg, s, grants, c, w, id);
            r.executed ==>
              && !Floored(cfg, c, w)
              && Classify(cfg.rules, c.toolkit, c.action).Tiered?
              && var tier := Classify(cfg.rules, c.toolkit, c.action).tier;
              && (tier == Never ==> r.authority == ByGrant)
              && match r.authority
                 case NotNeeded => tier == Auto
                 case ByGrant => KeyOf(c) in grants
                 case ByMandate => Covers(cfg.mandate, cfg.rules, cfg.reach, c, tier, s.counts)
                 case ByLearned => LearnedCovers(cfg.trust, cfg.trustThreshold, cfg.rules, cfg.reach, c, tier)
  {
  }

  // ------------------------------------------------------------------ what a call comes to

  /** The owner sees this call as a draft before it goes out. */
  predicate PreviewDue(cfg: Config, c: Call) {
    !c.browser && cfg.mandateAuto && !cfg.previewNever && cfg.reach.delivering(c.toolkit, c.action)
  }

  /** A covered call that is first shown to the owner: as a draft, or in an undo window. */
  predicate ShownFirst(cfg: Config, counts: Counts, c: Call) {
    MandateCovers(cfg, counts, c) && (PreviewDue(cfg, c) || cfg.mandate.undoSeconds > 0)
  }

  /** No record closes this call's key. */
  predicate IsOpen(cfg: Config, s: State, c: Call) {
    !(Side(cfg, c) && KeyOf(c) in s.forwarded)
  }

  /** A covered call nobody released yet is never just sent while a preview is due or an undo window is set: it parks
      on the draft, else in the window; only without either does the mandate itself send it. */
  lemma CoveredCallIsShownFirst(cfg: Config, s: State, grants: set<GrantKey>, c: Call, w: World, id: nat)
    requires !Floored(cfg, c, w) && MandateCovers(cfg, s.counts, c) && IsOpen(cfg, s, c) && KeyOf(c) !in grants
    ensures var r := Handle(cfg, s, grants, c, w, id).1;
            && (PreviewDue(cfg, c) ==> r.status == NeedsApproval(AskPreview) && !r.executed)
            && (!PreviewDue(cfg, c) && cfg.mandate.undoSeconds > 0 ==>
                  r.status == NeedsApproval(AskUndo) && !r.executed)
            && (!PreviewDue(cfg, c) && cfg.mandate.undoSeconds <= 0 ==> r.executed && r.authority == ByMandate)
  {
    UndoWindowClamps(cfg.mandate);
  }

  /** The backend is called exactly for an unfloored, open call that was granted, or that needs no new question:
      automatic by tier, covered and not shown first, or learned. */
  lemma ExecutesIff(cfg: Config, s: State, grants: set<GrantKey>, c: Call, w: World, id: nat)
    ensures Handle(cfg, s, grants, c, w, id).1.executed <==>
      && !Floored(cfg, c, w) && IsOpen(cfg, s, c)
      && (|| KeyOf(c) in grants
          || (&& !ShownFirst(cfg, s.counts, c)
              && (|| Classify(cfg.rules, c.toolkit, c.action) == Tiered(Auto)
                  || MandateCovers(cfg, s.counts, c) || Learned(cfg, s.counts, c))))
  {
    if MandateCovers(cfg, s.counts, c) { UndoWindowClamps(cfg.mandate); }
  }

  /** Every other call is answered without it. It is refused exactly by the floors and replayed exactly when its key is
      closed. */
  lemma AnswersWithoutRunningIff(cfg: Config, s: State, grants: set<GrantKey>, c: Call, w: World, id: nat)
    ensures var r := Handle(cfg, s, grants, c, w, id).1;
            && (r.status == RefusedCall <==> Floored(cfg, c, w))
            && (r.effect.detail.replay <==> !Floored(cfg, c, w) && !IsOpen(cfg, s, c))
            && (r.effect.detail.replay ==> !r.executed && r.status == Done && r.effect.phase == Forwarded)
            && (!r.executed ==> r.status == RefusedCall || r.effect.detail.replay || r.status.NeedsApproval?)
  {
  }

  /** Otherwise it is asked about, and each question is asked exactly when it is the one due. */
  lemma AsksIff(cfg: Config, s: State, grants: set<GrantKey>, c: Call, w: World, id: nat)
    ensures var r := Handle(cfg, s, grants, c, w, id).1;
            var ungranted := !Floored(cfg, c, w) && IsOpen(cfg, s, c) && KeyOf(c) !in grants;
            var covered, tier := MandateCovers(cfg, s.counts, c), Classify(cfg.rules, c.toolkit, c.action);
            && (r.status == NeedsApproval(AskPreview) <==> ungranted && covered && PreviewDue(cfg, c))
            && (r.status == NeedsApproval(AskUndo) <==>
                  ungranted && covered && !PreviewDue(cfg, c) && cfg.mandate.undoSeconds > 0)
            && (r.status == NeedsApproval(AskNever) <==> ungranted && tier == Tiered(Never))
            && (r.status == NeedsApproval(AskSideEffect) <==>
                  ungranted && tier == Tiered(Ask) && !covered && !Learned(cfg, s.counts, c))
  {
    AnswersByDecision(cfg, s, grants, c, w, id);
    if MandateCovers(cfg, s.counts, c) { UndoWindowClamps(cfg.mandate); }
  }

  lemma AnswersByDecision(cfg: Config, s: State, grants: set<GrantKey>, c: Call, w: World, id: nat)
    ensures var d := Decide(cfg, s, grants, c, w);
            forall ask :: Handle(cfg, s, grants, c, w, id).1.status == NeedsApproval(ask) <==> d == Park(ask)
  {
  }

  /** What the backend's answer becomes: an error is a failed attempt of that key, a connect request with a link parks
      an integration, a read touches nothing, and a side effect carries exactly what its read-back came to. */
  lemma AnswerBecomesRecord(cfg: Config, s: State, grants: set<GrantKey>, c: Call, w: World, id: nat)
    requires Handle(cfg, s, grants, c, w, id).1.executed
    ensures var r := Handle(cfg, s, grants, c, w, id).1; var e := r.effect;
            && e.toolkit == c.toolkit && e.action == c.action && e.sideEffecting == Some(Side(cfg, c))
            && match w.execution
               case Rejected(auth, url) =>
                 if auth && url && !c.browser then r.status == NeedsAuth && e.phase == Deferred
                 else r.status == Erred && e.phase == Failed && e.detail.grantKey == Some(KeyOf(c))
               case Raised => r.status == Erred && e.phase == Failed && e.detail.grantKey == Some(KeyOf(c))
               case Accepted(_, _) =>
                 && r.status == Done && e.phase == Forwarded
                 && (!Side(cfg, c) ==> e.expected == None)
                 && (Side(cfg, c) ==>
                       var rb := Verify(Look(c, w.before), Looks(c, w.polls),
                                        FingerprintOf(cfg, c, w.execution.created), cfg.verifyAttempts);
                       && e.drift == rb.drift && e.expected == rb.expected && e.detail.readbackError == rb.broken
                       && e.detail.grantKey == Some(KeyOf(c)))
  {
  }

  /** What one call leaves behind concerns that very action alone: every other open call, different in toolkit, action
      or any one parameter, is still open after it, and no grant of the one lets the other run. */
  lemma KeysTellActionsApart(cfg: Config, s: State, grants: set<GrantKey>, c: Call, w: World, id: nat, d: Call,
                             later: World)
    requires d.toolkit != c.toolkit || d.action != c.action || d.params != c.params
    ensures IsOpen(cfg, Handle(cfg, s, grants, c, w, id).0, d) <==> IsOpen(cfg, s, d)
    ensures Decide(cfg, s, grants + {KeyOf(c)}, d, later) == Decide(cfg, s, grants, d, later)
  {
    SetsGrowByTheirRecord(cfg, s, grants, c, w, id);
  }

  /** And the same action with the same parameters is one key: once it stands it is closed. */
  lemma SameActionIsClosed(cfg: Config, s: State, grants: set<GrantKey>, c: Call, w: World, id: nat, d: Call)
    requires d.toolkit == c.toolkit && d.action == c.action && d.params == c.params && Side(cfg, c)
    ensures var (t, r) := Handle(cfg, s, grants, c, w, id);
            Live(r.effect) ==> !IsOpen(cfg, t, d)
  {
    SetsGrowByTheirRecord(cfg, s, grants, c, w, id);
  }

  /** The phase of the record is the answer given: deferred calls, and they alone, still wait for somebody. */
  lemma PhaseTellsTheAnswer(cfg: Config, s: State, grants: set<GrantKey>, c: Call, w: World, id: nat)
    ensures var r := Handle(cfg, s, grants, c, w, id).1;
            && (r.effect.phase == Deferred <==> r.status.NeedsApproval? || r.status == NeedsAuth)
            && (r.effect.phase == Refused <==> r.status == RefusedCall)
            && (r.effect.phase == Failed <==> r.status == Erred)
            && (r.effect.phase == Forwarded <==> r.status == Done)
  {
    var d := Decide(cfg, s, grants, c, w);
    if d.Execute? { PhaseOfARun(cfg, s, c, w, id, d.authority); }
  }

  lemma PhaseOfARun(cfg: Config, s: State, c: Call, w: World, id: nat, authority: Authority)
    ensures var r := RunCall(cfg, s, c, w, id, authority).1;
            match r.status
            case Done => r.effect.phase == Forwarded
            case Erred => r.effect.phase == Failed
            case NeedsAuth => r.effect.phase == Deferred
            case _ => false
  {
  }

  /** A call runs on what its class has earned exactly when it is an open, ungranted integration side effect of the ASK
      tier whose class the mandate does not list, that reaches nobody and was approved often enough. */
  lemma RunsLearnedIff(cfg: Config, s: State, grants: set<GrantKey>, c: Call, w: World, id: nat)
    ensures var r := Handle(cfg, s, grants, c, w, id).1; var name := NormLabel(Label(c.toolkit, c.action));
            r.executed && r.authority == ByLearned <==>
            && !Floored(cfg, c, w) && !c.browser && IsOpen(cfg, s, c) && KeyOf(c) !in grants
            && Side(cfg, c) && Classify(cfg.rules, c.toolkit, c.action) == Tiered(Ask) && !ListsAction(cfg.mandate, c)
            && !cfg.reach.delivering(c.toolkit, c.action) && !cfg.reach.fanOut(c)
            && (forall i :: i in cfg.reach.harvested(c) ==> Text.Norm(i) == "")
            && name in cfg.trust && cfg.trust[name] >= Max(1, cfg.trustThreshold)
  {
    LearnedIff(cfg.trust, cfg.trustThreshold, cfg.rules, cfg.reach, c, Ask);
    DecidesLearnedIff(cfg, s, grants, c, w);
    var d := Decide(cfg, s, grants, c, w);
    if d.Execute? { RunKeepsAuthority(cfg, s, c, w, id, d.authority); }
  }

  lemma DecidesLearnedIff(cfg: Config, s: State, grants: set<GrantKey>, c: Call, w: World)
    ensures Decide(cfg, s, grants, c, w) == Execute(ByLearned) <==>
      && !Floored(cfg, c, w) && !c.browser && IsOpen(cfg, s, c) && KeyOf(c) !in grants
      && Side(cfg, c) && Classify(cfg.rules, c.toolkit, c.action) == Tiered(Ask) && !ListsAction(cfg.mandate, c)
      && LearnedCovers(cfg.trust, cfg.trustThreshold, cfg.rules, cfg.reach, c, Ask)
  {
  }

  lemma RunKeepsAuthority(cfg: Config, s: State, c: Call, w: World, id: nat, authority: Authority)
    ensures var r := RunCall(cfg, s, c, w, id, authority).1; r.executed && r.authority == authority
  {
  }

  /** A replay says of its key what is known of it, and the gate takes that for an ordinary integration; a browser
      action nobody saw this time goes to the owner, even one that was verified before. */
  lemma ReplayRepeatsWhatIsKnown(cfg: Config, s: State, grants: set<GrantKey>, c: Call, w: World, id: nat)
    requires !Floored(cfg, c, w) && !IsOpen(cfg, s, c)
    ensures var e := Handle(cfg, s, grants, c, w, id).1.effect; var known := KeyOf(c) in s.verified;
            && e.expected == (if known then Some(true) else None) && e.drift == e.expected
            && e.detail.grantKey == Some(KeyOf(c))
            && (!c.browser && !TrustGate.RequiresProvenance(e) ==>
                  TrustGate.VerdictOf(e) == if known then TrustGate.Verified else TrustGate.AskOwner)
            && (c.browser ==> TrustGate.VerdictOf(e) == TrustGate.AskOwner)
  {
    var e := Handle(cfg, s, grants, c, w, id).1.effect;
    assert e == ReplayEffect(cfg, s, c, id);
    if c.browser { CuaNeedsProvenance(e); }
  }

  /** The polls of a side effect are taken as they came; only a browser's failed look counts as nothing seen, so a
      browser action is never excused because the tool that should verify it is broken. */
  lemma LooksAreTakenAsTheyCame(cfg: Config, s: State, grants: set<GrantKey>, c: Call, w: World, id: nat)
    requires Handle(cfg, s, grants, c, w, id).1.executed && w.execution.Accepted? && Side(cfg, c)
    ensures var e := Handle(cfg, s, grants, c, w, id).1.effect;
            && (c.browser ==> !e.detail.readbackError && !VerificationBroken(e))
            && (!c.browser || (w.before.Seen? && forall p :: p in w.polls ==> p.Seen?) ==>
                  Readback(e.drift, e.expected, e.detail.readbackError)
                  == Verify(w.before, w.polls, FingerprintOf(cfg, c, w.execution.created), cfg.verifyAttempts))
  {
    AnswerBecomesRecord(cfg, s, grants, c, w, id);
    BrokenIff(Look(c, w.before), Looks(c, w.polls), FingerprintOf(cfg, c, w.execution.created), cfg.verifyAttempts);
    if !c.browser || forall p :: p in w.polls ==> p.Seen? { assert Looks(c, w.polls) == w.polls; }
  }

  /** Who did it and who looked: an integration's record names the run's actor and no observer, a browser side effect
      the browser's own actor and the observer of the moment. */
  lemma RecordNamesItsWitness(cfg: Config, s: State, grants: set<GrantKey>, c: Call, w: World, id: nat)
    requires Handle(cfg, s, grants, c, w, id).1.executed && w.execution.Accepted? && Side(cfg, c)
    ensures var e := Handle(cfg, s, grants, c, w, id).1.effect;
            && e.effectKind == (if c.browser then "cua" else "composio") && e.verification == None
            && e.observer == (if c.browser then Some(w.observer) else None)
            && e.actor == Some(if c.browser then w.execution.actor else cfg.actor)
  {
  }

  /** So a browser side effect that its read-back matched is verified exactly when somebody other than its actor was
      looking; otherwise the owner is asked. */
  lemma BrowserNeedsAnotherPair(cfg: Config, s: State, grants: set<GrantKey>, c: Call, w: World, id: nat)
    requires c.browser && w.execution.Accepted? && Side(cfg, c)
    requires var r := Handle(cfg, s, grants, c, w, id).1; r.executed && r.effect.expected == Some(true)
    ensures TrustGate.VerdictOf(Handle(cfg, s, grants, c, w, id).1.effect) ==
      if w.observer != "" && w.observer != w.execution.actor then TrustGate.Verified else TrustGate.AskOwner
  {
    RecordNamesItsWitness(cfg, s, grants, c, w, id);
    AnswerBecomesRecord(cfg, s, grants, c, w, id);
    CuaNeedsProvenance(Handle(cfg, s, grants, c, w, id).1.effect);
  }

  lemma CuaNeedsProvenance(e: Effect)
    requires e.effectKind == "cua"
    ensures TrustGate.RequiresProvenance(e)
  {
    assert Text.Lower("cua") == "cua";
  }

  /** And what the gate makes of the record: a call that was refused or parked contradicts a completion, a failed side
      effect does until its own key lands, a read never does, and a side effect of an ordinary integration stands
      or falls with its read-back. */
  lemma GateReadsTheCall(cfg: Config, s: State, grants: set<GrantKey>, c: Call, w: World, id: nat)
    ensures var r := Handle(cfg, s, grants, c, w, id).1; var v := TrustGate.VerdictOf(r.effect);
            && (r.status in {RefusedCall} || r.status.NeedsApproval? ==> v == TrustGate.Objected)
            && (r.executed && !Side(cfg, c) ==> v == TrustGate.NotAnEffect)
            && (r.executed && Side(cfg, c) && r.status == NeedsAuth ==> v == TrustGate.Objected)
            && (r.executed && Side(cfg, c) && r.status == Erred ==> v == TrustGate.Retryable)
            && (r.executed && Side(cfg, c) && r.status == Done ==>
                  (r.effect.expected == Some(false) ==> v == TrustGate.Objected)
                  && (!TrustGate.RequiresProvenance(r.effect) && !c.browser ==>
                        (r.effect.expected == Some(true) ==> v == TrustGate.Verified)
                        && (r.effect.expected == None ==>
                              v == if r.effect.drift == Some(false) then TrustGate.Objected else TrustGate.AskOwner)))
  {
  }

  /** A call that parks is above the floors. It is asked about as NEVER exactly when its tier is NEVER, and put in an
      undo window only when no preview of it is due. */
  lemma ParksAsItsTier(cfg: Config, s: State, grants: set<GrantKey>, c: Call, w: World, id: nat)
    ensures var (t, r) := Handle(cfg, s, grants, c, w, id);
            r.status.NeedsApproval? ==>
              && Classify(cfg.rules, c.toolkit, c.action).Tiered?
              && (r.status.ask == AskNever <==> Classify(cfg.rules, c.toolkit, c.action).tier == Never)
              && (r.status.ask == AskUndo ==>
                    c.browser || !cfg.mandateAuto || cfg.previewNever || !cfg.reach.delivering(c.toolkit, c.action))
  {
  }

  /** The mandate alone sends nothing while it has an undo window. */
  lemma WindowsAreKept(cfg: Config, s: State, grants: set<GrantKey>, c: Call, w: World, id: nat)
    ensures var r := Handle(cfg, s, grants, c, w, id).1;
            r.executed && r.authority == ByMandate ==> cfg.mandate.Mandate? && cfg.mandate.undoSeconds <= 0
  {
    var r := Handle(cfg, s, grants, c, w, id).1;
    if r.executed && r.authority == ByMandate { CoveredCallIsShownFirst(cfg, s, grants, c, w, id); }
  }

  /** Under an automatically committed mandate with previews on, an integration call that delivers something to
      people runs on a grant alone, whatever the mandate covers and whatever was learned; the AUTO tier aside. */
  lemma DeliveriesNeedAGrant(cfg: Config, s: State, grants: set<GrantKey>, c: Call, w: World, id: nat)
    requires cfg.mandateAuto && !cfg.previewNever && !c.browser && cfg.reach.delivering(c.toolkit, c.action)
    ensures var (t, r) := Handle(cfg, s, grants, c, w, id);
            r.executed && Classify(cfg.rules, c.toolkit, c.action) != Tiered(Auto) ==> r.authority == ByGrant
  {
  }

  /** The mandate counter moves only with a covered side effect that went out, by exactly that call. */
  lemma CounterFollowsCoveredSends(cfg: Config, s: State, grants: set<GrantKey>, c: Call, w: World, id: nat)
    ensures var (t, r) := Handle(cfg, s, grants, c, w, id);
            && (r.counted ==> r.executed && MandateCovers(cfg, s.counts, c)
                              && t.counts == Bumped(s.counts, Recipients(cfg.reach, c), c.params))
            && (!r.counted ==> t.counts == s.counts)
            && (r.counted <==> r.executed && w.execution.Accepted? && MandateCovers(cfg, s.counts, c))
            && (r.counted ==> r.authority in {ByGrant, ByMandate})
            && (r.authority == ByMandate && r.effect.phase == Forwarded ==> r.counted)
  {
    var d := Decide(cfg, s, grants, c, w);
    if d.Execute? { RunCounts(cfg, s, c, w, id, d.authority); }
  }

  lemma RunCounts(cfg: Config, s: State, c: Call, w: World, id: nat, authority: Authority)
    ensures var (t, r) := RunCall(cfg, s, c, w, id, authority);
            && r.executed && r.authority == authority
            && (r.counted <==> w.execution.Accepted? && MandateCovers(cfg, s.counts, c))
            && (r.effect.phase == Forwarded ==> w.execution.Accepted?)
            && t.counts == if r.counted then Bumped(s.counts, Recipients(cfg.reach, c), c.params) else s.counts
  {
  }

  /** A record as the store hands it back: whether the attempt was mutating is not kept and reads as true. */
  function Stored(e: Effect): Effect {
    e.(mutating := true)
  }

  /** Losing that field changes a verdict exactly for a failed attempt of a gated, non-mutating action. */
  lemma StoringChangesVerdictIff(e: Effect)
    ensures TrustGate.VerdictOf(Stored(e)) != TrustGate.VerdictOf(e) <==>
      TrustGate.SideEffecting(e) && e.phase == Failed && !e.mutating
  {
  }

  /** So it changes none of the broker's own records: there a failed side effect is always mutating. */
  lemma StoringKeepsBrokerVerdicts(cfg: Config, s: State, grants: set<GrantKey>, c: Call, w: World, id: nat)
    ensures var r := Handle(cfg, s, grants, c, w, id).1;
            TrustGate.VerdictOf(Stored(r.effect)) == TrustGate.VerdictOf(r.effect)
  {
    StoringChangesVerdictIff(Handle(cfg, s, grants, c, w, id).1.effect);
  }
}
