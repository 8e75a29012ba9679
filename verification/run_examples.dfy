/** Short runs in which the code does what its comments rule out. */
module RunExamples {
  import opened Types
  import opened ReadBack
  import opened ReadbackPoll
  import opened Policy
  import opened Mandate
  import opened Registrable
  import opened BrokerModel
  import opened RunModel
  import opened RunLedger
  import opened TrustGate
  import opened GateTheorems
  import OwnerReplies
  import Text

  /** Mail the owner set to go out without asking; no mandate, no grant, and nothing to read back with. */
  const SETUP := Setup(
    Config(Rules((_, _) => false, (_, _) => Ask, map[], map["gmail" := Auto]),
           Reach(_ => [], (_, _) => true, _ => false),
           NoMandate, false, false, map[], 5, 1, "operator", _ => None, _ => false),
    SuffixList({}, {}))

  const MAIL := Call("gmail", "GMAIL_SEND_EMAIL", map["to" := "a@b.co"], false)

  /** The provider takes the mail; no look returns a surface. */
  const BLIND := World(Nothing, Accepted(None, ""), [], false, "")

  /** The step does not claim to be done, so nothing is accepted or asked. */
  const UNFINISHED := Claim(false, true, false, false, false, false, true)

  function SendOnce(overBudget: bool): Input {
    Drive([Attempt(MAIL, BLIND)], map[], End(overBudget, [], UNFINISHED, 0))
  }

  /** One mail sent in a run so far: forwarded, unverifiable, live. */
  lemma MailGoesOut(s: Run)
    requires KeyOf(MAIL) !in ForwardedKeys(s.ledger) && s.hot.discovered == []
    ensures var cfg := BrokerConfig(SETUP, s, map[]);
            var lp := RunLoop(cfg, s.ledger, s.hot.grants, EmptyLoop(s), [Attempt(MAIL, BLIND)]);
            && |lp.effects| == 1 && |lp.trace| == 1 && lp.parked.None? && lp.nextId == s.nextId + 1
            && lp.trace[0].Executed? && lp.trace[0].call == MAIL && lp.trace[0].cfg == cfg
            && lp.trace[0].effect == lp.effects[0] && Live(lp.effects[0])
            && lp.effects[0].id == Some(s.nextId) && lp.effects[0].expected == None
            && lp.effects[0].detail.grantKey == Some(KeyOf(MAIL)) && !lp.effects[0].detail.readbackError
            && SideExec(lp.trace[0])
  {
    var cfg := BrokerConfig(SETUP, s, map[]);
    var a := Attempt(MAIL, BLIND);
    assert Side(cfg, MAIL);
    assert Decide(cfg, Seed(s), s.hot.grants, MAIL, BLIND) == Execute(NotNeeded);
    assert Looks(MAIL, BLIND.polls) == [];
    assert ForwardedEffect(cfg, MAIL, BLIND, s.nextId).expected == None;
    var one := OneCall(cfg, s.ledger, s.hot.grants, EmptyLoop(s), a);
    assert [a][1..] == [];
    assert RunLoop(cfg, s.ledger, s.hot.grants, one, []) == one;
  }

  /** What one such drive leaves: the record in the ledger, or only a loss in the history. */
  lemma SendOnceLeaves(s: Run, overBudget: bool)
    requires KeyOf(MAIL) !in ForwardedKeys(s.ledger) && s.hot.discovered == [] && s.status.Running?
    ensures var t := Next(SETUP, s, SendOnce(overBudget));
            && |t.trace| == |s.trace| + (if overBudget then 2 else 1) && t.trace[..|s.trace|] == s.trace
            && t.trace[|s.trace|].Executed? && t.trace[|s.trace|].call == MAIL
            && SideExec(t.trace[|s.trace|]) && Live(t.trace[|s.trace|].effect)
            && t.hot.discovered == []
            && if overBudget then t.ledger == s.ledger && t.status.Escalated? && t.trace[|s.trace| + 1].Lost?
               else t.status.Running? && AddsPlainMail(s, t)
  {
    MailGoesOut(s);
    assert PageEvents([]) == [];
    if !overBudget { KeptMail(s); }
  }

  /** The new last record is a plain-unverifiable mail. */
  predicate AddsPlainMail(s: Run, t: Run) {
    && |t.ledger| == |s.ledger| + 1
    && var e := t.ledger[|s.ledger|];
    && Live(e) && e.id == Some(s.nextId) && e.expected == None && !e.detail.readbackError
  }

  lemma KeptMail(s: Run)
    requires KeyOf(MAIL) !in ForwardedKeys(s.ledger) && s.hot.discovered == []
    ensures var cfg := BrokerConfig(SETUP, s, map[]);
            var lp := RunLoop(cfg, s.ledger, s.hot.grants, EmptyLoop(s), [Attempt(MAIL, BLIND)]);
            && |lp.effects| == 1
            && Kept(lp.effects, 0) == [lp.effects[0].(detail := lp.effects[0].detail.(stepIndex := Some(0)))]
  {
    MailGoesOut(s);
    var lp := RunLoop(BrokerConfig(SETUP, s, map[]), s.ledger, s.hot.grants, EmptyLoop(s), [Attempt(MAIL, BLIND)]);
    assert lp.effects[..0] == [] && Kept([], 0) == [];
  }

  /** The budget exit drops the record of a send that went out. The owner guides the run on, and the same mail
      goes out a second time while the first one stands. */
  lemma DroppedSendGoesOutTwice()
    ensures var t := After(SETUP, Begin(), [SendOnce(true), OwnerGuides, SendOnce(false)]);
            && |t.trace| == 3 && SideExec(t.trace[0]) && t.trace[1].Lost? && SideExec(t.trace[2])
            && KeyOf(t.trace[0].call) == KeyOf(t.trace[2].call)
            && Live(t.trace[0].effect) && Live(t.trace[2].effect)
  {
    SendOnceLeaves(Begin(), true);
    SecondGoesOut(Next(SETUP, Begin(), SendOnce(true)));
    ThreeInputs(SETUP, SendOnce(true), OwnerGuides, SendOnce(false));
  }

  lemma SecondGoesOut(first: Run)
    requires first.status.Escalated? && first.ledger == [] && first.hot.discovered == [] && |first.trace| == 2
    requires SideExec(first.trace[0]) && first.trace[0].call == MAIL && Live(first.trace[0].effect)
    requires first.trace[1].Lost?
    ensures var t := Next(SETUP, Next(SETUP, first, OwnerGuides), SendOnce(false));
            && |t.trace| == 3 && SideExec(t.trace[0]) && t.trace[1].Lost? && SideExec(t.trace[2])
            && t.trace[0].call == t.trace[2].call == MAIL
            && Live(t.trace[0].effect) && Live(t.trace[2].effect)
  {
    var on := first.(status := Running);
    assert Next(SETUP, first, OwnerGuides) == on;
    SendOnceLeaves(on, false);
    var t := Next(SETUP, on, SendOnce(false));
    assert t.trace[0] == t.trace[..2][0] && t.trace[1] == t.trace[..2][1];
  }

  lemma ThreeInputs(setup: Setup, a: Input, b: Input, c: Input)
    ensures After(setup, Begin(), [a, b, c]) == Next(setup, Next(setup, Next(setup, Begin(), a), b), c)
  {
    TwoInputs(setup, Begin(), a, b);
    assert [a, b, c][..2] == [a, b];
  }

  lemma TwoInputs(setup: Setup, s: Run, a: Input, b: Input)
    ensures After(setup, s, [a, b]) == Next(setup, Next(setup, s, a), b)
  {
    OneInput(setup, s, a);
    assert [a, b][..1] == [a];
  }

  lemma OneInput(setup: Setup, s: Run, a: Input)
    ensures After(setup, s, [a]) == Next(setup, s, a)
  {
    assert [a][..0] == [];
  }

  /** A mail nobody could verify stands when a re-check of another send proves that one missing, and the timer of
      the re-check carries no key. The owner says it never arrived: the mail is rewritten as failed, although the
      question was not about it. */
  lemma KeylessReverifyRewritesAnother()
    ensures var s := After(SETUP, Begin(), [SendOnce(false)]);
            var t := After(SETUP, s, [Reverified(None), OwnerResends(true)]);
            && ReverifySubject(s.ledger, None) == {} && PlainUnverifiable(s.ledger) != {}
            && |s.ledger| == |t.ledger| == 1 && Live(s.ledger[0]) && t.ledger[0].phase == Failed
  {
    SendOnceLeaves(Begin(), false);
    OneInput(SETUP, Begin(), SendOnce(false));
    var s := Next(SETUP, Begin(), SendOnce(false));
    TwoInputs(SETUP, s, Reverified(None), OwnerResends(true));
    assert s.ledger[0] in s.ledger && 0 in PlainUnverifiable(s.ledger);
    KeylessDenial(s);
  }

  lemma KeylessDenial(s: Run)
    requires s.status.Running?
    ensures Next(SETUP, Next(SETUP, s, Reverified(None)), OwnerResends(true)).ledger
            == NeverArrived(s.ledger, PlainUnverifiable(s.ledger))
  {
  }

  // ------------------------------------------------------------------ a denied send of the mandate

  /** The owner approved one class of actions, five times at most; nothing here reaches other people. */
  function Approving(c: Call): Setup {
    Setup(
      Config(Rules((_, _) => false, (_, _) => Ask, map[], map[]),
             Reach(_ => [], (_, _) => false, _ => false),
             Mandate({NormLabel(Label(c.toolkit, c.action))}, [], Caps(5, 5, 5), 0),
             false, false, map[], 5, 1, "operator", _ => None, _ => false),
      SuffixList({}, {}))
  }

  /** The step makes the call once and claims to be done. */
  function CallOnce(c: Call): Input {
    Drive([Attempt(c, BLIND)], map[], End(false, [], Claim(true, true, false, true, false, false, false), 0))
  }

  /** An integration call, not a browser action by another name. */
  predicate Plain(c: Call) {
    !c.browser && Text.Lower(c.toolkit) !in {"browser", "cua"}
  }

  /** The record nobody could verify. */
  predicate PlainRecord(e: Effect, c: Call) {
    && Live(e) && e.id == Some(0) && e.expected == None && e.drift == None && e.observer == None
    && e.toolkit == c.toolkit && e.effectKind == "composio" && e.verification == None
    && e.detail.grantKey == Some(KeyOf(c)) && !e.detail.readbackError && !e.detail.ownerConfirmed
  }

  lemma CoversItsClass(c: Call)
    requires !c.browser
    ensures var cfg := BrokerConfig(Approving(c), Begin(), map[]);
            MandateCovers(cfg, NewCounts, c) && Decide(cfg, Seed(Begin()), {}, c, BLIND) == Execute(ByMandate)
  {
    var cfg := BrokerConfig(Approving(c), Begin(), map[]);
    assert Recipients(cfg.reach, c) == [];
    assert Classify(cfg.rules, c.toolkit, c.action) == Tiered(Ask);
  }

  lemma CallGoesOut(c: Call)
    requires Plain(c)
    ensures var cfg := BrokerConfig(Approving(c), Begin(), map[]);
            var lp := RunLoop(cfg, [], {}, EmptyLoop(Begin()), [Attempt(c, BLIND)]);
            && |lp.effects| == 1 && |lp.trace| == 1 && lp.parked.None? && PlainRecord(lp.effects[0], c)
            && lp.trace[0].Executed? && lp.trace[0].call == c && lp.trace[0].counted
  {
    var cfg := BrokerConfig(Approving(c), Begin(), map[]);
    var a := Attempt(c, BLIND);
    CoversItsClass(c);
    assert Looks(c, BLIND.polls) == [];
    var one := OneCall(cfg, [], {}, EmptyLoop(Begin()), a);
    assert [a][1..] == [];
    assert RunLoop(cfg, [], {}, one, []) == one;
  }

  lemma PlainRecordAsks(ledger: seq<Effect>, c: Call)
    requires |ledger| == 1 && Plain(c) && PlainRecord(ledger[0], c)
    ensures Unverified(ledger) == {} && Unconfirmed(ledger) != {} && PlainUnverifiable(ledger) == {0}
  {
    var e := ledger[0];
    assert |Text.Lower(e.effectKind)| == 8;
    assert VerdictOf(e) == AskOwner;
    DistinctAreTerminal(ledger);
    assert e in Terminals(ledger) && LabelOf(e) in Unverifiable(ledger);
    assert LabelOf(e) !in SettledLabels(ledger);
    assert LabelOf(e) in Unconfirmed(ledger);
  }

  lemma CallOnceEscalates(c: Call)
    requires Plain(c)
    ensures var s := Next(Approving(c), Begin(), CallOnce(c));
            && s.status == Escalated(NeedsOwnerConfirm, {0}) && s.hot == NoContinuation
            && |s.trace| == 1 && s.trace[0].Executed? && s.trace[0].call == c && s.trace[0].counted
            && |s.ledger| == 1 && PlainRecord(s.ledger[0], c)
  {
    CallGoesOut(c);
    var lp := RunLoop(BrokerConfig(Approving(c), Begin(), map[]), [], {}, EmptyLoop(Begin()), [Attempt(c, BLIND)]);
    assert lp.effects[..0] == [] && Kept([], 0) == [];
    var kept := lp.effects[0].(detail := lp.effects[0].detail.(stepIndex := Some(0)));
    assert Kept(lp.effects, 0) == [kept];
    assert PageEvents([]) == [];
    PlainRecordAsks([] + [kept], c);
  }

  /** A call goes out under the mandate, nobody can verify it, and the owner answers that it never arrived. The same
      call is not sent again: it parks for the owner's approval. */
  lemma DeniedCallParks(c: Call)
    requires Plain(c)
    ensures var setup := Approving(c);
            var s := After(setup, Begin(), [CallOnce(c)]);
            var t := After(setup, Begin(), [CallOnce(c), OwnerResends(true), CallOnce(c)]);
            && s.status == Escalated(NeedsOwnerConfirm, {0})
            && |s.trace| == 1 && s.trace[0].Executed? && s.trace[0].call == c && s.trace[0].counted
            && t.status == AwaitingApproval(c, AskSideEffect) && t.trace == s.trace + [Corrected({0})]
  {
    var setup, once := Approving(c), CallOnce(c);
    CallOnceEscalates(c);
    OneInput(setup, Begin(), once);
    ThreeInputs(setup, once, OwnerResends(true), once);
    var s := Next(setup, Begin(), once);
    OnlySendIsDenied(s, c);
    DenialThenCall(s, c);
  }

  lemma DenialThenCall(s: Run, c: Call)
    requires Plain(c) && s == After(Approving(c), Begin(), [CallOnce(c)])
    requires s.status == Escalated(NeedsOwnerConfirm, {0}) && KeyOf(c) !in s.hot.grants
    requires |s.trace| == 1 && s.trace[0].Executed? && s.trace[0].call == c && s.trace[0].counted
    requires OwnerReplies.WhollyDenied(s, KeyOf(c)) && Subject(s.ledger, {0}) == {0}
    ensures var t := Next(Approving(c), Next(Approving(c), s, OwnerResends(true)), CallOnce(c));
            t.status == AwaitingApproval(c, AskSideEffect) && t.trace == s.trace + [Corrected({0})]
  {
    NotSentAgain(s, c);
    DenialNotes(Approving(c), s);
    OwnCallParks(c, Next(Approving(c), s, OwnerResends(true)));
  }

  lemma DenialNotes(setup: Setup, s: Run)
    requires SendQuestion(s.status)
    ensures var t := Next(setup, s, OwnerResends(true));
            t.status.Running? && t.trace == s.trace + [Corrected(Subject(s.ledger, s.status.subject))]
  {
  }

  lemma OnlySendIsDenied(s: Run, c: Call)
    requires s.status == Escalated(NeedsOwnerConfirm, {0}) && |s.ledger| == 1 && PlainRecord(s.ledger[0], c)
    ensures OwnerReplies.WhollyDenied(s, KeyOf(c)) && Subject(s.ledger, {0}) == {0}
  {
    var e := s.ledger[0];
    assert e in s.ledger && Subject(s.ledger, {0}) == {0};
  }

  lemma NotSentAgain(s: Run, c: Call)
    requires Plain(c) && s == After(Approving(c), Begin(), [CallOnce(c)])
    requires s.status == Escalated(NeedsOwnerConfirm, {0}) && KeyOf(c) !in s.hot.grants
    requires |s.trace| == 1 && s.trace[0].Executed? && s.trace[0].call == c && s.trace[0].counted
    requires OwnerReplies.WhollyDenied(s, KeyOf(c))
    ensures Asks(c, Next(Approving(c), s, OwnerResends(true)))
  {
    OwnerReplies.DeniedMandateSendParks(Approving(c), [CallOnce(c)], 0, BLIND, map[]);
    NoFloor(c, Next(Approving(c), s, OwnerResends(true)));
  }

  lemma NoFloor(c: Call, t: Run)
    requires !c.browser
    ensures !Floored(BrokerConfig(Approving(c), t, map[]), c, BLIND)
  {
  }

  /** The next loop's broker would ask about the call. */
  predicate Asks(c: Call, t: Run) {
    var r := Handle(BrokerConfig(Approving(c), t, map[]), Seed(t), t.hot.grants, c, BLIND, t.nextId).1;
    r.status == NeedsApproval(AskSideEffect) && !r.executed
  }

  lemma OwnCallParks(c: Call, t: Run)
    requires t.status.Running? && Asks(c, t)
    ensures var u := Next(Approving(c), t, CallOnce(c));
            u.status == AwaitingApproval(c, AskSideEffect) && u.trace == t.trace
  {
    var cfg := BrokerConfig(Approving(c), t, map[]);
    var a := Attempt(c, BLIND);
    var one := OneCall(cfg, t.ledger, t.hot.grants, EmptyLoop(t), a);
    assert [a][1..] == [];
    assert RunLoop(cfg, t.ledger, t.hot.grants, one, []) == one;
    assert PageEvents([]) == [];
  }
}
