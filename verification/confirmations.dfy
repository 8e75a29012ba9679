/** What an owner's confirmation settles: when the gate will not ask about the same sends again. */
module Confirmations {
  import opened Types
  import opened TrustGate
  import opened GateTheorems
  import opened RunModel
  import opened RunLedger
  import opened OwnerReplies
  import LedgerRuns

  /** A label is settled exactly when one of its records was forwarded and either confirmed by the owner, or left
      unverified by a broken tool. */
  lemma SettledIff(ledger: seq<Effect>, l: string)
    ensures l in SettledLabels(ledger) <==>
      exists e :: e in ledger && LabelOf(e) == l && e.phase == Forwarded
                  && (e.detail.ownerConfirmed
                      || (e.sideEffecting == Some(true) && e.expected == None && e.detail.readbackError))
  {
  }

  /** A record whose expected effect was seen, but by nobody independent: the gate asks about it, and the question
      names only records whose effect nobody saw. */
  predicate SeenByItself(e: Effect) {
    VerdictOf(e) == AskOwner && e.expected == Some(true)
  }

  /** The owner's word on the question reaches this record: it is confirmed, or nobody saw its effect. */
  predicate Reached(e: Effect) {
    e.phase == Forwarded && (e.detail.ownerConfirmed || (e.sideEffecting == Some(true) && e.expected == None))
  }

  /** A confirmation leaves nothing to ask about exactly when every record seen by itself shares its label with one
      that it reaches. */
  lemma ConfirmationSettlesIff(setup: Setup, s: Run, workRemains: bool)
    requires RunGood(s) && SendQuestion(s.status) && s.status.subject == PlainUnverifiable(s.ledger)
    ensures Unconfirmed(Next(setup, s, OwnerConfirms(workRemains)).ledger) == {} <==>
      forall e :: e in s.ledger && SeenByItself(e) ==>
        exists f :: f in s.ledger && Reached(f) && LabelOf(f) == LabelOf(e)
  {
    assert Next(setup, s, OwnerConfirms(workRemains)).ledger == Confirmed(s.ledger, PlainUnverifiable(s.ledger));
    ConfirmingSettlesIff(s.ledger, s.nextId);
  }

  lemma ConfirmingSettlesIff(ledger: seq<Effect>, next: nat)
    requires Numbered(ledger, next) && WellKeyed(ledger)
    ensures Unconfirmed(Confirmed(ledger, PlainUnverifiable(ledger))) == {} <==>
      forall e :: e in ledger && SeenByItself(e) ==> exists f :: f in ledger && Reached(f) && LabelOf(f) == LabelOf(e)
  {
    var later := Confirmed(ledger, PlainUnverifiable(ledger));
    if Unconfirmed(later) == {} {
      forall e | e in ledger && SeenByItself(e)
        ensures exists f :: f in ledger && Reached(f) && LabelOf(f) == LabelOf(e)
      {
        AskedIff(ledger, next, LabelOf(e));
        SettledByIff(ledger, next, LabelOf(e));
        assert LabelOf(e) !in Unconfirmed(later);
      }
    }
    if l :| l in Unconfirmed(later) {
      AskedIff(ledger, next, l);
      SettledByIff(ledger, next, l);
      var e :| e in ledger && VerdictOf(e) == AskOwner && LabelOf(e) == l;
      AskedAboutMeaning(ledger, e);
    }
  }

  /** What the gate asks about was seen by itself alone, or is reached. */
  lemma AskedAboutMeaning(ledger: seq<Effect>, e: Effect)
    requires WellKeyed(ledger) && e in ledger && VerdictOf(e) == AskOwner
    ensures SeenByItself(e) || Reached(e)
  {
    if e.expected.Some? && e.expected.value { assert e.expected == Some(true); }
    assert e.expected != Some(false);
  }

  // ------------------------------------------------------------------ row by row

  lemma ConfirmingKeepsVerdict(ledger: seq<Effect>, ids: set<nat>, i: nat)
    requires i < |ledger|
    ensures var c := Confirmed(ledger, ids)[i];
            VerdictOf(c) == VerdictOf(ledger[i]) && LabelOf(c) == LabelOf(ledger[i]) && c.id == ledger[i].id
  {
  }

  predicate Asks(rows: seq<Effect>, i: nat, l: string) {
    i < |rows| && VerdictOf(rows[i]) == AskOwner && LabelOf(rows[i]) == l
  }

  lemma UnverifiableRows(rows: seq<Effect>, next: nat, l: string)
    requires Numbered(rows, next)
    ensures l in Unverifiable(rows) <==> exists i: nat :: Asks(rows, i, l)
  {
    LedgerRuns.NumberedAreDistinct(rows, next);
    if l in Unverifiable(rows) {
      var i: nat :| i < |rows| && IsTerminal(rows, i) && VerdictOf(rows[i]) == AskOwner && LabelOf(rows[i]) == l;
      assert Asks(rows, i, l);
    }
    if i: nat :| Asks(rows, i, l) {
      assert IsTerminal(rows, i);
      assert rows[i] in Terminals(rows);
    }
  }

  /** The gate asks about the same labels as before. */
  lemma AskedIff(ledger: seq<Effect>, next: nat, l: string)
    requires Numbered(ledger, next)
    ensures l in Unverifiable(Confirmed(ledger, PlainUnverifiable(ledger))) <==>
      exists e :: e in ledger && VerdictOf(e) == AskOwner && LabelOf(e) == l
  {
    var plain := PlainUnverifiable(ledger);
    var later := Confirmed(ledger, plain);
    StaysNumbered(ledger, next, plain);
    UnverifiableRows(later, next, l);
    if i: nat :| Asks(later, i, l) {
      ConfirmingKeepsVerdict(ledger, plain, i);
      assert ledger[i] in ledger;
    }
    if e :| e in ledger && VerdictOf(e) == AskOwner && LabelOf(e) == l {
      var i: nat :| i < |ledger| && ledger[i] == e;
      ConfirmingKeepsVerdict(ledger, plain, i);
      assert Asks(later, i, l);
    }
  }

  lemma StaysNumbered(ledger: seq<Effect>, next: nat, ids: set<nat>)
    requires Numbered(ledger, next)
    ensures Numbered(Confirmed(ledger, ids), next)
  {
  }

  /** And settled are the labels of what is reached. */
  lemma SettledByIff(ledger: seq<Effect>, next: nat, l: string)
    requires Numbered(ledger, next) && WellKeyed(ledger)
    ensures l in SettledLabels(Confirmed(ledger, PlainUnverifiable(ledger))) <==>
      exists f :: f in ledger && Reached(f) && LabelOf(f) == l
  {
    var later := Confirmed(ledger, PlainUnverifiable(ledger));
    if l in SettledLabels(later) {
      var c :| c in later && (VerificationBroken(c) || OwnerConfirmed(c)) && LabelOf(c) == l;
      var i :| 0 <= i < |later| && later[i] == c;
      RowSettles(ledger, next, i);
      assert ledger[i] in ledger;
    }
    if f :| f in ledger && Reached(f) && LabelOf(f) == l {
      var i :| 0 <= i < |ledger| && ledger[i] == f;
      RowSettles(ledger, next, i);
      assert later[i] in later;
    }
  }

  lemma RowSettles(ledger: seq<Effect>, next: nat, i: nat)
    requires Numbered(ledger, next) && WellKeyed(ledger) && i < |ledger|
    ensures var c := Confirmed(ledger, PlainUnverifiable(ledger))[i];
            (VerificationBroken(c) || OwnerConfirmed(c) <==> Reached(ledger[i])) && LabelOf(c) == LabelOf(ledger[i])
  {
    var e := ledger[i];
    assert e in ledger;
    if Named(e, PlainUnverifiable(ledger)) { OneIdOneRow(ledger, next, i); }
  }

  /** Ids are not shared, so a row named by the question is itself one the question is about. */
  lemma OneIdOneRow(ledger: seq<Effect>, next: nat, i: nat)
    requires Numbered(ledger, next) && i < |ledger| && Named(ledger[i], PlainUnverifiable(ledger))
    ensures ledger[i].sideEffecting == Some(true) && ledger[i].phase == Forwarded && ledger[i].expected == None
  {
    var e :| e in ledger && e.sideEffecting == Some(true) && e.phase == Forwarded && e.expected == None
             && e.id == ledger[i].id;
    var j :| 0 <= j < |ledger| && ledger[j] == e;
    assert i == j;
  }

  // ------------------------------------------------------------------ asked once, or for ever

  /** So where only integrations acted, or everything seen was seen by somebody else, a confirmed question is never put
      again on that ledger, whatever a later step claims. */
  lemma ConfirmedIsNotAskedAgain(setup: Setup, s: Run, workRemains: bool, c: Claim)
    requires RunGood(s) && SendQuestion(s.status) && s.status.subject == PlainUnverifiable(s.ledger)
    requires forall e :: e in s.ledger && e.expected == Some(true) ==> !OwnWordOnly(e)
    ensures !NeedsOwner(Next(setup, s, OwnerConfirms(workRemains)).ledger, c)
  {
    forall e | e in s.ledger ensures !SeenByItself(e) {
      if SeenByItself(e) { assert e.expected == Some(true) && OwnWordOnly(e); }
    }
    ConfirmationSettlesIff(setup, s, workRemains);
  }

  /** Otherwise it can be put for ever: a browser action whose actor was its own observer is asked about, the question
      names no record of it, and the owner's yes changes nothing at all. */
  lemma OwnWordIsAskedAgain(setup: Setup, s: Run, params: Params, workRemains: bool, c: Claim)
    requires s.ledger == [SeenByItsOwnHand(params)] && SendQuestion(s.status) && s.status.subject == {}
    requires c.claimedDone && !c.stale && !c.breaking && c.objectiveMet
    ensures var t := Next(setup, s, OwnerConfirms(workRemains));
            t.ledger == s.ledger && NeedsOwner(t.ledger, c) && PlainUnverifiable(t.ledger) == {}
  {
    var e := SeenByItsOwnHand(params);
    assert PlainUnverifiable(s.ledger) == {};
    assert e in s.ledger;
    LedgerRuns.NumberedAreDistinct(s.ledger, 1);
    DistinctAreTerminal(s.ledger);
    assert VerdictOf(e) == AskOwner;
    assert LabelOf(e) in Unconfirmed(s.ledger);
    assert Unverified(s.ledger) == {};
  }

  function SeenByItsOwnHand(params: Params): Effect {
    Effect(Some(0), "browser", "SUBMIT", Some(true), true, Forwarded, Some(true), Some(true), "cua", None, Some("cua"),
           Some("cua"), Detail(Some(GrantKey("browser", "SUBMIT", params)), false, false, false, Some(0)))
  }
}
