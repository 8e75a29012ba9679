/** What the gate's verdict promises about whole ledgers, and about ledgers that keep growing. */
module GateTheorems {
  import opened Types
  import opened TrustGate
  import Text

  predicate DistinctIds(log: seq<Effect>) {
    forall i, j :: 0 <= i < j < |log| ==> AidOf(log[i]) != AidOf(log[j])
  }

  /** The row is new: nothing already in the ledger spoke about its action. */
  predicate FreshFor(log: seq<Effect>, r: Effect) {
    forall e :: e in log ==> AidOf(e) != AidOf(r)
  }

  // ------------------------------------------------------------------ meaning of an accepted ledger

  /** Both objection lists are empty exactly when every terminal record is verified, harmless, or a failed
      attempt whose very own action verifiably landed. */
  lemma CleanLedgerMeaning(log: seq<Effect>)
    ensures (Unverified(log) == {} && Unverifiable(log) == {}) <==>
      (forall e :: e in Terminals(log) ==>
        || VerdictOf(e) == NotAnEffect
        || VerdictOf(e) == Verified
        || (VerdictOf(e) == Retryable && e.detail.grantKey.Some? &&
            exists v :: v in Terminals(log) && VerdictOf(v) == Verified && v.detail.grantKey == e.detail.grantKey))
  {
    var landed := LandedKeys(Terminals(log));
    if Unverified(log) == {} && Unverifiable(log) == {} {
      forall e | e in Terminals(log)
        ensures VerdictOf(e) != Objected && VerdictOf(e) != AskOwner
        ensures VerdictOf(e) == Retryable ==> e.detail.grantKey.Some? && e.detail.grantKey.value in landed
      {
        assert Objects(e, landed) ==> LabelOf(e) in Unverified(log);
        assert VerdictOf(e) == AskOwner ==> LabelOf(e) in Unverifiable(log);
      }
    }
  }

  /** Nobody but the actor saw it: self-reported, self-observed, or done by hand in the browser without another pair of
      eyes. */
  predicate OwnWordOnly(e: Effect) {
    var byHand := Text.Lower(e.toolkit) in {"browser", "cua"} || Text.Lower(e.effectKind) == "cua";
    || (e.verification.Some? && Text.Norm(e.verification.value) in {"self_report", "screenshot", "self-report"})
    || (e.observer.Some? && e.observer == e.actor)
    || (byHand && (e.observer.None? || e.observer.value == ""))
  }

  /** The verdict on one record, on its fields. It objects to what was refused, denied or deferred, to what a read-back
      proved missing, and to what left the surface as it was; it may be retried after a failed or unfinished attempt;
      and it asks about what nobody independent confirmed. */
  lemma VerdictOnFields(e: Effect)
    requires e.sideEffecting == Some(true)
    ensures VerdictOf(e) == Objected <==>
      || e.phase in {Refused, Denied, Deferred}
      || (e.phase == Forwarded && e.expected == Some(false))
      || (e.phase == Forwarded && e.expected == None && e.drift == Some(false) && !OwnWordOnly(e))
    ensures VerdictOf(e) == Retryable <==> (e.phase == Failed && e.mutating) || e.phase == Attempted
    ensures VerdictOf(e) == NotAnEffect <==> e.phase == Failed && !e.mutating
    ensures VerdictOf(e) == Verified <==> e.phase == Forwarded && e.expected == Some(true) && !OwnWordOnly(e)
    ensures VerdictOf(e) == AskOwner <==>
      && e.phase == Forwarded && e.expected != Some(false)
      && (OwnWordOnly(e) || (e.expected == None && e.drift != Some(false)))
  {
    if e.expected.Some? {
      if e.expected.value { assert e.expected == Some(true); } else { assert e.expected == Some(false); }
    }
  }

  /** A record that does not say whether it touched the world is read as one that did when it comes from the browser,
      and otherwise as one that did not; nothing from the browser is harmless by leaving it out. */
  lemma SilentRecords(e: Effect)
    requires e.sideEffecting == None
    ensures var byHand := Text.Lower(e.toolkit) in {"browser", "cua"} || Text.Lower(e.effectKind) == "cua";
            VerdictOf(e) == if byHand then VerdictOf(e.(sideEffecting := Some(true))) else NotAnEffect
  {
  }

  /** A verified verdict is exactly an expected effect that an independent read-back saw; the strict report lists
      exactly these records. */
  lemma VerifiedMeaning(log: seq<Effect>, e: Effect)
    ensures VerdictOf(e) == Verified <==> CountsAsForwarded(e, true)
    ensures VerdictOf(e) == Verified ==>
      && e.expected == Some(true) && !SelfSourced(e)
      && (RequiresProvenance(e) ==> e.observer.Some? && e.observer != e.actor)
    ensures ForwardedLabels(log, true) == set x | x in Terminals(log) && VerdictOf(x) == Verified :: LabelOf(x)
  {
  }

  /** On a clean ledger the strict and the relaxed report of what landed are the same set. */
  lemma CleanLedgerReportsAgree(log: seq<Effect>)
    ensures ForwardedLabels(log, true) <= ForwardedLabels(log, false)
    ensures Unverified(log) == {} && Unverifiable(log) == {} ==>
      ForwardedLabels(log, true) == ForwardedLabels(log, false)
  {
    if Unverified(log) == {} && Unverifiable(log) == {} {
      CleanLedgerMeaning(log);
      forall e | e in Terminals(log) && CountsAsForwarded(e, false)
        ensures CountsAsForwarded(e, true)
      {
        assert VerdictOf(e) != AskOwner;
      }
    }
  }

  lemma DistinctAreTerminal(log: seq<Effect>)
    requires DistinctIds(log)
    ensures Terminals(log) == set e | e in log
  {
  }

  /** Both logs end on the same record of every action they speak about. */
  ghost predicate SameLast(a: seq<Effect>, b: seq<Effect>) {
    forall aid :: (LastRow(a, aid).Some? <==> LastRow(b, aid).Some?)
                  && (LastRow(a, aid).Some? ==> a[LastRow(a, aid).value] == b[LastRow(b, aid).value])
  }

  lemma TerminalIsLast(log: seq<Effect>, e: Effect)
    ensures e in Terminals(log) <==> LastRow(log, AidOf(e)).Some? && log[LastRow(log, AidOf(e)).value] == e
  {
    if e in Terminals(log) {
      var i: nat :| i < |log| && IsTerminal(log, i) && log[i] == e;
      LastRowIsTerminal(log, AidOf(e), i);
    }
    if LastRow(log, AidOf(e)).Some? { LastRowIsTerminal(log, AidOf(e), LastRow(log, AidOf(e)).value); }
  }

  /** The verdict and both reports depend on the last record of each action alone: not on the order of the actions,
      nor on what was said about them before. */
  lemma OrderDoesNotMatter(a: seq<Effect>, b: seq<Effect>)
    requires SameLast(a, b)
    ensures Unverified(a) == Unverified(b) && Unverifiable(a) == Unverifiable(b)
    ensures ForwardedLabels(a, true) == ForwardedLabels(b, true)
    ensures ForwardedLabels(a, false) == ForwardedLabels(b, false)
  {
    forall e ensures e in Terminals(a) <==> e in Terminals(b) {
      TerminalIsLast(a, e);
      TerminalIsLast(b, e);
    }
    assert Terminals(a) == Terminals(b);
  }

  /** So any reordering of records with distinct action ids has the same verdict. */
  lemma ReorderingDoesNotMatter(a: seq<Effect>, b: seq<Effect>)
    requires DistinctIds(a) && DistinctIds(b)
    requires forall e :: e in a <==> e in b
    ensures Unverified(a) == Unverified(b) && Unverifiable(a) == Unverifiable(b)
    ensures ForwardedLabels(a, true) == ForwardedLabels(b, true)
    ensures ForwardedLabels(a, false) == ForwardedLabels(b, false)
  {
    DistinctAreTerminal(a);
    DistinctAreTerminal(b);
    assert Terminals(a) == Terminals(b);
  }

  // ------------------------------------------------------------------ growing ledgers

  lemma AppendFresh(log: seq<Effect>, r: Effect)
    requires FreshFor(log, r)
    ensures Terminals(log + [r]) == Terminals(log) + {r}
  {
    var grown := log + [r];
    forall e | e in Terminals(grown) ensures e in Terminals(log) + {r} {
      var i: nat :| i < |grown| && IsTerminal(grown, i) && grown[i] == e;
      if i < |log| {
        forall j | i < j < |log| ensures AidOf(log[j]) != AidOf(log[i]) {
          assert grown[j] == log[j];
        }
        assert IsTerminal(log, i);
      }
    }
    forall e | e in Terminals(log) ensures e in Terminals(grown) {
      var i: nat :| i < |log| && IsTerminal(log, i) && log[i] == e;
      assert grown[i] == e;
      assert IsTerminal(grown, i);
    }
    assert grown[|log|] == r && IsTerminal(grown, |log|);
  }

  /** A verified record of one exact action clears that action's earlier failures and nothing else:
      every other objection, same label or not, stays. */
  lemma VerifiedForgivesOnlyItsOwnKey(log: seq<Effect>, r: Effect, key: GrantKey, e: Effect)
    requires FreshFor(log, r) && VerdictOf(r) == Verified && r.detail.grantKey == Some(key)
    requires e in Terminals(log)
    ensures e in Terminals(log + [r])
    ensures Objects(e, LandedKeys(Terminals(log + [r]))) <==>
      (Objects(e, LandedKeys(Terminals(log))) && !(VerdictOf(e) == Retryable && e.detail.grantKey == Some(key)))
  {
    AppendFresh(log, r);
    var before, after := LandedKeys(Terminals(log)), LandedKeys(Terminals(log + [r]));
    assert r in Terminals(log + [r]);
    assert after == before + {key};
  }

  /** The hard refusals: never authorized, refused outright, or forwarded and proven missing. */
  predicate HardRefused(e: Effect) {
    && SideEffecting(e)
    && (e.phase in {Refused, Denied, Deferred} || (e.phase == Forwarded && e.expected == Some(false)))
  }

  /** What an owner attestation may rewrite: a forwarded record nobody could confirm, or one already
      corrected to a failure. */
  predicate Correctable(e: Effect) {
    (e.phase == Forwarded && e.expected == None) || e.phase == Failed
  }

  /** `later` is `log` after corrections in place of correctable rows and appends of fresh rows. */
  predicate Evolves(log: seq<Effect>, later: seq<Effect>) {
    && |log| <= |later|
    && (forall i :: 0 <= i < |log| ==>
          AidOf(later[i]) == AidOf(log[i]) && (later[i] != log[i] ==> Correctable(log[i])))
    && (forall i, j :: 0 <= i < |log| <= j < |later| ==> AidOf(later[j]) != AidOf(log[i]))
  }

  /** Once refused, always refused: no append and no owner correction ever clears a hard refusal. */
  lemma HardRefusalIsPermanent(log: seq<Effect>, later: seq<Effect>, i: nat)
    requires IsTerminal(log, i) && HardRefused(log[i])
    requires Evolves(log, later)
    ensures IsTerminal(later, i) && later[i] == log[i]
    ensures LabelOf(log[i]) in Unverified(later)
  {
  }
}
