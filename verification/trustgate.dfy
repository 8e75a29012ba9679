/** The deterministic gate (flowers/trustgate.py): which effects of a ledger contradict a claimed completion. */
module TrustGate {
  import opened Types
  import opened Text

  // ------------------------------------------------------------------ one record

  predicate RequiresProvenance(e: Effect) {
    Lower(e.toolkit) in {"browser", "cua"} || Lower(e.effectKind) == "cua"
  }

  /** Evidence that comes from the actor itself. */
  predicate SelfSourced(e: Effect) {
    || (e.verification.Some? && Norm(e.verification.value) in {"self_report", "screenshot", "self-report"})
    || (e.observer.Some? && e.actor.Some? && e.observer == e.actor)
  }

  predicate IndependentProvenance(e: Effect) {
    e.observer.Some? && e.observer.value != "" && e.observer != e.actor
  }

  /** A provenance-required record that does not say is taken to touch the world. */
  predicate SideEffecting(e: Effect) {
    e.sideEffecting == Some(true) || (e.sideEffecting.None? && RequiresProvenance(e))
  }

  datatype Verdict = NotAnEffect | Verified | AskOwner | Retryable | Objected

  /** What one terminal record says about a claimed completion. */
  function VerdictOf(e: Effect): Verdict {
    if !SideEffecting(e) then NotAnEffect
    else match e.phase
      case Forwarded =>
        if e.expected == Some(false) then Objected
        else if SelfSourced(e) || (RequiresProvenance(e) && !IndependentProvenance(e)) then AskOwner
        else if e.expected == Some(true) then Verified
        else if e.drift == Some(false) then Objected
        else AskOwner
      case Failed => if e.mutating then Retryable else NotAnEffect
      case Attempted => Retryable
      case _ => Objected
  }

  function LabelOf(e: Effect): string {
    Label(e.toolkit, e.action)
  }

  // ------------------------------------------------------------------ a ledger

  datatype Aid = ById(n: nat) | ByLabel(name: string)

  function AidOf(e: Effect): Aid {
    if e.id.Some? then ById(e.id.value) else ByLabel(LabelOf(e))
  }

  /** Row `i` is the last one of its action. */
  predicate IsTerminal(log: seq<Effect>, i: nat) {
    i < |log| && forall j :: i < j < |log| ==> AidOf(log[j]) != AidOf(log[i])
  }

  function Terminals(log: seq<Effect>): set<Effect> {
    set i: nat | i < |log| && IsTerminal(log, i) :: log[i]
  }

  /** The identities an independent read-back verified. */
  function LandedKeys(records: set<Effect>): set<GrantKey> {
    set e | e in records && VerdictOf(e) == Verified && e.detail.grantKey.Some? :: e.detail.grantKey.value
  }

  /** The record still contradicts the claim: nothing verified supersedes it. */
  predicate Objects(e: Effect, landed: set<GrantKey>) {
    || VerdictOf(e) == Objected
    || (VerdictOf(e) == Retryable && (e.detail.grantKey.None? || e.detail.grantKey.value !in landed))
  }

  function Unverified(log: seq<Effect>): set<string> {
    set e | e in Terminals(log) && Objects(e, LandedKeys(Terminals(log))) :: LabelOf(e)
  }

  function Unverifiable(log: seq<Effect>): set<string> {
    set e | e in Terminals(log) && VerdictOf(e) == AskOwner :: LabelOf(e)
  }

  /** Labels a done-check may rest on: read-back verified (strict), or forwarded and not proven missing. */
  predicate CountsAsForwarded(e: Effect, strict: bool) {
    && SideEffecting(e) && e.phase == Forwarded
    && !SelfSourced(e) && e.expected != Some(false)
    && (if RequiresProvenance(e) then e.expected == Some(true) && IndependentProvenance(e)
        else strict ==> e.expected == Some(true))
  }

  function ForwardedLabels(log: seq<Effect>, strict: bool): set<string> {
    set e | e in Terminals(log) && CountsAsForwarded(e, strict) :: LabelOf(e)
  }

  // ------------------------------------------------------------------ the code's passes

  /** The row that last spoke about an action. */
  function LastRow(log: seq<Effect>, a: Aid): (r: Option<nat>)
    ensures r.Some? ==> r.value < |log| && AidOf(log[r.value]) == a
  {
    if log == [] then None
    else if AidOf(log[|log| - 1]) == a then Some(|log| - 1)
    else LastRow(log[..|log| - 1], a)
  }

  lemma {:induction false} LastRowIsTerminal(log: seq<Effect>, a: Aid, i: nat)
    ensures LastRow(log, a) == Some(i) <==> i < |log| && AidOf(log[i]) == a && IsTerminal(log, i)
  {
    if log != [] {
      var n := |log| - 1;
      LastRowIsTerminal(log[..n], a, i);
      if LastRow(log, a) == Some(i) && i < n {
        assert IsTerminal(log[..n], i);
        forall j | i < j < |log| ensures AidOf(log[j]) != AidOf(log[i]) {
          if j < n { assert log[..n][j] == log[j]; }
        }
      }
      if i < n && AidOf(log[i]) == a && IsTerminal(log, i) {
        assert AidOf(log[n]) != AidOf(log[i]);
        assert IsTerminal(log[..n], i);
      }
    }
  }

  /** The last-record-wins map and the order of first appearance, as both passes build them. */
  method TerminalRecords(log: seq<Effect>) returns (order: seq<Aid>, terminal: map<Aid, Effect>)
    ensures forall a :: a in order <==> a in terminal
    ensures forall e :: e in Terminals(log) <==> exists a :: a in terminal && terminal[a] == e
  {
    order, terminal := [], map[];
    for i := 0 to |log|
      invariant forall a :: a in order <==> a in terminal
      invariant forall a :: a in terminal <==> LastRow(log[..i], a).Some?
      invariant forall a :: a in terminal ==> terminal[a] == log[LastRow(log[..i], a).value]
    {
      var aid := AidOf(log[i]);
      if aid !in terminal {
        order := order + [aid];
      }
      terminal := terminal[aid := log[i]];
      assert log[..i + 1][..i] == log[..i];
    }
    assert log[..|log|] == log;
    forall e ensures e in Terminals(log) <==> exists a :: a in terminal && terminal[a] == e {
      if e in Terminals(log) {
        var i: nat :| i < |log| && IsTerminal(log, i) && log[i] == e;
        LastRowIsTerminal(log, AidOf(e), i);
        assert AidOf(e) in terminal;
      }
      if a :| a in terminal && terminal[a] == e {
        LastRowIsTerminal(log, a, LastRow(log, a).value);
      }
    }
  }

  /** Some record of this verdict bears the label. */
  predicate Labelled(terminal: map<Aid, Effect>, keys: seq<Aid>, v: Verdict, l: string)
    requires forall a :: a in keys ==> a in terminal
  {
    exists a :: a in keys && VerdictOf(terminal[a]) == v && LabelOf(terminal[a]) == l
  }

  /** First pass: sort the terminal records by verdict, keeping the retryable ones for later. */
  method SortByVerdict(order: seq<Aid>, terminal: map<Aid, Effect>)
    returns (hard: set<string>, unverifiable: set<string>, landed: set<GrantKey>,
             retryable: seq<(string, Option<GrantKey>)>)
    requires forall a :: a in order ==> a in terminal
    ensures forall l :: l in hard <==> Labelled(terminal, order, Objected, l)
    ensures forall l :: l in unverifiable <==> Labelled(terminal, order, AskOwner, l)
    ensures forall k :: k in landed <==>
      exists a :: a in order && VerdictOf(terminal[a]) == Verified && terminal[a].detail.grantKey == Some(k)
    ensures forall p :: p in retryable <==>
      exists a :: a in order && VerdictOf(terminal[a]) == Retryable &&
                  p == (LabelOf(terminal[a]), terminal[a].detail.grantKey)
  {
    hard, unverifiable, landed, retryable := {}, {}, {}, [];
    for i := 0 to |order|
      invariant forall l :: l in hard <==> Labelled(terminal, order[..i], Objected, l)
      invariant forall l :: l in unverifiable <==> Labelled(terminal, order[..i], AskOwner, l)
      invariant forall k :: k in landed <==>
        exists a :: a in order[..i] && VerdictOf(terminal[a]) == Verified && terminal[a].detail.grantKey == Some(k)
      invariant forall p :: p in retryable <==>
        exists a :: a in order[..i] && VerdictOf(terminal[a]) == Retryable &&
                    p == (LabelOf(terminal[a]), terminal[a].detail.grantKey)
    {
      assert order[i] in order;
      var rec := terminal[order[i]];
      assert order[..i + 1] == order[..i] + [order[i]];
      match VerdictOf(rec)
      case Objected => hard := hard + {LabelOf(rec)};
      case AskOwner => unverifiable := unverifiable + {LabelOf(rec)};
      case Verified =>
        if rec.detail.grantKey.Some? {
          landed := landed + {rec.detail.grantKey.value};
        }
      case Retryable => retryable := retryable + [(LabelOf(rec), rec.detail.grantKey)];
      case NotAnEffect =>
    }
    assert order[..|order|] == order;
  }

  /** Second pass: a retryable attempt objects unless its very own action landed. */
  method ObjectToRetries(hard: set<string>, landed: set<GrantKey>, retryable: seq<(string, Option<GrantKey>)>)
    returns (unverified: set<string>)
    ensures forall l :: l in unverified <==>
      (l in hard || exists p :: p in retryable && p.0 == l && !(p.1.Some? && p.1.value in landed))
  {
    unverified := hard;
    for i := 0 to |retryable|
      invariant forall l :: l in unverified <==>
        (l in hard || exists p :: p in retryable[..i] && p.0 == l && !(p.1.Some? && p.1.value in landed))
    {
      var (lbl, gk) := retryable[i];
      assert retryable[..i + 1] == retryable[..i] + [retryable[i]];
      if !(gk.Some? && gk.value in landed) {
        unverified := unverified + {lbl};
      }
    }
    assert retryable[..|retryable|] == retryable;
  }

  /** The two-pass classification, with its deferred retry list, computes the declarative verdict. */
  method ClassifyEffects(log: seq<Effect>, claimedDone: bool)
    returns (unverified: set<string>, unverifiable: set<string>)
    ensures claimedDone ==> unverified == Unverified(log) && unverifiable == Unverifiable(log)
    ensures !claimedDone ==> unverified == {} && unverifiable == {}
  {
    if !claimedDone {
      return {}, {};
    }
    var order, terminal := TerminalRecords(log);
    var hard, asks, landed, retryable := SortByVerdict(order, terminal);
    LandedAgree(log, terminal, landed);
    unverifiable := asks;
    unverified := ObjectToRetries(hard, landed, retryable);
    forall l ensures l in unverified <==> l in Unverified(log) {
      ObjectionAgrees(log, order, terminal, hard, landed, retryable, l);
    }
  }

  /** A label is objected to by the two passes exactly when some terminal record of it objects. */
  lemma ObjectionAgrees(log: seq<Effect>, order: seq<Aid>, terminal: map<Aid, Effect>, hard: set<string>,
                        landed: set<GrantKey>, retryable: seq<(string, Option<GrantKey>)>, l: string)
    requires forall a :: a in order <==> a in terminal
    requires forall e :: e in Terminals(log) <==> exists a :: a in terminal && terminal[a] == e
    requires landed == LandedKeys(Terminals(log))
    requires l in hard <==> Labelled(terminal, order, Objected, l)
    requires forall p :: p in retryable <==>
      exists a :: a in order && VerdictOf(terminal[a]) == Retryable &&
                  p == (LabelOf(terminal[a]), terminal[a].detail.grantKey)
    ensures (l in hard || exists p :: p in retryable && p.0 == l && !(p.1.Some? && p.1.value in landed))
            <==> l in Unverified(log)
  {
    if p :| p in retryable && p.0 == l && !(p.1.Some? && p.1.value in landed) {
      var a :| a in order && VerdictOf(terminal[a]) == Retryable
               && p == (LabelOf(terminal[a]), terminal[a].detail.grantKey);
      assert terminal[a] in Terminals(log);
    }
    if l in Unverified(log) {
      var e :| e in Terminals(log) && Objects(e, landed) && LabelOf(e) == l;
      var a :| a in terminal && terminal[a] == e;
      if VerdictOf(e) == Retryable {
        assert (l, e.detail.grantKey) in retryable;
      }
    }
  }

  /** The strict and the relaxed report of what landed, as the code collects it. */
  method CollectForwarded(log: seq<Effect>, strict: bool) returns (labels: set<string>)
    ensures labels == ForwardedLabels(log, strict)
  {
    var order, terminal := TerminalRecords(log);
    labels := {};
    for i := 0 to |order|
      invariant forall l :: l in labels <==>
        exists a :: a in order[..i] && CountsAsForwarded(terminal[a], strict) && LabelOf(terminal[a]) == l
    {
      assert order[i] in order;
      assert order[..i + 1] == order[..i] + [order[i]];
      if CountsAsForwarded(terminal[order[i]], strict) {
        labels := labels + {LabelOf(terminal[order[i]])};
      }
    }
    assert order[..|order|] == order;
    forall l ensures l in labels <==> l in ForwardedLabels(log, strict) {
      if l in ForwardedLabels(log, strict) {
        var e :| e in Terminals(log) && CountsAsForwarded(e, strict) && LabelOf(e) == l;
        var a :| a in terminal && terminal[a] == e;
      }
      if a :| a in order && CountsAsForwarded(terminal[a], strict) && LabelOf(terminal[a]) == l {
        assert terminal[a] in Terminals(log);
      }
    }
  }

  lemma LandedAgree(log: seq<Effect>, terminal: map<Aid, Effect>, landed: set<GrantKey>)
    requires forall e :: e in Terminals(log) <==> exists a :: a in terminal && terminal[a] == e
    requires forall k :: k in landed <==>
      exists a :: a in terminal && VerdictOf(terminal[a]) == Verified && terminal[a].detail.grantKey == Some(k)
    ensures landed == LandedKeys(Terminals(log))
  {
  }
}
