/** What every step of a run keeps true of its ledger and its history: numbering, the broker's sets, no double
    send, and a real read-back behind every verified record. */
module RunLedger {
  import opened Types
  import opened BrokerModel
  import opened RunModel
  import opened CallFacts

  // ------------------------------------------------------------------ shape of the records

  /** Records are numbered in order, below the next number. */
  predicate Numbered(rows: seq<Effect>, next: nat) {
    && (forall i :: 0 <= i < |rows| ==> rows[i].id.Some? && rows[i].id.value < next)
    && (forall i, j :: 0 <= i < j < |rows| ==> rows[i].id.value < rows[j].id.value)
  }

  /** Every forwarded side effect carries its key, and every record says whether it is one. */
  predicate WellKeyed(rows: seq<Effect>) {
    forall e :: e in rows ==>
      e.sideEffecting.Some? && (e.sideEffecting == Some(true) && e.phase == Forwarded ==> e.detail.grantKey.Some?)
  }

  /** The broker's sets are exactly those of the records made so far. */
  predicate Synced(rows: seq<Effect>, b: State) {
    b.forwarded == ForwardedKeys(rows) && b.verified == VerifiedKeys(rows)
  }

  lemma KeysOfAppend(rows: seq<Effect>, more: seq<Effect>)
    ensures ForwardedKeys(rows + more) == ForwardedKeys(rows) + ForwardedKeys(more)
    ensures VerifiedKeys(rows + more) == VerifiedKeys(rows) + VerifiedKeys(more)
  {
  }

  lemma {:induction false} CallKeepsShape(cfg: Config, b: State, grants: set<GrantKey>, a: Attempt, id: nat,
                                          rows: seq<Effect>)
    requires Numbered(rows, id) && WellKeyed(rows) && Synced(rows, b)
    ensures var (t, r) := Handle(cfg, b, grants, a.call, a.world, id);
            Numbered(rows + [r.effect], id + 1) && WellKeyed(rows + [r.effect]) && Synced(rows + [r.effect], t)
  {
    SetsFollowRecords(cfg, b, grants, a.call, a.world, id);
    var r := Handle(cfg, b, grants, a.call, a.world, id).1;
    KeysOfAppend(rows, [r.effect]);
  }

  // ------------------------------------------------------------------ no double send

  predicate SideExec(ev: Event) {
    ev.Executed? && Side(ev.cfg, ev.call)
  }

  /** The history reopened an action: its records were dropped with a loop, or the owner said it never arrived. */
  predicate Reopens(ev: Event, e: Effect) {
    match ev
    case Lost(effects) => exists x :: x in effects && x.id == e.id
    case Corrected(ids) => Named(e, ids)
    case _ => false
  }

  predicate OnRecord(rows: seq<Effect>, e: Effect) {
    exists r :: r in rows && Live(r) && r.id == e.id && r.detail.grantKey == e.detail.grantKey
  }

  predicate ReopenedAfter(trace: seq<Event>, i: nat) {
    i < |trace| && trace[i].Executed? && exists k :: i < k < |trace| && Reopens(trace[k], trace[i].effect)
  }

  /** Every live send of the history is still a live record, unless it was reopened since. */
  predicate Accounted(rows: seq<Effect>, trace: seq<Event>) {
    forall i :: 0 <= i < |trace| && SideExec(trace[i]) && Live(trace[i].effect) ==>
      OnRecord(rows, trace[i].effect) || ReopenedAfter(trace, i)
  }

  /** At the moment of each side effect its key is open on a complete record of the run. */
  predicate SendsOnce(trace: seq<Event>) {
    forall j :: 0 <= j < |trace| && SideExec(trace[j]) ==>
      && KeyOf(trace[j].call) !in ForwardedKeys(trace[j].known)
      && (Live(trace[j].effect) ==> trace[j].effect.detail.grantKey == Some(KeyOf(trace[j].call)))
      && Accounted(trace[j].known, trace[..j])
  }

  ghost predicate Quiet(evs: seq<Event>) {
    forall ev :: ev in evs ==> !ev.Executed?
  }

  lemma QuietKeepsSendsOnce(trace: seq<Event>, evs: seq<Event>)
    requires SendsOnce(trace) && Quiet(evs)
    ensures SendsOnce(trace + evs)
  {
    var t := trace + evs;
    forall j | 0 <= j < |t| && SideExec(t[j])
      ensures j < |trace| && t[j] == trace[j] && t[..j] == trace[..j]
    {
    }
  }

  lemma QuietKeepsAccounted(rows: seq<Effect>, trace: seq<Event>, evs: seq<Event>)
    requires Accounted(rows, trace) && Quiet(evs)
    ensures Accounted(rows, trace + evs)
  {
    var t := trace + evs;
    forall i | 0 <= i < |t| && SideExec(t[i]) && Live(t[i].effect)
      ensures OnRecord(rows, t[i].effect) || ReopenedAfter(t, i)
    {
      if !OnRecord(rows, t[i].effect) { StaysReopened(trace, evs, i); }
    }
  }

  lemma StaysReopened(trace: seq<Event>, evs: seq<Event>, i: nat)
    requires ReopenedAfter(trace, i)
    ensures ReopenedAfter(trace + evs, i)
  {
    var k :| i < k < |trace| && Reopens(trace[k], trace[i].effect);
    assert (trace + evs)[k] == trace[k];
  }

  lemma MoreRecordsKeepAccounted(rows: seq<Effect>, trace: seq<Event>, later: seq<Effect>)
    requires Accounted(rows, trace)
    requires forall r :: r in rows && Live(r) ==>
      exists x :: x in later && Live(x) && x.id == r.id && x.detail.grantKey == r.detail.grantKey
    ensures Accounted(later, trace)
  {
  }

  lemma ExecKeepsAccounted(rows: seq<Effect>, trace: seq<Event>, ev: Event)
    requires Accounted(rows, trace) && ev.Executed?
    ensures Accounted(rows + [ev.effect], trace + [ev])
  {
    var t, later := trace + [ev], rows + [ev.effect];
    MoreRecordsKeepAccounted(rows, trace, later);
    forall i | 0 <= i < |t| && SideExec(t[i]) && Live(t[i].effect)
      ensures OnRecord(later, t[i].effect) || ReopenedAfter(t, i)
    {
      if i == |trace| {
        assert ev.effect in later;
      } else if !OnRecord(later, t[i].effect) {
        assert t[i] == trace[i];
        StaysReopened(trace, [ev], i);
      }
    }
  }

  lemma CallKeepsSendsOnce(cfg: Config, b: State, grants: set<GrantKey>, a: Attempt, id: nat,
                           rows: seq<Effect>, trace: seq<Event>)
    requires Synced(rows, b) && SendsOnce(trace) && Accounted(rows, trace)
    ensures var r := Handle(cfg, b, grants, a.call, a.world, id).1;
            var t := trace + Happened(cfg, b, a, rows, r);
            SendsOnce(t) && Accounted(rows + [r.effect], t)
  {
    var r := Handle(cfg, b, grants, a.call, a.world, id).1;
    SetsFollowRecords(cfg, b, grants, a.call, a.world, id);
    ExecutesOnlyOpenKeys(cfg, b, grants, a.call, a.world, id);
    if r.executed {
      var ev := Executed(a.call, cfg, a.world, r.authority, r.counted, b.counts, rows, r.effect);
      assert Happened(cfg, b, a, rows, r) == [ev];
      ExecKeepsAccounted(rows, trace, ev);
      ExecKeepsSendsOnce(trace, ev);
    } else {
      assert trace + [] == trace;
      MoreRecordsKeepAccounted(rows, trace, rows + [r.effect]);
    }
  }

  lemma ExecKeepsSendsOnce(trace: seq<Event>, ev: Event)
    requires SendsOnce(trace) && ev.Executed?
    requires SideExec(ev) ==>
      && KeyOf(ev.call) !in ForwardedKeys(ev.known) && Accounted(ev.known, trace)
      && (Live(ev.effect) ==> ev.effect.detail.grantKey == Some(KeyOf(ev.call)))
    ensures SendsOnce(trace + [ev])
  {
    var t := trace + [ev];
    forall j | 0 <= j < |t| && SideExec(t[j])
      ensures t[..j] == trace[..j] && (j < |trace| ==> t[j] == trace[j])
    {
    }
    assert trace[..|trace|] == trace;
  }

  /** The whole-run meaning: two sends of the same exact action never both stand. If an earlier one was live,
      something in between reopened it. */
  lemma SecondSendNeedsReopening(trace: seq<Event>, i: nat, j: nat)
    requires SendsOnce(trace) && i < j < |trace|
    requires SideExec(trace[i]) && SideExec(trace[j]) && KeyOf(trace[i].call) == KeyOf(trace[j].call)
    requires Live(trace[i].effect)
    ensures exists k :: i < k < j && Reopens(trace[k], trace[i].effect)
  {
  }

  // ------------------------------------------------------------------ evidence

  /** The event is a real call of this very action whose own read-back matched. */
  predicate Proves(ev: Event, key: GrantKey) {
    ev.Executed? && KeyOf(ev.call) == key && Confirms(ev.cfg, ev.call, ev.world)
  }

  ghost predicate Proven(trace: seq<Event>, key: GrantKey) {
    exists ev :: ev in trace && Proves(ev, key)
  }

  /** Every record that says verified, replayed ones included, rests on such an event. */
  ghost predicate Evidenced(rows: seq<Effect>, trace: seq<Event>) {
    forall k :: k in VerifiedKeys(rows) ==> Proven(trace, k)
  }

  lemma CallKeepsEvidence(cfg: Config, b: State, grants: set<GrantKey>, a: Attempt, id: nat,
                          rows: seq<Effect>, trace: seq<Event>)
    requires Synced(rows, b) && Evidenced(rows, trace)
    ensures var r := Handle(cfg, b, grants, a.call, a.world, id).1;
            Evidenced(rows + [r.effect], trace + Happened(cfg, b, a, rows, r))
  {
    var r := Handle(cfg, b, grants, a.call, a.world, id).1;
    SetsFollowRecords(cfg, b, grants, a.call, a.world, id);
    VerifiedHasASource(cfg, b, grants, a.call, a.world, id);
    KeysOfAppend(rows, [r.effect]);
    var t := trace + Happened(cfg, b, a, rows, r);
    forall k | k in VerifiedKeys(rows + [r.effect]) ensures Proven(t, k) {
      if k in VerifiedKeys(rows) {
        MoreTraceStillProves(trace, Happened(cfg, b, a, rows, r), k);
      } else {
        assert k == KeyOf(a.call) && r.executed && Confirms(cfg, a.call, a.world);
        assert t[|trace|] in t && Proves(t[|trace|], k);
      }
    }
  }

  lemma MoreTraceStillProves(trace: seq<Event>, more: seq<Event>, key: GrantKey)
    requires Proven(trace, key)
    ensures Proven(trace + more, key)
  {
  }

  lemma MoreTraceKeepsEvidence(rows: seq<Effect>, trace: seq<Event>, more: seq<Event>)
    requires Evidenced(rows, trace)
    ensures Evidenced(rows, trace + more)
  {
  }
}
