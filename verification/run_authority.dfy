/** What every step of a run keeps true of its permissions: who allowed each call, whom the counted sends
    reached, and the mandate's caps. */
module RunAuthority {
  import opened Types
  import opened Text
  import opened Policy
  import opened Mandate
  import opened Registrable
  import opened BrokerModel
  import opened RunModel
  import opened CallFacts

  // ------------------------------------------------------------------ grants

  /** The owner released exactly this action, on a question that showed it. */
  ghost predicate Released(trace: seq<Event>, key: GrantKey) {
    exists ev :: ev in trace && ev.Granted? && ev.key == key && KeyOf(ev.shown) == key
  }

  /** Released by the owner, not by a timer. */
  ghost predicate OwnerReleased(trace: seq<Event>, key: GrantKey) {
    exists ev :: ev in trace && ev.Granted? && ev.key == key && KeyOf(ev.shown) == key && ev.byOwner
  }

  /** A call that must be shown to the owner as a draft before it goes out. */
  predicate Previews(setup: Setup, c: Call) {
    PreviewDue(setup.config, c)
  }

  /** The question fits the action it shows: NEVER exactly for the NEVER tier, no undo window for a draft. */
  predicate AskFits(setup: Setup, shown: Call, ask: AskKind) {
    && Classify(setup.config.rules, shown.toolkit, shown.action).Tiered?
    && (ask == AskNever <==> Classify(setup.config.rules, shown.toolkit, shown.action).tier == Never)
    && (ask == AskUndo ==> !Previews(setup, shown))
  }

  /** Every release answered a fitting question, and only an undo window was released by a timer. */
  ghost predicate ReleasesFit(setup: Setup, trace: seq<Event>) {
    forall ev :: ev in trace && ev.Granted? ==> AskFits(setup, ev.shown, ev.ask) && (ev.byOwner || ev.ask == AskUndo)
  }

  /** So the NEVER tier is released by the owner alone, and a draft only by the owner, or as the same exact action in
      the browser. */
  lemma FittingReleases(setup: Setup, trace: seq<Event>, c: Call)
    requires ReleasesFit(setup, trace) && Released(trace, KeyOf(c))
    ensures Classify(setup.config.rules, c.toolkit, c.action) == Tiered(Never) ==> OwnerReleased(trace, KeyOf(c))
    ensures Previews(setup, c) ==>
      OwnerReleased(trace, KeyOf(c)) || exists ev :: ev in trace && ev.Granted? && ev.key == KeyOf(ev.shown) == KeyOf(c)
                                                     && ev.shown.browser
  {
    var ev :| ev in trace && ev.Granted? && ev.key == KeyOf(c) && KeyOf(ev.shown) == KeyOf(c);
    assert ev.shown.toolkit == c.toolkit && ev.shown.action == c.action;
  }

  ghost predicate GrantsReleased(grants: set<GrantKey>, trace: seq<Event>) {
    forall k :: k in grants ==> Released(trace, k)
  }

  // ------------------------------------------------------------------ every call was allowed

  /** The broker of the moment runs the run's own policy, and its scope is the owner's plus vouched addresses. */
  ghost predicate RunsUnder(setup: Setup, cfg: Config, discovered: seq<string>) {
    && cfg.rules == setup.config.rules && cfg.reach == setup.config.reach
    && cfg.mandateAuto == setup.config.mandateAuto && cfg.previewNever == setup.config.previewNever
    && cfg.mandate == Widened(setup.config.mandate, discovered)
  }

  /** The floors, the tier, and the one permission the call ran on. */
  ghost predicate Allowed(before: seq<Event>, ev: Event)
    requires ev.Executed?
  {
    && !Floored(ev.cfg, ev.call, ev.world)
    && Classify(ev.cfg.rules, ev.call.toolkit, ev.call.action).Tiered?
    && var tier := Classify(ev.cfg.rules, ev.call.toolkit, ev.call.action).tier;
    && (tier == Never ==> ev.authority == ByGrant)
    && match ev.authority
       case NotNeeded => tier == Auto
       case ByGrant => Released(before, KeyOf(ev.call))
       case ByMandate => Covers(ev.cfg.mandate, ev.cfg.rules, ev.cfg.reach, ev.call, tier, ev.counts)
       case ByLearned => LearnedCovers(ev.cfg.trust, ev.cfg.trustThreshold, ev.cfg.rules, ev.cfg.reach, ev.call, tier)
  }

  /** A page fetched earlier in the run, of the address's own organisation, carried it. */
  ghost predicate Vouched(setup: Setup, trace: seq<Event>, address: string) {
    exists ev :: ev in trace && ev.Fetched? && address in ev.page.emails && IsAddress(address)
                 && HostAdmits(address, ev.page.host, setup.suffixes)
  }

  ghost predicate AllVouched(setup: Setup, discovered: seq<string>, trace: seq<Event>) {
    forall a :: a in discovered ==> Vouched(setup, trace, a)
  }

  /** Whom a mandate-counted send may reach: the owner's scope, or an address a page vouched for. */
  ghost predicate InScope(setup: Setup, before: seq<Event>, ev: Event)
    requires ev.Executed?
  {
    setup.config.mandate.Mandate? && forall r :: r in Recipients(setup.config.reach, ev.call) ==>
      OnAllowlist(r, setup.config.mandate.scope) || Vouched(setup, before, r)
  }

  /** A call the mandate speaks about: a gated side effect of a listed class. */
  predicate Governed(setup: Setup, c: Call) {
    && Policy.SideEffecting(setup.config.rules, c.toolkit, c.action)
    && Classify(setup.config.rules, c.toolkit, c.action) == Tiered(Ask)
    && ListsAction(setup.config.mandate, c)
  }

  /** A call that is shown before it goes out runs on a grant, unless its tier is AUTO; and nothing runs on a mandate
      with an undo window alone. */
  ghost predicate GrantedWhenShown(setup: Setup, ev: Event)
    requires ev.Executed?
  {
    && (Previews(setup, ev.call) && Classify(setup.config.rules, ev.call.toolkit, ev.call.action) != Tiered(Auto) ==>
          ev.authority == ByGrant)
    && (ev.authority == ByMandate ==> setup.config.mandate.Mandate? && setup.config.mandate.undoSeconds <= 0)
    && (ev.counted ==> ev.authority in {ByGrant, ByMandate})
  }

  ghost predicate AllAllowed(setup: Setup, trace: seq<Event>) {
    forall j :: 0 <= j < |trace| && trace[j].Executed? ==>
      && trace[j].cfg.rules == setup.config.rules && trace[j].cfg.reach == setup.config.reach
      && Allowed(trace[..j], trace[j])
      && (trace[j].counted || trace[j].authority == ByMandate ==> InScope(setup, trace[..j], trace[j]))
      && (trace[j].counted ==> Governed(setup, trace[j].call))
      && GrantedWhenShown(setup, trace[j])
  }

  lemma QuietKeepsAllowed(setup: Setup, trace: seq<Event>, evs: seq<Event>)
    requires AllAllowed(setup, trace) && forall ev :: ev in evs ==> !ev.Executed?
    ensures AllAllowed(setup, trace + evs)
  {
    var t := trace + evs;
    forall j | 0 <= j < |t| && t[j].Executed?
      ensures j < |trace| && t[j] == trace[j] && t[..j] == trace[..j]
    {
    }
  }

  lemma {:induction false} ExecKeepsAllowed(setup: Setup, trace: seq<Event>, ev: Event)
    requires AllAllowed(setup, trace) && ev.Executed? && Allowed(trace, ev)
    requires ev.cfg.rules == setup.config.rules && ev.cfg.reach == setup.config.reach
    requires ev.counted || ev.authority == ByMandate ==> InScope(setup, trace, ev)
    requires ev.counted ==> Governed(setup, ev.call)
    requires GrantedWhenShown(setup, ev)
    ensures AllAllowed(setup, trace + [ev])
  {
    var t := trace + [ev];
    forall j | 0 <= j < |t| && t[j].Executed?
      ensures t[..j] == trace[..j] && (j < |trace| ==> t[j] == trace[j])
    {
    }
    assert trace[..|trace|] == trace;
  }

  /** A covered call reaches only the owner's scope and vouched addresses: an address on the list admits
      itself alone. */
  lemma {:induction false} CoveredStaysInScope(setup: Setup, cfg: Config, discovered: seq<string>, trace: seq<Event>,
                                               c: Call, tier: Tier, counts: Counts, r: string)
    requires RunsUnder(setup, cfg, discovered) && AllVouched(setup, discovered, trace)
    requires Covers(cfg.mandate, cfg.rules, cfg.reach, c, tier, counts)
    requires r in Recipients(cfg.reach, c)
    ensures OnAllowlist(r, setup.config.mandate.scope) || Vouched(setup, trace, r)
  {
    var e :| e in cfg.mandate.scope && EntryAdmits(r, e);
    if e !in setup.config.mandate.scope {
      assert Vouched(setup, trace, e);
      AddressAdmitsOnlyItself(r, e);
      var i :| i in cfg.reach.harvested(c) && Norm(i) == r;
      NormTwice(i);
    }
  }

  lemma {:induction false} CallKeepsAllowed(setup: Setup, cfg: Config, discovered: seq<string>, b: State,
                                            grants: set<GrantKey>, a: Attempt, id: nat, rows: seq<Effect>,
                                            trace: seq<Event>)
    requires RunsUnder(setup, cfg, discovered) && AllVouched(setup, discovered, trace)
    requires GrantsReleased(grants, trace) && AllAllowed(setup, trace)
    ensures var r := Handle(cfg, b, grants, a.call, a.world, id).1;
            AllAllowed(setup, trace + Happened(cfg, b, a, rows, r))
  {
    var r := Handle(cfg, b, grants, a.call, a.world, id).1;
    if r.executed {
      NothingRunsUnauthorised(cfg, b, grants, a.call, a.world, id);
      CounterFollowsCoveredSends(cfg, b, grants, a.call, a.world, id);
      var ev := Executed(a.call, cfg, a.world, r.authority, r.counted, b.counts, rows, r.effect);
      assert Happened(cfg, b, a, rows, r) == [ev];
      var tier := Classify(cfg.rules, a.call.toolkit, a.call.action).tier;
      if r.counted || r.authority == ByMandate {
        forall p | p in Recipients(cfg.reach, a.call)
          ensures OnAllowlist(p, setup.config.mandate.scope) || Vouched(setup, trace, p)
        {
          CoveredStaysInScope(setup, cfg, discovered, trace, a.call, tier, b.counts, p);
        }
      }
      if Previews(setup, a.call) { DeliveriesNeedAGrant(cfg, b, grants, a.call, a.world, id); }
      WindowsAreKept(cfg, b, grants, a.call, a.world, id);
      ExecKeepsAllowed(setup, trace, ev);
    } else {
      assert trace + [] == trace;
    }
  }

  // ------------------------------------------------------------------ the caps

  /** The mandate-counted sends of a history, in order. */
  function History(trace: seq<Event>): seq<Sent> {
    if trace == [] then []
    else
      var ev := trace[|trace| - 1];
      History(trace[..|trace| - 1])
        + if ev.Executed? && ev.counted then [Sent(Recipients(ev.cfg.reach, ev.call), ev.call.params)] else []
  }

  /** The counter is the exact tally of the counted sends, and they respect every cap. */
  ghost predicate Capped(setup: Setup, counts: Counts, trace: seq<Event>) {
    && Tallies(counts, History(trace)) && Balanced(counts)
    && (setup.config.mandate.Mandate? ==> WithinCaps(History(trace), EffectiveCaps(setup.config.mandate)))
    && (setup.config.mandate.NoMandate? ==> History(trace) == [])
  }

  lemma {:induction false} CountedIsInHistory(trace: seq<Event>, j: nat)
    requires j < |trace| && trace[j].Executed? && trace[j].counted
    ensures exists i :: 0 <= i < |History(trace)| && History(trace)[i].params == trace[j].call.params
  {
    var n := |trace| - 1;
    if j < n {
      CountedIsInHistory(trace[..n], j);
      var i :| 0 <= i < |History(trace[..n])| && History(trace[..n])[i].params == trace[j].call.params;
      assert History(trace)[i] == History(trace[..n])[i];
    } else {
      assert History(trace)[|History(trace[..n])|].params == trace[j].call.params;
    }
  }

  lemma {:induction false} QuietKeepsHistory(trace: seq<Event>, evs: seq<Event>)
    requires forall ev :: ev in evs ==> !ev.Executed?
    ensures History(trace + evs) == History(trace)
  {
    if evs == [] {
      assert trace + evs == trace;
    } else {
      var n := |evs| - 1;
      assert (trace + evs)[..|trace| + n] == trace + evs[..n];
      QuietKeepsHistory(trace, evs[..n]);
    }
  }

  lemma {:induction false} CallKeepsCaps(setup: Setup, cfg: Config, discovered: seq<string>, b: State,
                                         grants: set<GrantKey>, a: Attempt, id: nat, rows: seq<Effect>,
                                         trace: seq<Event>)
    requires RunsUnder(setup, cfg, discovered) && Capped(setup, b.counts, trace)
    ensures var (t, r) := Handle(cfg, b, grants, a.call, a.world, id);
            Capped(setup, t.counts, trace + Happened(cfg, b, a, rows, r))
  {
    var (t, r) := Handle(cfg, b, grants, a.call, a.world, id);
    CounterFollowsCoveredSends(cfg, b, grants, a.call, a.world, id);
    if r.executed {
      var ev := Executed(a.call, cfg, a.world, r.authority, r.counted, b.counts, rows, r.effect);
      assert Happened(cfg, b, a, rows, r) == [ev];
      assert (trace + [ev])[..|trace|] == trace;
      if r.counted {
        var tier := Classify(cfg.rules, a.call.toolkit, a.call.action).tier;
        CoveredSendStaysWithinCaps(cfg.mandate, cfg.rules, cfg.reach, a.call, tier, b.counts, History(trace));
        BumpKeepsBalance(b.counts, Recipients(cfg.reach, a.call), a.call.params);
      } else {
        assert History(trace + [ev]) == History(trace) + [];
        assert History(trace) + [] == History(trace);
      }
    } else {
      assert trace + [] == trace;
    }
  }
}
