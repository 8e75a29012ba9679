/** The broker: the executor's only path to the outside world (flowers/broker.py). */
module BrokerModel {
  import opened Types
  import opened ReadBack
  import opened ReadbackPoll
  import opened Policy
  import opened Mandate

  // ------------------------------------------------------------------ what a broker is built with

  datatype Config = Config(
    rules: Rules,
    reach: Reach,
    mandate: Mandate,
    mandateAuto: bool,
    previewNever: bool,
    trust: map<string, nat>,
    trustThreshold: int,
    verifyAttempts: int,
    actor: string,
    fingerprint: Call -> Option<Fingerprint>,
    browserFloor: Call -> bool)

  /** What the outside world answers to one call. */
  datatype Execution =
    | Raised
    | Rejected(authRequired: bool, consentUrl: bool)
    | Accepted(created: Option<string>, actor: string)

  datatype World = World(
    before: Probe,
    execution: Execution,
    polls: seq<Probe>,
    paymentForm: bool,
    observer: string)

  // ------------------------------------------------------------------ what a call comes to

  datatype AskKind = AskSideEffect | AskNever | AskUndo | AskPreview
  datatype Status = Done | NeedsApproval(ask: AskKind) | NeedsAuth | RefusedCall | Erred

  /** Why a call was allowed to run. */
  datatype Authority = NotNeeded | ByGrant | ByMandate | ByLearned

  datatype Decision = Refusal | Replay | Park(ask: AskKind) | Execute(authority: Authority)

  /** `executed`: the backend was called. `counted`: the call went out and was charged to the mandate. */
  datatype Reply = Reply(status: Status, effect: Effect, executed: bool, counted: bool, authority: Authority)

  datatype State = State(forwarded: set<GrantKey>, verified: set<GrantKey>, counts: Counts)

  predicate Side(cfg: Config, c: Call) {
    Policy.SideEffecting(cfg.rules, c.toolkit, c.action)
  }

  predicate MandateCovers(cfg: Config, counts: Counts, c: Call) {
    && Side(cfg, c)
    && Classify(cfg.rules, c.toolkit, c.action).Tiered?
    && Covers(cfg.mandate, cfg.rules, cfg.reach, c, Classify(cfg.rules, c.toolkit, c.action).tier, counts)
  }

  predicate Learned(cfg: Config, counts: Counts, c: Call) {
    && !c.browser && Side(cfg, c) && !MandateCovers(cfg, counts, c) && !ListsAction(cfg.mandate, c)
    && Classify(cfg.rules, c.toolkit, c.action).Tiered?
    && LearnedCovers(cfg.trust, cfg.trustThreshold, cfg.rules, cfg.reach, c,
                     Classify(cfg.rules, c.toolkit, c.action).tier)
  }

  /** The floors no grant, mandate, trust count or override can reach. */
  predicate Floored(cfg: Config, c: Call, w: World) {
    || cfg.rules.refused(c.toolkit, c.action)
    || (c.browser && (cfg.browserFloor(c) || w.paymentForm))
  }

  function Decide(cfg: Config, s: State, grants: set<GrantKey>, c: Call, w: World): Decision {
    if Floored(cfg, c, w) then Refusal
    else if Side(cfg, c) && KeyOf(c) in s.forwarded then Replay
    else
      var tier := Classify(cfg.rules, c.toolkit, c.action).tier;
      var granted := KeyOf(c) in grants;
      var covered := MandateCovers(cfg, s.counts, c);
      if covered && !granted && !c.browser && cfg.mandateAuto && !cfg.previewNever
         && cfg.reach.delivering(c.toolkit, c.action) then Park(AskPreview)
      else if covered && !granted && UndoSeconds(cfg.mandate) > 0 then Park(AskUndo)
      else if tier == Auto then Execute(NotNeeded)
      else if granted then Execute(ByGrant)
      else if covered then Execute(ByMandate)
      else if Learned(cfg, s.counts, c) then Execute(ByLearned)
      else Park(if tier == Never then AskNever else AskSideEffect)
  }

  function Kind(c: Call): string {
    if c.browser then "cua" else "composio"
  }

  /** A record as the broker stamps it, with nothing observed yet. */
  function Stamped(cfg: Config, c: Call, id: nat, side: bool, phase: Phase): Effect {
    Effect(Some(id), c.toolkit, c.action, Some(side), true, phase, None, None, Kind(c), None, None,
           Some(cfg.actor), NoDetail)
  }

  /** A refusal is recorded with the default kind, also for a browser action. */
  function RefusedEffect(cfg: Config, c: Call, id: nat): Effect {
    Stamped(cfg, c, id, true, Refused).(effectKind := "composio")
  }

  function Keyed(e: Effect, c: Call): Effect {
    e.(detail := e.detail.(grantKey := Some(KeyOf(c))))
  }

  function ReplayEffect(cfg: Config, s: State, c: Call, id: nat): Effect {
    var seen := if KeyOf(c) in s.verified then Some(true) else None;
    var e := Keyed(Stamped(cfg, c, id, true, Forwarded), c);
    e.(drift := seen, expected := seen, detail := e.detail.(replay := true))
  }

  function FailedEffect(cfg: Config, c: Call, id: nat): Effect {
    Keyed(Stamped(cfg, c, id, Side(cfg, c), Failed), c).(mutating := c.browser || Side(cfg, c))
  }

  /** The browser's observer has no error channel: a failed look is just nothing seen. */
  function Look(c: Call, p: Probe): Probe {
    if c.browser && !p.Seen? then Nothing else p
  }

  function Looks(c: Call, polls: seq<Probe>): seq<Probe> {
    seq(|polls|, i requires 0 <= i < |polls| => Look(c, polls[i]))
  }

  function FingerprintOf(cfg: Config, c: Call, created: Option<string>): Option<Fingerprint> {
    if c.browser then cfg.fingerprint(c) else BindCreated(cfg.fingerprint(c), created)
  }

  function ForwardedEffect(cfg: Config, c: Call, w: World, id: nat): Effect
    requires w.execution.Accepted?
  {
    var fp := FingerprintOf(cfg, c, w.execution.created);
    var rb := Verify(Look(c, w.before), Looks(c, w.polls), fp, cfg.verifyAttempts);
    var e := Keyed(Stamped(cfg, c, id, true, Forwarded), c);
    e.(drift := rb.drift, expected := rb.expected,
       observer := if c.browser then Some(w.observer) else None,
       actor := if c.browser then Some(w.execution.actor) else e.actor,
       detail := e.detail.(readbackError := rb.broken))
  }

  /** The sets after a side effect went out: only proof of absence leaves the action open. */
  function Settled(s: State, c: Call, expected: Option<bool>): State {
    s.(forwarded := if expected != Some(false) then s.forwarded + {KeyOf(c)} else s.forwarded,
       verified := if expected == Some(true) then s.verified + {KeyOf(c)} else s.verified)
  }

  function Charge(cfg: Config, s: State, c: Call): State {
    if MandateCovers(cfg, s.counts, c)
    then s.(counts := Bumped(s.counts, Recipients(cfg.reach, c), c.params))
    else s
  }

  function RunCall(cfg: Config, s: State, c: Call, w: World, id: nat, authority: Authority): (State, Reply) {
    match w.execution
    case Raised => (s, Reply(Erred, FailedEffect(cfg, c, id), true, false, authority))
    case Rejected(auth, url) =>
      if !c.browser && auth && url
      then (s, Reply(NeedsAuth, Stamped(cfg, c, id, Side(cfg, c), Deferred), true, false, authority))
      else (s, Reply(Erred, FailedEffect(cfg, c, id), true, false, authority))
    case Accepted(_, _) =>
      if !Side(cfg, c) then (s, Reply(Done, Stamped(cfg, c, id, false, Forwarded), true, false, authority))
      else
        var e := ForwardedEffect(cfg, c, w, id);
        (Settled(Charge(cfg, s, c), c, e.expected),
         Reply(Done, e, true, MandateCovers(cfg, s.counts, c), authority))
  }

  /** One call through the broker: the new sets and counter, and the answer. */
  function Handle(cfg: Config, s: State, grants: set<GrantKey>, c: Call, w: World, id: nat): (State, Reply) {
    match Decide(cfg, s, grants, c, w)
    case Refusal => (s, Reply(RefusedCall, RefusedEffect(cfg, c, id), false, false, NotNeeded))
    case Replay => (s, Reply(Done, ReplayEffect(cfg, s, c, id), false, false, NotNeeded))
    case Park(ask) => (s, Reply(NeedsApproval(ask), Stamped(cfg, c, id, true, Deferred), false, false, NotNeeded))
    case Execute(authority) => RunCall(cfg, s, c, w, id, authority)
  }

  // ------------------------------------------------------------------ the broker object

  class Broker {
    const cfg: Config
    var forwardedGks: set<GrantKey>
    var verifiedGks: set<GrantKey>
    var mandateCounts: Counts

    constructor (cfg: Config, forwardedGks: set<GrantKey>, verifiedGks: set<GrantKey>, counts: Counts)
      ensures this.cfg == cfg && Abstract() == State(forwardedGks, verifiedGks, counts)
    {
      this.cfg := cfg;
      this.forwardedGks := forwardedGks;
      this.verifiedGks := verifiedGks;
      this.mandateCounts := counts;
    }

    ghost function Abstract(): State
      reads this
    {
      State(forwardedGks, verifiedGks, mandateCounts)
    }

    /** Read back, record, charge the mandate and close the action unless it is proven missing. */
    method ForwardSide(c: Call, w: World, id: nat, covered: bool) returns (e: Effect)
      requires w.execution.Accepted? && covered == MandateCovers(cfg, mandateCounts, c)
      modifies this
      ensures e == ForwardedEffect(cfg, c, w, id)
      ensures Abstract() == Settled(Charge(cfg, old(Abstract()), c), c, e.expected)
    {
      var fp := FingerprintOf(cfg, c, w.execution.created);
      var rb := VerifyReadback(Look(c, w.before), Looks(c, w.polls), fp, cfg.verifyAttempts);
      e := Keyed(Stamped(cfg, c, id, true, Forwarded), c);
      e := e.(drift := rb.drift, expected := rb.expected, detail := e.detail.(readbackError := rb.broken));
      if c.browser {
        e := e.(observer := Some(w.observer), actor := Some(w.execution.actor));
      }
      if covered {
        mandateCounts := Bump(mandateCounts, Recipients(cfg.reach, c), c.params);
      }
      if e.expected != Some(false) {
        forwardedGks := forwardedGks + {KeyOf(c)};
      }
      if e.expected == Some(true) {
        verifiedGks := verifiedGks + {KeyOf(c)};
      }
    }

    /** The authorized call itself: the backend's answer, and the record of what it came to. */
    method RunAndRecord(c: Call, w: World, id: nat, covered: bool, authority: Authority) returns (r: Reply)
      requires covered == MandateCovers(cfg, mandateCounts, c)
      modifies this
      ensures (Abstract(), r) == RunCall(cfg, old(Abstract()), c, w, id, authority)
    {
      var side := Side(cfg, c);
      match w.execution
      case Raised => r := Reply(Erred, FailedEffect(cfg, c, id), true, false, authority);
      case Rejected(auth, url) =>
        if !c.browser && auth && url {
          r := Reply(NeedsAuth, Stamped(cfg, c, id, side, Deferred), true, false, authority);
        } else {
          r := Reply(Erred, FailedEffect(cfg, c, id), true, false, authority);
        }
      case Accepted(_, _) =>
        if !side {
          r := Reply(Done, Stamped(cfg, c, id, false, Forwarded), true, false, authority);
        } else {
          var e := ForwardSide(c, w, id, covered);
          r := Reply(Done, e, true, covered, authority);
        }
    }

    method CallIntegration(c: Call, grants: set<GrantKey>, w: World, id: nat) returns (r: Reply)
      requires !c.browser
      modifies this
      ensures (Abstract(), r) == Handle(cfg, old(Abstract()), grants, c, w, id)
    {
      if cfg.rules.refused(c.toolkit, c.action) {
        return Reply(RefusedCall, RefusedEffect(cfg, c, id), false, false, NotNeeded);
      }
      var tier := Classify(cfg.rules, c.toolkit, c.action).tier;
      var side := Side(cfg, c);
      if side && KeyOf(c) in forwardedGks {
        var replay := ReplayEffect(cfg, State(forwardedGks, verifiedGks, mandateCounts), c, id);
        return Reply(Done, replay, false, false, NotNeeded);
      }
      var granted := KeyOf(c) in grants;
      var covered := MandateCovers(cfg, mandateCounts, c);
      if covered && cfg.mandateAuto && !granted && !cfg.previewNever && cfg.reach.delivering(c.toolkit, c.action) {
        return Reply(NeedsApproval(AskPreview), Stamped(cfg, c, id, true, Deferred), false, false, NotNeeded);
      }
      if covered && UndoSeconds(cfg.mandate) > 0 && !granted {
        return Reply(NeedsApproval(AskUndo), Stamped(cfg, c, id, true, Deferred), false, false, NotNeeded);
      }
      var learned := Learned(cfg, mandateCounts, c);
      if tier != Auto && !(granted || covered || learned) {
        var ask := if tier == Never then AskNever else AskSideEffect;
        return Reply(NeedsApproval(ask), Stamped(cfg, c, id, true, Deferred), false, false, NotNeeded);
      }
      var authority := if tier == Auto then NotNeeded else if granted then ByGrant
                       else if covered then ByMandate else ByLearned;
      r := RunAndRecord(c, w, id, covered, authority);
    }

    method CallBrowser(c: Call, grants: set<GrantKey>, w: World, id: nat) returns (r: Reply)
      requires c.browser
      modifies this
      ensures (Abstract(), r) == Handle(cfg, old(Abstract()), grants, c, w, id)
    {
      if cfg.rules.refused(c.toolkit, c.action) || cfg.browserFloor(c) || w.paymentForm {
        return Reply(RefusedCall, RefusedEffect(cfg, c, id), false, false, NotNeeded);
      }
      var tier := Classify(cfg.rules, c.toolkit, c.action).tier;
      var side := Side(cfg, c);
      if side && KeyOf(c) in forwardedGks {
        var replay := ReplayEffect(cfg, State(forwardedGks, verifiedGks, mandateCounts), c, id);
        return Reply(Done, replay, false, false, NotNeeded);
      }
      var granted := KeyOf(c) in grants;
      var covered := MandateCovers(cfg, mandateCounts, c);
      if covered && UndoSeconds(cfg.mandate) > 0 && !granted {
        return Reply(NeedsApproval(AskUndo), Stamped(cfg, c, id, true, Deferred), false, false, NotNeeded);
      }
      if tier != Auto && !(granted || covered) {
        var ask := if tier == Never then AskNever else AskSideEffect;
        return Reply(NeedsApproval(ask), Stamped(cfg, c, id, true, Deferred), false, false, NotNeeded);
      }
      var authority := if tier == Auto then NotNeeded else if granted then ByGrant else ByMandate;
      r := RunAndRecord(c, w, id, covered, authority);
    }

    /** Run a parked action, routed to the backend it was parked for. */
    method PerformPending(c: Call, grants: set<GrantKey>, w: World, id: nat) returns (r: Reply)
      modifies this
      ensures (Abstract(), r) == Handle(cfg, old(Abstract()), grants, c, w, id)
    {
      if cfg.rules.refused(c.toolkit, c.action) {
        return Reply(RefusedCall, RefusedEffect(cfg, c, id), false, false, NotNeeded);
      }
      if c.browser {
        r := CallBrowser(c, grants, w, id);
      } else {
        r := CallIntegration(c, grants, w, id);
      }
    }
  }
}
