/** The bounded tool loop (flowers/engine/executor.py) and its circuit breaker (flowers/engine/scheduler.py): the
    transcript it keeps across parks and resumes, and its caps. The model's turns and every tool's answer are
    arbitrary. */
module Executor {
  import opened Types

  // ------------------------------------------------------------------ transcripts

  type CallId = nat

  /** One message. Only the ids of tool calls and of their answers matter here. */
  datatype Message = System | User | Assistant(calls: seq<CallId>) | Tool(answers: CallId)

  /** The tool calls a transcript leaves unanswered; None once a message came out of turn: an answer nobody is
      waiting for, or a new turn while calls are open. */
  function Open(messages: seq<Message>): Option<multiset<CallId>> {
    if messages == [] then Some(multiset{})
    else
      var before := Open(messages[..|messages| - 1]);
      match messages[|messages| - 1]
      case Tool(id) =>
        if before.Some? && id in before.value then Some(before.value - multiset{id}) else None
      case Assistant(calls) =>
        if before == Some(multiset{}) then Some(multiset(calls)) else None
      case _ => if before == Some(multiset{}) then before else None
  }

  /** Fit to be sent to the model: each earlier tool call has exactly one answer. */
  predicate Answered(messages: seq<Message>) {
    Open(messages) == Some(multiset{})
  }

  lemma Append(messages: seq<Message>, m: Message)
    ensures (messages + [m])[..|messages|] == messages
  {
  }

  /** Occurrences of an id among the calls of a transcript, and among its answers. */
  function CallsOf(messages: seq<Message>, id: CallId): nat {
    if messages == [] then 0
    else
      var m := messages[|messages| - 1];
      CallsOf(messages[..|messages| - 1], id) + if m.Assistant? then multiset(m.calls)[id] else 0
  }

  function AnswersOf(messages: seq<Message>, id: CallId): nat {
    if messages == [] then 0
    else AnswersOf(messages[..|messages| - 1], id) + if messages[|messages| - 1] == Tool(id) then 1 else 0
  }

  /** What being answered means: for every id, as many tool messages as tool calls. */
  lemma {:induction false} OpenIsTheDifference(messages: seq<Message>, id: CallId)
    requires Open(messages).Some?
    ensures CallsOf(messages, id) == AnswersOf(messages, id) + Open(messages).value[id]
  {
    if messages != [] {
      OpenIsTheDifference(messages[..|messages| - 1], id);
    }
  }

  lemma EachCallAnsweredOnce(messages: seq<Message>)
    requires Answered(messages)
    ensures forall id :: CallsOf(messages, id) == AnswersOf(messages, id)
  {
    forall id ensures CallsOf(messages, id) == AnswersOf(messages, id) {
      OpenIsTheDifference(messages, id);
    }
  }

  // ------------------------------------------------------------------ the circuit breaker

  class CircuitBreaker {
    const threshold: nat
    var consecutive: map<string, nat>
    var total: map<string, nat>
    ghost var history: seq<(string, bool)>

    constructor (threshold: int)
      ensures this.threshold == if threshold < 1 then 1 else threshold
      ensures Valid() && history == []
    {
      this.threshold := if threshold < 1 then 1 else threshold;
      consecutive, total, history := map[], map[], [];
    }

    ghost predicate Valid()
      reads this
    {
      && (forall t :: Get(consecutive, t) == LastFailures(history, t))
      && (forall t :: Get(total, t) == Failures(history, t))
    }

    method Record(tool: string, ok: bool)
      requires Valid()
      modifies this
      ensures Valid() && history == old(history) + [(tool, ok)]
    {
      if ok {
        consecutive := consecutive[tool := 0];
      } else {
        consecutive := consecutive[tool := Get(consecutive, tool) + 1];
        total := total[tool := Get(total, tool) + 1];
      }
      history := history + [(tool, ok)];
      assert history[..|history| - 1] == old(history);
    }

    /** Tripped exactly when the last `threshold` uses of the tool all failed. */
    method Tripped(tool: string) returns (tripped: bool)
      requires Valid()
      ensures tripped <==> LastFailures(history, tool) >= threshold
    {
      tripped := Get(consecutive, tool) >= threshold;
    }
  }

  /** The failures of a tool since it last worked. */
  function LastFailures(history: seq<(string, bool)>, tool: string): nat {
    if history == [] then 0
    else
      var (t, ok) := history[|history| - 1];
      if t != tool then LastFailures(history[..|history| - 1], tool)
      else if ok then 0 else LastFailures(history[..|history| - 1], tool) + 1
  }

  function Failures(history: seq<(string, bool)>, tool: string): nat {
    if history == [] then 0
    else Failures(history[..|history| - 1], tool)
         + if history[|history| - 1] == (tool, false) then 1 else 0
  }

  // ------------------------------------------------------------------ the loop

  datatype Budget = Budget(maxIterations: nat, maxSearches: nat, maxToolCalls: nat, maxFailures: int)

  /** One tool call of a turn and what running it comes to. */
  datatype Ask =
    | Finish(id: CallId)
    | Search(id: CallId, ok: bool)
    | Act(id: CallId, parks: bool)

  /** A model turn: it failed, it only spoke, or it calls tools. */
  datatype Turn = ModelError | Spoke | Calls(asks: seq<Ask>)

  datatype Resume = Resume(messages: seq<Message>, searches: nat, toolCalls: nat, pending: CallId)

  datatype Result = Ended | ParkedOn(resume: Resume) | OutOfBudget(prompt: seq<Message>)

  // ------------------------------------------------------------------ how a loop ends, from its inputs alone

  /** What the turns and the budget lead to; `Parks` carries the parked call with the searches and tool calls so far,
      `Goes` these and the search failures in a row. */
  datatype Ending =
    | Stops
    | Parks(id: CallId, searches: nat, toolCalls: nat)
    | CallCap
    | IterationCap
    | Goes(searches: nat, toolCalls: nat, failures: nat)

  function Threshold(budget: Budget): nat {
    if budget.maxFailures < 1 then 1 else budget.maxFailures
  }

  /** One search: searches made, failures in a row, and whether the breaker stops the step. Beyond the search budget
      it is answered without searching. */
  function SearchEnds(budget: Budget, ok: bool, searches: nat, failures: nat): (nat, nat, bool) {
    if searches >= budget.maxSearches then (searches, failures, false)
    else if ok then (searches + 1, 0, false)
    else (searches + 1, failures + 1, failures + 1 >= Threshold(budget))
  }

  /** One turn's calls in order: a finish, a tripped breaker or a park ends the loop, and so does the first other
      call beyond the tool-call cap. */
  function TurnEnds(budget: Budget, asks: seq<Ask>, searches: nat, toolCalls: nat, failures: nat): Ending {
    if asks == [] then Goes(searches, toolCalls, failures)
    else
      var ask := asks[0];
      if ask.Finish? then Stops
      else if toolCalls + 1 > budget.maxToolCalls then CallCap
      else if ask.Act? then
        if ask.parks then Parks(ask.id, searches, toolCalls + 1)
        else TurnEnds(budget, asks[1..], searches, toolCalls + 1, failures)
      else
        var (made, failed, stop) := SearchEnds(budget, ask.ok, searches, failures);
        if stop then Stops else TurnEnds(budget, asks[1..], made, toolCalls + 1, failed)
  }

  /** What one turn comes to: a failed or silent one stops the step. */
  function SaidEnds(budget: Budget, said: Turn, searches: nat, toolCalls: nat, failures: nat): Ending {
    if said.Calls? && said.asks != [] then TurnEnds(budget, said.asks, searches, toolCalls, failures) else Stops
  }

  /** The turns from number `it` on, until one ends the loop. */
  function LoopEnds(budget: Budget, turn: nat -> Turn, it: nat, searches: nat, toolCalls: nat, failures: nat): Ending
    decreases budget.maxIterations - it
  {
    if it >= budget.maxIterations then IterationCap
    else
      var end := SaidEnds(budget, turn(it), searches, toolCalls, failures);
      if end.Goes? then LoopEnds(budget, turn, it + 1, end.searches, end.toolCalls, end.failures) else end
  }

  /** The result the inputs call for: a park parks on that very call with the counters of the moment, a cap prompts for
      a finish, and that prompt leaves calls open exactly when it was the tool-call cap. */
  predicate EndsAs(r: Result, end: Ending) {
    match end
    case Stops => r.Ended?
    case Parks(id, searches, toolCalls) =>
      && r.ParkedOn? && r.resume.pending == id
      && r.resume.searches == searches && r.resume.toolCalls == toolCalls
    case CallCap => r.OutOfBudget? && !Answered(r.prompt)
    case IterationCap => r.OutOfBudget? && Answered(r.prompt)
    case Goes(_, _, _) => false
  }

  /** The turn parks on its call number `i`: that one must wait, and none before it finished or parked. */
  predicate ParksAt(asks: seq<Ask>, i: nat, id: CallId) {
    && i < |asks| && asks[i] == Act(id, true)
    && forall j :: 0 <= j < i ==> !asks[j].Finish? && !(asks[j].Act? && asks[j].parks)
  }

  /** A turn that parks does so on its first call that must wait, with every call up to it counted. */
  lemma {:induction false} TurnParksAt(budget: Budget, asks: seq<Ask>, searches: nat, toolCalls: nat, failures: nat)
    returns (i: nat)
    requires TurnEnds(budget, asks, searches, toolCalls, failures).Parks?
    ensures var end := TurnEnds(budget, asks, searches, toolCalls, failures);
            ParksAt(asks, i, end.id) && end.toolCalls == toolCalls + i + 1 <= budget.maxToolCalls
    decreases |asks|
  {
    i := 0;
    if !(asks[0].Act? && asks[0].parks) {
      if asks[0].Act? {
        i := TurnParksAt(budget, asks[1..], searches, toolCalls + 1, failures);
      } else {
        var (made, failed, _) := SearchEnds(budget, asks[0].ok, searches, failures);
        i := TurnParksAt(budget, asks[1..], made, toolCalls + 1, failed);
      }
      forall j | 0 <= j < i + 1 ensures !asks[j].Finish? && !(asks[j].Act? && asks[j].parks) {
        if j > 0 { assert asks[1..][j - 1] == asks[j]; }
      }
      i := i + 1;
    }
  }

  /** And one that must wait after plain calls, within the cap, parks. */
  lemma {:induction false} TurnParksAfterPlain(budget: Budget, asks: seq<Ask>, searches: nat, toolCalls: nat,
                                               failures: nat, i: nat)
    requires i < |asks| && Plain(asks[..i]) && asks[i].Act? && asks[i].parks
    requires toolCalls + i + 1 <= budget.maxToolCalls
    ensures TurnEnds(budget, asks, searches, toolCalls, failures) == Parks(asks[i].id, searches, toolCalls + i + 1)
    decreases |asks|
  {
    if i > 0 {
      assert asks[..i][0] == asks[0] && asks[0] in asks[..i];
      assert asks[1..][..i - 1] == asks[..i][1..];
      TurnParksAfterPlain(budget, asks[1..], searches, toolCalls + 1, failures, i - 1);
    }
  }

  predicate FailingSearches(asks: seq<Ask>) {
    forall a :: a in asks ==> a.Search? && !a.ok
  }

  /** Within both budgets every search is made; a turn of failing ones stops the step exactly when they bring the
      failures in a row to the threshold. */
  lemma {:induction false} FailingSearchesTripIff(budget: Budget, asks: seq<Ask>, searches: nat, toolCalls: nat,
                                                  failures: nat)
    requires FailingSearches(asks) && failures < Max(1, budget.maxFailures)
    requires searches + |asks| <= budget.maxSearches && toolCalls + |asks| <= budget.maxToolCalls
    ensures TurnEnds(budget, asks, searches, toolCalls, failures) ==
      if failures + |asks| >= Max(1, budget.maxFailures) then Stops
      else Goes(searches + |asks|, toolCalls + |asks|, failures + |asks|)
    decreases |asks|
  {
    if asks != [] {
      assert asks[0] in asks;
      if failures + 1 < Max(1, budget.maxFailures) {
        FailingSearchesTripIff(budget, asks[1..], searches + 1, toolCalls + 1, failures + 1);
      }
    }
  }

  /** Beyond the search budget a search is only answered. */
  lemma SpentSearchesAreAnswered(budget: Budget, ask: Ask, searches: nat, toolCalls: nat, failures: nat)
    requires ask.Search? && searches >= budget.maxSearches && toolCalls < budget.maxToolCalls
    ensures TurnEnds(budget, [ask], searches, toolCalls, failures) == Goes(searches, toolCalls + 1, failures)
  {
    assert [ask][1..] == [];
  }

  /** A turn that stops the step does so with a finish, or with a search that trips the breaker; one that hits the cap
      holds a call beyond it. */
  lemma {:induction false} TurnStopsAt(budget: Budget, asks: seq<Ask>, searches: nat, toolCalls: nat, failures: nat)
    returns (i: nat)
    requires var end := TurnEnds(budget, asks, searches, toolCalls, failures); end == Stops || end == CallCap
    ensures i < |asks|
    ensures TurnEnds(budget, asks, searches, toolCalls, failures) == CallCap ==>
      toolCalls + i + 1 > budget.maxToolCalls && !asks[i].Finish?
    ensures TurnEnds(budget, asks, searches, toolCalls, failures) == Stops ==>
      asks[i].Finish? || (asks[i].Search? && !asks[i].ok)
    ensures forall j :: 0 <= j < i ==> !asks[j].Finish? && !(asks[j].Act? && asks[j].parks)
    decreases |asks|
  {
    i := 0;
    var (made, failed, stop) := if asks[0].Search? then SearchEnds(budget, asks[0].ok, searches, failures)
                                else (searches, failures, false);
    if !asks[0].Finish? && toolCalls + 1 <= budget.maxToolCalls && !stop {
      i := TurnStopsAt(budget, asks[1..], made, toolCalls + 1, failed);
      forall j | 0 <= j < i + 1 ensures !asks[j].Finish? && !(asks[j].Act? && asks[j].parks) {
        if j > 0 { assert asks[1..][j - 1] == asks[j]; }
      }
      i := i + 1;
    }
  }

  /** The loop parks in the turn that parks: on a call of that turn that must wait. */
  lemma {:induction false} LoopParksAt(budget: Budget, turn: nat -> Turn, it: nat, searches: nat, toolCalls: nat,
                                       failures: nat) returns (at: nat, i: nat)
    requires LoopEnds(budget, turn, it, searches, toolCalls, failures).Parks?
    ensures it <= at < budget.maxIterations && turn(at).Calls?
    ensures ParksAt(turn(at).asks, i, LoopEnds(budget, turn, it, searches, toolCalls, failures).id)
    decreases budget.maxIterations - it
  {
    var end := TurnEnds(budget, turn(it).asks, searches, toolCalls, failures);
    if end.Goes? {
      at, i := LoopParksAt(budget, turn, it + 1, end.searches, end.toolCalls, end.failures);
    } else {
      at := it;
      i := TurnParksAt(budget, turn(it).asks, searches, toolCalls, failures);
    }
  }

  /** A loop that runs out of turns had only turns that call something and neither finish nor park; a silent or failed
      turn ends it at once. */
  lemma {:induction false} LoopRunsOut(budget: Budget, turn: nat -> Turn, it: nat, searches: nat, toolCalls: nat,
                                       failures: nat, t: nat)
    requires it <= t < budget.maxIterations
    ensures LoopEnds(budget, turn, it, searches, toolCalls, failures) == IterationCap ==>
      turn(t).Calls? && turn(t).asks != [] && forall a :: a in turn(t).asks ==> !a.Finish? && !(a.Act? && a.parks)
    ensures !turn(it).Calls? || turn(it).asks == [] ==>
      LoopEnds(budget, turn, it, searches, toolCalls, failures) == Stops
    decreases budget.maxIterations - it
  {
    if LoopEnds(budget, turn, it, searches, toolCalls, failures) == IterationCap {
      var asks := turn(it).asks;
      var end := TurnEnds(budget, asks, searches, toolCalls, failures);
      NothingEnded(budget, asks, searches, toolCalls, failures);
      if t > it { LoopRunsOut(budget, turn, it + 1, end.searches, end.toolCalls, end.failures, t); }
    }
  }

  lemma {:induction false} NothingEnded(budget: Budget, asks: seq<Ask>, searches: nat, toolCalls: nat, failures: nat)
    ensures var end := TurnEnds(budget, asks, searches, toolCalls, failures);
            && end != IterationCap
            && (end.Goes? ==> end.toolCalls == toolCalls + |asks|
                              && forall a :: a in asks ==> !a.Finish? && !(a.Act? && a.parks))
    decreases |asks|
  {
    if asks != [] {
      var (made, failed, _) := if asks[0].Search? then SearchEnds(budget, asks[0].ok, searches, failures)
                               else (searches, failures, false);
      NothingEnded(budget, asks[1..], made, toolCalls + 1, failed);
      assert asks == [asks[0]] + asks[1..];
    }
  }

  /** Some turn the loop reached parks on this call. */
  ghost predicate ParkedIn(budget: Budget, turn: nat -> Turn, id: CallId) {
    exists at, i :: 0 <= at < budget.maxIterations && turn(at).Calls? && ParksAt(turn(at).asks, i, id)
  }

  /** Plain calls only: they neither finish nor park nor search. */
  predicate Plain(asks: seq<Ask>) {
    forall a :: a in asks ==> a.Act? && !a.parks
  }

  /** A turn of plain calls overruns the cap exactly when it holds more calls than are left. */
  lemma {:induction false} PlainTurnOverrunsIff(budget: Budget, asks: seq<Ask>, searches: nat, toolCalls: nat,
                                                failures: nat)
    requires Plain(asks)
    ensures TurnEnds(budget, asks, searches, toolCalls, failures) ==
      if asks != [] && toolCalls + |asks| > budget.maxToolCalls then CallCap
      else Goes(searches, toolCalls + |asks|, failures)
    decreases |asks|
  {
    if asks != [] {
      assert asks[0] in asks;
      PlainTurnOverrunsIff(budget, asks[1..], searches, toolCalls + 1, failures);
    }
  }

  /** The default budget, and one turn of forty-one plain calls: the cap is hit inside the turn. */
  lemma DefaultBudgetCanOverrun()
    ensures LoopEnds(Budget(16, 8, 40, 2), _ => Calls(seq(41, i requires 0 <= i < 41 => Act(i, false))), 0, 0, 0, 0)
            == CallCap
  {
    var asks := seq(41, i requires 0 <= i < 41 => Act(i, false));
    PlainTurnOverrunsIff(Budget(16, 8, 40, 2), asks, 0, 0, 0);
  }

  function Ids(asks: seq<Ask>): seq<CallId> {
    seq(|asks|, i requires 0 <= i < |asks| => asks[i].id)
  }

  lemma IdsSplit(asks: seq<Ask>, i: nat)
    requires i < |asks|
    ensures multiset(Ids(asks[i..])) == multiset{asks[i].id} + multiset(Ids(asks[i + 1..]))
  {
    assert Ids(asks[i..]) == [asks[i].id] + Ids(asks[i + 1..]);
  }

  /** The finish-only turn a spent budget ends with: one more prompt on the transcript of the moment. */
  function ForcedFinish(messages: seq<Message>): seq<Message> {
    messages + [User]
  }

  /** That prompt is well formed exactly when no call is open, so the iteration cap meets it, and the tool-call
      cap, which stops in the middle of a turn, does not. */
  lemma ForcedFinishIsAnsweredIff(messages: seq<Message>)
    requires Open(messages).Some?
    ensures Answered(ForcedFinish(messages)) <==> Answered(messages)
  {
  }

  /** Answering one open call leaves the others open. */
  lemma AnswerOne(messages: seq<Message>, id: CallId, rest: multiset<CallId>)
    requires Open(messages) == Some(multiset{id} + rest)
    ensures Open(messages + [Tool(id)]) == Some(rest)
  {
    Append(messages, Tool(id));
    assert (multiset{id} + rest) - multiset{id} == rest;
  }

  lemma OpenMidTurn(messages: seq<Message>, asks: seq<Ask>, i: nat)
    requires i < |asks| && Open(messages) == Some(multiset(Ids(asks[i..])))
    ensures !Answered(ForcedFinish(messages))
  {
  }

  /** The transcript is only ever added to: whatever was said before is still in it. */
  predicate Remembers(start: seq<Message>, r: Result) {
    match r
    case ParkedOn(resume) => start <= resume.messages
    case OutOfBudget(messages) => start <= messages
    case Ended => true
  }

  lemma RemembersFurther(start: seq<Message>, later: seq<Message>, r: Result)
    requires start <= later && Remembers(later, r)
    ensures Remembers(start, r)
  {
  }

  /** Give the calls after a parked one a placeholder answer each. */
  method AnswerLater(messages: seq<Message>, later: seq<Ask>, ghost pending: CallId) returns (out: seq<Message>)
    requires Open(messages) == Some(multiset{pending} + multiset(Ids(later)))
    ensures Open(out) == Some(multiset{pending}) && messages <= out
  {
    out := messages;
    assert later[0..] == later;
    for i := 0 to |later|
      invariant Open(out) == Some(multiset{pending} + multiset(Ids(later[i..]))) && messages <= out
    {
      IdsSplit(later, i);
      ghost var rest := multiset{pending} + multiset(Ids(later[i + 1..]));
      assert multiset{pending} + multiset(Ids(later[i..])) == multiset{later[i].id} + rest;
      AnswerOne(out, later[i].id, rest);
      out := out + [Tool(later[i].id)];
    }
    assert Ids(later[|later|..]) == [];
    assert multiset(Ids(later[|later|..])) == multiset{};
    assert multiset{pending} + multiset{} == multiset{pending};
  }

  /** Answer the first open call of a turn. */
  method AnswerFirst(messages: seq<Message>, asks: seq<Ask>) returns (out: seq<Message>)
    requires asks != [] && Open(messages) == Some(multiset(Ids(asks)))
    ensures Open(out) == Some(multiset(Ids(asks[1..]))) && messages <= out
  {
    IdsSplit(asks, 0);
    assert asks[0..] == asks;
    AnswerOne(messages, asks[0].id, multiset(Ids(asks[1..])));
    out := messages + [Tool(asks[0].id)];
  }

  /** Park on the first open call: the later ones get their placeholders. */
  method ParkFirst(messages: seq<Message>, asks: seq<Ask>) returns (out: seq<Message>)
    requires asks != [] && Open(messages) == Some(multiset(Ids(asks)))
    ensures Open(out) == Some(multiset{asks[0].id}) && messages <= out
  {
    IdsSplit(asks, 0);
    assert asks[0..] == asks;
    out := AnswerLater(messages, asks[1..], asks[0].id);
  }

  class Executor {
    const budget: Budget
    ghost var heads: seq<seq<Message>>
    ghost var searched: nat
    ghost var ran: nat

    constructor (budget: Budget)
      ensures this.budget == budget && Valid() && heads == [] && searched == 0 && ran == 0
    {
      this.budget := budget;
      heads, searched, ran := [], 0, 0;
    }

    /** Every transcript the loop sent to the model was fully answered, and the caps held. */
    ghost predicate Valid()
      reads this
    {
      && (forall h :: h in heads ==> Answered(h))
      && searched <= budget.maxSearches && ran <= budget.maxToolCalls
    }

    /** The counters of the loop are the counts of what really ran, carried across parks. */
    ghost predicate Counted(searches: nat, toolCalls: nat)
      reads this
    {
      searches == searched && ran <= toolCalls
    }

    ghost predicate Parked(r: Resume)
      reads this
    {
      Open(r.messages) == Some(multiset{r.pending}) && Counted(r.searches, r.toolCalls)
    }

    /** One step from its first prompt. */
    method Run(turn: nat -> Turn) returns (r: Result)
      requires Valid() && searched == 0 && ran == 0
      modifies this
      ensures Valid() && old(heads) <= heads
      ensures r.ParkedOn? ==> Parked(r.resume)
      ensures EndsAs(r, LoopEnds(budget, turn, 0, 0, 0, 0))
      ensures r.ParkedOn? ==> ParkedIn(budget, turn, r.resume.pending)
      ensures Remembers([System, User], r)
    {
      var messages := [System, User];
      assert messages[..1] == [System] && [System][..0] == [];
      r := Loop(messages, 0, 0, turn);
    }

    /** The owner released the parked action: answer its call with what it came to and go on, or park again. */
    method ResumeAt(parked: Resume, reparks: bool, turn: nat -> Turn) returns (r: Result)
      requires Valid() && Parked(parked)
      modifies this
      ensures Valid() && old(heads) <= heads
      ensures r.ParkedOn? ==> Parked(r.resume)
      ensures !reparks ==> EndsAs(r, LoopEnds(budget, turn, 0, parked.searches, parked.toolCalls, 0))
      ensures !reparks && r.ParkedOn? ==> ParkedIn(budget, turn, r.resume.pending)
      ensures reparks ==> r == ParkedOn(parked) && heads == old(heads)
      ensures !reparks ==> Remembers(parked.messages + [Tool(parked.pending)], r)
    {
      if reparks { return ParkedOn(parked); }
      Append(parked.messages, Tool(parked.pending));
      r := Loop(parked.messages + [Tool(parked.pending)], parked.searches, parked.toolCalls, turn);
    }

    /** Search when the budget allows it; say whether the breaker stops the step. */
    method TrySearch(ask: Ask, searches: nat, cb: CircuitBreaker) returns (now: nat, stop: bool)
      requires ask.Search? && cb.Valid() && cb.threshold == Threshold(budget) && Valid() && searches == searched
      modifies this`searched, cb
      ensures cb.Valid() && Valid() && now == searched
      ensures (now, LastFailures(cb.history, "web_search"), stop)
              == SearchEnds(budget, ask.ok, searches, LastFailures(old(cb.history), "web_search"))
    {
      now, stop := searches, false;
      if searches < budget.maxSearches {
        now, searched := searches + 1, searched + 1;
        cb.Record("web_search", ask.ok);
        assert cb.history[..|cb.history| - 1] == old(cb.history);
        var tripped := cb.Tripped("web_search");
        stop := !ask.ok && tripped;
      }
    }

    /** Run the first open call, an action: it parks the loop, or it is answered. */
    method RunAct(start: seq<Message>, asks: seq<Ask>, searches: nat, toolCalls: nat, ghost failures: nat)
      returns (over: Option<Result>, messages: seq<Message>)
      requires Valid() && asks != [] && asks[0].Act? && toolCalls < budget.maxToolCalls
      requires Open(start) == Some(multiset(Ids(asks))) && Counted(searches, toolCalls)
      modifies this`ran
      ensures Valid() && Counted(searches, toolCalls + 1)
      ensures var end := TurnEnds(budget, asks, searches, toolCalls, failures);
              if over.Some? then
                && over.value.ParkedOn? && Parked(over.value.resume) && asks[0].parks
                && over.value.resume.pending == asks[0].id && EndsAs(over.value, end) && Remembers(start, over.value)
              else end == TurnEnds(budget, asks[1..], searches, toolCalls + 1, failures)
                   && Open(messages) == Some(multiset(Ids(asks[1..]))) && start <= messages
    {
      over, messages := None, start;
      ran := ran + 1;
      if asks[0].parks {
        var out := ParkFirst(messages, asks);
        over := Some(ParkedOn(Resume(out, searches, toolCalls + 1, asks[0].id)));
      } else {
        messages := AnswerFirst(messages, asks);
      }
    }

    /** Run the first open call, a search: the breaker stops the step, or it is answered. */
    method RunSearch(start: seq<Message>, asks: seq<Ask>, searches0: nat, toolCalls: nat, cb: CircuitBreaker)
      returns (stop: bool, messages: seq<Message>, searches: nat)
      requires Valid() && cb.Valid() && cb.threshold == Threshold(budget)
      requires asks != [] && asks[0].Search? && toolCalls < budget.maxToolCalls
      requires Open(start) == Some(multiset(Ids(asks))) && Counted(searches0, toolCalls)
      modifies this`searched, this`ran, cb
      ensures Valid() && cb.Valid() && Counted(searches, toolCalls + 1)
      ensures Open(messages) == Some(multiset(Ids(asks[1..]))) && start <= messages
      ensures var end := TurnEnds(budget, asks, searches0, toolCalls, LastFailures(old(cb.history), "web_search"));
              end == if stop then Stops
                     else TurnEnds(budget, asks[1..], searches, toolCalls + 1, LastFailures(cb.history, "web_search"))
    {
      messages := AnswerFirst(start, asks);
      ran := ran + 1;
      searches, stop := TrySearch(asks[0], searches0, cb);
    }

    /** Run the first open call, whichever it is. */
    method RunFirst(start: seq<Message>, asks: seq<Ask>, searches0: nat, toolCalls: nat, cb: CircuitBreaker)
      returns (over: Option<Result>, messages: seq<Message>, searches: nat)
      requires Valid() && cb.Valid() && cb.threshold == Threshold(budget)
      requires asks != [] && !asks[0].Finish? && toolCalls < budget.maxToolCalls
      requires Open(start) == Some(multiset(Ids(asks))) && Counted(searches0, toolCalls)
      modifies this`searched, this`ran, cb
      ensures Valid() && cb.Valid() && Counted(searches, toolCalls + 1)
      ensures var end := TurnEnds(budget, asks, searches0, toolCalls, LastFailures(old(cb.history), "web_search"));
              if over.Some? then
                && EndsAs(over.value, end) && Remembers(start, over.value)
                && (over.value.ParkedOn? ==> Parked(over.value.resume))
              else end == TurnEnds(budget, asks[1..], searches, toolCalls + 1, LastFailures(cb.history, "web_search"))
                   && Open(messages) == Some(multiset(Ids(asks[1..]))) && start <= messages
    {
      searches := searches0;
      if asks[0].Act? {
        over, messages := RunAct(start, asks, searches, toolCalls, LastFailures(cb.history, "web_search"));
      } else {
        var stop;
        stop, messages, searches := RunSearch(start, asks, searches, toolCalls, cb);
        over := if stop then Some(Ended) else None;
      }
    }

    /** The calls of one turn, in order, until one of them ends the loop. */
    method RunTurn(start: seq<Message>, asks: seq<Ask>, searches0: nat, toolCalls0: nat, cb: CircuitBreaker)
      returns (over: Option<Result>, messages: seq<Message>, searches: nat, toolCalls: nat)
      requires Valid() && cb.Valid() && cb.threshold == Threshold(budget)
      requires Open(start) == Some(multiset(Ids(asks))) && Counted(searches0, toolCalls0)
      modifies this`searched, this`ran, cb
      ensures Valid() && cb.Valid() && Counted(searches, toolCalls)
      ensures over.None? ==> Answered(messages) && start <= messages
      ensures over.Some? ==> Remembers(start, over.value)
      ensures over.Some? && over.value.ParkedOn? ==> Parked(over.value.resume)
      ensures var end := TurnEnds(budget, asks, searches0, toolCalls0, LastFailures(old(cb.history), "web_search"));
              if over.Some? then EndsAs(over.value, end)
              else end == Goes(searches, toolCalls, LastFailures(cb.history, "web_search"))
      ensures over.Some? && over.value.ParkedOn? ==>
        exists i :: ParksAt(asks, i, over.value.resume.pending) && over.value.resume.toolCalls == toolCalls0 + i + 1
    {
      messages, searches, toolCalls, over := start, searches0, toolCalls0, None;
      ghost var end := TurnEnds(budget, asks, searches, toolCalls, LastFailures(cb.history, "web_search"));
      assert asks[0..] == asks;
      for i := 0 to |asks|
        invariant Valid() && cb.Valid() && Counted(searches, toolCalls) && over.None?
        invariant Open(messages) == Some(multiset(Ids(asks[i..]))) && start <= messages
        invariant end == TurnEnds(budget, asks[i..], searches, toolCalls, LastFailures(cb.history, "web_search"))
      {
        assert asks[i..][0] == asks[i] && asks[i..][1..] == asks[i + 1..];
        if asks[i].Finish? {
          toolCalls, over := toolCalls + 1, Some(Ended);
          return;
        }
        if toolCalls + 1 > budget.maxToolCalls {
          OpenMidTurn(messages, asks, i);
          toolCalls, over := toolCalls + 1, Some(OutOfBudget(ForcedFinish(messages)));
          return;
        }
        ghost var so := messages;
        over, messages, searches := RunFirst(messages, asks[i..], searches, toolCalls, cb);
        toolCalls := toolCalls + 1;
        if over.Some? {
          RemembersFurther(start, so, over.value);
          if over.value.ParkedOn? {
            ghost var at := TurnParksAt(budget, asks, searches0, toolCalls0,
                                        LastFailures(old(cb.history), "web_search"));
          }
          return;
        }
      }
      assert Ids(asks[|asks|..]) == [];
    }

    /** Another prompt goes to the model, every call in it answered. */
    ghost method NoteHead(messages: seq<Message>)
      requires Valid() && Answered(messages)
      modifies this`heads
      ensures Valid() && heads == old(heads) + [messages]
    {
      heads := heads + [messages];
    }

    method Loop(start: seq<Message>, searches0: nat, toolCalls0: nat, turn: nat -> Turn) returns (r: Result)
      requires Valid() && Answered(start) && Counted(searches0, toolCalls0)
      modifies this
      ensures Valid() && old(heads) <= heads
      ensures r.ParkedOn? ==> Parked(r.resume)
      ensures EndsAs(r, LoopEnds(budget, turn, 0, searches0, toolCalls0, 0))
      ensures r.ParkedOn? ==> ParkedIn(budget, turn, r.resume.pending)
      ensures Remembers(start, r)
    {
      var messages, searches: nat, toolCalls: nat := start, searches0, toolCalls0;
      var cb := new CircuitBreaker(budget.maxFailures);
      ghost var end := LoopEnds(budget, turn, 0, searches, toolCalls, 0);
      for it := 0 to budget.maxIterations
        invariant Valid() && Answered(messages) && Counted(searches, toolCalls) && old(heads) <= heads
        invariant start <= messages
        invariant fresh(cb) && cb.Valid() && cb.threshold == Threshold(budget)
        invariant end == LoopEnds(budget, turn, it, searches, toolCalls, LastFailures(cb.history, "web_search"))
      {
        NoteHead(messages);
        var said := turn(it);
        if !said.Calls? || said.asks == [] { return Ended; }
        Append(messages, Assistant(Ids(said.asks)));
        messages := messages + [Assistant(Ids(said.asks))];
        var over;
        ghost var so := messages;
        over, messages, searches, toolCalls := RunTurn(messages, said.asks, searches, toolCalls, cb);
        if over.Some? {
          RemembersFurther(start, so, over.value);
          if over.value.ParkedOn? {
            ghost var at, i := LoopParksAt(budget, turn, 0, searches0, toolCalls0, 0);
          }
          return over.value;
        }
      }
      ForcedFinishIsAnsweredIff(messages);
      return OutOfBudget(ForcedFinish(messages));
    }
  }
}
