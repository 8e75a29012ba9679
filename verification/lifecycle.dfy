/** Escalations, their reapers and the serve-loop tick (flowers/engine/operator.py, flowers/controlplane.py):
    no escalation is ever left without an answer or a timer that will close it. */
module Lifecycle {
  import opened Types
  import opened Mandate
  import opened Timers

  datatype Status = Driving | ParkedOnOwner | WaitingOnTime | Escalated | Closed(stopped: bool)

  /** `question` is the approval the run is parked on. */
  datatype RunState = RunState(status: Status, question: Option<nat>)

  /** Where a drive or a resume leaves the run. */
  datatype Move = GoesOn | AsksOwner | WaitsFor(kind: Kind, delay: int) | Escalates | Ends(stopped: bool, cancels: bool)
                | NoHeadroom

  datatype Wake = Wake(cancelFirst: bool, move: Move)

  const REVERIFY_DELAY := 60

  predicate IsReaperOf(r: Row, run: nat, question: Option<nat>) {
    r.kind == Reap && r.run == run && r.subject == question && question.Some?
  }

  /** An escalated run is parked on a question that is answered, or whose reaper is armed (or among `claimed`,
      the reapers a tick has taken from the table and not yet served). */
  predicate Attended(run: nat, s: RunState, answers: set<nat>, rows: seq<Row>, claimed: seq<Row>) {
    s.status == Escalated ==>
      && s.question.Some?
      && (|| s.question.value in answers
          || (exists r :: r in rows && Live(r) && IsReaperOf(r, run, s.question))
          || (exists r :: r in claimed && IsReaperOf(r, run, s.question)))
  }

  /** A question asked before `before` that still has its run escalated was there all along. */
  predicate OnlyFreshQuestions(was: map<nat, RunState>, now: map<nat, RunState>, before: nat) {
    forall k :: k in now && now[k].status == Escalated && now[k].question.Some? && now[k].question.value < before ==>
      k in was && was[k] == now[k]
  }

  /** The timers of a run that may still fire, and the reapers among them. */
  function LiveRows(rows: seq<Row>, run: nat): set<Row> {
    set r | r in rows && Live(r) && r.run == run
  }

  function LiveReapers(rows: seq<Row>, run: nat): set<Row> {
    set r | r in LiveRows(rows, run) && r.kind == Reap
  }

  /** Nothing happened to this run or to its timers. */
  predicate Same(was: map<nat, RunState>, now: map<nat, RunState>, wasRows: seq<Row>, nowRows: seq<Row>, run: nat) {
    && (run in now <==> run in was) && (run in was ==> now[run] == was[run])
    && LiveRows(nowRows, run) == LiveRows(wasRows, run)
  }

  /** No other run was touched. */
  ghost predicate OnlyTouches(was: map<nat, RunState>, now: map<nat, RunState>, wasRows: seq<Row>,
                              nowRows: seq<Row>, run: nat) {
    forall k: nat :: k != run ==> Same(was, now, wasRows, nowRows, k)
  }

  lemma ArmingTouchesOne(rows: seq<Row>, r: Row)
    ensures forall k: nat :: k != r.run ==> LiveRows(rows + [r], k) == LiveRows(rows, k)
    ensures Live(r) ==> LiveRows(rows + [r], r.run) == LiveRows(rows, r.run) + {r}
  {
  }

  lemma CancellingTouchesOne(rows: seq<Row>, run: nat)
    ensures forall k: nat :: k != run ==> LiveRows(CancelRun(rows, run), k) == LiveRows(rows, k)
    ensures LiveRows(CancelRun(rows, run), run) == {}
  {
    var later := CancelRun(rows, run);
    forall r: Row | r.run != run ensures r in later <==> r in rows {
      if r in rows {
        var i :| 0 <= i < |rows| && rows[i] == r;
        assert later[i] == r;
      }
    }
  }

  lemma TouchesTwice(was: map<nat, RunState>, wasRows: seq<Row>, mid: map<nat, RunState>, midRows: seq<Row>,
                     now: map<nat, RunState>, nowRows: seq<Row>, run: nat)
    requires OnlyTouches(was, mid, wasRows, midRows, run) && OnlyTouches(mid, now, midRows, nowRows, run)
    ensures OnlyTouches(was, now, wasRows, nowRows, run)
  {
    forall k: nat | k != run ensures Same(was, now, wasRows, nowRows, k) {
      assert Same(was, mid, wasRows, midRows, k) && Same(mid, now, midRows, nowRows, k);
    }
  }

  /** What was the same before one more step that touches another run, still is. */
  lemma StillSame(was: map<nat, RunState>, wasRows: seq<Row>, mid: map<nat, RunState>, midRows: seq<Row>,
                  now: map<nat, RunState>, nowRows: seq<Row>, run: nat)
    requires OnlyTouches(mid, now, midRows, nowRows, run)
    ensures forall k: nat :: k != run && Same(was, mid, wasRows, midRows, k) ==> Same(was, now, wasRows, nowRows, k)
  {
    forall k: nat | k != run && Same(was, mid, wasRows, midRows, k) ensures Same(was, now, wasRows, nowRows, k) {
      assert Same(mid, now, midRows, nowRows, k);
    }
  }

  /** The timers of a run that are not due yet. */
  function NotYetDue(rows: seq<Row>, cutoff: int, run: nat): set<Row> {
    set r | r in LiveRows(rows, run) && r.wakeAt > cutoff
  }

  lemma FreshAfterTouching(was: map<nat, RunState>, now: map<nat, RunState>, wasRows: seq<Row>, nowRows: seq<Row>,
                           run: nat, before: nat)
    requires OnlyTouches(was, now, wasRows, nowRows, run)
    requires run in now && now[run].question.Some? ==> now[run].question.value >= before
    ensures OnlyFreshQuestions(was, now, before)
  {
    forall k | k in now && k != run ensures k in was && was[k] == now[k] {
      assert Same(was, now, wasRows, nowRows, k);
    }
  }

  lemma FiringTakesDue(rows: seq<Row>, cutoff: int, run: nat)
    ensures LiveRows(FireDue(rows, cutoff), run) == NotYetDue(rows, cutoff, run)
  {
    var later := FireDue(rows, cutoff);
    forall r | r in LiveRows(rows, run) && r.wakeAt > cutoff ensures r in later {
      var i :| 0 <= i < |rows| && rows[i] == r;
      assert later[i] == r;
    }
  }

  /** Timers that drive a run, as opposed to observing an effect or closing an escalation. */
  predicate Drives(r: Row) {
    r.kind != Reap && r.kind != Reverify
  }

  /** The run waits for an answer that is not on record. */
  predicate Unanswered(answers: set<nat>, s: RunState) {
    s.status == Escalated && s.question.Some? && s.question.value !in answers
  }

  /** A wake that changes nothing: the run is closed, has no budget or time left, or waits for its owner. */
  predicate Stays(answers: set<nat>, s: RunState, wake: Wake) {
    s.status.Closed? || wake.move == NoHeadroom || Unanswered(answers, s)
  }

  /** The opposite: an open run with room to go on, and an answer if it waits for one. */
  predicate Moves(answers: set<nat>, s: RunState, given: bool, wake: Wake) {
    && !s.status.Closed? && wake.move != NoHeadroom
    && (s.status == Escalated ==> given || (s.question.Some? && s.question.value in answers))
  }

  /** Where a move leaves its run, and with which timers: a fresh question where it asks, a timer of its kind at its
      time where it waits, a fresh question and its reaper where it escalates, and none of the old timers where the
      wake used them up or the end drops them. */
  predicate Leads(run: nat, wake: Wake, unused: nat, clock: int, ttl: int, before: set<Row>, s: RunState,
                  rows: set<Row>)
  {
    var kept := if wake.cancelFirst then {} else before;
    match wake.move
    case GoesOn => s == RunState(Driving, None) && rows == kept
    case AsksOwner => s.status == ParkedOnOwner && s.question.Some? && s.question.value >= unused && rows == kept
    case WaitsFor(kind, delay) =>
      && s == RunState(WaitingOnTime, None)
      && exists r :: r in rows && rows == kept + {r} && Live(r) && r.run == run && r.kind == kind
                     && r.wakeAt == clock + delay
    case Escalates =>
      && s.status == Escalated && s.question.Some? && s.question.value >= unused
      && exists r :: r in rows && rows == kept + {r} && Live(r) && IsReaperOf(r, run, s.question)
                     && r.wakeAt == clock + ttl
    case Ends(stopped, cancels) => s == RunState(Closed(stopped), None) && rows == if cancels then {} else kept
    case NoHeadroom => false
  }

  lemma LeadsLater(run: nat, wake: Wake, unused: nat, later: nat, clock: int, ttl: int, before: set<Row>, s: RunState,
                   rows: set<Row>)
    requires unused <= later && Leads(run, wake, later, clock, ttl, before, s, rows)
    ensures Leads(run, wake, unused, clock, ttl, before, s, rows)
  {
  }

  /** The same move when the wake dropped the run's timers first. */
  lemma LeadsAfterDropping(run: nat, wake: Wake, unused: nat, clock: int, ttl: int, before: set<Row>, kept: set<Row>,
                           s: RunState, rows: set<Row>)
    requires Leads(run, wake.(cancelFirst := false), unused, clock, ttl, kept, s, rows)
    requires kept == if wake.cancelFirst then {} else before
    ensures Leads(run, wake, unused, clock, ttl, before, s, rows)
  {
  }

  /** A resumed run that moves is where its move leads. */
  predicate Resumed(answers: set<nat>, wakes: nat -> Wake, unused: nat, clock: int, ttl: int, was: map<nat, RunState>,
                    wasRows: seq<Row>, now: map<nat, RunState>, nowRows: seq<Row>, run: nat)
  {
    run in was && Moves(answers, was[run], false, wakes(run)) ==>
      run in now
      && Leads(run, wakes(run), unused, clock, ttl, LiveRows(wasRows, run), now[run], LiveRows(nowRows, run))
  }

  lemma OneMoreResumed(answers: set<nat>, wakes: nat -> Wake, unused: nat, later: nat, clock: int, ttl: int,
                       order: seq<nat>, i: nat, was: map<nat, RunState>, wasRows: seq<Row>,
                       mid: map<nat, RunState>, midRows: seq<Row>, now: map<nat, RunState>, nowRows: seq<Row>)
    requires i < |order| && NoRepeats(order) && unused <= later
    requires forall k :: k in order[..i] ==>
      Resumed(answers, wakes, unused, clock, ttl, was, wasRows, mid, midRows, k)
    requires Same(was, mid, wasRows, midRows, order[i])
    requires OnlyTouches(mid, now, midRows, nowRows, order[i])
    requires Resumed(answers, wakes, later, clock, ttl, mid, midRows, now, nowRows, order[i])
    ensures forall k :: k in order[..i + 1] ==>
      Resumed(answers, wakes, unused, clock, ttl, was, wasRows, now, nowRows, k)
  {
    forall k | k in order[..i + 1] ensures Resumed(answers, wakes, unused, clock, ttl, was, wasRows, now, nowRows, k) {
      var j :| 0 <= j <= i && order[j] == k;
      if j < i {
        assert order[..i][j] == k && k != order[i];
        assert k in order[..i] && Same(mid, now, midRows, nowRows, k);
        assert Resumed(answers, wakes, unused, clock, ttl, was, wasRows, mid, midRows, k);
      } else if k in was && Moves(answers, was[k], false, wakes(k)) {
        LeadsLater(k, wakes(k), unused, later, clock, ttl, LiveRows(wasRows, k), now[k], LiveRows(nowRows, k));
      }
    }
  }

  /** No send of this run is proven missing by a re-check that is due. */
  predicate NoneMissing(rows: seq<Row>, cutoff: int, missing: Row -> bool, run: nat) {
    forall r :: r in rows && DueAt(r, cutoff) && r.kind == Reverify && r.run == run ==> !missing(r)
  }

  /** A run with a due driving timer that moves is, after the tick, where its move leads. */
  predicate TickMoves(answers: set<nat>, wakes: nat -> Wake, unused: nat, clock: int, ttl: int, cutoff: int,
                      was: map<nat, RunState>, wasRows: seq<Row>, now: map<nat, RunState>, nowRows: seq<Row>, run: nat)
  {
    run in was && Moves(answers, was[run], false, wakes(run)) ==>
      run in now
      && Leads(run, wakes(run), unused, clock, ttl, NotYetDue(wasRows, cutoff, run), now[run], LiveRows(nowRows, run))
  }

  lemma MovedInOrder(answers: set<nat>, wakes: nat -> Wake, unused: nat, later: nat, clock: int, ttl: int, cutoff: int,
                     reaps: seq<Row>, run: nat, was: map<nat, RunState>, rows: seq<Row>,
                     mid: map<nat, RunState>, midRows: seq<Row>, reaped: map<nat, RunState>, reapedRows: seq<Row>,
                     now: map<nat, RunState>, nowRows: seq<Row>)
    requires unused <= later && Same(was, mid, FireDue(rows, cutoff), midRows, run)
    requires run in mid ==> ReapsLeave(answers, reaps, mid, midRows, reaped, reapedRows, run)
    requires Resumed(answers, wakes, later, clock, ttl, reaped, reapedRows, now, nowRows, run)
    ensures TickMoves(answers, wakes, unused, clock, ttl, cutoff, was, rows, now, nowRows, run)
  {
    FiringTakesDue(rows, cutoff, run);
    if run in was && Moves(answers, was[run], false, wakes(run)) {
      LeadsLater(run, wakes(run), unused, later, clock, ttl, NotYetDue(rows, cutoff, run), now[run],
                 LiveRows(nowRows, run));
    }
  }

  /** One of these reapers is for the question the run waits on unanswered. */
  predicate ReapedBy(answers: set<nat>, reaps: seq<Row>, run: nat, s: RunState) {
    Unanswered(answers, s) && exists r :: r in reaps && IsReaperOf(r, run, s.question)
  }

  /** What a list of reapers makes of a run. */
  predicate ReapsLeave(answers: set<nat>, reaps: seq<Row>, was: map<nat, RunState>, wasRows: seq<Row>,
                       now: map<nat, RunState>, nowRows: seq<Row>, run: nat)
    requires run in was
  {
    && run in now
    && if ReapedBy(answers, reaps, run, was[run]) then now[run] == RunState(Closed(true), None)
       else Same(was, now, wasRows, nowRows, run)
  }

  lemma OneMoreReaper(answers: set<nat>, reaps: seq<Row>, r: Row, was: map<nat, RunState>, wasRows: seq<Row>,
                      mid: map<nat, RunState>, midRows: seq<Row>, now: map<nat, RunState>, nowRows: seq<Row>, run: nat)
    requires run in was && run in mid && r.kind == Reap
    requires ReapsLeave(answers, reaps, was, wasRows, mid, midRows, run)
    requires r.run != run ==> Same(mid, now, midRows, nowRows, run)
    requires r.run == run ==>
      if Unanswered(answers, mid[run]) && mid[run].question == r.subject
      then run in now && now[run] == RunState(Closed(true), None)
      else now == mid && nowRows == midRows
    ensures ReapsLeave(answers, reaps + [r], was, wasRows, now, nowRows, run)
  {
    assert ReapedBy(answers, reaps + [r], run, was[run]) <==>
      || ReapedBy(answers, reaps, run, was[run])
      || (Unanswered(answers, was[run]) && IsReaperOf(r, run, was[run].question));
  }

  /** Nothing due drives this run or proves a send of it missing. */
  predicate Undisturbed(answers: set<nat>, rows: seq<Row>, cutoff: int, missing: Row -> bool, wakes: nat -> Wake,
                        run: nat, s: RunState)
  {
    forall r :: r in rows && DueAt(r, cutoff) && r.run == run ==>
      && (r.kind == Reverify ==> !missing(r))
      && (Drives(r) ==> Stays(answers, s, wakes(run)))
  }

  /** A reaper of the run's own unanswered question is due. */
  predicate ReaperDue(answers: set<nat>, rows: seq<Row>, cutoff: int, run: nat, s: RunState) {
    && Unanswered(answers, s)
    && exists r :: r in LiveReapers(rows, run) && r.subject == s.question && r.wakeAt <= cutoff
  }

  /** What a tick makes of an undisturbed run. */
  predicate TickLeaves(answers: set<nat>, was: map<nat, RunState>, wasRows: seq<Row>, now: map<nat, RunState>,
                       nowRows: seq<Row>, cutoff: int, run: nat)
    requires run in was
  {
    && run in now
    && if ReaperDue(answers, wasRows, cutoff, run, was[run]) then now[run] == RunState(Closed(true), None)
       else now[run] == was[run]
            && LiveRows(nowRows, run) == NotYetDue(wasRows, cutoff, run)
  }

  /** After the re-checks left the run alone, the reapers and the resumes leave this. */
  lemma ServedInOrder(answers: set<nat>, rows: seq<Row>, cutoff: int, reaps: seq<Row>, run: nat,
                      was: map<nat, RunState>, mid: map<nat, RunState>, midRows: seq<Row>,
                      reaped: map<nat, RunState>, reapedRows: seq<Row>, now: map<nat, RunState>, nowRows: seq<Row>)
    requires run in was && Same(was, mid, FireDue(rows, cutoff), midRows, run)
    requires forall r :: r in reaps <==> r in rows && DueAt(r, cutoff) && r.kind == Reap
    requires ReapsLeave(answers, reaps, mid, midRows, reaped, reapedRows, run)
    requires Same(reaped, now, reapedRows, nowRows, run)
    ensures TickLeaves(answers, was, rows, now, nowRows, cutoff, run)
  {
    FiringTakesDue(rows, cutoff, run);
    assert ReapedBy(answers, reaps, run, was[run]) <==> ReaperDue(answers, rows, cutoff, run, was[run]);
  }

  class Operator {
    const timers: LocalTimers
    const ttl: int
    var runs: map<nat, RunState>
    var answers: set<nat>
    var nextQuestion: nat
    var clock: int

    constructor (ttl: int)
      ensures fresh(timers) && Valid() && this.ttl == ttl
    {
      this.ttl := ttl;
      timers := new LocalTimers();
      runs, answers, nextQuestion, clock := map[], {}, 0, 0;
    }

    predicate Shape()
      reads this, timers
    {
      && InPlace(timers.rows)
      && (forall k :: k in runs && runs[k].question.Some? ==> runs[k].question.value < nextQuestion)
      && (forall r :: r in timers.rows && r.subject.Some? ==> r.subject.value < nextQuestion)
    }

    predicate Guarded(claimed: seq<Row>)
      reads this, timers
    {
      Shape() && forall k :: k in runs ==> Attended(k, runs[k], answers, timers.rows, claimed)
    }

    /** No unattended escalation. */
    predicate Valid()
      reads this, timers
    {
      Guarded([])
    }

    /** The run is where this move leads. */
    predicate MovedTo(run: nat, wake: Wake, unused: nat, before: set<Row>)
      reads this, timers
    {
      run in runs && Leads(run, wake, unused, clock, ttl, before, runs[run], LiveRows(timers.rows, run))
    }

    method Begin(run: nat)
      requires Valid() && run !in runs
      modifies this`runs
      ensures Valid() && runs == old(runs)[run := RunState(Driving, None)]
    {
      runs := runs[run := RunState(Driving, None)];
    }

    /** Reaper first, then the run: the question is never stored without its timer. */
    method Escalate(run: nat, ghost claimed: seq<Row>)
      requires Guarded(claimed)
      modifies this`runs, this`nextQuestion, timers
      ensures Guarded(claimed) && runs == old(runs)[run := RunState(Escalated, Some(old(nextQuestion)))]
      ensures nextQuestion == old(nextQuestion) + 1
      ensures OnlyTouches(old(runs), runs, old(timers.rows), timers.rows, run)
      ensures MovedTo(run, Wake(false, Escalates), old(nextQuestion), LiveRows(old(timers.rows), run))
    {
      var question := nextQuestion;
      nextQuestion := nextQuestion + 1;
      var id := timers.Schedule(run, clock + ttl, Reap, Some(question));
      ArmingTouchesOne(old(timers.rows), timers.rows[id]);
      assert timers.rows[id] in timers.rows && IsReaperOf(timers.rows[id], run, Some(question));
      runs := runs[run := RunState(Escalated, Some(question))];
    }

    /** A run that finished its plan keeps its timers (a re-check may be pending); every other end cancels them. */
    method Close(run: nat, stopped: bool, cancels: bool, ghost claimed: seq<Row>)
      requires Guarded(claimed)
      modifies this`runs, timers
      ensures Guarded(claimed) && runs == old(runs)[run := RunState(Closed(stopped), None)]
      ensures timers.rows == if cancels then CancelRun(old(timers.rows), run) else old(timers.rows)
      ensures OnlyTouches(old(runs), runs, old(timers.rows), timers.rows, run)
      ensures MovedTo(run, Wake(false, Ends(stopped, cancels)), old(nextQuestion), LiveRows(old(timers.rows), run))
    {
      CancellingTouchesOne(timers.rows, run);
      runs := runs[run := RunState(Closed(stopped), None)];
      if cancels {
        CancelOthersSafe(run, claimed);
        timers.CancelForRun(run);
      }
    }

    lemma CancelOthersSafe(run: nat, claimed: seq<Row>)
      requires run in runs && runs[run].status != Escalated
      requires forall k :: k in runs && k != run ==> Attended(k, runs[k], answers, timers.rows, claimed)
      ensures forall k :: k in runs ==> Attended(k, runs[k], answers, CancelRun(timers.rows, run), claimed)
      ensures Shape() ==>
        forall r :: r in CancelRun(timers.rows, run) && r.subject.Some? ==> r.subject.value < nextQuestion
    {
      var rows := CancelRun(timers.rows, run);
      forall k | k in runs ensures Attended(k, runs[k], answers, rows, claimed) {
        if k != run && runs[k].status == Escalated && runs[k].question.Some? {
          forall r | r in timers.rows && Live(r) && IsReaperOf(r, k, runs[k].question) ensures r in rows {
            var i :| 0 <= i < |timers.rows| && timers.rows[i] == r;
            assert rows[i] == r;
          }
        }
      }
      forall r | r in rows ensures exists x :: x in timers.rows && x.subject == r.subject {
        var i :| 0 <= i < |rows| && rows[i] == r;
        assert timers.rows[i] in timers.rows;
      }
    }

    /** The run is being driven again, with its own timers dropped when the wake consumed them. */
    method Free(run: nat, cancelFirst: bool, ghost claimed: seq<Row>)
      requires Guarded(claimed)
      modifies this`runs, timers
      ensures Guarded(claimed) && runs == old(runs)[run := RunState(Driving, None)]
      ensures OnlyTouches(old(runs), runs, old(timers.rows), timers.rows, run)
      ensures LiveRows(timers.rows, run) == if cancelFirst then {} else LiveRows(old(timers.rows), run)
    {
      CancellingTouchesOne(timers.rows, run);
      runs := runs[run := RunState(Driving, None)];
      if cancelFirst {
        CancelOthersSafe(run, claimed);
        timers.CancelForRun(run);
      }
    }

    method AskOwner(run: nat, ghost claimed: seq<Row>)
      requires Guarded(claimed)
      modifies this`runs, this`nextQuestion
      ensures OnlyTouches(old(runs), runs, timers.rows, timers.rows, run)
      ensures MovedTo(run, Wake(false, AsksOwner), old(nextQuestion), LiveRows(timers.rows, run))
      ensures Guarded(claimed) && nextQuestion == old(nextQuestion) + 1
      ensures runs == old(runs)[run := RunState(ParkedOnOwner, Some(old(nextQuestion)))]
    {
      runs := runs[run := RunState(ParkedOnOwner, Some(nextQuestion))];
      nextQuestion := nextQuestion + 1;
    }

    method WaitFor(run: nat, kind: Kind, delay: int, ghost claimed: seq<Row>)
      requires Guarded(claimed)
      modifies this`runs, timers
      ensures Guarded(claimed) && runs == old(runs)[run := RunState(WaitingOnTime, None)]
      ensures OnlyTouches(old(runs), runs, old(timers.rows), timers.rows, run)
      ensures MovedTo(run, Wake(false, WaitsFor(kind, delay)), old(nextQuestion), LiveRows(old(timers.rows), run))
    {
      ghost var was := timers.rows;
      var id := timers.Schedule(run, clock + delay, kind, None);
      ArmingTouchesOne(was, timers.rows[id]);
      assert forall r :: r in was ==> r in timers.rows;
      runs := runs[run := RunState(WaitingOnTime, None)];
    }

    /** Out of a drive, with the timers the wake left it. */
    method Leave(run: nat, move: Move, ghost claimed: seq<Row>)
      requires Guarded(claimed) && run in runs && runs[run] == RunState(Driving, None) && move != NoHeadroom
      modifies this`runs, this`nextQuestion, timers
      ensures Guarded(claimed) && nextQuestion >= old(nextQuestion) && runs.Keys == old(runs).Keys
      ensures runs[run].question.Some? ==> runs[run].question.value >= old(nextQuestion)
      ensures OnlyTouches(old(runs), runs, old(timers.rows), timers.rows, run)
      ensures MovedTo(run, Wake(false, move), old(nextQuestion), LiveRows(old(timers.rows), run))
    {
      match move {
        case GoesOn =>
        case NoHeadroom =>
        case AsksOwner => AskOwner(run, claimed);
        case WaitsFor(kind, delay) => WaitFor(run, kind, delay, claimed);
        case Escalates => Escalate(run, claimed);
        case Ends(stopped, cancels) => Close(run, stopped, cancels, claimed);
      }
    }

    /** Wherever a drive ends up. */
    method Settle(run: nat, wake: Wake, ghost claimed: seq<Row>)
      requires Guarded(claimed) && run in runs
      modifies this`runs, this`nextQuestion, timers
      ensures Guarded(claimed) && nextQuestion >= old(nextQuestion)
      ensures runs.Keys == old(runs).Keys && OnlyFreshQuestions(old(runs), runs, old(nextQuestion))
      ensures OnlyTouches(old(runs), runs, old(timers.rows), timers.rows, run)
      ensures wake.move == NoHeadroom ==> runs == old(runs) && timers.rows == old(timers.rows)
      ensures wake.move != NoHeadroom ==> MovedTo(run, wake, old(nextQuestion), LiveRows(old(timers.rows), run))
    {
      if wake.move == NoHeadroom { return; }
      Free(run, wake.cancelFirst, claimed);
      ghost var mid, midRows := runs, timers.rows;
      Leave(run, wake.move, claimed);
      TouchesTwice(old(runs), old(timers.rows), mid, midRows, runs, timers.rows, run);
      FreshAfterTouching(old(runs), runs, old(timers.rows), timers.rows, run, old(nextQuestion));
      LeadsAfterDropping(run, wake, old(nextQuestion), clock, ttl, LiveRows(old(timers.rows), run),
                         LiveRows(midRows, run), runs[run], LiveRows(timers.rows, run));
    }

    /** A resume: an escalated run moves only on a recorded or given answer; a closed one never. */
    method Resume(run: nat, given: bool, wake: Wake, ghost claimed: seq<Row>)
      requires Guarded(claimed)
      modifies this`runs, this`nextQuestion, timers
      ensures Guarded(claimed) && nextQuestion >= old(nextQuestion)
      ensures runs.Keys == old(runs).Keys && OnlyFreshQuestions(old(runs), runs, old(nextQuestion))
      ensures OnlyTouches(old(runs), runs, old(timers.rows), timers.rows, run)
      ensures !given && run in old(runs) && Stays(answers, old(runs)[run], wake) ==>
        runs == old(runs) && timers.rows == old(timers.rows)
      ensures run in old(runs) && Moves(answers, old(runs)[run], given, wake) ==>
        MovedTo(run, wake, old(nextQuestion), LiveRows(old(timers.rows), run))
    {
      if run !in runs || runs[run].status.Closed? { return; }
      if runs[run].status == Escalated {
        var recorded := runs[run].question.Some? && runs[run].question.value in answers;
        if !given && !recorded { return; }
      } else if wake.move == NoHeadroom {
        return;
      }
      Settle(run, wake, claimed);
    }

    method RecordAnswer(question: nat)
      requires Valid()
      modifies this`answers
      ensures Valid() && answers == old(answers) + {question} && runs == old(runs)
    {
      answers := answers + {question};
    }

    /** The re-check of a send: only a proven absence escalates, and never a run the owner closed. */
    method ReverifySend(run: nat, missing: bool, ghost claimed: seq<Row>)
      requires Guarded(claimed)
      modifies this`runs, this`nextQuestion, timers
      ensures Guarded(claimed) && nextQuestion >= old(nextQuestion)
      ensures runs.Keys == old(runs).Keys && OnlyFreshQuestions(old(runs), runs, old(nextQuestion))
      ensures OnlyTouches(old(runs), runs, old(timers.rows), timers.rows, run)
      ensures !missing || (run in old(runs) && old(runs)[run].status == Closed(true)) ==>
        runs == old(runs) && timers.rows == old(timers.rows)
      ensures missing && run in old(runs) && old(runs)[run].status != Closed(true) ==>
        runs[run] == RunState(Escalated, Some(old(nextQuestion)))
    {
      if run !in runs || !missing || runs[run].status == Closed(true) { return; }
      Escalate(run, claimed);
    }

    /** Close the run this reaper was armed for, if it still waits on exactly that unanswered question. A stale
        reaper changes nothing. */
    method ReapRun(run: nat, question: Option<nat>, ghost claimed: seq<Row>) returns (reaped: bool)
      requires Guarded(claimed)
      modifies this`runs, timers
      ensures Guarded(claimed)
      ensures reaped <==> run in old(runs) && old(runs)[run].status == Escalated && question.Some?
                          && old(runs)[run].question == question && question.value !in answers
      ensures !reaped ==> runs == old(runs) && timers.rows == old(timers.rows)
      ensures reaped ==> runs == old(runs)[run := RunState(Closed(true), None)]
      ensures OnlyTouches(old(runs), runs, old(timers.rows), timers.rows, run)
    {
      if run !in runs || runs[run].status != Escalated || runs[run].question.None?
         || runs[run].question != question || question.value in answers {
        return false;
      }
      Close(run, true, true, claimed);
      return true;
    }

    // ---------------------------------------------------------------- the serve loop

    /** The tick's three queues: re-checks, reapers, and one driving timer a run, a deadline before a check. */
    method Sort(due: seq<Row>) returns (reverifies: seq<Row>, reaps: seq<Row>, order: seq<nat>, chosen: map<nat, Row>)
      ensures forall r :: r in reverifies <==> r in due && r.kind == Reverify
      ensures forall r :: r in reaps <==> r in due && r.kind == Reap
      ensures NoRepeats(order) && forall k :: k in order <==> k in chosen
      ensures forall k :: k in chosen <==> exists r :: r in due && Drives(r) && r.run == k
      ensures forall k :: k in chosen ==>
        && chosen[k] in due && Drives(chosen[k]) && chosen[k].run == k
        && (chosen[k].kind == AwaitCheck ==> forall r :: r in due && Drives(r) && r.run == k ==> r.kind == AwaitCheck)
    {
      reverifies, reaps, order, chosen := [], [], [], map[];
      for i := 0 to |due|
        invariant forall r :: r in reverifies <==> r in due[..i] && r.kind == Reverify
        invariant forall r :: r in reaps <==> r in due[..i] && r.kind == Reap
        invariant NoRepeats(order) && forall k :: k in order <==> k in chosen
        invariant forall r :: r in due[..i] && Drives(r) ==> r.run in chosen
        invariant forall k :: k in chosen ==>
          && chosen[k] in due[..i] && Drives(chosen[k]) && chosen[k].run == k
          && (chosen[k].kind == AwaitCheck ==>
                forall r :: r in due[..i] && Drives(r) && r.run == k ==> r.kind == AwaitCheck)
      {
        var r := due[i];
        assert due[..i + 1] == due[..i] + [r];
        if r.kind == Reverify {
          reverifies := reverifies + [r];
        } else if r.kind == Reap {
          reaps := reaps + [r];
        } else if r.run !in chosen {
          order, chosen := order + [r.run], chosen[r.run := r];
        } else if chosen[r.run].kind == AwaitCheck && r.kind != AwaitCheck {
          chosen := chosen[r.run := r];
        }
      }
      assert due[..|due|] == due;
    }

    lemma ClaimedStaysAttended(was: seq<Row>, cutoff: int, out: seq<Row>, reaps: seq<Row>)
      requires InPlace(was) && timers.rows == FireDue(was, cutoff)
      requires forall r :: r in out <==> r in was && DueAt(r, cutoff)
      requires forall r :: r in reaps <==> r in out && r.kind == Reap
      requires forall k :: k in runs ==> Attended(k, runs[k], answers, was, [])
      requires forall k :: k in runs && runs[k].question.Some? ==> runs[k].question.value < nextQuestion
      requires forall r :: r in was && r.subject.Some? ==> r.subject.value < nextQuestion
      ensures Guarded(reaps)
    {
      var rows := timers.rows;
      forall k | k in runs ensures Attended(k, runs[k], answers, rows, reaps) {
        if runs[k].status == Escalated && runs[k].question.value !in answers {
          var r :| r in was && Live(r) && IsReaperOf(r, k, runs[k].question);
          var i :| 0 <= i < |was| && was[i] == r;
          if DueAt(r, cutoff) {
            assert r in out;
          } else {
            assert rows[i] == r;
          }
        }
      }
      forall r | r in rows ensures exists x :: x in was && x.subject == r.subject {
        var i :| 0 <= i < |rows| && rows[i] == r;
        assert was[i] in was;
      }
    }

    method ReverifyAll(reverifies: seq<Row>, missing: Row -> bool, ghost claimed: seq<Row>)
      requires Guarded(claimed)
      modifies this`runs, this`nextQuestion, timers
      ensures Guarded(claimed) && nextQuestion >= old(nextQuestion)
      ensures forall k: nat :: (forall r :: r in reverifies && r.run == k ==> !missing(r)) ==>
        Same(old(runs), runs, old(timers.rows), timers.rows, k)
    {
      for i := 0 to |reverifies|
        invariant Guarded(claimed) && nextQuestion >= old(nextQuestion)
        invariant forall k: nat :: (forall r :: r in reverifies && r.run == k ==> !missing(r)) ==>
          Same(old(runs), runs, old(timers.rows), timers.rows, k)
      {
        ghost var mid, midRows := runs, timers.rows;
        assert reverifies[i] in reverifies;
        ReverifySend(reverifies[i].run, missing(reverifies[i]), claimed);
        StillSame(old(runs), old(timers.rows), mid, midRows, runs, timers.rows, reverifies[i].run);
      }
    }

    /** No run is left escalated on the unanswered question of one of these reapers. */
    predicate Served(reaps: seq<Row>)
      reads this
    {
      forall r :: r in reaps && r.subject.Some? && r.subject.value !in answers && r.run in runs ==>
        runs[r.run] != RunState(Escalated, r.subject)
    }

    lemma ServedReaper(r: Row, rest: seq<Row>)
      requires Guarded([r] + rest) && Served([r])
      ensures Guarded(rest)
    {
    }

    method ReapAll(reaps: seq<Row>)
      requires Guarded(reaps) && forall r :: r in reaps ==> r.kind == Reap
      modifies this`runs, timers
      ensures Valid() && Served(reaps) && runs.Keys == old(runs).Keys
      ensures forall k :: k in old(runs) ==>
        ReapsLeave(answers, reaps, old(runs), old(timers.rows), runs, timers.rows, k)
    {
      assert reaps[0..] == reaps;
      for i := 0 to |reaps|
        invariant Guarded(reaps[i..]) && Served(reaps[..i]) && runs.Keys == old(runs).Keys
        invariant forall k :: k in old(runs) ==>
          ReapsLeave(answers, reaps[..i], old(runs), old(timers.rows), runs, timers.rows, k)
      {
        ghost var rest := reaps[i + 1..];
        assert reaps[i..] == [reaps[i]] + rest;
        assert reaps[..i + 1] == reaps[..i] + [reaps[i]];
        ghost var mid, midRows := runs, timers.rows;
        var _ := ReapRun(reaps[i].run, reaps[i].subject, reaps[i..]);
        forall k | k in old(runs)
          ensures ReapsLeave(answers, reaps[..i + 1], old(runs), old(timers.rows), runs, timers.rows, k)
        {
          assert ReapsLeave(answers, reaps[..i], old(runs), old(timers.rows), mid, midRows, k);
          assert k != reaps[i].run ==> Same(mid, runs, midRows, timers.rows, k);
          OneMoreReaper(answers, reaps[..i], reaps[i], old(runs), old(timers.rows), mid, midRows, runs, timers.rows, k);
        }
        ServedReaper(reaps[i], rest);
      }
      assert reaps[..|reaps|] == reaps && reaps[|reaps|..] == [];
    }

    method ResumeAll(order: seq<nat>, wakes: nat -> Wake, ghost reaps: seq<Row>)
      requires Valid() && Served(reaps) && NoRepeats(order)
      requires forall r :: r in reaps && r.subject.Some? ==> r.subject.value < nextQuestion
      modifies this`runs, this`nextQuestion, timers
      ensures Valid() && Served(reaps) && runs.Keys == old(runs).Keys
      ensures forall k :: k in old(runs) && (k in order ==> Stays(answers, old(runs)[k], wakes(k))) ==>
        Same(old(runs), runs, old(timers.rows), timers.rows, k)
      ensures forall k :: k in order ==>
        Resumed(answers, wakes, old(nextQuestion), clock, ttl, old(runs), old(timers.rows), runs, timers.rows, k)
    {
      for i := 0 to |order|
        invariant Valid() && Served(reaps) && nextQuestion >= old(nextQuestion) && runs.Keys == old(runs).Keys
        invariant forall k: nat :: k !in order[..i] ==> Same(old(runs), runs, old(timers.rows), timers.rows, k)
        invariant forall k :: k in order[..i] ==>
          Resumed(answers, wakes, old(nextQuestion), clock, ttl, old(runs), old(timers.rows), runs, timers.rows, k)
        invariant forall k :: k in old(runs) && (k in order ==> Stays(answers, old(runs)[k], wakes(k))) ==>
          Same(old(runs), runs, old(timers.rows), timers.rows, k)
      {
        ghost var mid, midRows := runs, timers.rows;
        assert order[..i + 1] == order[..i] + [order[i]] && order[i] !in order[..i];
        ghost var unused := nextQuestion;
        Resume(order[i], false, wakes(order[i]), []);
        OneMoreResumed(answers, wakes, old(nextQuestion), unused, clock, ttl, order, i, old(runs), old(timers.rows),
                       mid, midRows, runs, timers.rows);
        StillSame(old(runs), old(timers.rows), mid, midRows, runs, timers.rows, order[i]);
      }
      assert order[..|order|] == order;
    }

    /** Take what is due from the table, sorted into the tick's queues. */
    method Claim(cutoff: int)
      returns (reverifies: seq<Row>, reaps: seq<Row>, order: seq<nat>, chosen: map<nat, Row>)
      requires Valid()
      modifies timers
      ensures Guarded(reaps) && timers.rows == FireDue(old(timers.rows), cutoff)
      ensures forall r :: r in reverifies <==> r in old(timers.rows) && DueAt(r, cutoff) && r.kind == Reverify
      ensures forall r :: r in reaps <==> r in old(timers.rows) && DueAt(r, cutoff) && r.kind == Reap
      ensures NoRepeats(order) && forall k :: k in order <==> k in chosen
      ensures forall k :: k in chosen <==>
        exists r :: r in old(timers.rows) && DueAt(r, cutoff) && Drives(r) && r.run == k
      ensures forall k :: k in chosen && chosen[k].kind == AwaitCheck ==>
        forall r :: r in old(timers.rows) && DueAt(r, cutoff) && Drives(r) && r.run == k ==> r.kind == AwaitCheck
    {
      ghost var was := timers.rows;
      var due := timers.Due(cutoff);
      reverifies, reaps, order, chosen := Sort(due);
      ClaimedStaysAttended(was, cutoff, due, reaps);
    }

    /** One tick: claim what is due; re-checks, then reapers, then one resume a run. Afterwards no run is left
        escalated on an unanswered question whose reaper was due; and a run that nothing due disturbs is closed when
        a reaper of its own unanswered question is due, and otherwise stays exactly as it was. */
    method Tick(cutoff: int, missing: Row -> bool, wakes: nat -> Wake)
      returns (resumed: seq<nat>, chosen: map<nat, Row>)
      requires Valid()
      modifies this`runs, this`nextQuestion, timers
      ensures Valid()
      ensures forall r :: r in old(timers.rows) && DueAt(r, cutoff) && r.kind == Reap && r.subject.Some?
                          && r.subject.value !in answers && r.run in runs ==>
                runs[r.run] != RunState(Escalated, r.subject)
      ensures NoRepeats(resumed)
      ensures forall k :: k in resumed <==>
                exists r :: r in old(timers.rows) && DueAt(r, cutoff) && Drives(r) && r.run == k
      ensures forall k :: k in resumed ==> k in chosen
      ensures forall k :: k in resumed && chosen[k].kind == AwaitCheck ==>
        forall r :: r in old(timers.rows) && DueAt(r, cutoff) && Drives(r) && r.run == k ==> r.kind == AwaitCheck
      ensures forall k ::
        k in old(runs) && Undisturbed(answers, old(timers.rows), cutoff, missing, wakes, k, old(runs)[k]) ==>
          TickLeaves(answers, old(runs), old(timers.rows), runs, timers.rows, cutoff, k)
      ensures forall k :: k in resumed && NoneMissing(old(timers.rows), cutoff, missing, k) ==>
        TickMoves(answers, wakes, old(nextQuestion), clock, ttl, cutoff, old(runs), old(timers.rows), runs,
                  timers.rows, k)
    {
      ghost var was, before := timers.rows, runs;
      var reverifies, reaps, order, picked := Claim(cutoff);
      ReverifyAll(reverifies, missing, reaps);
      ghost var mid, midRows := runs, timers.rows;
      ReapAll(reaps);
      ghost var reaped, reapedRows, unused := runs, timers.rows, nextQuestion;
      ResumeAll(order, wakes, reaps);
      resumed, chosen := order, picked;
      forall k | k in before && Undisturbed(answers, was, cutoff, missing, wakes, k, before[k])
        ensures TickLeaves(answers, before, was, runs, timers.rows, cutoff, k)
      {
        assert forall r :: r in reverifies && r.run == k ==> !missing(r);
        assert Same(before, mid, FireDue(was, cutoff), midRows, k);
        assert k in order ==> Stays(answers, before[k], wakes(k));
        assert Same(reaped, runs, reapedRows, timers.rows, k);
        ServedInOrder(answers, was, cutoff, reaps, k, before, mid, midRows, reaped, reapedRows, runs, timers.rows);
      }
      forall k | k in order && NoneMissing(was, cutoff, missing, k)
        ensures TickMoves(answers, wakes, old(nextQuestion), clock, ttl, cutoff, before, was, runs, timers.rows, k)
      {
        assert Same(before, mid, FireDue(was, cutoff), midRows, k);
        MovedInOrder(answers, wakes, old(nextQuestion), unused, clock, ttl, cutoff, reaps, k, before, was, mid, midRows,
                     reaped, reapedRows, runs, timers.rows);
      }
    }

    // ---------------------------------------------------------------- served for any length of time

    /** What an escalated run sees while it is left alone: the owner may answer some question, and ticks come. */
    method Serve(moments: seq<Moment>, ghost run: nat)
      requires Valid() && run in runs && runs[run].status == Escalated && runs[run].question.Some?
      requires forall m :: m in moments ==> LeavesAlone(m, run)
      modifies this`runs, this`nextQuestion, this`answers, timers
      ensures Valid() && run in runs
      ensures runs[run] == if ReapedAmong(old(answers), LiveReapers(old(timers.rows), run), moments,
                                          old(runs)[run].question.value)
                           then RunState(Closed(true), None) else old(runs)[run]
    {
      ghost var armed, first, asked := LiveReapers(timers.rows, run), runs[run], answers;
      for n := 0 to |moments|
        invariant Valid() && ServedSoFar(asked, armed, first, moments[..n], answers, runs, timers.rows, run)
      {
        assert moments[n] in moments;
        ghost var mid, midRows, before := runs, timers.rows, answers;
        match moments[n] {
          case Answers(q) => RecordAnswer(q);
          case Ticks(cutoff, missing, wakes) => var _, _ := Tick(cutoff, missing, wakes);
        }
        ServedOneMore(asked, armed, first, moments, n, before, mid, midRows, answers, runs, timers.rows, run);
      }
      assert moments[..|moments|] == moments;
    }
  }

  // ------------------------------------------------------------------ when an escalation is closed

  datatype Moment = Ticks(cutoff: int, missing: Row -> bool, wakes: nat -> Wake) | Answers(question: nat)

  /** No wake moves this run (its budget or time is spent), and no re-check proves a send of it missing. */
  ghost predicate LeavesAlone(m: Moment, run: nat) {
    m.Ticks? ==> m.wakes(run).move == NoHeadroom && forall r: Row :: r.run == run ==> !m.missing(r)
  }

  ghost predicate AnsweredIn(moments: seq<Moment>, question: nat) {
    exists j :: 0 <= j < |moments| && moments[j].Answers? && moments[j].question == question
  }

  ghost predicate ReachedAt(armed: set<Row>, m: Moment, question: nat) {
    m.Ticks? && exists r :: r in armed && r.subject == Some(question) && r.wakeAt <= m.cutoff
  }

  /** Some tick reaches an armed reaper of the question before any answer to it is on record. */
  ghost predicate ReapedAmong(answered: set<nat>, armed: set<Row>, moments: seq<Moment>, question: nat) {
    question !in answered
    && exists i :: 0 <= i < |moments| && ReachedAt(armed, moments[i], question) && !AnsweredIn(moments[..i], question)
  }

  /** The armed reapers no tick has reached. */
  ghost function NotReached(armed: set<Row>, moments: seq<Moment>): set<Row> {
    set r | r in armed && forall j :: 0 <= j < |moments| && moments[j].Ticks? ==> r.wakeAt > moments[j].cutoff
  }

  /** What the moments so far made of the run. */
  ghost predicate ServedSoFar(asked: set<nat>, armed: set<Row>, first: RunState, moments: seq<Moment>,
                              answers: set<nat>, runs: map<nat, RunState>, rows: seq<Row>, run: nat)
    requires first.question.Some?
  {
    var question := first.question.value;
    && run in runs
    && (question in answers <==> question in asked || AnsweredIn(moments, question))
    && if ReapedAmong(asked, armed, moments, question) then runs[run] == RunState(Closed(true), None)
       else runs[run] == first && LiveReapers(rows, run) == NotReached(armed, moments)
  }

  lemma ServedOneMore(asked: set<nat>, armed: set<Row>, first: RunState, moments: seq<Moment>, n: nat,
                      before: set<nat>, mid: map<nat, RunState>, midRows: seq<Row>,
                      answers: set<nat>, runs: map<nat, RunState>, rows: seq<Row>, run: nat)
    requires n < |moments| && first.status == Escalated && first.question.Some?
    requires ServedSoFar(asked, armed, first, moments[..n], before, mid, midRows, run)
    requires match moments[n]
             case Answers(q) => answers == before + {q} && runs == mid && rows == midRows
             case Ticks(cutoff, _, _) => answers == before && TickLeaves(answers, mid, midRows, runs, rows, cutoff, run)
    ensures ServedSoFar(asked, armed, first, moments[..n + 1], answers, runs, rows, run)
  {
    OneMoment(armed, moments, n, first.question.value);
    ReapedByOneMore(asked, armed, moments, n, first.question.value);
  }

  /** How one more moment moves these. */
  lemma OneMoment(armed: set<Row>, moments: seq<Moment>, n: nat, question: nat)
    requires n < |moments|
    ensures AnsweredIn(moments[..n + 1], question) <==>
      AnsweredIn(moments[..n], question) || (moments[n].Answers? && moments[n].question == question)
    ensures NotReached(armed, moments[..n + 1]) ==
      if moments[n].Ticks? then set r | r in NotReached(armed, moments[..n]) && r.wakeAt > moments[n].cutoff
      else NotReached(armed, moments[..n])
  {
    var was, now := moments[..n], moments[..n + 1];
    assert now == was + [moments[n]];
    if AnsweredIn(was, question) {
      var j :| 0 <= j < n && was[j].Answers? && was[j].question == question;
      assert now[j].Answers?;
    }
    if moments[n].Answers? && moments[n].question == question { assert now[n].Answers?; }
  }

  /** A question is reaped at the first tick to reach one of its reapers, or never. */
  lemma ReapedByOneMore(answered: set<nat>, armed: set<Row>, moments: seq<Moment>, n: nat, question: nat)
    requires n < |moments|
    ensures ReapedAmong(answered, armed, moments[..n + 1], question) <==>
      || ReapedAmong(answered, armed, moments[..n], question)
      || (&& question !in answered && !AnsweredIn(moments[..n], question)
          && ReachedAt(NotReached(armed, moments[..n]), moments[n], question))
  {
    var was, now := moments[..n], moments[..n + 1];
    ReapedPrefix(answered, armed, moments, n, question);
    if ReachedAt(armed, moments[n], question) && !ReachedAt(NotReached(armed, was), moments[n], question) {
      var r :| r in armed && r.subject == Some(question) && r.wakeAt <= moments[n].cutoff;
      var j :| 0 <= j < n && was[j].Ticks? && r.wakeAt <= was[j].cutoff;
      assert ReachedAt(armed, was[j], question);
      if !AnsweredIn(was, question) { NotAnsweredBefore(was, j, question); }
    }
  }

  lemma NotAnsweredBefore(moments: seq<Moment>, j: nat, question: nat)
    requires j <= |moments| && !AnsweredIn(moments, question)
    ensures !AnsweredIn(moments[..j], question)
  {
  }

  lemma ReapedPrefix(answered: set<nat>, armed: set<Row>, moments: seq<Moment>, n: nat, question: nat)
    requires n < |moments|
    ensures ReapedAmong(answered, armed, moments[..n + 1], question) <==>
      || ReapedAmong(answered, armed, moments[..n], question)
      || (question !in answered && !AnsweredIn(moments[..n], question) && ReachedAt(armed, moments[n], question))
  {
    var was, now := moments[..n], moments[..n + 1];
    assert now[..n] == was;
    assert forall i :: 0 <= i < n ==> now[i] == was[i] && now[..i] == was[..i];
    if i :| 0 <= i < n && ReachedAt(armed, was[i], question) && !AnsweredIn(was[..i], question) {
      assert ReachedAt(armed, now[i], question) && !AnsweredIn(now[..i], question);
    }
    if ReachedAt(armed, moments[n], question) && !AnsweredIn(was, question) {
      assert ReachedAt(armed, now[n], question) && !AnsweredIn(now[..n], question);
    }
  }
}
