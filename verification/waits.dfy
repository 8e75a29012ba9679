/** Durable waits (flowers/engine/operator.py, _park_wait to _tick_recurring and _resume_connect): every wait is
    left after boundedly many wakes, and a wake arms at most one successor. */
module Waits {
  import opened Types
  import opened Timers

  const MIN_INTERVAL := 60
  const MAX_MONITOR_POLLS := 5000
  const MAX_OCCURRENCES := 10000
  const MAX_CONNECT_POLLS := 240
  const CONNECT_POLL := 15
  const MAX_ROUNDS := 12

  datatype Fate = StillWaiting | Met | GaveUp

  // ------------------------------------------------------------------ a watch

  /** The model-written bounds of a watch: its poll budget and how many matching reads confirm it. */
  datatype WatchParams = WatchParams(maxPolls: int, confirmPolls: int, interval: int)

  datatype Watch = Watch(polls: nat, streak: nat)

  /** One wake: by the watch's own timer or from outside, what the probe said, whether the run may go on. */
  datatype WakeUp = WakeUp(timer: bool, matched: bool, headroom: bool)

  function Confirm(p: WatchParams): (c: nat)
    ensures 1 <= c <= 10
  {
    Min(Max(1, p.confirmPolls), 10)
  }

  /** As many matching reads confirm a watch as its parameters ask for, but one at least and ten at most. */
  lemma ConfirmationsClamp(p: WatchParams)
    ensures 1 <= p.confirmPolls <= 10 ==> Confirm(p) == p.confirmPolls
    ensures p.confirmPolls < 1 ==> Confirm(p) == 1
    ensures p.confirmPolls > 10 ==> Confirm(p) == 10
  {
  }

  function WatchWake(p: WatchParams, w: Watch, e: WakeUp): (Fate, Watch) {
    if e.matched then
      if w.streak + 1 >= Confirm(p) then (Met, w) else (StillWaiting, w.(streak := w.streak + 1))
    else if !e.timer then (StillWaiting, w.(streak := 0))
    else if w.polls + 1 >= Min(p.maxPolls, MAX_MONITOR_POLLS) || !e.headroom then (GaveUp, w.(streak := 0))
    else (StillWaiting, Watch(w.polls + 1, 0))
  }

  /** A successor is armed by a poll that goes on and by every match not yet confirmed. */
  predicate WatchRearms(p: WatchParams, w: Watch, e: WakeUp) {
    WatchWake(p, w, e).0 == StillWaiting && (e.matched || e.timer)
  }

  /** The watch after a history of wakes; once left it stays left. */
  function WatchAfter(p: WatchParams, es: seq<WakeUp>): (Fate, Watch) {
    if es == [] then (StillWaiting, Watch(0, 0))
    else
      var (fate, w) := WatchAfter(p, es[..|es| - 1]);
      if fate == StillWaiting then WatchWake(p, w, es[|es| - 1]) else (fate, w)
  }

  function TimerWakes(es: seq<WakeUp>): nat {
    if es == [] then 0 else TimerWakes(es[..|es| - 1]) + if es[|es| - 1].timer then 1 else 0
  }

  /** What is left of the watch's timer budget. */
  function Remaining(p: WatchParams, w: Watch): int {
    (Max(1, Min(p.maxPolls, MAX_MONITOR_POLLS)) - w.polls) * Confirm(p) - w.streak
  }

  lemma PollSpends(p: WatchParams, w: Watch)
    ensures Remaining(p, Watch(w.polls + 1, 0)) == Remaining(p, w) + w.streak - Confirm(p)
  {
  }

  lemma RemainingIsPositive(p: WatchParams, w: Watch)
    requires w.polls < Max(1, Min(p.maxPolls, MAX_MONITOR_POLLS)) && w.streak < Confirm(p)
    ensures Remaining(p, w) >= 1
  {
  }

  lemma {:induction false} WatchSpends(p: WatchParams, es: seq<WakeUp>)
    requires WatchAfter(p, es).0 == StillWaiting
    ensures var w := WatchAfter(p, es).1;
            && w.streak < Confirm(p)
            && w.polls < Max(1, Min(p.maxPolls, MAX_MONITOR_POLLS))
            && TimerWakes(es) + Remaining(p, w)
               <= Remaining(p, Watch(0, 0)) + (Confirm(p) - 1) * (|es| - TimerWakes(es))
  {
    if es != [] {
      var n := |es| - 1;
      var e, before := es[n], WatchAfter(p, es[..n]).1;
      WatchSpends(p, es[..n]);
      PollSpends(p, before);
      var c, quiet := Confirm(p), n - TimerWakes(es[..n]);
      assert (c - 1) * (quiet + 1) == (c - 1) * quiet + (c - 1);
    }
  }

  /** A watch is left after boundedly many timer wakes: its poll budget times its confirmations, and at most
      confirmations - 1 more for every wake from outside. */
  lemma WatchIsBounded(p: WatchParams, es: seq<WakeUp>)
    requires WatchAfter(p, es).0 == StillWaiting
    ensures TimerWakes(es) < Max(1, Min(p.maxPolls, MAX_MONITOR_POLLS)) * Confirm(p)
                             + (Confirm(p) - 1) * (|es| - TimerWakes(es))
  {
    WatchSpends(p, es);
    RemainingIsPositive(p, WatchAfter(p, es).1);
    assert Remaining(p, Watch(0, 0)) == Max(1, Min(p.maxPolls, MAX_MONITOR_POLLS)) * Confirm(p);
  }

  function Trailing(es: seq<WakeUp>): nat {
    if es == [] || !es[|es| - 1].matched then 0 else 1 + Trailing(es[..|es| - 1])
  }

  /** Debounce: a watch fires exactly at the first run of `confirmPolls` matching reads in a row; a single other
      read breaks the run. */
  lemma {:induction false} FiresOnConsecutiveMatches(p: WatchParams, es: seq<WakeUp>)
    ensures WatchAfter(p, es).0 == StillWaiting ==> WatchAfter(p, es).1.streak == Trailing(es) < Confirm(p)
    ensures es != [] && WatchAfter(p, es[..|es| - 1]).0 == StillWaiting ==>
      (WatchAfter(p, es).0 == Met <==> Trailing(es) == Confirm(p))
  {
    if es != [] {
      FiresOnConsecutiveMatches(p, es[..|es| - 1]);
    }
  }

  /** The watch's own polls that found nothing. */
  function Misses(es: seq<WakeUp>): nat {
    if es == [] then 0
    else Misses(es[..|es| - 1]) + if es[|es| - 1].timer && !es[|es| - 1].matched then 1 else 0
  }

  lemma {:induction false} PollsAreMisses(p: WatchParams, es: seq<WakeUp>)
    requires WatchAfter(p, es).0 == StillWaiting
    ensures WatchAfter(p, es).1.polls == Misses(es)
  {
    if es != [] { PollsAreMisses(p, es[..|es| - 1]); }
  }

  /** A watch gives up exactly at a poll of its own that finds nothing and is the last of its budget, or finds no
      budget or time left; never on a wake from outside, and never earlier. */
  lemma GivesUpIff(p: WatchParams, es: seq<WakeUp>)
    requires es != [] && WatchAfter(p, es[..|es| - 1]).0 == StillWaiting
    ensures var e := es[|es| - 1];
            WatchAfter(p, es).0 == GaveUp <==>
              e.timer && !e.matched && (!e.headroom || Misses(es) >= Min(p.maxPolls, MAX_MONITOR_POLLS))
  {
    PollsAreMisses(p, es[..|es| - 1]);
  }

  // ------------------------------------------------------------------ a recurring step, a connect poll

  datatype Recurrence = Recurrence(maxOccurrences: Option<int>, until: Option<int>, interval: int)

  predicate RecurrenceEnds(p: Recurrence, occurrences: nat, now: int, headroom: bool) {
    || !headroom || occurrences >= MAX_OCCURRENCES
    || (p.maxOccurrences.Some? && occurrences >= p.maxOccurrences.value)
    || (p.until.Some? && now >= p.until.value)
  }

  datatype Beat = Beat(now: int, headroom: bool)

  /** Occurrences after a history of wakes, and whether the step is still going. */
  function Occurrences(p: Recurrence, beats: seq<Beat>): (bool, nat) {
    if beats == [] then (true, 0)
    else
      var (going, n) := Occurrences(p, beats[..|beats| - 1]);
      var b := beats[|beats| - 1];
      if !going then (false, n) else if RecurrenceEnds(p, n, b.now, b.headroom) then (false, n) else (true, n + 1)
  }

  /** It beats once a wake and never beyond its cap, so it is done after at most cap + 1 wakes. */
  lemma {:induction false} RecurrenceIsBounded(p: Recurrence, beats: seq<Beat>)
    ensures var (going, n) := Occurrences(p, beats);
            && n <= MAX_OCCURRENCES
            && (p.maxOccurrences.Some? ==> n <= Max(0, p.maxOccurrences.value))
            && (going ==> n == |beats|)
  {
    if beats != [] { RecurrenceIsBounded(p, beats[..|beats| - 1]); }
  }

  /** It is still going exactly while every wake so far came with headroom, below the caps and before the end. */
  lemma {:induction false} RecursUntil(p: Recurrence, beats: seq<Beat>)
    ensures Occurrences(p, beats).0 <==>
      forall j :: 0 <= j < |beats| ==>
        && beats[j].headroom && j < MAX_OCCURRENCES
        && (p.maxOccurrences.Some? ==> j < p.maxOccurrences.value) && (p.until.Some? ==> beats[j].now < p.until.value)
  {
    if beats != [] {
      var n := |beats| - 1;
      RecursUntil(p, beats[..n]);
      RecurrenceIsBounded(p, beats[..n]);
      assert forall j :: 0 <= j < n ==> beats[..n][j] == beats[j];
    }
  }

  datatype Probe = Probe(connected: bool, headroom: bool)

  /** One poll of a pending connection, `polls` answered "not yet" before it. */
  function ConnectStep(polls: nat, p: Probe): (Fate, nat) {
    if p.connected then (Met, polls)
    else if polls + 1 >= MAX_CONNECT_POLLS || !p.headroom then (GaveUp, polls)
    else (StillWaiting, polls + 1)
  }

  /** Polls answered "not yet" so far, and how the wait stands. */
  function ConnectAfter(ps: seq<Probe>): (Fate, nat) {
    if ps == [] then (StillWaiting, 0)
    else
      var (fate, polls) := ConnectAfter(ps[..|ps| - 1]);
      if fate != StillWaiting then (fate, polls) else ConnectStep(polls, ps[|ps| - 1])
  }

  /** A connect wait is over by its 240th wake; it is met exactly when the grant landed before any give-up. */
  lemma {:induction false} ConnectIsBounded(ps: seq<Probe>)
    ensures ConnectAfter(ps).0 == StillWaiting ==> ConnectAfter(ps).1 == |ps| < MAX_CONNECT_POLLS
    ensures ConnectAfter(ps).0 == Met <==>
      exists i :: 0 <= i < |ps| && i < MAX_CONNECT_POLLS && ps[i].connected
                  && forall j :: 0 <= j < i ==> !ps[j].connected && ps[j].headroom && j + 1 < MAX_CONNECT_POLLS
  {
    if ps != [] {
      var n := |ps| - 1;
      ConnectIsBounded(ps[..n]);
      ConnectUntil(ps[..n]);
      if ConnectAfter(ps).0 == Met && ConnectAfter(ps[..n]).0 == StillWaiting {
        assert ps[n].connected;
        forall j | 0 <= j < n ensures !ps[j].connected && ps[j].headroom && j + 1 < MAX_CONNECT_POLLS {
          assert ps[..n][j] == ps[j];
        }
      } else if ConnectAfter(ps[..n]).0 == Met {
        var i :| 0 <= i < n && i < MAX_CONNECT_POLLS && ps[..n][i].connected
                 && forall j :: 0 <= j < i ==>
                      !ps[..n][j].connected && ps[..n][j].headroom && j + 1 < MAX_CONNECT_POLLS;
        assert ps[i].connected;
        forall j | 0 <= j < i ensures !ps[j].connected && ps[j].headroom && j + 1 < MAX_CONNECT_POLLS {
          assert ps[..n][j] == ps[j];
        }
      }
      if i :| 0 <= i < |ps| && i < MAX_CONNECT_POLLS && ps[i].connected
              && forall j :: 0 <= j < i ==> !ps[j].connected && ps[j].headroom && j + 1 < MAX_CONNECT_POLLS {
        if i < n {
          assert ps[..n][i] == ps[i];
          forall j | 0 <= j < i ensures !ps[..n][j].connected && ps[..n][j].headroom && j + 1 < MAX_CONNECT_POLLS {
            assert ps[..n][j] == ps[j];
          }
        } else {
          forall j | 0 <= j < n ensures !ps[..n][j].connected && ps[..n][j].headroom && j + 1 < MAX_CONNECT_POLLS {
            assert ps[..n][j] == ps[j];
          }
        }
      }
    }
  }

  /** Still waiting exactly while every poll said not yet, with headroom, below the cap. */
  lemma {:induction false} ConnectUntil(ps: seq<Probe>)
    ensures ConnectAfter(ps).0 == StillWaiting <==>
      forall j :: 0 <= j < |ps| ==> !ps[j].connected && ps[j].headroom && j + 1 < MAX_CONNECT_POLLS
    ensures ConnectAfter(ps).0 == StillWaiting ==> ConnectAfter(ps).1 == |ps|
  {
    if ps != [] {
      var n := |ps| - 1;
      ConnectUntil(ps[..n]);
      if ConnectAfter(ps).0 == StillWaiting {
        forall j | 0 <= j < |ps| ensures !ps[j].connected && ps[j].headroom && j + 1 < MAX_CONNECT_POLLS {
          if j < n { assert ps[..n][j] == ps[j]; }
        }
      }
      if forall j :: 0 <= j < |ps| ==> !ps[j].connected && ps[j].headroom && j + 1 < MAX_CONNECT_POLLS {
        forall j | 0 <= j < n ensures !ps[..n][j].connected && ps[..n][j].headroom && j + 1 < MAX_CONNECT_POLLS {
          assert ps[..n][j] == ps[j];
        }
      }
    }
  }

  // ------------------------------------------------------------------ waiting for replies

  /** When the next interim check is due, if one still fits before the deadline. */
  function NextCheck(now: int, check: int, deadline: int): Option<int> {
    if now + check < deadline then Some(now + check) else None
  }

  /** The interim checks of one window, by the time each was served: the first armed at the start, each next one
      armed by the one before, and only while it falls inside the window. */
  predicate CheckChain(start: int, window: int, check: int, times: seq<int>) {
    forall i :: 0 <= i < |times| ==> Served(start, window, check, times, i)
  }

  predicate Served(start: int, window: int, check: int, times: seq<int>, i: nat)
    requires i < |times|
  {
    var due := NextCheck(if i == 0 then start else times[i - 1], check, start + window);
    due.Some? && times[i] >= due.value
  }

  lemma ChainPrefix(start: int, window: int, check: int, times: seq<int>)
    requires CheckChain(start, window, check, times) && times != []
    ensures CheckChain(start, window, check, times[..|times| - 1])
  {
    var front := times[..|times| - 1];
    forall i | 0 <= i < |front| ensures Served(start, window, check, front, i) {
      assert Served(start, window, check, times, i);
    }
  }

  lemma {:induction false} ChecksAdvance(start: int, window: int, check: int, times: seq<int>)
    requires CheckChain(start, window, check, times) && times != []
    ensures times[|times| - 1] >= start + |times| * check
  {
    var n := |times| - 1;
    assert Served(start, window, check, times, n);
    if n > 0 {
      ChainPrefix(start, window, check, times);
      ChecksAdvance(start, window, check, times[..n]);
      assert (n + 1) * check == n * check + check;
    }
  }

  /** Fewer than window / check interim checks are served in a window, whatever the clock does between them. */
  lemma ChecksAreBounded(start: int, window: int, check: int, times: seq<int>)
    requires check >= MIN_INTERVAL && window >= MIN_INTERVAL && CheckChain(start, window, check, times)
    ensures |times| * check < window && |times| * MIN_INTERVAL < window
  {
    if times != [] {
      var n := |times| - 1;
      assert Served(start, window, check, times, n);
      if n > 0 {
        ChainPrefix(start, window, check, times);
        ChecksAdvance(start, window, check, times[..n]);
      }
      assert (n + 1) * check == n * check + check;
    }
    assert |times| * MIN_INTERVAL <= |times| * check;
  }

  /** Served on time, the checks fill the window: one every `check`, as long as it falls inside. */
  lemma {:induction false} PunctualChecksFill(start: int, window: int, check: int, n: nat)
    requires check > 0 && n * check < window
    ensures CheckChain(start, window, check, seq(n, i requires 0 <= i < n => start + (i + 1) * check))
  {
    var times := seq(n, i requires 0 <= i < n => start + (i + 1) * check);
    forall i | 0 <= i < n ensures Served(start, window, check, times, i) {
      assert (i + 1) * check == i * check + check;
      assert (i + 1) * check <= n * check by { Scales(i + 1, n, check); }
    }
  }

  lemma {:induction false} Scales(a: nat, b: nat, c: int)
    requires a <= b && c > 0
    ensures a * c <= b * c
    decreases b
  {
    if a < b {
      Scales(a, b - 1, c);
      assert b * c == (b - 1) * c + c;
    }
  }

  datatype Deadline = Deadline(headroom: bool, newSteps: bool)

  /** One expired window: is another opened, and how many rounds were tried. */
  function RoundStep(rounds: nat, d: Deadline): (bool, nat) {
    if d.headroom && rounds < MAX_ROUNDS then (d.newSteps, rounds + 1) else (false, rounds)
  }

  /** Rounds of outreach after a history of expired windows, and whether another window is open. */
  function RoundsAfter(ds: seq<Deadline>): (bool, nat) {
    if ds == [] then (true, 0)
    else
      var (open, rounds) := RoundsAfter(ds[..|ds| - 1]);
      if !open then (false, rounds) else RoundStep(rounds, ds[|ds| - 1])
  }

  /** At most twelve windows are reopened: with the thirteenth expiry the wait is over. */
  lemma {:induction false} RoundsAreBounded(ds: seq<Deadline>)
    ensures RoundsAfter(ds).1 <= MAX_ROUNDS
    ensures RoundsAfter(ds).0 ==> RoundsAfter(ds).1 == |ds|
  {
    if ds != [] { RoundsAreBounded(ds[..|ds| - 1]); }
  }

  /** Another window is open exactly when each of at most twelve expiries found headroom and new steps to take. */
  lemma {:induction false} ReopensIff(ds: seq<Deadline>)
    ensures RoundsAfter(ds).0 <==> |ds| <= MAX_ROUNDS && forall d :: d in ds ==> d.headroom && d.newSteps
  {
    if ds != [] {
      var n := |ds| - 1;
      ReopensIff(ds[..n]);
      RoundsAreBounded(ds[..n]);
      assert ds == ds[..n] + [ds[n]];
    }
  }

  // ------------------------------------------------------------------ the waiting step

  /** The parameters a waiting step carries, updated by each wake, and the run's timers. */
  class WaitingStep {
    const timers: LocalTimers
    const run: nat
    var polls: nat
    var streak: nat
    var occurrences: nat
    var connectPolls: nat
    var rounds: nat

    constructor (timers: LocalTimers, run: nat)
      ensures this.timers == timers && this.run == run
      ensures polls == 0 && streak == 0 && occurrences == 0 && connectPolls == 0 && rounds == 0
    {
      this.timers, this.run := timers, run;
      polls, streak, occurrences, connectPolls, rounds := 0, 0, 0, 0, 0;
    }

    function Armed(was: seq<Row>, wakeAt: int, kind: Kind): seq<Row> {
      was + [Row(|was|, run, wakeAt, kind, None, false, false)]
    }

    /** The interim check that still fits, if any. */
    function ArmedCheck(was: seq<Row>, next: Option<int>): seq<Row> {
      if next.Some? then Armed(was, next.value, AwaitCheck) else was
    }

    /** One wake of a watch. Leaving drops the run's timers; staying arms at most one more poll. */
    method OnMonitorWake(p: WatchParams, e: WakeUp, now: int) returns (fate: Fate)
      modifies this, timers
      ensures (fate, Watch(polls, streak)) == WatchWake(p, Watch(old(polls), old(streak)), e)
      ensures timers.rows ==
        if fate != StillWaiting then CancelRun(old(timers.rows), run)
        else if WatchRearms(p, Watch(old(polls), old(streak)), e)
        then Armed(old(timers.rows), now + Max(MIN_INTERVAL, p.interval), MonitorPoll)
        else old(timers.rows)
    {
      var interval := Max(MIN_INTERVAL, p.interval);
      if e.matched {
        if streak + 1 >= Confirm(p) {
          timers.CancelForRun(run);
          return Met;
        }
        streak := streak + 1;
        var _ := timers.Schedule(run, now + interval, MonitorPoll, None);
        return StillWaiting;
      }
      streak := 0;
      if e.timer {
        if polls + 1 >= Min(p.maxPolls, MAX_MONITOR_POLLS) || !e.headroom {
          timers.CancelForRun(run);
          return GaveUp;
        }
        polls := polls + 1;
        var _ := timers.Schedule(run, now + interval, MonitorPoll, None);
      }
      return StillWaiting;
    }

    /** One heartbeat of a recurring step. */
    method OnRecurringWake(p: Recurrence, now: int, headroom: bool) returns (going: bool)
      modifies this, timers
      ensures going == !RecurrenceEnds(p, old(occurrences), now, headroom)
      ensures occurrences == old(occurrences) + if going then 1 else 0
      ensures timers.rows == if going then Armed(old(timers.rows), now + Max(MIN_INTERVAL, p.interval), Occurrence)
                             else CancelRun(old(timers.rows), run)
    {
      if !headroom || occurrences >= MAX_OCCURRENCES
         || (p.maxOccurrences.Some? && occurrences >= p.maxOccurrences.value)
         || (p.until.Some? && now >= p.until.value) {
        timers.CancelForRun(run);
        return false;
      }
      occurrences := occurrences + 1;
      var _ := timers.Schedule(run, now + Max(MIN_INTERVAL, p.interval), Occurrence, None);
      return true;
    }

    /** One probe of a pending connection. */
    method OnConnectWake(p: Probe, now: int) returns (fate: Fate)
      modifies this, timers
      ensures (fate, connectPolls) == ConnectStep(old(connectPolls), p)
      ensures timers.rows == if fate == StillWaiting then Armed(old(timers.rows), now + CONNECT_POLL, ConnectPoll)
                             else CancelRun(old(timers.rows), run)
    {
      if p.connected {
        timers.CancelForRun(run);
        return Met;
      }
      if connectPolls + 1 >= MAX_CONNECT_POLLS || !p.headroom {
        timers.CancelForRun(run);
        return GaveUp;
      }
      connectPolls := connectPolls + 1;
      var _ := timers.Schedule(run, now + CONNECT_POLL, ConnectPoll, None);
      return StillWaiting;
    }

    /** Open a reply window: its deadline, and a first interim check when one fits inside. */
    method OpenWindow(window: int, check: int, now: int) returns (deadline: int)
      modifies timers
      ensures deadline == now + Max(MIN_INTERVAL, window)
      ensures timers.rows ==
        Armed(ArmedCheck(old(timers.rows), NextCheck(now, Max(MIN_INTERVAL, check), deadline)), deadline, AwaitReplies)
    {
      deadline := now + Max(MIN_INTERVAL, window);
      var every := Max(MIN_INTERVAL, check);
      if every < Max(MIN_INTERVAL, window) {
        var _ := timers.Schedule(run, now + every, AwaitCheck, None);
      }
      var _ := timers.Schedule(run, deadline, AwaitReplies, None);
    }

    /** One wake of a reply window: enough replies or the deadline close it, the deadline trying one more round;
        only an interim check arms the next. */
    method OnReplyWake(enough: bool, expired: Option<Deadline>, isCheck: bool, deadline: int, check: int, now: int)
      returns (fate: Fate, again: bool)
      modifies timers, this`rounds
      ensures fate == if enough then Met else if expired.Some? then GaveUp else StillWaiting
      ensures (again, rounds) ==
        if fate == GaveUp then RoundStep(old(rounds), expired.value) else (false, old(rounds))
      ensures timers.rows ==
        if fate != StillWaiting then CancelRun(old(timers.rows), run)
        else if isCheck then ArmedCheck(old(timers.rows), NextCheck(now, Max(MIN_INTERVAL, check), deadline))
        else old(timers.rows)
    {
      if enough {
        timers.CancelForRun(run);
        return Met, false;
      }
      if expired.Some? {
        timers.CancelForRun(run);
        if expired.value.headroom && rounds < MAX_ROUNDS {
          rounds := rounds + 1;
          return GaveUp, expired.value.newSteps;
        }
        return GaveUp, false;
      }
      var every := Max(MIN_INTERVAL, check);
      if isCheck && now + every < deadline {
        var _ := timers.Schedule(run, now + every, AwaitCheck, None);
      }
      return StillWaiting, false;
    }
  }
}
