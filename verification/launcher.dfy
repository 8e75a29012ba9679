/** The demo launcher's limits (deploy/launcher/launcher.py): a sliding window of launches per address, and a
    concurrency slot per operator-funded session that survives every interleaving of the async handlers. */
module Launcher {
  import opened Types

  type Address = string

  const WINDOW := 3600

  /** A session as the slot bookkeeping sees it. */
  datatype Session = Session(address: Address, funded: bool)

  // ------------------------------------------------------------------ the sliding window

  predicate Sorted(times: seq<int>) {
    forall i, j :: 0 <= i < j < |times| ==> times[i] <= times[j]
  }

  /** Any `limit + 1` consecutive launches span at least the window. */
  predicate Spaced(times: seq<int>, limit: nat) {
    forall i :: 0 <= i < |times| - limit ==> times[i + limit] - times[i] >= WINDOW
  }

  function InWindow(times: seq<int>, start: int): set<nat> {
    set i: nat | i < |times| && start <= times[i] < start + WINDOW :: i
  }

  lemma {:induction false} RangeSize(s: set<nat>, low: nat, n: nat)
    requires forall i :: i in s ==> low <= i < low + n
    ensures |s| <= n
  {
    if n == 0 {
      assert s == {};
    } else {
      RangeSize(s - {low + n - 1}, low, n - 1);
    }
  }

  /** No half-open hour, wherever it starts, holds more launches than the limit. */
  lemma NoWindowHoldsMore(times: seq<int>, limit: nat, start: int)
    requires Sorted(times) && Spaced(times, limit)
    ensures |InWindow(times, start)| <= limit
  {
    var inside := InWindow(times, start);
    if inside != {} {
      var low := First(times, start);
      forall i | i in inside ensures low <= i < low + limit {
        assert low + limit < |times| ==> times[low + limit] - times[low] >= WINDOW;
      }
      RangeSize(inside, low, limit);
    }
  }

  lemma First(times: seq<int>, start: int) returns (low: nat)
    requires InWindow(times, start) != {}
    ensures low in InWindow(times, start) && forall i :: i in InWindow(times, start) ==> low <= i
  {
    var k :| k in InWindow(times, start);
    low := 0;
    while low !in InWindow(times, start)
      invariant low <= k && forall i :: i in InWindow(times, start) ==> low <= i
      decreases k - low
    {
      low := low + 1;
    }
  }

  // ------------------------------------------------------------------ the launcher

  function Recent(m: map<Address, seq<int>>, a: Address): seq<int> {
    if a in m then m[a] else []
  }

  /** The last `limit` launches are all under an hour old. */
  predicate HourFull(times: seq<int>, limit: nat, now: int) {
    limit <= |times| && (limit > 0 ==> times[|times| - limit] > now - WINDOW)
  }

  function ActiveOf(m: map<Address, int>, a: Address): int {
    if a in m then m[a] else 0
  }

  function Funded(m: map<nat, Session>, a: Address): set<nat> {
    set k | k in m && m[k] == Session(a, true)
  }

  /** How many operator-funded sessions of an address a table holds. */
  function FundedAt(m: map<nat, Session>, a: Address): nat {
    |Funded(m, a)|
  }

  lemma AddSession(m: map<nat, Session>, k: nat, s: Session, a: Address)
    requires k !in m
    ensures FundedAt(m[k := s], a) == FundedAt(m, a) + if s == Session(a, true) then 1 else 0
  {
    assert Funded(m[k := s], a) == if s == Session(a, true) then Funded(m, a) + {k} else Funded(m, a);
  }

  lemma DropSession(m: map<nat, Session>, k: nat, a: Address)
    requires k in m
    ensures FundedAt(m - {k}, a) == FundedAt(m, a) - if m[k] == Session(a, true) then 1 else 0
  {
    assert Funded(m - {k}, a) == if m[k] == Session(a, true) then Funded(m, a) - {k} else Funded(m, a);
  }

  /** The deque `q` is the tail of the history `times`, which respects the limit; what it forgot is over an hour
      old. */
  predicate Kept(times: seq<int>, q: seq<int>, limit: nat, clock: int) {
    && |q| <= |times| && q == times[|times| - |q|..]
    && Sorted(times) && Spaced(times, limit)
    && (forall i :: 0 <= i < |times| ==> times[i] <= clock)
    && (forall i :: 0 <= i < |times| - |q| ==> times[i] <= clock - WINDOW)
  }

  lemma KeptByLaunch(times: seq<int>, q: seq<int>, limit: nat, now: int)
    requires Kept(times, q, limit, now) && |q| < limit
    ensures Kept(times + [now], q + [now], limit, now)
  {
  }

  ghost predicate AllKept(history: map<Address, seq<int>>, launches: map<Address, seq<int>>, limit: nat, clock: int) {
    forall a :: Kept(Recent(history, a), Recent(launches, a), limit, clock)
  }

  /** Only one address moved, and it is kept at the later time: so is every other. */
  lemma OthersKept(history: map<Address, seq<int>>, launches: map<Address, seq<int>>, limit: nat, clock: int, now: int,
                   history': map<Address, seq<int>>, launches': map<Address, seq<int>>, a: Address)
    requires AllKept(history, launches, limit, clock) && clock <= now
    requires Kept(Recent(history', a), Recent(launches', a), limit, now)
    requires forall b :: b != a ==>
      Recent(history', b) == Recent(history, b) && Recent(launches', b) == Recent(launches, b)
    ensures AllKept(history', launches', limit, now)
  {
  }

  method DropOld(q: seq<int>, ghost times: seq<int>, limit: nat, ghost clock: int, now: int) returns (left: seq<int>)
    requires Kept(times, q, limit, clock) && clock <= now
    ensures Kept(times, left, limit, now)
    ensures |left| < limit <==> !HourFull(times, limit, now)
  {
    left := q;
    while left != [] && left[0] <= now - WINDOW
      invariant |left| <= |times| && left == times[|times| - |left|..]
      invariant forall i :: 0 <= i < |times| - |left| ==> times[i] <= now - WINDOW
      decreases |left|
    {
      assert left[0] == times[|times| - |left|];
      left := left[1..];
    }
    assert left != [] ==> left[0] == times[|times| - |left|];
  }

  /** Prune, then admit the launch if there is room. */
  method Admit(q: seq<int>, ghost times: seq<int>, limit: nat, ghost clock: int, now: int)
    returns (ok: bool, queue: seq<int>, ghost later: seq<int>)
    requires Kept(times, q, limit, clock) && clock <= now
    ensures Kept(later, queue, limit, now)
    ensures ok <==> !HourFull(times, limit, now)
    ensures later == if ok then times + [now] else times
  {
    queue := DropOld(q, times, limit, clock, now);
    later := times;
    ok := |queue| < limit;
    if ok {
      KeptByLaunch(times, queue, limit, now);
      queue, later := queue + [now], later + [now];
    }
  }

  class Launcher {
    const launchesPerHour: nat
    const slots: nat
    var launches: map<Address, seq<int>>
    var operatorActive: map<Address, int>
    var sessions: map<nat, Session>
    /** Creations past their slot check that are neither stored nor given up: the locals of handlers suspended at
        some await. */
    var inFlight: map<nat, Session>
    /** Creations whose handler raised between taking its slot and the guarded wait: nobody gives the slot back. */
    ghost var abandoned: map<nat, Session>
    /** Every allowed launch, by address, and the last time the clock was read. */
    ghost var history: map<Address, seq<int>>
    ghost var clock: int

    constructor (launchesPerHour: nat, slots: nat, clock: int)
      ensures Valid() && this.launchesPerHour == launchesPerHour && this.slots == slots && this.clock == clock
    {
      this.launchesPerHour, this.slots, this.clock := launchesPerHour, slots, clock;
      launches, operatorActive, sessions, inFlight := map[], map[], map[], map[];
      abandoned, history := map[], map[];
    }

    /** Slots are conserved: the count of an address is its stored plus its in-flight funded sessions, plus what
        abandoned creations keep. */
    ghost predicate SlotsKept(a: Address)
      reads this
    {
      ActiveOf(operatorActive, a) == FundedAt(sessions, a) + FundedAt(inFlight, a) + FundedAt(abandoned, a) <= slots
    }

    ghost predicate Valid()
      reads this
    {
      AllKept(history, launches, launchesPerHour, clock) && forall a :: SlotsKept(a)
    }

    /** May this address launch now? Yes exactly when fewer than the limit of its launches are under an hour old. */
    method LaunchAllowed(a: Address, now: int) returns (ok: bool)
      requires Valid() && now >= clock
      modifies this`launches, this`history, this`clock
      ensures Valid() && clock == now
      ensures ok <==> launchesPerHour > 0 && (a in old(history) ==> !HourFull(old(history)[a], launchesPerHour, now))
      ensures !ok ==> history == old(history)
      ensures ok ==> history == old(history)[a := (if a in old(history) then old(history)[a] else []) + [now]]
    {
      assert Kept(Recent(history, a), Recent(launches, a), launchesPerHour, clock);
      var queue;
      ghost var later;
      ok, queue, later := Admit(Recent(launches, a), Recent(history, a), launchesPerHour, clock, now);
      clock := now;
      launches := launches[a := queue];
      if ok {
        history := history[a := later];
      }
      OthersKept(old(history), old(launches), launchesPerHour, old(clock), now, history, launches, a);
      assert forall b :: old(SlotsKept(b)) ==> SlotsKept(b);
    }

    /** Take a slot for a keyless session, if the address has one left; the creation is then in flight. */
    method Reserve(request: nat, a: Address, funded: bool) returns (ok: bool)
      requires Valid() && request !in inFlight
      modifies this`operatorActive, this`inFlight
      ensures Valid()
      ensures ok <==> (funded ==> FundedAt(sessions, a) + FundedAt(old(inFlight), a) + FundedAt(abandoned, a) < slots)
      ensures inFlight == if ok then old(inFlight)[request := Session(a, funded)] else old(inFlight)
    {
      assert SlotsKept(a);
      if funded {
        if ActiveOf(operatorActive, a) >= slots { return false; }
        operatorActive := operatorActive[a := ActiveOf(operatorActive, a) + 1];
      }
      inFlight := inFlight[request := Session(a, funded)];
      forall b ensures SlotsKept(b) {
        assert old(SlotsKept(b));
        AddSession(old(inFlight), request, Session(a, funded), b);
      }
      return true;
    }

    /** Give a slot back; an address at zero is forgotten. */
    method Release(s: Session)
      modifies this`operatorActive
      ensures forall a :: s != Session(a, true) ==> ActiveOf(operatorActive, a) == ActiveOf(old(operatorActive), a)
      ensures s.funded ==> ActiveOf(operatorActive, s.address) == Max(ActiveOf(old(operatorActive), s.address) - 1, 0)
    {
      if !s.funded { return; }
      var n := ActiveOf(operatorActive, s.address) - 1;
      if n > 0 {
        operatorActive := operatorActive[s.address := n];
      } else {
        operatorActive := operatorActive - {s.address};
      }
    }

    /** The machine could not be created, or never became healthy. */
    method GiveUp(request: nat)
      requires Valid() && request in inFlight
      modifies this`operatorActive, this`inFlight
      ensures Valid() && inFlight == old(inFlight) - {request}
    {
      var s := inFlight[request];
      inFlight := inFlight - {request};
      Release(s);
      forall b ensures SlotsKept(b) {
        assert old(SlotsKept(b));
        DropSession(old(inFlight), request, b);
      }
    }

    /** The creation request raised, or its answer held no usable machine: the handler is gone, its slot is not. */
    method Abandon(request: nat)
      requires Valid() && request in inFlight && request !in abandoned
      modifies this`inFlight, this`abandoned
      ensures Valid() && inFlight == old(inFlight) - {request}
      ensures abandoned == old(abandoned)[request := old(inFlight)[request]]
      ensures operatorActive == old(operatorActive)
    {
      ghost var s := inFlight[request];
      inFlight := inFlight - {request};
      abandoned := abandoned[request := s];
      forall b ensures SlotsKept(b) {
        assert old(SlotsKept(b));
        DropSession(old(inFlight), request, b);
        AddSession(old(abandoned), request, s, b);
      }
    }

    /** The worker is healthy: the session moves from the handler to the table. */
    method Store(request: nat, sid: nat)
      requires Valid() && request in inFlight && sid !in sessions
      modifies this`sessions, this`inFlight
      ensures Valid() && inFlight == old(inFlight) - {request}
      ensures sessions == old(sessions)[sid := old(inFlight)[request]]
    {
      var s := inFlight[request];
      inFlight := inFlight - {request};
      sessions := sessions[sid := s];
      forall b ensures SlotsKept(b) {
        assert old(SlotsKept(b));
        DropSession(old(inFlight), request, b);
        AddSession(old(sessions), sid, s, b);
      }
    }

    /** Deleted by its visitor, found gone by the proxy, or reaped: popped and released together, once. */
    method End(sid: nat)
      requires Valid()
      modifies this`operatorActive, this`sessions
      ensures Valid() && sessions == old(sessions) - {sid}
    {
      if sid !in sessions { return; }
      var s := sessions[sid];
      sessions := sessions - {sid};
      Release(s);
      forall b ensures SlotsKept(b) {
        assert old(SlotsKept(b));
        DropSession(old(sessions), sid, b);
      }
    }

    /** The reaper's sweep: every session whose machine is gone. */
    method Sweep(gone: nat -> bool)
      requires Valid()
      modifies this`operatorActive, this`sessions
      ensures Valid() && sessions == map k | k in old(sessions) && !gone(k) :: old(sessions)[k]
    {
      var todo := sessions.Keys;
      while todo != {}
        invariant Valid() && todo <= sessions.Keys
        invariant sessions == map k | k in old(sessions) && (k in todo || !gone(k)) :: old(sessions)[k]
        decreases |todo|
      {
        var sid :| sid in todo;
        todo := todo - {sid};
        if gone(sid) { End(sid); }
      }
    }

    /** At every await of every handler: no address holds more operator-funded sessions, running or starting,
        than its slots; its count is exactly those sessions if and only if no creation of it was abandoned; and no
        half-open hour saw more launches of it than allowed. */
    lemma LimitsHold(a: Address, start: int)
      requires Valid()
      ensures FundedAt(sessions, a) + FundedAt(inFlight, a) <= slots
      ensures ActiveOf(operatorActive, a) == FundedAt(sessions, a) + FundedAt(inFlight, a)
              <==> FundedAt(abandoned, a) == 0
      ensures |InWindow(Recent(history, a), start)| <= launchesPerHour
    {
      assert Kept(Recent(history, a), Recent(launches, a), launchesPerHour, clock) && SlotsKept(a);
      NoWindowHoldsMore(Recent(history, a), launchesPerHour, start);
    }
  }
}
