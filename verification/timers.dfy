/** Durable one-shot timers (flowers/seams/timers.py): a table whose rows are fired or cancelled in place. */
module Timers {
  import opened Types

  datatype Kind = Reap | Reverify | AwaitCheck | AwaitReplies | MonitorPoll | Occurrence | ConnectPoll | UndoRelease

  /** `subject` is the approval a reap timer was armed for. */
  datatype Row = Row(id: nat, run: nat, wakeAt: int, kind: Kind, subject: Option<nat>, cancelled: bool, fired: bool)

  predicate Live(r: Row) {
    !r.cancelled && !r.fired
  }

  predicate DueAt(r: Row, cutoff: int) {
    Live(r) && r.wakeAt <= cutoff
  }

  predicate InPlace(rows: seq<Row>) {
    forall i :: 0 <= i < |rows| ==> rows[i].id == i
  }

  predicate Before(a: Row, b: Row) {
    a.wakeAt < b.wakeAt || (a.wakeAt == b.wakeAt && a.id < b.id)
  }

  predicate Ordered(out: seq<Row>) {
    forall i, j :: 0 <= i < j < |out| ==> Before(out[i], out[j])
  }

  // ------------------------------------------------------------------ what each operation does to the table

  function FireDue(rows: seq<Row>, cutoff: int): seq<Row> {
    seq(|rows|, i requires 0 <= i < |rows| => if DueAt(rows[i], cutoff) then rows[i].(fired := true) else rows[i])
  }

  function CancelRun(rows: seq<Row>, run: nat): seq<Row> {
    seq(|rows|, i requires 0 <= i < |rows| => if rows[i].run == run then rows[i].(cancelled := true) else rows[i])
  }

  function CancelOne(rows: seq<Row>, id: nat): seq<Row> {
    seq(|rows|, i requires 0 <= i < |rows| => if rows[i].id == id then rows[i].(cancelled := true) else rows[i])
  }

  function Insert(out: seq<Row>, r: Row): seq<Row> {
    if out == [] || Before(out[|out| - 1], r) then out + [r] else Insert(out[..|out| - 1], r) + [out[|out| - 1]]
  }

  lemma {:induction false} InsertHolds(out: seq<Row>, r: Row)
    ensures |Insert(out, r)| == |out| + 1 && forall x :: x in Insert(out, r) <==> x in out || x == r
  {
    if out != [] && !Before(out[|out| - 1], r) {
      InsertHolds(out[..|out| - 1], r);
      assert out == out[..|out| - 1] + [out[|out| - 1]];
    }
  }

  lemma {:induction false} InsertKeepsOrder(out: seq<Row>, r: Row)
    requires Ordered(out) && forall i :: 0 <= i < |out| ==> out[i].id != r.id
    ensures Ordered(Insert(out, r))
  {
    if out != [] && !Before(out[|out| - 1], r) {
      var front, last := out[..|out| - 1], out[|out| - 1];
      InsertKeepsOrder(front, r);
      InsertHolds(front, r);
      var put := Insert(front, r);
      forall k | 0 <= k < |put| ensures Before(put[k], last) {
        if put[k] != r {
          assert put[k] in front;
          var i :| 0 <= i < |front| && front[i] == put[k];
          assert Before(out[i], out[|out| - 1]);
        }
      }
    } else if out != [] {
      forall i | 0 <= i < |out| ensures Before(out[i], r) {
        assert i < |out| - 1 ==> Before(out[i], out[|out| - 1]);
      }
    }
  }

  class LocalTimers {
    var rows: seq<Row>

    constructor ()
      ensures rows == []
    {
      rows := [];
    }

    method Schedule(run: nat, wakeAt: int, kind: Kind, subject: Option<nat>) returns (id: nat)
      modifies this
      ensures id == |old(rows)| && rows == old(rows) + [Row(id, run, wakeAt, kind, subject, false, false)]
    {
      id := |rows|;
      rows := rows + [Row(id, run, wakeAt, kind, subject, false, false)];
    }

    /** Hand out the live timers that are due, each once and earliest first, and mark them fired, as one step. */
    method Due(cutoff: int) returns (out: seq<Row>)
      requires InPlace(rows)
      modifies this
      ensures rows == FireDue(old(rows), cutoff)
      ensures forall r :: r in out <==> r in old(rows) && DueAt(r, cutoff)
      ensures forall i, j :: 0 <= i < j < |out| ==>
        out[i].wakeAt < out[j].wakeAt || (out[i].wakeAt == out[j].wakeAt && out[i].id < out[j].id)
    {
      out := [];
      for i := 0 to |rows|
        invariant |rows| == |old(rows)|
        invariant forall k :: 0 <= k < |rows| ==>
          rows[k] == if k < i && DueAt(old(rows)[k], cutoff) then old(rows)[k].(fired := true) else old(rows)[k]
        invariant Ordered(out) && forall r :: r in out <==> r in old(rows)[..i] && DueAt(r, cutoff)
      {
        var r := rows[i];
        assert r == old(rows)[i];
        assert old(rows)[..i + 1] == old(rows)[..i] + [r];
        if DueAt(r, cutoff) {
          forall k | 0 <= k < |out| ensures out[k].id < i {
            assert out[k] in out;
          }
          InsertKeepsOrder(out, r);
          InsertHolds(out, r);
          out := Insert(out, r);
          rows := rows[i := r.(fired := true)];
        }
      }
      assert old(rows)[..|old(rows)|] == old(rows);
    }

    method Cancel(id: nat)
      modifies this
      ensures rows == CancelOne(old(rows), id)
    {
      rows := CancelOne(rows, id);
    }

    method CancelForRun(run: nat)
      modifies this
      ensures rows == CancelRun(old(rows), run)
    {
      for i := 0 to |rows|
        invariant |rows| == |old(rows)|
        invariant forall k :: 0 <= k < |rows| ==>
          rows[k] == if k < i && old(rows)[k].run == run then old(rows)[k].(cancelled := true) else old(rows)[k]
      {
        if rows[i].run == run {
          rows := rows[i := rows[i].(cancelled := true)];
        }
      }
    }
  }

  // ------------------------------------------------------------------ over any history of operations

  datatype Op =
    | Arm(run: nat, wakeAt: int, kind: Kind, subject: Option<nat>)
    | Poll(cutoff: int)
    | CancelTimer(id: nat)
    | CancelAll(run: nat)

  function Applied(rows: seq<Row>, op: Op): seq<Row> {
    match op
    case Arm(run, at, kind, subject) => rows + [Row(|rows|, run, at, kind, subject, false, false)]
    case Poll(cutoff) => FireDue(rows, cutoff)
    case CancelTimer(id) => CancelOne(rows, id)
    case CancelAll(run) => CancelRun(rows, run)
  }

  /** How many polls of a history hand out timer `id`. */
  function TimesHanded(rows: seq<Row>, ops: seq<Op>, id: nat): nat
    decreases |ops|
  {
    if ops == [] then 0
    else
      (if ops[0].Poll? && id < |rows| && DueAt(rows[id], ops[0].cutoff) then 1 else 0)
      + TimesHanded(Applied(rows, ops[0]), ops[1..], id)
  }

  /** A timer that fired or was cancelled is never handed out again, and any timer at most once. */
  lemma {:induction false} HandedAtMostOnce(rows: seq<Row>, ops: seq<Op>, id: nat)
    requires InPlace(rows)
    ensures TimesHanded(rows, ops, id) <= 1
    ensures id < |rows| && !Live(rows[id]) ==> TimesHanded(rows, ops, id) == 0
    decreases |ops|
  {
    if ops != [] {
      HandedAtMostOnce(Applied(rows, ops[0]), ops[1..], id);
    }
  }

  /** The operation leaves this timer's fate alone. */
  predicate Spares(op: Op, r: Row) {
    op != CancelTimer(r.id) && op != CancelAll(r.run)
  }

  /** A live timer that nobody cancels before a poll at or after its time is handed out, exactly once. */
  lemma {:induction false} HandedExactlyOnce(rows: seq<Row>, ops: seq<Op>, id: nat, k: nat)
    requires InPlace(rows) && id < |rows| && Live(rows[id])
    requires k < |ops| && ops[k].Poll? && rows[id].wakeAt <= ops[k].cutoff
    requires forall j :: 0 <= j < k ==> Spares(ops[j], rows[id])
    ensures TimesHanded(rows, ops, id) == 1
    decreases |ops|
  {
    var next := Applied(rows, ops[0]);
    HandedAtMostOnce(next, ops[1..], id);
    if !(ops[0].Poll? && DueAt(rows[id], ops[0].cutoff)) {
      assert k > 0 && next[id] == rows[id];
      HandedExactlyOnce(next, ops[1..], id, k - 1);
    }
  }
}
