/** The circular log buffer of the macOS extension. */
module RingLog {
  import opened Net

  const CAPACITY: nat := 1000
  const BATCH: nat := 100

  /** A bounded queue that forgets its oldest item when full. */
  function Pushed<T>(q: seq<T>, x: T): seq<T> {
    if |q| < CAPACITY then q + [x] else q[1..] + [x]
  }

  function Slot(head: nat, i: nat): nat { (head + i) % CAPACITY }

  lemma SlotNext(head: nat, i: nat)
    requires head < CAPACITY
    ensures Slot((head + 1) % CAPACITY, i) == Slot(head, i + 1)
  {
  }

  lemma SlotsApart(head: nat, i: nat, j: nat)
    requires head < CAPACITY && i < j < CAPACITY
    ensures Slot(head, i) != Slot(head, j)
  {
  }

  /** Queue q lies in the cells from head on, wrapping round. */
  predicate Laid<T(==)>(cells: seq<T>, head: nat, q: seq<T>) {
    && |cells| == CAPACITY && head < CAPACITY && |q| <= CAPACITY
    && forall i :: 0 <= i < |q| ==> cells[Slot(head, i)] == q[i]
  }

  lemma StoreAtTail<T>(cells: seq<T>, head: nat, q: seq<T>, x: T)
    requires Laid(cells, head, q) && |q| < CAPACITY
    ensures Laid(cells[Slot(head, |q|) := x], head, q + [x])
  {
    forall i | 0 <= i < |q|
      ensures Slot(head, i) != Slot(head, |q|)
    {
      SlotsApart(head, i, |q|);
    }
  }

  lemma DropHead<T>(cells: seq<T>, head: nat, q: seq<T>)
    requires Laid(cells, head, q) && q != []
    ensures Laid(cells, (head + 1) % CAPACITY, q[1..])
  {
    forall i | 0 <= i < |q| - 1
      ensures cells[Slot((head + 1) % CAPACITY, i)] == q[1..][i]
    {
      SlotNext(head, i);
    }
  }

  /** When full, the cell after the last entry is the oldest entry's cell. */
  lemma StoreOverOldest<T>(cells: seq<T>, head: nat, q: seq<T>, x: T)
    requires Laid(cells, head, q) && |q| == CAPACITY
    ensures Laid(cells[Slot(head, |q|) := x], (head + 1) % CAPACITY, q[1..] + [x])
  {
    DropHead(cells, head, q);
    SlotNext(head, CAPACITY - 1);
    StoreAtTail(cells, (head + 1) % CAPACITY, q[1..], x);
  }

  lemma SlotAdvance(head: nat, i: nat)
    ensures (Slot(head, i) + 1) % CAPACITY == Slot(head, i + 1)
  {
  }

  lemma FullSlot(head: nat)
    requires head < CAPACITY
    ensures Slot(head, CAPACITY) == head
  {
  }

  /** Storing at the tail and moving the tail, and the head when full, queues the new item. */
  lemma LogKeepsLaid<T>(cells: seq<T>, head: nat, q: seq<T>, x: T)
    requires Laid(cells, head, q)
    ensures var h := if |q| < CAPACITY then head else (head + 1) % CAPACITY;
            && Laid(cells[Slot(head, |q|) := x], h, Pushed(q, x))
            && (Slot(head, |q|) + 1) % CAPACITY == Slot(h, |Pushed(q, x)|)
  {
    if |q| < CAPACITY {
      StoreAtTail(cells, head, q, x);
      SlotAdvance(head, |q|);
    } else {
      StoreOverOldest(cells, head, q, x);
      FullSlot(head);
      FullSlot((head + 1) % CAPACITY);
    }
  }

  class LogBuffer<T(0)> {
    const buf: array<T>
    var head: nat
    var tail: nat
    var count: nat
    ghost var pending: seq<T>  // the abstract queue, oldest first

    ghost predicate Valid()
      reads this, buf
    {
      && buf.Length == CAPACITY && Laid(buf[..], head, pending)
      && tail == Slot(head, count) && |pending| == count
    }

    constructor ()
      ensures Valid() && fresh(buf) && pending == []
    {
      buf := new T[CAPACITY];
      head, tail, count, pending := 0, 0, 0, [];
    }

    method Log(x: T)
      requires Valid()
      modifies this, buf
      ensures Valid() && pending == Pushed(old(pending), x)
    {
      LogKeepsLaid(buf[..], head, pending, x);
      ghost var was := buf[..];
      buf[tail] := x;
      assert buf[..] == was[tail := x];
      tail := (tail + 1) % CAPACITY;
      if count < CAPACITY {
        count := count + 1;
      } else {
        head := (head + 1) % CAPACITY;
      }
      pending := Pushed(pending, x);
    }

    /** Hands over the oldest entries, at most 100. */
    method Drain() returns (batch: seq<T>)
      requires Valid()
      modifies this
      ensures Valid() && batch + pending == old(pending) && |batch| == Min(100, |old(pending)|)
    {
      batch := [];
      var batchSize := Min(BATCH, count);
      for i := 0 to batchSize
        invariant Valid() && |batch| == i && batch + pending == old(pending)
      {
        ghost var before := pending;
        var x := TakeOldest();
        assert before == [x] + pending;
        assert batch + ([x] + pending) == batch + [x] + pending;
        batch := batch + [x];
      }
    }

    /** One turn of the draining loop. */
    method TakeOldest() returns (x: T)
      requires Valid() && pending != []
      modifies this
      ensures Valid() && [x] + pending == old(pending)
    {
      assert Slot(head, 0) == head;
      DropHead(buf[..], head, pending);
      SlotNext(head, count - 1);
      x := buf[head];
      head := (head + 1) % CAPACITY;
      count := count - 1;
      pending := pending[1..];
    }
  }

  // ---------- runs ----------

  datatype Op<T> = Log(x: T) | Drain

  /** Everything logged, in order. */
  function Logged<T>(ops: seq<Op<T>>): seq<T> {
    if ops == [] then []
    else Logged(ops[..|ops| - 1]) + (match ops[|ops| - 1] case Log(x) => [x] case Drain => [])
  }

  /** The queue and everything handed over. */
  function Run<T>(ops: seq<Op<T>>): (seq<T>, seq<T>) {
    if ops == [] then ([], [])
    else
      var (q, out) := Run(ops[..|ops| - 1]);
      match ops[|ops| - 1]
      case Log(x) => (Pushed(q, x), out)
      case Drain => (q[Min(BATCH, |q|)..], out + q[..Min(BATCH, |q|)])
  }

  /** The same run told by positions in the log: where the queue starts, which entries were handed over
      and which were overwritten. */
  datatype Account = Account(next: nat, delivered: seq<nat>, lost: seq<nat>)

  function Upwards(from: nat, n: nat): seq<nat> { seq(n, i requires 0 <= i < n => from + i) }

  function Accounts<T>(ops: seq<Op<T>>): Account {
    if ops == [] then Account(0, [], [])
    else
      var before := ops[..|ops| - 1];
      var a := Accounts(before);
      var n := |Run(before).0|;
      match ops[|ops| - 1]
      case Log(x) => if n < CAPACITY then a else Account(a.next + 1, a.delivered, a.lost + [a.next])
      case Drain => Account(a.next + Min(BATCH, n), a.delivered + Upwards(a.next, Min(BATCH, n)), a.lost)
  }

  function Picked<T>(log: seq<T>, at: seq<nat>): seq<T>
    requires forall i :: 0 <= i < |at| ==> at[i] < |log|
  {
    seq(|at|, i requires 0 <= i < |at| => log[at[i]])
  }

  predicate Increasing(s: seq<nat>, bound: nat) {
    (forall i, j :: 0 <= i < j < |s| ==> s[i] < s[j]) && (forall i :: 0 <= i < |s| ==> s[i] < bound)
  }

  /** The queue is always the end of the log. */
  lemma {:induction false} QueueIsEndOfLog<T>(ops: seq<Op<T>>)
    ensures var q := Run(ops).0; var next := Accounts(ops).next; var log := Logged(ops);
            |q| <= CAPACITY && next + |q| == |log| && q == log[next..]
  {
    if ops != [] {
      QueueIsEndOfLog(ops[..|ops| - 1]);
    }
  }

  lemma InUpwards(from: nat, n: nat, k: nat)
    ensures k in Upwards(from, n) <==> from <= k < from + n
  {
    if from <= k < from + n {
      assert Upwards(from, n)[k - from] == k;
    }
  }

  /** Positions handed over and positions overwritten both increase, and together they are exactly the
      positions before the queue, each once. */
  lemma {:induction false} PositionsPartition<T>(ops: seq<Op<T>>)
    ensures var a := Accounts(ops);
            && Increasing(a.delivered, a.next) && Increasing(a.lost, a.next)
            && (forall k :: 0 <= k < a.next ==> (k in a.delivered <==> k !in a.lost))
  {
    if ops != [] {
      var before, a := ops[..|ops| - 1], Accounts(ops);
      PositionsPartition(before);
      var b, n := Accounts(before), |Run(before).0|;
      forall k | 0 <= k < a.next
        ensures k in a.delivered <==> k !in a.lost
      {
        InUpwards(b.next, Min(BATCH, n), k);
        if k >= b.next {
          assert k !in b.delivered && k !in b.lost;
        }
      }
    }
  }

  /** What was handed over is the log read at the delivered positions, in order. */
  lemma {:induction false} DeliveredIsPicked<T>(ops: seq<Op<T>>)
    ensures var log := Logged(ops);
            && (forall i :: 0 <= i < |Accounts(ops).delivered| ==> Accounts(ops).delivered[i] < |log|)
            && Run(ops).1 == Picked(log, Accounts(ops).delivered)
  {
    PositionsPartition(ops);
    QueueIsEndOfLog(ops);
    if ops != [] {
      var before := ops[..|ops| - 1];
      DeliveredIsPicked(before);
      QueueIsEndOfLog(before);
      var log, q, a := Logged(before), Run(before).0, Accounts(before);
      assert Logged(ops)[..|log|] == log;
      if ops[|ops| - 1].Drain? {
        var k := Min(BATCH, |q|);
        assert Logged(ops) == log;
        PickedAppend(log, a.delivered, a.next, k);
        assert q[..k] == log[a.next..a.next + k];
      }
    }
  }

  lemma PickedAppend<T>(log: seq<T>, at: seq<nat>, from: nat, n: nat)
    requires (forall i :: 0 <= i < |at| ==> at[i] < |log|) && from + n <= |log|
    ensures forall i :: 0 <= i < |at + Upwards(from, n)| ==> (at + Upwards(from, n))[i] < |log|
    ensures Picked(log, at + Upwards(from, n)) == Picked(log, at) + log[from..from + n]
  {
  }

  /** Over any run of logging and draining: the queue is the end of the log; what was handed over is the
      log read at increasing positions; and every earlier position was either handed over or
      overwritten, never both. */
  lemma RunAccounted<T>(ops: seq<Op<T>>)
    ensures var (q, out) := Run(ops); var a := Accounts(ops); var log := Logged(ops);
            && |q| <= 1000 && a.next + |q| == |log| && q == log[a.next..]
            && Increasing(a.delivered, a.next) && Increasing(a.lost, a.next)
            && out == Picked(log, a.delivered)
            && (forall k :: 0 <= k < a.next ==> (k in a.delivered <==> k !in a.lost))
  {
    QueueIsEndOfLog(ops);
    PositionsPartition(ops);
    DeliveredIsPicked(ops);
  }

  /** An entry is overwritten only as the oldest of a full queue, by the log call that needs its place. */
  lemma {:induction false} LostOnlyWhenFull<T>(ops: seq<Op<T>>, k: nat) returns (i: nat)
    requires k in Accounts(ops).lost
    ensures i < |ops| && ops[i].Log? && |Run(ops[..i]).0| == 1000 && Accounts(ops[..i]).next == k
  {
    var n := |ops| - 1;
    var before := ops[..n];
    QueueIsEndOfLog(before);
    if k in Accounts(before).lost {
      i := LostOnlyWhenFull(before, k);
      assert before[..i] == ops[..i];
    } else {
      i := n;
    }
  }

  /** While no entry is logged into a full queue nothing is lost: what was handed over followed by what
      is pending is the whole log. */
  lemma {:induction false} NothingLostBelowCapacity<T>(ops: seq<Op<T>>)
    requires forall i :: 0 <= i < |ops| && ops[i].Log? ==> |Run(ops[..i]).0| < 1000
    ensures Run(ops).1 + Run(ops).0 == Logged(ops)
  {
    if ops != [] {
      var n := |ops| - 1;
      var before := ops[..n];
      forall i | 0 <= i < |before| && before[i].Log?
        ensures |Run(before[..i]).0| < 1000
      {
        assert before[..i] == ops[..i];
      }
      NothingLostBelowCapacity(before);
      var (q, out) := Run(before);
      if ops[n].Drain? {
        var k := Min(BATCH, |q|);
        assert q[..k] + q[k..] == q;
        assert out + q[..k] + q[k..] == out + (q[..k] + q[k..]);
      }
    }
  }
}
