/** The list of recently logged connections: the Linux version, which keeps its lock, and the Windows
    version, which lets go of the lock between truncating and inserting. */
module LoggedList {
  import opened Net
  import opened Chains

  const MAX_LOGGED := 100

  datatype Logged = Logged(pid: uint32, destIp: uint32, destPort: uint16, action: RuleAction)

  function UpTo<T>(s: seq<T>, n: nat): seq<T> { if |s| <= n then s else s[..n] }

  lemma UpToMeans<T>(s: seq<T>, n: nat)
    ensures |UpTo(s, n)| == Min(|s|, n) && UpTo(s, n) <= s
  {
  }

  class LoggedConnections {
    const chain: Chain<Logged>

    ghost predicate Valid()
      reads this, chain, chain.Repr
    {
      chain.Valid()
    }

    constructor ()
      ensures Valid() && fresh(chain.Repr) && chain.items == []
    {
      chain := new Chain<Logged>();
    }

    /** Number of entries, not counting past `limit`. */
    method Count(limit: nat) returns (count: nat)
      requires Valid()
      ensures count == Min(|chain.items|, limit)
    {
      count := 0;
      var temp := chain.head;
      while temp != null && count < limit
        invariant count <= |chain.nodes| && count <= limit && temp == chain.At(count)
      {
        temp, count := temp.next, count + 1;
      }
    }

    method Length() returns (count: nat)
      requires Valid()
      ensures count == |chain.items|
    {
      count := 0;
      var temp := chain.head;
      while temp != null
        invariant count <= |chain.nodes| && temp == chain.At(count)
        decreases |chain.nodes| - count
      {
        temp, count := temp.next, count + 1;
      }
    }

    /** Walks `n` links and cuts the list there when it goes on. */
    method KeepOnly(n: nat)
      requires Valid() && n > 0
      modifies chain.Repr
      ensures Valid() && chain.Repr == old(chain.Repr) && chain.items == UpTo(old(chain.items), n)
    {
      var temp := chain.head;
      var i := 0;
      while i < n - 1 && temp != null
        invariant i <= n - 1 && i <= |chain.nodes| && temp == chain.At(i)
      {
        temp, i := temp.next, i + 1;
      }
      if temp != null && temp.next != null {
        chain.CutAfter(temp, i);
      }
    }

    method IsAlreadyLogged(x: Logged) returns (found: bool)
      requires Valid()
      ensures found == (x in chain.items)
    {
      var n, i := chain.Find((y: Logged) => y == x);
      found := n != null;
    }

    method AddLoggedConnection(x: Logged, room: bool)
      requires Valid()
      modifies chain.Repr
      ensures Valid() && fresh(chain.Repr - old(chain.Repr))
      ensures chain.items == Apply(old(chain.items), Add(x, room))
    {
      var count := Count(MAX_LOGGED);
      if count >= MAX_LOGGED {
        KeepOnly(MAX_LOGGED - 1);
      }
      if room {
        chain.PushFront(x);
      }
    }

    /** Windows, first critical section of an addition: below the limit it inserts; otherwise it cuts the
        list and reports that the lock was let go with the insertion still to come. */
    method BeginAdd(x: Logged, room: bool) returns (parked: bool)
      requires Valid()
      modifies chain.Repr
      ensures Valid() && fresh(chain.Repr - old(chain.Repr))
      ensures parked == (|old(chain.items)| >= MAX_LOGGED)
      ensures forall t: nat, waiting: map<nat, Logged> ::
                Next(State(old(chain.items), waiting), Begin(t, x, room))
                    == State(chain.items, if parked then waiting[t := x] else waiting)
    {
      var count := Length();
      parked := count >= MAX_LOGGED;
      if parked {
        KeepOnly(MAX_LOGGED - 1);
      } else if room {
        chain.PushFront(x);
      }
    }

    /** Windows, second critical section: inserts without counting again. */
    method FinishAdd(x: Logged, room: bool)
      requires Valid()
      modifies chain.Repr
      ensures Valid() && fresh(chain.Repr - old(chain.Repr))
      ensures forall t: nat, waiting: map<nat, Logged> :: t in waiting && waiting[t] == x ==>
                Next(State(old(chain.items), waiting), Finish(t, room)) == State(chain.items, waiting - {t})
    {
      if room {
        chain.PushFront(x);
      }
    }

    method Cleanup()
      requires Valid()
      modifies chain.Repr
      ensures Valid() && chain.Repr == old(chain.Repr) && chain.items == Apply(old(chain.items), Trim)
      ensures chain.items == UpTo(old(chain.items), 100)
      ensures forall w: map<nat, Logged> :: Next(State(old(chain.items), w), Action.Cleanup) == State(chain.items, w)
    {
      var count := Length();
      if count > MAX_LOGGED {
        KeepOnly(MAX_LOGGED);
      }
    }

    method ClearAll()
      requires Valid()
      modifies chain.Repr
      ensures Valid() && chain.Repr == old(chain.Repr) && chain.items == Apply(old(chain.items), Clear) == []
      ensures forall w: map<nat, Logged> :: Next(State(old(chain.items), w), ClearList) == State(chain.items, w)
    {
      chain.Clear();
    }
  }

  // ---------- Linux: every operation is one critical section ----------

  /** `room` says whether the new entry could be allocated. */
  datatype Op = Add(x: Logged, room: bool) | Trim | Clear

  /** An addition makes place before it asks for memory. */
  function Apply(list: seq<Logged>, op: Op): seq<Logged> {
    match op
    case Add(x, room) => (if room then [x] else []) + (if |list| >= MAX_LOGGED then list[..MAX_LOGGED - 1] else list)
    case Trim => UpTo(list, MAX_LOGGED)
    case Clear => []
  }

  function RunOps(ops: seq<Op>): seq<Logged> {
    if ops == [] then [] else Apply(RunOps(ops[..|ops| - 1]), ops[|ops| - 1])
  }

  /** All additions that took effect since the last clear, newest first. */
  function Additions(ops: seq<Op>): seq<Logged> {
    if ops == [] then []
    else match ops[|ops| - 1]
      case Add(x, room) => (if room then [x] else []) + Additions(ops[..|ops| - 1])
      case Trim => Additions(ops[..|ops| - 1])
      case Clear => []
  }

  /** An addition was refused memory after the last one that took effect and the last clear. */
  predicate RefusedSince(ops: seq<Op>) {
    ops != []
    && match ops[|ops| - 1]
       case Add(_, room) => !room
       case Trim => RefusedSince(ops[..|ops| - 1])
       case Clear => false
  }

  predicate OneShort(ops: seq<Op>) { |Additions(ops)| >= 100 && RefusedSince(ops) }

  /** Over any run the list is the most recent 100 additions, newest first, or the most recent 99 while an
      addition that was refused memory has taken the place of the hundredth. */
  lemma {:induction false} ListIsRecentAdditions(ops: seq<Op>)
    ensures RunOps(ops) == UpTo(Additions(ops), if OneShort(ops) then 99 else 100)
  {
    if ops != [] {
      ListIsRecentAdditions(ops[..|ops| - 1]);
    }
  }

  /** The list is exactly the most recent 100 additions if and only if fewer than 100 took effect or none
      was refused since the last one that did. */
  lemma ListIsMostRecentAdditionsIff(ops: seq<Op>)
    ensures RunOps(ops) == UpTo(Additions(ops), 100) <==> |Additions(ops)| < 100 || !RefusedSince(ops)
  {
    ListIsRecentAdditions(ops);
  }

  lemma {:induction false} AdditionsOfMany(n: nat, x: Logged)
    ensures |Additions(seq(n, _ => Add(x, true)))| == n
  {
    if n > 0 {
      var ops := seq(n, _ => Add(x, true));
      AdditionsOfMany(n - 1, x);
      assert ops[..n - 1] == seq(n - 1, _ => Add(x, true));
    }
  }

  /** After 100 additions a refused one leaves 99 entries. */
  lemma RefusedAdditionShortensList(x: Logged)
    ensures var ops := seq(MAX_LOGGED, _ => Add(x, true)) + [Add(x, false)];
            |Additions(ops)| == 100 && |RunOps(ops)| == 99
  {
    var before := seq(MAX_LOGGED, _ => Add(x, true));
    var ops := before + [Add(x, false)];
    assert ops[..|ops| - 1] == before;
    AdditionsOfMany(MAX_LOGGED, x);
    ListIsRecentAdditions(ops);
  }

  // ---------- Windows: the lock is released in the middle of an addition ----------

  /** `waiting` holds, per thread, the entry of an addition that has truncated but not yet inserted. */
  datatype State = State(list: seq<Logged>, waiting: map<nat, Logged>)

  datatype Action =
    | Begin(t: nat, x: Logged, room: bool)  // counts and, below the limit, inserts; else truncates and lets go
    | Finish(t: nat, room: bool)            // takes the lock again and inserts
    | Cleanup
    | ClearList

  const INIT := State([], map[])

  predicate Enabled(threads: nat, s: State, a: Action) {
    match a
    case Begin(t, _, _) => t < threads && t !in s.waiting
    case Finish(t, _) => t in s.waiting
    case Cleanup => true
    case ClearList => true
  }

  function Next(s: State, a: Action): State
    requires a.Finish? ==> a.t in s.waiting
  {
    match a
    case Begin(t, x, room) =>
      if |s.list| >= MAX_LOGGED then State(s.list[..MAX_LOGGED - 1], s.waiting[t := x])
      else State((if room then [x] else []) + s.list, s.waiting)
    case Finish(t, room) => State((if room then [s.waiting[t]] else []) + s.list, s.waiting - {t})
    case Cleanup => s.(list := UpTo(s.list, MAX_LOGGED))
    case ClearList => s.(list := [])
  }

  /** `s1` is reached from `s` by a schedule of `threads` threads. */
  predicate Schedule(threads: nat, s: State, actions: seq<Action>, s1: State)
    decreases |actions|
  {
    if actions == [] then s == s1
    else Enabled(threads, s, actions[0]) && Schedule(threads, Next(s, actions[0]), actions[1..], s1)
  }

  ghost predicate Bounded(threads: nat, s: State) {
    (forall t :: t in s.waiting ==> t < threads) && |s.list| + |s.waiting| <= MAX_LOGGED - 1 + threads
  }

  lemma {:induction false} AtMost(keys: set<nat>, n: nat)
    requires forall t :: t in keys ==> t < n
    ensures |keys| <= n
  {
    if n == 0 {
      assert keys == {};
    } else {
      AtMost(keys - {n - 1}, n - 1);
    }
  }

  lemma NextBounded(threads: nat, s: State, a: Action)
    requires Bounded(threads, s) && Enabled(threads, s, a)
    ensures Bounded(threads, Next(s, a))
  {
    if a.Begin? {
      var keys := s.waiting.Keys + {a.t};
      AtMost(keys, threads);
      assert |keys| == |s.waiting.Keys| + 1;
      assert s.waiting[a.t := a.x].Keys == keys;
    } else if a.Finish? {
      assert (s.waiting - {a.t}).Keys == s.waiting.Keys - {a.t};
    }
  }

  lemma {:induction false} ScheduleBounded(threads: nat, s: State, actions: seq<Action>, s1: State)
    requires Bounded(threads, s) && Schedule(threads, s, actions, s1)
    ensures Bounded(threads, s1)
    decreases |actions|
  {
    if actions != [] {
      NextBounded(threads, s, actions[0]);
      ScheduleBounded(threads, Next(s, actions[0]), actions[1..], s1);
    }
  }

  /** Whatever the interleaving of additions, cleanups and clears, the list never exceeds 99 entries
      plus one per calling thread; an addition that finds it short inserts at once. */
  lemma ListNeverExceeds(threads: nat, actions: seq<Action>, s: State)
    requires threads > 0 && Schedule(threads, INIT, actions, s)
    ensures |s.list| <= 99 + threads
  {
    ScheduleBounded(threads, INIT, actions, s);
  }

  lemma {:induction false} ScheduleSnoc(threads: nat, s: State, actions: seq<Action>, s1: State, a: Action)
    requires Schedule(threads, s, actions, s1) && Enabled(threads, s1, a)
    ensures Schedule(threads, s, actions + [a], Next(s1, a))
    decreases |actions|
  {
    if actions == [] {
      assert (actions + [a])[1..] == [];
    } else {
      ScheduleSnoc(threads, Next(s, actions[0]), actions[1..], s1, a);
      assert (actions + [a])[1..] == actions[1..] + [a];
    }
  }

  lemma {:induction false} Fill(threads: nat, n: nat, x: Logged) returns (actions: seq<Action>, s: State)
    requires threads > 0 && n <= MAX_LOGGED
    ensures Schedule(threads, INIT, actions, s) && |s.list| == n && s.waiting == map[]
  {
    if n == 0 {
      actions, s := [], INIT;
    } else {
      var before, s0 := Fill(threads, n - 1, x);
      ScheduleSnoc(threads, INIT, before, s0, Begin(0, x, true));
      actions, s := before + [Begin(0, x, true)], Next(s0, Begin(0, x, true));
    }
  }

  function FirstThreads(k: nat): (r: set<nat>)
    ensures forall t: nat :: t in r <==> t < k
  {
    if k == 0 then {} else FirstThreads(k - 1) + {k - 1}
  }

  /** Threads 0 to k - 1 have each found a full list, cut it and are waiting to insert. */
  lemma {:induction false} Park(threads: nat, k: nat, x: Logged) returns (actions: seq<Action>, s: State)
    requires 0 < k <= threads
    ensures Schedule(threads, INIT, actions, s) && |s.list| == MAX_LOGGED - 1
    ensures s.waiting.Keys == FirstThreads(k)
  {
    var before, s0;
    if k == 1 {
      before, s0 := Fill(threads, MAX_LOGGED, x);
    } else {
      before, s0 := Park(threads, k - 1, x);
      ScheduleSnoc(threads, INIT, before, s0, Begin(k - 1, x, true));
      before, s0 := before + [Begin(k - 1, x, true)], Next(s0, Begin(k - 1, x, true));
    }
    ScheduleSnoc(threads, INIT, before, s0, Begin(k - 1, x, true));
    actions, s := before + [Begin(k - 1, x, true)], Next(s0, Begin(k - 1, x, true));
  }

  /** Of k parked threads all but the first j have inserted. */
  lemma {:induction false} Unpark(threads: nat, k: nat, j: nat, x: Logged) returns (actions: seq<Action>, s: State)
    requires 0 < k <= threads && j <= k
    ensures Schedule(threads, INIT, actions, s) && |s.list| == MAX_LOGGED - 1 + k - j
    ensures s.waiting.Keys == FirstThreads(j)
    decreases k - j
  {
    if j == k {
      actions, s := Park(threads, k, x);
    } else {
      var before, s0 := Unpark(threads, k, j + 1, x);
      ScheduleSnoc(threads, INIT, before, s0, Finish(j, true));
      actions, s := before + [Finish(j, true)], Next(s0, Finish(j, true));
    }
  }

  /** The bound is reached: some schedule leaves 99 entries plus one per thread. */
  lemma BoundIsReached(threads: nat, x: Logged) returns (actions: seq<Action>, s: State)
    requires threads > 0
    ensures Schedule(threads, INIT, actions, s) && |s.list| == 99 + threads
  {
    actions, s := Unpark(threads, threads, 0, x);
  }

  const NUM_PACKET_THREADS: nat := 4

  /** With the four packet threads the longest list has exactly 103 entries. */
  lemma FourThreadsReach103(x: Logged)
    ensures forall actions, s :: Schedule(NUM_PACKET_THREADS, INIT, actions, s) ==> |s.list| <= 103
    ensures exists actions, s :: Schedule(NUM_PACKET_THREADS, INIT, actions, s) && |s.list| == 103
  {
    forall actions, s | Schedule(NUM_PACKET_THREADS, INIT, actions, s)
      ensures |s.list| <= 103
    {
      ListNeverExceeds(NUM_PACKET_THREADS, actions, s);
    }
    var actions, s := BoundIsReached(NUM_PACKET_THREADS, x);
  }
}
