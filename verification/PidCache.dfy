/** The cache from (source address, port, protocol) to process id: a 1000 ms lifetime on lookup and a
    slower 10000 ms sweep. */
module PidCache {
  import opened Net
  import opened HashTable

  const PID_CACHE_SIZE: nat := 1024
  const PID_CACHE_TTL_MS := 1000
  const PID_CACHE_SWEEP_MS := 10000

  datatype Key = Key(srcIp: bv32, srcPort: bv16, isUdp: bool)

  datatype Cached = Cached(pid: uint32, timestamp: uint64)

  type Cache = map<Key, Cached>

  function HashWord(k: Key): bv32 {
    (k.srcIp ^ ((k.srcPort as bv32) << 16) ^ (if k.isUdp then 0x8000_0000 else 0)) % 1024
  }

  function Hash(k: Key): (h: nat)
    ensures h < PID_CACHE_SIZE
  {
    HashWord(k) as nat
  }

  /** The port and the protocol only reach bits that the reduction discards: every key of one source
      address falls into the same bucket. */
  lemma HashIgnoresPortAndProtocol(k: Key, port: bv16, isUdp: bool)
    ensures Hash(k) == Hash(Key(k.srcIp, port, isUdp))
  {
    assert HashWord(k) == HashWord(Key(k.srcIp, port, isUdp));
  }

  predicate Expired(now: uint64, c: Cached) { Elapsed(now, c.timestamp) > PID_CACHE_SWEEP_MS }

  /** What a lookup at `now` returns; 0 stands for no answer. */
  function PidAt(m: Cache, k: Key, now: uint64): uint32 {
    if k in m && Elapsed(now, m[k].timestamp) < PID_CACHE_TTL_MS then m[k].pid else 0
  }

  class PidCache {
    const table: Table<Key, Cached>

    ghost predicate Valid()
      reads this, table, table.Repr
    {
      table.Valid() && forall k :: table.slot(k) == Hash(k)
    }

    constructor ()
      ensures Valid() && fresh(table.Repr) && table.m == map[]
    {
      table := new Table<Key, Cached>(PID_CACHE_SIZE, Hash);
    }

    method GetCachedPid(k: Key, now: uint64) returns (pid: uint32)
      requires Valid()
      ensures pid == PidAt(table.m, k, now)
    {
      pid := 0;
      var c := table.Lookup(k, (c: Cached) => true);
      if c.Some? && Elapsed(now, c.value.timestamp) < PID_CACHE_TTL_MS {
        pid := c.value.pid;
      }
    }

    method CachePid(k: Key, pid: uint32, now: uint64, room: bool)
      requires Valid()
      modifies table.Repr
      ensures Valid() && fresh(table.Repr - old(table.Repr))
      ensures table.m == Next(old(table.m), Store(k, pid, now, room))
    {
      table.Put(k, Cached(pid, now), room);
    }

    method Cleanup(now: uint64)
      requires Valid()
      modifies table.Repr
      ensures Valid() && table.Repr == old(table.Repr)
      ensures table.m == Next(old(table.m), SweepAt(now))
    {
      table.Sweep((c: Cached) => Expired(now, c));
    }
  }

  // ---------- runs ----------

  /** `room` says whether a new entry could be allocated. */
  datatype Event =
    | Store(key: Key, pid: uint32, time: uint64, room: bool)
    | SweepAt(time: uint64)
    | ClearAt(time: uint64)

  function Next(m: Cache, e: Event): Cache {
    match e
    case Store(key, pid, time, room) => if key in m || room then m[key := Cached(pid, time)] else m
    case SweepAt(time) => Survivors(m, (c: Cached) => Expired(time, c))
    case ClearAt(_) => map[]
  }

  function Run(events: seq<Event>): Cache {
    if events == [] then map[] else Next(Run(events[..|events| - 1]), events[|events| - 1])
  }

  /** The clock never runs backwards: each event is no later than the next, and all are no later than `now`. */
  predicate Monotone(events: seq<Event>, now: uint64) {
    && (forall i, j :: 0 <= i < j < |events| ==> events[i].time <= events[j].time)
    && (forall i :: 0 <= i < |events| ==> events[i].time <= now)
  }

  /** The last thing stored for exactly this key since the cache was cleared; a store that found neither an
      entry nor memory for one stored nothing. */
  function LatestStore(events: seq<Event>, k: Key): Option<Cached> {
    if events == [] then None
    else
      var before, last := events[..|events| - 1], events[|events| - 1];
      if last.Store? && last.key == k && (last.room || k in Run(before)) then Some(Cached(last.pid, last.time))
      else if last.ClearAt? then None
      else LatestStore(before, k)
  }

  /** The cache holds the latest store of a key unless that store is already more than 10000 ms old. */
  lemma {:induction false} CacheHoldsLatestStore(events: seq<Event>, k: Key, now: uint64)
    requires Monotone(events, now)
    ensures k in Run(events) ==> LatestStore(events, k) == Some(Run(events)[k])
    ensures k !in Run(events) && LatestStore(events, k).Some?
        ==> now - LatestStore(events, k).value.timestamp > 10000
    ensures LatestStore(events, k).Some? ==> LatestStore(events, k).value.timestamp <= now
  {
    if events != [] {
      var before, last := events[..|events| - 1], events[|events| - 1];
      assert forall i :: 0 <= i < |before| ==> before[i] == events[i];
      CacheHoldsLatestStore(before, k, last.time);
    }
  }

  /** Whole-run correctness: a lookup answers with the pid of the latest store for exactly that key,
      provided it was made less than 1000 ms ago, and with 0 otherwise. */
  lemma LookupReturnsLatestStore(events: seq<Event>, k: Key, now: uint64)
    requires Monotone(events, now)
    ensures PidAt(Run(events), k, now)
            == match LatestStore(events, k)
               case Some(c) => if now - c.timestamp < 1000 then c.pid else 0
               case None => 0
  {
    CacheHoldsLatestStore(events, k, now);
  }

  // ---------- sweeps ----------

  function WithoutSweeps(events: seq<Event>): seq<Event> {
    if events == [] then []
    else WithoutSweeps(events[..|events| - 1]) + (if events[|events| - 1].SweepAt? then [] else [events[|events| - 1]])
  }

  lemma RunWithoutSweeps(events: seq<Event>)
    requires events != []
    ensures var before, last := events[..|events| - 1], events[|events| - 1];
            Run(WithoutSweeps(events))
            == if last.SweepAt? then Run(WithoutSweeps(before)) else Next(Run(WithoutSweeps(before)), last)
  {
    var before, last, ws := events[..|events| - 1], events[|events| - 1], WithoutSweeps(events);
    if last.SweepAt? {
      assert ws == WithoutSweeps(before);
    } else {
      assert ws[..|ws| - 1] == WithoutSweeps(before) && ws[|ws| - 1] == last;
    }
  }

  /** Store `i` finds no memory for an entry of `k`, and would have found one but for a sweep. */
  predicate RefusedAfterSweep(events: seq<Event>, i: nat, k: Key)
    requires i < |events|
  {
    && events[i].Store? && events[i].key == k && !events[i].room
    && k !in Run(events[..i]) && k in Run(WithoutSweeps(events[..i]))
  }

  ghost predicate OnlyZerosRefused(events: seq<Event>, k: Key) {
    forall i :: 0 <= i < |events| && RefusedAfterSweep(events, i, k) ==> events[i].pid == 0
  }

  /** The entry of `k` in a swept cache `m` and an unswept one `w`: the same, or gone from `m` and of no use
      in `w`. */
  predicate Alike(m: Cache, w: Cache, k: Key, now: uint64) {
    && (k in m ==> k in w && m[k] == w[k])
    && (k in w ==> w[k].timestamp <= now)
    && (k in w && k !in m ==> w[k].pid == 0 || now - w[k].timestamp > 10000)
  }

  lemma AlikeAnswers(m: Cache, w: Cache, k: Key, now: uint64)
    requires Alike(m, w, k, now)
    ensures PidAt(m, k, now) == PidAt(w, k, now)
  {
  }

  lemma AlikeNext(m: Cache, w: Cache, k: Key, e: Event)
    requires Alike(m, w, k, e.time)
    requires e.Store? && e.key == k && !e.room && k !in m && k in w ==> e.pid == 0
    ensures Alike(Next(m, e), if e.SweepAt? then w else Next(w, e), k, e.time)
  {
  }

  lemma {:induction false} SweptEntry(events: seq<Event>, k: Key, now: uint64)
    requires Monotone(events, now) && OnlyZerosRefused(events, k)
    ensures Alike(Run(events), Run(WithoutSweeps(events)), k, now)
  {
    if events != [] {
      var n := |events| - 1;
      var before, last := events[..n], events[n];
      assert forall i :: 0 <= i < |before| ==> before[i] == events[i];
      PrefixOnlyZeros(events, n, k);
      SweptEntry(before, k, last.time);
      RunWithoutSweeps(events);
      assert RefusedAfterSweep(events, n, k) ==> last.pid == 0;
      AlikeNext(Run(before), Run(WithoutSweeps(before)), k, last);
    }
  }

  /** Every lookup of `k` during the run, at whatever time, is answered as if there had been no sweep. */
  ghost predicate SameAnswers(events: seq<Event>, k: Key) {
    forall n: nat, now: uint64 :: n <= |events| && Monotone(events[..n], now) ==>
      PidAt(Run(events[..n]), k, now) == PidAt(Run(WithoutSweeps(events[..n])), k, now)
  }

  /** Sweeping changes no answer of any present or later lookup exactly when no store of a nonzero pid is
      refused memory for an entry that a sweep has taken away. */
  lemma SweepsChangeNoAnswerIff(events: seq<Event>, k: Key, end: uint64)
    requires Monotone(events, end)
    ensures SameAnswers(events, k) <==> OnlyZerosRefused(events, k)
  {
    if OnlyZerosRefused(events, k) {
      forall n: nat, now: uint64 | n <= |events| && Monotone(events[..n], now)
        ensures PidAt(Run(events[..n]), k, now) == PidAt(Run(WithoutSweeps(events[..n])), k, now)
      {
        PrefixOnlyZeros(events, n, k);
        SweptEntry(events[..n], k, now);
        AlikeAnswers(Run(events[..n]), Run(WithoutSweeps(events[..n])), k, now);
      }
    } else {
      var i :| 0 <= i < |events| && RefusedAfterSweep(events, i, k) && events[i].pid != 0;
      RefusalShows(events, i, k);
    }
  }

  lemma PrefixOnlyZeros(events: seq<Event>, n: nat, k: Key)
    requires n <= |events| && OnlyZerosRefused(events, k)
    ensures OnlyZerosRefused(events[..n], k)
  {
    forall i | 0 <= i < n && RefusedAfterSweep(events[..n], i, k)
      ensures events[i].pid == 0
    {
      assert events[..n][..i] == events[..i];
      assert RefusedAfterSweep(events, i, k);
    }
  }

  /** Right after a refused store the sweeping cache answers 0. */
  lemma RefusalShows(events: seq<Event>, i: nat, k: Key)
    requires i < |events| && RefusedAfterSweep(events, i, k) && events[i].pid != 0
    requires forall a, b :: 0 <= a < b < |events| ==> events[a].time <= events[b].time
    ensures !SameAnswers(events, k)
  {
    var upTo, now := events[..i + 1], events[i].time;
    assert upTo[..|upTo| - 1] == events[..i];
    RunWithoutSweeps(upTo);
    assert Monotone(upTo, now);
    assert PidAt(Run(upTo), k, now) == 0 && PidAt(Run(WithoutSweeps(upTo)), k, now) == events[i].pid;
  }

  /** In particular sweeps never change an answer while memory lasts. */
  lemma SweepsNeverChangeAnswers(events: seq<Event>, k: Key, now: uint64)
    requires Monotone(events, now)
    requires forall i :: 0 <= i < |events| && events[i].Store? && events[i].key == k ==> events[i].room
    ensures PidAt(Run(events), k, now) == PidAt(Run(WithoutSweeps(events)), k, now)
  {
    SweptEntry(events, k, now);
    AlikeAnswers(Run(events), Run(WithoutSweeps(events)), k, now);
  }

  /** A pid stored at 0, swept at 10001 and stored again at 10002 without memory: the lookup that follows
      finds nothing, and would have found the new pid but for the sweep. */
  lemma SweepLosesStore(k: Key)
    ensures var events := [Store(k, 7, 0, true), SweepAt(10001), Store(k, 8, 10002, false)];
            PidAt(Run(events), k, 10002) == 0 && PidAt(Run(WithoutSweeps(events)), k, 10002) == 8
  {
    var e0, e1, e2 := Store(k, 7, 0, true), SweepAt(10001), Store(k, 8, 10002, false);
    var one, two, three := [e0], [e0, e1], [e0, e1, e2];
    assert one[..0] == [] && two[..1] == one && three[..2] == two;
    assert Run(one) == map[k := Cached(7, 0)];
    assert Run(two) == map[];
    RunWithoutSweeps(one);
    RunWithoutSweeps(two);
    RunWithoutSweeps(three);
  }
}
