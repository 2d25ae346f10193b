/** The chained hash table behind the connection table and the PID cache: a fixed number of buckets,
    each a chain of (key, value) nodes, refining a finite map. */
module HashTable {
  import opened Net
  import opened Chains

  datatype Pair<K, V> = Pair(key: K, val: V)

  predicate HasKey<K(==), V>(row: seq<Pair<K, V>>, k: K) {
    exists i :: 0 <= i < |row| && row[i].key == k
  }

  ghost predicate DistinctKeys<K, V>(row: seq<Pair<K, V>>) {
    forall i, j :: 0 <= i < j < |row| ==> row[i].key != row[j].key
  }

  /** Row `h` holds exactly the entries of `m` whose keys belong in bucket `h`, each once. */
  ghost predicate RowOf<K(!new), V>(row: seq<Pair<K, V>>, h: nat, slot: K -> nat, m: map<K, V>) {
    && (forall i :: 0 <= i < |row| ==> slot(row[i].key) == h && row[i].key in m && m[row[i].key] == row[i].val)
    && DistinctKeys(row)
    && (forall k :: k in m && slot(k) == h ==> HasKey(row, k))
  }

  ghost predicate SameInSlot<K(!new), V>(m: map<K, V>, m1: map<K, V>, h: nat, slot: K -> nat) {
    forall k :: slot(k) == h ==> (k in m <==> k in m1) && (k in m ==> m[k] == m1[k])
  }

  lemma RowFrame<K(!new), V>(row: seq<Pair<K, V>>, h: nat, slot: K -> nat, m: map<K, V>, m1: map<K, V>)
    requires RowOf(row, h, slot, m) && SameInSlot(m, m1, h, slot)
    ensures RowOf(row, h, slot, m1)
  {
  }

  lemma RowInsert<K(!new), V>(row: seq<Pair<K, V>>, h: nat, slot: K -> nat, m: map<K, V>, k: K, v: V)
    requires RowOf(row, h, slot, m) && slot(k) == h && k !in m
    ensures RowOf([Pair(k, v)] + row, h, slot, m[k := v])
  {
    var row1 := [Pair(k, v)] + row;
    forall k1 | k1 in m[k := v] && slot(k1) == h
      ensures HasKey(row1, k1)
    {
      if k1 == k {
        assert row1[0].key == k;
      } else {
        var i :| 0 <= i < |row| && row[i].key == k1;
        assert row1[i + 1].key == k1;
      }
    }
  }

  lemma RowUpdate<K(!new), V>(row: seq<Pair<K, V>>, h: nat, slot: K -> nat, m: map<K, V>, i: nat, v: V)
    requires RowOf(row, h, slot, m) && i < |row|
    ensures RowOf(row[i := Pair(row[i].key, v)], h, slot, m[row[i].key := v])
  {
    var k := row[i].key;
    var row1 := row[i := Pair(k, v)];
    forall k1 | k1 in m[k := v] && slot(k1) == h
      ensures HasKey(row1, k1)
    {
      var j :| 0 <= j < |row| && row[j].key == k1;
      assert row1[j].key == k1;
    }
  }

  lemma RowRemove<K(!new), V>(row: seq<Pair<K, V>>, h: nat, slot: K -> nat, m: map<K, V>, i: nat)
    requires RowOf(row, h, slot, m) && i < |row|
    ensures RowOf(Without(row, i), h, slot, m - {row[i].key})
  {
    var row1 := Without(row, i);
    assert forall j :: 0 <= j < |row1| ==> row1[j] == row[if j < i then j else j + 1];
    forall k1 | k1 in m - {row[i].key} && slot(k1) == h
      ensures HasKey(row1, k1)
    {
      var j :| 0 <= j < |row| && row[j].key == k1;
      assert row1[if j < i then j else j - 1].key == k1;
    }
  }

  function Survivors<K, V>(m: map<K, V>, stale: V -> bool): map<K, V> {
    map k | k in m && !stale(m[k]) :: m[k]
  }

  /** The map after the first `n` buckets have been swept. */
  ghost function SweptTo<K, V>(m: map<K, V>, n: nat, slot: K -> nat, stale: V -> bool): map<K, V> {
    map k | k in m && (slot(k) >= n || !stale(m[k])) :: m[k]
  }

  lemma {:induction false} KeptMember<T>(s: seq<T>, stale: T -> bool, x: T)
    ensures x in Kept(s, stale) <==> x in s && !stale(x)
  {
    if s != [] {
      KeptMember(s[1..], stale, x);
      assert s == [s[0]] + s[1..];
    }
  }

  lemma {:induction false} KeptDistinct<K, V>(row: seq<Pair<K, V>>, drop: Pair<K, V> -> bool)
    requires DistinctKeys(row)
    ensures DistinctKeys(Kept(row, drop))
  {
    if row != [] {
      KeptDistinct(row[1..], drop);
      var rest := Kept(row[1..], drop);
      forall i | 0 <= i < |rest|
        ensures rest[i].key != row[0].key
      {
        KeptMember(row[1..], drop, rest[i]);
        var j :| 0 <= j < |row[1..]| && row[1..][j] == rest[i];
        assert row[j + 1].key == rest[i].key;
      }
    }
  }

  lemma RowSweep<K(!new), V>(row: seq<Pair<K, V>>, h: nat, slot: K -> nat, m: map<K, V>,
                             stale: V -> bool, drop: Pair<K, V> -> bool)
    requires RowOf(row, h, slot, m)
    requires forall i :: 0 <= i < |row| ==> drop(row[i]) == stale(row[i].val)
    ensures RowOf(Kept(row, drop), h, slot, Survivors(m, stale))
  {
    var row1 := Kept(row, drop);
    KeptDistinct(row, drop);
    forall i | 0 <= i < |row1|
      ensures exists j :: 0 <= j < |row| && row[j] == row1[i] && !stale(row[j].val)
    {
      KeptMember(row, drop, row1[i]);
      var j :| 0 <= j < |row| && row[j] == row1[i];
    }
    forall k | k in Survivors(m, stale) && slot(k) == h
      ensures HasKey(row1, k)
    {
      var i :| 0 <= i < |row| && row[i].key == k;
      KeptMember(row, drop, row[i]);
      var j :| 0 <= j < |row1| && row1[j] == row[i];
    }
  }

  /** All rows together hold exactly the entries of `m`. */
  ghost predicate Represents<K(!new), V>(rows: seq<seq<Pair<K, V>>>, slot: K -> nat, m: map<K, V>) {
    && (forall k :: slot(k) < |rows|)
    && (forall h :: 0 <= h < |rows| ==> RowOf(rows[h], h, slot, m))
  }

  lemma RowsUpdate<K(!new), V>(rows: seq<seq<Pair<K, V>>>, slot: K -> nat, m: map<K, V>,
                               h: nat, row: seq<Pair<K, V>>, m1: map<K, V>)
    requires Represents(rows, slot, m) && h < |rows|
    requires RowOf(row, h, slot, m1)
    requires forall k :: slot(k) != h ==> (k in m <==> k in m1) && (k in m ==> m[k] == m1[k])
    ensures Represents(rows[h := row], slot, m1)
  {
    forall g | 0 <= g < |rows| && g != h
      ensures RowOf(rows[g], g, slot, m1)
    {
      RowFrame(rows[g], g, slot, m, m1);
    }
  }

  /** The first pair satisfying `q`, buckets in order and each chain from its head. */
  function FirstIn<K, V>(rows: seq<seq<Pair<K, V>>>, q: Pair<K, V> -> bool): Option<Pair<K, V>> {
    if rows == [] then None
    else
      var i := FirstIndex(rows[0], q);
      if i < |rows[0]| then Some(rows[0][i]) else FirstIn(rows[1..], q)
  }

  /** Pair `i` of row `h` is the one found exactly when it satisfies `q` and no pair that does lies in an
      earlier row or before it in its own row. */
  ghost predicate FoundAt<K, V>(rows: seq<seq<Pair<K, V>>>, q: Pair<K, V> -> bool, h: nat, i: nat) {
    && h < |rows| && i < |rows[h]| && i == FirstIndex(rows[h], q)
    && forall g :: 0 <= g < h ==> FirstIndex(rows[g], q) == |rows[g]|
  }

  /** Where the first pair lies, or that there is none. */
  lemma {:induction false} FirstInPlace<K, V>(rows: seq<seq<Pair<K, V>>>, q: Pair<K, V> -> bool)
    returns (h: nat, i: nat)
    ensures match FirstIn(rows, q)
            case Some(x) => FoundAt(rows, q, h, i) && x == rows[h][i]
            case None => forall g :: 0 <= g < |rows| ==> FirstIndex(rows[g], q) == |rows[g]|
  {
    h, i := 0, 0;
    if rows != [] {
      if FirstIndex(rows[0], q) < |rows[0]| {
        i := FirstIndex(rows[0], q);
      } else {
        h, i := FirstInPlace(rows[1..], q);
        h := h + 1;
      }
    }
  }

  /** Tests the value of a pair. */
  function OnVal<K, V>(p: V -> bool): Pair<K, V> -> bool { (x: Pair<K, V>) => p(x.val) }

  /** The array of bucket heads; its abstract value is one row of pairs per bucket. */
  class BucketArray<K, V> {
    const buckets: seq<Chain<Pair<K, V>>>
    ghost var rows: seq<seq<Pair<K, V>>>
    ghost var Repr: set<object>

    ghost predicate Valid()
      reads this, Repr
      ensures Valid() ==> this in Repr
    {
      && this in Repr
      && |rows| == |buckets|
      && (forall h :: 0 <= h < |buckets| ==>
            && buckets[h] in Repr && buckets[h].Repr <= Repr && this !in buckets[h].Repr
            && buckets[h].Valid() && buckets[h].items == rows[h])
      && (forall g, h :: 0 <= g < |buckets| && 0 <= h < |buckets| && g != h ==> buckets[g].Repr !! buckets[h].Repr)
    }

    constructor (size: nat)
      ensures Valid() && fresh(Repr) && |rows| == size && forall h :: 0 <= h < size ==> rows[h] == []
    {
      var bs: seq<Chain<Pair<K, V>>> := [];
      ghost var nodes: set<object> := {};
      for h := 0 to size
        invariant |bs| == h && fresh(nodes)
        invariant forall g :: 0 <= g < h ==> bs[g].Repr <= nodes && bs[g].Valid() && bs[g].items == []
        invariant forall g, g1 :: 0 <= g < h && 0 <= g1 < h && g != g1 ==> bs[g].Repr !! bs[g1].Repr
      {
        var c := new Chain<Pair<K, V>>();
        bs, nodes := bs + [c], nodes + c.Repr;
      }
      buckets, rows := bs, seq(size, _ => []);
      Repr := {this} + nodes;
    }

    /** Finds the first pair of bucket `h` that satisfies `p`. */
    method Find(h: nat, p: Pair<K, V> -> bool) returns (n: Node?<Pair<K, V>>, ghost i: nat)
      requires Valid() && h < |rows|
      ensures i == FirstIndex(rows[h], p)
      ensures n == buckets[h].At(FirstIndex(rows[h], p))
      ensures n != null <==> i < |rows[h]|
      ensures n != null ==> n.val == rows[h][i]
    {
      n, i := buckets[h].Find(p);
    }

    method SetValue(h: nat, n: Node<Pair<K, V>>, ghost i: nat, p: Pair<K, V>)
      requires Valid() && h < |rows| && n == buckets[h].At(i)
      modifies Repr
      ensures Valid() && Repr == old(Repr)
      ensures i < |old(rows)[h]| && rows == old(rows)[h := old(rows)[h][i := p]]
    {
      buckets[h].SetValue(n, i, p);
      rows := rows[h := rows[h][i := p]];
    }

    method PushFront(h: nat, p: Pair<K, V>)
      requires Valid() && h < |rows|
      modifies Repr
      ensures Valid() && fresh(Repr - old(Repr))
      ensures rows == old(rows)[h := [p] + old(rows)[h]]
    {
      buckets[h].PushFront(p);
      rows, Repr := rows[h := [p] + rows[h]], Repr + buckets[h].Repr;
    }

    method RemoveFirst(h: nat, p: Pair<K, V> -> bool)
      requires Valid() && h < |rows|
      modifies Repr
      ensures Valid() && Repr == old(Repr)
      ensures rows == old(rows)[h := Without(old(rows)[h], FirstIndex(old(rows)[h], p))]
    {
      ghost var i := FirstIndex(rows[h], p);
      var _ := buckets[h].RemoveFirst(p);
      rows := rows[h := Without(rows[h], i)];
    }

    method RemoveAll(h: nat, stale: Pair<K, V> -> bool)
      requires Valid() && h < |rows|
      modifies Repr
      ensures Valid() && Repr == old(Repr)
      ensures rows == old(rows)[h := Kept(old(rows)[h], stale)]
    {
      buckets[h].RemoveAll(stale);
      rows := rows[h := Kept(rows[h], stale)];
    }
  }

  class Table<K(==,!new), V> {
    const heads: BucketArray<K, V>
    const slot: K -> nat
    ghost var m: map<K, V>  // the abstract value
    ghost var Repr: set<object>

    ghost predicate Valid()
      reads this, Repr
      ensures Valid() ==> this in Repr
    {
      && this in Repr && heads in Repr && heads.Repr <= Repr && this !in heads.Repr && heads.Valid()
      && Represents(heads.rows, slot, m)
    }

    constructor (size: nat, slot: K -> nat)
      requires forall k :: slot(k) < size
      ensures Valid() && fresh(Repr) && m == map[]
      ensures this.slot == slot && |heads.buckets| == size
    {
      this.slot := slot;
      heads := new BucketArray<K, V>(size);
      m := map[];
      new;
      Repr := {this} + heads.Repr;
    }

    /** The value stored for `k`, provided it also satisfies `want`. */
    method Lookup(k: K, want: V -> bool) returns (r: Option<V>)
      requires Valid()
      ensures r == if k in m && want(m[k]) then Some(m[k]) else None
    {
      var n, i := heads.Find(slot(k), (p: Pair<K, V>) => p.key == k && want(p.val));
      if n == null {
        return None;
      }
      return Some(n.val.val);
    }

    /** Adds or overwrites the entry of `k`; a new entry needs an allocation, which may fail. */
    method Put(k: K, v: V, room: bool)
      requires Valid()
      modifies Repr
      ensures Valid() && fresh(Repr - old(Repr))
      ensures m == if k in old(m) || room then old(m)[k := v] else old(m)
      ensures k !in old(m) && room ==>
                heads.rows == old(heads.rows)[slot(k) := [Pair(k, v)] + old(heads.rows)[slot(k)]]
    {
      var h := slot(k);
      var n, i := heads.Find(h, (p: Pair<K, V>) => p.key == k);
      ghost var rows := heads.rows;
      if n != null {
        RowUpdate(rows[h], h, slot, m, i, v);
        RowsUpdate(rows, slot, m, h, rows[h][i := Pair(k, v)], m[k := v]);
        heads.SetValue(h, n, i, Pair(k, v));
        m := m[k := v];
      } else if room {
        RowInsert(rows[h], h, slot, m, k, v);
        RowsUpdate(rows, slot, m, h, [Pair(k, v)] + rows[h], m[k := v]);
        heads.PushFront(h, Pair(k, v));
        m, Repr := m[k := v], Repr + heads.Repr;
      }
    }

    /** Looks `k` up like `Lookup` and, when found, rewrites its value in place. */
    method Visit(k: K, want: V -> bool, touch: V -> V) returns (r: Option<V>)
      requires Valid()
      modifies Repr
      ensures Valid() && Repr == old(Repr)
      ensures r == if k in old(m) && want(old(m)[k]) then Some(old(m)[k]) else None
      ensures m == if r.Some? then old(m)[k := touch(r.value)] else old(m)
    {
      var h := slot(k);
      var n, i := heads.Find(h, (p: Pair<K, V>) => p.key == k && want(p.val));
      if n == null {
        return None;
      }
      r := Some(n.val.val);
      ghost var rows := heads.rows;
      ghost var v := touch(n.val.val);
      RowUpdate(rows[h], h, slot, m, i, v);
      RowsUpdate(rows, slot, m, h, rows[h][i := Pair(k, v)], m[k := v]);
      heads.SetValue(h, n, i, Pair(k, touch(n.val.val)));
      m := m[k := v];
    }

    method Remove(k: K)
      requires Valid()
      modifies Repr
      ensures Valid() && Repr == old(Repr)
      ensures m == old(m) - {k}
    {
      var h := slot(k);
      var p := (p: Pair<K, V>) => p.key == k;
      ghost var row := heads.rows[h];
      ghost var i := FirstIndex(row, p);
      if k in m {
        RowRemove(row, h, slot, m, i);
        RowsUpdate(heads.rows, slot, m, h, Without(row, i), m - {k});
      } else {
        assert m - {k} == m;
        assert heads.rows[h := row] == heads.rows;
      }
      heads.RemoveFirst(h, p);
      m := m - {k};
    }

    /** Sweeps every bucket in turn. */
    method Sweep(stale: V -> bool)
      requires Valid()
      modifies Repr
      ensures Valid() && Repr == old(Repr)
      ensures m == Survivors(old(m), stale)
    {
      var drop := (p: Pair<K, V>) => stale(p.val);
      for h := 0 to |heads.buckets|
        invariant Valid() && Repr == old(Repr)
        invariant m == SweptTo(old(m), h, slot, stale)
      {
        ghost var m1 := SweptTo(old(m), h + 1, slot, stale);
        ghost var row := heads.rows[h];
        RowSweep(row, h, slot, m, stale, drop);
        RowFrame(Kept(row, drop), h, slot, Survivors(m, stale), m1);
        RowsUpdate(heads.rows, slot, m, h, Kept(row, drop), m1);
        heads.RemoveAll(h, drop);
        m := m1;
      }
    }

    /** Scans the buckets in order, each chain from its head, for an entry whose value satisfies `p`. */
    method FindValue(p: V -> bool) returns (r: Option<Pair<K, V>>)
      requires Valid()
      ensures r == FirstIn(heads.rows, OnVal(p))
    {
      ghost var rows := heads.rows;
      for h := 0 to |heads.buckets|
        invariant FirstIn(rows, OnVal(p)) == FirstIn(rows[h..], OnVal(p))
      {
        assert rows[h..][0] == rows[h] && rows[h..][1..] == rows[h + 1..];
        var n, i := heads.Find(h, OnVal(p));
        if n != null {
          return Some(n.val);
        }
      }
      return None;
    }
  }
}
