/** The table of proxied connections: source port to original destination, in 256 chained buckets. */
module Connections {
  import opened Net
  import opened HashTable

  const CONNECTION_HASH_SIZE: nat := 256
  const CONNECTION_TIMEOUT_MS := 60000

  datatype Entry = Entry(srcIp: uint32, destIp: uint32, destPort: uint16, tracked: bool, lastActivity: uint64)

  type Conns = map<uint16, Entry>

  predicate AllTracked(m: Conns) { forall p :: p in m ==> m[p].tracked }

  function Bucket(port: uint16): nat { port % CONNECTION_HASH_SIZE }

  predicate Stale(now: uint64, e: Entry) { Elapsed(now, e.lastActivity) > CONNECTION_TIMEOUT_MS }

  function Touched(now: uint64, e: Entry): Entry { e.(lastActivity := now) }

  /** What a sweep that read the clock at `now` leaves. */
  function Swept(m: Conns, now: uint64): Conns {
    Survivors(m, (e: Entry) => Stale(now, e))
  }

  class ConnectionTable {
    const table: Table<uint16, Entry>

    ghost predicate Valid()
      reads this, table, table.Repr
    {
      && table.Valid() && AllTracked(table.m)
      && |table.heads.buckets| == CONNECTION_HASH_SIZE && (forall p :: table.slot(p) == Bucket(p))
    }

    constructor ()
      ensures Valid() && fresh(table.Repr) && table.m == map[]
    {
      table := new Table<uint16, Entry>(CONNECTION_HASH_SIZE, Bucket);
    }

    /** Shape of the 256 buckets: every entry lies in bucket port % 256 and is tracked, every port of
        the map is there, and no port occurs twice. */
    lemma BucketsHoldTheMap()
      requires Valid()
      ensures |table.heads.rows| == 256
      ensures forall h, i :: At(h, i) ==>
                var x := table.heads.rows[h][i];
                x.key % 256 == h && x.key in table.m && table.m[x.key] == x.val && x.val.tracked
      ensures forall p :: p in table.m ==> HasKey(table.heads.rows[Bucket(p)], p)
      ensures forall h, i, g, j :: At(h, i) && At(g, j) && table.heads.rows[h][i].key == table.heads.rows[g][j].key ==>
                h == g && i == j
    {
    }

    ghost predicate At(h: int, i: int)
      reads table, table.heads
    {
      0 <= h < |table.heads.rows| && 0 <= i < |table.heads.rows[h]|
    }

    method AddConnection(srcPort: uint16, srcIp: uint32, destIp: uint32, destPort: uint16, now: uint64, room: bool)
      requires Valid()
      modifies table.Repr
      ensures Valid() && fresh(table.Repr - old(table.Repr))
      ensures table.m == if srcPort in old(table.m) || room
                         then old(table.m)[srcPort := Entry(srcIp, destIp, destPort, true, now)]
                         else old(table.m)
      ensures srcPort !in old(table.m) && room ==>
                table.heads.rows == old(table.heads.rows)[Bucket(srcPort) :=
                  [Pair(srcPort, Entry(srcIp, destIp, destPort, true, now))] + old(table.heads.rows)[Bucket(srcPort)]]
    {
      table.Put(srcPort, Entry(srcIp, destIp, destPort, true, now), room);
    }

    /** Returns the original destination and refreshes the entry's stamp. */
    method GetConnection(srcPort: uint16, now: uint64) returns (r: Option<(uint32, uint16)>)
      requires Valid()
      modifies table.Repr
      ensures Valid() && table.Repr == old(table.Repr)
      ensures if srcPort in old(table.m) then
                && r == Some((old(table.m)[srcPort].destIp, old(table.m)[srcPort].destPort))
                && table.m == old(table.m)[srcPort := Touched(now, old(table.m)[srcPort])]
              else r == None && table.m == old(table.m)
    {
      var e := table.Visit(srcPort, (e: Entry) => e.tracked, (e: Entry) => Touched(now, e));
      r := if e.Some? then Some((e.value.destIp, e.value.destPort)) else None;
    }

    method IsConnectionTracked(srcPort: uint16) returns (tracked: bool)
      requires Valid()
      ensures tracked == (srcPort in table.m)
    {
      var e := table.Lookup(srcPort, (e: Entry) => e.tracked);
      tracked := e.Some?;
    }

    method RemoveConnection(srcPort: uint16)
      requires Valid()
      modifies table.Repr
      ensures Valid() && table.Repr == old(table.Repr)
      ensures table.m == old(table.m) - {srcPort}
    {
      table.Remove(srcPort);
    }

    method CleanupStaleConnections(now: uint64)
      requires Valid()
      modifies table.Repr
      ensures Valid() && table.Repr == old(table.Repr)
      ensures table.m == Swept(old(table.m), now)
    {
      table.Sweep((e: Entry) => Stale(now, e));
    }

    /** Scans the buckets in order, each chain from its head, for a client whose proxied destination is
        `ip:port`. */
    method ClientOf(ip: uint32, port: uint16) returns (r: Option<uint16>)
      requires Valid()
      ensures r == RouteOf(table.heads.rows, ip, port)
    {
      var x := table.FindValue(GoesTo(ip, port));
      r := if x.Some? then Some(x.value.key) else None;
    }
  }

  // ---------- routing a reply by its destination ----------

  type Rows = seq<seq<Pair<uint16, Entry>>>

  function GoesTo(ip: uint32, port: uint16): Entry -> bool {
    (e: Entry) => e.destIp == ip && e.destPort == port
  }

  /** The client that a reply from `ip:port` is delivered to. */
  function RouteOf(rows: Rows, ip: uint32, port: uint16): Option<uint16> {
    var x := FirstIn(rows, OnVal(GoesTo(ip, port)));
    if x.Some? then Some(x.value.key) else None
  }

  predicate Clients(m: Conns, p: uint16, ip: uint32, port: uint16) {
    p in m && m[p].destIp == ip && m[p].destPort == port
  }

  /** Entry `j` of bucket `g` is a client of `ip:port`. */
  predicate ClientAt(rows: Rows, g: nat, j: nat, ip: uint32, port: uint16) {
    g < |rows| && j < |rows[g]| && GoesTo(ip, port)(rows[g][j].val)
  }

  /** A reply goes to the client at place `i` of bucket `h` exactly when no client of the destination lies
      in a lower bucket and none stands before it in its own chain, whichever client it was meant for. */
  lemma ReplyGoesToFirstClientIff(rows: Rows, m: Conns, ip: uint32, port: uint16, h: nat, i: nat)
    requires Represents(rows, Bucket, m) && ClientAt(rows, h, i, ip, port)
    ensures RouteOf(rows, ip, port) == Some(rows[h][i].key)
            <==> forall g: nat, j: nat :: ClientAt(rows, g, j, ip, port) ==> h < g || (h == g && i <= j)
  {
    var q := OnVal(GoesTo(ip, port));
    var g, j := FirstInPlace(rows, q);
    assert ClientAt(rows, g, j, ip, port);
    if RouteOf(rows, ip, port) == Some(rows[h][i].key) {
      assert g == h && j == i;
    }
  }

  /** A destination held by exactly one client routes to that client. */
  lemma SoleClientIsFound(rows: Rows, m: Conns, p: uint16, ip: uint32, port: uint16)
    requires Represents(rows, Bucket, m)
    requires Clients(m, p, ip, port) && forall q :: Clients(m, q, ip, port) ==> q == p
    ensures RouteOf(rows, ip, port) == Some(p)
  {
    var g, j := FirstInPlace(rows, OnVal(GoesTo(ip, port)));
    var row := rows[Bucket(p)];
    assert HasKey(row, p);
    var i :| 0 <= i < |row| && row[i].key == p;
    assert OnVal(GoesTo(ip, port))(row[i]);
    assert RouteOf(rows, ip, port).Some?;
    assert Clients(m, rows[g][j].key, ip, port);
  }

  /** A client just added receives every reply from its destination, whichever clients came before it,
      unless one of them lies in a lower bucket. */
  lemma AddedClientTakesRepliesIff(rows: Rows, rows1: Rows, m1: Conns, p: uint16, e: Entry)
    requires |rows| == CONNECTION_HASH_SIZE && rows1 == rows[Bucket(p) := [Pair(p, e)] + rows[Bucket(p)]]
    requires Represents(rows1, Bucket, m1)
    ensures RouteOf(rows1, e.destIp, e.destPort) == Some(p)
            <==> forall g: nat, j: nat :: g < Bucket(p) ==> !ClientAt(rows, g, j, e.destIp, e.destPort)
  {
    forall g: nat, j: nat | g < Bucket(p)
      ensures ClientAt(rows, g, j, e.destIp, e.destPort) == ClientAt(rows1, g, j, e.destIp, e.destPort)
    {
    }
    ReplyGoesToFirstClientIff(rows1, m1, e.destIp, e.destPort, Bucket(p), 0);
  }

  /** Of two clients of one destination whose ports share a bucket, the one added last receives the
      replies meant for the other as well. */
  method NewestOfBucketTakesReplies(older: uint16, newer: uint16, ip: uint32, port: uint16, now: uint64)
    returns (t: ConnectionTable)
    requires older != newer && Bucket(older) == Bucket(newer)
    ensures t.Valid() && Clients(t.table.m, older, ip, port) && Clients(t.table.m, newer, ip, port)
    ensures RouteOf(t.table.heads.rows, ip, port) == Some(newer)
  {
    t := new ConnectionTable();
    t.AddConnection(older, 0x0100_007F, ip, port, now, true);
    t.AddConnection(newer, 0x0100_007F, ip, port, now, true);
    var h := Bucket(newer);
    forall g: nat, j: nat | ClientAt(t.table.heads.rows, g, j, ip, port)
      ensures h <= g
    {
      assert t.table.heads.rows[g][j].key in t.table.m;
    }
    ReplyGoesToFirstClientIff(t.table.heads.rows, t.table.m, ip, port, h, 0);
  }

  // ---------- the unsigned clock of the sweep ----------

  /** Exactly when the sweep drops an entry.  For stamps not later than the sweep's clock reading that
      is an idle time above 60000 ms; an entry stamped after the reading is dropped as well, because the
      subtraction wraps, unless it lies within 60000 of a full turn of the counter. */
  lemma SweepDropsIff(m: Conns, now: uint64, p: uint16)
    requires p in m
    ensures var t := m[p].lastActivity;
            p !in Swept(m, now)
            <==> if t <= now then now - t > 60000 else t - now < TWO_TO_THE_64 - 60000
    ensures p in Swept(m, now) ==> Swept(m, now)[p] == m[p]
  {
    var t := m[p].lastActivity;
    if t > now {
      assert now - t + TWO_TO_THE_64 == Elapsed(now, t) by {
        assert (now - t) / TWO_TO_THE_64 == -1;
      }
    }
  }

  /** A lookup keeps an entry alive: sweeps of the next 60000 ms leave it in the table. */
  lemma LookupKeepsAlive(m: Conns, p: uint16, at: uint64, now: uint64)
    requires p in m && at <= now <= at + 60000
    ensures p in Swept(m[p := Touched(at, m[p])], now)
    ensures Touched(at, m[p]) == Entry(m[p].srcIp, m[p].destIp, m[p].destPort, m[p].tracked, at)
  {
    SweepDropsIff(m[p := Touched(at, m[p])], now, p);
  }

  /** A sweep keeps precisely the entries idle for at most 60000 ms if and only if no entry was stamped
      after the sweep's clock reading (short of a full turn of the counter). */
  lemma SweepIsExactIff(m: Conns, now: uint64)
    ensures Swept(m, now) == (map p | p in m && now - m[p].lastActivity <= 60000 :: m[p])
            <==> forall p :: p in m ==>
                   m[p].lastActivity <= now || m[p].lastActivity - now >= TWO_TO_THE_64 - 60000
  {
    var ideal := map p | p in m && now - m[p].lastActivity <= 60000 :: m[p];
    forall p | p in m
      ensures p in Swept(m, now) <==> !(if m[p].lastActivity <= now then now - m[p].lastActivity > 60000
                                        else m[p].lastActivity - now < TWO_TO_THE_64 - 60000)
      ensures p in Swept(m, now) ==> Swept(m, now)[p] == m[p]
    {
      SweepDropsIff(m, now, p);
    }
    if Swept(m, now) == ideal {
      forall p | p in m
        ensures m[p].lastActivity <= now || m[p].lastActivity - now >= TWO_TO_THE_64 - 60000
      {
        assert p in ideal <==> p in Swept(m, now);
      }
    }
  }

  /** A connection looked up between the sweep's clock reading and its visit to the bucket is lost. */
  lemma FreshEntrySwept(port: uint16, srcIp: uint32, destIp: uint32, destPort: uint16, now: uint64)
    requires now + 1 < TWO_TO_THE_64
    ensures port !in Swept(map[port := Entry(srcIp, destIp, destPort, true, now + 1)], now)
  {
    SweepDropsIff(map[port := Entry(srcIp, destIp, destPort, true, now + 1)], now, port);
  }
}
