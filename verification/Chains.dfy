/** Singly linked lists on the heap: the shape shared by the hash buckets, the rule list and the
    logged-connection list.  A chain's abstract value is the sequence of its items, head first. */
module Chains {

  /** Index of the first item satisfying `p`, or the length when there is none. */
  function FirstIndex<T>(s: seq<T>, p: T -> bool): (i: nat)
    ensures i <= |s|
    ensures i < |s| ==> p(s[i])
    ensures forall j :: 0 <= j < i ==> !p(s[j])
  {
    if s == [] || p(s[0]) then 0 else 1 + FirstIndex(s[1..], p)
  }

  lemma {:induction false} FirstIndexIs<T>(s: seq<T>, p: T -> bool, i: nat)
    requires i <= |s| && (i < |s| ==> p(s[i]))
    requires forall j :: 0 <= j < i ==> !p(s[j])
    ensures FirstIndex(s, p) == i
  {
    if s != [] && !p(s[0]) {
      FirstIndexIs(s[1..], p, i - 1);
    }
  }

  function Without<T>(s: seq<T>, i: nat): seq<T>
    requires i <= |s|
  {
    if i == |s| then s else s[..i] + s[i + 1..]
  }

  lemma WithoutAt<T>(s: seq<T>, i: nat)
    requires i < |s|
    ensures |Without(s, i)| == |s| - 1
    ensures forall j :: 0 <= j < i ==> Without(s, i)[j] == s[j]
    ensures forall j :: i <= j < |s| - 1 ==> Without(s, i)[j] == s[j + 1]
  {
  }

  /** `s` with `x` put in behind item `i`. */
  function Spliced<T>(s: seq<T>, i: nat, x: T): seq<T>
    requires i < |s|
  {
    s[..i + 1] + [x] + s[i + 1..]
  }

  lemma SplicedAt<T>(s: seq<T>, i: nat, x: T)
    requires i < |s|
    ensures |Spliced(s, i, x)| == |s| + 1 && Spliced(s, i, x)[i + 1] == x
    ensures forall j :: 0 <= j <= i ==> Spliced(s, i, x)[j] == s[j]
    ensures forall j :: i + 1 < j <= |s| ==> Spliced(s, i, x)[j] == s[j - 1]
  {
  }

  /** What a sweep leaves: the items that are not `stale`, in order. */
  function Kept<T>(s: seq<T>, stale: T -> bool): seq<T> {
    if s == [] then [] else (if stale(s[0]) then [] else [s[0]]) + Kept(s[1..], stale)
  }

  /** One step of a sweep that has settled `s[..i]` and still has `s[i..]` to look at. */
  lemma SweepStep<T>(s: seq<T>, i: nat, stale: T -> bool)
    requires i < |s|
    ensures stale(s[i]) ==> s[..i] + Kept(s[i..], stale) == Without(s, i)[..i] + Kept(Without(s, i)[i..], stale)
    ensures !stale(s[i]) ==> s[..i] + Kept(s[i..], stale) == s[..i + 1] + Kept(s[i + 1..], stale)
  {
    var before, tail := s[..i], s[i + 1..];
    assert s[i..] == [s[i]] + tail;
    assert Kept(s[i..], stale) == (if stale(s[i]) then [] else [s[i]]) + Kept(tail, stale) by {
      assert s[i..][1..] == tail;
    }
    if stale(s[i]) {
      assert Without(s, i)[..i] == before && Without(s, i)[i..] == tail;
      assert [] + Kept(tail, stale) == Kept(tail, stale);
    } else {
      assert s[..i + 1] == before + [s[i]];
      assert before + ([s[i]] + Kept(tail, stale)) == before + [s[i]] + Kept(tail, stale);
    }
  }

  class Node<T> {
    var val: T
    var next: Node?<T>

    constructor (val: T, next: Node?<T>)
      ensures this.val == val && this.next == next
    {
      this.val, this.next := val, next;
    }
  }

  class Chain<T> {
    var head: Node?<T>
    ghost var nodes: seq<Node<T>>
    ghost var items: seq<T>  // the abstract value
    ghost var Repr: set<object>

    ghost predicate Valid()
      reads this, Repr
      ensures Valid() ==> this in Repr
    {
      && this in Repr
      && |items| == |nodes|
      && (forall i :: 0 <= i < |nodes| ==> nodes[i] in Repr)
      && (forall i, j :: 0 <= i < j < |nodes| ==> nodes[i] != nodes[j])
      && head == At(0)
      && (forall i :: 0 <= i < |nodes| ==> nodes[i].next == At(i + 1) && nodes[i].val == items[i])
    }

    ghost function At(i: nat): Node?<T>
      reads this
    {
      if i < |nodes| then nodes[i] else null
    }

    constructor ()
      ensures Valid() && fresh(Repr) && items == []
    {
      head, nodes, items, Repr := null, [], [], {this};
    }

    method PushFront(x: T)
      requires Valid()
      modifies this
      ensures Valid() && fresh(Repr - old(Repr))
      ensures items == [x] + old(items)
    {
      var n := new Node(x, head);
      head, nodes, items, Repr := n, [n] + nodes, [x] + items, Repr + {n};
    }

    /** The first node whose value satisfies `p`, and its position. */
    method Find(p: T -> bool) returns (n: Node?<T>, ghost i: nat)
      requires Valid()
      ensures i == FirstIndex(items, p)
      ensures n == At(FirstIndex(items, p))
    {
      n, i := head, 0;
      while n != null && !p(n.val)
        invariant i <= |nodes| && n == At(i)
        invariant forall j :: 0 <= j < i ==> !p(items[j])
        decreases |nodes| - i
      {
        n, i := n.next, i + 1;
      }
      FirstIndexIs(items, p, i);
    }

    method SetValue(n: Node<T>, ghost i: nat, x: T)
      requires Valid() && n == At(i)
      modifies Repr
      ensures Valid() && Repr == old(Repr) && nodes == old(nodes)
      ensures i < |old(items)| && items == old(items)[i := x]
    {
      n.val := x;
      items := items[i := x];
    }

    /** Unlinks node `i` with one write through the pointer that leads to it: the head when `prev` is
        null, else `prev.next`. */
    method Unlink(prev: Node?<T>, n: Node<T>, ghost i: nat)
      requires Valid() && n == At(i)
      requires if i == 0 then prev == null else prev == At(i - 1)
      modifies Repr
      ensures Valid() && Repr == old(Repr)
      ensures i < |old(items)| && items == Without(old(items), i) && nodes == Without(old(nodes), i)
      ensures n.val == old(n.val) && n !in nodes
    {
      ghost var was := nodes;
      WithoutAt(nodes, i);
      WithoutAt(items, i);
      if prev == null {
        head := n.next;
      } else {
        prev.next := n.next;
      }
      nodes, items := Without(nodes, i), Without(items, i);
      forall j | 0 <= j < |nodes|
        ensures nodes[j].next == At(j + 1) && nodes[j].val == items[j] && nodes[j] in Repr && nodes[j] != n
      {
        assert nodes[j] == if j < i then was[j] else was[j + 1];
      }
    }

    /** Links the detached node `n` in front of the head. */
    method LinkFront(n: Node<T>)
      requires Valid() && n in Repr && n != this as object && n !in nodes
      modifies Repr
      ensures Valid() && Repr == old(Repr) && items == [old(n.val)] + old(items)
    {
      n.next := head;
      head, nodes, items := n, [n] + nodes, [n.val] + items;
    }

    /** Links the detached node `n` behind node `i`. */
    method LinkAfter(cur: Node<T>, n: Node<T>, ghost i: nat)
      requires Valid() && cur == At(i) && n in Repr && n != this as object && n !in nodes
      modifies Repr
      ensures Valid() && Repr == old(Repr)
      ensures i < |old(items)| && items == Spliced(old(items), i, old(n.val))
    {
      ghost var was := nodes;
      SplicedAt(nodes, i, n);
      SplicedAt(items, i, n.val);
      n.next := cur.next;
      cur.next := n;
      nodes, items := Spliced(nodes, i, n), Spliced(items, i, n.val);
      forall j | 0 <= j < |nodes|
        ensures nodes[j].next == At(j + 1) && nodes[j].val == items[j] && nodes[j] in Repr
      {
        assert nodes[j] == if j <= i then was[j] else if j == i + 1 then n else was[j - 1];
      }
    }

    /** Cuts the chain behind node `i`. */
    method CutAfter(n: Node<T>, ghost i: nat)
      requires Valid() && n == At(i)
      modifies Repr
      ensures Valid() && Repr == old(Repr) && i < |old(items)| && items == old(items)[..i + 1]
    {
      n.next := null;
      nodes, items := nodes[..i + 1], items[..i + 1];
    }

    method Clear()
      requires Valid()
      modifies Repr
      ensures Valid() && Repr == old(Repr) && items == []
    {
      while head != null
        invariant Valid() && Repr == old(Repr)
        decreases |nodes|
      {
        Unlink(null, head, 0);
      }
    }

    method RemoveFirst(p: T -> bool) returns (found: bool)
      requires Valid()
      modifies Repr
      ensures Valid() && Repr == old(Repr)
      ensures items == Without(old(items), FirstIndex(old(items), p))
      ensures found == (FirstIndex(old(items), p) < |old(items)|)
    {
      var prev: Node?<T>, cur := null, head;
      ghost var i := 0;
      while cur != null && !p(cur.val)
        invariant i <= |nodes| && cur == At(i)
        invariant if i == 0 then prev == null else prev == At(i - 1)
        invariant forall j :: 0 <= j < i ==> !p(items[j])
        decreases |nodes| - i
      {
        prev, cur, i := cur, cur.next, i + 1;
      }
      FirstIndexIs(items, p, i);
      found := cur != null;
      if cur != null {
        Unlink(prev, cur, i);
      }
    }

    /** The sweep: unlinks every node whose value satisfies `stale`, in one pass. */
    method RemoveAll(stale: T -> bool)
      requires Valid()
      modifies Repr
      ensures Valid() && Repr == old(Repr)
      ensures items == Kept(old(items), stale)
    {
      var prev: Node?<T>, cur := null, head;
      ghost var i := 0;
      while cur != null
        invariant Valid() && Repr == old(Repr) && i <= |nodes| && cur == At(i)
        invariant if i == 0 then prev == null else prev == At(i - 1)
        invariant items[..i] + Kept(items[i..], stale) == Kept(old(items), stale)
        decreases |nodes| - i
      {
        SweepStep(items, i, stale);
        if stale(cur.val) {
          var next := cur.next;
          Unlink(prev, cur, i);
          cur := next;
        } else {
          prev, cur, i := cur, cur.next, i + 1;
        }
      }
      assert items[..i] == items;
    }
  }
}
