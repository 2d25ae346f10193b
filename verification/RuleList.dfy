/** The mutable rule list with its cached `has active rules` flag, its operations and the one-pass
    matcher of the C engines. */
module RuleList {
  import opened Net
  import opened Chains
  import opened Rules

  const MAX_PROCESS_NAME := 256

  /** strncpy into a MAX_PROCESS_NAME buffer whose last byte stays zero. */
  function Truncated(s: string): string {
    if |s| < MAX_PROCESS_NAME then s else s[..MAX_PROCESS_NAME - 1]
  }

  /** A null or empty filter stands for "*". */
  function OrStar(s: Option<string>): string {
    if s.None? || s.value == "" then "*" else s.value
  }

  /** Names below 256 characters are stored unchanged, longer ones keep their first 255; a missing or empty
      filter is stored as "*", any other as it is. */
  lemma StoredTexts(name: string, filter: string)
    ensures |name| < 256 ==> Truncated(name) == name
    ensures |name| >= 256 ==> |Truncated(name)| == 255 && Truncated(name) <= name
    ensures OrStar(None) == "*" && OrStar(Some("")) == "*"
    ensures filter != "" ==> OrStar(Some(filter)) == filter
  {
  }

  predicate FreshIds(rules: seq<Rule>, nextId: uint32) {
    && (forall i :: 0 <= i < |rules| ==> 0 < rules[i].id < nextId)
    && (forall i, j :: 0 <= i < j < |rules| ==> rules[i].id != rules[j].id)
  }

  function Position(rules: seq<Rule>, id: uint32): nat {
    FirstIndex(rules, (r: Rule) => r.id == id)
  }

  /** `x` put in as item `p - 1`, or last when `p` is beyond the end. */
  function Inserted<T>(s: seq<T>, x: T, p: nat): seq<T>
    requires p > 0
  {
    var k := Min(p - 1, |s|);
    s[..k] + [x] + s[k..]
  }

  function Relocated<T>(s: seq<T>, i: nat, p: nat): seq<T>
    requires i < |s| && p > 0
  {
    Inserted(Without(s, i), s[i], p)
  }

  function NextAfter(id: uint32): uint32 { (id + 1) % 0x1_0000_0000 }

  /** An id is used up whether or not the rule is added.  Adding keeps ids positive, below the next one
      and distinct exactly until the 32-bit counter wraps. */
  lemma AddKeepsFreshIff(rules: seq<Rule>, nextId: uint32, r: Rule)
    requires FreshIds(rules, nextId) && r.id == nextId
    ensures FreshIds([r] + rules, NextAfter(nextId)) <==> 0 < nextId < 0xFFFF_FFFF
    ensures FreshIds(rules, NextAfter(nextId)) <==> nextId < 0xFFFF_FFFF || rules == []
  {
    assert nextId < 0xFFFF_FFFF ==> NextAfter(nextId) == nextId + 1;
    assert ([r] + rules)[0] == r;
    if FreshIds([r] + rules, NextAfter(nextId)) {
      assert 0 < ([r] + rules)[0].id < NextAfter(nextId);
    }
    if rules != [] && FreshIds(rules, NextAfter(nextId)) {
      assert 0 < rules[0].id < NextAfter(nextId);
    }
  }

  lemma WithoutKeepsFresh(rules: seq<Rule>, nextId: uint32, i: nat)
    requires FreshIds(rules, nextId) && i < |rules|
    ensures FreshIds(Without(rules, i), nextId)
  {
    var rest := Without(rules, i);
    assert forall j :: 0 <= j < |rest| ==> rest[j] == rules[if j < i then j else j + 1];
  }

  lemma ChangeKeepsFresh(rules: seq<Rule>, nextId: uint32, i: nat, r: Rule)
    requires FreshIds(rules, nextId) && i < |rules| && r.id == rules[i].id
    ensures FreshIds(rules[i := r], nextId)
  {
  }

  lemma RelocationKeepsFresh(rules: seq<Rule>, nextId: uint32, i: nat, p: nat)
    requires FreshIds(rules, nextId) && i < |rules| && p > 0
    ensures FreshIds(Relocated(rules, i, p), nextId)
  {
    var rest, r, k := Without(rules, i), Relocated(rules, i, p), Min(p - 1, |rules| - 1);
    WithoutKeepsFresh(rules, nextId, i);
    forall j | 0 <= j < |rest|
      ensures rest[j].id != rules[i].id
    {
      assert rest[j] == rules[if j < i then j else j + 1];
    }
    forall j | 0 <= j < |r|
      ensures r[j] == if j < k then rest[j] else if j == k then rules[i] else rest[j - 1]
    {
    }
  }

  lemma RelocationPermutes<T>(s: seq<T>, i: nat, p: nat)
    requires i < |s| && p > 0
    ensures multiset(Relocated(s, i, p)) == multiset(s)
  {
    var rest, k := Without(s, i), Min(p - 1, |s| - 1);
    assert multiset(s) == multiset(rest) + multiset{s[i]} by {
      assert s == s[..i] + [s[i]] + s[i + 1..];
    }
    assert multiset(rest) == multiset(rest[..k]) + multiset(rest[k..]) by {
      assert rest == rest[..k] + rest[k..];
    }
  }

  /** A move is a permutation that carries item `i` to place `min(p, n)` and keeps the others in order. */
  lemma RelocationMeans<T>(s: seq<T>, i: nat, p: nat)
    requires i < |s| && p > 0
    ensures var r := Relocated(s, i, p); var k := Min(p, |s|) - 1;
            && multiset(r) == multiset(s) && |r| == |s|
            && r[k] == s[i] && Without(r, k) == Without(s, i)
  {
    RelocationPermutes(s, i, p);
    var rest, k := Without(s, i), Min(p, |s|) - 1;
    assert Without(Relocated(s, i, p), k) == rest[..k] + rest[k..] == rest;
  }

  /** When no two rules share an id, the moved rule then reports position `min(p, n)`. */
  lemma MovedRuleReportsItsPosition(rules: seq<Rule>, i: nat, p: nat)
    requires i < |rules| && p > 0
    requires forall j, l :: 0 <= j < l < |rules| ==> rules[j].id != rules[l].id
    ensures Position(Relocated(rules, i, p), rules[i].id) + 1 == Min(p, |rules|)
  {
    var r, k := Relocated(rules, i, p), Min(p, |rules|) - 1;
    forall j | 0 <= j < k
      ensures r[j].id != rules[i].id
    {
      assert r[j] == Without(rules, i)[j];
    }
    FirstIndexIs(r, (x: Rule) => x.id == rules[i].id, k);
  }

  lemma RelocationKeepsEnabled(rules: seq<Rule>, i: nat, p: nat)
    requires i < |rules| && p > 0
    ensures AnyEnabled(Relocated(rules, i, p)) == AnyEnabled(rules)
  {
    RelocationMeans(rules, i, p);
    var r := Relocated(rules, i, p);
    assert AnyEnabled(rules) ==> AnyEnabled(r) by {
      if AnyEnabled(rules) {
        var j :| 0 <= j < |rules| && rules[j].enabled;
        assert rules[j] in multiset(r);
      }
    }
    assert AnyEnabled(r) ==> AnyEnabled(rules) by {
      if AnyEnabled(r) {
        var j :| 0 <= j < |r| && r[j].enabled;
        assert r[j] in multiset(rules);
      }
    }
  }

  /** `FollowsNull`: the call dereferences a null list head. */
  datatype Move = Moved | Refused | FollowsNull

  class RuleList {
    const chain: Chain<Rule>
    var nextId: uint32
    var hasActive: bool
    ghost var Repr: set<object>

    /** The cached flag tells the truth about the list. */
    ghost predicate Valid()
      reads this, Repr
      ensures Valid() ==> this in Repr
    {
      WellFormed() && hasActive == AnyEnabled(chain.items)
    }

    /** Ids are positive, below the next one to hand out, and no two rules share one. */
    ghost predicate Fresh()
      reads this, chain
    {
      FreshIds(chain.items, nextId)
    }

    ghost predicate WellFormed()
      reads this, Repr
    {
      this in Repr && chain in Repr && chain.Repr <= Repr && this !in chain.Repr && chain.Valid()
    }

    constructor ()
      ensures Valid() && fresh(Repr) && chain.items == [] && nextId == 1 && Fresh()
    {
      chain := new Chain<Rule>();
      nextId, hasActive := 1, false;
      new;
      Repr := {this} + chain.Repr;
    }

    method UpdateHasActive()
      requires WellFormed()
      modifies this`hasActive
      ensures Valid() && chain.items == old(chain.items)
    {
      hasActive := false;
      var n := chain.head;
      ghost var i := 0;
      while n != null
        invariant i <= |chain.nodes| && n == chain.At(i) && !hasActive
        invariant forall j :: 0 <= j < i ==> !chain.items[j].enabled
        decreases |chain.nodes| - i
      {
        if n.val.enabled {
          hasActive := true;
          assert chain.items[i].enabled;
          break;
        }
        n, i := n.next, i + 1;
      }
    }

    /** The part of an addition that runs under the lock. */
    method Enlist(rule: Rule)
      requires Valid()
      modifies Repr
      ensures Valid() && fresh(Repr - old(Repr)) && nextId == old(nextId)
      ensures chain.items == [rule] + old(chain.items)
    {
      chain.PushFront(rule);
      Repr := Repr + chain.Repr;
      UpdateHasActive();
    }

    /** `ruleRoom` and `textRoom` say whether the record and its strings could be allocated; the id is
        consumed before the strings are copied. */
    method AddRule(process: Option<string>, hosts: Option<string>, ports: Option<string>, protocol: RuleProtocol,
                   action: RuleAction, ruleRoom: bool, textRoom: bool) returns (id: uint32)
      requires Valid()
      modifies Repr
      ensures Valid() && fresh(Repr - old(Repr))
      ensures var named := process.Some? && process.value != "";
              && nextId == (if named && ruleRoom then NextAfter(old(nextId)) else old(nextId))
              && id == (if named && ruleRoom && textRoom then old(nextId) else 0)
              && chain.items == (if named && ruleRoom && textRoom then
                                   [Rule(id, Truncated(process.value), OrStar(hosts), OrStar(ports),
                                         protocol, action, true)]
                                   + old(chain.items)
                                 else old(chain.items))
      ensures old(Fresh()) && |chain.items| > |old(chain.items)| ==> (Fresh() <==> 0 < old(nextId) < 0xFFFF_FFFF)
      ensures old(Fresh()) && chain.items == old(chain.items) && old(nextId) < 0xFFFF_FFFF ==> Fresh()
    {
      if process.None? || process.value == "" || !ruleRoom {
        return 0;
      }
      id := nextId;
      nextId := NextAfter(nextId);
      var rule := Rule(id, Truncated(process.value), OrStar(hosts), OrStar(ports), protocol, action, true);
      if old(Fresh()) {
        AddKeepsFreshIff(chain.items, id, rule);
      }
      if !textRoom {
        return 0;
      }
      Enlist(rule);
    }

    /** Rewrites the rule with the given id in place; the first one, should ids have wrapped. */
    method Rewrite(id: uint32, change: Rule -> Rule) returns (ok: bool)
      requires Valid()
      requires forall r :: change(r).id == r.id
      modifies Repr
      ensures Valid() && Repr == old(Repr) && nextId == old(nextId)
      ensures ok == (Position(old(chain.items), id) < |old(chain.items)|)
      ensures var i := Position(old(chain.items), id);
              chain.items == if ok then old(chain.items)[i := change(old(chain.items)[i])] else old(chain.items)
      ensures old(Fresh()) ==> Fresh()
    {
      var n, i := chain.Find((r: Rule) => r.id == id);
      FirstIndexIs(chain.items, (r: Rule) => r.id == id, i);
      ok := n != null;
      if n != null {
        if Fresh() {
          ChangeKeepsFresh(chain.items, nextId, i, change(n.val));
        }
        chain.SetValue(n, i, change(n.val));
        UpdateHasActive();
      }
    }

    method EnableRule(id: uint32) returns (ok: bool)
      requires Valid()
      modifies Repr
      ensures Valid() && Repr == old(Repr) && nextId == old(nextId)
      ensures var i := Position(old(chain.items), id);
              && ok == (id != 0 && i < |old(chain.items)|)
              && chain.items == if ok then old(chain.items)[i := old(chain.items)[i].(enabled := true)]
                                else old(chain.items)
      ensures old(Fresh()) ==> Fresh()
    {
      if id == 0 {
        return false;
      }
      ok := Rewrite(id, (r: Rule) => r.(enabled := true));
    }

    method DisableRule(id: uint32) returns (ok: bool)
      requires Valid()
      modifies Repr
      ensures Valid() && Repr == old(Repr) && nextId == old(nextId)
      ensures var i := Position(old(chain.items), id);
              && ok == (id != 0 && i < |old(chain.items)|)
              && chain.items == if ok then old(chain.items)[i := old(chain.items)[i].(enabled := false)]
                                else old(chain.items)
      ensures old(Fresh()) ==> Fresh()
    {
      if id == 0 {
        return false;
      }
      ok := Rewrite(id, (r: Rule) => r.(enabled := false));
    }

    method EditRule(id: uint32, process: Option<string>, hosts: Option<string>, ports: Option<string>,
                    protocol: RuleProtocol, action: RuleAction, room: bool) returns (ok: bool)
      requires Valid()
      modifies Repr
      ensures Valid() && Repr == old(Repr) && nextId == old(nextId)
      ensures var i := Position(old(chain.items), id);
              && ok == (id != 0 && process.Some? && hosts.Some? && ports.Some? && room && i < |old(chain.items)|)
              && chain.items == if ok then var r := old(chain.items)[i];
                                  old(chain.items)[i := Rule(r.id, Truncated(process.value), hosts.value, ports.value,
                                                             protocol, action, r.enabled)]
                                else old(chain.items)
      ensures old(Fresh()) ==> Fresh()
    {
      if id == 0 || process.None? || hosts.None? || ports.None? || !room {
        return false;
      }
      ok := Rewrite(id,
          (r: Rule) => Rule(r.id, Truncated(process.value), hosts.value, ports.value, protocol, action, r.enabled));
    }

    method DeleteRule(id: uint32) returns (ok: bool)
      requires Valid()
      modifies Repr
      ensures Valid() && Repr == old(Repr) && nextId == old(nextId)
      ensures ok == (id != 0 && Position(old(chain.items), id) < |old(chain.items)|)
      ensures chain.items == if ok then Without(old(chain.items), Position(old(chain.items), id)) else old(chain.items)
      ensures old(Fresh()) ==> Fresh()
    {
      if id == 0 {
        return false;
      }
      if Fresh() && Position(chain.items, id) < |chain.items| {
        WithoutKeepsFresh(chain.items, nextId, Position(chain.items, id));
      }
      FirstIndexIs(chain.items, (r: Rule) => r.id == id, Position(chain.items, id));
      ok := chain.RemoveFirst((r: Rule) => r.id == id);
      if ok {
        UpdateHasActive();
      }
    }

    method Stop()
      requires Valid()
      modifies Repr
      ensures Valid() && Repr == old(Repr) && chain.items == [] && nextId == 1 && !hasActive && Fresh()
    {
      chain.Clear();
      hasActive, nextId := false, 1;
    }

    /** The matcher of the C engines: the action of the deciding rule, or DIRECT. */
    method MatchRule(e: Engine, a: Answers, isUdp: bool) returns (action: RuleAction)
      requires Valid() && e != MacOS
      ensures action == Verdict(TwoTier(chain.items, TiersOf(e, a, isUdp, true)))
      ensures || (exists i: nat :: Decides(chain.items, i, e, a, isUdp, true) && chain.items[i].action == action)
              || (NoneDecides(chain.items, e, a, isUdp, true) && action == DIRECT)
    {
      action := Walk(e, a, isUdp);
      ghost var d := DecidingRule(chain.items, e, a, isUdp, true);
    }

    /** Its one pass: the first fully wild rule is set aside while the walk looks for a specific match. */
    method Walk(e: Engine, a: Answers, isUdp: bool) returns (action: RuleAction)
      requires Valid() && e != MacOS
      ensures action == Verdict(TwoTier(chain.items, TiersOf(e, a, isUdp, true)))
    {
      ghost var t, rules := TiersOf(e, a, isUdp, true), chain.items;
      var wildcard: Option<Rule> := None;
      var n := chain.head;
      ghost var i := 0;
      while n != null
        invariant i <= |rules| && n == chain.At(i)
        invariant First(rules, t.Specific) == First(rules[i..], t.Specific)
        invariant First(rules, t.Fallback) == if wildcard.Some? then wildcard else First(rules[i..], t.Fallback)
        decreases |rules| - i
      {
        var rule := n.val;
        assert rule == rules[i];
        assert rules[i..][0] == rule && rules[i..][1..] == rules[i + 1..];
        assert First(rules[i..], t.Specific) == if t.Specific(rule) then Some(rule)
            else First(rules[i + 1..], t.Specific);
        assert First(rules[i..], t.Fallback) == if t.Fallback(rule) then Some(rule)
            else First(rules[i + 1..], t.Fallback);
        n, i := n.next, i + 1;
        if !rule.enabled {
          continue;
        }
        if rule.protocol != BOTH {
          if rule.protocol == TCP && isUdp {
            continue;
          }
          if rule.protocol == UDP && !isUdp {
            continue;
          }
        }
        if AnyProcess(e, rule) {
          var hasIpFilter := rule.hosts != "*";
          var hasPortFilter := rule.ports != "*";
          if hasIpFilter || hasPortFilter {
            if a.hosts(rule) && a.ports(rule) {
              return rule.action;
            }
            continue;
          }
          if wildcard.None? {
            wildcard := Some(rule);
          }
          continue;
        }
        if a.process(rule) {
          if a.hosts(rule) && a.ports(rule) {
            return rule.action;
          }
        }
      }
      if wildcard.Some? {
        return wildcard.value.action;
      }
      return DIRECT;
    }

    /** One-based; 0 when the id is 0 or unknown. */
    method GetRulePosition(id: uint32) returns (position: nat)
      requires Valid()
      ensures var i := Position(chain.items, id);
              position == if id != 0 && i < |chain.items| then i + 1 else 0
    {
      if id == 0 {
        return 0;
      }
      position := 1;
      var n := chain.head;
      ghost var i := 0;
      while n != null
        invariant i <= |chain.nodes| && n == chain.At(i) && position == i + 1
        invariant forall j :: 0 <= j < i ==> chain.items[j].id != id
        decreases |chain.nodes| - i
      {
        if n.val.id == id {
          FirstIndexIs(chain.items, (r: Rule) => r.id == id, i);
          return;
        }
        position, n, i := position + 1, n.next, i + 1;
      }
      FirstIndexIs(chain.items, (r: Rule) => r.id == id, i);
      return 0;
    }

    /** Takes the rule out and links it back in.  It follows a null list head, and so never returns,
        exactly when the only rule is moved past position 1. */
    method MoveRuleToPosition(id: uint32, newPosition: uint32) returns (r: Move)
      requires Valid()
      modifies Repr
      ensures WellFormed() && Repr == old(Repr) && nextId == old(nextId)
      ensures var i := Position(old(chain.items), id);
              var found := id != 0 && newPosition != 0 && i < |old(chain.items)|;
              && (r == FollowsNull <==> found && |old(chain.items)| == 1 && newPosition > 1)
              && (r == Refused <==> !found)
              && (r == Refused ==> chain.items == old(chain.items))
              && (r == Moved ==> chain.items == Relocated(old(chain.items), i, newPosition))
      ensures r != FollowsNull ==> Valid()
      ensures r != FollowsNull && old(Fresh()) ==> Fresh()
      ensures r == Moved && old(Fresh()) ==> Position(chain.items, id) + 1 == Min(newPosition, |chain.items|)
    {
      if id == 0 || newPosition == 0 {
        return Refused;
      }
      var rule, i := Detach(id);
      if rule == null {
        return Refused;
      }
      var linked := InsertAt(rule, newPosition);
      if !linked {
        return FollowsNull;
      }
      RelocationKeepsEnabled(old(chain.items), i, newPosition);
      if old(Fresh()) {
        RelocationKeepsFresh(old(chain.items), nextId, i, newPosition);
        MovedRuleReportsItsPosition(old(chain.items), i, newPosition);
        RelocationMeans(old(chain.items), i, newPosition);
      }
      r := Moved;
    }

    /** Unlinks the rule with the given id and hands over its node. */
    method Detach(id: uint32) returns (rule: Node?<Rule>, ghost i: nat)
      requires WellFormed()
      modifies chain.Repr
      ensures WellFormed() && chain.Repr == old(chain.Repr)
      ensures i == Position(old(chain.items), id) && (rule != null <==> i < |old(chain.items)|)
      ensures rule == null ==> chain.items == old(chain.items)
      ensures rule != null ==>
                && chain.items == Without(old(chain.items), i) && rule.val == old(chain.items)[i]
                && rule in chain.Repr && rule !in chain.nodes
    {
      var prev: Node?<Rule>;
      prev, rule, i := null, chain.head, 0;
      while rule != null && rule.val.id != id
        invariant i <= |chain.nodes| && rule == chain.At(i)
        invariant if i == 0 then prev == null else prev == chain.At(i - 1)
        invariant forall j :: 0 <= j < i ==> chain.items[j].id != id
        decreases |chain.nodes| - i
      {
        prev, rule, i := rule, rule.next, i + 1;
      }
      FirstIndexIs(chain.items, (r: Rule) => r.id == id, i);
      if rule != null {
        chain.Unlink(prev, rule, i);
      }
    }

    /** Links the detached node behind the last one. */
    method Append(rule: Node<Rule>)
      requires WellFormed() && chain.items != []
      requires rule in chain.Repr && rule !in chain.nodes
      modifies chain.Repr
      ensures WellFormed() && chain.Repr == old(chain.Repr)
      ensures chain.items == old(chain.items) + [old(rule.val)]
    {
      var current := chain.head;
      ghost var j := 0;
      while current.next != null
        invariant j < |chain.nodes| && current == chain.At(j) && current != null
        decreases |chain.nodes| - j
      {
        current, j := current.next, j + 1;
      }
      chain.LinkAfter(current, rule, j);
    }

    /** `linked` is false when there is no list head to walk from. */
    method InsertAt(rule: Node<Rule>, newPosition: uint32) returns (linked: bool)
      requires WellFormed() && newPosition > 0
      requires rule in chain.Repr && rule !in chain.nodes
      modifies chain.Repr
      ensures WellFormed() && chain.Repr == old(chain.Repr)
      ensures linked <==> newPosition == 1 || old(chain.items) != []
      ensures linked ==> chain.items == Inserted(old(chain.items), old(rule.val), newPosition)
    {
      if newPosition == 1 {
        chain.LinkFront(rule);
        return true;
      }
      var current := chain.head;
      var pos := 1;
      while current != null && pos < newPosition - 1
        invariant 1 <= pos <= newPosition - 1 && pos - 1 <= |chain.nodes| && current == chain.At(pos - 1)
        decreases newPosition - pos
      {
        current, pos := current.next, pos + 1;
      }
      if current == null {
        if chain.head == null {
          return false;
        }
        Append(rule);
      } else {
        chain.LinkAfter(current, rule, pos - 1);
      }
      linked := true;
    }
  }
}
