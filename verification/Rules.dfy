/** The rule engine: what a list of rules means, how each engine classifies rules, and the one-pass
    matcher of the macOS extension. */
module Rules {
  import opened Net
  import opened Chains

  datatype Rule = Rule(id: uint32, process: string, hosts: string, ports: string,
                       protocol: RuleProtocol, action: RuleAction, enabled: bool)

  /** What the process, host and port list matchers say of each rule for the connection at hand; the
      results below hold whatever they say. */
  datatype Answers = Answers(process: Rule -> bool, hosts: Rule -> bool, ports: Rule -> bool)

  // ---------- the meaning of a rule list ----------

  /** How an engine classifies a rule for one connection. */
  datatype Tiers = Tiers(live: Rule -> bool, wild: Rule -> bool, hits: Rule -> bool) {
    predicate Specific(r: Rule) { live(r) && !wild(r) && hits(r) }
    predicate Fallback(r: Rule) { live(r) && wild(r) }
  }

  function First<T>(s: seq<T>, p: T -> bool): Option<T> {
    if s == [] then None else if p(s[0]) then Some(s[0]) else First(s[1..], p)
  }

  /** `First` is the item at the first index where `p` holds. */
  lemma {:induction false} FirstIsAtFirstIndex<T>(s: seq<T>, p: T -> bool)
    ensures First(s, p) == if FirstIndex(s, p) < |s| then Some(s[FirstIndex(s, p)]) else None
  {
    if s != [] {
      FirstIsAtFirstIndex(s[1..], p);
    }
  }

  /** The first specific match wins; only when there is none does the first fully wild rule apply. */
  function TwoTier(rules: seq<Rule>, t: Tiers): Option<Rule> {
    var specific := First(rules, t.Specific);
    if specific.Some? then specific else First(rules, t.Fallback)
  }

  lemma {:induction false} FirstSame<T>(s: seq<T>, p: T -> bool, q: T -> bool)
    requires forall i :: 0 <= i < |s| ==> p(s[i]) == q(s[i])
    ensures First(s, p) == First(s, q)
  {
    if s != [] {
      FirstSame(s[1..], p, q);
    }
  }

  lemma {:induction false} FirstAppend<T>(s: seq<T>, t: seq<T>, p: T -> bool)
    ensures First(s + t, p) == if First(s, p).Some? then First(s, p) else First(t, p)
  {
    if s == [] {
      assert s + t == t;
    } else {
      FirstAppend(s[1..], t, p);
      assert (s + t)[1..] == s[1..] + t;
    }
  }

  /** The first item with property `p` survives dropping items that lack it. */
  lemma {:induction false} FirstSurvives<T>(s: seq<T>, drop: T -> bool, p: T -> bool)
    requires forall i :: 0 <= i < |s| && p(s[i]) ==> !drop(s[i])
    ensures First(Kept(s, drop), p) == First(s, p)
  {
    if s != [] {
      FirstSurvives(s[1..], drop, p);
      FirstAppend(if drop(s[0]) then [] else [s[0]], Kept(s[1..], drop), p);
    }
  }

  lemma {:induction false} NoneLeft<T>(s: seq<T>, drop: T -> bool, p: T -> bool)
    requires forall i :: 0 <= i < |s| && p(s[i]) ==> drop(s[i])
    ensures First(Kept(s, drop), p) == None
  {
    if s != [] {
      NoneLeft(s[1..], drop, p);
      FirstAppend(if drop(s[0]) then [] else [s[0]], Kept(s[1..], drop), p);
    }
  }

  /** Stably moving every fully wild rule behind all others changes no decision. */
  lemma WildRulesMayGoLast(rules: seq<Rule>, t: Tiers, notWild: Rule -> bool)
    requires forall r :: notWild(r) == !t.wild(r)
    ensures TwoTier(Kept(rules, t.wild) + Kept(rules, notWild), t) == TwoTier(rules, t)
  {
    var front, back := Kept(rules, t.wild), Kept(rules, notWild);
    FirstAppend(front, back, t.Specific);
    FirstAppend(front, back, t.Fallback);
    FirstSurvives(rules, t.wild, t.Specific);
    NoneLeft(rules, notWild, t.Specific);
    FirstSurvives(rules, notWild, t.Fallback);
    NoneLeft(rules, t.wild, t.Fallback);
  }

  /** Dropping rules that are not live, disabled ones for instance, changes no decision. */
  lemma DeadRulesMayGo(rules: seq<Rule>, t: Tiers, dead: Rule -> bool)
    requires forall r :: dead(r) ==> !t.live(r)
    ensures TwoTier(Kept(rules, dead), t) == TwoTier(rules, t)
  {
    FirstSurvives(rules, dead, t.Specific);
    FirstSurvives(rules, dead, t.Fallback);
  }

  // ---------- how each engine classifies ----------

  datatype Engine = Linux | Windows | MacOS

  function Lower(c: char): char {
    if 'A' <= c <= 'Z' then (c as int + 32) as char else c
  }

  predicate EqualIgnoringCase(s: string, t: string) {
    |s| == |t| && (s == "" || (Lower(s[0]) == Lower(t[0]) && EqualIgnoringCase(s[1..], t[1..])))
  }

  predicate AnyProcess(e: Engine, r: Rule) {
    || r.process == "*"
    || match e
       case Linux => EqualIgnoringCase(r.process, "ANY")
       case Windows => r.process == "ANY"
       case MacOS => r.process == ""
  }

  predicate Unfiltered(e: Engine, filter: string) {
    filter == "*" || (e == MacOS && filter == "")
  }

  predicate FullyWild(e: Engine, r: Rule) {
    AnyProcess(e, r) && Unfiltered(e, r.hosts) && Unfiltered(e, r.ports)
  }

  predicate Compatible(p: RuleProtocol, isUdp: bool) {
    p == BOTH || (p == UDP <==> isUdp)
  }

  /** `checkIpPort` is false only for macOS UDP flows, whose destination is not yet known: then process
      rules match on the process alone and filtered wildcards are passed over. */
  function TiersOf(e: Engine, a: Answers, isUdp: bool, checkIpPort: bool): Tiers {
    Tiers((r: Rule) => r.enabled && Compatible(r.protocol, isUdp),
          (r: Rule) => FullyWild(e, r),
          (r: Rule) => if checkIpPort then (AnyProcess(e, r) || a.process(r)) && a.hosts(r) && a.ports(r)
               else !AnyProcess(e, r) && a.process(r))
  }

  function Verdict(r: Option<Rule>): RuleAction {
    if r.Some? then r.value.action else DIRECT
  }

  // ---------- which rule decides, in plain terms ----------

  /** Linux takes "*" and, in any case of letters, "any" for every process; Windows "*" and "ANY"; macOS "*"
      and the empty text. */
  lemma AnyProcessMeans(e: Engine, r: Rule)
    ensures var p := r.process;
            AnyProcess(e, r) <==>
              || p == "*"
              || (e == Linux && |p| == 3 && p[0] in {'a', 'A'} && p[1] in {'n', 'N'} && p[2] in {'y', 'Y'})
              || (e == Windows && p == "ANY")
              || (e == MacOS && p == "")
  {
    var p := r.process;
    assert "ANY"[1..] == "NY" && "NY"[1..] == "Y" && "Y"[1..] == "";
    if |p| == 3 {
      assert p[1..][0] == p[1] && p[1..][1..][0] == p[2] && p[1..][1..][1..] == "";
      assert EqualIgnoringCase(p[1..][1..], "Y") <==> p[2] in {'y', 'Y'};
      assert EqualIgnoringCase(p[1..], "NY") <==> p[1] in {'n', 'N'} && p[2] in {'y', 'Y'};
      assert e == Windows && p == "ANY" ==> p[0] == 'A';
    }
  }

  /** The rule is enabled and meant for the packet's protocol. */
  predicate Applies(r: Rule, isUdp: bool) {
    r.enabled && (r.protocol == BOTH || r.protocol == (if isUdp then UDP else TCP))
  }

  /** A specific match.  Without address checks only rules for particular processes can match. */
  predicate Matches(e: Engine, a: Answers, isUdp: bool, checkIpPort: bool, r: Rule) {
    && Applies(r, isUdp) && !FullyWild(e, r)
    && if checkIpPort then (AnyProcess(e, r) || a.process(r)) && a.hosts(r) && a.ports(r)
       else !AnyProcess(e, r) && a.process(r)
  }

  predicate Catches(e: Engine, isUdp: bool, r: Rule) { Applies(r, isUdp) && FullyWild(e, r) }

  /** Rule `i` decides: it is the first specific match or, when no rule of the list is one, the first fully
      wild rule. */
  predicate Decides(rules: seq<Rule>, i: nat, e: Engine, a: Answers, isUdp: bool, checkIpPort: bool) {
    && i < |rules|
    && if Matches(e, a, isUdp, checkIpPort, rules[i]) then
         forall j :: 0 <= j < i ==> !Matches(e, a, isUdp, checkIpPort, rules[j])
       else
         && Catches(e, isUdp, rules[i])
         && (forall j :: 0 <= j < |rules| ==> !Matches(e, a, isUdp, checkIpPort, rules[j]))
         && (forall j :: 0 <= j < i ==> !Catches(e, isUdp, rules[j]))
  }

  predicate NoneDecides(rules: seq<Rule>, e: Engine, a: Answers, isUdp: bool, checkIpPort: bool) {
    forall j :: 0 <= j < |rules| ==> !Matches(e, a, isUdp, checkIpPort, rules[j]) && !Catches(e, isUdp, rules[j])
  }

  lemma TiersMean(e: Engine, a: Answers, isUdp: bool, checkIpPort: bool, r: Rule)
    ensures var t := TiersOf(e, a, isUdp, checkIpPort);
            t.Specific(r) == Matches(e, a, isUdp, checkIpPort, r) && t.Fallback(r) == Catches(e, isUdp, r)
  {
  }

  /** The two-tier meaning names the deciding rule: there is one exactly when some rule matches or catches,
      and it is the only one. */
  lemma DecidingRule(rules: seq<Rule>, e: Engine, a: Answers, isUdp: bool, checkIpPort: bool) returns (i: nat)
    ensures var d := TwoTier(rules, TiersOf(e, a, isUdp, checkIpPort));
            match d
            case Some(r) => Decides(rules, i, e, a, isUdp, checkIpPort) && rules[i] == r
            case None => NoneDecides(rules, e, a, isUdp, checkIpPort)
  {
    var t := TiersOf(e, a, isUdp, checkIpPort);
    forall j | 0 <= j < |rules|
      ensures t.Specific(rules[j]) == Matches(e, a, isUdp, checkIpPort, rules[j])
      ensures t.Fallback(rules[j]) == Catches(e, isUdp, rules[j])
    {
      TiersMean(e, a, isUdp, checkIpPort, rules[j]);
    }
    FirstIsAtFirstIndex(rules, t.Specific);
    FirstIsAtFirstIndex(rules, t.Fallback);
    i := FirstIndex(rules, t.Specific);
    if i == |rules| {
      i := FirstIndex(rules, t.Fallback);
    }
  }

  lemma OnlyOneDecides(rules: seq<Rule>, i: nat, j: nat, e: Engine, a: Answers, isUdp: bool, checkIpPort: bool)
    requires Decides(rules, i, e, a, isUdp, checkIpPort) && Decides(rules, j, e, a, isUdp, checkIpPort)
    ensures i == j
  {
  }

  /** Some rule decides, and its action is `action`. */
  ghost predicate ListDecides(rules: seq<Rule>, e: Engine, a: Answers, isUdp: bool, action: RuleAction) {
    exists i: nat :: Decides(rules, i, e, a, isUdp, true) && rules[i].action == action
  }

  /** The verdict on a list is PROXY or BLOCK exactly when the deciding rule says so; else it is DIRECT. */
  lemma VerdictMeans(rules: seq<Rule>, e: Engine, a: Answers, isUdp: bool)
    ensures var verdict := Verdict(TwoTier(rules, TiersOf(e, a, isUdp, true)));
            && (verdict == PROXY <==> ListDecides(rules, e, a, isUdp, PROXY))
            && (verdict == BLOCK <==> ListDecides(rules, e, a, isUdp, BLOCK))
            && (NoneDecides(rules, e, a, isUdp, true) ==> verdict == DIRECT)
  {
    var i := DecidingRule(rules, e, a, isUdp, true);
    forall j: nat | Decides(rules, j, e, a, isUdp, true)
      ensures !NoneDecides(rules, e, a, isUdp, true) && j == i
    {
      if !NoneDecides(rules, e, a, isUdp, true) {
        OnlyOneDecides(rules, i, j, e, a, isUdp, true);
      }
    }
  }

  /** A rule that blocks chrome on port 443 lets chrome reach port 80, on every engine. */
  lemma OtherPortIsNotBlocked(e: Engine, isUdp: bool)
    ensures var r := Rule(1, "chrome", "*", "443", BOTH, BLOCK, true);
            var port80 := Answers(_ => true, _ => true, _ => false);
            var port443 := Answers(_ => true, _ => true, _ => true);
            && Verdict(TwoTier([r], TiersOf(e, port80, isUdp, true))) == DIRECT
            && Verdict(TwoTier([r], TiersOf(e, port443, isUdp, true))) == BLOCK
  {
    var r := Rule(1, "chrome", "*", "443", BOTH, BLOCK, true);
    OneRule(r, TiersOf(e, Answers(_ => true, _ => true, _ => false), isUdp, true));
    OneRule(r, TiersOf(e, Answers(_ => true, _ => true, _ => true), isUdp, true));
  }

  // ---------- engines compared ----------

  /** Engine `e` and macOS take the rule's text alike: both or neither for an any-process rule, and such a
      rule both or neither for fully wild.  They differ on the process "ANY" and on empty texts. */
  predicate ReadAlike(e: Engine, r: Rule) {
    AnyProcess(e, r) == AnyProcess(MacOS, r) && (AnyProcess(e, r) ==> FullyWild(e, r) == FullyWild(MacOS, r))
  }

  /** When the live rules of a list are read alike, engine `e` and the macOS matcher decide alike. */
  lemma EnginesAgree(rules: seq<Rule>, e: Engine, a: Answers, isUdp: bool)
    requires forall r :: r in rules && r.enabled && Compatible(r.protocol, isUdp) ==> ReadAlike(e, r)
    ensures TwoTier(rules, TiersOf(e, a, isUdp, true)) == TwoTier(rules, TiersOf(MacOS, a, isUdp, true))
  {
    var t, u := TiersOf(e, a, isUdp, true), TiersOf(MacOS, a, isUdp, true);
    forall i | 0 <= i < |rules|
      ensures t.Specific(rules[i]) == u.Specific(rules[i]) && t.Fallback(rules[i]) == u.Fallback(rules[i])
    {
      assert rules[i] in rules;
    }
    FirstSame(rules, t.Specific, u.Specific);
    FirstSame(rules, t.Fallback, u.Fallback);
  }

  ghost predicate DecideAlike(rules: seq<Rule>, e: Engine, isUdp: bool) {
    forall a :: TwoTier(rules, TiersOf(e, a, isUdp, true)) == TwoTier(rules, TiersOf(MacOS, a, isUdp, true))
  }

  lemma NoneFirst<T>(s: seq<T>, p: T -> bool)
    requires forall i :: 0 <= i < |s| ==> !p(s[i])
    ensures First(s, p) == None
  {
    FirstIsAtFirstIndex(s, p);
  }

  lemma FirstHolds<T>(s: seq<T>, p: T -> bool)
    ensures First(s, p).Some? ==> p(First(s, p).value)
  {
    FirstIsAtFirstIndex(s, p);
  }

  lemma FirstHere<T>(s: seq<T>, p: T -> bool, i: nat)
    requires i < |s| && p(s[i]) && forall j :: 0 <= j < i ==> !p(s[j])
    ensures First(s, p) == Some(s[i])
  {
    FirstIndexIs(s, p, i);
    FirstIsAtFirstIndex(s, p);
  }

  /** A live fully wild rule stands before place `i`. */
  predicate WildBefore(rules: seq<Rule>, i: nat, t: Tiers)
    requires i <= |rules|
  {
    exists j :: 0 <= j < i && t.Fallback(rules[j])
  }

  /** Only rule `r` is ever matched: by process, and by host and port, as given. */
  function Only(r: Rule, process: bool, hostAndPort: bool): Answers {
    Answers((x: Rule) => x == r && process, (x: Rule) => x == r && hostAndPort, (x: Rule) => x == r && hostAndPort)
  }

  /** The live rule at `i` is the first that the two engines do not read alike. */
  ghost predicate FirstUnlike(rules: seq<Rule>, e: Engine, isUdp: bool, i: nat) {
    && i < |rules| && rules[i].enabled && Compatible(rules[i].protocol, isUdp) && !ReadAlike(e, rules[i])
    && forall j :: 0 <= j < i && rules[j].enabled && Compatible(rules[j].protocol, isUdp) ==> ReadAlike(e, rules[j])
  }

  /** No rule but `r` can be a specific match. */
  lemma OthersNeverHit(x: Engine, r: Rule, process: bool, hostAndPort: bool, isUdp: bool, s: Rule)
    ensures TiersOf(x, Only(r, process, hostAndPort), isUdp, true).Specific(s) ==> s == r
  {
  }

  /** Engine `x` takes the rule for any-process, engine `y` does not, and neither for fully wild: with the
      host and port matchers saying yes and the process matcher no, only `x` decides by it. */
  lemma AnyProcessTells(rules: seq<Rule>, x: Engine, y: Engine, isUdp: bool, i: nat)
    requires i < |rules| && rules[i].enabled && Compatible(rules[i].protocol, isUdp)
    requires AnyProcess(x, rules[i]) && !AnyProcess(y, rules[i]) && !FullyWild(x, rules[i])
    requires forall j :: 0 <= j < i ==> rules[j] != rules[i]
    ensures var a := Only(rules[i], false, true);
            TwoTier(rules, TiersOf(x, a, isUdp, true)) != TwoTier(rules, TiersOf(y, a, isUdp, true))
  {
    var r := rules[i];
    var a := Only(r, false, true);
    var t, u := TiersOf(x, a, isUdp, true), TiersOf(y, a, isUdp, true);
    FirstHere(rules, t.Specific, i);
    NoneFirst(rules, u.Specific);
    FirstHolds(rules, u.Fallback);
  }

  /** Engine `x` takes the rule for fully wild and engine `y` does not, behind another fully wild rule: when
      all matchers say yes, `y` decides by it and `x` by the earlier one. */
  lemma WildBehindWildTells(rules: seq<Rule>, x: Engine, y: Engine, isUdp: bool, i: nat)
    requires i < |rules| && rules[i].enabled && Compatible(rules[i].protocol, isUdp)
    requires FullyWild(x, rules[i]) && !FullyWild(y, rules[i])
    requires forall j :: 0 <= j < i ==> rules[j] != rules[i]
    requires WildBefore(rules, i, TiersOf(x, Only(rules[i], true, true), isUdp, true))
    ensures var a := Only(rules[i], true, true);
            TwoTier(rules, TiersOf(x, a, isUdp, true)) != TwoTier(rules, TiersOf(y, a, isUdp, true))
  {
    var r := rules[i];
    var a := Only(r, true, true);
    var t, u := TiersOf(x, a, isUdp, true), TiersOf(y, a, isUdp, true);
    NoneFirst(rules, t.Specific);
    FirstIsAtFirstIndex(rules, t.Fallback);
    var j :| 0 <= j < i && t.Fallback(rules[j]);
    assert FirstIndex(rules, t.Fallback) <= j;
    FirstHere(rules, u.Specific, i);
  }

  /** Engine `x` takes the rule for fully wild and engine `y` does not, and no fully wild rule stands before
      it: when all matchers say no, only `x` decides by it. */
  lemma FirstWildTells(rules: seq<Rule>, x: Engine, y: Engine, isUdp: bool, i: nat)
    requires i < |rules| && rules[i].enabled && Compatible(rules[i].protocol, isUdp)
    requires FullyWild(x, rules[i]) && !FullyWild(y, rules[i])
    requires !WildBefore(rules, i, TiersOf(x, Only(rules[i], false, false), isUdp, true))
    ensures var a := Only(rules[i], false, false);
            TwoTier(rules, TiersOf(x, a, isUdp, true)) != TwoTier(rules, TiersOf(y, a, isUdp, true))
  {
    var a := Only(rules[i], false, false);
    var t, u := TiersOf(x, a, isUdp, true), TiersOf(y, a, isUdp, true);
    NoneFirst(rules, t.Specific);
    NoneFirst(rules, u.Specific);
    FirstHere(rules, t.Fallback, i);
    FirstHolds(rules, u.Fallback);
  }

  /** Answers of the matchers on which a list with a live rule that is not read alike is decided differently. */
  lemma UnlikeTells(rules: seq<Rule>, e: Engine, isUdp: bool, i: nat) returns (a: Answers)
    requires FirstUnlike(rules, e, isUdp, i)
    ensures TwoTier(rules, TiersOf(e, a, isUdp, true)) != TwoTier(rules, TiersOf(MacOS, a, isUdp, true))
  {
    var r := rules[i];
    if FullyWild(e, r) == FullyWild(MacOS, r) {
      a := Only(r, false, true);
      if AnyProcess(e, r) {
        AnyProcessTells(rules, e, MacOS, isUdp, i);
      } else {
        AnyProcessTells(rules, MacOS, e, isUdp, i);
      }
    } else {
      var x, y := if FullyWild(e, r) then e else MacOS, if FullyWild(e, r) then MacOS else e;
      if WildBefore(rules, i, TiersOf(x, Only(r, true, true), isUdp, true)) {
        a := Only(r, true, true);
        WildBehindWildTells(rules, x, y, isUdp, i);
      } else {
        a := Only(r, false, false);
        forall j | 0 <= j < i
          ensures !TiersOf(x, a, isUdp, true).Fallback(rules[j])
        {
          assert !TiersOf(x, Only(r, true, true), isUdp, true).Fallback(rules[j]);
        }
        FirstWildTells(rules, x, y, isUdp, i);
      }
    }
  }

  ghost predicate AllReadAlike(rules: seq<Rule>, e: Engine, isUdp: bool) {
    forall i :: 0 <= i < |rules| && rules[i].enabled && Compatible(rules[i].protocol, isUdp) ==> ReadAlike(e, rules[i])
  }

  lemma FindUnlike(rules: seq<Rule>, e: Engine, isUdp: bool) returns (i: nat)
    requires !AllReadAlike(rules, e, isUdp)
    ensures FirstUnlike(rules, e, isUdp, i)
  {
    var unlike := (r: Rule) => r.enabled && Compatible(r.protocol, isUdp) && !ReadAlike(e, r);
    var j :| 0 <= j < |rules| && unlike(rules[j]);
    i := FirstIndex(rules, unlike);
    assert i <= j;
  }

  /** Engine `e` and the macOS matcher decide a list alike, whatever the list matchers answer, exactly when
      they read every live rule of it alike. */
  lemma EnginesAgreeIff(rules: seq<Rule>, e: Engine, isUdp: bool)
    ensures DecideAlike(rules, e, isUdp) <==> AllReadAlike(rules, e, isUdp)
  {
    if AllReadAlike(rules, e, isUdp) {
      forall a
        ensures TwoTier(rules, TiersOf(e, a, isUdp, true)) == TwoTier(rules, TiersOf(MacOS, a, isUdp, true))
      {
        EnginesAgree(rules, e, a, isUdp);
      }
    } else {
      var i := FindUnlike(rules, e, isUdp);
      var a := UnlikeTells(rules, e, isUdp, i);
    }
  }

  /** A live rule on its own is decided alike exactly when it is read alike. */
  lemma EnginesAgreeOnRuleIff(r: Rule, e: Engine, isUdp: bool)
    requires r.enabled && Compatible(r.protocol, isUdp)
    ensures DecideAlike([r], e, isUdp) <==> ReadAlike(e, r)
  {
    EnginesAgreeIff([r], e, isUdp);
    assert [r][0] == r;
  }

  /** A rule for process "ANY" blocks everything on Linux, and on macOS nothing but a process of that name. */
  lemma AnyMeansDifferentThings(a: Answers, isUdp: bool)
    ensures var r := Rule(1, "ANY", "*", "*", BOTH, BLOCK, true);
            && Verdict(TwoTier([r], TiersOf(Linux, a, isUdp, true))) == BLOCK
            && (!a.process(r) ==> Verdict(TwoTier([r], TiersOf(MacOS, a, isUdp, true))) == DIRECT)
            && !DecideAlike([r], Linux, isUdp)
  {
    var r := Rule(1, "ANY", "*", "*", BOTH, BLOCK, true);
    assert "ANY"[1..] == "NY" && "NY"[1..] == "Y" && "Y"[1..] == "";
    assert EqualIgnoringCase("Y", "Y");
    assert EqualIgnoringCase("NY", "NY");
    assert AnyProcess(Linux, r) && !AnyProcess(MacOS, r);
    OneRule(r, TiersOf(Linux, a, isUdp, true));
    OneRule(r, TiersOf(MacOS, a, isUdp, true));
    EnginesAgreeIff([r], Linux, isUdp);
    assert [r][0] == r;
  }

  lemma OneRule(r: Rule, t: Tiers)
    ensures TwoTier([r], t) == if t.Specific(r) || t.Fallback(r) then Some(r) else None
  {
    FirstOfOne(r, t.Specific);
    FirstOfOne(r, t.Fallback);
  }

  lemma FirstOfOne<T>(x: T, p: T -> bool)
    ensures First([x], p) == if p(x) then Some(x) else None
  {
    assert [x][1..] == [] && First([], p) == None;
  }

  predicate AnyEnabled(rules: seq<Rule>) { exists i :: 0 <= i < |rules| && rules[i].enabled }

  lemma NoEnabledRuleMeansDirect(rules: seq<Rule>, e: Engine, a: Answers, isUdp: bool, checkIpPort: bool)
    requires !AnyEnabled(rules)
    ensures TwoTier(rules, TiersOf(e, a, isUdp, checkIpPort)) == None
  {
    FirstIsAtFirstIndex(rules, TiersOf(e, a, isUdp, checkIpPort).Specific);
    FirstIsAtFirstIndex(rules, TiersOf(e, a, isUdp, checkIpPort).Fallback);
  }

  /** The macOS matcher: one pass over a copy of the rule array. */
  method FindMatchingRule(rules: seq<Rule>, a: Answers, isUdp: bool, checkIpPort: bool) returns (r: Option<Rule>)
    ensures r == TwoTier(rules, TiersOf(MacOS, a, isUdp, checkIpPort))
    ensures r.Some? ==> exists i: nat :: Decides(rules, i, MacOS, a, isUdp, checkIpPort) && rules[i] == r.value
    ensures r.None? ==> NoneDecides(rules, MacOS, a, isUdp, checkIpPort)
  {
    ghost var d := DecidingRule(rules, MacOS, a, isUdp, checkIpPort);
    ghost var t := TiersOf(MacOS, a, isUdp, checkIpPort);
    var wildcardRule := None;
    for i := 0 to |rules|
      invariant First(rules, t.Specific) == First(rules[i..], t.Specific)
      invariant First(rules, t.Fallback) == if wildcardRule.Some? then wildcardRule else First(rules[i..], t.Fallback)
    {
      var rule := rules[i];
      assert rules[i..][0] == rule && rules[i..][1..] == rules[i + 1..];
      assert First(rules[i..], t.Specific) == if t.Specific(rule) then Some(rule)
          else First(rules[i + 1..], t.Specific);
      assert First(rules[i..], t.Fallback) == if t.Fallback(rule) then Some(rule)
          else First(rules[i + 1..], t.Fallback);
      if !rule.enabled {
        continue;
      }
      if rule.protocol != BOTH && rule.protocol != (if isUdp then UDP else TCP) {
        continue;
      }
      if rule.process == "*" || rule.process == "" {
        var hasIpFilter := rule.hosts != "*" && rule.hosts != "";
        var hasPortFilter := rule.ports != "*" && rule.ports != "";
        if hasIpFilter || hasPortFilter {
          if checkIpPort && a.hosts(rule) && a.ports(rule) {
            return Some(rule);
          }
          continue;
        }
        if wildcardRule.None? {
          wildcardRule := Some(rule);
        }
        continue;
      }
      if a.process(rule) {
        if checkIpPort {
          if a.hosts(rule) && a.ports(rule) {
            return Some(rule);
          }
        } else {
          return Some(rule);
        }
      }
    }
    return wildcardRule;
  }
}
