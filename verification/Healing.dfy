/**
  What a reconcile is for. The fault-free outcome has a closed form, `Goal`; every step of a
  reconcile, whatever fails after it, leaves `Goal` as it was. Convergence, idempotence and
  crash recovery follow from these two facts.
*/
module Healing {
  import opened Domain
  import opened Kernel
  import opened Provider

  // ---------- time ----------

  lemma QuietLater(e: Env, e': Env)
    requires e.Quiet() && e.Before(e')
    ensures e'.Quiet() && !e'.Failing() && !e'.DroppingAll() && !e'.Breaking()
  {
    assert e'.plan(e'.pos).fault.Serves();
  }

  lemma DyingLater(e: Env, e': Env, n: nat)
    requires e.DiesAt(n) && e.Before(e')
    ensures e'.DiesAt(n)
    ensures e'.Failing() <==> n <= e'.pos
    ensures e'.Breaking() <==> n <= e'.pos
    ensures !e'.DroppingAll()
  {
  }

  // ---------- addresses ----------

  function Keep(addrs: seq<Address>, want: Option<Address>): (r: seq<Address>)
    ensures forall a :: a in r ==> Some(a) == want
  {
    if addrs == [] then []
    else (if Some(addrs[0]) == want then [addrs[0]] else []) + Keep(addrs[1..], want)
  }

  /** The address list a successful `ensureAddress` leaves. */
  function Repaired(addrs: seq<Address>, cidr: CidrText, name: Name): seq<Address> {
    WithAddress(Keep(addrs, Wanted(cidr)), cidr, name)
  }

  /** Exactly the stored IPv4 address, under whatever label. */
  predicate AddressIs(addrs: seq<Address>, cidr: CidrText) {
    match cidr
    case Cidr4(ip, prefix) => addrs != [] && forall a :: a in addrs ==> a.ip == ip && a.prefix == prefix
    case _ => addrs == []
  }

  lemma RepairedIsAddress(addrs: seq<Address>, cidr: CidrText, name: Name)
    requires !cidr.BadCidr?
    ensures AddressIs(Repaired(addrs, cidr, name), cidr)
  {
    var kept := Keep(addrs, Wanted(cidr));
    if kept != [] { assert kept[0] in kept; }
  }

  lemma {:induction false} KeepConcat(a: seq<Address>, b: seq<Address>, want: Option<Address>)
    ensures Keep(a + b, want) == Keep(a, want) + Keep(b, want)
  {
    if a == [] {
      assert a + b == b;
    } else {
      assert (a + b)[1..] == a[1..] + b;
      KeepConcat(a[1..], b, want);
    }
  }

  lemma {:induction false} KeepWanted(a: seq<Address>, want: Option<Address>)
    requires forall x :: x in a ==> Some(x) == want
    ensures Keep(a, want) == a
  {
    if a != [] { KeepWanted(a[1..], want); }
  }

  lemma RepairedTwice(addrs: seq<Address>, cidr: CidrText, name: Name)
    ensures Repaired(Repaired(addrs, cidr, name), cidr, name) == Repaired(addrs, cidr, name)
  {
    var kept := Keep(addrs, Wanted(cidr));
    KeepWanted(kept, Wanted(cidr));
    if cidr.Cidr4? && kept == [] {
      var only := Address(cidr.ip, cidr.prefix, name);
      assert Repaired(addrs, cidr, name) == [only];
      assert only in [only] && [only][1..] == [];
      assert Keep([only], Wanted(cidr)) == if name == "" then [only] else [];
    } else if cidr.Cidr4? {
      assert kept[0] in kept;
    }
  }

  lemma {:induction false} RemoveFirstAfter(pre: seq<Address>, todo: seq<Address>)
    requires todo != [] && todo[0] !in pre
    ensures RemoveFirst(pre + todo, todo[0]) == pre + todo[1..]
  {
    if pre == [] {
      assert pre + todo == todo;
    } else {
      assert (pre + todo)[1..] == pre[1..] + todo;
      RemoveFirstAfter(pre[1..], todo);
    }
  }

  lemma KeepHead(addrs: seq<Address>, want: Option<Address>)
    requires addrs != [] && Some(addrs[0]) != want
    ensures Keep(addrs, want) == Keep(addrs[1..], want)
  {
  }

  lemma KeepSkip(pre: seq<Address>, todo: seq<Address>, want: Option<Address>)
    requires todo != [] && Some(todo[0]) != want
    ensures Keep(pre + todo[1..], want) == Keep(pre + todo, want)
  {
    hide Keep;
    KeepHead(todo, want);
    KeepConcat(pre, todo, want);
    KeepConcat(pre, todo[1..], want);
  }

  lemma AddrDelStep(k: Kern, name: Name, pre: seq<Address>, todo: seq<Address>)
    requires name in k.links && k.links[name].addrs == pre + todo
    requires todo != [] && todo[0] !in pre
    ensures var (k1, ok) := k.AddrDel(name, todo[0]);
      && name in k1.links && k1.env == k.env.Next()
      && k1.links[name].addrs == (if ok then pre + todo[1..] else pre + todo)
      && (k.env.Quiet() ==> ok && k1.env.Quiet())
  {
    assert todo[0] in pre + todo by { assert (pre + todo)[|pre|] == todo[0]; }
    RemoveFirstAfter(pre, todo);
    if k.env.Quiet() { QuietLater(k.env, k.env); QuietLater(k.env, k.env.Next()); }
  }

  /** The deletion loop, wherever it stops, never loses or gains a wanted address. */
  lemma {:induction false} DriftDroppedKeeps(
      k: Kern, name: Name, pre: seq<Address>, todo: seq<Address>, want: Option<Address>)
    requires name in k.links && k.links[name].addrs == pre + todo
    requires forall a :: a in pre ==> Some(a) == want
    ensures var (k', ok) := DriftDropped(k, name, todo, want);
      && Keep(k'.links[name].addrs, want) == Keep(pre + todo, want)
      && (ok ==> k'.links[name].addrs == Keep(pre + todo, want))
      && (k.env.Quiet() ==> ok)
    decreases |todo|
  {
    hide LinkFrame, RemoveFirst, Keep;
    if todo == [] {
      KeepWanted(pre, want);
      assert pre + todo == pre;
    } else if Some(todo[0]) == want {
      assert pre + todo == (pre + [todo[0]]) + todo[1..];
      DriftDroppedKeeps(k, name, pre + [todo[0]], todo[1..], want);
    } else {
      AddrDelStep(k, name, pre, todo);
      var (k1, ok) := k.AddrDel(name, todo[0]);
      KeepSkip(pre, todo, want);
      if ok {
        DriftDroppedKeeps(k1, name, pre, todo[1..], want);
        assert DriftDropped(k, name, todo, want) == DriftDropped(k1, name, todo[1..], want);
      } else {
        assert DriftDropped(k, name, todo, want) == (k1, false);
      }
    }
  }

  /**
    From any address list a successful `ensureAddress` leaves exactly the wanted address, and a
    failed one leaves a list from which the next repair ends in the same place.
  */
  lemma AddressRepair(k: Kern, name: Name, cidr: CidrText)
    requires name in k.links
    ensures var (k', err) := AddressEnsured(k, name, cidr);
      && Repaired(k'.links[name].addrs, cidr, name) == Repaired(k.links[name].addrs, cidr, name)
      && (err.None? ==>
        && k'.links[name].addrs == Repaired(k.links[name].addrs, cidr, name)
        && AddressIs(k'.links[name].addrs, cidr))
      && (k.env.Quiet() && !cidr.BadCidr? ==> err.None?)
  {
    hide DriftDropped, Keep, WithAddress, AddressIs;
    var addrs := k.links[name].addrs;
    var (k1, list) := k.AddrList(name);
    if !cidr.BadCidr? && list.Ok? {
      assert [] + addrs == addrs;
      DriftDroppedKeeps(k1, name, [], addrs, Wanted(cidr));
      var (k2, ok) := DriftDropped(k1, name, addrs, Wanted(cidr));
      RepairedTwice(addrs, cidr, name);
      KeepWanted(Keep(addrs, Wanted(cidr)), Wanted(cidr));
      RepairedIsAddress(addrs, cidr, name);
      if k.env.Quiet() { QuietLater(k.env, k1.env); QuietLater(k.env, k2.env); }
    }
    if k.env.Quiet() { QuietLater(k.env, k.env); }
  }

  // ---------- rules ----------

  function WithRule(rules: seq<Rule>, rule: Rule): seq<Rule> {
    if rule in rules then rules else rules + [rule]
  }

  predicate WantsMasquerade(t: Tunnel) { !t.desired.Disabled? && t.masquerade }

  /** The rule list a fault-free `ensureMasquerade` leaves. */
  function GoalRules(rules: seq<Rule>, t: Tunnel, egress: Name, wanted: bool): seq<Rule> {
    var ingress, nat', legacy := IngressRule(t), NatRule(t, egress), LegacyRule(t);
    if wanted then WithRule(WithRule(RemoveFirst(rules, legacy), ingress), nat')
    else RemoveFirst(RemoveFirst(RemoveFirst(rules, ingress), nat'), legacy)
  }

  /** The tunnel's rules are in place, or none of them is; the old form is gone either way. */
  predicate RulesAre(rules: seq<Rule>, t: Tunnel, egress: Name, wanted: bool) {
    && (IngressRule(t) in rules <==> wanted) && (NatRule(t, egress) in rules <==> wanted)
    && LegacyRule(t) !in rules
  }

  /** Taking one copy away leaves none. */
  predicate AtMostOnce(rules: seq<Rule>, rule: Rule) { rule !in RemoveFirst(rules, rule) }

  /** No own rule, old forms included, is there twice. */
  predicate NoDoubles(rules: seq<Rule>, t: Tunnel, egress: Name) {
    && AtMostOnce(rules, IngressRule(t)) && AtMostOnce(rules, NatRule(t, egress))
    && AtMostOnce(rules, LegacyRule(t))
  }

  lemma {:induction false} RemoveFirstMembers(rules: seq<Rule>, gone: Rule, other: Rule)
    ensures other in RemoveFirst(rules, gone) ==> other in rules
    ensures other != gone && other in rules ==> other in RemoveFirst(rules, gone)
    ensures gone !in rules ==> RemoveFirst(rules, gone) == rules
  {
    if rules != [] {
      assert rules == [rules[0]] + rules[1..];
      RemoveFirstMembers(rules[1..], gone, other);
    }
  }

  lemma {:induction false} RemoveFirstAppend(rules: seq<Rule>, added: Rule, gone: Rule)
    ensures RemoveFirst(rules + [added], gone) ==
      if gone in rules then RemoveFirst(rules, gone) + [added]
      else if gone == added then rules
      else rules + [added]
  {
    if rules == [] {
      assert rules + [added] == [added];
    } else {
      assert rules == [rules[0]] + rules[1..];
      assert (rules + [added])[1..] == rules[1..] + [added];
      RemoveFirstAppend(rules[1..], added, gone);
    }
  }

  lemma {:induction false} RemovalsCommute(rules: seq<Rule>, a: Rule, b: Rule)
    ensures RemoveFirst(RemoveFirst(rules, a), b) == RemoveFirst(RemoveFirst(rules, b), a)
  {
    if rules != [] && rules[0] != a && rules[0] != b {
      RemovalsCommute(rules[1..], a, b);
      var ra, rb := RemoveFirst(rules[1..], a), RemoveFirst(rules[1..], b);
      assert ([rules[0]] + ra)[1..] == ra && ([rules[0]] + rb)[1..] == rb;
    }
  }

  lemma RemovedOnce(rules: seq<Rule>, a: Rule)
    requires AtMostOnce(rules, a)
    ensures RemoveFirst(RemoveFirst(rules, a), a) == RemoveFirst(rules, a)
  {
    RemoveFirstMembers(RemoveFirst(rules, a), a, a);
  }

  lemma RemovalKeepsSingle(rules: seq<Rule>, gone: Rule, rule: Rule)
    requires AtMostOnce(rules, rule)
    ensures AtMostOnce(RemoveFirst(rules, gone), rule)
  {
    RemovalsCommute(rules, gone, rule);
    RemoveFirstMembers(RemoveFirst(rules, rule), gone, rule);
  }

  lemma AdditionKeepsSingle(rules: seq<Rule>, added: Rule, rule: Rule)
    requires AtMostOnce(rules, rule)
    ensures AtMostOnce(WithRule(rules, added), rule)
  {
    RemoveFirstAppend(rules, added, rule);
  }

  /** Removing one of three rules early does not change what removing all three leaves. */
  lemma RemovalAbsorbed(rules: seq<Rule>, a: Rule, b: Rule, c: Rule)
    requires AtMostOnce(rules, a) && AtMostOnce(rules, b) && AtMostOnce(rules, c)
    ensures
      var all := RemoveFirst(RemoveFirst(RemoveFirst(rules, a), b), c);
      && RemoveFirst(RemoveFirst(RemoveFirst(RemoveFirst(rules, a), a), b), c) == all
      && RemoveFirst(RemoveFirst(RemoveFirst(RemoveFirst(rules, b), a), b), c) == all
      && RemoveFirst(RemoveFirst(RemoveFirst(RemoveFirst(rules, c), a), b), c) == all
  {
    RemovedOnce(rules, a);
    RemovalsCommute(rules, a, b);
    RemovalKeepsSingle(rules, a, b);
    RemovedOnce(RemoveFirst(rules, a), b);
    RemovalsCommute(rules, a, c);
    RemovalsCommute(RemoveFirst(rules, a), b, c);
    RemovalKeepsSingle(rules, a, c);
    RemovalKeepsSingle(RemoveFirst(rules, a), b, c);
    RemovedOnce(RemoveFirst(RemoveFirst(rules, a), b), c);
  }

  /** Stopping anywhere in the legacy removal `c` and the two additions loses nothing either. */
  lemma AdditionsFromPartial(rules: seq<Rule>, a: Rule, b: Rule, c: Rule)
    requires a != c && b != c && AtMostOnce(rules, c)
    ensures
      var r1 := RemoveFirst(rules, c);
      var r2 := WithRule(r1, a);
      var r3 := WithRule(r2, b);
      && RemoveFirst(r1, c) == r1 && RemoveFirst(r2, c) == r2 && RemoveFirst(r3, c) == r3
      && WithRule(r2, a) == r2 && WithRule(r3, a) == r3 && WithRule(r3, b) == r3
      && c !in r3
  {
    var r1 := RemoveFirst(rules, c);
    AdditionsSettle(r1, a, b, c);
    RemovedOnce(rules, c);
    RemoveFirstMembers(WithRule(r1, a), c, c);
    RemoveFirstMembers(WithRule(WithRule(r1, a), b), c, c);
  }

  lemma AdditionsSettle(rules: seq<Rule>, a: Rule, b: Rule, c: Rule)
    requires a != c && b != c && c !in rules
    ensures
      var r2 := WithRule(rules, a);
      var r3 := WithRule(r2, b);
      && c !in r2 && c !in r3
      && WithRule(r2, a) == r2 && WithRule(r3, a) == r3 && WithRule(r3, b) == r3
  {
  }

  lemma StepKeepsNoDoubles(rules: seq<Rule>, rule: Rule, t: Tunnel, egress: Name)
    requires NoDoubles(rules, t, egress)
    ensures NoDoubles(RemoveFirst(rules, rule), t, egress) && NoDoubles(WithRule(rules, rule), t, egress)
  {
    hide RemoveFirst, WithRule;
    RemovalKeepsSingle(rules, rule, IngressRule(t));
    RemovalKeepsSingle(rules, rule, NatRule(t, egress));
    RemovalKeepsSingle(rules, rule, LegacyRule(t));
    AdditionKeepsSingle(rules, rule, IngressRule(t));
    AdditionKeepsSingle(rules, rule, NatRule(t, egress));
    AdditionKeepsSingle(rules, rule, LegacyRule(t));
  }

  lemma QuietRemove(k: Kern, rule: Rule, marker: string)
    requires rule.Carries(marker) && k.env.Quiet()
    ensures var k' := RuleRemoved(k, rule, marker);
      k'.rules == RemoveFirst(k.rules, rule) && k'.env.Quiet()
  {
    RemoveFirstMembers(k.rules, rule, rule);
    QuietLater(k.env, k.env);
    QuietLater(k.env, k.env.Next());
    QuietLater(k.env, RuleRemoved(k, rule, marker).env);
  }

  lemma QuietEnsure(k: Kern, rule: Rule, marker: string)
    requires rule.Carries(marker) && k.env.Quiet()
    ensures var (k', ok) := RuleEnsured(k, rule, marker);
      ok && k'.rules == WithRule(k.rules, rule) && k'.env.Quiet()
  {
    QuietLater(k.env, k.env);
    QuietLater(k.env, k.env.Next());
    QuietLater(k.env, RuleEnsured(k, rule, marker).0.env);
  }

  lemma QuietMasquerade(k: Kern, t: Tunnel, wanted: bool)
    requires k.env.Quiet() && k.egress.Some?
    ensures var (k', err) := MasqueradeEnsured(k, t, wanted);
      err.None? && k'.rules == GoalRules(k.rules, t, k.egress.value, wanted) && k'.env.Quiet()
  {
    var marker, nat' := Marker(t.id), NatRule(t, k.egress.value);
    QuietLater(k.env, k.env);
    var k1 := k.DefaultRoute().0;
    QuietLater(k.env, k1.env);
    if wanted {
      var k2 := k1.RuleDelete(LegacyRule(t));
      QuietLater(k.env, k2.env);
      QuietEnsure(k2, IngressRule(t), marker);
      QuietEnsure(RuleEnsured(k2, IngressRule(t), marker).0, nat', marker);
    } else {
      QuietRemove(k1, IngressRule(t), marker);
      var k2 := RuleRemoved(k1, IngressRule(t), marker);
      QuietRemove(k2, nat', marker);
      var k3 := RuleRemoved(k2, nat', marker);
      QuietLater(k3.env, k3.env);
      QuietLater(k3.env, k3.env.Next());
    }
  }

  // The removals heal whatever fails; they ignore their errors, so success says nothing of them.

  lemma UnmasqueradeHeals(k: Kern, t: Tunnel)
    requires k.egress.Some? && NoDoubles(k.rules, t, k.egress.value)
    ensures var k' := MasqueradeEnsured(k, t, false).0;
      && NoDoubles(k'.rules, t, k.egress.value)
      && GoalRules(k'.rules, t, k.egress.value, false) == GoalRules(k.rules, t, k.egress.value, false)
  {
    hide RemoveFirst, Foreign, GoalRules, NoDoubles;
    var marker, egress := Marker(t.id), k.egress.value;
    var ingress, nat', legacy := IngressRule(t), NatRule(t, egress), LegacyRule(t);
    var k1, r := k.DefaultRoute().0, k.DefaultRoute().1;
    if r.Some? {
      var k2 := RuleRemoved(k1, ingress, marker);
      var k3 := RuleRemoved(k2, nat', marker);
      RemovalStep(k1.rules, k2.rules, ingress, t, egress);
      RemovalStep(k2.rules, k3.rules, nat', t, egress);
      RemovalStep(k3.rules, k3.RuleDelete(legacy).rules, legacy, t, egress);
    }
  }

  lemma RemovalStep(rules: seq<Rule>, rules': seq<Rule>, rule: Rule, t: Tunnel, egress: Name)
    requires rule in [IngressRule(t), NatRule(t, egress), LegacyRule(t)]
    requires rules' == rules || rules' == RemoveFirst(rules, rule)
    requires NoDoubles(rules, t, egress)
    ensures NoDoubles(rules', t, egress)
    ensures GoalRules(rules', t, egress, false) == GoalRules(rules, t, egress, false)
  {
    StepKeepsNoDoubles(rules, rule, t, egress);
    RemovalAbsorbed(rules, IngressRule(t), NatRule(t, egress), LegacyRule(t));
  }

  // The additions heal when the process dies; a check that alone fails would double a rule.

  lemma DyingEnsure(k: Kern, rule: Rule, marker: string, n: nat)
    requires rule.Carries(marker) && k.env.DiesAt(n)
    ensures var (k', ok) := RuleEnsured(k, rule, marker);
      && k'.env.DiesAt(n)
      && (k'.rules == WithRule(k.rules, rule) || (k'.rules == k.rules && n <= k'.env.pos))
      && (n <= k.env.pos ==> k'.rules == k.rules && !ok)
  {
    DyingLater(k.env, k.env, n);
    DyingLater(k.env, k.env.Next(), n);
    DyingLater(k.env, RuleEnsured(k, rule, marker).0.env, n);
  }

  lemma AdditionStep(rules: seq<Rule>, t: Tunnel, egress: Name)
    requires NoDoubles(rules, t, egress)
    ensures
      var r1 := RemoveFirst(rules, LegacyRule(t));
      var r2 := WithRule(r1, IngressRule(t));
      var r3 := WithRule(r2, NatRule(t, egress));
      && NoDoubles(r1, t, egress) && NoDoubles(r2, t, egress) && NoDoubles(r3, t, egress)
      && GoalRules(rules, t, egress, true) == r3
      && GoalRules(r1, t, egress, true) == r3
      && GoalRules(r2, t, egress, true) == r3
      && GoalRules(r3, t, egress, true) == r3
  {
    hide RemoveFirst;
    AdditionsFromPartial(rules, IngressRule(t), NatRule(t, egress), LegacyRule(t));
    StepKeepsNoDoubles(rules, LegacyRule(t), t, egress);
    var r1 := RemoveFirst(rules, LegacyRule(t));
    StepKeepsNoDoubles(r1, IngressRule(t), t, egress);
    StepKeepsNoDoubles(WithRule(r1, IngressRule(t)), NatRule(t, egress), t, egress);
  }

  lemma DyingMasquerade(k: Kern, t: Tunnel, n: nat)
    requires k.env.DiesAt(n) && k.egress.Some? && NoDoubles(k.rules, t, k.egress.value)
    ensures var k' := MasqueradeEnsured(k, t, true).0;
      && NoDoubles(k'.rules, t, k.egress.value)
      && GoalRules(k'.rules, t, k.egress.value, true) == GoalRules(k.rules, t, k.egress.value, true)
  {
    hide RemoveFirst, Foreign, GoalRules, NoDoubles, WithRule;
    var marker, egress := Marker(t.id), k.egress.value;
    var ingress, nat', legacy := IngressRule(t), NatRule(t, egress), LegacyRule(t);
    var k1, r := k.DefaultRoute().0, k.DefaultRoute().1;
    if r.Some? {
      AdditionStep(k.rules, t, egress);
      var k2 := k1.RuleDelete(legacy);
      DyingLater(k.env, k1.env, n);
      DyingLater(k.env, k2.env, n);
      DyingEnsure(k2, ingress, marker, n);
      DyingEnsure(RuleEnsured(k2, ingress, marker).0, nat', marker, n);
    }
  }

  /** A change of the rules that gets through is a fixpoint, and leaves what was asked for. */
  lemma GoalRulesTwice(rules: seq<Rule>, t: Tunnel, egress: Name, wanted: bool)
    requires NoDoubles(rules, t, egress)
    ensures var goal := GoalRules(rules, t, egress, wanted);
      && GoalRules(goal, t, egress, wanted) == goal && NoDoubles(goal, t, egress)
      && RulesAre(goal, t, egress, wanted)
  {
    hide RemoveFirst;
    var ingress, nat', legacy := IngressRule(t), NatRule(t, egress), LegacyRule(t);
    if wanted {
      AdditionStep(rules, t, egress);
      AdditionsFromPartial(rules, ingress, nat', legacy);
    } else {
      var r1 := RemoveFirst(rules, ingress);
      var r2 := RemoveFirst(r1, nat');
      var r3 := RemoveFirst(r2, legacy);
      RemovalStep(rules, r1, ingress, t, egress);
      RemovalStep(r1, r2, nat', t, egress);
      RemovalStep(r2, r3, legacy, t, egress);
      RemoveFirstMembers(r1, nat', ingress);
      RemoveFirstMembers(r2, legacy, ingress);
      RemoveFirstMembers(r2, legacy, nat');
    }
  }

  // ---------- what success says of the rules ----------

  /** A check and the deletion it leads to leave no copy. */
  predicate Goes(rules: seq<Rule>, rule: Rule, e: Env) {
    rule !in rules || (AtMostOnce(rules, rule) && !e.Failing() && !e.Next().Failing())
  }

  /** A deletion without a check leaves no copy. */
  predicate GoesUnchecked(rules: seq<Rule>, rule: Rule, e: Env) {
    rule !in rules || (AtMostOnce(rules, rule) && !e.Failing())
  }

  function AfterRemoval(e: Env, present: bool): Env {
    if !e.Failing() && present then e.Next().Next() else e.Next()
  }

  /**
    Every own rule that is not wanted goes: the rules as they are, the plan from the first rule
    call on. A check or deletion that fails is a rule that stays.
  */
  predicate Sweeps(rules: seq<Rule>, e: Env, t: Tunnel, egress: Name, wanted: bool) {
    if wanted then GoesUnchecked(rules, LegacyRule(t), e)
    else
      var e1 := AfterRemoval(e, IngressRule(t) in rules);
      var e2 := AfterRemoval(e1, NatRule(t, egress) in rules);
      && Goes(rules, IngressRule(t), e) && Goes(rules, NatRule(t, egress), e1)
      && GoesUnchecked(rules, LegacyRule(t), e2)
  }

  lemma RemovalOfAnother(rules: seq<Rule>, gone: Rule, rule: Rule)
    requires gone != rule
    ensures rule in RemoveFirst(rules, gone) <==> rule in rules
    ensures AtMostOnce(RemoveFirst(rules, gone), rule) <==> AtMostOnce(rules, rule)
  {
    RemoveFirstMembers(rules, gone, rule);
    RemovalsCommute(rules, gone, rule);
    RemoveFirstMembers(RemoveFirst(rules, rule), gone, rule);
  }

  /** Removing a rule works exactly if it was not there, or once and neither call failed. */
  lemma RuleGoesIff(k: Kern, rule: Rule, marker: string)
    requires rule.Carries(marker)
    ensures var k' := RuleRemoved(k, rule, marker);
      && (rule !in k'.rules <==> Goes(k.rules, rule, k.env))
      && (k'.rules == k.rules || k'.rules == RemoveFirst(k.rules, rule))
      && k'.env == AfterRemoval(k.env, rule in k.rules)
  {
    RemoveFirstMembers(k.rules, rule, rule);
  }

  lemma WithdrawnIff(k: Kern, t: Tunnel, egress: Name)
    ensures RulesAre(RulesWithdrawn(k, t, egress).rules, t, egress, false) <==> Sweeps(k.rules, k.env, t, egress, false)
    ensures RulesWithdrawn(k, t, egress).env ==
      AfterRemoval(AfterRemoval(k.env, IngressRule(t) in k.rules), NatRule(t, egress) in k.rules).Next()
  {
    hide RemoveFirst, Foreign, RuleRemoved, AtMostOnce;
    var ingress, nat', legacy, marker := IngressRule(t), NatRule(t, egress), LegacyRule(t), Marker(t.id);
    var k1 := RuleRemoved(k, ingress, marker);
    var k2 := RuleRemoved(k1, nat', marker);
    RuleGoesIff(k, ingress, marker);
    RuleGoesIff(k1, nat', marker);
    RemovalOfAnother(k.rules, ingress, nat');
    RemovalOfAnother(k.rules, ingress, legacy);
    RemovalOfAnother(k1.rules, nat', ingress);
    RemovalOfAnother(k1.rules, nat', legacy);
    RemovalOfAnother(k2.rules, legacy, ingress);
    RemovalOfAnother(k2.rules, legacy, nat');
    LegacyGoesIff(k2, legacy);
  }

  lemma LegacyGoesIff(k: Kern, rule: Rule)
    ensures rule !in k.RuleDelete(rule).rules <==> GoesUnchecked(k.rules, rule, k.env)
    ensures k.RuleDelete(rule).rules in [k.rules, RemoveFirst(k.rules, rule)]
  {
    RemoveFirstMembers(k.rules, rule, rule);
  }

  lemma EnsuredIs(k: Kern, rule: Rule, marker: string, other: Rule)
    requires rule.Carries(marker) && other != rule
    ensures other in RuleEnsured(k, rule, marker).0.rules <==> other in k.rules
  {
  }

  lemma PlacedIff(k: Kern, t: Tunnel, egress: Name)
    requires RulesPlaced(k, t, egress).1.None?
    ensures RulesAre(RulesPlaced(k, t, egress).0.rules, t, egress, true) <==> Sweeps(k.rules, k.env, t, egress, true)
  {
    hide RemoveFirst, Foreign, RuleEnsured, AtMostOnce;
    var k1 := k.RuleDelete(LegacyRule(t));
    LegacyGoesIff(k, LegacyRule(t));
    EnsuredIs(k1, IngressRule(t), Marker(t.id), LegacyRule(t));
    EnsuredIs(RuleEnsured(k1, IngressRule(t), Marker(t.id)).0, NatRule(t, egress), Marker(t.id), LegacyRule(t));
  }

  /** Under every plan: a rule routine that returned without error did its work exactly in this case. */
  lemma MasqueradeIff(k: Kern, t: Tunnel, wanted: bool)
    requires MasqueradeEnsured(k, t, wanted).1.None?
    ensures k.egress.Some?
    ensures RulesAre(MasqueradeEnsured(k, t, wanted).0.rules, t, k.egress.value, wanted)
      <==> Sweeps(k.rules, k.env.Next(), t, k.egress.value, wanted)
  {
    hide RulesAre, Sweeps, RulesWithdrawn, RulesPlaced, Foreign;
    var k1 := k.DefaultRoute().0;
    if wanted { PlacedIff(k1, t, k.egress.value); } else { WithdrawnIff(k1, t, k.egress.value); }
  }

  lemma QuietSweeps(rules: seq<Rule>, e: Env, t: Tunnel, egress: Name, wanted: bool)
    requires e.Quiet() && NoDoubles(rules, t, egress)
    ensures Sweeps(rules, e, t, egress, wanted)
  {
    var e1 := AfterRemoval(e, IngressRule(t) in rules);
    var e2 := AfterRemoval(e1, NatRule(t, egress) in rules);
    QuietLater(e, e);
    QuietLater(e, e.Next());
    QuietLater(e, e1);
    QuietLater(e, e1.Next());
    QuietLater(e, e2);
  }

  lemma {:induction false} RemovalShortens(rules: seq<Rule>, rule: Rule)
    ensures |RemoveFirst(rules, rule)| == |rules| - (if rule in rules then 1 else 0)
  {
    if rules != [] {
      assert rules == [rules[0]] + rules[1..];
      RemovalShortens(rules[1..], rule);
    }
  }

  /** A fault-free change of the rules changes nothing exactly if they are as wanted already. */
  lemma GoalRulesFixpointIff(rules: seq<Rule>, t: Tunnel, egress: Name, wanted: bool)
    ensures GoalRules(rules, t, egress, wanted) == rules <==> RulesAre(rules, t, egress, wanted)
  {
    hide RemoveFirst;
    var ingress, nat', legacy := IngressRule(t), NatRule(t, egress), LegacyRule(t);
    RemovalShortens(rules, ingress);
    RemovalShortens(rules, legacy);
    RemoveFirstMembers(rules, ingress, nat');
    RemoveFirstMembers(rules, ingress, legacy);
    RemoveFirstMembers(rules, legacy, ingress);
    RemoveFirstMembers(rules, legacy, nat');
    var r1 := RemoveFirst(rules, ingress);
    RemovalShortens(r1, nat');
    RemoveFirstMembers(r1, nat', legacy);
    var r2 := RemoveFirst(r1, nat');
    RemovalShortens(r2, legacy);
    RemoveFirstMembers(r2, legacy, legacy);
  }
}
