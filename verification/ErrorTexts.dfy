/** Which primitive's failure is reported in which words; and how far each routine gets without it. */
module ErrorTexts {
  import opened Domain
  import opened Kernel
  import opened Provider
  import opened Healing
  import opened Goal

  /**
    Marking in terms of the plan: set and read back; only if the alias did not take, set it once
    more the other way and read back again.
  */
  function MarkError(e: Env, alias: string, marker: string): Err {
    var e1 := e.Next();
    var e2 := e1.Next();
    if e.Failing() then Some("mark GRE interface as managed")
    else if e1.Failing() then Some("verify GRE ownership marker")
    else if alias == marker || !e.Dropping() then None
    else if e2.Failing() then Some("mark GRE interface as managed with iproute2")
    else if e2.Next().Failing() then Some("verify fallback GRE ownership marker")
    else if e2.DroppingAll() then Some("GRE ownership marker was not persisted")
    else None
  }

  /** An alias that took needs no second way, whatever would become of that. */
  lemma MarkTexts(k: Kern, name: Name, marker: string)
    requires name in k.links
    ensures OwnershipMarked(k, name, marker).1 == MarkError(k.env, k.links[name].alias, marker)
    ensures !k.env.Failing() && !k.env.Next().Failing() && (k.links[name].alias == marker || !k.env.Dropping()) ==>
      OwnershipMarked(k, name, marker).0.env == k.env.Next().Next()
  {
    hide LinkFrame;
  }

  lemma CreateTexts(k: Kern, t: Tunnel)
    requires t.name !in k.links
    ensures var got, e1 := Created(k, t).1, k.env.Next();
      && (k.env.Failing() ==> got == Stop("create GRE interface"))
      && (!k.env.Failing() && e1.Failing() ==>
        && (Available(k, t) ==> got == Stop("load created GRE interface"))
        && (!Available(k, t) && t.local.Parse().Some? && t.remote.Parse().Some? ==>
          got == Stop("verify existing GRE interface")))
      && (!k.env.Failing() && !e1.Failing() && Available(k, t) ==>
        var err := MarkError(e1.Next(), if k.env.Dropping() then "" else Marker(t.id), Marker(t.id));
        got == if err.Some? then Stop(err.value) else Ready)
  {
    hide LinkFrame, OwnershipMarked, MarkError;
    var k1 := k.LinkAdd(t.name, Fresh(0, t)).0;
    var k2 := k1.LinkByName(t.name).0;
    if t.name in k2.links { MarkTexts(k2, t.name, Marker(t.id)); }
    if !Available(k, t) && t.local.Parse().Some? && t.remote.Parse().Some? {
      var n :| n in k.links && n != t.name && k.links[n].SameTuple(Fresh(0, t));
      assert k.TupleTaken(Fresh(0, t));
    }
  }

  lemma AcquireTexts(k: Kern, t: Tunnel)
    ensures k.env.Failing() ==> Acquire(k, t).1 == Stop("find GRE interface")
    ensures !k.env.Failing() && t.name in k.links && Claimable(k, t) && !Keeps(k, t) && k.env.Next().Failing() ==>
      Acquire(k, t).1 == Stop("replace changed GRE interface")
  {
    hide Created, LinkFrame;
  }

  lemma AddressTexts(k: Kern, name: Name, cidr: CidrText)
    requires name in k.links && !cidr.BadCidr?
    ensures var err := AddressEnsured(k, name, cidr).1;
      if k.env.Failing() then err == Some("list interface addresses")
      else
        var (k2, ok) := DriftDropped(k.Tick(), name, k.links[name].addrs, Wanted(cidr));
        err == if !ok then Some("remove drifted interface address")
               else if k2.env.Failing() then Some("assign interface address")
               else None
  {
    hide DriftDropped, LinkFrame;
  }

  lemma RuleTexts(k: Kern, t: Tunnel, egress: Name)
    ensures var (k1, ok) := RuleEnsured(k.RuleDelete(LegacyRule(t)), IngressRule(t), Marker(t.id));
      RulesPlaced(k, t, egress).1 ==
        if !ok then Some("mark tunnel ingress")
        else if !RuleEnsured(k1, NatRule(t, egress), Marker(t.id)).1 then Some("add tunnel masquerade")
        else None
  {
    hide RuleEnsured, Foreign;
  }

  /** A rule is added exactly if the check does not find it, a check that fails included. */
  lemma EnsureFailsIff(k: Kern, rule: Rule, marker: string)
    requires rule.Carries(marker)
    ensures !RuleEnsured(k, rule, marker).1 <==> (k.env.Failing() || rule !in k.rules) && k.env.Next().Failing()
    ensures RuleEnsured(k, rule, marker).0.rules ==
      k.rules + if (k.env.Failing() || rule !in k.rules) && !k.env.Next().Failing() then [rule] else []
  {
    hide Foreign;
  }

  lemma SwitchTexts(k: Kern, t: Tunnel)
    requires t.name in k.links
    ensures !t.desired.Disabled? ==>
      Switched(k, t).1 ==
        if k.env.Failing() then Some("enable GRE interface")
        else MasqueradeEnsured(k.LinkSetAdmin(t.name, true).0, t, t.masquerade).1
    ensures t.desired.Disabled? ==>
      Switched(k, t).1 ==
        if k.env.Failing() || k.egress.None? then Some("no IPv4 default route interface found")
        else if MasqueradeEnsured(k, t, false).0.env.Failing() then Some("disable GRE interface")
        else None
  {
    hide RulesWithdrawn, RulesPlaced, Foreign;
  }

  lemma ConfigureTexts(k: Kern, t: Tunnel)
    requires Keeps(k, t) && k.links[t.name].alias == Marker(t.id)
    ensures k.env.Failing() ==> Configured(k, t).1 == Some("set MTU")
  {
    hide AddressEnsured, Switched, Foreign;
  }

  lemma RemoveTexts(k: Kern, t: Tunnel)
    ensures var k1 := MasqueradeEnsured(k, t, false).0;
      Removed(k, t).1 ==
        if k.env.Failing() || k.egress.None? then Some("no IPv4 default route interface found")
        else if k1.env.Failing() then Some("find GRE interface for deletion")
        else if t.name !in k.links then None
        else if !Claimable(k, t) then Some("not owned by MikroTunnel")
        else if k1.env.Next().Failing() then Some("delete GRE interface")
        else None
  {
    hide RulesWithdrawn, Foreign;
  }

  lemma AdoptTexts(k: Kern, name: Name, marker: string)
    ensures Adopted(k, name, marker).1 ==
      if k.env.Failing() || name !in k.links then Some("link not found")
      else if !k.links[name].gre then Some("not a GRE interface")
      else if !("mikrotunnel:" <= k.links[name].alias) then Some("refusing to adopt")
      else MarkError(k.env.Next(), k.links[name].alias, marker)
  {
    hide LinkFrame, OwnershipMarked, MarkError;
    var k1 := k.LinkByName(name).0;
    if name in k.links { MarkTexts(k1, name, marker); }
  }
}
