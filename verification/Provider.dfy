/**
  The GRE provider. Each function says what one platform routine does to the host under the
  host's plan, and its contract says what that routine promises under every plan; each method
  is the routine itself, step by step on the host in place.
*/
module Provider {
  import opened Domain
  import opened Kernel

  type Err = Option<string>

  datatype Acquired = Ready | Nothing | Stop(error: string)

  // ---------- what a routine may touch ----------

  /** Of the links only the one called `name` changed, and no rule did. */
  ghost predicate LinkFrame(k: Kern, k': Kern, name: Name) {
    && k'.rules == k.rules && k'.egress == k.egress
    && k.env.Before(k'.env) && k.nextIndex <= k'.nextIndex
    && k'.links - {name} == k.links - {name}
  }

  /** The rules that do not carry the marker, in order. */
  function Foreign(rules: seq<Rule>, marker: string): seq<Rule> {
    if rules == [] then []
    else (if rules[0].Carries(marker) then [] else [rules[0]]) + Foreign(rules[1..], marker)
  }

  /** Only rules that carry the marker changed, and no link did. */
  ghost predicate RuleFrame(k: Kern, k': Kern, marker: string) {
    && k'.links == k.links && k'.nextIndex == k.nextIndex && k'.egress == k.egress
    && k.env.Before(k'.env)
    && Foreign(k'.rules, marker) == Foreign(k.rules, marker)
  }

  /** A link that holds the tunnel's name without its marker is left as it is. */
  ghost predicate SparesForeignLink(k: Kern, k': Kern, t: Tunnel) {
    t.name in k.links && k.links[t.name].alias != Marker(t.id) ==>
      t.name in k'.links && k'.links[t.name] == k.links[t.name]
  }

  /** No step gives the link an alias other than none or the tunnel's marker. */
  ghost predicate OwnAlias(k: Kern, k': Kern, t: Tunnel) {
    t.name in k'.links ==>
      || k'.links[t.name].alias in ["", Marker(t.id)]
      || (t.name in k.links && k'.links[t.name].alias == k.links[t.name].alias)
  }

  /** Everything a controller step for tunnel t leaves alone on the host. */
  ghost predicate OwnershipFrame(k: Kern, k': Kern, t: Tunnel) {
    && SparesForeignLink(k, k', t) && OwnAlias(k, k', t)
    && Foreign(k'.rules, Marker(t.id)) == Foreign(k.rules, Marker(t.id))
    && k'.egress == k.egress && k.env.Before(k'.env) && k.nextIndex <= k'.nextIndex
    && k'.links - {t.name} == k.links - {t.name}
  }

  lemma Elsewhere(m: map<Name, Link>, m': map<Name, Link>, name: Name, n: Name)
    requires m' - {name} == m - {name} && n != name
    ensures n in m' <==> n in m
    ensures n in m ==> m'[n] == m[n]
  {
    assert n in m <==> n in m - {name};
    assert n in m' <==> n in m' - {name};
    if n in m { assert m[n] == (m - {name})[n] == (m' - {name})[n] == m'[n]; }
  }

  lemma {:induction false} ForeignAppend(rules: seq<Rule>, r: Rule, marker: string)
    ensures Foreign(rules + [r], marker) == Foreign(rules, marker) + (if r.Carries(marker) then [] else [r])
  {
    if rules == [] {
      assert rules + [r] == [r];
    } else {
      assert (rules + [r])[1..] == rules[1..] + [r];
      ForeignAppend(rules[1..], r, marker);
    }
  }

  lemma {:induction false} ForeignRemove(rules: seq<Rule>, r: Rule, marker: string)
    requires r.Carries(marker)
    ensures Foreign(RemoveFirst(rules, r), marker) == Foreign(rules, marker)
  {
    if rules != [] && rules[0] != r {
      var rest := RemoveFirst(rules[1..], r);
      assert ([rules[0]] + rest)[1..] == rest;
      ForeignRemove(rules[1..], r, marker);
    }
  }

  // ---------- ownership ----------

  function OwnershipMarked(k: Kern, name: Name, marker: string): (r: (Kern, Err))
    ensures LinkFrame(k, r.0, name)
    ensures r.0.nextIndex == k.nextIndex
    ensures name in k.links <==> name in r.0.links
    ensures name in k.links ==> r.0.links[name] == k.links[name] || r.0.links[name] == k.links[name].(alias := marker)
    ensures r.1.None? ==> name in r.0.links && r.0.links[name].alias == marker
  {
    var (k1, ok) := k.LinkSetAlias(name, marker);
    if !ok then (k1, Some("mark GRE interface as managed"))
    else
      var (k2, stored) := k1.LinkByName(name);
      if !stored.Ok? then (k2, Some("verify GRE ownership marker"))
      else if stored.value.alias == marker then (k2, None)
      else
        var (k3, ok') := k2.IPLinkSetAlias(name, marker);
        if !ok' then (k3, Some("mark GRE interface as managed with iproute2"))
        else
          var (k4, stored') := k3.LinkByName(name);
          if !stored'.Ok? then (k4, Some("verify fallback GRE ownership marker"))
          else if stored'.value.alias != marker then (k4, Some("GRE ownership marker was not persisted"))
          else (k4, None)
  }

  method MarkOwnership(host: Host, name: Name, marker: string) returns (err: Err)
    modifies host, host.env
    ensures (host.K(), err) == OwnershipMarked(old(host.K()), name, marker)
  {
    var ok := host.LinkSetAlias(name, marker);
    if !ok { return Some("mark GRE interface as managed"); }
    var stored := host.LinkByName(name);
    if !stored.Ok? { return Some("verify GRE ownership marker"); }
    if stored.value.alias == marker { return None; }
    ok := host.IPLinkSetAlias(name, marker);
    if !ok { return Some("mark GRE interface as managed with iproute2"); }
    stored := host.LinkByName(name);
    if !stored.Ok? { return Some("verify fallback GRE ownership marker"); }
    if stored.value.alias != marker { return Some("GRE ownership marker was not persisted"); }
    return None;
  }

  // ---------- creation ----------

  /** The link a tunnel asks for, before any configuration. */
  function Fresh(index: nat, t: Tunnel): Link {
    Link(index, true, t.local.Parse(), t.remote.Parse(), Uint8(t.ttl), t.mtu, Marker(t.id), false, [])
  }

  predicate RequiresRecreate(link: Link, t: Tunnel) {
    !link.gre || link.local != t.local.Parse() || link.remote != t.remote.Parse() || link.ttl != Uint8(t.ttl)
  }

  function Created(k: Kern, t: Tunnel): (r: (Kern, Acquired))
    ensures LinkFrame(k, r.0, t.name)
    ensures !r.1.Nothing?
    ensures t.name in k.links ==> r.0.links == k.links
    ensures t.name !in k.links && t.name in r.0.links ==>
      && r.0.nextIndex == k.nextIndex + 1 && r.0.links[t.name].(alias := Marker(t.id)) == Fresh(k.nextIndex, t)
      && r.0.links[t.name].alias in ["", Marker(t.id)]
    ensures t.name !in r.0.links ==> r.0.nextIndex == k.nextIndex
    ensures r.1.Ready? ==> t.name in r.0.links && r.0.links[t.name].alias == Marker(t.id)
  {
    var (k1, added) := k.LinkAdd(t.name, Fresh(0, t));
    match added
    case Exists =>
      var (k2, existing) := k1.LinkByName(t.name);
      (match existing
       case NotFound => (k2, Stop("a conflicting GRE interface already exists"))
       case Ok(link) =>
         if link.alias != Marker(t.id) then (k2, Stop("not owned by MikroTunnel")) else (k2, Ready)
       case _ => (k2, Stop("verify existing GRE interface")))
    case Ok(_) =>
      var (k2, made) := k1.LinkByName(t.name);
      if !made.Ok? then (k2, Stop("load created GRE interface"))
      else
        var (k3, err) := OwnershipMarked(k2, t.name, Marker(t.id));
        (k3, if err.Some? then Stop(err.value) else Ready)
    case _ => (k1, Stop("create GRE interface"))
  }

  method Create(host: Host, t: Tunnel) returns (r: Acquired)
    modifies host, host.env
    ensures (host.K(), r) == Created(old(host.K()), t)
  {
    var added := host.LinkAdd(t.name, Fresh(0, t));
    if added.Exists? {
      var existing := host.LinkByName(t.name);
      if existing.NotFound? { return Stop("a conflicting GRE interface already exists"); }
      if !existing.Ok? { return Stop("verify existing GRE interface"); }
      if existing.value.alias != Marker(t.id) { return Stop("not owned by MikroTunnel"); }
      return Ready;
    }
    if !added.Ok? { return Stop("create GRE interface"); }
    var made := host.LinkByName(t.name);
    if !made.Ok? { return Stop("load created GRE interface"); }
    var err := MarkOwnership(host, t.name, Marker(t.id));
    return if err.Some? then Stop(err.value) else Ready;
  }

  /** The first half of a reconcile: a link under the name, owned and with the stored endpoints. */
  function Acquire(k: Kern, t: Tunnel): (r: (Kern, Acquired))
    ensures LinkFrame(k, r.0, t.name) && SparesForeignLink(k, r.0, t) && OwnAlias(k, r.0, t)
    ensures r.1.Ready? ==>
      && t.name in r.0.links && r.0.links[t.name].alias == Marker(t.id)
      && !RequiresRecreate(r.0.links[t.name], t)
    ensures r.1.Nothing? ==> t.desired.Disabled? && t.name !in r.0.links && r.0.links == k.links
  {
    var (k1, found) := k.LinkByName(t.name);
    match found
    case NotFound => if t.desired.Disabled? then (k1, Nothing) else Created(k1, t)
    case Ok(link) =>
      if link.alias != Marker(t.id) then (k1, Stop("not owned by MikroTunnel"))
      else if RequiresRecreate(link, t) then
        var (k2, ok) := k1.LinkDel(t.name);
        if !ok then (k2, Stop("replace changed GRE interface")) else Created(k2, t)
      else (k1, Ready)
    case _ => (k1, Stop("find GRE interface"))
  }

  // ---------- addresses ----------

  function Wanted(cidr: CidrText): Option<Address> {
    if cidr.Cidr4? then Some(Address(cidr.ip, cidr.prefix, "")) else None
  }

  function DriftDropped(k: Kern, name: Name, todo: seq<Address>, want: Option<Address>): (r: (Kern, bool))
    ensures LinkFrame(k, r.0, name) && r.0.nextIndex == k.nextIndex
    ensures name in k.links <==> name in r.0.links
    ensures name in k.links ==> r.0.links[name] == k.links[name].(addrs := r.0.links[name].addrs)
    decreases |todo|
  {
    if todo == [] then (k, true)
    else if Some(todo[0]) == want then DriftDropped(k, name, todo[1..], want)
    else
      var (k1, ok) := k.AddrDel(name, todo[0]);
      if !ok then (k1, false) else DriftDropped(k1, name, todo[1..], want)
  }

  function AddressEnsured(k: Kern, name: Name, cidr: CidrText): (r: (Kern, Err))
    ensures LinkFrame(k, r.0, name) && r.0.nextIndex == k.nextIndex
    ensures name in k.links <==> name in r.0.links
    ensures name in k.links ==> r.0.links[name] == k.links[name].(addrs := r.0.links[name].addrs)
    ensures r.1.None? ==> name in k.links && !cidr.BadCidr?
  {
    if cidr.BadCidr? then (k, Some("parse interface address"))
    else
      var (k1, list) := k.AddrList(name);
      if !list.Ok? then (k1, Some("list interface addresses"))
      else
        var (k2, ok) := DriftDropped(k1, name, list.value, Wanted(cidr));
        if !ok then (k2, Some("remove drifted interface address"))
        else
          var (k3, ok') := k2.AddrReplace(name, cidr);
          (k3, if ok' then None else Some("assign interface address"))
  }

  method EnsureAddress(host: Host, name: Name, cidr: CidrText) returns (err: Err)
    modifies host, host.env
    ensures (host.K(), err) == AddressEnsured(old(host.K()), name, cidr)
  {
    if cidr.BadCidr? { return Some("parse interface address"); }
    var list := host.AddrList(name);
    if !list.Ok? { return Some("list interface addresses"); }
    var want := Wanted(cidr);
    var addresses := list.value;
    ghost var start := host.K();
    for i := 0 to |addresses|
      invariant DriftDropped(start, name, addresses, want) == DriftDropped(host.K(), name, addresses[i..], want)
    {
      assert addresses[i..][1..] == addresses[i + 1..];
      if Some(addresses[i]) == want { continue; }
      var ok := host.AddrDel(name, addresses[i]);
      if !ok { return Some("remove drifted interface address"); }
    }
    var ok := host.AddrReplace(name, cidr);
    return if ok then None else Some("assign interface address");
  }

  // ---------- firewall ----------

  function IngressRule(t: Tunnel): Rule { MarkIngress(t.name, Marker(t.id)) }
  function NatRule(t: Tunnel, egress: Name): Rule { Masquerade(egress, Marker(t.id)) }
  function LegacyRule(t: Tunnel): Rule { LegacyMasquerade(t.name, Marker(t.id)) }

  function RuleRemoved(k: Kern, rule: Rule, marker: string): (k': Kern)
    requires rule.Carries(marker)
    ensures RuleFrame(k, k', marker)
  {
    var (k1, present) := k.RuleCheck(rule);
    if present then
      ForeignRemove(k1.rules, rule, marker);
      k1.RuleDelete(rule)
    else k1
  }

  method RemoveRule(host: Host, rule: Rule)
    requires !rule.Unrelated?
    modifies host, host.env
    ensures host.K() == RuleRemoved(old(host.K()), rule, rule.comment)
  {
    var present := host.RuleCheck(rule);
    if present { host.RuleDelete(rule); }
  }

  function RuleEnsured(k: Kern, rule: Rule, marker: string): (r: (Kern, bool))
    requires rule.Carries(marker)
    ensures RuleFrame(k, r.0, marker)
    ensures r.1 ==> rule in r.0.rules
    ensures forall other :: other in k.rules ==> other in r.0.rules
  {
    var (k1, present) := k.RuleCheck(rule);
    ForeignAppend(k1.rules, rule, marker);
    if present then (k1, true) else k1.RuleAppend(rule)
  }

  function RulesWithdrawn(k: Kern, t: Tunnel, egress: Name): (k': Kern)
    ensures RuleFrame(k, k', Marker(t.id))
  {
    var k1 := RuleRemoved(k, IngressRule(t), Marker(t.id));
    var k2 := RuleRemoved(k1, NatRule(t, egress), Marker(t.id));
    ForeignRemove(k2.rules, LegacyRule(t), Marker(t.id));
    k2.RuleDelete(LegacyRule(t))
  }

  function RulesPlaced(k: Kern, t: Tunnel, egress: Name): (r: (Kern, Err))
    ensures RuleFrame(k, r.0, Marker(t.id))
    ensures r.1.None? ==> IngressRule(t) in r.0.rules && NatRule(t, egress) in r.0.rules
  {
    ForeignRemove(k.rules, LegacyRule(t), Marker(t.id));
    var (k1, ok) := RuleEnsured(k.RuleDelete(LegacyRule(t)), IngressRule(t), Marker(t.id));
    if !ok then (k1, Some("mark tunnel ingress"))
    else
      var (k2, ok') := RuleEnsured(k1, NatRule(t, egress), Marker(t.id));
      (k2, if ok' then None else Some("add tunnel masquerade"))
  }

  function MasqueradeEnsured(k: Kern, t: Tunnel, wanted: bool): (r: (Kern, Err))
    ensures RuleFrame(k, r.0, Marker(t.id))
    ensures r.1.None? ==> k.egress.Some?
    ensures r.1.None? && wanted ==> IngressRule(t) in r.0.rules && NatRule(t, k.egress.value) in r.0.rules
  {
    var (k1, egress) := k.DefaultRoute();
    if egress.None? then (k1, Some("no IPv4 default route interface found"))
    else if wanted then RulesPlaced(k1, t, egress.value)
    else (RulesWithdrawn(k1, t, egress.value), None)
  }

  method EnsureMasquerade(host: Host, t: Tunnel, wanted: bool) returns (err: Err)
    modifies host, host.env
    ensures (host.K(), err) == MasqueradeEnsured(old(host.K()), t, wanted)
  {
    var egress := host.DefaultRoute();
    if egress.None? { return Some("no IPv4 default route interface found"); }
    var markRule, natRule := IngressRule(t), NatRule(t, egress.value);
    if !wanted {
      RemoveRule(host, markRule);
      RemoveRule(host, natRule);
      host.RuleDelete(LegacyRule(t));
      return None;
    }
    host.RuleDelete(LegacyRule(t));
    var present := host.RuleCheck(markRule);
    if !present {
      var ok := host.RuleAppend(markRule);
      if !ok { return Some("mark tunnel ingress"); }
    }
    present := host.RuleCheck(natRule);
    if !present {
      var ok := host.RuleAppend(natRule);
      if !ok { return Some("add tunnel masquerade"); }
    }
    return None;
  }

  // ---------- reconcile, remove, observe ----------

  /** What the link of a tunnel must look like for the desired state to hold. */
  ghost predicate LinkApplied(k: Kern, t: Tunnel) {
    && t.name in k.links
    && var link := k.links[t.name];
    && link.alias == Marker(t.id) && !RequiresRecreate(link, t)
    && link.mtu == t.mtu && link.up == !t.desired.Disabled?
  }

  /** The last part of a reconcile: rules and administrative state. */
  function Switched(k: Kern, t: Tunnel): (r: (Kern, Err))
    requires t.name in k.links
    ensures r.0.links - {t.name} == k.links - {t.name}
    ensures Foreign(r.0.rules, Marker(t.id)) == Foreign(k.rules, Marker(t.id))
    ensures r.0.nextIndex == k.nextIndex && r.0.egress == k.egress && k.env.Before(r.0.env)
    ensures t.name in r.0.links
    ensures r.0.links[t.name] == k.links[t.name].(up := r.0.links[t.name].up)
    ensures r.1.None? ==> r.0.links[t.name].up == !t.desired.Disabled? && k.egress.Some?
    ensures r.1.None? && !t.desired.Disabled? && t.masquerade ==>
      IngressRule(t) in r.0.rules && NatRule(t, k.egress.value) in r.0.rules
  {
    if t.desired.Disabled? then
      var (k1, err) := MasqueradeEnsured(k, t, false);
      if err.Some? then (k1, err)
      else
        var (k2, ok) := k1.LinkSetAdmin(t.name, false);
        (k2, if ok then None else Some("disable GRE interface"))
    else
      var (k1, ok) := k.LinkSetAdmin(t.name, true);
      if !ok then (k1, Some("enable GRE interface"))
      else MasqueradeEnsured(k1, t, t.masquerade)
  }

  /** The second half of a reconcile, on the acquired link. */
  function Configured(k: Kern, t: Tunnel): (r: (Kern, Err))
    requires t.name in k.links && k.links[t.name].alias == Marker(t.id) && !RequiresRecreate(k.links[t.name], t)
    ensures OwnershipFrame(k, r.0, t) && r.0.nextIndex == k.nextIndex
    ensures t.name in r.0.links
    ensures r.1.None? ==> LinkApplied(r.0, t) && k.egress.Some? && !t.address.BadCidr?
    ensures r.1.None? && !t.desired.Disabled? && t.masquerade ==>
      IngressRule(t) in r.0.rules && NatRule(t, k.egress.value) in r.0.rules
  {
    var (k1, ok) := k.LinkSetMTU(t.name, t.mtu);
    if !ok then (k1, Some("set MTU"))
    else
      var (k2, err) := AddressEnsured(k1, t.name, t.address);
      if err.Some? then (k2, err) else Switched(k2, t)
  }

  function Reconciled(k: Kern, t: Tunnel): (r: (Kern, Err))
    ensures OwnershipFrame(k, r.0, t)
    ensures r.1.None? ==> LinkApplied(r.0, t) || (t.desired.Disabled? && t.name !in k.links && r.0.links == k.links)
    ensures r.1.None? && !t.desired.Disabled? && t.masquerade ==>
      k.egress.Some? && IngressRule(t) in r.0.rules && NatRule(t, k.egress.value) in r.0.rules
  {
    var (k1, got) := Acquire(k, t);
    match got
    case Nothing => (k1, None)
    case Stop(error) => (k1, Some(error))
    case Ready => Configured(k1, t)
  }

  method ReconcilePlatform(host: Host, t: Tunnel) returns (err: Err)
    modifies host, host.env
    ensures (host.K(), err) == Reconciled(old(host.K()), t)
    ensures OwnershipFrame(old(host.K()), host.K(), t)
    ensures err.None? && !t.desired.Disabled? ==> LinkApplied(host.K(), t)
  {
    hide Created, AddressEnsured, MasqueradeEnsured, LinkFrame, RuleFrame, OwnershipFrame;
    hide LinkApplied, Foreign, RequiresRecreate, OwnAlias, Marker;
    var found := host.LinkByName(t.name);
    if found.NotFound? {
      if t.desired.Disabled? { return None; }
      var got := Create(host, t);
      if got.Stop? { return Some(got.error); }
    } else if !found.Ok? {
      return Some("find GRE interface");
    } else if found.value.alias != Marker(t.id) {
      return Some("not owned by MikroTunnel");
    } else if RequiresRecreate(found.value, t) {
      var ok := host.LinkDel(t.name);
      if !ok { return Some("replace changed GRE interface"); }
      var got := Create(host, t);
      if got.Stop? { return Some(got.error); }
    }
    var ok := host.LinkSetMTU(t.name, t.mtu);
    if !ok { return Some("set MTU"); }
    err := EnsureAddress(host, t.name, t.address);
    if err.Some? { return err; }
    if t.desired.Disabled? {
      err := EnsureMasquerade(host, t, false);
      if err.Some? { return err; }
      ok := host.LinkSetAdmin(t.name, false);
      if !ok { return Some("disable GRE interface"); }
      return None;
    }
    ok := host.LinkSetAdmin(t.name, true);
    if !ok { return Some("enable GRE interface"); }
    err := EnsureMasquerade(host, t, t.masquerade);
  }

  function Removed(k: Kern, t: Tunnel): (r: (Kern, Err))
    ensures OwnershipFrame(k, r.0, t) && r.0.nextIndex == k.nextIndex
    ensures r.1.None? ==> t.name !in r.0.links && k.egress.Some?
    ensures t.name in r.0.links ==> t.name in k.links && r.0.links == k.links
  {
    var (k1, err) := MasqueradeEnsured(k, t, false);
    if err.Some? then (k1, err)
    else
      var (k2, found) := k1.LinkByName(t.name);
      match found
      case NotFound => (k2, None)
      case Ok(link) =>
        if link.alias != Marker(t.id) then (k2, Some("not owned by MikroTunnel"))
        else
          var (k3, ok) := k2.LinkDel(t.name);
          (k3, if ok then None else Some("delete GRE interface"))
      case _ => (k2, Some("find GRE interface for deletion"))
  }

  method RemovePlatform(host: Host, t: Tunnel) returns (err: Err)
    modifies host, host.env
    ensures (host.K(), err) == Removed(old(host.K()), t)
    ensures OwnershipFrame(old(host.K()), host.K(), t)
    ensures err.None? ==> t.name !in host.links
  {
    err := EnsureMasquerade(host, t, false);
    if err.Some? { return err; }
    var found := host.LinkByName(t.name);
    if found.NotFound? { return None; }
    if !found.Ok? { return Some("find GRE interface for deletion"); }
    if found.value.alias != Marker(t.id) { return Some("not owned by MikroTunnel"); }
    var ok := host.LinkDel(t.name);
    if !ok { return Some("delete GRE interface"); }
    return None;
  }

  datatype Observation = Observation(state: Actual, message: string, failed: bool)

  /** Up and down are said of the tunnel's own link only. */
  function Observed(k: Kern, t: Tunnel): (r: (Kern, Observation))
    ensures r.0 == k.(env := k.env.Next())
    ensures r.1.failed <==> k.env.Failing()
    ensures !r.1.failed ==>
      && (r.1.state.Missing? <==> t.name !in k.links)
      && (r.1.state.Up? || r.1.state.Down? <==> t.name in k.links && k.links[t.name].alias == Marker(t.id))
      && (r.1.state.Up? ==> k.links[t.name].up) && (r.1.state.Down? ==> !k.links[t.name].up)
  {
    var (k1, found) := k.LinkByName(t.name);
    match found
    case NotFound => (k1, Observation(Missing, "managed GRE interface is absent", false))
    case Ok(link) =>
      if link.alias != Marker(t.id) then
        (k1, Observation(Error, "an interface with this name is not owned by MikroTunnel", false))
      else if link.up then (k1, Observation(Up, "", false))
      else (k1, Observation(Down, "interface is administratively down", false))
    case _ => (k1, Observation(Unknown, "read GRE interface", true))
  }

  method ObservePlatform(host: Host, t: Tunnel) returns (seen: Observation)
    modifies host.env
    ensures (host.K(), seen) == Observed(old(host.K()), t)
    ensures host.links == old(host.links) && host.rules == old(host.rules)
  {
    var found := host.LinkByName(t.name);
    if found.NotFound? { return Observation(Missing, "managed GRE interface is absent", false); }
    if !found.Ok? { return Observation(Unknown, "read GRE interface", true); }
    if found.value.alias != Marker(t.id) {
      return Observation(Error, "an interface with this name is not owned by MikroTunnel", false);
    }
    if found.value.up { return Observation(Up, "", false); }
    return Observation(Down, "interface is administratively down", false);
  }

  // ---------- import ----------

  datatype Discovered = Discovered(
    name: Name, local: IPText, remote: IPText, mtu: int, ttl: int, alias: string, address: Option<CidrText>)

  /** A GRE link with both endpoints set. */
  predicate Visible(link: Link) {
    && link.gre && link.local.Some? && link.remote.Some?
    && !link.local.value.IsUnspecified() && !link.remote.value.IsUnspecified()
  }

  /** What an item says of its link; the address is missing when the link has none or none was read. */
  ghost predicate Describes(item: Discovered, links: map<Name, Link>) {
    && item.name in links && Visible(links[item.name])
    && var link := links[item.name];
    && item.local.Parse() == link.local && item.remote.Parse() == link.remote
    && item.mtu == link.mtu && item.ttl == link.ttl && item.alias == link.alias
    && match item.address
       case None => true
       case Some(cidr) => link.addrs != [] && cidr == Cidr4(link.addrs[0].ip, link.addrs[0].prefix)
  }

  /** The item for a link, with the first of its addresses if they could be listed. */
  function ItemOf(name: Name, link: Link, list: Reply<seq<Address>>): Discovered
    requires Visible(link)
  {
    Discovered(
      name, link.local.value.Text(), link.remote.value.Text(), link.mtu, link.ttl, link.alias,
      if list.Ok? && list.value != [] then Some(Cidr4(list.value[0].ip, list.value[0].prefix)) else None)
  }

  function DiscoverOne(k: Kern, name: Name): (r: (Kern, seq<Discovered>))
    requires name in k.links
    ensures r.0 == k.(env := r.0.env) && k.env.Before(r.0.env)
    ensures forall item | item in r.1 :: Describes(item, k.links)
  {
    var link := k.links[name];
    if !Visible(link) then (k, [])
    else
      var (k1, list) := k.AddrList(name);
      (k1, [ItemOf(name, link, list)])
  }

  /** The listing loop over the links, in the order the kernel gives them. */
  function DiscoveredFrom(k: Kern, names: seq<Name>): (r: (Kern, seq<Discovered>))
    requires forall n | n in names :: n in k.links
    ensures r.0 == k.(env := r.0.env) && k.env.Before(r.0.env)
    ensures forall item | item in r.1 :: Describes(item, k.links)
    decreases |names|
  {
    if names == [] then (k, [])
    else
      var (k1, first) := DiscoverOne(k, names[0]);
      var (k2, rest) := DiscoveredFrom(k1, names[1..]);
      (k2, first + rest)
  }

  /** Every link's name once, in some order. */
  ghost predicate ListsLinks(order: seq<Name>, links: map<Name, Link>) {
    && (forall n | n in order :: n in links)
    && (forall n | n in links :: n in order)
    && (forall i, j | 0 <= i < j < |order| :: order[i] != order[j])
  }

  method Discover(host: Host) returns (ok: bool, items: seq<Discovered>, ghost order: seq<Name>)
    modifies host.env
    ensures host.links == old(host.links)
    ensures forall n | n in order :: n in host.links
    ensures ok == old(host.K()).LinkList().1
    ensures ok ==> ListsLinks(order, host.links)
    ensures ok ==> (host.K(), items) == DiscoveredFrom(old(host.K()).LinkList().0, order)
    ensures !ok ==> host.K() == old(host.K()).LinkList().0 && items == []
  {
    items, order := [], [];
    var listed, names := host.LinkList();
    ok := listed;
    if !ok { return; }
    ghost var start := host.K();
    while names != {}
      invariant names <= host.links.Keys && host.links == start.links
      invariant forall n | n in order :: n in host.links && n !in names
      invariant forall n | n in host.links :: n in order || n in names
      invariant forall i, j | 0 <= i < j < |order| :: order[i] != order[j]
      invariant (host.K(), items) == DiscoveredFrom(start, order)
      decreases names
    {
      var name :| name in names;
      names := names - {name};
      DiscoverOneMore(start, order, name);
      order := order + [name];
      var link := host.links[name];
      if Visible(link) {
        var list := host.AddrList(name);
        items := items + [ItemOf(name, link, list)];
      } else {
        assert items + [] == items;
      }
    }
  }

  lemma {:induction false} DiscoverOneMore(k: Kern, names: seq<Name>, name: Name)
    requires name in k.links && forall n | n in names :: n in k.links
    ensures forall n | n in names + [name] :: n in k.links
    ensures
      var (k1, items) := DiscoveredFrom(k, names);
      var (k2, last) := DiscoverOne(k1, name);
      DiscoveredFrom(k, names + [name]) == (k2, items + last)
    decreases |names|
  {
    hide DiscoverOne, Describes;
    if names == [] {
      assert [] + [name] == [name];
      var (k2, last) := DiscoverOne(k, name);
      assert last + [] == last == [] + last;
    } else {
      assert (names + [name])[1..] == names[1..] + [name];
      var (k1, first) := DiscoverOne(k, names[0]);
      DiscoverOneMore(k1, names[1..], name);
      var (k2, rest) := DiscoveredFrom(k1, names[1..]);
      var (k3, last) := DiscoverOne(k2, name);
      assert (first + rest) + last == first + (rest + last);
    }
  }

  function Adopted(k: Kern, name: Name, marker: string): (r: (Kern, Err))
    ensures LinkFrame(k, r.0, name) && r.0.nextIndex == k.nextIndex
    ensures name in k.links <==> name in r.0.links
    ensures name in k.links ==> r.0.links[name] == k.links[name] || r.0.links[name] == k.links[name].(alias := marker)
    ensures r.1.None? ==>
      name in k.links && k.links[name].gre && PREFIX <= k.links[name].alias && r.0.links[name].alias == marker
  {
    var (k1, found) := k.LinkByName(name);
    if !found.Ok? then (k1, Some("link not found"))
    else if !found.value.gre then (k1, Some("not a GRE interface"))
    else if !(PREFIX <= found.value.alias) then (k1, Some("refusing to adopt"))
    else OwnershipMarked(k1, name, marker)
  }

  method Adopt(host: Host, name: Name, marker: string) returns (err: Err)
    modifies host, host.env
    ensures (host.K(), err) == Adopted(old(host.K()), name, marker)
  {
    var found := host.LinkByName(name);
    if !found.Ok? { return Some("link not found"); }
    if !found.value.gre { return Some("not a GRE interface"); }
    if !(PREFIX <= found.value.alias) { return Some("refusing to adopt"); }
    err := MarkOwnership(host, name, marker);
  }
}
