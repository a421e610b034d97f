/**
  The goal of a reconcile and its three consequences at the host: a fault-free run reaches it, a
  broken run does not move it, and a run that reached it changes nothing when repeated.
*/
module Goal {
  import opened Domain
  import opened Kernel
  import opened Provider
  import opened Healing

  /** The link with everything a reconcile sets in place. */
  function Tuned(link: Link, t: Tunnel): Link {
    link.(mtu := t.mtu, addrs := Repaired(link.addrs, t.address, t.name), up := !t.desired.Disabled?)
  }

  predicate Keeps(k: Kern, t: Tunnel) {
    t.name in k.links && !RequiresRecreate(k.links[t.name], t)
  }

  /** The links a fault-free reconcile leaves: the same interface if it will do, else a new one. */
  function GoalLinks(k: Kern, t: Tunnel): map<Name, Link> {
    k.links[t.name := Tuned(if Keeps(k, t) then k.links[t.name] else Fresh(k.nextIndex, t), t)]
  }

  function GoalIndex(k: Kern, t: Tunnel): nat {
    if Keeps(k, t) then k.nextIndex else k.nextIndex + 1
  }

  /** The name is free, or held by the tunnel's own link. */
  predicate Claimable(k: Kern, t: Tunnel) {
    t.name in k.links ==> k.links[t.name].alias == Marker(t.id)
  }

  /** The endpoints parse and no other link holds them. */
  predicate Available(k: Kern, t: Tunnel) {
    && t.local.Parse().Some? && t.remote.Parse().Some?
    && forall n | n in k.links && n != t.name :: !k.links[n].SameTuple(Fresh(0, t))
  }

  ghost predicate SameGoal(k: Kern, k': Kern, t: Tunnel) {
    GoalLinks(k', t) == GoalLinks(k, t) && GoalIndex(k', t) == GoalIndex(k, t)
  }

  lemma AgreeElsewhere(m: map<Name, Link>, m': map<Name, Link>, name: Name, link: Link)
    requires m' - {name} == m - {name}
    ensures m'[name := link] == m[name := link]
  {
    assert m'[name := link] == (m' - {name})[name := link];
    assert m[name := link] == (m - {name})[name := link];
  }

  /** Three ways of not moving the goal: the same link, still no usable link, or the new link. */
  lemma GoalUnmoved(k: Kern, k': Kern, t: Tunnel)
    requires k'.links - {t.name} == k.links - {t.name}
    requires
      || (Keeps(k, t) && Keeps(k', t) && k'.links[t.name] == k.links[t.name] && k'.nextIndex == k.nextIndex)
      || (!Keeps(k, t) && !Keeps(k', t) && k'.nextIndex == k.nextIndex)
      || (!Keeps(k, t) && t.name in k'.links && k'.links[t.name] == Fresh(k.nextIndex, t)
          && k'.nextIndex == k.nextIndex + 1)
    ensures SameGoal(k, k', t)
  {
    AgreeElsewhere(k.links, k'.links, t.name, GoalLinks(k, t)[t.name]);
  }

  lemma QuietMark(k: Kern, name: Name, marker: string)
    requires k.env.Quiet() && name in k.links
    ensures OwnershipMarked(k, name, marker).1.None?
  {
    QuietLater(k.env, k.env);
    QuietLater(k.env, k.env.Next());
  }

  lemma CreateHeals(k: Kern, t: Tunnel)
    requires t.name !in k.links && Available(k, t)
    ensures var (k1, got) := Created(k, t);
      && (t.name in k1.links && Claimable(k1, t) ==> k1.links[t.name] == Fresh(k.nextIndex, t))
      && (k.env.Quiet() ==> got.Ready?)
  {
    if k.env.Quiet() {
      QuietLater(k.env, k.env);
      var k1 := k.LinkAdd(t.name, Fresh(0, t)).0;
      assert !k.TupleTaken(Fresh(0, t));
      QuietLater(k.env, k1.env);
      var k2 := k1.LinkByName(t.name).0;
      QuietLater(k.env, k2.env);
      QuietMark(k2, t.name, Marker(t.id));
    }
  }

  /** Finding, replacing or making the link, wherever it stops, does not move the goal. */
  lemma AcquireHeals(k: Kern, t: Tunnel)
    requires Claimable(k, t) && (Keeps(k, t) || Available(k, t))
    requires t.desired.Disabled? ==> Keeps(k, t)
    ensures var (k1, got) := Acquire(k, t);
      && (Claimable(k1, t) ==> SameGoal(k, k1, t))
      && !got.Nothing?
      && (k.env.Quiet() ==> got.Ready?)
  {
    hide Created, Tuned;
    var (k1, got) := Acquire(k, t);
    var (k2, found) := k.LinkByName(t.name);
    if k.env.Quiet() { QuietLater(k.env, k.env); QuietLater(k.env, k2.env); }
    match found {
    case NotFound => CreateHeals(k2, t);
    case Ok(link) =>
      if RequiresRecreate(link, t) {
        var (k3, ok) := k2.LinkDel(t.name);
        if k.env.Quiet() { QuietLater(k.env, k3.env); }
        if ok { CreateHeals(k3, t); }
      }
    case _ =>
    }
    if Claimable(k1, t) { GoalUnmoved(k, k1, t); }
  }

  /** What each step of the configuration does to the link, whether it works or not. */
  ghost predicate Tuning(link: Link, link': Link, t: Tunnel) {
    && link' == link.(mtu := link'.mtu, addrs := link'.addrs, up := link'.up)
    && link'.mtu in [link.mtu, t.mtu]
    && Repaired(link'.addrs, t.address, t.name) == Repaired(link.addrs, t.address, t.name)
  }

  /** Configuring the link, wherever it stops, only tunes it; getting through tunes it fully. */
  lemma ConfigureTunes(k: Kern, t: Tunnel)
    requires Keeps(k, t) && k.links[t.name].alias == Marker(t.id)
    ensures var (k', err) := Configured(k, t);
      && Tuning(k.links[t.name], k'.links[t.name], t)
      && (err.None? ==> k'.links[t.name] == Tuned(k.links[t.name], t))
  {
    hide Repaired, Foreign, Switched, AddressEnsured;
    var link := k.links[t.name];
    var k1 := k.LinkSetMTU(t.name, t.mtu).0;
    AddressRepair(k1, t.name, t.address);
    RepairedTwice(link.addrs, t.address, t.name);
  }

  lemma ConfigureHeals(k: Kern, t: Tunnel)
    requires Keeps(k, t) && k.links[t.name].alias == Marker(t.id)
    ensures var (k', err) := Configured(k, t);
      && SameGoal(k, k', t) && Claimable(k', t)
      && (err.None? ==> k'.links == GoalLinks(k, t) && k'.nextIndex == GoalIndex(k, t))
  {
    hide Repaired, Foreign, Configured;
    ConfigureTunes(k, t);
    var (k', err) := Configured(k, t);
    AgreeElsewhere(k.links, k'.links, t.name, Tuned(k.links[t.name], t));
    if err.None? {
      assert k'.links == k'.links[t.name := Tuned(k.links[t.name], t)];
    }
  }

  lemma ConfigureQuiet(k: Kern, t: Tunnel)
    requires Keeps(k, t) && k.links[t.name].alias == Marker(t.id)
    requires k.env.Quiet() && k.egress.Some? && !t.address.BadCidr?
    ensures var (k', err) := Configured(k, t);
      err.None? && k'.rules == GoalRules(k.rules, t, k.egress.value, WantsMasquerade(t))
  {
    hide GoalRules, Foreign, Repaired, MasqueradeEnsured, AddressEnsured;
    QuietLater(k.env, k.env);
    var k1 := k.LinkSetMTU(t.name, t.mtu).0;
    QuietLater(k.env, k1.env);
    AddressRepair(k1, t.name, t.address);
    var k2 := AddressEnsured(k1, t.name, t.address).0;
    QuietLater(k.env, k2.env);
    if t.desired.Disabled? {
      QuietMasquerade(k2, t, false);
      QuietLater(k.env, MasqueradeEnsured(k2, t, false).0.env);
    } else {
      var k3 := k2.LinkSetAdmin(t.name, true).0;
      QuietLater(k.env, k3.env);
      QuietMasquerade(k3, t, t.masquerade);
    }
  }

  // ---------- the theorems ----------

  /** The desired state of a tunnel that is not to be deleted holds on the host. */
  ghost predicate Applied(k: Kern, t: Tunnel) {
    && LinkApplied(k, t)
    && AddressIs(k.links[t.name].addrs, t.address)
    && k.egress.Some?
    && RulesAre(k.rules, t, k.egress.value, WantsMasquerade(t))
  }

  /**
    Under every plan: an error, of whatever kind and however late, leaves a host from which the
    goal is the same, unless it left a link under the name without the marker; and success means
    the goal's links are there. Both forms: enabled, or disabled with a link that will do.
  */
  lemma ReconcileHeals(k: Kern, t: Tunnel)
    requires Claimable(k, t) && (Keeps(k, t) || Available(k, t))
    requires t.desired.Disabled? ==> Keeps(k, t)
    ensures var (k', err) := Reconciled(k, t);
      && (Claimable(k', t) ==> SameGoal(k, k', t))
      && (err.None? ==> k'.links == GoalLinks(k, t) && k'.nextIndex == GoalIndex(k, t))
  {
    hide GoalLinks, GoalIndex, Configured, Acquire;
    AcquireHeals(k, t);
    var (k1, got) := Acquire(k, t);
    if got.Ready? { ConfigureHeals(k1, t); }
  }

  /** With nothing failing the goal is reached, links and rules. */
  lemma ReconcileReachesGoal(k: Kern, t: Tunnel)
    requires Claimable(k, t) && (Keeps(k, t) || Available(k, t)) && k.env.Quiet()
    requires t.desired.Disabled? ==> Keeps(k, t)
    requires k.egress.Some? && !t.address.BadCidr?
    ensures var (k', err) := Reconciled(k, t);
      && err.None?
      && k'.links == GoalLinks(k, t) && k'.nextIndex == GoalIndex(k, t)
      && k'.rules == GoalRules(k.rules, t, k.egress.value, WantsMasquerade(t))
  {
    hide GoalLinks, GoalIndex, GoalRules, Configured, Acquire;
    AcquireHeals(k, t);
    ReconcileHeals(k, t);
    var k1 := Acquire(k, t).0;
    QuietLater(k.env, k1.env);
    ConfigureQuiet(k1, t);
  }

  /** Success under any plan: link, endpoints, TTL, MTU, state and address are as stored. */
  lemma SuccessIsTruthful(k: Kern, t: Tunnel)
    requires Reconciled(k, t).1.None?
    ensures var k' := Reconciled(k, t).0;
      || (LinkApplied(k', t) && AddressIs(k'.links[t.name].addrs, t.address) && k'.egress.Some?)
      || (t.desired.Disabled? && t.name !in k'.links)
  {
    var (k1, got) := Acquire(k, t);
    if got.Ready? {
      ConfigureTunes(k1, t);
      RepairedIsAddress(k1.links[t.name].addrs, t.address, t.name);
    }
  }

  /** The host as the rule routine finds it in a reconcile that gets that far. */
  function AtRules(k: Kern, t: Tunnel): Kern {
    var k1 := Acquire(k, t).0;
    var k2 := k1.LinkSetMTU(t.name, t.mtu).0;
    var k3 := AddressEnsured(k2, t.name, t.address).0;
    if t.desired.Disabled? then k3 else k3.LinkSetAdmin(t.name, true).0
  }

  /** The plan from the first rule call of a reconcile on; the lookup of the route comes before it. */
  function RuleCalls(k: Kern, t: Tunnel): Env { AtRules(k, t).env.Next() }

  lemma AtRulesFrame(k: Kern, t: Tunnel)
    ensures AtRules(k, t).rules == k.rules && AtRules(k, t).egress == k.egress && k.env.Before(AtRules(k, t).env)
  {
    hide Acquire, AddressEnsured;
  }

  lemma SuccessIsRules(k: Kern, t: Tunnel)
    requires Reconciled(k, t).1.None? && Acquire(k, t).1.Ready?
    ensures MasqueradeEnsured(AtRules(k, t), t, WantsMasquerade(t)).1.None?
    ensures Reconciled(k, t).0.rules == MasqueradeEnsured(AtRules(k, t), t, WantsMasquerade(t)).0.rules
  {
    hide Acquire, AddressEnsured, MasqueradeEnsured, Foreign;
  }

  /**
    Under every plan: a reconcile that succeeds with a link there has brought about the desired
    state in full exactly if the calls that withdraw rules found, and removed, what was there.
    They ignore their errors, so success alone does not say so.
  */
  lemma SuccessAppliesIff(k: Kern, t: Tunnel)
    requires Reconciled(k, t).1.None? && t.name in Reconciled(k, t).0.links
    ensures k.egress.Some?
    ensures Applied(Reconciled(k, t).0, t) <==> Sweeps(k.rules, RuleCalls(k, t), t, k.egress.value, WantsMasquerade(t))
  {
    hide RulesAre, Sweeps, AddressIs, LinkApplied, MasqueradeEnsured, AtRules, Foreign, Configured, Acquire;
    SuccessIsTruthful(k, t);
    AtRulesFrame(k, t);
    SuccessIsRules(k, t);
    MasqueradeIff(AtRules(k, t), t, WantsMasquerade(t));
  }

  lemma SuccessIsTuned(k: Kern, t: Tunnel)
    requires Reconciled(k, t).1.None? && t.name in Reconciled(k, t).0.links
    ensures var k' := Reconciled(k, t).0;
      && Keeps(k', t) && Claimable(k', t) && k'.egress.Some? && !t.address.BadCidr?
      && Tuned(k'.links[t.name], t) == k'.links[t.name]
  {
    hide Repaired, Foreign, Configured;
    var (k1, got) := Acquire(k, t);
    assert got.Ready?;
    ConfigureTunes(k1, t);
    RepairedTwice(k1.links[t.name].addrs, t.address, t.name);
  }

  /** With nothing failing and no own rule doubled, success means the desired state in full. */
  lemma QuietSuccessApplies(k: Kern, t: Tunnel)
    requires k.env.Quiet() && Reconciled(k, t).1.None? && t.name in Reconciled(k, t).0.links
    requires k.egress.Some? ==> NoDoubles(k.rules, t, k.egress.value)
    ensures Applied(Reconciled(k, t).0, t)
  {
    hide NoDoubles, Sweeps, Applied, AtRules, Reconciled;
    SuccessAppliesIff(k, t);
    AtRulesFrame(k, t);
    QuietLater(k.env, RuleCalls(k, t));
    QuietSweeps(k.rules, RuleCalls(k, t), t, k.egress.value, WantsMasquerade(t));
  }

  /**
    A reconcile that succeeded, under whatever plan, repeated at any later time: it succeeds again,
    finds a link that will do, and leaves every link, the interface index included, and every
    address as they are. The ordered rules stay as they are exactly if they were as wanted.
  */
  lemma Idempotence(k: Kern, t: Tunnel, later: Env)
    requires later.Quiet() && Reconciled(k, t).1.None?
    ensures var k1 := Reconciled(k, t).0.(env := later);
      var (k2, err) := Reconciled(k1, t);
      && err.None? && k2.links == k1.links && k2.nextIndex == k1.nextIndex && k2.egress == k1.egress
      && (t.name in k1.links ==>
        && Keeps(k1, t) && k1.egress.Some?
        && (k2.rules == k1.rules <==> RulesAre(k1.rules, t, k1.egress.value, WantsMasquerade(t))))
      && (t.name !in k1.links ==> k2.rules == k1.rules)
  {
    hide GoalRules, RulesAre, Repaired, Configured, Created, RequiresRecreate, Foreign;
    QuietLater(later, later);
    var k0 := Reconciled(k, t).0;
    var k1 := k0.(env := later);
    SuccessIsTruthful(k, t);
    if t.name in k1.links {
      SuccessIsTuned(k, t);
      ReconcileReachesGoal(k1, t);
      GoalRulesFixpointIff(k1.rules, t, k1.egress.value, WantsMasquerade(t));
      assert k1.links[t.name := k1.links[t.name]] == k1.links;
    }
  }

  /** So with no rule doubled, two fault-free runs leave the host as one does. */
  lemma QuietIdempotence(k: Kern, t: Tunnel, later: Env)
    requires k.env.Quiet() && later.Quiet() && Reconciled(k, t).1.None?
    requires k.egress.Some? ==> NoDoubles(k.rules, t, k.egress.value)
    ensures var k1 := Reconciled(k, t).0.(env := later);
      Reconciled(k1, t).1.None? && Reconciled(k1, t).0.(env := later) == k1
  {
    hide Reconciled, NoDoubles, RulesAre, Keeps, LinkApplied, AddressIs;
    Idempotence(k, t, later);
    if t.name in Reconciled(k, t).0.links { QuietSuccessApplies(k, t); }
  }

  /** Dying anywhere in a reconcile does not move the goal of the rules either. */
  lemma DyingReconcileHealsRules(k: Kern, t: Tunnel, n: nat)
    requires k.env.DiesAt(n) && k.egress.Some? && NoDoubles(k.rules, t, k.egress.value)
    ensures var k' := Reconciled(k, t).0;
      && NoDoubles(k'.rules, t, k.egress.value)
      && (t.desired.Enabled? ==>
        GoalRules(k'.rules, t, k.egress.value, t.masquerade) == GoalRules(k.rules, t, k.egress.value, t.masquerade))
  {
    hide GoalRules, NoDoubles, MasqueradeEnsured, AddressEnsured, Acquire, Foreign;
    var (k1, got) := Acquire(k, t);
    if got.Ready? {
      var k2 := k1.LinkSetMTU(t.name, t.mtu).0;
      var k3 := AddressEnsured(k2, t.name, t.address).0;
      var k4 := k3.LinkSetAdmin(t.name, true).0;
      DyingLater(k.env, k4.env, n);
      UnmasqueradeHeals(k3, t);
      UnmasqueradeHeals(k4, t);
      if t.masquerade { DyingMasquerade(k4, t, n); }
    }
  }

  /** The same for a removal, under every plan; its goal is no link and no rules. */
  lemma RemoveHeals(k: Kern, t: Tunnel)
    requires Claimable(k, t) && k.egress.Some? && NoDoubles(k.rules, t, k.egress.value)
    ensures var (k', err) := Removed(k, t);
      && NoDoubles(k'.rules, t, k.egress.value)
      && GoalRules(k'.rules, t, k.egress.value, false) == GoalRules(k.rules, t, k.egress.value, false)
      && (k'.links == k.links || k'.links == k.links - {t.name})
      && (err.None? ==> k'.links == k.links - {t.name})
      && (k.env.Quiet() ==>
        && err.None? && k'.rules == GoalRules(k.rules, t, k.egress.value, false)
        && RulesAre(k'.rules, t, k.egress.value, false))
  {
    hide GoalRules, NoDoubles, RulesAre, MasqueradeEnsured, Foreign;
    UnmasqueradeHeals(k, t);
    var k1 := MasqueradeEnsured(k, t, false).0;
    assert t.name !in k.links ==> k.links == k.links - {t.name};
    GoalRulesTwice(k.rules, t, k.egress.value, false);
    if k.env.Quiet() {
      QuietMasquerade(k, t, false);
      QuietLater(k.env, k1.env);
      QuietLater(k.env, k1.env.Next());
    }
  }
}
