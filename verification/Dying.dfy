/** A process that dies reports no failure: whatever goes wrong goes wrong at the end, and the report with it. */
module Dying {
  import opened Domain
  import opened Kernel
  import opened Provider
  import opened Healing
  import opened Goal
  import opened Store
  import opened Controller
  import opened Frames

  // An error means that the end has been reached.

  lemma MarkCut(k: Kern, name: Name, marker: string, n: nat)
    requires k.env.DiesAt(n) && name in k.links
    ensures var (k', err) := OwnershipMarked(k, name, marker);
      err.Some? ==> n <= k'.env.pos
  {
    hide LinkFrame, Env.DiesAt;
    var e1 := k.env.Next();
    var e2 := e1.Next();
    DyingLater(k.env, k.env, n);
    DyingLater(k.env, e1, n);
    DyingLater(k.env, e2, n);
    DyingLater(k.env, e2.Next(), n);
  }

  lemma CreateCut(k: Kern, t: Tunnel, n: nat)
    requires k.env.DiesAt(n) && t.name !in k.links && Available(k, t)
    ensures var (k', got) := Created(k, t);
      got.Stop? ==> n <= k'.env.pos
  {
    hide OwnershipMarked, LinkFrame;
    DyingLater(k.env, k.env, n);
    var (k1, added) := k.LinkAdd(t.name, Fresh(0, t));
    DyingLater(k.env, k1.env, n);
    assert !k.TupleTaken(Fresh(0, t));
    if added.Ok? {
      var k2 := k1.LinkByName(t.name).0;
      DyingLater(k.env, k2.env, n);
      MarkCut(k2, t.name, Marker(t.id), n);
    }
  }

  lemma AcquireCut(k: Kern, t: Tunnel, n: nat)
    requires k.env.DiesAt(n) && Claimable(k, t) && (Keeps(k, t) || Available(k, t))
    requires t.desired.Disabled? ==> Keeps(k, t)
    ensures var (k', got) := Acquire(k, t);
      got.Stop? ==> n <= k'.env.pos
  {
    hide Created, LinkFrame;
    DyingLater(k.env, k.env, n);
    var (k1, found) := k.LinkByName(t.name);
    DyingLater(k.env, k1.env, n);
    if found.NotFound? {
      CreateCut(k1, t, n);
    } else if found.Ok? && RequiresRecreate(found.value, t) {
      var (k2, ok) := k1.LinkDel(t.name);
      DyingLater(k.env, k2.env, n);
      if ok { CreateCut(k2, t, n); }
    }
  }

  lemma {:induction false} DriftCut(
      k: Kern, name: Name, pre: seq<Address>, todo: seq<Address>, want: Option<Address>, n: nat)
    requires k.env.DiesAt(n) && name in k.links && k.links[name].addrs == pre + todo
    requires forall a :: a in pre ==> Some(a) == want
    ensures var (k', ok) := DriftDropped(k, name, todo, want);
      !ok ==> n <= k'.env.pos
    decreases |todo|
  {
    hide LinkFrame, RemoveFirst;
    if todo != [] && Some(todo[0]) == want {
      assert pre + todo == (pre + [todo[0]]) + todo[1..];
      DriftCut(k, name, pre + [todo[0]], todo[1..], want, n);
    } else if todo != [] {
      DyingLater(k.env, k.env, n);
      AddrDelStep(k, name, pre, todo);
      assert (pre + todo)[|pre|] == todo[0];
      var (k1, ok) := k.AddrDel(name, todo[0]);
      DyingLater(k.env, k1.env, n);
      if ok { DriftCut(k1, name, pre, todo[1..], want, n); }
    }
  }

  lemma AddressCut(k: Kern, name: Name, cidr: CidrText, n: nat)
    requires k.env.DiesAt(n) && name in k.links && !cidr.BadCidr?
    ensures var (k', err) := AddressEnsured(k, name, cidr);
      err.Some? ==> n <= k'.env.pos
  {
    hide DriftDropped;
    DyingLater(k.env, k.env, n);
    var (k1, list) := k.AddrList(name);
    DyingLater(k.env, k1.env, n);
    assert [] + k.links[name].addrs == k.links[name].addrs;
    DriftCut(k1, name, [], k.links[name].addrs, Wanted(cidr), n);
    DyingLater(k.env, DriftDropped(k1, name, k.links[name].addrs, Wanted(cidr)).0.env, n);
  }

  lemma EnsureCut(k: Kern, rule: Rule, marker: string, n: nat)
    requires k.env.DiesAt(n) && rule.Carries(marker)
    ensures var (k', ok) := RuleEnsured(k, rule, marker);
      !ok ==> n <= k'.env.pos
  {
    hide Foreign;
    DyingLater(k.env, k.env.Next(), n);
  }

  lemma MasqueradeCut(k: Kern, t: Tunnel, wanted: bool, n: nat)
    requires k.env.DiesAt(n) && k.egress.Some?
    ensures var (k', err) := MasqueradeEnsured(k, t, wanted);
      err.Some? ==> n <= k'.env.pos
  {
    hide Foreign, RuleEnsured, RemoveFirst;
    DyingLater(k.env, k.env, n);
    var k1 := k.DefaultRoute().0;
    if wanted {
      var k2 := k1.RuleDelete(LegacyRule(t));
      DyingLater(k.env, k2.env, n);
      EnsureCut(k2, IngressRule(t), Marker(t.id), n);
      var k3 := RuleEnsured(k2, IngressRule(t), Marker(t.id)).0;
      DyingLater(k.env, k3.env, n);
      EnsureCut(k3, NatRule(t, k.egress.value), Marker(t.id), n);
    }
  }

  lemma ConfigureCut(k: Kern, t: Tunnel, n: nat)
    requires Keeps(k, t) && k.links[t.name].alias == Marker(t.id)
    requires k.env.DiesAt(n) && k.egress.Some? && !t.address.BadCidr?
    ensures var (k', err) := Configured(k, t);
      err.Some? ==> n <= k'.env.pos
  {
    hide Foreign, MasqueradeEnsured, AddressEnsured;
    DyingLater(k.env, k.env, n);
    var k1 := k.LinkSetMTU(t.name, t.mtu).0;
    DyingLater(k.env, k1.env, n);
    AddressCut(k1, t.name, t.address, n);
    var k2 := AddressEnsured(k1, t.name, t.address).0;
    DyingLater(k.env, k2.env, n);
    MasqueradeCut(k2, t, false, n);
    DyingLater(k.env, MasqueradeEnsured(k2, t, false).0.env, n);
    var k3 := k2.LinkSetAdmin(t.name, true).0;
    DyingLater(k.env, k3.env, n);
    MasqueradeCut(k3, t, t.masquerade, n);
  }

  lemma ReconcileCut(k: Kern, t: Tunnel, n: nat)
    requires k.env.DiesAt(n) && Claimable(k, t) && (Keeps(k, t) || Available(k, t))
    requires t.desired.Disabled? ==> Keeps(k, t)
    requires k.egress.Some? && !t.address.BadCidr?
    ensures var (k', err) := Reconciled(k, t);
      err.Some? ==> n <= k'.env.pos
  {
    hide Acquire, Configured, Foreign;
    AcquireCut(k, t, n);
    var (k1, got) := Acquire(k, t);
    if got.Ready? {
      DyingLater(k.env, k1.env, n);
      ConfigureCut(k1, t, n);
    }
  }

  lemma RemoveCut(k: Kern, t: Tunnel, n: nat)
    requires k.env.DiesAt(n) && Claimable(k, t) && k.egress.Some?
    ensures var (k', err) := Removed(k, t);
      err.Some? ==> n <= k'.env.pos
  {
    hide MasqueradeEnsured, Foreign;
    MasqueradeCut(k, t, false, n);
    var k1 := MasqueradeEnsured(k, t, false).0;
    DyingLater(k.env, k1.env, n);
    DyingLater(k.env, k1.env.Next(), n);
  }

  // So no failure is ever reported: the report itself comes too late.

  lemma FailCut(w: World, t: Tunnel, message: string, n: nat)
    requires w.kern.env.DiesAt(n) && n <= w.kern.env.pos
    ensures Fail(w, t, message).1 == StoreError
  {
    DyingLater(w.kern.env, w.kern.env, n);
  }

  lemma ApplyCut(w: World, t: Tunnel, n: nat)
    requires w.kern.env.DiesAt(n) && Claimable(w.kern, t) && (Keeps(w.kern, t) || Available(w.kern, t))
    requires w.kern.egress.Some? && !t.address.BadCidr? && t.desired.Enabled?
    ensures ApplyOne(w, t).1 != Settled(false)
  {
    hide Reconciled, Fail, Mark, Foreign, RequiresRecreate;
    ReconcileCut(w.kern, t, n);
    ApplyKernel(w, t);
    var (k, err) := Reconciled(w.kern, t);
    DyingLater(w.kern.env, k.env, n);
    if err.Some? {
      FailCut(w.(kern := k), t, err.value, n);
    } else {
      var (k', seen) := Observed(k, t);
      DyingLater(w.kern.env, k'.env, n);
      if seen.failed { FailCut(w.(kern := k'), t, seen.message, n); }
    }
  }

  lemma RemoveOneCut(w: World, t: Tunnel, n: nat)
    requires w.kern.env.DiesAt(n) && Claimable(w.kern, t) && w.kern.egress.Some?
    ensures RemoveOne(w, t).1 != Settled(false)
  {
    hide Removed, Fail, Foreign;
    RemoveCut(w.kern, t, n);
    RemoveKernel(w, t);
    var (k, err) := Removed(w.kern, t);
    DyingLater(w.kern.env, k.env, n);
    if err.Some? { FailCut(w.(kern := k), t, err.value, n); }
  }
}
