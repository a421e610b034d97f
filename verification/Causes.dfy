/**
  Causes, told from the host: with nothing failing, what stops a step, in which words it is
  recorded, and what it leaves behind.
*/
module Causes {
  import opened Domain
  import opened Kernel
  import opened Provider
  import opened Healing
  import opened Goal
  import opened Store
  import opened Controller
  import opened Frames
  import opened QuietSteps
  import opened Failures
  import opened Settlement
  import opened Limits

  /** Another link has the endpoints. */
  predicate EndpointsTaken(k: Kern, t: Tunnel) {
    exists n | n in k.links && n != t.name ::
      k.links[n].gre && k.links[n].local == t.local.Parse() && k.links[n].remote == t.remote.Parse()
  }

  /** The link under the name has the stored endpoints and TTL. */
  predicate Suits(k: Kern, t: Tunnel) {
    && t.name in k.links
    && var link := k.links[t.name];
    && link.gre && link.local == t.local.Parse() && link.remote == t.remote.Parse() && link.ttl == Uint8(t.ttl)
  }

  predicate Unclaimed(k: Kern, t: Tunnel) {
    t.name in k.links && k.links[t.name].alias != "mikrotunnel:" + t.id
  }

  /** What stops a step when nothing fails, in the order in which it is met. */
  function Cause(k: Kern, t: Tunnel): Err {
    if t.desired.Deleted? then
      if k.egress.None? then Some("no IPv4 default route interface found")
      else if Unclaimed(k, t) then Some("not owned by MikroTunnel")
      else None
    else if Unclaimed(k, t) then Some("not owned by MikroTunnel")
    else if t.desired.Disabled? && t.name !in k.links then Some("managed GRE interface is absent")
    else if !Suits(k, t) && (t.local.Parse().None? || t.remote.Parse().None?) then Some("create GRE interface")
    else if !Suits(k, t) && EndpointsTaken(k, t) then Some("a conflicting GRE interface already exists")
    else if t.address.BadCidr? then Some("parse interface address")
    else if k.egress.None? then Some("no IPv4 default route interface found")
    else None
  }

  /** The link a step works on: the one there if it suits, else one made anew. */
  function Base(k: Kern, t: Tunnel): Link {
    if Suits(k, t) then k.links[t.name]
    else Link(k.nextIndex, true, t.local.Parse(), t.remote.Parse(), Uint8(t.ttl), t.mtu, Marker(t.id), false, [])
  }

  /** The links a step that is stopped leaves; rules it never comes to, but for a removal that is refused. */
  function LeftLinks(k: Kern, t: Tunnel): map<Name, Link> {
    if t.desired.Deleted? || Unclaimed(k, t) || (t.desired.Disabled? && t.name !in k.links) then k.links
    else if !Suits(k, t) && (t.local.Parse().None? || t.remote.Parse().None? || EndpointsTaken(k, t)) then
      k.links - {t.name}
    else if t.address.BadCidr? then k.links[t.name := Base(k, t).(mtu := t.mtu)]
    else
      k.links[t.name := Base(k, t).(
        mtu := t.mtu, addrs := Repaired(Base(k, t).addrs, t.address, t.name),
        up := if t.desired.Disabled? then Base(k, t).up else true)]
  }

  lemma SameWords(k: Kern, t: Tunnel)
    ensures Suits(k, t) <==> Keeps(k, t)
    ensures Unclaimed(k, t) <==> !Claimable(k, t)
    ensures Available(k, t) <==> t.local.Parse().Some? && t.remote.Parse().Some? && !EndpointsTaken(k, t)
    ensures Base(k, t) == if Keeps(k, t) then k.links[t.name] else Fresh(k.nextIndex, t)
  {
  }

  // ---------- getting hold of the link ----------

  lemma MadeAnew(k: Kern, t: Tunnel)
    requires k.env.Quiet() && t.name !in k.links
    ensures var (k', got) := Created(k, t);
      && (Available(k, t) ==>
        got.Ready? && k'.links == k.links[t.name := Fresh(k.nextIndex, t)])
      && (!Available(k, t) ==>
        && k'.links == k.links
        && got == Stop(if t.local.Parse().None? || t.remote.Parse().None? then "create GRE interface"
                       else "a conflicting GRE interface already exists"))
  {
    hide OwnershipMarked, LinkFrame;
    QuietLater(k.env, k.env);
    QuietLater(k.env, k.env.Next());
    if Available(k, t) {
      CreateHeals(k, t);
      MadeLinks(k, t);
    } else if t.local.Parse().Some? && t.remote.Parse().Some? {
      var n :| n in k.links && n != t.name && k.links[n].SameTuple(Fresh(0, t));
      assert k.TupleTaken(Fresh(0, t));
    }
  }

  lemma MadeLinks(k: Kern, t: Tunnel)
    requires t.name !in k.links && Created(k, t).1.Ready?
    requires t.name in Created(k, t).0.links && Created(k, t).0.links[t.name] == Fresh(k.nextIndex, t)
    ensures Created(k, t).0.links == k.links[t.name := Fresh(k.nextIndex, t)]
  {
    hide Created;
    var k' := Created(k, t).0;
    AgreeElsewhere(k.links, k'.links, t.name, Fresh(k.nextIndex, t));
    assert k'.links[t.name := Fresh(k.nextIndex, t)] == k'.links;
  }

  lemma QuietHold(k: Kern, t: Tunnel)
    requires k.env.Quiet() && Claimable(k, t) && (t.name in k.links || !t.desired.Disabled?)
    ensures var (k', got) := Acquire(k, t);
      && k'.rules == k.rules && k'.egress == k.egress && k.env.Before(k'.env)
      && (Keeps(k, t) || Available(k, t) ==> got.Ready? && k'.links == k.links[t.name := Base(k, t)])
      && (!Keeps(k, t) && !Available(k, t) ==>
        && k'.links == k.links - {t.name}
        && got == Stop(if t.local.Parse().None? || t.remote.Parse().None? then "create GRE interface"
                       else "a conflicting GRE interface already exists"))
  {
    hide Created, Available, Base;
    SameWords(k, t);
    QuietLater(k.env, k.env);
    var (k1, found) := k.LinkByName(t.name);
    QuietLater(k.env, k1.env);
    if t.name !in k.links {
      MadeAnew(k1, t);
      AvailableBeside(k, k1, t);
      assert k.links - {t.name} == k.links;
    } else if !Keeps(k, t) {
      var k2 := k1.LinkDel(t.name).0;
      QuietLater(k.env, k2.env);
      MadeAnew(k2, t);
      AvailableBeside(k, k2, t);
      AgreeElsewhere(k.links, k2.links, t.name, Fresh(k.nextIndex, t));
    }
  }

  // ---------- configuring it ----------

  /** Where the configuration stops and what it has done by then. */
  lemma QuietConfigure(k: Kern, t: Tunnel)
    requires k.env.Quiet() && Keeps(k, t) && k.links[t.name].alias == Marker(t.id)
    requires t.address.BadCidr? || k.egress.None?
    ensures var (k', err) := Configured(k, t);
      var link := k.links[t.name];
      && k'.rules == k.rules
      && (t.address.BadCidr? ==>
        err == Some("parse interface address") && k'.links == k.links[t.name := link.(mtu := t.mtu)])
      && (!t.address.BadCidr? ==>
        && err == Some("no IPv4 default route interface found")
        && k'.links == k.links[t.name := link.(
             mtu := t.mtu, addrs := Repaired(link.addrs, t.address, t.name),
             up := if t.desired.Disabled? then link.up else true)])
  {
    hide AddressEnsured, Repaired, Foreign, RequiresRecreate;
    QuietLater(k.env, k.env);
    var k1 := k.LinkSetMTU(t.name, t.mtu).0;
    QuietLater(k.env, k1.env);
    if t.address.BadCidr? {
      BadAddress(k1, t);
    } else {
      AddressRepair(k1, t.name, t.address);
      var k2 := AddressEnsured(k1, t.name, t.address).0;
      QuietLater(k.env, k2.env);
      Whole(k.links, k2.links, t.name);
      if !t.desired.Disabled? {
        var k3 := k2.LinkSetAdmin(t.name, true).0;
        QuietLater(k.env, k3.env);
      }
    }
  }

  lemma BadAddress(k: Kern, t: Tunnel)
    requires t.address.BadCidr?
    ensures AddressEnsured(k, t.name, t.address) == (k, Some("parse interface address"))
  {
  }

  lemma Whole(m: map<Name, Link>, m': map<Name, Link>, name: Name)
    requires m' - {name} == m - {name} && name in m'
    ensures m' == m[name := m'[name]]
  {
    AgreeElsewhere(m, m', name, m'[name]);
    assert m'[name := m'[name]] == m';
  }

  // ---------- the provider ----------

  lemma ReconcileCause(k: Kern, t: Tunnel)
    requires k.env.Quiet() && !t.desired.Deleted?
    ensures var (k', err) := Reconciled(k, t);
      && (t.desired.Disabled? && t.name !in k.links ==> err.None? && k'.links == k.links && k'.rules == k.rules)
      && (!(t.desired.Disabled? && t.name !in k.links) ==> err == Cause(k, t))
      && (err.Some? ==> k'.links == LeftLinks(k, t) && k'.rules == k.rules)
  {
    hide Acquire, Configured, Available, RequiresRecreate, Base, EndpointsTaken, Repaired, Foreign;
    SameWords(k, t);
    QuietReconcile(k, t);
    if !Claimable(k, t) {
      RefusedAtOnce(k, t);
    } else if t.desired.Disabled? && t.name !in k.links {
      NothingToDo(k, t);
    } else {
      QuietHold(k, t);
      var (k1, got) := Acquire(k, t);
      if got.Ready? && (t.address.BadCidr? || k.egress.None?) {
        QuietLater(k.env, k1.env);
        QuietConfigure(k1, t);
      }
    }
  }

  lemma RefusedAtOnce(k: Kern, t: Tunnel)
    requires k.env.Quiet() && !Claimable(k, t)
    ensures Acquire(k, t) == (k.Tick(), Stop("not owned by MikroTunnel"))
  {
    QuietLater(k.env, k.env);
  }

  lemma NothingToDo(k: Kern, t: Tunnel)
    requires k.env.Quiet() && t.desired.Disabled? && t.name !in k.links
    ensures Acquire(k, t) == (k.Tick(), Nothing)
  {
    QuietLater(k.env, k.env);
  }

  /** A removal looks for the route first: without one it touches nothing, under every plan. */
  lemma RemovalNeedsRoute(k: Kern, t: Tunnel)
    requires k.egress.None?
    ensures Removed(k, t) == (k.Tick(), Some("no IPv4 default route interface found"))
  {
  }

  lemma RemoveCause(k: Kern, t: Tunnel)
    requires k.env.Quiet() && t.desired.Deleted?
    ensures var (k', err) := Removed(k, t);
      && err == Cause(k, t)
      && (err.Some? ==> k'.links == k.links)
      && (k.egress.None? ==> k'.rules == k.rules)
      && (k.egress.Some? ==> k'.rules == GoalRules(k.rules, t, k.egress.value, false))
  {
    hide MasqueradeEnsured, GoalRules, Foreign;
    if k.egress.None? {
      RemovalNeedsRoute(k, t);
    } else {
      SameWords(k, t);
      QuietMasquerade(k, t, false);
      var k1 := MasqueradeEnsured(k, t, false).0;
      QuietLater(k.env, k1.env);
      QuietLater(k.env, k1.env.Next());
    }
  }

  // ---------- the whole step ----------

  lemma QuietStepError(k: Kern, t: Tunnel)
    requires k.env.Quiet() && t.typ.Gre?
    ensures StepError(k, t) == Cause(k, t)
  {
    hide Reconciled, Removed, Available, RequiresRecreate, Base, EndpointsTaken, Foreign;
    if t.desired.Deleted? {
      RemoveCause(k, t);
    } else {
      ReconcileCause(k, t);
      var (k1, err) := Reconciled(k, t);
      QuietLater(k.env, k1.env);
      SameWords(k, t);
    }
  }

  /**
    With nothing failing, a due step of a stored tunnel fails exactly if there is a cause, and then
    that cause is what the row shows and what every operation it closes says.
  */
  lemma CauseIsRecorded(w: World, t: Tunnel)
    requires w.kern.env.Quiet() && w.db.Valid() && t.id in w.db.tunnels && w.db.tunnels[t.id] == t
    requires t.typ.Gre? && (t.retryAt.Some? ==> t.retryAt.value <= w.Now())
    ensures var (w', v) := ReconcileOne(w, t);
      var cause := Cause(w.kern, t);
      && v == Settled(cause.None?)
      && (cause.Some? ==>
        FailureRecorded(w.db.ops, w', t, cause.value, w.Now()) && w'.kern.links == LeftLinks(w.kern, t))
  {
    hide ReconcileOne, Available, RequiresRecreate, Base, EndpointsTaken, FailureRecorded, Repaired;
    QuietExecute(w, w.db.MarkOperationsRunning(t.id));
    var k := w.kern.Tick();
    CauseIsTimeless(w.kern, k, t);
    QuietStepError(k, t);
    SameWords(w.kern, t);
    QuietVerdict(w, t);
    QuietSettles(w, t);
    if ReconcileOne(w, t).1 == Settled(false) {
      FailureIsRecorded(w, t);
      StepLeaves(w, t);
    }
  }

  lemma CauseIsTimeless(k: Kern, k': Kern, t: Tunnel)
    requires k' == k.(env := k'.env)
    ensures Cause(k', t) == Cause(k, t) && LeftLinks(k', t) == LeftLinks(k, t)
  {
  }

  /** With nothing failing a due step closes its operations one way or the other. */
  lemma QuietSettles(w: World, t: Tunnel)
    requires w.kern.env.Quiet() && w.db.Valid() && t.id in w.db.tunnels && w.db.tunnels[t.id] == t
    requires t.typ.Gre? && Due(t, w.Now())
    ensures ReconcileOne(w, t).1.Settled?
  {
    hide ReconcileOne;
    assert w.kern.env.StoreWorks();
    StepConcludes(w, t);
  }

  lemma StepLeaves(w: World, t: Tunnel)
    requires w.kern.env.Quiet() && t.typ.Gre? && Due(t, w.Now()) && ReconcileOne(w, t).1 == Settled(false)
    requires Cause(w.kern, t).Some?
    ensures ReconcileOne(w, t).0.kern.links == LeftLinks(w.kern, t)
  {
    hide ApplyOne, RemoveOne, Fail, Reconciled, Removed, Cause, LeftLinks, Foreign;
    QuietExecute(w, w.db.MarkOperationsRunning(t.id));
    var w1 := w.Execute(w.db.MarkOperationsRunning(t.id)).0;
    CauseIsTimeless(w.kern, w1.kern, t);
    if t.desired.Deleted? {
      RemoveCause(w1.kern, t);
      RemoveKernel(w1, t);
      DeletedLeft(w.kern, t);
    } else {
      ReconcileCause(w1.kern, t);
      ApplyKernel(w1, t);
      DisabledLeft(w.kern, t);
    }
  }

  lemma DeletedLeft(k: Kern, t: Tunnel)
    requires t.desired.Deleted?
    ensures LeftLinks(k, t) == k.links
  {
  }

  lemma DisabledLeft(k: Kern, t: Tunnel)
    ensures t.desired.Disabled? && t.name !in k.links ==> LeftLinks(k, t) == k.links
  {
  }

  // ---------- the step always concludes while the store works ----------

  lemma CompleteConcludes(w: World, id: TunnelId, success: bool, message: Message)
    requires w.kern.env.StoreWorks()
    ensures Complete(w, id, success, message).1 == Settled(success)
  {
    WorksLater(w.kern.env, w.kern.env);
  }

  lemma FailConcludes(w: World, t: Tunnel, message: string)
    requires w.kern.env.StoreWorks() && Holds(w.db, t)
    ensures Fail(w, t, message).1 == Settled(false)
  {
    hide Complete, Mark, RetryDelay;
    var failed := FailedRow(t, w.Now());
    MarkHolds(w, failed, Error, message);
    CompleteConcludes(
      Mark(w, failed, Error, message).0, t.id, false, Retry(message, RetryDelay(failed.failureCount)));
  }

  lemma RecordConcludes(w: World, t: Tunnel, seen: Observation)
    requires w.kern.env.StoreWorks() && Holds(w.db, t)
    ensures RecordOne(w, t, seen).1.Settled?
  {
    hide Complete, Mark, Fail;
    MarkHolds(w, t, seen.state, seen.message);
    var w1 := Mark(w, t, seen.state, seen.message).0;
    FailConcludes(w1, t, seen.message);
    CompleteConcludes(w1, t.id, true, Text("desired state applied"));
  }

  lemma ApplyConcludes(w: World, t: Tunnel)
    requires w.kern.env.StoreWorks() && Holds(w.db, t)
    ensures ApplyOne(w, t).1.Settled?
  {
    hide Reconciled, Fail, RecordOne;
    var (k, err) := Reconciled(w.kern, t);
    WorksLater(w.kern.env, k.env);
    if err.Some? {
      FailConcludes(w.(kern := k), t, err.value);
    } else {
      var (k', seen) := Observed(k, t);
      WorksLater(w.kern.env, k'.env);
      FailConcludes(w.(kern := k'), t, seen.message);
      RecordConcludes(w.(kern := k'), t, seen);
    }
  }

  lemma RemoveConcludes(w: World, t: Tunnel)
    requires w.kern.env.StoreWorks() && Holds(w.db, t)
    ensures RemoveOne(w, t).1.Settled?
  {
    hide Removed, Fail, Complete;
    var (k, err) := Removed(w.kern, t);
    var w1 := w.(kern := k);
    WorksLater(w.kern.env, k.env);
    if err.Some? {
      FailConcludes(w1, t, err.value);
    } else {
      WorksLater(k.env, k.env.Next());
      CompleteConcludes(w1.Execute(w1.db.DeleteTunnel(t.id)).0, t.id, true, Text("tunnel removed"));
    }
  }

  /** While the store works, a step is skipped or it settles; whatever the host does. */
  lemma StepConcludes(w: World, t: Tunnel)
    requires w.kern.env.StoreWorks() && w.db.Valid() && t.id in w.db.tunnels && w.db.tunnels[t.id].name == t.name
    ensures if Due(t, w.Now()) then ReconcileOne(w, t).1.Settled? else ReconcileOne(w, t) == (w, Skipped)
  {
    hide RemoveOne, ApplyOne, Fail;
    WorksLater(w.kern.env, w.kern.env);
    WorksLater(w.kern.env, w.kern.env.Next());
    var w1 := w.Execute(w.db.MarkOperationsRunning(t.id)).0;
    if Due(t, w.Now()) {
      if !t.typ.Gre? {
        FailConcludes(w, t, "provider is not installed");
      } else if t.desired.Deleted? {
        RemoveConcludes(w1, t);
      } else {
        ApplyConcludes(w1, t);
      }
    }
  }

  // ---------- rows that are gone ----------

  lemma FailOnNothing(w: World, t: Tunnel, message: string)
    requires t.id !in w.db.tunnels
    ensures Fail(w, t, message).1 == StoreError && Fail(w, t, message).0.db == w.db
  {
    hide RetryDelay, Db.NameTaken;
  }

  lemma ApplyOnNothing(w: World, t: Tunnel)
    requires t.id !in w.db.tunnels
    ensures ApplyOne(w, t).1 == StoreError && ApplyOne(w, t).0.db == w.db
  {
    hide Reconciled, Fail, Db.NameTaken;
    var (k, err) := Reconciled(w.kern, t);
    if err.Some? { FailOnNothing(w.(kern := k), t, err.value); }
    var (k', seen) := Observed(k, t);
    FailOnNothing(w.(kern := k'), t, seen.message);
  }

  lemma RemoveOnNothing(w: World, t: Tunnel)
    requires t.id !in w.db.tunnels
    ensures RemoveOne(w, t).1 == StoreError && RemoveOne(w, t).0.db == w.db
  {
    hide Removed, Fail, Complete;
    var (k, err) := Removed(w.kern, t);
    if err.Some? { FailOnNothing(w.(kern := k), t, err.value); }
  }

  /** A step from a row that is no longer stored settles nothing and makes no row, under every plan. */
  lemma StaleStepSettlesNothing(w: World, t: Tunnel)
    requires t.id !in w.db.tunnels
    ensures var (w', v) := ReconcileOne(w, t);
      && v in [Skipped, StoreError] && w'.db.tunnels == w.db.tunnels
      && (w'.db.ops == w.db.ops || w'.db.ops == w.db.MarkOperationsRunning(t.id).0.ops)
  {
    hide ApplyOne, RemoveOne, Fail, RunningOp;
    FailOnNothing(w, t, "provider is not installed");
    var w1 := w.Execute(w.db.MarkOperationsRunning(t.id)).0;
    ApplyOnNothing(w1, t);
    RemoveOnNothing(w1, t);
  }
}
