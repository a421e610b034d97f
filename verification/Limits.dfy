/**
  Where the guarantees end. Each lemma gives the exact condition under which a stronger promise
  holds, or shows what is left when it does not.
*/
module Limits {
  import opened Domain
  import opened Kernel
  import opened Provider
  import opened Healing
  import opened Goal
  import opened Store
  import opened Controller
  import opened Frames
  import opened QuietSteps
  import opened Api
  import opened Runs
  import opened Settlement
  import opened Convergence

  // ---------- when a fault-free step succeeds ----------

  /** A link can be had: the one that is there will do, or one can be made. */
  predicate Acquirable(k: Kern, t: Tunnel) {
    && Claimable(k, t)
    && (Keeps(k, t) || (Available(k, t) && (t.name in k.links || !t.desired.Disabled?)))
  }

  lemma QuietCreate(k: Kern, t: Tunnel)
    requires k.env.Quiet() && t.name !in k.links
    ensures Created(k, t).1.Ready? <==> Available(k, t)
  {
    hide OwnershipMarked, LinkFrame;
    if Available(k, t) { CreateHeals(k, t); }
    QuietLater(k.env, k.env);
    QuietLater(k.env, k.env.Next());
  }

  lemma AvailableBeside(k: Kern, k': Kern, t: Tunnel)
    requires k'.links - {t.name} == k.links - {t.name}
    ensures Available(k', t) == Available(k, t)
  {
    forall n | n != t.name ensures n in k.links <==> n in k'.links
                           ensures n in k.links ==> k'.links[n] == k.links[n] {
      Elsewhere(k.links, k'.links, t.name, n);
    }
  }

  lemma QuietAcquire(k: Kern, t: Tunnel)
    requires k.env.Quiet()
    ensures Acquire(k, t).1.Ready? <==> Acquirable(k, t)
    ensures Acquire(k, t).1.Nothing? <==> t.desired.Disabled? && t.name !in k.links
  {
    hide Created, LinkFrame;
    QuietLater(k.env, k.env);
    var (k1, found) := k.LinkByName(t.name);
    QuietLater(k.env, k1.env);
    if t.name !in k.links {
      QuietCreate(k1, t);
    } else if Claimable(k, t) && !Keeps(k, t) {
      var k2 := k1.LinkDel(t.name).0;
      QuietLater(k.env, k2.env);
      QuietCreate(k2, t);
      AvailableBeside(k, k2, t);
    }
  }

  /** Without faults a reconcile succeeds exactly if this holds; disabled and absent is enough too. */
  lemma QuietReconcile(k: Kern, t: Tunnel)
    requires k.env.Quiet()
    ensures Reconciled(k, t).1.None? <==>
      || (t.desired.Disabled? && t.name !in k.links)
      || (Acquirable(k, t) && k.egress.Some? && !t.address.BadCidr?)
  {
    hide Configured, Acquire, Foreign, Acquirable;
    QuietAcquire(k, t);
    var (k1, got) := Acquire(k, t);
    if got.Ready? && k.egress.Some? && !t.address.BadCidr? {
      QuietLater(k.env, k1.env);
      ConfigureQuiet(k1, t);
    }
  }

  predicate Achievable(k: Kern, t: Tunnel) {
    && k.egress.Some?
    && if t.desired.Deleted? then Claimable(k, t)
       else Acquirable(k, t) && !t.address.BadCidr?
  }

  lemma QuietRemove(k: Kern, t: Tunnel)
    requires k.env.Quiet()
    ensures Removed(k, t).1.None? <==> k.egress.Some? && Claimable(k, t)
  {
    hide MasqueradeEnsured, Foreign;
    if k.egress.Some? {
      QuietMasquerade(k, t, false);
      if Claimable(k, t) { QuietRemoval(k, t); }
    }
  }

  lemma QuietApplyVerdict(w: World, t: Tunnel)
    requires w.kern.env.Quiet() && w.db.Valid() && t.id in w.db.tunnels && w.db.tunnels[t.id] == t
    requires !t.desired.Deleted?
    ensures ApplyOne(w, t).1 == Settled(true) <==> Achievable(w.kern, t)
  {
    hide Reconciled, Fail, Complete, Mark, Claimable, Available, Foreign, RequiresRecreate;
    QuietReconcile(w.kern, t);
    var (k, err) := Reconciled(w.kern, t);
    if err.Some? {
      FailIsNoSuccess(w.(kern := k), t, err.value);
    } else {
      QuietLater(w.kern.env, k.env);
      var (k', seen) := Observed(k, t);
      QuietLater(w.kern.env, k'.env);
      RecordIsNoSuccess(w.(kern := k'), t, seen);
      if t.desired.Disabled? && t.name !in w.kern.links { DisabledApply(w, t); }
      if t.name in k.links { QuietRecord(w.(kern := k'), t, seen.state, seen.message); }
    }
  }

  lemma QuietRemoveVerdict(w: World, t: Tunnel)
    requires w.kern.env.Quiet() && t.id in w.db.tunnels && t.desired.Deleted?
    ensures RemoveOne(w, t).1 == Settled(true) <==> Achievable(w.kern, t)
  {
    hide Removed, Fail, Foreign;
    QuietRemove(w.kern, t);
    var (k, err) := Removed(w.kern, t);
    var w1 := w.(kern := k);
    if err.Some? {
      FailIsNoSuccess(w1, t, err.value);
    } else {
      QuietLater(w.kern.env, k.env);
      QuietExecute(w1, w1.db.DeleteTunnel(t.id));
      var w2 := w1.Execute(w1.db.DeleteTunnel(t.id)).0;
      QuietLater(w2.kern.env, w2.kern.env);
    }
  }

  /**
    With nothing failing, a due step succeeds exactly if the desired state can be had: a default
    route; the name free or held by the tunnel's own link; and, to stay, an address that parses and
    a link that will do or endpoints nobody else holds. A disabled tunnel needs its link there.
  */
  lemma QuietVerdict(w: World, t: Tunnel)
    requires w.kern.env.Quiet() && w.db.Valid() && t.id in w.db.tunnels && w.db.tunnels[t.id] == t
    requires t.typ.Gre? && Due(t, w.Now())
    ensures ReconcileOne(w, t).1 == Settled(true) <==> Achievable(w.kern, t)
  {
    hide ApplyOne, RemoveOne, Claimable, Available, RequiresRecreate;
    QuietExecute(w, w.db.MarkOperationsRunning(t.id));
    var w1 := w.Execute(w.db.MarkOperationsRunning(t.id)).0;
    KernIgnoresEnv(w.kern, w1.kern, t);
    if t.desired.Deleted? { QuietRemoveVerdict(w1, t); } else { QuietApplyVerdict(w1, t); }
  }

  /** A disabled tunnel whose link is absent fails on every attempt, whatever the plan. */
  lemma DisabledAndAbsentNeverSucceeds(w: World, t: Tunnel)
    requires t.desired.Disabled? && t.name !in w.kern.links
    ensures var (w', v) := ReconcileOne(w, t);
      v != Settled(true) && w'.kern.links == w.kern.links
  {
    hide Fail, ApplyOne, Fulfilled;
    FailIsNoSuccess(w, t, "provider is not installed");
    FailKernel(w, t, "provider is not installed");
    var w1 := w.Execute(w.db.MarkOperationsRunning(t.id)).0;
    ApplyKernel(w1, t);
    DisabledApply(w1, t);
  }

  lemma DisabledApply(w: World, t: Tunnel)
    requires t.desired.Disabled? && t.name !in w.kern.links
    ensures ApplyOne(w, t).1 != Settled(true) && Reconciled(w.kern, t).0.links == w.kern.links
  {
    hide Fail, RecordOne, Foreign, Created;
    var (k, err) := Reconciled(w.kern, t);
    if err.Some? { FailIsNoSuccess(w.(kern := k), t, err.value); }
    var (k', seen) := Observed(k, t);
    FailIsNoSuccess(w.(kern := k'), t, seen.message);
    RecordIsNoSuccess(w.(kern := k'), t, seen);
  }

  // ---------- one pass ----------

  lemma NoRoomNoLink(k: Kern, t: Tunnel)
    requires k.env.Quiet() && Claimable(k, t) && !Keeps(k, t) && !Available(k, t)
    ensures t.name !in Reconciled(k, t).0.links
  {
    hide Configured, LinkFrame, OwnershipMarked, Foreign;
    QuietLater(k.env, k.env);
    var (k1, found) := k.LinkByName(t.name);
    QuietLater(k.env, k1.env);
    if found.Ok? {
      var k2 := k1.LinkDel(t.name).0;
      AvailableBeside(k, k2, t);
      NoRoomNoCreation(k2, t);
    } else {
      NoRoomNoCreation(k1, t);
    }
  }

  lemma NoRoomNoCreation(k: Kern, t: Tunnel)
    requires t.name !in k.links && !Available(k, t)
    ensures var (k', got) := Created(k, t); got.Stop? && t.name !in k'.links
  {
    hide LinkFrame, OwnershipMarked;
  }

  /**
    A tunnel that comes first and finds its endpoints taken has no link after that pass; a second
    pass is needed, and by the two-pass theorem enough.
  */
  lemma OnePassIsNotEnough(w: World, rows: seq<Tunnel>)
    requires PassReady(w, rows) && rows != [] && !rows[0].desired.Deleted?
    requires !Keeps(w.kern, rows[0]) && !Available(w.kern, rows[0])
    ensures rows[0].name !in Pass(w, rows).kern.links && !Converged(Pass(w, rows), rows[0])
  {
    hide ReconcileOne, Reconciled, ApplyOne, Available, Claimable, Foreign, ForeignToAll, DbFrame;
    var s := rows[0];
    PassReadyStep(w, rows);
    FirstStepNoRoom(w, s);
    var w1 := ReconcileOne(w, s).0;
    forall t | t in rows[1..] ensures t.name != s.name { RowNamesDiffer(w, rows, t); }
    PassOwnership(w1, rows[1..], s.name, set t | t in rows[1..] :: Marker(t.id));
  }

  lemma FirstStepNoRoom(w: World, t: Tunnel)
    requires Startable(w, t) && !t.desired.Deleted? && !Keeps(w.kern, t) && !Available(w.kern, t)
    ensures t.name !in ReconcileOne(w, t).0.kern.links
  {
    hide Reconciled, ApplyOne, RemoveOne, Fail, Available, Claimable;
    QuietExecute(w, w.db.MarkOperationsRunning(t.id));
    var w1 := w.Execute(w.db.MarkOperationsRunning(t.id)).0;
    KernIgnoresEnv(w.kern, w1.kern, t);
    NoRoomNoLink(w1.kern, t);
    ApplyKernel(w1, t);
  }

  // ---------- rules ----------

  /** A rule for another egress than the present one is left where it is by every reconcile and removal. */
  lemma OtherEgressRuleStays(k: Kern, t: Tunnel, former: Name)
    requires k.egress != Some(former) && NatRule(t, former) in k.rules
    ensures NatRule(t, former) in Reconciled(k, t).0.rules
    ensures NatRule(t, former) in Removed(k, t).0.rules
  {
    hide Acquire, AddressEnsured, MasqueradeEnsured, Foreign, Reconciled;
    OtherRuleStays(k, t, NatRule(t, former), false);
    OtherEgressRuleStaysHere(k, t, former);
  }

  lemma OtherEgressRuleStaysHere(k: Kern, t: Tunnel, former: Name)
    requires k.egress != Some(former) && NatRule(t, former) in k.rules
    ensures NatRule(t, former) in Reconciled(k, t).0.rules
  {
    hide Acquire, AddressEnsured, MasqueradeEnsured, Foreign, Marker;
    var (k1, got) := Acquire(k, t);
    if got.Ready? {
      var k2 := k1.LinkSetMTU(t.name, t.mtu).0;
      var k3 := AddressEnsured(k2, t.name, t.address).0;
      OtherRuleStays(k3, t, NatRule(t, former), false);
      OtherRuleStays(k3.LinkSetAdmin(t.name, true).0, t, NatRule(t, former), t.masquerade);
    }
  }

  lemma OtherRuleStays(k: Kern, t: Tunnel, rule: Rule, wanted: bool)
    requires rule in k.rules && rule != IngressRule(t) && rule != LegacyRule(t)
    requires k.egress.Some? ==> rule != NatRule(t, k.egress.value)
    ensures rule in MasqueradeEnsured(k, t, wanted).0.rules
  {
    hide Foreign, RemoveFirst;
    var (k1, egress) := k.DefaultRoute();
    if egress.Some? && !wanted {
      var k2 := RuleRemoved(k1, IngressRule(t), Marker(t.id));
      RemoveFirstMembers(k1.rules, IngressRule(t), rule);
      var k3 := RuleRemoved(k2, NatRule(t, egress.value), Marker(t.id));
      RemoveFirstMembers(k2.rules, NatRule(t, egress.value), rule);
      RemoveFirstMembers(k3.rules, LegacyRule(t), rule);
    } else if egress.Some? {
      RemoveFirstMembers(k1.rules, LegacyRule(t), rule);
    }
  }

  /** The three rules the provider looks for. */
  predicate Known(rule: Rule, t: Tunnel, egress: Name) {
    rule in [IngressRule(t), NatRule(t, egress), LegacyRule(t)]
  }

  /**
    A fault-free removal leaves no rule with the tunnel's marker exactly if there was none but for
    the present egress and the present name.
  */
  lemma RemovalLeavesNoRuleIff(k: Kern, t: Tunnel)
    requires k.env.Quiet() && k.egress.Some? && Claimable(k, t) && NoDoubles(k.rules, t, k.egress.value)
    ensures
      (forall r | r in Removed(k, t).0.rules :: !r.Carries(Marker(t.id))) <==>
      (forall r | r in k.rules && r.Carries(Marker(t.id)) :: Known(r, t, k.egress.value))
  {
    hide Removed, Foreign;
    RemoveHeals(k, t);
    forall r ensures r in Removed(k, t).0.rules <==> r in k.rules && !Known(r, t, k.egress.value) {
      var r1 := RemoveFirst(k.rules, IngressRule(t));
      RemoveFirstMembers(k.rules, IngressRule(t), r);
      RemoveFirstMembers(r1, NatRule(t, k.egress.value), r);
      RemoveFirstMembers(RemoveFirst(r1, NatRule(t, k.egress.value)), LegacyRule(t), r);
    }
  }

  // ---------- renames ----------

  /** No row has the name. */
  ghost predicate Nameless(db: Db, n: Name) {
    forall id | id in db.tunnels :: db.tunnels[id].name != n
  }

  /** The step gives the name to no row, and is not somebody else's change of the link. */
  ghost predicate Avoids(s: Sys, step: Step, n: Name) {
    match step
    case Create(input, _) => input.name != n
    case Update(_, input) => input.name != n
    case Import(name, _, _) => name != n
    case Outside(links, _, _) => SameLink(s.world.kern.links, links, n)
    case _ => true
  }

  ghost predicate SameLink(m: map<Name, Link>, m': map<Name, Link>, n: Name) {
    (n in m' <==> n in m) && (n in m ==> m'[n] == m[n])
  }

  lemma NamesElsewhere(db: Db, db': Db, id: TunnelId, n: Name)
    requires db'.tunnels - {id} == db.tunnels - {id} && Nameless(db, n)
    requires id in db'.tunnels ==> db'.tunnels[id].name != n
    ensures Nameless(db', n)
  {
    forall other | other in db'.tunnels ensures db'.tunnels[other].name != n {
      if other != id { RowsElsewhere(db, db', id, other); }
    }
  }

  lemma CreatedName(w: World, raw: TunnelInput, id: TunnelId)
    ensures TunnelCreated(w, raw, id).1 == 201 ==> TunnelCreated(w, raw, id).0.db.tunnels[id].name == raw.name
  {
    hide HandlerFrame, Validate, InBounds;
  }

  lemma StepAvoids(s: Sys, step: Step, n: Name)
    requires Sound(s) && Possible(s, step) && Nameless(s.world.db, n) && Avoids(s, step, n)
    ensures var w, w' := s.world, Next(s, step).world;
      Nameless(w'.db, n) && SameLink(w.kern.links, w'.kern.links, n)
  {
    hide TunnelCreated, TunnelUpdated, TunnelDeleted, StateSet, Imported;
    hide Pass, Restarted, LogGrows, ForeignToAll;
    var w, w' := s.world, Next(s, step).world;
    match step
    case Create(raw, id) => CreatedName(w, raw, id); NamesElsewhere(w.db, w'.db, id, n);
    case Update(id, _) => NamesElsewhere(w.db, w'.db, id, n);
    case Delete(id) => NamesElsewhere(w.db, w'.db, id, n);
    case SetState(id, _) => NamesElsewhere(w.db, w'.db, id, n);
    case Import(name, id, order) =>
      ImportFrame(w, name, id, order);
      NamesElsewhere(w.db, w'.db, id, n);
      Elsewhere(w.kern.links, w'.kern.links, name, n);
    case Sweep(rows) =>
      var w1 := w.(kern := w.kern.Tick());
      SweepFrame(w1, rows);
      PassOwnership(w1, rows, n, set t | t in rows :: Marker(t.id));
    case Restart => RestartFrame(w);
    case Outside(_, _, _) =>
  }

  /** While no row has a name, the link under it, whoever's it is, stays as it is. */
  lemma {:induction false} NobodysLinkStays(ss: seq<Sys>, steps: seq<Step>, n: Name, i: nat, j: nat)
    requires Run(ss, steps) && i <= j < |ss| && Nameless(ss[i].world.db, n)
    requires forall x | i <= x < j :: Avoids(ss[x], steps[x], n)
    ensures Nameless(ss[j].world.db, n) && SameLink(ss[i].world.kern.links, ss[j].world.kern.links, n)
    decreases j
  {
    hide Next, Sound, Run, Possible, Nameless, Avoids;
    if i < j {
      RunLengths(ss, steps);
      NobodysLinkStays(ss, steps, n, i, j - 1);
      RunStep(ss, steps, j - 1);
      StepAvoids(ss[j - 1], steps[j - 1], n);
    }
  }

  lemma RunLengths(ss: seq<Sys>, steps: seq<Step>)
    requires Run(ss, steps)
    ensures |ss| == |steps| + 1
  {
  }

  /**
    After a rename no later step of a run touches the interface under the former name, marked as it
    is: not a pass, not a delete of the tunnel. It ends only when a row is given that name again.
  */
  lemma RenameLeavesOldLink(ss: seq<Sys>, steps: seq<Step>, i: nat, j: nat)
    requires Run(ss, steps) && i < j < |ss| && steps[i].Update?
    requires var Update(id, raw) := steps[i];
      var w := ss[i].world;
      && TunnelUpdated(w, id, raw).1 == 200 && id in w.db.tunnels && raw.name != w.db.tunnels[id].name
      && forall x | i < x < j :: Avoids(ss[x], steps[x], w.db.tunnels[id].name)
    ensures SameLink(ss[i].world.kern.links, ss[j].world.kern.links, ss[i].world.db.tunnels[steps[i].id].name)
  {
    hide Run, Avoids, TunnelUpdated, LogGrows, InBounds;
    RunStep(ss, steps, i);
    var w, id := ss[i].world, steps[i].id;
    var n := w.db.tunnels[id].name;
    var db' := ss[i + 1].world.db;
    forall other | other in db'.tunnels ensures db'.tunnels[other].name != n {
      if other != id { RowsElsewhere(w.db, db', id, other); }
    }
    NobodysLinkStays(ss, steps, n, i + 1, j);
  }

  /** So a finished delete leaves no link marked exactly if none was under another name. */
  lemma DeleteLeavesNoMarkIff(w: World, t: Tunnel)
    requires t.id in w.db.tunnels && t.id !in ReconcileOne(w, t).0.db.tunnels
    ensures Unmarked(ReconcileOne(w, t).0.kern, t.id) <==>
      forall n | n in w.kern.links && n != t.name :: w.kern.links[n].alias != Marker(t.id)
  {
    hide ReconcileOne, Foreign, DbFrame;
    OnlyDeletedRowsGo(w, t);
    ReconcileOneFrame(w, t);
    var k, k' := w.kern, ReconcileOne(w, t).0.kern;
    forall n | n != t.name
      ensures n in k'.links <==> n in k.links
      ensures n in k.links ==> k'.links[n] == k.links[n]
    {
      Elsewhere(k.links, k'.links, t.name, n);
    }
  }

  // ---------- orphaned operations ----------

  /** An open operation of a tunnel whose row is gone. */
  ghost predicate Orphaned(s: Sys, id: TunnelId, i: nat) {
    Gone(s, id) && i < |s.world.db.ops| && s.world.db.ops[i].resource == id && s.world.db.ops[i].Open()
  }

  lemma {:induction false} PassOps(w: World, rows: seq<Tunnel>, i: nat)
    requires i < |w.db.ops| && forall t | t in rows :: t.id != w.db.ops[i].resource
    ensures i < |Pass(w, rows).db.ops| && Pass(w, rows).db.ops[i] == w.db.ops[i]
    decreases |rows|
  {
    hide ReconcileOne, OwnershipFrame, Advances;
    if rows != [] {
      assert rows[0] in rows;
      ReconcileOneFrame(w, rows[0]);
      PassOps(ReconcileOne(w, rows[0]).0, rows[1..], i);
    }
  }

  lemma LogKept(ops: seq<Operation>, ops': seq<Operation>, id: TunnelId, i: nat)
    requires LogGrows(ops, ops', id) && i < |ops|
    ensures i < |ops'| && ops'[i] == ops[i]
  {
    assert ops'[..|ops|] == ops;
  }

  lemma OrphanStep(s: Sys, step: Step, id: TunnelId, i: nat)
    requires Sound(s) && Possible(s, step) && Orphaned(s, id, i)
    ensures Orphaned(Next(s, step), id, i)
  {
    hide TunnelCreated, TunnelUpdated, TunnelDeleted, StateSet, Imported, Pass, Restarted, LogGrows;
    DeletionStep(s, step, id);
    StepSound(s, step);
    var w, w' := s.world, Next(s, step).world;
    match step
    case Create(_, j) => LogKept(w.db.ops, w'.db.ops, j, i);
    case Update(j, _) => LogKept(w.db.ops, w'.db.ops, j, i);
    case Delete(j) => LogKept(w.db.ops, w'.db.ops, j, i);
    case SetState(j, _) => LogKept(w.db.ops, w'.db.ops, j, i);
    case Import(name, j, order) =>
      ImportFrame(w, name, j, order);
      LogKept(w.db.ops, w'.db.ops, j, i);
    case Sweep(rows) => PassOps(w.(kern := w.kern.Tick()), rows, i);
    case Restart => RestartFrame(w);
    case Outside(_, _, _) =>
  }

  /** Nothing that ever happens settles it: not a handler, not a pass, not a restart. */
  lemma {:induction false} OrphanIsForGood(ss: seq<Sys>, steps: seq<Step>, id: TunnelId, op: nat, i: nat, j: nat)
    requires Run(ss, steps) && i <= j < |ss| && Orphaned(ss[i], id, op)
    ensures Orphaned(ss[j], id, op)
    decreases j
  {
    hide Next, Sound, Run, Possible, Orphaned;
    if i < j {
      OrphanIsForGood(ss, steps, id, op, i, j - 1);
      RunStep(ss, steps, j - 1);
      OrphanStep(ss[j - 1], steps[j - 1], id, op);
    }
  }

  /** Once the row is dropped, the tunnel's operations are settled exactly if the last statement works. */
  lemma OrphansMadeIff(w: World, t: Tunnel)
    requires Removed(w.kern, t).1.None? && !Removed(w.kern, t).0.env.Breaking() && t.id in w.db.tunnels
    requires !NoneOpen(w.db.ops, t.id)
    ensures var (w', v) := RemoveOne(w, t);
      && t.id !in w'.db.tunnels
      && (NoneOpen(w'.db.ops, t.id) <==> !Removed(w.kern, t).0.env.Next().Breaking())
  {
    hide Removed, Foreign;
  }
}
