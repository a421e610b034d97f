/**
  Crash recovery. The process dies after any primitive of a controller step; a restart and one
  fault-free step then end where an uninterrupted step would have ended.
*/
module Recovery {
  import opened Domain
  import opened Kernel
  import opened Provider
  import opened Healing
  import opened Goal
  import opened Store
  import opened Controller
  import opened Frames
  import opened QuietSteps
  import opened Dying

  function DoneMessage(t: Tunnel): string {
    if t.desired.Deleted? then "tunnel removed" else "desired state applied"
  }

  /** What a step's provider call leaves on the host. */
  function ProviderRun(k: Kern, t: Tunnel): Kern {
    if t.desired.Deleted? then Removed(k, t).0 else Reconciled(k, t).0
  }

  /** Recording touches nothing on the host but its clock. */
  lemma StepKernel(w: World, t: Tunnel)
    requires Due(t, w.Now()) && t.typ.Gre?
    ensures
      var k1 := w.kern.Tick();
      var k' := ReconcileOne(w, t).0.kern;
      k' == k1.(env := k'.env) || k' == ProviderRun(k1, t).(env := k'.env)
  {
    hide Reconciled, Removed, RemoveOne, ApplyOne;
    var w1 := w.Execute(w.db.MarkOperationsRunning(t.id)).0;
    RemoveKernel(w1, t);
    ApplyKernel(w1, t);
  }

  /** An operation of the tunnel that was open: untouched, running, or closed as a success. */
  predicate CutShort(o: Operation, o': Operation, message: string) {
    || (o'.Open() && o'.(status := Queued) == o.(status := Queued))
    || (o'.(finishedAt := None) == o.(status := Success, message := Text(message), finishedAt := None)
        && o'.finishedAt.Some?)
  }

  ghost predicate OpsCutShort(ops: seq<Operation>, ops': seq<Operation>, id: TunnelId, message: string) {
    && |ops'| == |ops|
    && forall i | 0 <= i < |ops| ::
        if ops[i].resource == id && ops[i].Open() then CutShort(ops[i], ops'[i], message) else ops'[i] == ops[i]
  }

  lemma FailCutShort(w: World, t: Tunnel, message: string)
    ensures var (w', v) := Fail(w, t, message);
      v == Settled(false) || (v == StoreError && w'.db.ops == w.db.ops)
  {
    hide RetryDelay, MarkedRow, Db.NameTaken;
  }

  lemma CompleteCutShort(w: World, ops: seq<Operation>, id: TunnelId, message: string)
    requires OpsCutShort(ops, w.db.ops, id, message)
    ensures OpsCutShort(ops, Complete(w, id, true, Text(message)).0.db.ops, id, message)
  {
  }

  lemma RecordCutShort(w: World, ops: seq<Operation>, t: Tunnel, seen: Observation)
    requires OpsCutShort(ops, w.db.ops, t.id, "desired state applied")
    requires RecordOne(w, t, seen).1 != Settled(false)
    ensures OpsCutShort(ops, RecordOne(w, t, seen).0.db.ops, t.id, "desired state applied")
  {
    hide Fail, Complete, OpsCutShort, MarkedRow, Db.NameTaken;
    var w1 := Mark(w, t, seen.state, seen.message).0;
    FailCutShort(w1, t, seen.message);
    CompleteCutShort(w1, ops, t.id, "desired state applied");
  }

  lemma ApplyCutShort(w: World, ops: seq<Operation>, t: Tunnel)
    requires OpsCutShort(ops, w.db.ops, t.id, "desired state applied")
    requires ApplyOne(w, t).1 != Settled(false)
    ensures OpsCutShort(ops, ApplyOne(w, t).0.db.ops, t.id, "desired state applied")
  {
    hide Reconciled, Fail, RecordOne, OpsCutShort;
    var (k, err) := Reconciled(w.kern, t);
    if err.Some? { FailCutShort(w.(kern := k), t, err.value); }
    var (k', seen) := Observed(k, t);
    var w1 := w.(kern := k');
    FailCutShort(w1, t, seen.message);
    if !err.Some? && !seen.failed { RecordCutShort(w1, ops, t, seen); }
  }

  lemma RemoveCutShort(w: World, ops: seq<Operation>, t: Tunnel)
    requires OpsCutShort(ops, w.db.ops, t.id, "tunnel removed")
    requires RemoveOne(w, t).1 != Settled(false)
    ensures OpsCutShort(ops, RemoveOne(w, t).0.db.ops, t.id, "tunnel removed")
  {
    hide Removed, Fail, Complete, OpsCutShort;
    var (k, err) := Removed(w.kern, t);
    var w1 := w.(kern := k);
    if err.Some? { FailCutShort(w1, t, err.value); }
    CompleteCutShort(w1.Execute(w1.db.DeleteTunnel(t.id)).0, ops, t.id, "tunnel removed");
  }

  /** A step that records no failure closes operations as successes or leaves them open. */
  lemma StepCutShort(w: World, t: Tunnel)
    requires ReconcileOne(w, t).1 != Settled(false)
    ensures OpsCutShort(w.db.ops, ReconcileOne(w, t).0.db.ops, t.id, DoneMessage(t))
  {
    hide RemoveOne, ApplyOne, Fail, OpsCutShort;
    FailCutShort(w, t, "provider is not installed");
    RunningCutShort(w, t);
    var (w1, o) := w.Execute(w.db.MarkOperationsRunning(t.id));
    if Due(t, w.Now()) && t.typ.Gre? && o.Done? {
      if t.desired.Deleted? { RemoveCutShort(w1, w.db.ops, t); } else { ApplyCutShort(w1, w.db.ops, t); }
    }
  }

  lemma RunningCutShort(w: World, t: Tunnel)
    ensures OpsCutShort(w.db.ops, w.Execute(w.db.MarkOperationsRunning(t.id)).0.db.ops, t.id, DoneMessage(t))
    ensures OpsCutShort(w.db.ops, w.db.ops, t.id, DoneMessage(t))
  {
  }

  /** Requeueing and then succeeding settles what the crash left open. */
  lemma SettleAfterCrash(
      ops: seq<Operation>, crashed: seq<Operation>, settled: seq<Operation>, direct: seq<Operation>,
      id: TunnelId, message: string)
    requires OpsCutShort(ops, crashed, id, message)
    requires |settled| == |crashed|
    requires AllSucceeded(Db(map[], crashed).RequeueRunning().0.ops, settled, id, message)
    requires AllSucceeded(ops, direct, id, message)
    ensures forall i | 0 <= i < |ops| && ops[i].resource == id ::
      settled[i].(finishedAt := None) == direct[i].(finishedAt := None)
      && (settled[i].finishedAt.Some? <==> direct[i].finishedAt.Some?)
  {
    forall i | 0 <= i < |ops| && ops[i].resource == id
      ensures settled[i].(finishedAt := None) == direct[i].(finishedAt := None)
      ensures settled[i].finishedAt.Some? <==> direct[i].finishedAt.Some?
    {
      var requeued := Db(map[], crashed).RequeueRunning().0.ops;
      assert requeued[i] == RequeuedOp(crashed[i]);
      if ops[i].Open() {
        assert CutShort(ops[i], crashed[i], message);
      }
    }
  }

  /** The agreement the theorem is about. Times differ; nothing else does. */
  ghost predicate SameOutcome(a: World, b: World, t: Tunnel) {
    && a.kern == b.kern.(env := a.kern.env)
    && (t.id in a.db.tunnels <==> t.id in b.db.tunnels)
    && (t.id in a.db.tunnels ==> a.db.tunnels[t.id].(updatedAt := 0) == b.db.tunnels[t.id].(updatedAt := 0))
    && |a.db.ops| == |b.db.ops|
    && forall i | 0 <= i < |a.db.ops| && b.db.ops[i].resource == t.id ::
        && a.db.ops[i].(finishedAt := None) == b.db.ops[i].(finishedAt := None)
        && (a.db.ops[i].finishedAt.Some? <==> b.db.ops[i].finishedAt.Some?)
  }

  /** The world after the crash, with the plan the restarted process meets. */
  function Reborn(c: World, later: Env): World {
    Restarted(c.(kern := c.kern.(env := later)))
  }

  lemma RebornIs(c: World, later: Env)
    requires later.Quiet()
    ensures var s := Reborn(c, later);
      && s.kern == c.kern.(env := s.kern.env) && s.kern.env.Quiet()
      && s.db.ops == c.db.RequeueRunning().0.ops
      && s.db.tunnels.Keys == c.db.tunnels.Keys
      && (forall id | id in s.db.tunnels :: s.db.tunnels[id] == c.db.tunnels[id].(retryAt := None))
      && (c.db.Valid() ==> s.db.Valid())
  {
    var b := c.(kern := c.kern.(env := later));
    QuietExecute(b, b.db.RequeueRunning());
    var b1 := b.Execute(b.db.RequeueRunning()).0;
    QuietExecute(b1, b1.db.ClearRetries());
  }

  /** What a step of an enabled or deleted tunnel needs to get through. */
  ghost predicate Recoverable(w: World, t: Tunnel) {
    && w.db.Valid() && t.id in w.db.tunnels && w.db.tunnels[t.id] == t
    && t.typ.Gre? && Due(t, w.Now())
    && w.kern.egress.Some? && NoDoubles(w.kern.rules, t, w.kern.egress.value)
    && Claimable(w.kern, t)
    && !t.desired.Disabled?
    && (t.desired.Enabled? ==> !t.address.BadCidr? && (Keeps(w.kern, t) || Available(w.kern, t)))
  }

  /** A step that dies reports no failure. */
  lemma StepCut(w: World, t: Tunnel, n: nat)
    requires Recoverable(w, t) && w.kern.env.DiesAt(n)
    ensures ReconcileOne(w, t).1 != Settled(false)
  {
    hide RemoveOne, ApplyOne, Fail, NoDoubles, RequiresRecreate;
    DyingLater(w.kern.env, w.kern.env.Next(), n);
    var w1 := w.Execute(w.db.MarkOperationsRunning(t.id)).0;
    KernIgnoresEnv(w.kern, w1.kern, t);
    if t.desired.Deleted? { RemoveOneCut(w1, t, n); } else { ApplyCut(w1, t, n); }
  }

  /** The host the crash leaves has the same goal as the host before the step. */
  lemma CrashKeepsGoal(w: World, t: Tunnel, n: nat)
    requires Recoverable(w, t) && w.kern.env.DiesAt(n)
    requires Claimable(ReconcileOne(w, t).0.kern, t)
    ensures var k, k' := w.kern, ReconcileOne(w, t).0.kern;
      && k'.egress == k.egress && NoDoubles(k'.rules, t, k.egress.value)
      && (t.desired.Enabled? ==>
        && SameGoal(k, k', t) && (Keeps(k', t) || Available(k', t))
        && GoalRules(k'.rules, t, k.egress.value, t.masquerade) == GoalRules(k.rules, t, k.egress.value, t.masquerade))
      && (t.desired.Deleted? ==>
        && k'.links - {t.name} == k.links - {t.name} && k'.nextIndex == k.nextIndex
        && GoalRules(k'.rules, t, k.egress.value, false) == GoalRules(k.rules, t, k.egress.value, false))
  {
    hide ReconcileOne, Reconciled, Removed, GoalLinks, GoalIndex, GoalRules, NoDoubles, Keeps, Foreign;
    var k, k1, k' := w.kern, w.kern.Tick(), ReconcileOne(w, t).0.kern;
    StepKernel(w, t);
    KernIgnoresEnv(k, k1, t);
    DyingLater(k.env, k1.env, n);
    var run := ProviderRun(k1, t);
    KernIgnoresEnv(run, run.(env := k'.env), t);
    KernIgnoresEnv(k, k1.(env := k'.env), t);
    if t.desired.Enabled? {
      DyingReconcileHealsRules(k1, t, n);
      if k' == run.(env := k'.env) { ReconcileHeals(k1, t); }
      AvailableElsewhere(k, k', t);
    } else {
      RemoveHeals(k1, t);
    }
  }

  lemma AvailableElsewhere(k: Kern, k': Kern, t: Tunnel)
    requires k'.links - {t.name} == k.links - {t.name}
    requires SameGoal(k, k', t) && (Keeps(k, t) || Available(k, t)) && k.nextIndex <= k'.nextIndex
    ensures Keeps(k', t) || Available(k', t)
  {
    if Available(k, t) {
      forall n | n in k'.links && n != t.name ensures !k'.links[n].SameTuple(Fresh(0, t)) {
        Elsewhere(k.links, k'.links, t.name, n);
      }
    }
  }

  lemma SnapshotIsGoalBlind(k: Kern, t: Tunnel, s: Tunnel)
    requires s.Intent() == t.Intent()
    ensures GoalLinks(k, s) == GoalLinks(k, t) && GoalIndex(k, s) == GoalIndex(k, t)
    ensures Keeps(k, s) == Keeps(k, t) && Available(k, s) == Available(k, t) && Claimable(k, s) == Claimable(k, t)
    ensures forall rules, e, wanted :: GoalRules(rules, s, e, wanted) == GoalRules(rules, t, e, wanted)
    ensures WantsMasquerade(s) == WantsMasquerade(t) && DoneMessage(s) == DoneMessage(t)
  {
  }

  /** Two fault-free steps with the same goal end the same. */
  lemma TwinSteps(b: World, s: Tunnel, u: World, t: Tunnel)
    requires Startable(b, s) && Startable(u, t) && s.Intent() == t.Intent() && !t.desired.Disabled?
    requires b.kern.egress == u.kern.egress
    requires t.desired.Enabled? ==>
      && !t.address.BadCidr? && SameGoal(u.kern, b.kern, t)
      && (Keeps(b.kern, t) || Available(b.kern, t)) && (Keeps(u.kern, t) || Available(u.kern, t))
    requires t.desired.Deleted? ==>
      b.kern.links - {t.name} == u.kern.links - {t.name} && b.kern.nextIndex == u.kern.nextIndex
    requires var wanted := t.desired.Enabled? && t.masquerade;
      GoalRules(b.kern.rules, t, u.kern.egress.value, wanted) == GoalRules(u.kern.rules, t, u.kern.egress.value, wanted)
    ensures var r, d := ReconcileOne(b, s).0, ReconcileOne(u, t).0;
      && r.kern == d.kern.(env := r.kern.env)
      && (t.id in r.db.tunnels <==> t.id in d.db.tunnels)
      && (t.id in r.db.tunnels ==> r.db.tunnels[t.id].(updatedAt := 0) == d.db.tunnels[t.id].(updatedAt := 0))
      && AllSucceeded(b.db.ops, r.db.ops, t.id, DoneMessage(t))
      && AllSucceeded(u.db.ops, d.db.ops, t.id, DoneMessage(t))
  {
    hide ReconcileOne, GoalLinks, GoalIndex, GoalRules, Keeps, Available;
    hide Claimable, AllSucceeded, Foreign, DbFrame;
    SnapshotIsGoalBlind(b.kern, t, s);
    ReconcileOneFrame(b, s);
    ReconcileOneFrame(u, t);
    if t.desired.Enabled? {
      QuietApply(b, s);
      QuietApply(u, t);
    } else {
      QuietDelete(b, s);
      QuietDelete(u, t);
    }
  }

  /**
    A process that dies at primitive n of the step, whichever it is, restarts, and meets no more
    failures, ends where it would have ended without the crash: the same links, interface indexes,
    addresses and ordered rules, the same row, the same operations. The two hypotheses: the crash
    left no link under the name without the marker, and the row is still there.
  */
  lemma CrashRecovery(w: World, t: Tunnel, n: nat, later: Env, never: Env)
    requires Recoverable(w, t) && w.kern.env.DiesAt(n)
    requires later.Quiet() && never.Quiet() && Due(t, never.now)
    requires Claimable(ReconcileOne(w, t).0.kern, t)
    requires t.id in ReconcileOne(w, t).0.db.tunnels
    ensures
      var crashed := Reborn(ReconcileOne(w, t).0, later);
      t.id in crashed.db.tunnels
      && SameOutcome(
          ReconcileOne(crashed, crashed.db.tunnels[t.id]).0,
          ReconcileOne(w.(kern := w.kern.(env := never)), t).0, t)
  {
    hide ReconcileOne, GoalLinks, GoalIndex, GoalRules, Keeps, Available, NoDoubles, Foreign, Reborn;
    hide AllSucceeded, OpsCutShort, Advances, RequiresRecreate;
    var c := ReconcileOne(w, t).0;
    ReconcileOneFrame(w, t);
    CrashKeepsGoal(w, t, n);
    StepCut(w, t, n);
    StepCutShort(w, t);
    RebornIs(c, later);
    var b := Reborn(c, later);
    var s := b.db.tunnels[t.id];
    var u := w.(kern := w.kern.(env := never));
    KernIgnoresEnv(c.kern, b.kern, t);
    KernIgnoresEnv(w.kern, u.kern, t);
    TwinSteps(b, s, u, t);
    var r, d := ReconcileOne(b, s).0, ReconcileOne(u, t).0;
    ReconcileOneFrame(b, s);
    ReconcileOneFrame(u, t);
    SettleAfterCrash(w.db.ops, c.db.ops, r.db.ops, d.db.ops, t.id, DoneMessage(t));
    OpsResource(w.db.ops, d.db.ops, t.id);
  }

  lemma OpsResource(ops: seq<Operation>, ops': seq<Operation>, id: TunnelId)
    requires OpsFrame(ops, ops', id)
    ensures forall i | 0 <= i < |ops| :: ops'[i].resource == ops[i].resource
  {
  }

  /**
    A link under the name without the marker, such as a crash between making and marking it leaves:
    no step for the tunnel, under any plan, succeeds or changes that link.
  */
  lemma UnclaimableIsRefused(w: World, t: Tunnel)
    requires !Claimable(w.kern, t)
    ensures var (w', v) := ReconcileOne(w, t);
      && v != Settled(true)
      && t.name in w'.kern.links && w'.kern.links[t.name] == w.kern.links[t.name] && !Claimable(w'.kern, t)
  {
    hide ReconcileOne, Foreign, DbFrame;
    ReconcileOneFrame(w, t);
    if ReconcileOne(w, t).1 == Settled(true) { VerdictIsEarned(w, t); }
  }

  /** A crash that left such a link is exactly the crash the restart does not mend. */
  lemma CrashRecoversIff(w: World, t: Tunnel, n: nat, later: Env, never: Env)
    requires Recoverable(w, t) && w.kern.env.DiesAt(n)
    requires later.Quiet() && never.Quiet() && Due(t, never.now)
    requires t.id in ReconcileOne(w, t).0.db.tunnels
    ensures
      var crashed := Reborn(ReconcileOne(w, t).0, later);
      t.id in crashed.db.tunnels
      && (SameOutcome(
            ReconcileOne(crashed, crashed.db.tunnels[t.id]).0,
            ReconcileOne(w.(kern := w.kern.(env := never)), t).0, t)
          <==> Claimable(ReconcileOne(w, t).0.kern, t))
  {
    hide ReconcileOne, RequiresRecreate, Foreign, Reborn, AllSucceeded, OpsCutShort, Advances, GoalRules;
    var c := ReconcileOne(w, t).0;
    RebornIs(c, later);
    if Claimable(c.kern, t) {
      CrashRecovery(w, t, n, later, never);
    } else {
      ReconcileOneFrame(w, t);
      var b := Reborn(c, later);
      var u := w.(kern := w.kern.(env := never));
      KernIgnoresEnv(w.kern, u.kern, t);
      UnclaimableIsRefused(b, b.db.tunnels[t.id]);
      assert t.name in c.kern.links && c.kern.links[t.name].alias != Marker(t.id);
      if t.desired.Enabled? { QuietApply(u, t); } else { QuietDelete(u, t); }
    }
  }

  // ---------- kernels that keep aliases ----------

  lemma AliasKept(k: Kern, t: Tunnel)
    requires k.env.KeepsAliases() && Claimable(k, t)
    ensures Claimable(Acquire(k, t).0, t)
  {
    hide LinkFrame;
    var k1 := k.LinkByName(t.name).0;
    var k2 := k1.LinkDel(t.name).0;
    assert !k1.env.Dropping() && !k2.env.Dropping();
  }

  lemma ReconcileKeepsClaim(k: Kern, t: Tunnel)
    requires k.env.KeepsAliases() && Claimable(k, t)
    ensures Claimable(Reconciled(k, t).0, t)
  {
    hide Acquire, Configured, Foreign, Repaired;
    AliasKept(k, t);
    var (k1, got) := Acquire(k, t);
    if got.Ready? { ConfigureTunes(k1, t); }
  }

  /** On a kernel that keeps aliases no step, under any plan, leaves a link without the marker under the name. */
  lemma StepKeepsClaim(w: World, t: Tunnel)
    requires w.kern.env.KeepsAliases() && Claimable(w.kern, t)
    ensures Claimable(ReconcileOne(w, t).0.kern, t)
  {
    hide ApplyOne, RemoveOne, Fail, Reconciled, Removed, Foreign;
    FailKernel(w, t, "provider is not installed");
    var w1 := w.Execute(w.db.MarkOperationsRunning(t.id)).0;
    ReconcileKeepsClaim(w1.kern, t);
    ApplyKernel(w1, t);
    RemoveKernel(w1, t);
  }

  /** So there the only thing asked of the crash is that the row is still there; an enabled tunnel's always is. */
  lemma CleanCrashRecovers(w: World, t: Tunnel, n: nat, later: Env, never: Env)
    requires Recoverable(w, t) && w.kern.env.DiesAt(n) && w.kern.env.KeepsAliases()
    requires later.Quiet() && never.Quiet() && Due(t, never.now)
    ensures t.desired.Enabled? ==> t.id in ReconcileOne(w, t).0.db.tunnels
    ensures t.id in ReconcileOne(w, t).0.db.tunnels ==>
      var crashed := Reborn(ReconcileOne(w, t).0, later);
      t.id in crashed.db.tunnels
      && SameOutcome(
          ReconcileOne(crashed, crashed.db.tunnels[t.id]).0,
          ReconcileOne(w.(kern := w.kern.(env := never)), t).0, t)
  {
    hide ReconcileOne, NoDoubles, Keeps, Available, Claimable, SameOutcome, Reborn;
    StepKeepsClaim(w, t);
    if t.id in ReconcileOne(w, t).0.db.tunnels {
      CrashRecovery(w, t, n, later, never);
    } else {
      OnlyDeletedRowsGo(w, t);
    }
  }
}
