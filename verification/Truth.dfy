/**
  Truthful success. When an operation is closed as a success the tunnel's current desired state
  holds, and that includes the rules not wanted exactly if the calls that withdraw them worked.
*/
module Truth {
  import opened Domain
  import opened Kernel
  import opened Provider
  import opened Healing
  import opened Goal
  import opened Store
  import opened Controller
  import opened Frames

  predicate Wants(t: Tunnel) { !t.desired.Deleted? && WantsMasquerade(t) }

  /** The desired state in full, rules withdrawn included. */
  ghost predicate FullyApplied(w: World, t: Tunnel) {
    && Fulfilled(w, t) && w.kern.egress.Some?
    && RulesAre(w.kern.rules, t, w.kern.egress.value, Wants(t))
  }

  /** The plan from the first rule call of a whole step on. */
  function StepRuleCalls(k: Kern, t: Tunnel): Env {
    if t.desired.Deleted? then k.Tick().env.Next() else RuleCalls(k.Tick(), t)
  }

  lemma RemovedRules(k: Kern, t: Tunnel)
    requires Removed(k, t).1.None?
    ensures MasqueradeEnsured(k, t, false).1.None? && k.egress.Some? && Removed(k, t).0.egress == k.egress
    ensures Removed(k, t).0.rules == MasqueradeEnsured(k, t, false).0.rules
  {
    hide MasqueradeEnsured, Foreign;
  }

  lemma RemoveIsExact(w: World, t: Tunnel)
    requires RemoveOne(w, t).1 == Settled(true)
    ensures var k' := RemoveOne(w, t).0.kern;
      && w.kern.egress.Some? && k'.egress == w.kern.egress
      && (RulesAre(k'.rules, t, w.kern.egress.value, false)
          <==> Sweeps(w.kern.rules, w.kern.env.Next(), t, w.kern.egress.value, false))
  {
    hide Removed, Fail, RulesAre, Sweeps, MasqueradeEnsured, Foreign;
    var (k, err) := Removed(w.kern, t);
    RemoveKernel(w, t);
    if err.Some? {
      FailIsNoSuccess(w.(kern := k), t, err.value);
    } else {
      RemovedRules(w.kern, t);
      MasqueradeIff(w.kern, t, false);
    }
  }

  lemma ApplyIsExact(w: World, t: Tunnel)
    requires ApplyOne(w, t).1 == Settled(true) && !t.desired.Deleted?
    ensures var k' := ApplyOne(w, t).0.kern;
      && w.kern.egress.Some? && k'.egress == w.kern.egress
      && (RulesAre(k'.rules, t, w.kern.egress.value, WantsMasquerade(t))
          <==> Sweeps(w.kern.rules, RuleCalls(w.kern, t), t, w.kern.egress.value, WantsMasquerade(t)))
  {
    hide ApplyOne, Reconciled, RulesAre, Sweeps, RuleCalls, AddressIs, RequiresRecreate, Foreign;
    ApplyKernel(w, t);
    ApplyIsEarned(w, t);
    ApplyReconciles(w, t);
    SuccessIsTruthful(w.kern, t);
    SuccessAppliesIff(w.kern, t);
  }

  lemma ApplyReconciles(w: World, t: Tunnel)
    requires ApplyOne(w, t).1 == Settled(true)
    ensures Reconciled(w.kern, t).1.None?
  {
    hide Reconciled, Fail, RecordOne;
    var (k, err) := Reconciled(w.kern, t);
    if err.Some? { FailIsNoSuccess(w.(kern := k), t, err.value); }
  }

  /** Under every plan, what the verdict "success" is worth, to the last rule. */
  lemma VerdictIsExact(w: World, t: Tunnel)
    requires ReconcileOne(w, t).1 == Settled(true)
    ensures var w' := ReconcileOne(w, t).0;
      && Fulfilled(w', t) && w.kern.egress.Some?
      && (FullyApplied(w', t)
          <==> Sweeps(w.kern.rules, StepRuleCalls(w.kern, t), t, w.kern.egress.value, Wants(t)))
  {
    hide RemoveOne, ApplyOne, Fail, Fulfilled, RulesAre, Sweeps, RuleCalls;
    VerdictIsEarned(w, t);
    FailIsNoSuccess(w, t, "provider is not installed");
    var w1 := w.Execute(w.db.MarkOperationsRunning(t.id)).0;
    if t.desired.Deleted? { RemoveIsExact(w1, t); } else { ApplyIsExact(w1, t); }
  }

  /**
    Truthful success: whenever a step turns an open operation into a success, it is one of that
    tunnel's and the tunnel's current desired state holds; in full, with no rule left that is not
    wanted, exactly if every rule to go was found and deleted.
  */
  lemma TruthfulSuccess(w: World, t: Tunnel, i: nat)
    requires i < |w.db.ops| && !w.db.ops[i].status.Success?
    requires i < |ReconcileOne(w, t).0.db.ops| && ReconcileOne(w, t).0.db.ops[i].status.Success?
    ensures var w' := ReconcileOne(w, t).0;
      && w.db.ops[i].resource == t.id && Fulfilled(w', t) && w.kern.egress.Some?
      && (FullyApplied(w', t)
          <==> Sweeps(w.kern.rules, StepRuleCalls(w.kern, t), t, w.kern.egress.value, Wants(t)))
  {
    hide ReconcileOne, Fulfilled, FullyApplied, Sweeps, StepRuleCalls;
    ReconcileOneFrame(w, t);
    VerdictSpeaksForOps(w, t);
    VerdictIsExact(w, t);
  }

  /** With nothing failing and no rule doubled, success vouches for the absence of rules as well. */
  lemma QuietSuccessIsFull(w: World, t: Tunnel)
    requires w.kern.env.Quiet() && ReconcileOne(w, t).1 == Settled(true)
    requires w.kern.egress.Some? ==> NoDoubles(w.kern.rules, t, w.kern.egress.value)
    ensures FullyApplied(ReconcileOne(w, t).0, t)
  {
    hide ReconcileOne, Fulfilled, FullyApplied, Sweeps, NoDoubles, AtRules;
    VerdictIsExact(w, t);
    AtRulesFrame(w.kern.Tick(), t);
    QuietLater(w.kern.env, StepRuleCalls(w.kern, t));
    QuietSweeps(w.kern.rules, StepRuleCalls(w.kern, t), t, w.kern.egress.value, Wants(t));
  }

  // ---------- a success that leaves a rule ----------

  /** The row of a tunnel that is to go. */
  function ToRemove(id: TunnelId, name: Name): Tunnel {
    Tunnel(id, name, Gre, Dotted(1), Dotted(2), Cidr4(3, 30), BLANK, 1476, 255, "", true,
           Deleted, Pending, "", 0, None, 0, 0)
  }

  /** Its link is gone, its ingress rule is not, a delete is queued, and the check of that rule will fail. */
  function Unswept(t: Tunnel, egress: Name): World {
    World(
      Kern(map[], [IngressRule(t)], 0, Some(egress),
           Env((i: nat) => Tick(if i == 2 then HostFails else Works, 0), 0, 0)),
      Db(map[t.id := t], [Operation("delete_tunnel", t.id, Queued, Text(""), 0, None)]))
  }

  /** The step succeeds, the row goes, the delete is a success, and the rule is still there. */
  lemma SuccessMayLeaveRule(id: TunnelId, name: Name, egress: Name)
    ensures var t := ToRemove(id, name);
      var (w', v) := ReconcileOne(Unswept(t, egress), t);
      && v == Settled(true) && id !in w'.db.tunnels && w'.db.ops[0].status.Success?
      && IngressRule(t) in w'.kern.rules && !FullyApplied(w', t)
  {
    hide Foreign, Marker, Fulfilled;
    var t := ToRemove(id, name);
    var w := Unswept(t, egress);
    var w1 := w.Execute(w.db.MarkOperationsRunning(id)).0;
    RemoveFirstMembers([IngressRule(t)], LegacyRule(t), LegacyRule(t));
    var (k, err) := Removed(w1.kern, t);
    assert err.None? && k.rules == [IngressRule(t)] && k.env.pos == 6;
    var w2 := w1.(kern := k).Execute(w1.db.DeleteTunnel(id)).0;
    assert w2.kern.env.pos == 7;
  }
}
