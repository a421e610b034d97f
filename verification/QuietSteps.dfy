/** Controller steps with nothing failing: exactly what they leave on the host, in the table and in the log. */
module QuietSteps {
  import opened Domain
  import opened Kernel
  import opened Provider
  import opened Healing
  import opened Goal
  import opened Store
  import opened Controller

  /** The row of a tunnel after a successful observation. */
  predicate IsHealthy(row: Tunnel, t: Tunnel, state: Actual) {
    row.Intent() == t.Intent() && row.actual == state && row.failureCount == 0 && row.retryAt.None?
  }

  /** Every open operation of the tunnel is closed as a success; no other operation moves. */
  ghost predicate AllSucceeded(ops: seq<Operation>, ops': seq<Operation>, id: TunnelId, message: string) {
    && |ops'| == |ops|
    && forall i | 0 <= i < |ops| ::
        if ops[i].resource == id && ops[i].Open()
        then ops'[i].(finishedAt := None) == ops[i].(status := Success, message := Text(message), finishedAt := None)
             && ops'[i].finishedAt.Some?
        else ops'[i] == ops[i]
  }

  ghost predicate Startable(w: World, t: Tunnel) {
    && w.db.Valid() && t.id in w.db.tunnels && w.db.tunnels[t.id] == t
    && w.kern.env.Quiet() && w.kern.egress.Some?
    && t.typ.Gre? && Due(t, w.Now()) && Claimable(w.kern, t)
  }

  lemma QuietExecute(w: World, r: (Db, Outcome))
    requires w.kern.env.Quiet()
    ensures w.Execute(r) == (World(w.kern.Tick(), r.0), r.1)
    ensures w.kern.Tick().env.Quiet()
  {
    QuietLater(w.kern.env, w.kern.env);
    QuietLater(w.kern.env, w.kern.env.Next());
  }

  lemma OwnNameFree(db: Db, t: Tunnel)
    requires db.Valid() && t.id in db.tunnels && db.tunnels[t.id].name == t.name
    ensures !db.NameTaken(t.name, t.id)
  {
  }

  /** The two log updates of a step that gets through. */
  lemma RunAndComplete(db: Db, db1: Db, id: TunnelId, message: string, now: nat)
    requires db1.ops == db.MarkOperationsRunning(id).0.ops
    ensures AllSucceeded(db.ops, db1.CompleteOperations(id, Success, Text(message), now).0.ops, id, message)
  {
  }

  /** Recording a healthy observation and closing the operations. */
  lemma QuietRecord(w: World, t: Tunnel, state: Actual, message: string)
    requires w.kern.env.Quiet() && w.db.Valid() && t.id in w.db.tunnels && w.db.tunnels[t.id] == t
    requires state.Up? || state.Down?
    ensures
      var (w1, o) := Mark(w, t, state, message);
      var (w', v) := Complete(w1, t.id, true, Text("desired state applied"));
      && o.Done? && v == Settled(true)
      && w'.kern == w.kern.(env := w'.kern.env)
      && w'.db.tunnels.Keys == w.db.tunnels.Keys
      && IsHealthy(w'.db.tunnels[t.id], t, state) && w'.db.tunnels[t.id].lastError == message
      && w'.db.ops == w.db.CompleteOperations(t.id, Success, Text("desired state applied"), w1.Now()).0.ops
  {
    OwnNameFree(w.db, t);
    QuietExecute(w, w.db.UpdateTunnel(MarkedRow(t, state, message, w.Now())));
    var w1 := Mark(w, t, state, message).0;
    QuietExecute(w1, w1.db.CompleteOperations(t.id, Success, Text("desired state applied"), w1.Now()));
  }

  /** An enabled tunnel whose link will do or whose endpoints are free. */
  lemma QuietApply(w: World, t: Tunnel)
    requires Startable(w, t) && !t.address.BadCidr?
    requires t.desired.Enabled? || (t.desired.Disabled? && Keeps(w.kern, t))
    requires Keeps(w.kern, t) || Available(w.kern, t)
    ensures var (w', v) := ReconcileOne(w, t);
      && v == Settled(true)
      && w'.kern.links == GoalLinks(w.kern, t) && w'.kern.nextIndex == GoalIndex(w.kern, t)
      && w'.kern.rules == GoalRules(w.kern.rules, t, w.kern.egress.value, WantsMasquerade(t))
      && w'.db.tunnels.Keys == w.db.tunnels.Keys
      && IsHealthy(w'.db.tunnels[t.id], t, if t.desired.Enabled? then Up else Down)
      && w'.db.tunnels[t.id].lastError == (if t.desired.Enabled? then "" else "interface is administratively down")
      && AllSucceeded(w.db.ops, w'.db.ops, t.id, "desired state applied")
  {
    hide GoalLinks, GoalIndex, GoalRules, Reconciled, AllSucceeded, Foreign;
    hide RequiresRecreate, Mark, Complete, IsHealthy;
    QuietExecute(w, w.db.MarkOperationsRunning(t.id));
    var w1 := w.Execute(w.db.MarkOperationsRunning(t.id)).0;
    KernIgnoresEnv(w.kern, w1.kern, t);
    ReconcileReachesGoal(w1.kern, t);
    ReconcileHeals(w1.kern, t);
    SuccessIsTruthful(w1.kern, t);
    var k := Reconciled(w1.kern, t).0;
    QuietLater(w1.kern.env, k.env);
    var (k', seen) := Observed(k, t);
    assert t.name in k.links && LinkApplied(k, t);
    QuietLater(w1.kern.env, k'.env);
    var w2 := w1.(kern := k');
    QuietRecord(w2, t, seen.state, seen.message);
    var w3 := Mark(w2, t, seen.state, seen.message).0;
    RunAndComplete(w.db, w2.db, t.id, "desired state applied", w3.Now());
  }

  lemma KernIgnoresEnv(k: Kern, k': Kern, t: Tunnel)
    requires k' == k.(env := k'.env)
    ensures GoalLinks(k', t) == GoalLinks(k, t) && GoalIndex(k', t) == GoalIndex(k, t)
    ensures Keeps(k', t) == Keeps(k, t) && Available(k', t) == Available(k, t) && Claimable(k', t) == Claimable(k, t)
  {
  }

  /** A tunnel that is to go. */
  lemma QuietDelete(w: World, t: Tunnel)
    requires Startable(w, t) && t.desired.Deleted?
    ensures var (w', v) := ReconcileOne(w, t);
      && v == Settled(true)
      && w'.kern.links == w.kern.links - {t.name} && w'.kern.nextIndex == w.kern.nextIndex
      && w'.kern.rules == GoalRules(w.kern.rules, t, w.kern.egress.value, false)
      && w'.db.tunnels == w.db.tunnels - {t.id}
      && AllSucceeded(w.db.ops, w'.db.ops, t.id, "tunnel removed")
  {
    hide GoalRules, AllSucceeded, Foreign, Removed;
    QuietExecute(w, w.db.MarkOperationsRunning(t.id));
    var w1 := w.Execute(w.db.MarkOperationsRunning(t.id)).0;
    QuietRemoval(w1.kern, t);
    var k := Removed(w1.kern, t).0;
    QuietLater(w1.kern.env, k.env);
    var w2 := w1.(kern := k);
    QuietExecute(w2, w2.db.DeleteTunnel(t.id));
    var w3 := w2.Execute(w2.db.DeleteTunnel(t.id)).0;
    var m := "tunnel removed";
    QuietExecute(w3, w3.db.CompleteOperations(t.id, Success, Text(m), w3.Now()));
    RunAndComplete(w.db, w3.db, t.id, m, w3.Now());
  }

  lemma QuietRemoval(k: Kern, t: Tunnel)
    requires k.env.Quiet() && k.egress.Some? && Claimable(k, t)
    ensures var (k', err) := Removed(k, t);
      && err.None? && k'.links == k.links - {t.name} && k'.nextIndex == k.nextIndex
      && k'.rules == GoalRules(k.rules, t, k.egress.value, false)
  {
    hide GoalRules, MasqueradeEnsured, Foreign;
    QuietMasquerade(k, t, false);
    var k1 := MasqueradeEnsured(k, t, false).0;
    QuietLater(k.env, k1.env);
    QuietLater(k.env, k1.env.Next());
    assert t.name !in k.links ==> k.links == k.links - {t.name};
  }
}
