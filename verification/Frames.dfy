/**
  What one controller step, and a whole pass, may change: on the host, in the table and in the log.
  And what it means when a step closes an operation as a success.
*/
module Frames {
  import opened Domain
  import opened Kernel
  import opened Provider
  import opened Healing
  import opened Goal
  import opened Store
  import opened Controller

  // ---------- operations ----------

  /** How an operation may move without a restart. */
  predicate Advances(o: Operation, o': Operation) {
    && o'.action == o.action && o'.resource == o.resource && o'.createdAt == o.createdAt
    && (!o.Open() ==> o' == o)
    && (o.status.Running? ==> !o'.status.Queued?)
    && ((o.finishedAt.Some? <==> !o.Open()) ==> (o'.finishedAt.Some? <==> !o'.Open()))
  }

  ghost predicate OpsFrame(ops: seq<Operation>, ops': seq<Operation>, id: TunnelId) {
    && |ops'| == |ops|
    && forall i | 0 <= i < |ops| :: Advances(ops[i], ops'[i]) && (ops[i].resource != id ==> ops'[i] == ops[i])
  }

  // ---------- one step ----------

  /** The row that remains is the old one or carries the snapshot's intent. */
  ghost predicate RowStep(db: Db, db': Db, t: Tunnel) {
    t.id in db'.tunnels ==>
      && t.id in db.tunnels
      && db'.tunnels[t.id].createdAt == db.tunnels[t.id].createdAt
      && (db'.tunnels[t.id] == db.tunnels[t.id]
          || db'.tunnels[t.id].Intent() == t.(createdAt := db.tunnels[t.id].createdAt).Intent())
  }

  ghost predicate DbFrame(db: Db, db': Db, t: Tunnel) {
    && db'.tunnels - {t.id} == db.tunnels - {t.id}
    && (t.id in db'.tunnels ==> t.id in db.tunnels)
    && (db.Valid() ==> db'.Valid())
    && RowStep(db, db', t)
    && OpsFrame(db.ops, db'.ops, t.id)
  }

  ghost predicate StepFrame(w: World, w': World, t: Tunnel) {
    OwnershipFrame(w.kern, w'.kern, t) && DbFrame(w.db, w'.db, t)
  }

  lemma StepFrameTransitive(w: World, w1: World, w2: World, t: Tunnel)
    requires StepFrame(w, w1, t) && StepFrame(w1, w2, t)
    ensures StepFrame(w, w2, t)
  {
    hide Foreign, Advances, Db.Valid;
    forall i | 0 <= i < |w.db.ops| ensures Advances(w.db.ops[i], w2.db.ops[i]) {
      AdvancesTransitive(w.db.ops[i], w1.db.ops[i], w2.db.ops[i]);
    }
  }

  lemma AdvancesReflexive(o: Operation)
    ensures Advances(o, o)
  {
  }

  lemma AdvancesTransitive(a: Operation, b: Operation, c: Operation)
    requires Advances(a, b) && Advances(b, c)
    ensures Advances(a, c)
  {
  }

  lemma MarkFrame(w: World, t: Tunnel, row: Tunnel, state: Actual, message: string)
    requires row.id == t.id && row.Intent() == t.Intent()
    ensures StepFrame(w, Mark(w, row, state, message).0, t)
  {
    hide Foreign;
  }

  lemma CompleteFrame(w: World, t: Tunnel, success: bool, message: Message)
    ensures StepFrame(w, Complete(w, t.id, success, message).0, t)
  {
    hide Foreign;
  }

  lemma FailFrame(w: World, t: Tunnel, message: string)
    ensures StepFrame(w, Fail(w, t, message).0, t)
  {
    hide Foreign, RetryDelay, StepFrame, Mark, Complete;
    var failed := FailedRow(t, w.Now());
    MarkFrame(w, t, failed, Error, message);
    var w1 := Mark(w, failed, Error, message).0;
    var m := Retry(message, RetryDelay(failed.failureCount));
    CompleteFrame(w1, t, false, m);
    StepFrameTransitive(w, w1, Complete(w1, t.id, false, m).0, t);
    assert StepFrame(w, w1, t);
  }

  lemma ExecuteFrame(w: World, r: (Db, Outcome), t: Tunnel)
    requires DbFrame(w.db, r.0, t)
    ensures StepFrame(w, w.Execute(r).0, t)
  {
    hide Foreign, Db.Valid;
  }

  lemma HostFrame(w: World, k: Kern, t: Tunnel)
    requires OwnershipFrame(w.kern, k, t)
    ensures StepFrame(w, w.(kern := k), t)
  {
    hide Foreign, Db.Valid;
  }

  lemma RemoveOneFrame(w: World, t: Tunnel)
    ensures StepFrame(w, RemoveOne(w, t).0, t)
  {
    hide StepFrame, Removed, Fail, Complete, Foreign;
    var (k, err) := Removed(w.kern, t);
    var w1 := w.(kern := k);
    HostFrame(w, k, t);
    if err.Some? {
      FailFrame(w1, t, err.value);
      StepFrameTransitive(w, w1, Fail(w1, t, err.value).0, t);
    } else {
      var (w2, o) := w1.Execute(w1.db.DeleteTunnel(t.id));
      ExecuteFrame(w1, w1.db.DeleteTunnel(t.id), t);
      StepFrameTransitive(w, w1, w2, t);
      var m := Text("tunnel removed");
      CompleteFrame(w2, t, true, m);
      StepFrameTransitive(w, w2, Complete(w2, t.id, true, m).0, t);
    }
  }

  lemma RecordOneFrame(w: World, t: Tunnel, seen: Observation)
    ensures StepFrame(w, RecordOne(w, t, seen).0, t)
  {
    hide StepFrame, Fail, Complete, Mark;
    var w1 := Mark(w, t, seen.state, seen.message).0;
    MarkFrame(w, t, t, seen.state, seen.message);
    FailFrame(w1, t, seen.message);
    StepFrameTransitive(w, w1, Fail(w1, t, seen.message).0, t);
    var m := Text("desired state applied");
    CompleteFrame(w1, t, true, m);
    StepFrameTransitive(w, w1, Complete(w1, t.id, true, m).0, t);
  }

  lemma ApplyOneFrame(w: World, t: Tunnel)
    ensures StepFrame(w, ApplyOne(w, t).0, t)
  {
    hide StepFrame, Reconciled, Fail, RecordOne, Foreign;
    var (k, err) := Reconciled(w.kern, t);
    HostFrame(w, k, t);
    if err.Some? {
      FailFrame(w.(kern := k), t, err.value);
      StepFrameTransitive(w, w.(kern := k), Fail(w.(kern := k), t, err.value).0, t);
    } else {
      var (k', seen) := Observed(k, t);
      var w1 := w.(kern := k');
      HostFrame(w.(kern := k), k', t);
      StepFrameTransitive(w, w.(kern := k), w1, t);
      FailFrame(w1, t, seen.message);
      StepFrameTransitive(w, w1, Fail(w1, t, seen.message).0, t);
      RecordOneFrame(w1, t, seen);
      StepFrameTransitive(w, w1, RecordOne(w1, t, seen).0, t);
    }
  }

  /** One controller step, under every plan. */
  lemma ReconcileOneFrame(w: World, t: Tunnel)
    ensures StepFrame(w, ReconcileOne(w, t).0, t)
  {
    hide Fail, RemoveOne, ApplyOne, Foreign;
    if Due(t, w.Now()) {
      FailFrame(w, t, "provider is not installed");
      var w1 := w.Execute(w.db.MarkOperationsRunning(t.id)).0;
      ExecuteFrame(w, w.db.MarkOperationsRunning(t.id), t);
      RemoveOneFrame(w1, t);
      StepFrameTransitive(w, w1, RemoveOne(w1, t).0, t);
      ApplyOneFrame(w1, t);
      StepFrameTransitive(w, w1, ApplyOne(w1, t).0, t);
    }
  }

  // Recording an outcome touches nothing on the host but its clock.

  lemma FailKernel(w: World, t: Tunnel, message: string)
    ensures var k' := Fail(w, t, message).0.kern; k' == w.kern.(env := k'.env)
  {
    hide RetryDelay, MarkedRow, Db.NameTaken, CompletedOp;
  }

  lemma CompleteKernel(w: World, id: TunnelId, message: Message)
    ensures var k' := Complete(w, id, true, message).0.kern; k' == w.kern.(env := k'.env)
  {
  }

  lemma RecordKernel(w: World, t: Tunnel, seen: Observation)
    ensures var k' := RecordOne(w, t, seen).0.kern; k' == w.kern.(env := k'.env)
  {
    hide Fail, Complete, MarkedRow, Db.NameTaken;
    var w1 := Mark(w, t, seen.state, seen.message).0;
    FailKernel(w1, t, seen.message);
    CompleteKernel(w1, t.id, Text("desired state applied"));
  }

  /** Of a whole step the provider's run alone shows on the host. */
  lemma ApplyKernel(w: World, t: Tunnel)
    ensures var k' := ApplyOne(w, t).0.kern; k' == Reconciled(w.kern, t).0.(env := k'.env)
  {
    hide Reconciled, Fail, RecordOne;
    var (k, err) := Reconciled(w.kern, t);
    if err.Some? { FailKernel(w.(kern := k), t, err.value); }
    var (k', seen) := Observed(k, t);
    FailKernel(w.(kern := k'), t, seen.message);
    RecordKernel(w.(kern := k'), t, seen);
  }

  lemma RemoveKernel(w: World, t: Tunnel)
    ensures var k' := RemoveOne(w, t).0.kern; k' == Removed(w.kern, t).0.(env := k'.env)
  {
    hide Removed, Fail, Complete;
    var (k, err) := Removed(w.kern, t);
    var w1 := w.(kern := k);
    if err.Some? { FailKernel(w1, t, err.value); }
    CompleteKernel(w1.Execute(w1.db.DeleteTunnel(t.id)).0, t.id, Text("tunnel removed"));
  }

  // ---------- a whole pass ----------

  /** The rules that carry none of the markers, in order. */
  function ForeignToAll(rules: seq<Rule>, markers: set<string>): seq<Rule> {
    if rules == [] then []
    else (if !rules[0].Unrelated? && rules[0].comment in markers then [] else [rules[0]])
         + ForeignToAll(rules[1..], markers)
  }

  lemma {:induction false} ForeignToMore(rules: seq<Rule>, marker: string, markers: set<string>)
    requires marker in markers
    ensures ForeignToAll(Foreign(rules, marker), markers) == ForeignToAll(rules, markers)
  {
    if rules != [] {
      ForeignToMore(rules[1..], marker, markers);
      var rest := Foreign(rules[1..], marker);
      if rules[0].Carries(marker) {
        assert Foreign(rules, marker) == rest;
      } else {
        assert ([rules[0]] + rest)[1..] == rest;
      }
    }
  }

  /** No listed tunnel may touch the link under this name. */
  ghost predicate OffLimits(k: Kern, n: Name, rows: seq<Tunnel>) {
    forall t | t in rows && t.name == n :: n in k.links && k.links[n].alias != Marker(t.id)
  }

  /**
    A pass over any rows, current or not, under every plan: links under other names, links of
    other owners under a listed name, and rules of other owners are as before, in order.
  */
  lemma {:induction false} PassOwnership(w: World, rows: seq<Tunnel>, n: Name, markers: set<string>)
    requires OffLimits(w.kern, n, rows)
    requires forall t | t in rows :: Marker(t.id) in markers
    ensures var k, k' := w.kern, Pass(w, rows).kern;
      && (n in k'.links <==> n in k.links) && (n in k.links ==> k'.links[n] == k.links[n])
      && ForeignToAll(k'.rules, markers) == ForeignToAll(k.rules, markers)
      && k'.egress == k.egress && k.env.Before(k'.env)
    decreases |rows|
  {
    hide ReconcileOne, Foreign, ForeignToAll, DbFrame;
    if rows != [] {
      var t := rows[0];
      assert t in rows;
      ReconcileOneFrame(w, t);
      var w1 := ReconcileOne(w, t).0;
      if t.name != n { Elsewhere(w.kern.links, w1.kern.links, t.name, n); }
      ForeignToMore(w.kern.rules, Marker(t.id), markers);
      ForeignToMore(w1.kern.rules, Marker(t.id), markers);
      PassOwnership(w1, rows[1..], n, markers);
    }
  }

  /** The rows are what the table holds, each once: a listing not yet overtaken. */
  ghost predicate Current(db: Db, rows: seq<Tunnel>) {
    && (forall i | 0 <= i < |rows| :: rows[i].id in db.tunnels && db.tunnels[rows[i].id] == rows[i])
    && (forall i, j | 0 <= i < j < |rows| :: rows[i].id != rows[j].id)
  }

  lemma RowUnderItsId(db: Db, id: TunnelId)
    requires db.Valid() && id in db.tunnels
    ensures db.tunnels[id].id == id && !db.NameTaken(db.tunnels[id].name, id)
  {
  }

  lemma RowsElsewhere(db: Db, db': Db, id: TunnelId, other: TunnelId)
    requires db'.tunnels - {id} == db.tunnels - {id} && other != id
    ensures other in db'.tunnels <==> other in db.tunnels
    ensures other in db.tunnels ==> db'.tunnels[other] == db.tunnels[other]
  {
    assert other in db.tunnels <==> other in db.tunnels - {id};
    assert other in db'.tunnels <==> other in db'.tunnels - {id};
    if other in db.tunnels {
      assert db.tunnels[other] == (db.tunnels - {id})[other] == (db'.tunnels - {id})[other] == db'.tunnels[other];
    }
  }

  /** A step leaves the rest of the listing current. */
  lemma StaysCurrent(w: World, rows: seq<Tunnel>)
    requires rows != [] && Current(w.db, rows)
    ensures Current(ReconcileOne(w, rows[0]).0.db, rows[1..])
  {
    hide ReconcileOne, OwnershipFrame, Advances, Db.Valid;
    ReconcileOneFrame(w, rows[0]);
    var db' := ReconcileOne(w, rows[0]).0.db;
    forall i | 0 <= i < |rows[1..]|
      ensures rows[1..][i].id in db'.tunnels && db'.tunnels[rows[1..][i].id] == rows[1..][i]
    {
      assert rows[1..][i] == rows[i + 1];
      RowsElsewhere(w.db, db', rows[0].id, rows[i + 1].id);
    }
  }

  /**
    A pass keeps every surviving row's intent, makes no row, and moves every operation forward
    only; rows outside the listing stay as they are.
  */
  lemma {:induction false} PassKeepsIntent(w: World, rows: seq<Tunnel>)
    requires Current(w.db, rows)
    ensures var db, db' := w.db, Pass(w, rows).db;
      && (forall id | id in db'.tunnels :: id in db.tunnels && db'.tunnels[id].Intent() == db.tunnels[id].Intent())
      && (forall id | id in db.tunnels && db.tunnels[id] !in rows ::
            id in db'.tunnels && db'.tunnels[id] == db.tunnels[id])
      && (db.Valid() ==> db'.Valid())
      && |db'.ops| == |db.ops|
      && (forall i | 0 <= i < |db.ops| :: Advances(db.ops[i], db'.ops[i]))
    decreases |rows|
  {
    hide ReconcileOne, OwnershipFrame, Advances, Db.Valid;
    if rows != [] {
      ReconcileOneFrame(w, rows[0]);
      StaysCurrent(w, rows);
      var w1 := ReconcileOne(w, rows[0]).0;
      PassKeepsIntent(w1, rows[1..]);
      var db' := Pass(w, rows).db;
      forall id | id in db'.tunnels
        ensures id in w.db.tunnels && db'.tunnels[id].Intent() == w.db.tunnels[id].Intent()
      {
        if id != rows[0].id { RowsElsewhere(w.db, w1.db, rows[0].id, id); }
      }
      forall id | id in w.db.tunnels && w.db.tunnels[id] !in rows
        ensures id in db'.tunnels && db'.tunnels[id] == w.db.tunnels[id]
      {
        assert rows[0] in rows;
        RowsElsewhere(w.db, w1.db, rows[0].id, id);
        assert w1.db.tunnels[id] !in rows[1..];
      }
      forall i | 0 <= i < |w.db.ops| ensures Advances(w.db.ops[i], db'.ops[i]) {
        AdvancesTransitive(w.db.ops[i], w1.db.ops[i], db'.ops[i]);
      }
    } else {
      forall i | 0 <= i < |w.db.ops| ensures Advances(w.db.ops[i], w.db.ops[i]) {
        AdvancesReflexive(w.db.ops[i]);
      }
    }
  }

  // ---------- what success means ----------

  /** The desired state of a tunnel, as far as success vouches for it under every plan. */
  ghost predicate Fulfilled(w: World, t: Tunnel) {
    match t.desired
    case Deleted => t.name !in w.kern.links && t.id !in w.db.tunnels
    case _ =>
      && LinkApplied(w.kern, t) && AddressIs(w.kern.links[t.name].addrs, t.address)
      && w.kern.egress.Some?
      && (WantsMasquerade(t) ==>
        IngressRule(t) in w.kern.rules && NatRule(t, w.kern.egress.value) in w.kern.rules)
  }

  ghost predicate NoNewSuccess(ops: seq<Operation>, ops': seq<Operation>) {
    |ops'| == |ops| && forall i | 0 <= i < |ops| :: ops'[i].status.Success? ==> ops[i].status.Success?
  }

  lemma FailIsNoSuccess(w: World, t: Tunnel, message: string)
    ensures var (w', v) := Fail(w, t, message);
      v != Settled(true) && NoNewSuccess(w.db.ops, w'.db.ops)
  {
    hide RetryDelay, MarkedRow, Db.NameTaken;
  }

  lemma CompleteSpeaksForOps(w: World, id: TunnelId, message: Message)
    ensures var (w', v) := Complete(w, id, true, message);
      v != Settled(true) ==> NoNewSuccess(w.db.ops, w'.db.ops)
  {
  }

  lemma RecordIsNoSuccess(w: World, t: Tunnel, seen: Observation)
    ensures var (w', v) := RecordOne(w, t, seen);
      && (v != Settled(true) ==> NoNewSuccess(w.db.ops, w'.db.ops))
      && (v == Settled(true) ==> !(seen.state.Error? || seen.state.Unknown? || seen.state.Missing?))
  {
    hide Fail, Complete, MarkedRow, Db.NameTaken;
    var w1 := Mark(w, t, seen.state, seen.message).0;
    FailIsNoSuccess(w1, t, seen.message);
    CompleteSpeaksForOps(w1, t.id, Text("desired state applied"));
  }

  lemma ApplyIsNoSuccess(w: World, t: Tunnel)
    ensures var (w', v) := ApplyOne(w, t); v != Settled(true) ==> NoNewSuccess(w.db.ops, w'.db.ops)
  {
    hide Reconciled, Fail, RecordOne;
    var (k, err) := Reconciled(w.kern, t);
    if err.Some? { FailIsNoSuccess(w.(kern := k), t, err.value); }
    var (k', seen) := Observed(k, t);
    FailIsNoSuccess(w.(kern := k'), t, seen.message);
    RecordIsNoSuccess(w.(kern := k'), t, seen);
  }

  lemma RemoveIsNoSuccess(w: World, t: Tunnel)
    ensures var (w', v) := RemoveOne(w, t); v != Settled(true) ==> NoNewSuccess(w.db.ops, w'.db.ops)
  {
    hide Removed, Fail, Complete;
    var (k, err) := Removed(w.kern, t);
    var w1 := w.(kern := k);
    if err.Some? { FailIsNoSuccess(w1, t, err.value); }
    CompleteSpeaksForOps(w1.Execute(w1.db.DeleteTunnel(t.id)).0, t.id, Text("tunnel removed"));
  }

  /** Operations turn to success only in a step whose verdict says so. */
  lemma VerdictSpeaksForOps(w: World, t: Tunnel)
    ensures var (w', v) := ReconcileOne(w, t); v != Settled(true) ==> NoNewSuccess(w.db.ops, w'.db.ops)
  {
    hide RemoveOne, ApplyOne, Fail;
    FailIsNoSuccess(w, t, "provider is not installed");
    var w1 := w.Execute(w.db.MarkOperationsRunning(t.id)).0;
    assert NoNewSuccess(w.db.ops, w1.db.ops);
    RemoveIsNoSuccess(w1, t);
    ApplyIsNoSuccess(w1, t);
  }

  /** The desired state, under every plan, when the step says it got through. */
  lemma ApplyIsEarned(w: World, t: Tunnel)
    requires ApplyOne(w, t).1 == Settled(true) && !t.desired.Deleted?
    ensures Fulfilled(ApplyOne(w, t).0, t)
  {
    hide Reconciled, Fail, RecordOne, RequiresRecreate, Foreign, AddressIs;
    var (k, err) := Reconciled(w.kern, t);
    if err.Some? { FailIsNoSuccess(w.(kern := k), t, err.value); }
    var (k', seen) := Observed(k, t);
    FailIsNoSuccess(w.(kern := k'), t, seen.message);
    RecordIsNoSuccess(w.(kern := k'), t, seen);
    RecordKernel(w.(kern := k'), t, seen);
    SuccessIsTruthful(w.kern, t);
  }

  lemma RemoveIsEarned(w: World, t: Tunnel)
    requires RemoveOne(w, t).1 == Settled(true) && t.desired.Deleted?
    ensures Fulfilled(RemoveOne(w, t).0, t)
  {
    hide Removed, Fail;
    RemoveKernel(w, t);
    var (k, err) := Removed(w.kern, t);
    if err.Some? { FailIsNoSuccess(w.(kern := k), t, err.value); }
  }

  /** The verdict is earned: the desired state holds on the host and in the table. */
  lemma VerdictIsEarned(w: World, t: Tunnel)
    requires ReconcileOne(w, t).1 == Settled(true)
    ensures Fulfilled(ReconcileOne(w, t).0, t)
  {
    hide RemoveOne, ApplyOne, Fail, Fulfilled;
    FailIsNoSuccess(w, t, "provider is not installed");
    var w1 := w.Execute(w.db.MarkOperationsRunning(t.id)).0;
    if t.desired.Deleted? {
      if RemoveOne(w1, t).1 == Settled(true) { RemoveIsEarned(w1, t); }
    } else {
      if ApplyOne(w1, t).1 == Settled(true) { ApplyIsEarned(w1, t); }
    }
  }

  /** A row goes only when it was to go and its removal returned without error in that same step. */
  lemma OnlyDeletedRowsGo(w: World, t: Tunnel)
    requires t.id in w.db.tunnels && t.id !in ReconcileOne(w, t).0.db.tunnels
    ensures t.desired.Deleted?
    ensures var (k, err) := Removed(w.kern.Tick(), t);
      err.None? && t.name !in k.links && t.name !in ReconcileOne(w, t).0.kern.links
  {
    hide Removed, ApplyOne, Fail;
    RemoveKernel(w.Execute(w.db.MarkOperationsRunning(t.id)).0, t);
  }
}
