/** What a step records, under every plan: the error that stopped it, or its success, and when. */
module Failures {
  import opened Domain
  import opened Kernel
  import opened Provider
  import opened Store
  import opened Controller
  import opened Frames

  /** Every open operation of the tunnel ended so, with this message, at this time; no other moves. */
  ghost predicate AllEnded(
      ops: seq<Operation>, ops': seq<Operation>, id: TunnelId, status: Status, message: Message, at: int)
  {
    && |ops'| == |ops|
    && forall i | 0 <= i < |ops| ::
        if ops[i].resource == id && ops[i].Open()
        then ops'[i].(finishedAt := None) == ops[i].(status := status, message := message, finishedAt := None)
             && ops'[i].finishedAt.Some? && ops'[i].finishedAt.value == at
        else ops'[i] == ops[i]
  }

  /**
    One failure more, what went wrong to show, a retry one delay after the moment the row was
    written, and the operations told the same at the last moment of the step.
  */
  ghost predicate FailureRecorded(ops: seq<Operation>, w': World, t: Tunnel, error: string, from: nat) {
    && t.id in w'.db.tunnels
    && var row, e := w'.db.tunnels[t.id], w'.kern.env;
    && row.actual.Error? && row.lastError == error && row.failureCount == t.failureCount + 1
    && row.updatedAt == e.Began(2) && from <= e.Began(2)
    && row.retryAt.Some? && row.retryAt.value == e.Began(2) + RetryDelay(row.failureCount)
    && AllEnded(ops, w'.db.ops, t.id, Failed, Retry(error, RetryDelay(row.failureCount)), e.Began(1))
  }

  /** The log is as it was but for the tunnel's queued operations, which may run. */
  ghost predicate MayRun(ops: seq<Operation>, ops': seq<Operation>, id: TunnelId) {
    && |ops'| == |ops|
    && forall i | 0 <= i < |ops| ::
        ops'[i] == ops[i] || (ops[i].resource == id && ops[i].Open() && ops'[i] == ops[i].(status := Running))
  }

  lemma FailRecords(w: World, t: Tunnel, message: string, ops: seq<Operation>, from: nat)
    requires MayRun(ops, w.db.ops, t.id) && from <= w.Now() && Fail(w, t, message).1 == Settled(false)
    ensures FailureRecorded(ops, Fail(w, t, message).0, t, message, from)
  {
    hide RetryDelay, Db.NameTaken, Env.Began;
    BeganNext(w.kern.env);
  }

  lemma CompleteFails(w: World, id: TunnelId, message: Message)
    ensures Complete(w, id, true, message).1 != Settled(false)
  {
  }

  /** What an observation of the host calls for, told from the host and the plan. */
  function Amiss(k: Kern, t: Tunnel): Err {
    if k.env.Failing() then Some("read GRE interface")
    else if t.name !in k.links then Some("managed GRE interface is absent")
    else if k.links[t.name].alias != Marker(t.id) then
      Some("an interface with this name is not owned by MikroTunnel")
    else None
  }

  /** What goes wrong in a step that starts: the provider's own error, or what is amiss afterwards. */
  function StepError(k: Kern, t: Tunnel): Err {
    if !t.typ.Gre? then Some("provider is not installed")
    else if t.desired.Deleted? then Removed(k, t).1
    else
      var (k1, err) := Reconciled(k, t);
      if err.Some? then err else Amiss(k1, t)
  }

  lemma RecordRecords(w: World, t: Tunnel, seen: Observation, ops: seq<Operation>, from: nat)
    requires MayRun(ops, w.db.ops, t.id) && from <= w.Now() && RecordOne(w, t, seen).1 == Settled(false)
    ensures FailureRecorded(ops, RecordOne(w, t, seen).0, t, seen.message, from)
    ensures seen.state.Error? || seen.state.Unknown? || seen.state.Missing?
  {
    hide Fail, Complete, MayRun, FailureRecorded, MarkedRow, Db.NameTaken;
    var w1 := Mark(w, t, seen.state, seen.message).0;
    CompleteFails(w1, t.id, Text("desired state applied"));
    if Fail(w1, t, seen.message).1 == Settled(false) { FailRecords(w1, t, seen.message, ops, from); }
  }

  lemma ApplyRecords(w: World, t: Tunnel, ops: seq<Operation>, from: nat)
    requires MayRun(ops, w.db.ops, t.id) && from <= w.Now() && ApplyOne(w, t).1 == Settled(false)
    requires t.typ.Gre? && !t.desired.Deleted?
    ensures StepError(w.kern, t).Some?
    ensures FailureRecorded(ops, ApplyOne(w, t).0, t, StepError(w.kern, t).value, from)
  {
    hide Reconciled, Fail, RecordOne, MayRun, FailureRecorded, Foreign;
    var (k, err) := Reconciled(w.kern, t);
    if err.Some? {
      FailRecords(w.(kern := k), t, err.value, ops, from);
    } else {
      var (k', seen) := Observed(k, t);
      var w1 := w.(kern := k');
      if seen.failed { FailRecords(w1, t, seen.message, ops, from); } else { RecordRecords(w1, t, seen, ops, from); }
    }
  }

  lemma RemoveRecords(w: World, t: Tunnel, ops: seq<Operation>, from: nat)
    requires MayRun(ops, w.db.ops, t.id) && from <= w.Now() && RemoveOne(w, t).1 == Settled(false)
    requires t.typ.Gre? && t.desired.Deleted?
    ensures StepError(w.kern, t).Some?
    ensures FailureRecorded(ops, RemoveOne(w, t).0, t, StepError(w.kern, t).value, from)
  {
    hide Removed, Fail, Complete, MayRun, FailureRecorded, Foreign;
    var (k, err) := Removed(w.kern, t);
    var w1 := w.(kern := k);
    if err.Some? {
      FailRecords(w1, t, err.value, ops, from);
    } else {
      CompleteFails(w1.Execute(w1.db.DeleteTunnel(t.id)).0, t.id, Text("tunnel removed"));
    }
  }

  /** The host as the provider finds it: the operations were marked running first. */
  function AtProvider(w: World, t: Tunnel): Kern { if t.typ.Gre? then w.kern.Tick() else w.kern }

  /**
    A step that reports failure has recorded it in full: the row shows what went wrong, the very
    error of the provider or what was amiss on the host, and when it will be tried again; every
    open operation of the tunnel carries the same error and delay.
  */
  lemma FailureIsRecorded(w: World, t: Tunnel)
    requires ReconcileOne(w, t).1 == Settled(false)
    ensures StepError(AtProvider(w, t), t).Some?
    ensures FailureRecorded(
      w.db.ops, ReconcileOne(w, t).0, t, StepError(AtProvider(w, t), t).value, w.Now())
  {
    hide RemoveOne, ApplyOne, Fail, FailureRecorded, Reconciled, Removed;
    if !t.typ.Gre? {
      FailRecords(w, t, "provider is not installed", w.db.ops, w.Now());
    } else {
      var w1 := w.Execute(w.db.MarkOperationsRunning(t.id)).0;
      assert MayRun(w.db.ops, w1.db.ops, t.id);
      if t.desired.Deleted? {
        RemoveRecords(w1, t, w.db.ops, w.Now());
      } else {
        ApplyRecords(w1, t, w.db.ops, w.Now());
      }
    }
  }

  // ---------- success ----------

  /** Healthy in the row, and every open operation a success at the last moment of the step. */
  ghost predicate SuccessRecorded(ops: seq<Operation>, w': World, t: Tunnel) {
    var e := w'.kern.env;
    if t.desired.Deleted? then
      && t.id !in w'.db.tunnels
      && AllEnded(ops, w'.db.ops, t.id, Success, Text("tunnel removed"), e.Began(1))
    else
      && t.id in w'.db.tunnels
      && var row := w'.db.tunnels[t.id];
      && row.actual == (if t.desired.Disabled? then Down else Up)
      && row.lastError == (if t.desired.Disabled? then "interface is administratively down" else "")
      && row.failureCount == 0 && row.retryAt.None? && row.updatedAt == e.Began(2)
      && AllEnded(ops, w'.db.ops, t.id, Success, Text("desired state applied"), e.Began(1))
  }

  lemma CompleteRecords(w: World, id: TunnelId, message: Message, ops: seq<Operation>)
    requires MayRun(ops, w.db.ops, id) && Complete(w, id, true, message).1 == Settled(true)
    ensures var w' := Complete(w, id, true, message).0;
      && AllEnded(ops, w'.db.ops, id, Success, message, w'.kern.env.Began(1))
      && w'.db.tunnels == w.db.tunnels && w'.kern.env == w.kern.env.Next()
  {
    hide Env.Began;
    BeganNext(w.kern.env);
  }

  lemma FailIsFailure(w: World, t: Tunnel, message: string)
    ensures Fail(w, t, message).1 != Settled(true)
  {
    hide RetryDelay, Db.NameTaken, MarkedRow;
  }

  lemma RecordSucceeds(w: World, t: Tunnel, seen: Observation, ops: seq<Operation>)
    requires MayRun(ops, w.db.ops, t.id) && RecordOne(w, t, seen).1 == Settled(true)
    ensures seen.state.Up? || seen.state.Down? || seen.state.Pending?
    ensures var w' := RecordOne(w, t, seen).0;
      && t.id in w'.db.tunnels
      && var row := w'.db.tunnels[t.id];
      && row.actual == seen.state && row.lastError == seen.message && row.updatedAt == w'.kern.env.Began(2)
      && (seen.state.Up? || seen.state.Down? ==> row.failureCount == 0 && row.retryAt.None?)
      && AllEnded(ops, w'.db.ops, t.id, Success, Text("desired state applied"), w'.kern.env.Began(1))
  {
    hide Fail, Complete, MayRun, AllEnded, Env.Began, Db.NameTaken;
    var (w1, o) := Mark(w, t, seen.state, seen.message);
    FailIsFailure(w1, t, seen.message);
    assert MayRun(ops, w1.db.ops, t.id) by { assert w1.db.ops == w.db.ops; }
    CompleteRecords(w1, t.id, Text("desired state applied"), ops);
    BeganNext(w.kern.env);
  }

  lemma ApplySucceeds(w: World, t: Tunnel, ops: seq<Operation>)
    requires MayRun(ops, w.db.ops, t.id) && ApplyOne(w, t).1 == Settled(true) && !t.desired.Deleted?
    ensures SuccessRecorded(ops, ApplyOne(w, t).0, t)
  {
    hide Reconciled, Fail, RecordOne, MayRun, AllEnded, Env.Began, Foreign, RequiresRecreate;
    var (k, err) := Reconciled(w.kern, t);
    if err.Some? {
      FailIsFailure(w.(kern := k), t, err.value);
    } else {
      var (k', seen) := Observed(k, t);
      var w1 := w.(kern := k');
      if seen.failed { FailIsFailure(w1, t, seen.message); } else { RecordSucceeds(w1, t, seen, ops); }
    }
  }

  lemma RemoveSucceeds(w: World, t: Tunnel, ops: seq<Operation>)
    requires MayRun(ops, w.db.ops, t.id) && RemoveOne(w, t).1 == Settled(true) && t.desired.Deleted?
    ensures SuccessRecorded(ops, RemoveOne(w, t).0, t)
  {
    hide Removed, Fail, Complete, MayRun, AllEnded, Env.Began, Foreign;
    var (k, err) := Removed(w.kern, t);
    var w1 := w.(kern := k);
    if err.Some? {
      FailIsFailure(w1, t, err.value);
    } else {
      var w2 := w1.Execute(w1.db.DeleteTunnel(t.id)).0;
      CompleteRecords(w2, t.id, Text("tunnel removed"), ops);
    }
  }

  /** A step that reports success has recorded it in full, under every plan. */
  lemma SuccessIsRecorded(w: World, t: Tunnel)
    requires ReconcileOne(w, t).1 == Settled(true)
    ensures SuccessRecorded(w.db.ops, ReconcileOne(w, t).0, t)
  {
    hide RemoveOne, ApplyOne, Fail, SuccessRecorded;
    FailIsFailure(w, t, "provider is not installed");
    var w1 := w.Execute(w.db.MarkOperationsRunning(t.id)).0;
    assert MayRun(w.db.ops, w1.db.ops, t.id);
    if t.desired.Deleted? { RemoveSucceeds(w1, t, w.db.ops); } else { ApplySucceeds(w1, t, w.db.ops); }
  }

  // ---------- the queue ----------

  ghost predicate NoneQueued(ops: seq<Operation>, id: TunnelId) {
    forall i | 0 <= i < |ops| && ops[i].resource == id :: !ops[i].status.Queued?
  }

  lemma StaysOffQueue(ops: seq<Operation>, ops': seq<Operation>, id: TunnelId)
    requires NoneQueued(ops, id) && OpsFrame(ops, ops', id)
    ensures NoneQueued(ops', id)
  {
    forall i | 0 <= i < |ops'| && ops'[i].resource == id ensures !ops'[i].status.Queued? {
      assert Advances(ops[i], ops'[i]);
    }
  }

  /** A step that starts takes its tunnel's operations off the queue, however it ends. */
  lemma StepTakesUp(w: World, t: Tunnel)
    requires Due(t, w.Now()) && t.typ.Gre? && !w.kern.env.Breaking()
    ensures NoneQueued(ReconcileOne(w, t).0.db.ops, t.id)
  {
    hide RemoveOne, ApplyOne, OwnershipFrame, OpsFrame;
    var w1 := w.Execute(w.db.MarkOperationsRunning(t.id)).0;
    assert NoneQueued(w1.db.ops, t.id);
    RemoveOneFrame(w1, t);
    ApplyOneFrame(w1, t);
    StaysOffQueue(w1.db.ops, ReconcileOne(w, t).0.db.ops, t.id);
  }
}
