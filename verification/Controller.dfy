/** The reconciler: one pass over the listed tunnels, its bookkeeping and its backoff. */
module Controller {
  import opened Domain
  import opened Kernel
  import opened Provider
  import opened Store

  const SECOND: nat := 1_000_000_000
  const CAP: nat := 300 * SECOND

  // ---------- backoff ----------

  function Pow2(n: nat): (p: nat)
    ensures p >= 1
  {
    if n == 0 then 1 else 2 * Pow2(n - 1)
  }

  /** The delay the design promises: 5 s doubled per failure, capped at 5 minutes. */
  function RetryDelay(failures: int): nat {
    if failures < 1 then 0
    else if 5 * SECOND * Pow2(failures - 1) > CAP then CAP
    else 5 * SECOND * Pow2(failures - 1)
  }

  lemma {:induction false} Pow2Monotone(a: nat, b: nat)
    requires a <= b
    ensures Pow2(a) <= Pow2(b)
  {
    if a < b { Pow2Monotone(a, b - 1); }
  }

  lemma Pow2Values()
    ensures Pow2(5) == 32 && Pow2(6) == 64
  {
    assert Pow2(2) == 4;
    assert Pow2(4) == 16;
  }

  /** Capped from the seventh failure on, and never decreasing. */
  lemma RetryDelayShape(n: int, m: int)
    requires n <= m
    ensures RetryDelay(n) <= RetryDelay(m) <= CAP
    ensures RetryDelay(n) == CAP <==> n >= 7
  {
    if n >= 1 { Pow2Monotone(n - 1, m - 1); }
    if n >= 7 { Pow2Monotone(6, n - 1); }
    if 1 <= n <= 6 { Pow2Monotone(n - 1, 5); }
    Pow2Values();
  }

  /** `trail` holds the values the delay takes on the way, before it is capped. */
  method ComputeRetryDelay(failures: int) returns (delay: nat, ghost trail: seq<nat>)
    ensures delay == RetryDelay(failures)
    ensures |trail| <= 7 && (failures < 1 <==> trail == [])
    ensures forall i | 0 <= i < |trail| :: trail[i] == 5 * SECOND * Pow2(i)
    ensures forall x | x in trail :: x <= 320 * SECOND
  {
    if failures < 1 { return 0, []; }
    Pow2Values();
    delay := 5 * SECOND;
    trail := [delay];
    var i := 1;
    while i < failures && delay < CAP
      invariant 1 <= i <= failures && |trail| == i <= 7
      invariant delay == 5 * SECOND * Pow2(i - 1) <= 320 * SECOND
      invariant forall j | 0 <= j < i :: trail[j] == 5 * SECOND * Pow2(j)
      invariant forall x | x in trail :: x <= 320 * SECOND
      decreases failures - i
    {
      delay := delay * 2;
      trail := trail + [delay];
      i := i + 1;
    }
    if i < failures { Pow2Monotone(i - 1, failures - 1); }
    if delay > CAP { delay := CAP; }
  }

  // ---------- bookkeeping ----------

  /** The row `mark` writes from the snapshot it was given. */
  function MarkedRow(t: Tunnel, state: Actual, message: string, now: nat): Tunnel {
    var healthy := state.Up? || state.Down?;
    t.(actual := state, lastError := message, updatedAt := now,
       failureCount := if healthy then 0 else t.failureCount,
       retryAt := if healthy then None else t.retryAt)
  }

  /** The row `fail` hands to `mark`. */
  function FailedRow(t: Tunnel, now: nat): Tunnel {
    t.(failureCount := t.failureCount + 1, retryAt := Some(now + RetryDelay(t.failureCount + 1)))
  }

  function Mark(w: World, t: Tunnel, state: Actual, message: string): (r: (World, Outcome))
    ensures r.0.db.tunnels.Keys == w.db.tunnels.Keys
  {
    w.Execute(w.db.UpdateTunnel(MarkedRow(t, state, message, w.Now())))
  }

  /** What a step came to. `Settled(true)`: it closed the operations as a success. */
  datatype Verdict = Skipped | StoreError | Settled(success: bool)

  function Complete(w: World, id: TunnelId, success: bool, message: Message): (r: (World, Verdict))
    ensures r.0.db.tunnels.Keys == w.db.tunnels.Keys
  {
    var (w1, o) := w.Execute(w.db.CompleteOperations(id, if success then Success else Failed, message, w.Now()));
    (w1, if o.Done? then Settled(success) else StoreError)
  }

  function Fail(w: World, t: Tunnel, message: string): (r: (World, Verdict))
    ensures r.0.db.tunnels.Keys == w.db.tunnels.Keys
  {
    var failed := FailedRow(t, w.Now());
    var (w1, o) := Mark(w, failed, Error, message);
    if !o.Done? then (w1, StoreError)
    else Complete(w1, t.id, false, Retry(message, RetryDelay(failed.failureCount)))
  }

  predicate Due(t: Tunnel, now: nat) { t.retryAt.Some? ==> t.retryAt.value <= now }

  /** A due tunnel that is to go: remove, drop the row, close its operations. */
  function RemoveOne(w: World, t: Tunnel): (World, Verdict) {
    var (k, err) := Removed(w.kern, t);
    var w1 := w.(kern := k);
    if err.Some? then Fail(w1, t, err.value)
    else
      var (w2, o) := w1.Execute(w1.db.DeleteTunnel(t.id));
      if !o.Done? then (w2, StoreError)
      else Complete(w2, t.id, true, Text("tunnel removed"))
  }

  /** After an observation: record it, and close the operations as it deserves. */
  function RecordOne(w: World, t: Tunnel, seen: Observation): (r: (World, Verdict))
    ensures r.0.db.tunnels.Keys == w.db.tunnels.Keys
  {
    var (w1, o) := Mark(w, t, seen.state, seen.message);
    if !o.Done? then (w1, StoreError)
    else if seen.state.Error? || seen.state.Unknown? || seen.state.Missing? then Fail(w1, t, seen.message)
    else Complete(w1, t.id, true, Text("desired state applied"))
  }

  /** A due tunnel that is to stay: reconcile, observe, record, close its operations. */
  function ApplyOne(w: World, t: Tunnel): (r: (World, Verdict))
    ensures r.0.db.tunnels.Keys == w.db.tunnels.Keys
  {
    var (k, err) := Reconciled(w.kern, t);
    if err.Some? then Fail(w.(kern := k), t, err.value)
    else
      var (k', seen) := Observed(k, t);
      var w1 := w.(kern := k');
      if seen.failed then Fail(w1, t, seen.message) else RecordOne(w1, t, seen)
  }

  function ReconcileOne(w: World, t: Tunnel): (World, Verdict) {
    if !Due(t, w.Now()) then (w, Skipped)
    else if !t.typ.Gre? then Fail(w, t, "provider is not installed")
    else
      var (w1, o) := w.Execute(w.db.MarkOperationsRunning(t.id));
      if !o.Done? then (w1, StoreError)
      else if t.desired.Deleted? then RemoveOne(w1, t)
      else ApplyOne(w1, t)
  }

  /** One pass over a listing taken beforehand. */
  function Pass(w: World, rows: seq<Tunnel>): World
    decreases |rows|
  {
    if rows == [] then w else Pass(ReconcileOne(w, rows[0]).0, rows[1..])
  }

  function Restarted(w: World): World {
    var (w1, o) := w.Execute(w.db.RequeueRunning());
    if o.Broken? then w1 else w1.Execute(w1.db.ClearRetries()).0
  }

  // ---------- the reconciler itself ----------

  class Reconciler {
    const store: SQLiteStore
    const host: Host
    const env: Environment

    constructor (store: SQLiteStore, host: Host)
      requires store.env == host.env
      ensures this.store == store && this.host == host && Wired()
    {
      this.store, this.host, this.env := store, host, host.env;
    }

    predicate Wired() { store.env == env && host.env == env }

    function W(): World
      requires Wired()
      reads store, host, env
    {
      World(host.K(), store.D())
    }

    method MarkTunnel(t: Tunnel, state: Actual, message: string) returns (o: Outcome)
      requires Wired()
      modifies store, env
      ensures (W(), o) == Mark(old(W()), t, state, message)
    {
      var row := t.(actual := state, lastError := message);
      if state.Up? || state.Down? {
        row := row.(failureCount := 0, retryAt := None);
      }
      row := row.(updatedAt := env.now);
      o := store.UpdateTunnel(row);
    }

    method FailTunnel(t: Tunnel, message: string) returns (v: Verdict)
      requires Wired()
      modifies store, env
      ensures (W(), v) == Fail(old(W()), t, message)
    {
      hide RetryDelay, Db.UpdateTunnel, Db.CompleteOperations;
      var row := t.(failureCount := t.failureCount + 1);
      var delay, _ := ComputeRetryDelay(row.failureCount);
      row := row.(retryAt := Some(env.now + delay));
      var o := MarkTunnel(row, Error, message);
      if !o.Done? { return StoreError; }
      o := store.CompleteOperations(t.id, Failed, Retry(message, delay), env.now);
      return if o.Done? then Settled(false) else StoreError;
    }

    method ReconcileTunnel(t: Tunnel) returns (v: Verdict)
      requires Wired()
      modifies store, host, env
      ensures (W(), v) == ReconcileOne(old(W()), t)
    {
      hide Reconciled, Removed, Db.MarkOperationsRunning, Db.CompleteOperations;
      hide Db.DeleteTunnel, Db.UpdateTunnel;
      if t.retryAt.Some? && env.now < t.retryAt.value { return Skipped; }
      if !t.typ.Gre? {
        v := FailTunnel(t, "provider is not installed");
        return;
      }
      var o := store.MarkOperationsRunning(t.id);
      if !o.Done? { return StoreError; }
      if t.desired.Deleted? {
        var err := RemovePlatform(host, t);
        if err.Some? {
          v := FailTunnel(t, err.value);
          return;
        }
        o := store.DeleteTunnel(t.id);
        if !o.Done? { return StoreError; }
        o := store.CompleteOperations(t.id, Success, Text("tunnel removed"), env.now);
        return if o.Done? then Settled(true) else StoreError;
      }
      var err := ReconcilePlatform(host, t);
      if err.Some? {
        v := FailTunnel(t, err.value);
        return;
      }
      var seen := ObservePlatform(host, t);
      if seen.failed {
        v := FailTunnel(t, seen.message);
        return;
      }
      o := MarkTunnel(t, seen.state, seen.message);
      if !o.Done? { return StoreError; }
      if seen.state.Error? || seen.state.Unknown? || seen.state.Missing? {
        v := FailTunnel(t, seen.message);
        return;
      }
      o := store.CompleteOperations(t.id, Success, Text("desired state applied"), env.now);
      return if o.Done? then Settled(true) else StoreError;
    }

    /** The listing is taken once; the rows it holds are what the pass works from. */
    method ReconcileAll() returns (ghost rows: seq<Tunnel>)
      requires Wired()
      modifies store, host, env
      ensures old(W()).kern.env.Breaking() ==> rows == []
      ensures !old(W()).kern.env.Breaking() && old(W()).db.Valid() ==> old(W()).db.IsListing(rows)
      ensures W() == Pass(old(W()).(kern := old(W()).kern.Tick()), rows)
    {
      hide ReconcileOne;
      var o, tunnels := store.ListTunnels();
      rows := tunnels;
      if o.Broken? { return; }
      ghost var start := W();
      for i := 0 to |tunnels|
        invariant Pass(start, rows) == Pass(W(), tunnels[i..])
      {
        assert tunnels[i..][1..] == tunnels[i + 1..];
        var v := ReconcileTunnel(tunnels[i]);
      }
    }

    method Restart()
      requires Wired()
      modifies store, env
      ensures W() == Restarted(old(W()))
    {
      var o := store.RequeueInterruptedOperations();
    }
  }
}
