/** Backoff over whole runs: how long n failures in a row take at the least. */
module Backoff {
  import opened Domain
  import opened Provider
  import opened Store
  import opened Controller
  import opened Frames

  /** The three ways a step taken between `now` and `later` moves a row's retry state. */
  predicate RetryMove(t: Tunnel, row: Tunnel, now: nat, later: nat) {
    || (row.failureCount == t.failureCount && row.retryAt == t.retryAt)
    || (Due(t, now) && row.failureCount == t.failureCount + 1 && row.retryAt.Some?
        && now <= row.retryAt.value - RetryDelay(t.failureCount + 1) <= later)
    || (row.failureCount == 0 && row.retryAt.None?)
  }

  ghost predicate Moves(db: Db, t: Tunnel, now: nat, later: nat) {
    t.id in db.tunnels ==> RetryMove(t, db.tunnels[t.id], now, later)
  }

  ghost predicate SameRetry(db: Db, t: Tunnel) {
    t.id in db.tunnels ==> db.tunnels[t.id].failureCount == t.failureCount && db.tunnels[t.id].retryAt == t.retryAt
  }

  lemma FailMoves(w: World, t: Tunnel, message: string, now: nat)
    requires SameRetry(w.db, t) && Due(t, now) && now <= w.Now()
    ensures var w' := Fail(w, t, message).0; Moves(w'.db, t, now, w'.Now())
  {
    hide RetryDelay, CompletedOp, Db.NameTaken;
  }

  lemma CompleteMoves(w: World, t: Tunnel, message: Message, now: nat)
    requires Moves(w.db, t, now, w.Now())
    ensures var w' := Complete(w, t.id, true, message).0; Moves(w'.db, t, now, w'.Now())
  {
    hide RetryDelay, CompletedOp;
  }

  lemma RemoveMoves(w: World, t: Tunnel, now: nat)
    requires SameRetry(w.db, t) && Due(t, now) && now <= w.Now()
    ensures var w' := RemoveOne(w, t).0; Moves(w'.db, t, now, w'.Now())
  {
    hide Removed, Fail, Complete;
    var (k, err) := Removed(w.kern, t);
    var w1 := w.(kern := k);
    if err.Some? { FailMoves(w1, t, err.value, now); }
    CompleteMoves(w1.Execute(w1.db.DeleteTunnel(t.id)).0, t, Text("tunnel removed"), now);
  }

  lemma RecordMoves(w: World, t: Tunnel, seen: Observation, now: nat)
    requires SameRetry(w.db, t) && Due(t, now) && now <= w.Now()
    ensures var w' := RecordOne(w, t, seen).0; Moves(w'.db, t, now, w'.Now())
  {
    hide Fail, Complete, Db.NameTaken, RetryDelay;
    var w1 := Mark(w, t, seen.state, seen.message).0;
    if !(seen.state.Up? || seen.state.Down?) { FailMoves(w1, t, seen.message, now); }
    CompleteMoves(w1, t, Text("desired state applied"), now);
  }

  lemma ApplyMoves(w: World, t: Tunnel, now: nat)
    requires SameRetry(w.db, t) && Due(t, now) && now <= w.Now()
    ensures var w' := ApplyOne(w, t).0; Moves(w'.db, t, now, w'.Now())
  {
    hide Reconciled, Fail, RecordOne, Moves;
    var (k, err) := Reconciled(w.kern, t);
    if err.Some? { FailMoves(w.(kern := k), t, err.value, now); }
    var (k', seen) := Observed(k, t);
    var w1 := w.(kern := k');
    FailMoves(w1, t, seen.message, now);
    RecordMoves(w1, t, seen, now);
  }

  lemma StepMoves(w: World, t: Tunnel)
    requires SameRetry(w.db, t)
    ensures var w' := ReconcileOne(w, t).0; Moves(w'.db, t, w.Now(), w'.Now())
  {
    hide RemoveOne, ApplyOne, Fail, RunningOp;
    if Due(t, w.Now()) {
      FailMoves(w, t, "provider is not installed", w.Now());
      var w1 := w.Execute(w.db.MarkOperationsRunning(t.id)).0;
      RemoveMoves(w1, t, w.Now());
      ApplyMoves(w1, t, w.Now());
    }
  }

  /**
    What one tunnel's row sees of a run without API edits and restarts: step i works on the row as
    it stands, time then passes, and the next step finds the row as step i left it. Everything
    else, the host included, may change in between.
  */
  ghost predicate Run(ws: seq<World>, id: TunnelId) {
    && (forall i | 0 <= i < |ws| :: Stored(ws[i], id))
    && (forall i | 0 <= i < |ws| - 1 :: Linked(ws[i], ws[i + 1], id))
  }

  predicate Stored(w: World, id: TunnelId) {
    id in w.db.tunnels && w.db.tunnels[id].id == id
  }

  /** A step works on the row in the one world; the other finds the row as that step left it. */
  ghost predicate Linked(a: World, b: World, id: TunnelId) {
    && Stored(a, id) && Stored(b, id)
    && var w' := ReconcileOne(a, a.db.tunnels[id]).0;
    && id in w'.db.tunnels && b.db.tunnels[id] == w'.db.tunnels[id] && w'.Now() <= b.Now()
  }

  lemma LinkAt(ws: seq<World>, id: TunnelId, i: nat)
    requires Run(ws, id) && i + 1 < |ws|
    ensures Linked(ws[i], ws[i + 1], id)
  {
    hide Linked;
  }

  lemma StoredAt(ws: seq<World>, id: TunnelId, i: nat)
    requires Run(ws, id) && i < |ws|
    ensures Stored(ws[i], id)
  {
    hide Linked;
  }

  lemma LinkedLater(a: World, b: World, c: World, id: TunnelId)
    requires Linked(a, b, id) && Stored(c, id) && c.db.tunnels[id] == b.db.tunnels[id] && b.Now() <= c.Now()
    ensures Linked(a, c, id)
  {
    hide ReconcileOne;
  }

  function DelaySum(n: nat): nat {
    if n == 0 then 0 else DelaySum(n - 1) + RetryDelay(n)
  }

  lemma {:induction false} DelaySumClosed(n: nat)
    ensures n <= 6 ==> DelaySum(n) == 5 * SECOND * (Pow2(n) - 1)
    ensures n >= 6 ==> DelaySum(n) == (315 + 300 * (n - 6)) * SECOND
  {
    Pow2Values();
    if n > 0 {
      DelaySumClosed(n - 1);
      RetryDelayShape(n, n);
      if n <= 6 {
        assert RetryDelay(n) == 5 * SECOND * Pow2(n - 1);
      }
    }
  }

  lemma Moved(ws: seq<World>, id: TunnelId, i: nat)
    requires Run(ws, id) && i + 1 < |ws|
    ensures Stored(ws[i], id) && Stored(ws[i + 1], id)
    ensures RetryMove(ws[i].db.tunnels[id], ws[i + 1].db.tunnels[id], ws[i].Now(), ws[i + 1].Now())
    ensures ws[i].Now() <= ws[i + 1].Now()
  {
    hide ReconcileOne, Foreign, DbFrame, Run;
    LinkAt(ws, id, i);
    StepMoves(ws[i], ws[i].db.tunnels[id]);
    ReconcileOneFrame(ws[i], ws[i].db.tunnels[id]);
  }

  /** A stretch of failures: it starts in step `first`, at count 0, and no success ends it up to j. */
  ghost predicate Stretch(ws: seq<World>, id: TunnelId, first: nat, j: nat) {
    && Run(ws, id) && first < j < |ws|
    && ws[first].db.tunnels[id].failureCount == 0
    && forall i | first < i <= j :: ws[i].db.tunnels[id].failureCount > 0
  }

  /** The moment the first failure of a stretch was recorded: its retry time less its delay. */
  ghost function FirstFailure(ws: seq<World>, id: TunnelId, first: nat): int
    requires Run(ws, id) && first + 1 < |ws| && ws[first + 1].db.tunnels[id].retryAt.Some?
  {
    ws[first + 1].db.tunnels[id].retryAt.value - RetryDelay(1)
  }

  lemma {:induction false} ConsecutiveFailures(ws: seq<World>, id: TunnelId, first: nat, j: nat)
    requires Stretch(ws, id, first, j)
    ensures var row := ws[j].db.tunnels[id];
      && ws[first + 1].db.tunnels[id].retryAt.Some? && row.retryAt.Some?
      && ws[first].Now() <= FirstFailure(ws, id, first) <= ws[first + 1].Now()
      && row.retryAt.value >= FirstFailure(ws, id, first) + DelaySum(row.failureCount)
      && ws[j].Now() >= FirstFailure(ws, id, first) + DelaySum(row.failureCount - 1)
    decreases j
  {
    hide RetryDelay, Run;
    Moved(ws, id, j - 1);
    if j > first + 1 {
      ConsecutiveFailures(ws, id, first, j - 1);
    } else {
      assert DelaySum(0) == 0 && DelaySum(1) == RetryDelay(1);
    }
  }

  /** The closed form: reaching n failures in a row, n at least 1, takes this long after the first. */
  lemma BackoffTakesTime(ws: seq<World>, id: TunnelId, first: nat, j: nat, n: nat)
    requires Stretch(ws, id, first, j) && n == ws[j].db.tunnels[id].failureCount
    ensures ws[first + 1].db.tunnels[id].retryAt.Some?
    ensures n <= 7 ==> ws[j].Now() >= FirstFailure(ws, id, first) + 5 * SECOND * (Pow2(n - 1) - 1)
    ensures n >= 7 ==> ws[j].Now() >= FirstFailure(ws, id, first) + (315 + 300 * (n - 7)) * SECOND
  {
    hide Run;
    ConsecutiveFailures(ws, id, first, j);
    DelaySumClosed(n - 1);
  }
}
