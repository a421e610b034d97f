/** Punctuality: a retry is made at the first pass from its time on, and not before. */
module Punctual {
  import opened Domain
  import opened Kernel
  import opened Provider
  import opened Store
  import opened Controller
  import opened Frames
  import opened Failures
  import opened Settlement
  import opened Causes
  import opened Runs
  import opened PassRecovery

  /** The wait after the n-th failure in a row, in numbers: 5, 10, 20, 40, 80, 160, then 300 seconds. */
  function Wait(n: int): int {
    if n == 1 then 5_000_000_000
    else if n == 2 then 10_000_000_000
    else if n == 3 then 20_000_000_000
    else if n == 4 then 40_000_000_000
    else if n == 5 then 80_000_000_000
    else if n == 6 then 160_000_000_000
    else if n >= 7 then 300_000_000_000
    else 0
  }

  lemma WaitIsDelay(n: int)
    ensures RetryDelay(n) == Wait(n)
  {
    RetryDelayShape(n, n);
    assert Pow2(1) == 2 && Pow2(2) == 4;
    assert Pow2(3) == 8;
    assert Pow2(4) == 16;
    assert Pow2(5) == 32;
  }

  lemma FailIsNoSkip(w: World, t: Tunnel, message: string)
    ensures !Fail(w, t, message).1.Skipped?
  {
    hide RetryDelay, Db.NameTaken, MarkedRow;
  }

  lemma ApplyIsNoSkip(w: World, t: Tunnel)
    ensures !ApplyOne(w, t).1.Skipped?
  {
    hide Reconciled, Fail, Db.NameTaken, MarkedRow;
    var (k, err) := Reconciled(w.kern, t);
    if err.Some? { FailIsNoSkip(w.(kern := k), t, err.value); }
    var (k', seen) := Observed(k, t);
    var w1 := w.(kern := k');
    FailIsNoSkip(w1, t, seen.message);
    FailIsNoSkip(Mark(w1, t, seen.state, seen.message).0, t, seen.message);
  }

  lemma RemoveIsNoSkip(w: World, t: Tunnel)
    ensures !RemoveOne(w, t).1.Skipped?
  {
    hide Removed, Fail;
    var (k, err) := Removed(w.kern, t);
    if err.Some? { FailIsNoSkip(w.(kern := k), t, err.value); }
  }

  /** A step is skipped exactly before the retry time of its row, and then nothing happens at all. */
  lemma SkippedIff(w: World, t: Tunnel)
    ensures ReconcileOne(w, t).1.Skipped? <==> t.retryAt.Some? && w.Now() < t.retryAt.value
    ensures ReconcileOne(w, t).1.Skipped? ==> ReconcileOne(w, t).0 == w
  {
    hide RemoveOne, ApplyOne, Fail;
    FailIsNoSkip(w, t, "provider is not installed");
    var w1 := w.Execute(w.db.MarkOperationsRunning(t.id)).0;
    ApplyIsNoSkip(w1, t);
    RemoveIsNoSkip(w1, t);
  }

  /**
    After a failure, recorded when its row was written, the same row is skipped exactly until the
    wait is over. So a failure waits its 5·2^(n-1) seconds, at most 300, and not a moment longer.
  */
  lemma RetriedInTime(w: World, t: Tunnel, u: World)
    requires ReconcileOne(w, t).1 == Settled(false)
    requires var w' := ReconcileOne(w, t).0;
      t.id in w'.db.tunnels && t.id in u.db.tunnels && u.db.tunnels[t.id] == w'.db.tunnels[t.id]
    ensures
      var recorded := ReconcileOne(w, t).0.kern.env.Began(2);
      && w.Now() <= recorded
      && (ReconcileOne(u, u.db.tunnels[t.id]).1.Skipped? <==> u.Now() < recorded + Wait(t.failureCount + 1))
  {
    hide ReconcileOne, RetryDelay, AllEnded, Wait, Env.Began;
    FailureIsRecorded(w, t);
    WaitIsDelay(t.failureCount + 1);
    SkippedIff(u, u.db.tunnels[t.id]);
  }

  /** A row that was taken up: gone, or healthy, or failed once more and waiting. */
  ghost predicate TakenUp(t: Tunnel, db: Db) {
    t.id in db.tunnels ==>
      var row := db.tunnels[t.id];
      || ((row.actual.Up? || row.actual.Down?) && row.failureCount == 0 && row.retryAt.None?)
      || (row.actual.Error? && row.failureCount == t.failureCount + 1 && row.retryAt.Some?)
  }

  lemma StepTakenUp(w: World, t: Tunnel)
    requires w.kern.env.StoreWorks() && w.db.Valid() && t.id in w.db.tunnels && w.db.tunnels[t.id] == t
    ensures
      if t.retryAt.Some? && w.Now() < t.retryAt.value
      then ReconcileOne(w, t).0 == w
      else TakenUp(t, ReconcileOne(w, t).0.db)
  {
    hide ReconcileOne, RetryDelay, AllEnded, Env.Began, StepError;
    StepConcludes(w, t);
    if ReconcileOne(w, t).1 == Settled(false) { FailureIsRecorded(w, t); }
    if ReconcileOne(w, t).1 == Settled(true) { SuccessIsRecorded(w, t); }
  }

  /**
    A pass while the store works: every listed tunnel whose retry time, if any, has come when the
    pass begins is taken up; one whose time has not come when it ends is left as it was.
  */
  lemma PassIsPunctual(w: World, rows: seq<Tunnel>, t: Tunnel)
    requires w.kern.env.StoreWorks() && w.db.Valid() && w.db.IsListing(rows) && t in rows
    ensures var w' := Pass(w, rows);
      && (t.retryAt.None? || t.retryAt.value <= w.Now() ==> TakenUp(t, w'.db))
      && (t.retryAt.Some? && w'.Now() < t.retryAt.value ==> t.id in w'.db.tunnels && w'.db.tunnels[t.id] == t)
  {
    hide ReconcileOne, Pass, Others, OwnOpsAlike, OwnRulesAlike, Db.Valid;
    var pre, post := TurnOf(w, rows, t);
    var u := Pass(w, pre);
    PassAlike(w, pre, t);
    WorksLater(w.kern.env, u.kern.env);
    PassStaysValid(w, pre, rows);
    StepTakenUp(u, t);
    PassAlike(ReconcileOne(u, t).0, post, t);
    StepAround(u, t);
  }

  lemma StepAround(u: World, t: Tunnel)
    ensures u.kern.env.Before(ReconcileOne(u, t).0.kern.env)
  {
    hide ReconcileOne, Foreign, DbFrame;
    ReconcileOneFrame(u, t);
  }

  lemma PassStaysValid(w: World, pre: seq<Tunnel>, rows: seq<Tunnel>)
    requires w.db.Valid() && w.db.IsListing(rows) && pre <= rows
    ensures Pass(w, pre).db.Valid()
  {
    hide Pass, Db.Valid;
    assert forall i | 0 <= i < |pre| :: pre[i] == rows[i];
    PassKeepsIntent(w, pre);
  }

  lemma {:induction false} StoreStillWorks(ss: seq<Sys>, steps: seq<Step>, j: nat)
    requires Run(ss, steps) && j < |ss| && ss[0].world.kern.env.StoreWorks()
    ensures ss[j].world.kern.env.StoreWorks()
  {
    hide Run, Next, Possible;
    if j > 0 {
      StoreStillWorks(ss, steps, j - 1);
      RunStep(ss, steps, j - 1);
      StepTime(ss[j - 1], steps[j - 1]);
      WorksLater(ss[j - 1].world.kern.env, ss[j].world.kern.env);
    }
  }

  /** In every run in which the store works: each pass takes up every tunnel whose time has come. */
  lemma EveryPassIsPunctual(ss: seq<Sys>, steps: seq<Step>, j: nat, id: TunnelId)
    requires Run(ss, steps) && j + 1 < |ss| && steps[j].Sweep?
    requires ss[0].world.kern.env.StoreWorks() && id in ss[j].world.db.tunnels
    ensures var t := ss[j].world.db.tunnels[id];
      t.retryAt.None? || t.retryAt.value <= ss[j].world.Now() ==> TakenUp(t, ss[j + 1].world.db)
  {
    hide Run, Pass, TakenUp;
    StoreStillWorks(ss, steps, j);
    RunStep(ss, steps, j);
    var w := ss[j].world;
    RowUnderItsId(w.db, id);
    WorksLater(w.kern.env, w.kern.env);
    WorksLater(w.kern.env, w.kern.env.Next());
    PassIsPunctual(w.(kern := w.kern.Tick()), steps[j].rows, w.db.tunnels[id]);
  }
}
