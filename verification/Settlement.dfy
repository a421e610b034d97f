/**
  Prompt settlement. While the store works, backoff never delays a request: a tunnel waiting for a
  retry has no open operation, so one full pass closes every operation there is.
*/
module Settlement {
  import opened Domain
  import opened Kernel
  import opened Provider
  import opened Store
  import opened Controller
  import opened Frames
  import opened QuietSteps
  import opened Api
  import opened Runs

  ghost predicate NoneOpen(ops: seq<Operation>, id: TunnelId) {
    forall i | 0 <= i < |ops| :: ops[i].resource == id ==> !ops[i].Open()
  }

  ghost predicate AllClosed(ops: seq<Operation>) {
    forall i | 0 <= i < |ops| :: !ops[i].Open()
  }

  /** Waiting rows have nothing open; whatever is open names a row. */
  ghost predicate Prompt(db: Db) {
    && (forall id | id in db.tunnels && db.tunnels[id].retryAt.Some? :: NoneOpen(db.ops, id))
    && (forall i | 0 <= i < |db.ops| && db.ops[i].Open() :: db.ops[i].resource in db.tunnels)
  }

  lemma WorksLater(e: Env, e': Env)
    requires e.StoreWorks() && e.Before(e')
    ensures e'.StoreWorks() && !e'.Breaking()
  {
  }

  /** The row a step works from is, but for its outcome fields, the row stored. */
  ghost predicate Holds(db: Db, t: Tunnel) {
    db.Valid() && t.id in db.tunnels && db.tunnels[t.id].name == t.name
  }

  lemma CompleteSettles(w: World, id: TunnelId, success: bool, message: Message)
    requires w.kern.env.StoreWorks()
    ensures NoneOpen(Complete(w, id, success, message).0.db.ops, id)
  {
    WorksLater(w.kern.env, w.kern.env);
  }

  lemma MarkHolds(w: World, t: Tunnel, state: Actual, message: string)
    requires w.kern.env.StoreWorks() && Holds(w.db, t)
    ensures var (w1, o) := Mark(w, t, state, message);
      o.Done? && Holds(w1.db, t) && w1.kern.env.StoreWorks()
  {
    WorksLater(w.kern.env, w.kern.env);
    WorksLater(w.kern.env, w.kern.env.Next());
    OwnNameFree(w.db, t);
  }

  lemma FailSettles(w: World, t: Tunnel, message: string)
    requires w.kern.env.StoreWorks() && Holds(w.db, t)
    ensures NoneOpen(Fail(w, t, message).0.db.ops, t.id)
  {
    hide Complete, Mark, RetryDelay, NoneOpen;
    var failed := FailedRow(t, w.Now());
    MarkHolds(w, failed, Error, message);
    CompleteSettles(Mark(w, failed, Error, message).0, t.id, false, Retry(message, RetryDelay(failed.failureCount)));
  }

  lemma RecordSettles(w: World, t: Tunnel, seen: Observation)
    requires w.kern.env.StoreWorks() && Holds(w.db, t)
    ensures NoneOpen(RecordOne(w, t, seen).0.db.ops, t.id)
  {
    hide Complete, Mark, Fail, NoneOpen;
    MarkHolds(w, t, seen.state, seen.message);
    var w1 := Mark(w, t, seen.state, seen.message).0;
    FailSettles(w1, t, seen.message);
    CompleteSettles(w1, t.id, true, Text("desired state applied"));
  }

  lemma ApplySettles(w: World, t: Tunnel)
    requires w.kern.env.StoreWorks() && Holds(w.db, t)
    ensures NoneOpen(ApplyOne(w, t).0.db.ops, t.id)
  {
    hide Reconciled, Fail, RecordOne, NoneOpen;
    var (k, err) := Reconciled(w.kern, t);
    WorksLater(w.kern.env, k.env);
    if err.Some? {
      FailSettles(w.(kern := k), t, err.value);
    } else {
      var (k', seen) := Observed(k, t);
      WorksLater(w.kern.env, k'.env);
      FailSettles(w.(kern := k'), t, seen.message);
      RecordSettles(w.(kern := k'), t, seen);
    }
  }

  lemma RemoveSettles(w: World, t: Tunnel)
    requires w.kern.env.StoreWorks() && Holds(w.db, t)
    ensures NoneOpen(RemoveOne(w, t).0.db.ops, t.id)
  {
    hide Removed, Fail, Complete, NoneOpen;
    var (k, err) := Removed(w.kern, t);
    var w1 := w.(kern := k);
    WorksLater(w.kern.env, k.env);
    if err.Some? {
      FailSettles(w1, t, err.value);
    } else {
      WorksLater(k.env, k.env.Next());
      CompleteSettles(w1.Execute(w1.db.DeleteTunnel(t.id)).0, t.id, true, Text("tunnel removed"));
    }
  }

  /** A step that is due closes all its tunnel's operations; one that is not has none to close. */
  lemma StepSettles(w: World, t: Tunnel)
    requires w.kern.env.StoreWorks() && w.db.Valid() && t.id in w.db.tunnels && w.db.tunnels[t.id] == t
    requires Prompt(w.db)
    ensures var db' := ReconcileOne(w, t).0.db; NoneOpen(db'.ops, t.id) && Prompt(db')
  {
    hide RemoveOne, ApplyOne, Fail, Advances, OwnershipFrame;
    WorksLater(w.kern.env, w.kern.env);
    WorksLater(w.kern.env, w.kern.env.Next());
    var w1 := w.Execute(w.db.MarkOperationsRunning(t.id)).0;
    if !Due(t, w.Now()) {
    } else if !t.typ.Gre? {
      FailSettles(w, t, "provider is not installed");
    } else if t.desired.Deleted? {
      RemoveSettles(w1, t);
    } else {
      ApplySettles(w1, t);
    }
    ReconcileOneFrame(w, t);
    PromptElsewhere(w.db, ReconcileOne(w, t).0.db, t);
  }

  lemma PromptElsewhere(db: Db, db': Db, t: Tunnel)
    requires Prompt(db) && DbFrame(db, db', t) && NoneOpen(db'.ops, t.id)
    ensures Prompt(db')
  {
    forall id | id in db'.tunnels && db'.tunnels[id].retryAt.Some? ensures NoneOpen(db'.ops, id) {
      if id != t.id { RowsElsewhere(db, db', t.id, id); }
    }
    forall i | 0 <= i < |db'.ops| && db'.ops[i].Open() ensures db'.ops[i].resource in db'.tunnels {
      assert Advances(db.ops[i], db'.ops[i]);
      if db'.ops[i].resource != t.id { RowsElsewhere(db, db', t.id, db'.ops[i].resource); }
    }
  }

  lemma StaysClosed(ops: seq<Operation>, ops': seq<Operation>, other: TunnelId, id: TunnelId)
    requires OpsFrame(ops, ops', other) && NoneOpen(ops, id)
    ensures NoneOpen(ops', id)
  {
    forall i | 0 <= i < |ops'| ensures ops'[i].resource == id ==> !ops'[i].Open() {
      assert Advances(ops[i], ops'[i]);
    }
  }

  lemma {:induction false} PassSettles(w: World, rows: seq<Tunnel>, id: TunnelId)
    requires w.kern.env.StoreWorks() && w.db.Valid() && Current(w.db, rows) && Prompt(w.db)
    requires NoneOpen(w.db.ops, id) || exists t :: t in rows && t.id == id
    ensures Prompt(Pass(w, rows).db) && NoneOpen(Pass(w, rows).db.ops, id)
    decreases |rows|
  {
    hide ReconcileOne, Prompt, NoneOpen, OwnershipFrame, OpsFrame;
    if rows != [] {
      var w1 := ReconcileOne(w, rows[0]).0;
      ReconcileOneFrame(w, rows[0]);
      StepSettles(w, rows[0]);
      StaysCurrent(w, rows);
      assert w.kern.env.Before(w1.kern.env) by { OwnFrameTime(w.kern, w1.kern, rows[0]); }
      WorksLater(w.kern.env, w1.kern.env);
      if NoneOpen(w.db.ops, id) {
        StaysClosed(w.db.ops, w1.db.ops, rows[0].id, id);
      } else if rows[0].id != id {
        var t :| t in rows && t.id == id;
        assert t in rows[1..];
      }
      PassSettles(w1, rows[1..], id);
    }
  }

  lemma OwnFrameTime(k: Kern, k': Kern, t: Tunnel)
    requires OwnershipFrame(k, k', t)
    ensures k.env.Before(k'.env)
  {
  }

  /** One full pass leaves no operation queued or running. */
  lemma FullPassSettlesAll(w: World, rows: seq<Tunnel>)
    requires w.kern.env.StoreWorks() && w.db.Valid() && w.db.IsListing(rows) && Prompt(w.db)
    ensures AllClosed(Pass(w, rows).db.ops)
  {
    hide Pass, NoneOpen;
    PassKeepsIntent(w, rows);
    var db' := Pass(w, rows).db;
    forall i | 0 <= i < |db'.ops| ensures !db'.ops[i].Open() {
      var id := db'.ops[i].resource;
      if id in w.db.tunnels {
        assert w.db.tunnels[id] in rows && w.db.tunnels[id].id == id;
        PassSettles(w, rows, id);
        ClosedAt(db'.ops, id, i);
      } else {
        assert Advances(w.db.ops[i], db'.ops[i]);
      }
    }
  }

  lemma ClosedAt(ops: seq<Operation>, id: TunnelId, i: nat)
    requires NoneOpen(ops, id) && i < |ops| && ops[i].resource == id
    ensures !ops[i].Open()
  {
  }

  // ---------- over whole runs ----------

  lemma HandlerKeepsPrompt(db: Db, db': Db, id: TunnelId)
    requires Prompt(db) && db'.tunnels - {id} == db.tunnels - {id} && LogGrows(db.ops, db'.ops, id)
    requires db' == db || id !in db.tunnels || id in db'.tunnels
    requires db' == db || (id in db'.tunnels ==> db'.tunnels[id].retryAt.None?)
    requires db'.ops == db.ops || id in db'.tunnels
    ensures Prompt(db')
  {
    forall other | other in db'.tunnels && db'.tunnels[other].retryAt.Some? ensures NoneOpen(db'.ops, other) {
      if other != id { RowsElsewhere(db, db', id, other); }
      assert NoneOpen(db.ops, other);
      assert forall i | 0 <= i < |db.ops| :: db'.ops[i] == db'.ops[..|db.ops|][i];
    }
    forall i | 0 <= i < |db'.ops| && db'.ops[i].Open() ensures db'.ops[i].resource in db'.tunnels {
      if i < |db.ops| {
        assert db'.ops[i] == db'.ops[..|db.ops|][i] == db.ops[i];
        if db.ops[i].resource != id { RowsElsewhere(db, db', id, db.ops[i].resource); }
      }
    }
  }

  lemma RestartKeepsPrompt(w: World)
    requires Prompt(w.db)
    ensures Prompt(Restarted(w).db)
  {
    hide Restarted;
    RestartFrame(w);
    var db, db' := w.db, Restarted(w).db;
    forall id | id in db'.tunnels && db'.tunnels[id].retryAt.Some? ensures NoneOpen(db'.ops, id) {
      assert NoneOpen(db.ops, id);
    }
  }

  lemma StepKeepsPrompt(s: Sys, step: Step)
    requires Sound(s) && Possible(s, step) && s.world.kern.env.StoreWorks() && Prompt(s.world.db)
    ensures Prompt(Next(s, step).world.db)
  {
    hide TunnelCreated, TunnelUpdated, TunnelDeleted, StateSet, Imported, Pass, Restarted, LogGrows, Prompt;
    var w, w' := s.world, Next(s, step).world;
    WorksLater(w.kern.env, w.kern.env);
    WorksLater(w.kern.env, w.kern.env.Next());
    match step
    case Create(_, i) => HandlerKeepsPrompt(w.db, w'.db, i);
    case Update(i, _) => HandlerKeepsPrompt(w.db, w'.db, i);
    case Delete(i) => HandlerKeepsPrompt(w.db, w'.db, i);
    case SetState(i, _) => HandlerKeepsPrompt(w.db, w'.db, i);
    case Import(name, i, order) =>
      ImportFrame(w, name, i, order);
      HandlerKeepsPrompt(w.db, w'.db, i);
    case Sweep(rows) => SweepKeepsPrompt(w.(kern := w.kern.Tick()), rows);
    case Restart => RestartKeepsPrompt(w);
    case Outside(_, _, _) =>
  }

  lemma SweepKeepsPrompt(w: World, rows: seq<Tunnel>)
    requires w.kern.env.StoreWorks() && w.db.Valid() && Current(w.db, rows) && Prompt(w.db)
    ensures Prompt(Pass(w, rows).db)
  {
    if rows != [] {
      assert rows[0] in rows;
      PassSettles(w, rows, rows[0].id);
    }
  }

  /** In every run in which the store works, waiting rows never have anything open. */
  lemma {:induction false} RunStaysPrompt(ss: seq<Sys>, steps: seq<Step>, j: nat)
    requires Run(ss, steps) && j < |ss|
    requires ss[0].world.kern.env.StoreWorks() && Prompt(ss[0].world.db)
    ensures ss[j].world.kern.env.StoreWorks() && Prompt(ss[j].world.db) && Sound(ss[j])
  {
    hide Next, Run, Possible, Prompt;
    if j == 0 {
      RunStartsSound(ss, steps);
    } else {
      RunStaysPrompt(ss, steps, j - 1);
      RunStep(ss, steps, j - 1);
      StepTime(ss[j - 1], steps[j - 1]);
      WorksLater(ss[j - 1].world.kern.env, ss[j].world.kern.env);
      StepKeepsPrompt(ss[j - 1], steps[j - 1]);
    }
  }

  lemma RunStartsSound(ss: seq<Sys>, steps: seq<Step>)
    requires Run(ss, steps)
    ensures |ss| > 0 && Sound(ss[0])
  {
  }

  /** So at every point of every such run, one pass closes every operation there is. */
  lemma EveryPassSettlesAll(ss: seq<Sys>, steps: seq<Step>, j: nat)
    requires Run(ss, steps) && j + 1 < |ss| && steps[j].Sweep?
    requires ss[0].world.kern.env.StoreWorks() && Prompt(ss[0].world.db)
    ensures AllClosed(ss[j + 1].world.db.ops)
  {
    hide Run, Prompt, Pass;
    RunStaysPrompt(ss, steps, j);
    RunStep(ss, steps, j);
    var w := ss[j].world;
    WorksLater(w.kern.env, w.kern.env);
    WorksLater(w.kern.env, w.kern.env.Next());
    FullPassSettlesAll(w.(kern := w.kern.Tick()), steps[j].rows);
  }
}
