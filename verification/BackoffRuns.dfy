/** The backoff of one tunnel in whole runs of handlers, passes and outside changes. */
module BackoffRuns {
  import opened Domain
  import opened Store
  import opened Controller
  import opened Frames
  import opened Api
  import opened Runs
  import opened PassRecovery
  import Backoff

  /** No edit of this tunnel and no restart; other tunnels and the host may see anything. */
  predicate Spares(step: Step, id: TunnelId) {
    match step
    case Create(_, i) => i != id
    case Update(i, _) => i != id
    case Delete(i) => i != id
    case SetState(i, _) => i != id
    case Import(_, i, _) => i != id
    case Restart => false
    case _ => true
  }

  /** From i to j the tunnel is stored and spared. */
  ghost predicate Spared(ss: seq<Sys>, steps: seq<Step>, id: TunnelId, i: nat, j: nat) {
    && i <= j < |ss| && j <= |steps|
    && (forall x | i <= x <= j :: id in ss[x].world.db.tunnels)
    && (forall x | i <= x < j :: Spares(steps[x], id))
  }

  lemma RowSpared(s: Sys, step: Step, id: TunnelId)
    requires Sound(s) && Possible(s, step) && Spares(step, id) && !step.Sweep? && id in s.world.db.tunnels
    ensures id in Next(s, step).world.db.tunnels && Next(s, step).world.db.tunnels[id] == s.world.db.tunnels[id]
  {
    hide TunnelCreated, TunnelUpdated, TunnelDeleted, StateSet, Imported, LogGrows;
    var w, w' := s.world, Next(s, step).world;
    match step
    case Create(_, i) => RowsElsewhere(w.db, w'.db, i, id);
    case Update(i, _) => RowsElsewhere(w.db, w'.db, i, id);
    case Delete(i) => RowsElsewhere(w.db, w'.db, i, id);
    case SetState(i, _) => RowsElsewhere(w.db, w'.db, i, id);
    case Import(name, i, order) =>
      ImportFrame(w, name, i, order);
      RowsElsewhere(w.db, w'.db, i, id);
    case Outside(_, _, _) =>
  }

  /** In a pass the row is worked on once, as it stands, and then left alone. */
  lemma RowSwept(w: World, rows: seq<Tunnel>, id: TunnelId) returns (u: World)
    requires w.db.Valid() && w.db.IsListing(rows)
    requires id in w.db.tunnels && id in Pass(w, rows).db.tunnels
    ensures id in u.db.tunnels && u.db.tunnels[id] == w.db.tunnels[id] && w.Now() <= u.Now()
    ensures var w' := ReconcileOne(u, u.db.tunnels[id]).0;
      && id in w'.db.tunnels && Pass(w, rows).db.tunnels[id] == w'.db.tunnels[id]
      && w'.Now() <= Pass(w, rows).Now()
  {
    hide ReconcileOne, Pass, OwnRulesAlike, OwnOpsAlike;
    var t := w.db.tunnels[id];
    var pre, post := TurnOf(w, rows, t);
    u := Pass(w, pre);
    PassAlike(w, pre, t);
    PassAlike(ReconcileOne(u, t).0, post, t);
  }

  /** The next world in the place of the last, the tunnel's row not having moved. */
  lemma Waited(ws: seq<World>, id: TunnelId, w: World)
    requires Backoff.Run(ws, id) && ws != []
    requires var last := ws[|ws| - 1];
      id in w.db.tunnels && id in last.db.tunnels && w.db.tunnels[id] == last.db.tunnels[id] && last.Now() <= w.Now()
    ensures Backoff.Run(ws[..|ws| - 1] + [w], id)
  {
    hide Backoff.Linked;
    var last := |ws| - 1;
    var ws' := ws[..last] + [w];
    forall i | 0 <= i < |ws'| ensures Backoff.Stored(ws'[i], id) {
      Backoff.StoredAt(ws, id, i);
      assert ws'[i] == if i < last then ws[i] else w;
    }
    forall i | 0 <= i < |ws'| - 1 ensures Backoff.Linked(ws'[i], ws'[i + 1], id) {
      Backoff.LinkAt(ws, id, i);
      assert ws'[i] == ws[i];
      if i + 1 < last {
        assert ws'[i + 1] == ws[i + 1];
      } else {
        assert ws'[i + 1] == w;
        Backoff.LinkedLater(ws[i], ws[i + 1], w, id);
      }
    }
  }

  lemma Worked(ws: seq<World>, id: TunnelId, w: World)
    requires Backoff.Run(ws, id) && ws != [] && Backoff.Linked(ws[|ws| - 1], w, id)
    ensures Backoff.Run(ws + [w], id)
  {
    hide ReconcileOne;
    var last := |ws| - 1;
    var ws' := ws + [w];
    forall i | 0 <= i < |ws'| ensures Backoff.Stored(ws'[i], id) {
      if i <= last { Backoff.StoredAt(ws, id, i); }
      assert ws'[i] == if i <= last then ws[i] else w;
    }
    forall i | 0 <= i < |ws'| - 1 ensures Backoff.Linked(ws'[i], ws'[i + 1], id) {
      assert ws'[i] == ws[i];
      if i < last {
        Backoff.LinkAt(ws, id, i);
        assert ws'[i + 1] == ws[i + 1];
      } else {
        assert ws'[i + 1] == w;
      }
    }
  }

  /** What the tunnel's row sees of a run is a run of its own steps. */
  lemma {:induction false} Trace(
      ss: seq<Sys>, steps: seq<Step>, id: TunnelId, i: nat, j: nat) returns (ws: seq<World>)
    requires Run(ss, steps) && Spared(ss, steps, id, i, j)
    ensures Backoff.Run(ws, id) && ws != [] && ws[|ws| - 1] == ss[j].world
    ensures ws[0].db.tunnels[id] == ss[i].world.db.tunnels[id] && ss[i].world.Now() <= ws[0].Now()
    decreases j
  {
    hide Next, Run, Possible, Backoff.Run, Pass, ReconcileOne, Db.Valid, Db.IsListing;
    if i == j {
      RunIsSound(ss, steps, j);
      ws := [ss[j].world];
      Alone(ss[j], id);
    } else {
      ws := Trace(ss, steps, id, i, j - 1);
      RunStep(ss, steps, j - 1);
      ws := TraceStep(ss[j - 1], steps[j - 1], id, ws);
    }
  }

  lemma RunIsSound(ss: seq<Sys>, steps: seq<Step>, j: nat)
    requires Run(ss, steps) && j < |ss|
    ensures Sound(ss[j])
  {
    hide Next, Possible;
    if j > 0 { RunStep(ss, steps, j - 1); }
  }

  lemma Alone(s: Sys, id: TunnelId)
    requires Sound(s) && id in s.world.db.tunnels
    ensures Backoff.Run([s.world], id)
  {
  }

  lemma TraceStep(s: Sys, step: Step, id: TunnelId, ws: seq<World>) returns (ws': seq<World>)
    requires Sound(s) && Possible(s, step) && Spares(step, id)
    requires id in s.world.db.tunnels && id in Next(s, step).world.db.tunnels
    requires Backoff.Run(ws, id) && ws != [] && ws[|ws| - 1] == s.world
    ensures Backoff.Run(ws', id) && ws' != [] && ws'[|ws'| - 1] == Next(s, step).world
    ensures ws'[0].db.tunnels[id] == ws[0].db.tunnels[id] && ws[0].Now() <= ws'[0].Now()
  {
    hide Next, Backoff.Run, ReconcileOne;
    var w' := Next(s, step).world;
    StepTime(s, step);
    StepSound(s, step);
    if step.Sweep? { SweptWorld(s, step); }
    if step.Sweep? && !s.world.kern.env.Breaking() {
      var u := RowSwept(s.world.(kern := s.world.kern.Tick()), step.rows, id);
      Backoff.StoredAt(ws, id, |ws| - 1);
      Waited(ws, id, u);
      StepIsLink(u, w', id);
      Worked(ws[..|ws| - 1] + [u], id, w');
      ws' := ws[..|ws| - 1] + [u] + [w'];
    } else {
      if !step.Sweep? { RowSpared(s, step, id); }
      Backoff.StoredAt(ws, id, |ws| - 1);
      Waited(ws, id, w');
      ws' := ws[..|ws| - 1] + [w'];
    }
  }

  lemma StepIsLink(u: World, w: World, id: TunnelId)
    requires id in u.db.tunnels && u.db.tunnels[id].id == id && id in w.db.tunnels && w.db.tunnels[id].id == id
    requires var w' := ReconcileOne(u, u.db.tunnels[id]).0;
      id in w'.db.tunnels && w.db.tunnels[id] == w'.db.tunnels[id] && w'.Now() <= w.Now()
    ensures Backoff.Linked(u, w, id)
  {
    hide ReconcileOne;
  }

  lemma SweptWorld(s: Sys, step: Step)
    requires Sound(s) && Possible(s, step) && step.Sweep?
    ensures Next(s, step).world == Pass(s.world.(kern := s.world.kern.Tick()), step.rows)
    ensures step.rows == [] ==> Next(s, step).world.db == s.world.db
  {
  }

  lemma {:induction false} NeverNegative(ws: seq<World>, id: TunnelId, j: nat)
    requires Backoff.Run(ws, id) && j < |ws| && ws[0].db.tunnels[id].failureCount == 0
    ensures id in ws[j].db.tunnels && ws[j].db.tunnels[id].failureCount >= 0 && ws[0].Now() <= ws[j].Now()
    decreases j
  {
    hide ReconcileOne;
    if j > 0 {
      NeverNegative(ws, id, j - 1);
      Backoff.Moved(ws, id, j - 1);
    }
  }

  /** The stretch of failures that a positive count is the end of. */
  lemma {:induction false} StretchBefore(ws: seq<World>, id: TunnelId, j: nat) returns (first: nat)
    requires Backoff.Run(ws, id) && j < |ws| && ws[0].db.tunnels[id].failureCount == 0
    requires ws[j].db.tunnels[id].failureCount > 0
    ensures Backoff.Stretch(ws, id, first, j)
    decreases j
  {
    hide Backoff.Run;
    NeverNegative(ws, id, j - 1);
    if ws[j - 1].db.tunnels[id].failureCount == 0 {
      first := j - 1;
    } else {
      first := StretchBefore(ws, id, j - 1);
    }
  }

  /**
    In every run, between a moment at which a tunnel has no failures and one at which it has n, with
    no edit of it and no restart in between, at least the first n - 1 delays have passed. Passes may
    come at any pace, in any order, over any other tunnels, on any host.
  */
  lemma RunTakesTime(ss: seq<Sys>, steps: seq<Step>, id: TunnelId, i: nat, j: nat, n: nat)
    requires Run(ss, steps) && Spared(ss, steps, id, i, j)
    requires ss[i].world.db.tunnels[id].failureCount == 0
    requires n >= 1 && ss[j].world.db.tunnels[id].failureCount == n
    ensures n <= 7 ==> ss[j].world.Now() >= ss[i].world.Now() + 5 * SECOND * (Pow2(n - 1) - 1)
    ensures n >= 7 ==> ss[j].world.Now() >= ss[i].world.Now() + (315 + 300 * (n - 7)) * SECOND
  {
    hide Run, Backoff.Run, Backoff.DelaySum, Spares;
    var ws := Trace(ss, steps, id, i, j);
    var last := |ws| - 1;
    var first := StretchBefore(ws, id, last);
    NeverNegative(ws, id, first);
    Backoff.ConsecutiveFailures(ws, id, first, last);
    Backoff.BackoffTakesTime(ws, id, first, last, n);
  }
}
