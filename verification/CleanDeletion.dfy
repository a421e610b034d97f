/**
  Clean deletion. In runs that do not rename tunnels, and in which nobody else hands the markers of
  stored tunnels around, every marked link sits under its tunnel's name; so when a delete is done
  no link anywhere carries the marker.
*/
module CleanDeletion {
  import opened Domain
  import opened Provider
  import opened Store
  import opened Controller
  import opened Frames
  import opened Api
  import opened Runs
  import opened PassRecovery

  /** Every link that carries a stored tunnel's marker has that tunnel's name. */
  ghost predicate MarkersHome(w: World) {
    forall n, id | n in w.kern.links && id in w.db.tunnels && w.kern.links[n].alias == Marker(id) ::
      w.db.tunnels[id].name == n
  }

  /** So no two tunnels ever manage one link, nor one tunnel two. */
  lemma OneLinkOneTunnel(w: World, n: Name, m: Name, id: TunnelId, other: TunnelId)
    requires MarkersHome(w) && w.db.Valid()
    requires n in w.kern.links && m in w.kern.links && id in w.db.tunnels && other in w.db.tunnels
    requires w.kern.links[n].alias == Marker(id) && w.kern.links[m].alias == Marker(other)
    ensures n == m <==> id == other
  {
    if n == m { MarkerInjective(id, other); }
  }

  lemma MarkerNotEmpty(id: TunnelId)
    ensures Marker(id) != ""
  {
    assert |Marker(id)| >= |PREFIX|;
  }

  /** One step: home stays home, and a row that goes leaves no marked link behind. */
  lemma StepKeepsHome(w: World, t: Tunnel)
    requires w.db.Valid() && t.id in w.db.tunnels && w.db.tunnels[t.id] == t && MarkersHome(w)
    ensures var w' := ReconcileOne(w, t).0;
      MarkersHome(w') && (t.id !in w'.db.tunnels ==> Unmarked(w'.kern, t.id))
  {
    hide ReconcileOne, Foreign, Advances, OpsFrame, Db.Valid, Marker;
    var w' := ReconcileOne(w, t).0;
    ReconcileOneFrame(w, t);
    if t.id !in w'.db.tunnels { OnlyDeletedRowsGo(w, t); }
    forall n, id | n in w'.kern.links && (id in w'.db.tunnels || id == t.id) && w'.kern.links[n].alias == Marker(id)
      ensures (id in w'.db.tunnels ==> w'.db.tunnels[id].name == n) && (t.id !in w'.db.tunnels ==> id != t.id)
    {
      MarkerNotEmpty(id);
      if id != t.id { RowsElsewhere(w.db, w'.db, t.id, id); }
      if n != t.name {
        Elsewhere(w.kern.links, w'.kern.links, t.name, n);
      } else if w'.kern.links[n].alias == Marker(t.id) {
        MarkerInjective(id, t.id);
      }
    }
  }

  /** A step for another tunnel marks nothing for this one. */
  lemma StepKeepsUnmarked(w: World, t: Tunnel, id: TunnelId)
    requires Unmarked(w.kern, id) && t.id != id
    ensures Unmarked(ReconcileOne(w, t).0.kern, id)
  {
    hide ReconcileOne, Foreign, DbFrame, Marker;
    var k, k' := w.kern, ReconcileOne(w, t).0.kern;
    ReconcileOneFrame(w, t);
    forall n | n in k'.links ensures k'.links[n].alias != Marker(id) {
      MarkerNotEmpty(id);
      if n != t.name { Elsewhere(k.links, k'.links, t.name, n); }
      if Marker(t.id) == Marker(id) { MarkerInjective(t.id, id); }
    }
  }

  lemma {:induction false} PassKeepsUnmarked(w: World, rows: seq<Tunnel>, id: TunnelId)
    requires Unmarked(w.kern, id) && forall t | t in rows :: t.id != id
    ensures Unmarked(Pass(w, rows).kern, id)
    decreases |rows|
  {
    hide ReconcileOne, Unmarked;
    if rows != [] {
      assert rows[0] in rows;
      StepKeepsUnmarked(w, rows[0], id);
      PassKeepsUnmarked(ReconcileOne(w, rows[0]).0, rows[1..], id);
    }
  }

  lemma {:induction false} PassKeepsHome(w: World, rows: seq<Tunnel>, id: TunnelId)
    requires w.db.Valid() && Current(w.db, rows) && MarkersHome(w)
    ensures MarkersHome(Pass(w, rows))
    ensures id in w.db.tunnels && id !in Pass(w, rows).db.tunnels ==> Unmarked(Pass(w, rows).kern, id)
    decreases |rows|
  {
    hide ReconcileOne, MarkersHome, Unmarked, OwnershipFrame, OpsFrame;
    if rows != [] {
      var w1 := ReconcileOne(w, rows[0]).0;
      StepKeepsHome(w, rows[0]);
      ReconcileOneFrame(w, rows[0]);
      StaysCurrent(w, rows);
      PassKeepsHome(w1, rows[1..], id);
      if id in w.db.tunnels && id !in w1.db.tunnels {
        if rows[0].id != id { RowsElsewhere(w.db, w1.db, rows[0].id, id); }
        PassKeepsUnmarked(w1, rows[1..], id);
      }
    }
  }

  /** No rename; and outside changes move no marker of a stored tunnel to another name. */
  ghost predicate Polite(s: Sys, step: Step) {
    match step
    case Update(id, input) => id in s.world.db.tunnels ==> input.name == s.world.db.tunnels[id].name
    case Outside(links, _, _) =>
      forall n, id | n in links && id in s.world.db.tunnels && links[n].alias == Marker(id) ::
        s.world.db.tunnels[id].name == n
    case _ => true
  }

  /** A handler that leaves the host alone and keeps its row's name, or makes a row nobody is marked for. */
  lemma HandlerKeepsHome(w: World, w': World, id: TunnelId)
    requires MarkersHome(w) && w'.kern.links == w.kern.links && w'.db.tunnels - {id} == w.db.tunnels - {id}
    requires id in w'.db.tunnels ==>
      if id in w.db.tunnels then w'.db.tunnels[id].name == w.db.tunnels[id].name else Unmarked(w.kern, id)
    ensures MarkersHome(w')
  {
    forall n, other | n in w'.kern.links && other in w'.db.tunnels && w'.kern.links[n].alias == Marker(other)
      ensures w'.db.tunnels[other].name == n
    {
      if other != id { RowsElsewhere(w.db, w'.db, id, other); }
    }
  }

  lemma ImportKeepsHome(w: World, name: Name, id: TunnelId, order: seq<Name>)
    requires forall n | n in order :: n in w.kern.links
    requires MarkersHome(w) && id !in w.db.tunnels && Unmarked(w.kern, id)
    ensures MarkersHome(Imported(w, name, id, order).0)
  {
    hide Imported, LogGrows, Db.Valid, Marker;
    var w' := Imported(w, name, id, order).0;
    ImportFrame(w, name, id, order);
    forall n, other | n in w'.kern.links && other in w'.db.tunnels && w'.kern.links[n].alias == Marker(other)
      ensures w'.db.tunnels[other].name == n
    {
      if other != id { RowsElsewhere(w.db, w'.db, id, other); }
      if n != name { Elsewhere(w.kern.links, w'.kern.links, name, n); }
      if Marker(other) == Marker(id) { MarkerInjective(other, id); }
    }
  }

  lemma RestartKeepsHome(w: World)
    requires MarkersHome(w)
    ensures MarkersHome(Restarted(w))
  {
    hide Restarted, Db.Valid;
    RestartFrame(w);
  }

  lemma SysKeepsHome(s: Sys, step: Step)
    requires Sound(s) && Possible(s, step) && Polite(s, step) && MarkersHome(s.world)
    ensures MarkersHome(Next(s, step).world)
  {
    hide TunnelCreated, TunnelUpdated, TunnelDeleted, StateSet, Imported, Pass;
    hide Restarted, LogGrows, MarkersHome, Unmarked;
    var w, w' := s.world, Next(s, step).world;
    match step
    case Create(_, i) => HandlerKeepsHome(w, w', i);
    case Update(i, _) => HandlerKeepsHome(w, w', i);
    case Delete(i) => HandlerKeepsHome(w, w', i);
    case SetState(i, _) => HandlerKeepsHome(w, w', i);
    case Import(name, i, order) => ImportKeepsHome(w, name, i, order);
    case Sweep(rows) =>
      var w1 := w.(kern := w.kern.Tick());
      HandlerKeepsHome(w, w1, "");
      PassKeepsHome(w1, rows, "");
    case Restart => RestartKeepsHome(w);
    case Outside(links, _, _) => OutsideKeepsHome(s, step);
  }

  lemma OutsideKeepsHome(s: Sys, step: Step)
    requires step.Outside? && Possible(s, step) && Sound(s) && Polite(s, step)
    ensures MarkersHome(Next(s, step).world)
  {
  }

  lemma {:induction false} RunKeepsHome(ss: seq<Sys>, steps: seq<Step>, j: nat)
    requires Run(ss, steps) && j < |ss| && MarkersHome(ss[0].world)
    requires forall i | 0 <= i < |steps| :: Polite(ss[i], steps[i])
    ensures MarkersHome(ss[j].world)
    decreases j
  {
    hide Next, Run, Possible, MarkersHome, Polite;
    if j > 0 {
      RunKeepsHome(ss, steps, j - 1);
      RunStep(ss, steps, j - 1);
      SysKeepsHome(ss[j - 1], steps[j - 1]);
    }
  }

  /** When a pass has finished a delete, no link on the host carries that tunnel's marker. */
  lemma FinishedDeleteLeavesNothing(ss: seq<Sys>, steps: seq<Step>, j: nat, id: TunnelId)
    requires Run(ss, steps) && j + 1 < |ss| && MarkersHome(ss[0].world)
    requires forall i | 0 <= i < |steps| :: Polite(ss[i], steps[i])
    requires steps[j].Sweep?
    requires id in ss[j].world.db.tunnels && id !in ss[j + 1].world.db.tunnels
    ensures Unmarked(ss[j + 1].world.kern, id)
  {
    hide Run, MarkersHome, Polite, Unmarked, Pass;
    RunKeepsHome(ss, steps, j);
    RunStep(ss, steps, j);
    var w := ss[j].world;
    var w1 := w.(kern := w.kern.Tick());
    HandlerKeepsHome(w, w1, "");
    PassKeepsHome(w1, steps[j].rows, id);
  }

  /** What the removal of a row was worth: the world at the tunnel's turn in the pass that dropped it. */
  ghost predicate RemovedAt(u: World, t: Tunnel) {
    && t.id in u.db.tunnels && u.db.tunnels[t.id] == t && t.desired.Deleted?
    && Removed(u.kern.Tick(), t).1.None?
  }

  /**
    In every run a row that goes goes in a pass, it was to go, its removal returned without error
    at its turn in that same pass, and at the end of the pass no link has its name.
  */
  lemma RowsGoWhenRemoved(s: Sys, step: Step, id: TunnelId) returns (u: World)
    requires Sound(s) && Possible(s, step)
    requires id in s.world.db.tunnels && id !in Next(s, step).world.db.tunnels
    ensures step.Sweep? && RemovedAt(u, s.world.db.tunnels[id])
    ensures s.world.kern.env.Before(u.kern.env) && u.kern.env.Before(Next(s, step).world.kern.env)
    ensures s.world.db.tunnels[id].name !in Next(s, step).world.kern.links
  {
    hide Next, Pass, ReconcileOne, Removed, OwnOpsAlike, OwnRulesAlike, Others, DbFrame, Foreign;
    OnlyDeletedRowsLeave(s, step, id);
    SweepIsPass(s, step);
    var w := s.world.(kern := s.world.kern.Tick());
    var t := s.world.db.tunnels[id];
    var pre, post := TurnOf(w, step.rows, t);
    u := Pass(w, pre);
    PassAlike(w, pre, t);
    PassAlike(ReconcileOne(u, t).0, post, t);
    StepAround(u, t);
  }

  lemma StepAround(u: World, t: Tunnel)
    ensures u.kern.env.Before(ReconcileOne(u, t).0.kern.env)
    ensures t.id in u.db.tunnels && t.id !in ReconcileOne(u, t).0.db.tunnels ==>
      && t.desired.Deleted? && Removed(u.kern.Tick(), t).1.None?
      && t.name !in ReconcileOne(u, t).0.kern.links
  {
    hide ReconcileOne, Removed, DbFrame, Foreign;
    ReconcileOneFrame(u, t);
    if t.id in u.db.tunnels && t.id !in ReconcileOne(u, t).0.db.tunnels { OnlyDeletedRowsGo(u, t); }
  }

  lemma SweepIsPass(s: Sys, step: Step)
    requires Sound(s) && Possible(s, step) && step.Sweep?
    ensures Next(s, step).world == Pass(s.world.(kern := s.world.kern.Tick()), step.rows)
    ensures step.rows == [] ==> Next(s, step).world.db == s.world.db
    ensures step.rows != [] ==> s.world.db.IsListing(step.rows)
  {
  }
}
