/**
  Whole runs of handlers, passes and restarts, each one step; between them the outside world may
  change the host. What every such run keeps.
*/
module Runs {
  import opened Domain
  import opened Kernel
  import opened Provider
  import opened Store
  import opened Controller
  import opened Frames
  import opened Api
  import opened Convergence

  /** The world and the ids handed out so far. */
  datatype Sys = Sys(world: World, issued: set<TunnelId>)

  datatype Step =
    | Create(input: TunnelInput, id: TunnelId)
    | Update(id: TunnelId, input: TunnelInput)
    | Delete(id: TunnelId)
    | SetState(id: TunnelId, on: bool)
    | Import(name: Name, id: TunnelId, order: seq<Name>)
    | Sweep(rows: seq<Tunnel>)
    | Restart
    | Outside(links: map<Name, Link>, rules: seq<Rule>, egress: Option<Name>)

  /** No link carries the id's marker. */
  ghost predicate Unmarked(k: Kern, id: TunnelId) {
    forall n | n in k.links :: k.links[n].alias != Marker(id)
  }

  /** A pass lists the table first; new ids are new everywhere. */
  ghost predicate Possible(s: Sys, step: Step) {
    match step
    case Create(_, id) => id !in s.issued && Unmarked(s.world.kern, id)
    case Import(_, id, order) =>
      id !in s.issued && Unmarked(s.world.kern, id) && forall n | n in order :: n in s.world.kern.links
    case Sweep(rows) => if s.world.kern.env.Breaking() then rows == [] else s.world.db.IsListing(rows)
    case _ => true
  }

  ghost predicate Sound(s: Sys) {
    s.world.db.Valid() && s.world.db.tunnels.Keys <= s.issued
  }

  function Next(s: Sys, step: Step): Sys
    requires Possible(s, step) && Sound(s)
  {
    var w := s.world;
    match step
    case Create(input, id) => Sys(TunnelCreated(w, input, id).0, s.issued + {id})
    case Update(id, input) => s.(world := TunnelUpdated(w, id, input).0)
    case Delete(id) => s.(world := TunnelDeleted(w, id).0)
    case SetState(id, on) => s.(world := StateSet(w, id, if on then Enabled else Disabled).0)
    case Import(name, id, order) => Sys(Imported(w, name, id, order).0, s.issued + {id})
    case Sweep(rows) => s.(world := Pass(w.(kern := w.kern.Tick()), rows))
    case Restart => s.(world := Restarted(w))
    case Outside(links, rules, egress) =>
      s.(world := w.(kern := w.kern.(links := links, rules := rules, egress := egress)))
  }

  ghost predicate Run(ss: seq<Sys>, steps: seq<Step>) {
    && |ss| == |steps| + 1 && Sound(ss[0])
    && forall i | 0 <= i < |steps| :: Possible(ss[i], steps[i]) && Sound(ss[i]) && ss[i + 1] == Next(ss[i], steps[i])
  }

  // ---------- import and restart, framed ----------

  /** The import's effect on the table: its own row, in one of two ways, and the log. */
  lemma ImportFrame(w: World, name: Name, id: TunnelId, order: seq<Name>)
    requires forall n | n in order :: n in w.kern.links
    ensures
      var w' := Imported(w, name, id, order).0;
      && w'.db.tunnels - {id} == w.db.tunnels - {id}
      && (w.db.Valid() ==> w'.db.Valid())
      && w.kern.env.Before(w'.kern.env)
      && LogGrows(w.db.ops, w'.db.ops, id)
      && (w'.db.ops == w.db.ops || id in w'.db.tunnels)
      && (id !in w.db.tunnels && id in w'.db.tunnels ==>
            w'.db.tunnels[id].name == name && w'.db.tunnels[id].retryAt.None?)
      && w'.kern.links - {name} == w.kern.links - {name}
      && (name in w'.kern.links ==>
            name in w.kern.links && w'.kern.links[name].alias in [w.kern.links[name].alias, Marker(id)])
  {
    hide DiscoveredFrom, Describes, AdoptedRow;
    var k1 := w.kern.LinkList().0;
    var (k2, items) := DiscoveredFrom(k1, order);
    var found := FindItem(items, name);
    if found.Some? && found.value.address.Some? {
      var w3 := w.(kern := k2.Tick());
      AdoptionFrame(w3, ImportedRow(found.value, found.value.address.value, id, w3.Now()));
    }
  }

  lemma AdoptionFrame(w: World, t: Tunnel)
    requires t.retryAt.None?
    ensures
      var w' := AdoptedRow(w, t).0;
      && w'.db.tunnels - {t.id} == w.db.tunnels - {t.id}
      && (w.db.Valid() ==> w'.db.Valid())
      && w.kern.env.Before(w'.kern.env)
      && LogGrows(w.db.ops, w'.db.ops, t.id)
      && (w'.db.ops == w.db.ops || t.id in w'.db.tunnels)
      && (t.id !in w.db.tunnels && t.id in w'.db.tunnels ==> w'.db.tunnels[t.id] == t)
      && w'.kern.links - {t.name} == w.kern.links - {t.name}
      && (t.name in w'.kern.links ==>
        t.name in w.kern.links && w'.kern.links[t.name].alias in [w.kern.links[t.name].alias, Marker(t.id)])
  {
    hide Adopted;
    var (w1, o) := w.Execute(w.db.CreateTunnel(t));
    if o.Done? {
      var k := Adopted(w1.kern, t.name, Marker(t.id)).0;
      assert k.links - {t.name} == w1.kern.links - {t.name};
      assert w1.db.tunnels - {t.id} - {t.id} == w.db.tunnels - {t.id};
    }
  }

  lemma RestartFrame(w: World)
    ensures var w' := Restarted(w);
      && w'.kern == w.kern.(env := w'.kern.env) && w.kern.env.Before(w'.kern.env)
      && w'.db.tunnels.Keys == w.db.tunnels.Keys
      && (w.db.Valid() ==> w'.db.Valid())
      && (forall id | id in w.db.tunnels :: w'.db.tunnels[id] in [w.db.tunnels[id], w.db.tunnels[id].(retryAt := None)])
      && |w'.db.ops| == |w.db.ops|
      && (forall i | 0 <= i < |w.db.ops| :: w'.db.ops[i] in [w.db.ops[i], RequeuedOp(w.db.ops[i])])
  {
  }

  lemma SweepFrame(w: World, rows: seq<Tunnel>)
    requires Current(w.db, rows)
    ensures Pass(w, rows).db.tunnels.Keys <= w.db.tunnels.Keys
    ensures w.db.Valid() ==> Pass(w, rows).db.Valid()
    ensures forall id | id in Pass(w, rows).db.tunnels ::
      Pass(w, rows).db.tunnels[id].Intent() == w.db.tunnels[id].Intent()
  {
    hide Pass;
    PassKeepsIntent(w, rows);
  }

  /** Rows sit under their ids, names stay distinct, and no row has an id that was not handed out. */
  lemma StepSound(s: Sys, step: Step)
    requires Sound(s) && Possible(s, step)
    ensures Sound(Next(s, step)) && s.issued <= Next(s, step).issued
  {
    hide TunnelCreated, TunnelUpdated, TunnelDeleted, StateSet, Imported, Pass, Restarted, LogGrows;
    var w := s.world;
    match step
    case Create(input, id) => KeysElsewhere(w.db, TunnelCreated(w, input, id).0.db, id);
    case Update(id, input) =>
      KeysElsewhere(w.db, TunnelUpdated(w, id, input).0.db, id);
    case Delete(id) => KeysElsewhere(w.db, TunnelDeleted(w, id).0.db, id);
    case SetState(id, on) => KeysElsewhere(w.db, StateSet(w, id, if on then Enabled else Disabled).0.db, id);
    case Import(name, id, order) =>
      ImportFrame(w, name, id, order);
      KeysElsewhere(w.db, Imported(w, name, id, order).0.db, id);
    case Sweep(rows) => SweepFrame(w.(kern := w.kern.Tick()), rows);
    case Restart => RestartFrame(w);
    case Outside(_, _, _) =>
  }

  lemma KeysElsewhere(db: Db, db': Db, id: TunnelId)
    requires db'.tunnels - {id} == db.tunnels - {id}
    ensures db'.tunnels.Keys <= db.tunnels.Keys + {id}
  {
    forall other | other in db'.tunnels && other != id ensures other in db.tunnels {
      RowsElsewhere(db, db', id, other);
    }
  }

  lemma {:induction false} PassTime(w: World, rows: seq<Tunnel>)
    ensures w.kern.env.Before(Pass(w, rows).kern.env)
    decreases |rows|
  {
    hide ReconcileOne, DbFrame, Foreign;
    if rows != [] {
      ReconcileOneFrame(w, rows[0]);
      PassTime(ReconcileOne(w, rows[0]).0, rows[1..]);
    }
  }

  lemma StepTime(s: Sys, step: Step)
    requires Sound(s) && Possible(s, step)
    ensures s.world.kern.env.Before(Next(s, step).world.kern.env)
  {
    hide TunnelCreated, TunnelUpdated, TunnelDeleted, StateSet, Imported, Pass, Restarted, LogGrows;
    match step
    case Import(name, i, order) => ImportFrame(s.world, name, i, order);
    case Sweep(rows) => PassTime(s.world.(kern := s.world.kern.Tick()), rows);
    case Restart => RestartFrame(s.world);
    case _ =>
  }

  // ---------- deletion ----------

  ghost predicate ToGo(s: Sys, id: TunnelId) {
    id in s.world.db.tunnels && s.world.db.tunnels[id].desired.Deleted?
  }

  /** Deletion is absorbing, and a row that went never comes back. */
  lemma DeletionStep(s: Sys, step: Step, id: TunnelId)
    requires Sound(s) && Possible(s, step)
    ensures var s' := Next(s, step);
      && (ToGo(s, id) ==> ToGo(s', id) || id !in s'.world.db.tunnels)
      && (id in s.issued && id !in s.world.db.tunnels ==> id !in s'.world.db.tunnels)
  {
    hide TunnelCreated, TunnelUpdated, TunnelDeleted, StateSet, Imported, Pass, Restarted, LogGrows;
    var w, w' := s.world, Next(s, step).world;
    match step
    case Create(input, i) => if i != id { RowsElsewhere(w.db, w'.db, i, id); }
    case Update(i, input) => if i != id { RowsElsewhere(w.db, w'.db, i, id); }
    case Delete(i) => if i != id { RowsElsewhere(w.db, w'.db, i, id); }
    case SetState(i, on) => if i != id { RowsElsewhere(w.db, w'.db, i, id); }
    case Import(name, i, order) =>
      ImportFrame(w, name, i, order);
      if i != id { RowsElsewhere(w.db, w'.db, i, id); }
    case Sweep(rows) => SweepFrame(w.(kern := w.kern.Tick()), rows);
    case Restart => RestartFrame(w);
    case Outside(_, _, _) =>
  }

  /** A row goes only in a pass, and only if it was to go. */
  lemma OnlyDeletedRowsLeave(s: Sys, step: Step, id: TunnelId)
    requires Sound(s) && Possible(s, step)
    requires id in s.world.db.tunnels && id !in Next(s, step).world.db.tunnels
    ensures step.Sweep? && ToGo(s, id)
  {
    hide TunnelCreated, TunnelUpdated, TunnelDeleted, StateSet, Imported, Pass, Restarted, LogGrows;
    var w, w' := s.world, Next(s, step).world;
    match step
    case Create(_, i) => RowsElsewhere(w.db, w'.db, i, id);
    case Update(i, _) => if i != id { RowsElsewhere(w.db, w'.db, i, id); }
    case Delete(i) => if i != id { RowsElsewhere(w.db, w'.db, i, id); }
    case SetState(i, _) => if i != id { RowsElsewhere(w.db, w'.db, i, id); }
    case Import(name, i, order) =>
      ImportFrame(w, name, i, order);
      RowsElsewhere(w.db, w'.db, i, id);
    case Sweep(rows) =>
      if !ToGo(s, id) { PassKeepsRow(w.(kern := w.kern.Tick()), rows, w.db.tunnels[id]); }
    case Restart => RestartFrame(w);
    case Outside(_, _, _) =>
  }

  ghost predicate Gone(s: Sys, id: TunnelId) {
    id in s.issued && id !in s.world.db.tunnels
  }

  /** Over every run: once to go, to go until gone; once gone, gone for good. */
  lemma {:induction false} DeletionIsForGood(ss: seq<Sys>, steps: seq<Step>, id: TunnelId, i: nat, j: nat)
    requires Run(ss, steps) && i <= j < |ss|
    requires ToGo(ss[i], id) || Gone(ss[i], id)
    ensures ToGo(ss[j], id) || Gone(ss[j], id)
    ensures Gone(ss[i], id) ==> Gone(ss[j], id)
    decreases j
  {
    hide Next, Sound, Run, Possible;
    if i < j {
      DeletionIsForGood(ss, steps, id, i, j - 1);
      RunStep(ss, steps, j - 1);
      DeletionStep(ss[j - 1], steps[j - 1], id);
    }
  }

  lemma RunStep(ss: seq<Sys>, steps: seq<Step>, i: nat)
    requires Run(ss, steps) && i + 1 < |ss|
    ensures i < |steps|
    ensures Sound(ss[i]) && Possible(ss[i], steps[i]) && ss[i + 1] == Next(ss[i], steps[i]) && Sound(ss[i + 1])
    ensures ss[i].issued <= ss[i + 1].issued
    ensures ss[i].world.db.tunnels.Keys <= ss[i].issued
  {
    hide Next;
    StepSound(ss[i], steps[i]);
  }
}
