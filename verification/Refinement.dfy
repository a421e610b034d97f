/**
  The atomic steps are made of store statements: whatever a controller step, a handler or a restart
  does to the tables, a sequence of acts of the interleaved store does. So what holds of every
  interleaving holds of every run.
*/
module Refinement {
  import opened Domain
  import opened Kernel
  import opened Provider
  import opened Store
  import opened Controller
  import opened Frames
  import opened Api
  import opened Runs
  import opened Edits
  import opened Interleaving

  /** The acts lead from one to the other, none of them the requeueing of a restart. */
  ghost predicate Carried(n: Net, acts: seq<Act>, n': Net)
    decreases |acts|
  {
    if acts == [] then n' == n
    else Permitted(n, acts[0]) && !acts[0].RequeueOperations? && Carried(After(n, acts[0]), acts[1..], n')
  }

  ghost predicate Reaches(n: Net, n': Net) {
    exists acts :: Carried(n, acts, n')
  }

  lemma Stay(n: Net)
    ensures Reaches(n, n)
  {
    assert Carried(n, [], n);
  }

  lemma {:induction false} CarriedFurther(n: Net, acts: seq<Act>, n': Net, a: Act)
    requires Carried(n, acts, n') && Permitted(n', a) && !a.RequeueOperations?
    ensures Carried(n, acts + [a], After(n', a))
    decreases |acts|
  {
    hide Permitted, After;
    if acts == [] {
      assert [] + [a] == [a];
      assert Carried(After(n, a), [], After(n', a));
    } else {
      assert (acts + [a])[1..] == acts[1..] + [a];
      CarriedFurther(After(n, acts[0]), acts[1..], n', a);
    }
  }

  lemma Go(n: Net, n': Net, a: Act) returns (n'': Net)
    requires Reaches(n, n') && Permitted(n', a) && !a.RequeueOperations?
    ensures n'' == After(n', a) && Reaches(n, n'')
  {
    hide Permitted, After;
    var acts :| Carried(n, acts, n');
    CarriedFurther(n, acts, n', a);
    n'' := After(n', a);
  }

  lemma FailIsActs(n0: Net, n: Net, w: World, t: Tunnel, message: string) returns (n': Net)
    requires Reaches(n0, n) && n.db == w.db && t in n.seen
    ensures Reaches(n0, n') && n'.db == Fail(w, t, message).0.db && n'.(db := n.db) == n
  {
    hide Reaches, RetryDelay, Db.UpdateTunnel, Db.CompleteOperations;
    n' := n;
    if w.kern.env.Breaking() { return; }
    n' := Go(n0, n, FailWrite(t, message, w.Now(), w.Now()));
    var (w1, o) := Mark(w, FailedRow(t, w.Now()), Error, message);
    if !o.Done? || w1.kern.env.Breaking() { return; }
    var note := Retry(message, RetryDelay(FailedRow(t, w.Now()).failureCount));
    n' := Go(n0, n', CloseOperations(t.id, false, note, w1.Now()));
  }

  lemma CompleteIsActs(n0: Net, n: Net, w: World, id: TunnelId, message: Message) returns (n': Net)
    requires Reaches(n0, n) && n.db == w.db
    ensures Reaches(n0, n') && n'.db == Complete(w, id, true, message).0.db && n'.(db := n.db) == n
  {
    hide Reaches, Db.CompleteOperations;
    n' := n;
    if !w.kern.env.Breaking() { n' := Go(n0, n, CloseOperations(id, true, message, w.Now())); }
  }

  /** A controller step, from any row ever read. */
  lemma ReconcileOneIsActs(n0: Net, n: Net, w: World, t: Tunnel) returns (n': Net)
    requires Reaches(n0, n) && n.db == w.db && t in n.seen
    ensures Reaches(n0, n') && n'.db == ReconcileOne(w, t).0.db && n'.(db := n.db) == n
  {
    hide Reaches, Reconciled, Removed, Observed, Fail, Complete;
    hide Mark, Db.UpdateTunnel, Db.DeleteTunnel, Db.MarkOperationsRunning;
    n' := n;
    if !Due(t, w.Now()) { return; }
    if !t.typ.Gre? { n' := FailIsActs(n0, n, w, t, "provider is not installed"); return; }
    if w.kern.env.Breaking() { return; }
    n' := Go(n0, n, RunOperations(t.id));
    var (w1, o) := w.Execute(w.db.MarkOperationsRunning(t.id));
    if !o.Done? { return; }
    if t.desired.Deleted? {
      n' := RemoveOneIsActs(n0, n', w1, t);
    } else {
      n' := ApplyOneIsActs(n0, n', w1, t);
    }
  }

  lemma RemoveOneIsActs(n0: Net, n: Net, w: World, t: Tunnel) returns (n': Net)
    requires Reaches(n0, n) && n.db == w.db && t in n.seen
    ensures Reaches(n0, n') && n'.db == RemoveOne(w, t).0.db && n'.(db := n.db) == n
  {
    hide Reaches, Removed, Fail, Complete, Db.DeleteTunnel;
    var (k, err) := Removed(w.kern, t);
    var w1 := w.(kern := k);
    n' := n;
    if err.Some? { n' := FailIsActs(n0, n, w1, t, err.value); return; }
    if w1.kern.env.Breaking() { return; }
    n' := Go(n0, n, DropRow(t.id));
    var (w2, o) := w1.Execute(w1.db.DeleteTunnel(t.id));
    if o.Done? { n' := CompleteIsActs(n0, n', w2, t.id, Text("tunnel removed")); }
  }

  lemma ApplyOneIsActs(n0: Net, n: Net, w: World, t: Tunnel) returns (n': Net)
    requires Reaches(n0, n) && n.db == w.db && t in n.seen
    ensures Reaches(n0, n') && n'.db == ApplyOne(w, t).0.db && n'.(db := n.db) == n
  {
    hide Reaches, Reconciled, Observed, Fail, Complete, Mark, Db.UpdateTunnel, MarkedRow;
    var (k, err) := Reconciled(w.kern, t);
    if err.Some? { n' := FailIsActs(n0, n, w.(kern := k), t, err.value); return; }
    var (k', seen) := Observed(k, t);
    var w1 := w.(kern := k');
    if seen.failed { n' := FailIsActs(n0, n, w1, t, seen.message); return; }
    n' := RecordOneIsActs(n0, n, w1, t, seen);
  }

  lemma RecordOneIsActs(n0: Net, n: Net, w: World, t: Tunnel, seen: Observation) returns (n': Net)
    requires Reaches(n0, n) && n.db == w.db && t in n.seen
    ensures Reaches(n0, n') && n'.db == RecordOne(w, t, seen).0.db && n'.(db := n.db) == n
  {
    hide Reaches, Fail, Complete, Db.UpdateTunnel, MarkedRow;
    n' := n;
    if w.kern.env.Breaking() { return; }
    n' := Go(n0, n, MarkWrite(t, seen.state, seen.message, w.Now()));
    var (w1, o) := Mark(w, t, seen.state, seen.message);
    if !o.Done? { return; }
    if seen.state.Error? || seen.state.Unknown? || seen.state.Missing? {
      n' := FailIsActs(n0, n', w1, t, seen.message);
    } else {
      n' := CompleteIsActs(n0, n', w1, t.id, Text("desired state applied"));
    }
  }

  lemma {:induction false} ReadAll(n0: Net, n: Net, rows: seq<Tunnel>) returns (n': Net)
    requires Reaches(n0, n) && Current(n.db, rows)
    ensures Reaches(n0, n') && n' == n.(seen := n'.seen) && forall t | t in rows :: t in n'.seen
    decreases |rows|
  {
    hide Reaches;
    n' := n;
    if rows != [] {
      var last := |rows| - 1;
      var m := ReadAll(n0, n, rows[..last]);
      n' := Go(n0, m, Read(rows[last].id));
      assert rows == rows[..last] + [rows[last]];
    }
  }

  lemma {:induction false} PassIsActs(n0: Net, n: Net, w: World, rows: seq<Tunnel>) returns (n': Net)
    requires Reaches(n0, n) && n.db == w.db && forall t | t in rows :: t in n.seen
    ensures Reaches(n0, n') && n'.db == Pass(w, rows).db && n'.(db := n.db) == n
    decreases |rows|
  {
    hide Reaches, ReconcileOne;
    n' := n;
    if rows != [] {
      var m := ReconcileOneIsActs(n0, n, w, rows[0]);
      n' := PassIsActs(n0, m, ReconcileOne(w, rows[0]).0, rows[1..]);
    }
  }

  // ---------- handlers ----------

  lemma LoggedIsActs(n0: Net, n: Net, w: World, id: TunnelId, action: string, message: string) returns (n': Net)
    requires Reaches(n0, n) && n.db == w.db
    ensures Reaches(n0, n') && n'.db == Logged(w, id, action, message).db && n'.(db := n.db) == n
  {
    hide Reaches;
    n' := n;
    if !w.kern.env.Breaking() { n' := Go(n0, n, LogOperation(id, action, message, w.Now())); }
  }

  /** A row written by one act, then the log. */
  lemma SavedIsActs(
      n0: Net, n: Net, a: Act, w: World, r: (Db, Outcome), id: TunnelId, action: string, message: string,
      ok: int, refused: int) returns (n': Net)
    requires Reaches(n0, n) && n.db == w.db && Permitted(n, a) && !a.RequeueOperations? && After(n, a).db == r.0
    requires ok != refused && r.0.ops == w.db.ops && (!r.1.Done? ==> r.0 == w.db)
    requires r.0.tunnels - {id} == w.db.tunnels - {id}
    requires w.db.Valid() ==> r.0.Valid()
    ensures Reaches(n0, n') && n'.db == Saved(w, r, id, action, message, ok, refused).0.db
    ensures n'.issued in [n.issued, After(n, a).issued] && n'.imports in [n.imports, After(n, a).imports]
  {
    hide Reaches, Permitted, After, Logged, HandlerFrame, LogGrows, Db.Valid;
    n' := n;
    if w.kern.env.Breaking() { return; }
    n' := Go(n0, n, a);
    var (w1, o) := w.Execute(r);
    if o.Done? { n' := LoggedIsActs(n0, n', w1, id, action, message); }
  }

  lemma CreateIsActs(n: Net, w: World, raw: TunnelInput, id: TunnelId) returns (n': Net)
    requires n.db == w.db && id !in n.issued
    ensures Reaches(n, n') && n'.db == TunnelCreated(w, raw, id).0.db
    ensures n'.issued <= n.issued + {id} && n'.imports == n.imports
  {
    hide Reaches, Validate, Db.CreateTunnel, Saved, Db.Valid;
    Stay(n);
    n' := n;
    var input := Defaulted(raw);
    if !raw.typ.Gre? || Validate(input).Some? { return; }
    var (k, found) := w.kern.LinkByName(input.name);
    var w1 := w.(kern := k);
    if found.Ok? || (input.peerAddress != BLANK && input.peerAddress.Parse().None?) { return; }
    InsertOnly(w1.db, NewRow(input, id, w1.Now()));
    n' := SavedIsActs(n, n, Insert(input, id, w1.Now()), w1, w1.db.CreateTunnel(NewRow(input, id, w1.Now())), id,
                      "create_tunnel", "desired state saved; waiting for reconciliation", 201, 409);
  }

  lemma InsertOnly(db: Db, row: Tunnel)
    ensures db.CreateTunnel(row).0.ops == db.ops && (!db.CreateTunnel(row).1.Done? ==> db.CreateTunnel(row).0 == db)
  {
  }

  lemma UpdateOnly(db: Db, row: Tunnel)
    ensures db.UpdateTunnel(row).0.ops == db.ops && (!db.UpdateTunnel(row).1.Done? ==> db.UpdateTunnel(row).0 == db)
  {
  }

  lemma UpdateIsActs(n: Net, w: World, id: TunnelId, raw: TunnelInput) returns (n': Net)
    requires n.db == w.db && w.db.Valid()
    ensures Reaches(n, n') && n'.db == TunnelUpdated(w, id, raw).0.db
    ensures n'.issued == n.issued && n'.imports == n.imports
  {
    hide Reaches, Validate, Db.UpdateTunnel, Saved, Db.NameTaken, Db.Valid, HandlerFrame;
    Stay(n);
    if id in w.db.tunnels { RowUnderItsId(w.db, id); }
    n' := n;
    var (w1, code) := Fetched(w, id);
    if code != 200 { return; }
    var m := Go(n, n, Read(id));
    n' := m;
    var input := Defaulted(raw);
    if !raw.typ.Gre? || Validate(input).Some? { return; }
    var t := w.db.tunnels[id];
    UpdateOnly(w1.db, EditedRow(t, input, w1.Now()));
    n' := SavedIsActs(n, m, EditWrite(t, input, w1.Now()), w1, w1.db.UpdateTunnel(EditedRow(t, input, w1.Now())), id,
                      "update_tunnel", "desired state updated; waiting for reconciliation", 200, 409);
  }

  lemma DeleteIsActs(n: Net, w: World, id: TunnelId) returns (n': Net)
    requires n.db == w.db && w.db.Valid()
    ensures Reaches(n, n') && n'.db == TunnelDeleted(w, id).0.db && n'.issued == n.issued && n'.imports == n.imports
  {
    hide Reaches, Db.UpdateTunnel, Saved, Db.NameTaken, Db.Valid, HandlerFrame;
    Stay(n);
    if id in w.db.tunnels { RowUnderItsId(w.db, id); }
    n' := n;
    var (w1, code) := Fetched(w, id);
    if code != 200 { return; }
    var m := Go(n, n, Read(id));
    var t := w.db.tunnels[id];
    var row := Touched(t.(desired := Deleted), w1.Now());
    UpdateOnly(w1.db, row);
    n' := SavedIsActs(n, m, DeleteWrite(t, w1.Now()), w1, w1.db.UpdateTunnel(row), id,
                      "delete_tunnel", "tunnel removal queued", 202, 500);
  }

  lemma StateIsActs(n: Net, w: World, id: TunnelId, on: bool) returns (n': Net)
    requires n.db == w.db && w.db.Valid()
    ensures Reaches(n, n') && n'.issued == n.issued && n'.imports == n.imports
    ensures n'.db == StateSet(w, id, if on then Enabled else Disabled).0.db
  {
    hide Reaches, Db.UpdateTunnel, Saved, Db.NameTaken, Db.Valid, HandlerFrame;
    Stay(n);
    if id in w.db.tunnels { RowUnderItsId(w.db, id); }
    n' := n;
    var state := if on then Enabled else Disabled;
    var (w1, code) := Fetched(w, id);
    if code != 200 { return; }
    var m := Go(n, n, Read(id));
    var t := w.db.tunnels[id];
    var row := Touched(t.(desired := state), w1.Now());
    UpdateOnly(w1.db, row);
    n' := SavedIsActs(n, m, StateWrite(t, on, w1.Now()), w1, w1.db.UpdateTunnel(row), id,
                      if state.Enabled? then "enabled_tunnel" else "disabled_tunnel",
                      "desired state updated; waiting for reconciliation", 200, 500);
  }

  lemma ImportIsActs(n: Net, w: World, name: Name, id: TunnelId, order: seq<Name>) returns (n': Net)
    requires n.db == w.db && id !in n.issued && forall x | x in order :: x in w.kern.links
    ensures Reaches(n, n') && n'.db == Imported(w, name, id, order).0.db
    ensures n'.issued <= n.issued + {id} && n'.imports <= n.imports + {id}
  {
    hide Reaches, DiscoveredFrom, Describes, AdoptedRow;
    Stay(n);
    n' := n;
    var (k1, ok) := w.kern.LinkList();
    if !ok { return; }
    var (k2, items) := DiscoveredFrom(k1, order);
    var found := FindItem(items, name);
    if found.None? || !(PREFIX <= found.value.alias) || found.value.address.None? || k2.env.Breaking() { return; }
    var w3 := w.(kern := k2.Tick());
    n' := AdoptionIsActs(n, w3, found.value, k1.links, id);
  }

  lemma AdoptionIsActs(n: Net, w: World, item: Discovered, links: map<Name, Link>, id: TunnelId) returns (n': Net)
    requires n.db == w.db && id !in n.issued && Describes(item, links) && item.address.Some?
    ensures Reaches(n, n') && n'.db == AdoptedRow(w, ImportedRow(item, item.address.value, id, w.Now())).0.db
    ensures n'.issued <= n.issued + {id} && n'.imports <= n.imports + {id}
  {
    hide Reaches, Describes, Adopted, Db.CreateTunnel;
    Stay(n);
    n' := n;
    if w.kern.env.Breaking() { return; }
    var t := ImportedRow(item, item.address.value, id, w.Now());
    n' := Go(n, n, InsertImport(item, links, id, w.Now()));
    var (w1, o) := w.Execute(w.db.CreateTunnel(t));
    if !o.Done? { return; }
    var (k, err) := Adopted(w1.kern, t.name, Marker(id));
    var w2 := w1.(kern := k);
    if err.None? {
      n' := LoggedIsActs(n, n', w2, id, "import_tunnel", "existing GRE interface adopted; waiting for reconciliation");
    } else if !k.env.Breaking() {
      n' := Go(n, n', DropRow(id));
    }
  }

  lemma RestartIsActs(n: Net, w: World) returns (n1: Net, n': Net)
    requires n.db == w.db
    ensures n1 == n || n1 == After(n, RequeueOperations)
    ensures Reaches(n1, n') && n'.db == Restarted(w).db && n'.(db := n.db) == n
  {
    hide Reaches;
    n1 := if w.kern.env.Breaking() then n else After(n, RequeueOperations);
    Stay(n1);
    n' := n1;
    if w.kern.env.Breaking() || w.kern.env.Next().Breaking() { return; }
    n' := Go(n1, n', ClearRetryTimes);
  }

  // ---------- runs ----------

  ghost predicate Shows(n: Net, s: Sys) {
    n.db == s.world.db && n.issued <= s.issued
  }

  /** Every step of a run is a sequence of acts on the tables; only a restart requeues, and first. */
  lemma StepIsActs(n: Net, s: Sys, step: Step) returns (n1: Net, n': Net)
    requires Sound(s) && Possible(s, step) && Shows(n, s)
    ensures n1 == n || (step.Restart? && n1 == After(n, RequeueOperations))
    ensures Reaches(n1, n') && Shows(n', Next(s, step))
    ensures n'.imports <= n.imports + (if step.Import? then {step.id} else {})
  {
    hide Reaches, TunnelCreated, TunnelUpdated, TunnelDeleted, StateSet, Imported;
    hide Pass, Restarted, LogGrows, Db.Valid;
    var w := s.world;
    Stay(n);
    n1, n' := n, n;
    match step
    case Create(input, id) => n' := CreateIsActs(n, w, input, id);
    case Update(id, input) => n' := UpdateIsActs(n, w, id, input);
    case Delete(id) => n' := DeleteIsActs(n, w, id);
    case SetState(id, on) => n' := StateIsActs(n, w, id, on);
    case Import(name, id, order) => n' := ImportIsActs(n, w, name, id, order);
    case Sweep(rows) =>
      var m := ReadAll(n, n, rows);
      n' := PassIsActs(n, m, w.(kern := w.kern.Tick()), rows);
    case Restart => n1, n' := RestartIsActs(n, w);
    case Outside(_, _, _) =>
  }

  lemma {:induction false} CarriedKeepsLaw(n: Net, acts: seq<Act>, n': Net)
    requires Lawful(n) && Carried(n, acts, n')
    ensures Lawful(n')
    decreases |acts|
  {
    hide Lawful, After, Permitted;
    if acts != [] {
      ActKeepsLaw(n, acts[0]);
      CarriedKeepsLaw(After(n, acts[0]), acts[1..], n');
    }
  }

  lemma ReachesKeepsLaw(n: Net, n': Net)
    requires Lawful(n) && Reaches(n, n')
    ensures Lawful(n')
  {
    hide Lawful, Carried;
    var acts :| Carried(n, acts, n');
    CarriedKeepsLaw(n, acts, n');
  }

  /** So every run of handlers, passes and restarts keeps the row law of all interleavings. */
  lemma {:induction false} RunIsLawful(ss: seq<Sys>, steps: seq<Step>, n0: Net, j: nat) returns (n: Net)
    requires Run(ss, steps) && j < |ss| && Lawful(n0) && Shows(n0, ss[0])
    ensures Lawful(n) && Shows(n, ss[j])
    ensures forall id | id in n.imports && id !in n0.imports ::
      exists i | 0 <= i < j :: steps[i].Import? && steps[i].id == id
  {
    hide Lawful, Next, Reaches, Run, Possible, Sound;
    n := n0;
    if j > 0 {
      var m := RunIsLawful(ss, steps, n0, j - 1);
      RunStep(ss, steps, j - 1);
      var m1;
      m1, n := StepIsActs(m, ss[j - 1], steps[j - 1]);
      ActKeepsLaw(m, RequeueOperations);
      ReachesKeepsLaw(m1, n);
    }
  }

  /** Rows within bounds stay so: no step of a run writes other numbers than an accepted input's. */
  lemma StepKeepsBounds(s: Sys, step: Step, id: TunnelId)
    requires Sound(s) && Possible(s, step) && id in s.world.db.tunnels && Acceptable(s.world.db.tunnels[id])
    ensures id in Next(s, step).world.db.tunnels ==> Acceptable(Next(s, step).world.db.tunnels[id])
  {
    hide TunnelCreated, TunnelUpdated, TunnelDeleted, StateSet, Imported, Pass, Restarted, LogGrows;
    var w, w' := s.world, Next(s, step).world;
    match step
    case Create(_, i) => RowsElsewhere(w.db, w'.db, i, id);
    case Update(i, input) =>
      if i != id { RowsElsewhere(w.db, w'.db, i, id); }
      UpdateStores(w, id, input);
    case Delete(i) =>
      if i != id { RowsElsewhere(w.db, w'.db, i, id); }
      StateChangeStores(w, id, Deleted);
    case SetState(i, on) =>
      if i != id { RowsElsewhere(w.db, w'.db, i, id); }
      StateChangeStores(w, id, if on then Enabled else Disabled);
    case Import(name, i, order) =>
      ImportFrame(w, name, i, order);
      RowsElsewhere(w.db, w'.db, i, id);
    case Sweep(rows) => SweepFrame(w.(kern := w.kern.Tick()), rows);
    case Restart => RestartFrame(w);
    case Outside(_, _, _) =>
  }

  lemma {:induction false} BoundsLast(ss: seq<Sys>, steps: seq<Step>, id: TunnelId, i: nat, j: nat)
    requires Run(ss, steps) && i <= j < |ss|
    requires id in ss[i].world.db.tunnels && Acceptable(ss[i].world.db.tunnels[id])
    ensures id in ss[j].world.db.tunnels ==> Acceptable(ss[j].world.db.tunnels[id])
    ensures id in ss[j].issued
    decreases j
  {
    hide Run, Next, Possible, Acceptable;
    if i < j {
      BoundsLast(ss, steps, id, i, j - 1);
      RunStep(ss, steps, j - 1);
      DeletionStep(ss[j - 1], steps[j - 1], id);
      if id in ss[j - 1].world.db.tunnels { StepKeepsBounds(ss[j - 1], steps[j - 1], id); }
    } else {
      IssuedAt(ss, steps, i, id);
    }
  }

  lemma IssuedAt(ss: seq<Sys>, steps: seq<Step>, i: nat, id: TunnelId)
    requires Run(ss, steps) && i < |ss| && id in ss[i].world.db.tunnels
    ensures id in ss[i].issued
  {
    hide Next, Possible;
    if i > 0 { RunStep(ss, steps, i - 1); }
  }

  /** The step is an update of the tunnel, and accepted. */
  ghost predicate Accepts(s: Sys, step: Step, id: TunnelId) {
    step.Update? && step.id == id && Sound(s) && TunnelUpdated(s.world, id, step.input).1 == 200
  }

  /** From an accepted update on the row is within bounds, whoever made it. */
  lemma EditBounds(ss: seq<Sys>, steps: seq<Step>, id: TunnelId, i: nat, j: nat)
    requires Run(ss, steps) && i < j < |ss| && Accepts(ss[i], steps[i], id) && id in ss[j].world.db.tunnels
    ensures Acceptable(ss[j].world.db.tunnels[id])
  {
    hide Run, TunnelUpdated, Acceptable, LogGrows;
    RunStep(ss, steps, i);
    UpdateStores(ss[i].world, id, steps[i].input);
    BoundsLast(ss, steps, id, i + 1, j);
  }

  /** Rows of a run that began with empty tables. */
  lemma RunRows(ss: seq<Sys>, steps: seq<Step>, j: nat, id: TunnelId)
    requires Run(ss, steps) && j < |ss| && ss[0].world.db == Db(map[], []) && id in ss[j].world.db.tunnels
    ensures var t := ss[j].world.db.tunnels[id];
      && (t.actual.Up? || t.actual.Down? ==> t.failureCount == 0 && t.retryAt.None?)
      && (t.retryAt.Some? ==> t.failureCount >= 1)
      && 0 <= t.ttl < 256 && Uint8(t.ttl) == t.ttl
      && ((forall i | 0 <= i < j && steps[i].Import? :: steps[i].id != id) ==> Acceptable(t))
      && ((exists i | 0 <= i < j :: Accepts(ss[i], steps[i], id)) ==> Acceptable(t))
  {
    hide Run, Acceptable, Accepts;
    var n := RunIsLawful(ss, steps, Net(ss[0].world.db, {}, {}, {}), j);
    RunLength(ss, steps);
    if i :| 0 <= i < j && Accepts(ss[i], steps[i], id) { EditBounds(ss, steps, id, i, j); }
  }

  lemma {:induction false} CarriedKeepsLog(n: Net, acts: seq<Act>, n': Net)
    requires Carried(n, acts, n')
    ensures LogLives(n.db.ops, n'.db.ops, false)
    decreases |acts|
  {
    hide LogLives, After, Permitted;
    if acts == [] {
      LogLivesReflexive(n.db.ops);
    } else {
      ActKeepsLog(n, acts[0]);
      CarriedKeepsLog(After(n, acts[0]), acts[1..], n');
      LogLivesOn(n.db.ops, After(n, acts[0]).db.ops, n'.db.ops, false, false);
    }
  }

  lemma StepKeepsLog(s: Sys, step: Step)
    requires Sound(s) && Possible(s, step)
    ensures LogLives(s.world.db.ops, Next(s, step).world.db.ops, step.Restart?)
  {
    hide Next, Possible, Sound, LogLives, Carried, After;
    var n := Net(s.world.db, {}, {}, {});
    var n1, n' := StepIsActs(n, s, step);
    var acts :| Carried(n1, acts, n');
    CarriedKeepsLog(n1, acts, n');
    if n1 != n {
      ActKeepsLog(n, RequeueOperations);
      LogLivesOn(n.db.ops, n1.db.ops, n'.db.ops, true, false);
    } else {
      LogLivesLoosely(n.db.ops, n'.db.ops, false, step.Restart?);
    }
  }

  ghost predicate AnyRestart(steps: seq<Step>, i: nat, j: nat)
    requires i <= j <= |steps|
  {
    exists k | i <= k < j :: steps[k].Restart?
  }

  /** Over every run: the log only grows, an end is an end, and only a restart requeues. */
  lemma {:induction false} LogOverRun(ss: seq<Sys>, steps: seq<Step>, i: nat, j: nat)
    requires Run(ss, steps) && i <= j < |ss|
    ensures j <= |steps| && LogLives(ss[i].world.db.ops, ss[j].world.db.ops, AnyRestart(steps, i, j))
    decreases j
  {
    hide Run, Next, Possible, Sound, LogLives;
    RunLength(ss, steps);
    if i < j {
      LogOverRun(ss, steps, i, j - 1);
      RunStep(ss, steps, j - 1);
      StepKeepsLog(ss[j - 1], steps[j - 1]);
      var r := AnyRestart(steps, i, j - 1);
      LogLivesOn(ss[i].world.db.ops, ss[j - 1].world.db.ops, ss[j].world.db.ops, r, steps[j - 1].Restart?);
      LogLivesLoosely(ss[i].world.db.ops, ss[j].world.db.ops, r || steps[j - 1].Restart?, AnyRestart(steps, i, j));
    } else {
      LogLivesReflexive(ss[i].world.db.ops);
    }
  }

  lemma RunLength(ss: seq<Sys>, steps: seq<Step>)
    requires Run(ss, steps)
    ensures |ss| == |steps| + 1
  {
  }
}
