/**
  Refused for good: while a tunnel's name is held by a link without its marker, no pass of any run
  succeeds for it or touches the link, and not even a delete of the tunnel is ever finished.
*/
module Refusal {
  import opened Domain
  import opened Kernel
  import opened Provider
  import opened Goal
  import opened Store
  import opened Controller
  import opened Frames
  import opened Recovery
  import opened Api
  import opened Runs
  import opened Limits
  import opened PassRecovery

  /** The tunnel is stored under the name, and the link there is not marked for it. */
  ghost predicate Refused(w: World, id: TunnelId, n: Name) {
    && id in w.db.tunnels && w.db.tunnels[id].name == n
    && n in w.kern.links && w.kern.links[n].alias != Marker(id)
  }

  /** Nothing of the tunnel has become a success; what is new of it is no success. */
  ghost predicate NoSuccess(ops: seq<Operation>, ops': seq<Operation>, id: TunnelId) {
    && |ops| <= |ops'|
    && forall i | 0 <= i < |ops'| && ops'[i].resource == id && ops'[i].status.Success? ::
         i < |ops| && ops[i] == ops'[i]
  }

  /** The step does not rename the tunnel, and is not somebody else's change of the link. */
  ghost predicate Bears(s: Sys, step: Step, id: TunnelId, n: Name) {
    match step
    case Update(i, input) => i == id ==> input.name == n
    case Outside(links, _, _) => SameLink(s.world.kern.links, links, n)
    case _ => true
  }

  /** One pass: the tunnel's step is refused, the others are about other links and operations. */
  lemma PassRefuses(w: World, rows: seq<Tunnel>, id: TunnelId, n: Name)
    requires w.db.Valid() && w.db.IsListing(rows) && Refused(w, id, n)
    ensures Refused(Pass(w, rows), id, n) && SameLink(w.kern.links, Pass(w, rows).kern.links, n)
    ensures NoSuccess(w.db.ops, Pass(w, rows).db.ops, id)
  {
    hide ReconcileOne, Pass, Others, OwnRulesAlike, Db.Valid;
    RowUnderItsId(w.db, id);
    var t := w.db.tunnels[id];
    var pre, post := TurnOf(w, rows, t);
    var u := Pass(w, pre);
    var u' := ReconcileOne(u, t).0;
    PassAlike(w, pre, t);
    StepRefuses(u, t);
    PassAlike(u', post, t);
    NoSuccessAlike(w, u, u', Pass(w, rows), id);
  }

  lemma StepRefuses(u: World, t: Tunnel)
    requires !Claimable(u.kern, t) && t.id in u.db.tunnels && u.db.tunnels[t.id] == t
    ensures var u' := ReconcileOne(u, t).0;
      && SameLink(u.kern.links, u'.kern.links, t.name)
      && t.id in u'.db.tunnels && u'.db.tunnels[t.id].name == t.name
      && NoSuccess(u.db.ops, u'.db.ops, t.id)
      && forall i | 0 <= i < |u.db.ops| :: i < |u'.db.ops| && u'.db.ops[i].resource == u.db.ops[i].resource
  {
    hide ReconcileOne, OwnershipFrame, Db.Valid;
    UnclaimableIsRefused(u, t);
    VerdictSpeaksForOps(u, t);
    ReconcileOneFrame(u, t);
    if t.id !in ReconcileOne(u, t).0.db.tunnels { OnlyDeletedRowsGo(u, t); }
  }

  lemma NoSuccessAlike(w: World, u: World, u': World, w': World, id: TunnelId)
    requires OwnOpsAlike(w.db.ops, u.db.ops, id) && OwnOpsAlike(u'.db.ops, w'.db.ops, id)
    requires NoSuccess(u.db.ops, u'.db.ops, id)
    requires forall i | 0 <= i < |u.db.ops| :: i < |u'.db.ops| && u'.db.ops[i].resource == u.db.ops[i].resource
    ensures NoSuccess(w.db.ops, w'.db.ops, id)
  {
    forall i | 0 <= i < |w'.db.ops| && w'.db.ops[i].resource == id && w'.db.ops[i].status.Success?
      ensures i < |w.db.ops| && w.db.ops[i] == w'.db.ops[i]
    {
      assert u'.db.ops[i] == w'.db.ops[i];
      assert u.db.ops[i] == u'.db.ops[i];
      assert w.db.ops[i] == u.db.ops[i];
    }
  }

  lemma LogIsNoSuccess(ops: seq<Operation>, ops': seq<Operation>, other: TunnelId, id: TunnelId)
    requires LogGrows(ops, ops', other)
    ensures NoSuccess(ops, ops', id)
  {
    forall i | 0 <= i < |ops'| && ops'[i].resource == id && ops'[i].status.Success?
      ensures i < |ops| && ops[i] == ops'[i]
    {
      assert i < |ops| ==> ops'[..|ops|][i] == ops[i];
    }
  }

  /** A handler's own row and log entry; if the row is this tunnel's, it keeps its name. */
  lemma HandlerRefuses(w: World, w': World, other: TunnelId, id: TunnelId, n: Name)
    requires Refused(w, id, n) && w'.kern.links == w.kern.links
    requires w'.db.tunnels - {other} == w.db.tunnels - {other} && LogGrows(w.db.ops, w'.db.ops, other)
    requires other == id ==> id in w'.db.tunnels && w'.db.tunnels[id].name == n
    ensures Refused(w', id, n) && NoSuccess(w.db.ops, w'.db.ops, id)
  {
    hide LogGrows;
    LogIsNoSuccess(w.db.ops, w'.db.ops, other, id);
    if other != id { RowsElsewhere(w.db, w'.db, other, id); }
  }

  /** An import of a link whose name a row has fails before it touches the link. */
  lemma ImportRefuses(w: World, name: Name, other: TunnelId, order: seq<Name>, id: TunnelId, n: Name)
    requires forall x | x in order :: x in w.kern.links
    requires Refused(w, id, n) && w.db.Valid() && other != id
    ensures var w' := Imported(w, name, other, order).0;
      Refused(w', id, n) && SameLink(w.kern.links, w'.kern.links, n) && NoSuccess(w.db.ops, w'.db.ops, id)
  {
    hide Imported, LogGrows, Db.Valid;
    var w' := Imported(w, name, other, order).0;
    ImportFrame(w, name, other, order);
    LogIsNoSuccess(w.db.ops, w'.db.ops, other, id);
    RowsElsewhere(w.db, w'.db, other, id);
    if name == n {
      TakenNameImport(w, name, other, order, id);
    } else {
      Elsewhere(w.kern.links, w'.kern.links, name, n);
    }
  }

  lemma TakenNameImport(w: World, name: Name, other: TunnelId, order: seq<Name>, id: TunnelId)
    requires forall x | x in order :: x in w.kern.links
    requires id in w.db.tunnels && w.db.tunnels[id].name == name && other != id
    ensures Imported(w, name, other, order).0.kern.links == w.kern.links
  {
    hide DiscoveredFrom, Describes, Adopted;
    var (w1, pick) := Picked(w, name, other, order);
    if pick.Take? {
      assert pick.row.name == name && pick.row.id == other;
      assert w1.db.NameTaken(name, other);
    }
  }

  lemma SysRefuses(s: Sys, step: Step, id: TunnelId, n: Name)
    requires Sound(s) && Possible(s, step) && Bears(s, step, id, n) && Refused(s.world, id, n)
    ensures var w, w' := s.world, Next(s, step).world;
      && Refused(w', id, n) && SameLink(w.kern.links, w'.kern.links, n) && NoSuccess(w.db.ops, w'.db.ops, id)
  {
    hide TunnelCreated, TunnelUpdated, TunnelDeleted, StateSet, Imported, Pass;
    hide Restarted, LogGrows, Refused, NoSuccess;
    RefusedIs(s.world, id, n);
    var w, w' := s.world, Next(s, step).world;
    match step
    case Create(_, i) => HandlerRefuses(w, w', i, id, n);
    case Update(i, _) => HandlerRefuses(w, w', i, id, n);
    case Delete(i) => HandlerRefuses(w, w', i, id, n);
    case SetState(i, _) => HandlerRefuses(w, w', i, id, n);
    case Import(name, i, order) => ImportRefuses(w, name, i, order, id, n);
    case Sweep(rows) => SweepRefuses(w, rows, id, n);
    case Restart => RestartRefuses(w, id, n);
    case Outside(_, _, _) => OutsideRefuses(s, step, id, n);
  }

  lemma RefusedIs(w: World, id: TunnelId, n: Name)
    requires Refused(w, id, n)
    ensures id in w.db.tunnels && w.db.tunnels[id].name == n
  {
  }

  lemma SweepRefuses(w: World, rows: seq<Tunnel>, id: TunnelId, n: Name)
    requires w.db.Valid() && Refused(w, id, n)
    requires if w.kern.env.Breaking() then rows == [] else w.db.IsListing(rows)
    ensures var w' := Pass(w.(kern := w.kern.Tick()), rows);
      Refused(w', id, n) && SameLink(w.kern.links, w'.kern.links, n) && NoSuccess(w.db.ops, w'.db.ops, id)
  {
    hide ReconcileOne, Db.Valid, Db.IsListing;
    if rows != [] { PassRefuses(w.(kern := w.kern.Tick()), rows, id, n); }
    if rows == [] && !w.kern.env.Breaking() { PassRefuses(w.(kern := w.kern.Tick()), rows, id, n); }
  }

  lemma RestartRefuses(w: World, id: TunnelId, n: Name)
    requires Refused(w, id, n)
    ensures var w' := Restarted(w);
      Refused(w', id, n) && SameLink(w.kern.links, w'.kern.links, n) && NoSuccess(w.db.ops, w'.db.ops, id)
  {
    hide Restarted, Db.Valid;
    RestartFrame(w);
  }

  lemma OutsideRefuses(s: Sys, step: Step, id: TunnelId, n: Name)
    requires step.Outside? && Sound(s) && Possible(s, step) && Bears(s, step, id, n) && Refused(s.world, id, n)
    ensures var w, w' := s.world, Next(s, step).world;
      Refused(w', id, n) && SameLink(w.kern.links, w'.kern.links, n) && NoSuccess(w.db.ops, w'.db.ops, id)
  {
  }

  lemma NoSuccessOn(a: seq<Operation>, b: seq<Operation>, c: seq<Operation>, id: TunnelId)
    requires NoSuccess(a, b, id) && NoSuccess(b, c, id)
    ensures NoSuccess(a, c, id)
  {
  }

  /**
    Over every run, whatever is asked of the tunnel, deletes included: it stays in the table under
    the name, the link stays as it is, and no operation of the tunnel becomes a success. It ends
    only when the tunnel is renamed or somebody else sees to the link.
  */
  lemma {:induction false} RefusedForGood(
      ss: seq<Sys>, steps: seq<Step>, id: TunnelId, n: Name, i: nat, j: nat)
    requires Run(ss, steps) && i <= j < |ss| && j <= |steps| && Refused(ss[i].world, id, n)
    requires forall x | i <= x < j :: Bears(ss[x], steps[x], id, n)
    ensures Refused(ss[j].world, id, n)
    ensures SameLink(ss[i].world.kern.links, ss[j].world.kern.links, n)
    ensures NoSuccess(ss[i].world.db.ops, ss[j].world.db.ops, id)
    decreases j
  {
    hide Next, Sound, Run, Possible, Refused, Bears, NoSuccess;
    if i < j {
      RefusedForGood(ss, steps, id, n, i, j - 1);
      RunStep(ss, steps, j - 1);
      SysRefuses(ss[j - 1], steps[j - 1], id, n);
      NoSuccessOn(ss[i].world.db.ops, ss[j - 1].world.db.ops, ss[j].world.db.ops, id);
    } else {
      NoSuccessSelf(ss[i].world.db.ops, id);
    }
  }

  lemma NoSuccessSelf(ops: seq<Operation>, id: TunnelId)
    ensures NoSuccess(ops, ops, id)
  {
  }
}
