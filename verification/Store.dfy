/** The store: a table of tunnels and a log of operations, and the statements that change them. */
module Store {
  import opened Domain
  import opened Kernel

  datatype Outcome = Done | NoRow | Conflict | Broken

  /** `UPDATE operations SET ...` on one row of the log. */
  function RunningOp(o: Operation, id: TunnelId): Operation {
    if o.resource == id && o.status.Queued? then o.(status := Running) else o
  }

  function CompletedOp(o: Operation, id: TunnelId, status: Status, message: Message, now: nat): Operation {
    if o.resource == id && o.Open()
    then o.(status := status, message := message, finishedAt := Some(now))
    else o
  }

  function RequeuedOp(o: Operation): Operation {
    if o.status.Running? then o.(status := Queued) else o
  }

  datatype Db = Db(tunnels: map<TunnelId, Tunnel>, ops: seq<Operation>) {
    predicate NameTaken(name: Name, id: TunnelId) {
      exists i | i in tunnels :: i != id && tunnels[i].name == name
    }

    /** Rows sit under their ids and no two carry one name. */
    ghost predicate Valid() {
      && (forall i | i in tunnels :: tunnels[i].id == i)
      && (forall i, j | i in tunnels && j in tunnels && i != j :: tunnels[i].name != tunnels[j].name)
    }

    function CreateTunnel(t: Tunnel): (r: (Db, Outcome))
      ensures Valid() ==> r.0.Valid()
      ensures r.0.tunnels - {t.id} == tunnels - {t.id}
    {
      if t.id in tunnels || NameTaken(t.name, t.id) then (this, Conflict)
      else (this.(tunnels := tunnels[t.id := t]), Done)
    }

    /** Writes the whole row back, except its creation time; never makes a row. */
    function UpdateTunnel(t: Tunnel): (r: (Db, Outcome))
      ensures Valid() ==> r.0.Valid()
      ensures r.0.tunnels - {t.id} == tunnels - {t.id}
      ensures r.0.tunnels.Keys == tunnels.Keys
      ensures r.1.NoRow? <==> t.id !in tunnels
      ensures r.1.Conflict? <==> t.id in tunnels && NameTaken(t.name, t.id)
    {
      if t.id !in tunnels then (this, NoRow)
      else if NameTaken(t.name, t.id) then (this, Conflict)
      else (this.(tunnels := tunnels[t.id := t.(createdAt := tunnels[t.id].createdAt)]), Done)
    }

    function DeleteTunnel(id: TunnelId): (r: (Db, Outcome))
      ensures Valid() ==> r.0.Valid()
      ensures r.1.Done? <==> id in tunnels
    {
      if id !in tunnels then (this, NoRow) else (this.(tunnels := tunnels - {id}), Done)
    }

    function CreateOperation(o: Operation): (Db, Outcome) {
      (this.(ops := ops + [o]), Done)
    }

    function MarkOperationsRunning(id: TunnelId): (Db, Outcome) {
      (this.(ops := seq(|ops|, i requires 0 <= i < |ops| => RunningOp(ops[i], id))), Done)
    }

    function CompleteOperations(id: TunnelId, status: Status, message: Message, now: nat): (Db, Outcome) {
      (this.(ops := seq(|ops|, i requires 0 <= i < |ops| => CompletedOp(ops[i], id, status, message, now))), Done)
    }

    function RequeueRunning(): (Db, Outcome) {
      (this.(ops := seq(|ops|, i requires 0 <= i < |ops| => RequeuedOp(ops[i]))), Done)
    }

    function ClearRetries(): (r: (Db, Outcome))
      ensures Valid() ==> r.0.Valid()
    {
      (this.(tunnels := map i | i in tunnels :: tunnels[i].(retryAt := None)), Done)
    }

    /** Every row once, in some order. */
    ghost predicate IsListing(rows: seq<Tunnel>) {
      && (forall i | 0 <= i < |rows| :: rows[i].id in tunnels && tunnels[rows[i].id] == rows[i])
      && (forall i, j | 0 <= i < j < |rows| :: rows[i].id != rows[j].id)
      && (forall id | id in tunnels :: tunnels[id] in rows)
    }
  }

  /** The host and the store together. */
  datatype World = World(kern: Kern, db: Db) {
    function Now(): nat { kern.env.now }

    /** A statement takes effect, or the plan breaks it. */
    function Execute(r: (Db, Outcome)): (World, Outcome) {
      if kern.env.Breaking() then (this.(kern := kern.Tick()), Broken)
      else (World(kern.Tick(), r.0), r.1)
    }
  }

  class SQLiteStore {
    const env: Environment
    var tunnels: map<TunnelId, Tunnel>
    var ops: seq<Operation>

    constructor (env: Environment)
      ensures this.env == env && D() == Db(map[], [])
    {
      this.env := env;
      tunnels, ops := map[], [];
    }

    function D(): Db
      reads this
    {
      Db(tunnels, ops)
    }

    method CreateTunnel(t: Tunnel) returns (o: Outcome)
      modifies this, env
      ensures env.E() == old(env.E()).Next()
      ensures (D(), o) == if old(env.E()).Breaking() then (old(D()), Broken) else old(D()).CreateTunnel(t)
    {
      var fault := env.Next();
      if fault.AllFails? { return Broken; }
      if t.id in tunnels || (exists i | i in tunnels :: i != t.id && tunnels[i].name == t.name) { return Conflict; }
      tunnels := tunnels[t.id := t];
      return Done;
    }

    method UpdateTunnel(t: Tunnel) returns (o: Outcome)
      modifies this, env
      ensures env.E() == old(env.E()).Next()
      ensures (D(), o) == if old(env.E()).Breaking() then (old(D()), Broken) else old(D()).UpdateTunnel(t)
    {
      var fault := env.Next();
      if fault.AllFails? { return Broken; }
      if t.id !in tunnels { return NoRow; }
      if exists i | i in tunnels :: i != t.id && tunnels[i].name == t.name { return Conflict; }
      tunnels := tunnels[t.id := t.(createdAt := tunnels[t.id].createdAt)];
      return Done;
    }

    method DeleteTunnel(id: TunnelId) returns (o: Outcome)
      modifies this, env
      ensures env.E() == old(env.E()).Next()
      ensures (D(), o) == if old(env.E()).Breaking() then (old(D()), Broken) else old(D()).DeleteTunnel(id)
    {
      var fault := env.Next();
      if fault.AllFails? { return Broken; }
      if id !in tunnels { return NoRow; }
      tunnels := tunnels - {id};
      return Done;
    }

    method GetTunnel(id: TunnelId) returns (o: Outcome, row: Option<Tunnel>)
      modifies env
      ensures env.E() == old(env.E()).Next()
      ensures D() == old(D())
      ensures o == (if old(env.E()).Breaking() then Broken else if id in tunnels then Done else NoRow)
      ensures row == if o.Done? then Some(tunnels[id]) else None
    {
      var fault := env.Next();
      if fault.AllFails? { return Broken, None; }
      if id !in tunnels { return NoRow, None; }
      return Done, Some(tunnels[id]);
    }

    method ListTunnels() returns (o: Outcome, rows: seq<Tunnel>)
      modifies env
      ensures env.E() == old(env.E()).Next()
      ensures D() == old(D())
      ensures o == if old(env.E()).Breaking() then Broken else Done
      ensures D().Valid() && o.Done? ==> D().IsListing(rows)
      ensures o.Broken? ==> rows == []
    {
      var fault := env.Next();
      rows := [];
      if fault.AllFails? { return Broken, rows; }
      var todo := tunnels.Keys;
      while todo != {}
        invariant todo <= tunnels.Keys
        invariant env.E() == old(env.E()).Next()
        invariant D().Valid() ==>
          && (forall i | 0 <= i < |rows| ::
                rows[i].id in tunnels && rows[i].id !in todo && tunnels[rows[i].id] == rows[i])
          && (forall i, j | 0 <= i < j < |rows| :: rows[i].id != rows[j].id)
        invariant forall id | id in tunnels :: id in todo || tunnels[id] in rows
        decreases todo
      {
        var id :| id in todo;
        rows := rows + [tunnels[id]];
        todo := todo - {id};
      }
      return Done, rows;
    }

    method CreateOperation(op: Operation) returns (o: Outcome)
      modifies this, env
      ensures env.E() == old(env.E()).Next()
      ensures (D(), o) == if old(env.E()).Breaking() then (old(D()), Broken) else old(D()).CreateOperation(op)
    {
      var fault := env.Next();
      if fault.AllFails? { return Broken; }
      ops := ops + [op];
      return Done;
    }

    /** What was queued for the tunnel runs; every other operation, and every other field, stays. */
    method MarkOperationsRunning(id: TunnelId) returns (o: Outcome)
      modifies this, env
      ensures env.E() == old(env.E()).Next()
      ensures (D(), o) == if old(env.E()).Breaking() then (old(D()), Broken) else old(D()).MarkOperationsRunning(id)
      ensures tunnels == old(tunnels) && |ops| == |old(ops)|
      ensures forall i | 0 <= i < |ops| ::
        || ops[i] == old(ops)[i]
        || (ops[i] == old(ops)[i].(status := Running) && old(ops)[i].resource == id && old(ops)[i].status.Queued?)
      ensures o.Done? ==> forall i | 0 <= i < |ops| && ops[i].resource == id :: !ops[i].status.Queued?
    {
      var fault := env.Next();
      if fault.AllFails? { return Broken; }
      for i := 0 to |ops|
        invariant |ops| == |old(ops)| && env.E() == old(env.E()).Next() && tunnels == old(tunnels)
        invariant forall j | 0 <= j < |ops| :: ops[j] == if j < i then RunningOp(old(ops)[j], id) else old(ops)[j]
      {
        if ops[i].resource == id && ops[i].status.Queued? {
          ops := ops[i := ops[i].(status := Running)];
        }
      }
      assert ops == old(D()).MarkOperationsRunning(id).0.ops;
      return Done;
    }

    /** What was open for the tunnel has ended, in one way and at one time; nothing else moves. */
    method CompleteOperations(id: TunnelId, status: Status, message: Message, now: nat) returns (o: Outcome)
      modifies this, env
      ensures env.E() == old(env.E()).Next()
      ensures (D(), o) == if old(env.E()).Breaking() then (old(D()), Broken)
                          else old(D()).CompleteOperations(id, status, message, now)
      ensures tunnels == old(tunnels) && |ops| == |old(ops)|
      ensures forall i | 0 <= i < |ops| ::
        || ops[i] == old(ops)[i]
        || (ops[i] == old(ops)[i].(status := status, message := message, finishedAt := Some(now))
            && old(ops)[i].resource == id && old(ops)[i].Open())
      ensures o.Done? && (status.Success? || status.Failed?) ==>
        forall i | 0 <= i < |ops| && ops[i].resource == id :: !ops[i].Open()
    {
      var fault := env.Next();
      if fault.AllFails? { return Broken; }
      for i := 0 to |ops|
        invariant |ops| == |old(ops)| && env.E() == old(env.E()).Next() && tunnels == old(tunnels)
        invariant forall j | 0 <= j < |ops| ::
          ops[j] == if j < i then CompletedOp(old(ops)[j], id, status, message, now) else old(ops)[j]
      {
        if ops[i].resource == id && ops[i].Open() {
          ops := ops[i := ops[i].(status := status, message := message, finishedAt := Some(now))];
        }
      }
      assert ops == old(D()).CompleteOperations(id, status, message, now).0.ops;
      return Done;
    }

    method RequeueRunning() returns (o: Outcome)
      modifies this, env
      ensures env.E() == old(env.E()).Next()
      ensures (D(), o) == if old(env.E()).Breaking() then (old(D()), Broken) else old(D()).RequeueRunning()
      ensures tunnels == old(tunnels) && |ops| == |old(ops)|
      ensures forall i | 0 <= i < |ops| ::
        || ops[i] == old(ops)[i]
        || (ops[i] == old(ops)[i].(status := Queued) && old(ops)[i].status.Running?)
      ensures o.Done? ==> forall i | 0 <= i < |ops| :: !ops[i].status.Running?
    {
      var fault := env.Next();
      if fault.AllFails? { return Broken; }
      for i := 0 to |ops|
        invariant |ops| == |old(ops)| && env.E() == old(env.E()).Next() && tunnels == old(tunnels)
        invariant forall j | 0 <= j < |ops| :: ops[j] == if j < i then RequeuedOp(old(ops)[j]) else old(ops)[j]
      {
        if ops[i].status.Running? { ops := ops[i := ops[i].(status := Queued)]; }
      }
      assert ops == old(D()).RequeueRunning().0.ops;
      return Done;
    }

    method ClearRetries() returns (o: Outcome)
      modifies this, env
      ensures env.E() == old(env.E()).Next()
      ensures (D(), o) == if old(env.E()).Breaking() then (old(D()), Broken) else old(D()).ClearRetries()
    {
      var fault := env.Next();
      if fault.AllFails? { return Broken; }
      tunnels := map i | i in tunnels :: tunnels[i].(retryAt := None);
      return Done;
    }

    /** Two statements; the second is not reached when the first breaks. */
    method RequeueInterruptedOperations() returns (o: Outcome)
      modifies this, env
      ensures env.E().plan == old(env.E()).plan
      ensures old(env.E()).Breaking() ==> env.E() == old(env.E()).Next() && o == Broken && D() == old(D())
      ensures !old(env.E()).Breaking() ==>
        && env.E() == old(env.E()).Next().Next()
        && (D(), o) == if old(env.E()).Next().Breaking() then (old(D()).RequeueRunning().0, Broken)
                       else old(D()).RequeueRunning().0.ClearRetries()
      ensures o.Done? ==>
        && (forall i | 0 <= i < |ops| :: !ops[i].status.Running?)
        && (forall id | id in tunnels :: tunnels[id].retryAt.None?)
    {
      o := RequeueRunning();
      if o.Broken? { return; }
      o := ClearRetries();
    }
  }
}
