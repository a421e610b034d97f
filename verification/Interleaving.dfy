/**
  The store under every interleaving. Handlers and the controller run at once, each reading a row,
  holding it for any time, and writing the whole row back; here every store statement is a step of
  its own, in any order, from any snapshot ever read. What survives that, and what does not.
*/
module Interleaving {
  import opened Domain
  import opened Kernel
  import opened Provider
  import opened Store
  import opened Controller
  import opened Api

  /** The tables, every row anybody has read so far, the ids handed out, and which were imports. */
  datatype Net = Net(db: Db, seen: set<Tunnel>, issued: set<TunnelId>, imports: set<TunnelId>)

  datatype Act =
    | Read(id: TunnelId)
    | MarkWrite(t: Tunnel, state: Actual, message: string, now: nat)
    | FailWrite(t: Tunnel, message: string, failedAt: nat, now: nat)
    | EditWrite(t: Tunnel, input: TunnelInput, now: nat)
    | DeleteWrite(t: Tunnel, now: nat)
    | StateWrite(t: Tunnel, on: bool, now: nat)
    | Insert(input: TunnelInput, id: TunnelId, now: nat)
    | InsertImport(item: Discovered, links: map<Name, Link>, id: TunnelId, now: nat)
    | DropRow(id: TunnelId)
    | LogOperation(id: TunnelId, action: string, message: string, now: nat)
    | RunOperations(id: TunnelId)
    | CloseOperations(id: TunnelId, success: bool, note: Message, now: nat)
    | RequeueOperations
    | ClearRetryTimes

  ghost predicate Permitted(n: Net, a: Act) {
    match a
    case MarkWrite(t, _, _, _) => t in n.seen
    case FailWrite(t, _, _, _) => t in n.seen
    case EditWrite(t, input, _) => t in n.seen && input.typ.Gre? && Validate(input).None?
    case DeleteWrite(t, _) => t in n.seen
    case StateWrite(t, _, _) => t in n.seen
    case Insert(input, id, _) => id !in n.issued && input.typ.Gre? && Validate(input).None?
    case InsertImport(item, links, id, _) => id !in n.issued && Describes(item, links) && item.address.Some?
    case _ => true
  }

  function Written(n: Net, row: Tunnel): Net {
    n.(db := n.db.UpdateTunnel(row).0)
  }

  /** What an act does. Filling in the defaults of an input twice changes nothing. */
  function After(n: Net, a: Act): Net
    requires Permitted(n, a)
  {
    match a
    case Read(id) => if id in n.db.tunnels then n.(seen := n.seen + {n.db.tunnels[id]}) else n
    case MarkWrite(t, state, message, now) => Written(n, MarkedRow(t, state, message, now))
    case FailWrite(t, message, failedAt, now) => Written(n, MarkedRow(FailedRow(t, failedAt), Error, message, now))
    case EditWrite(t, input, now) => Written(n, EditedRow(t, Defaulted(input), now))
    case DeleteWrite(t, now) => Written(n, Touched(t.(desired := Deleted), now))
    case StateWrite(t, on, now) => Written(n, Touched(t.(desired := if on then Enabled else Disabled), now))
    case Insert(input, id, now) =>
      n.(db := n.db.CreateTunnel(NewRow(Defaulted(input), id, now)).0, issued := n.issued + {id})
    case InsertImport(item, _, id, now) =>
      n.(db := n.db.CreateTunnel(ImportedRow(item, item.address.value, id, now)).0,
         issued := n.issued + {id}, imports := n.imports + {id})
    case DropRow(id) => n.(db := n.db.DeleteTunnel(id).0)
    case LogOperation(id, action, message, now) =>
      n.(db := n.db.CreateOperation(NewOperation(id, action, message, now)).0)
    case RunOperations(id) => n.(db := n.db.MarkOperationsRunning(id).0)
    case CloseOperations(id, success, note, now) =>
      n.(db := n.db.CompleteOperations(id, if success then Success else Failed, note, now).0)
    case RequeueOperations => n.(db := n.db.RequeueRunning().0)
    case ClearRetryTimes => n.(db := n.db.ClearRetries().0)
  }

  ghost predicate History(ns: seq<Net>, acts: seq<Act>) {
    && |ns| == |acts| + 1
    && forall i | 0 <= i < |acts| :: Permitted(ns[i], acts[i]) && ns[i + 1] == After(ns[i], acts[i])
  }

  // ---------- rows ----------

  /** Healthy means no failures and no retry; a retry time means a failure; the TTL fits a byte. */
  predicate RowOk(t: Tunnel, imports: set<TunnelId>) {
    && (t.actual.Up? || t.actual.Down? ==> t.failureCount == 0 && t.retryAt.None?)
    && (t.retryAt.Some? ==> t.failureCount >= 1) && t.failureCount >= 0
    && 0 <= t.ttl < 256
    && t.typ.Gre? && (t.id !in imports ==> Acceptable(t))
  }

  ghost predicate Lawful(n: Net) {
    && n.db.Valid()
    && (forall id | id in n.db.tunnels :: RowOk(n.db.tunnels[id], n.imports))
    && (forall t | t in n.seen :: RowOk(t, n.imports) && t.id in n.issued)
    && n.db.tunnels.Keys <= n.issued && n.imports <= n.issued
  }

  lemma ValidInBounds(input: TunnelInput)
    requires input.typ.Gre? && Validate(input).None?
    ensures 576 <= Defaulted(input).mtu <= 9000 && 1 <= Defaulted(input).ttl <= 255
    ensures Proper(input.name, input.local, input.remote, input.address)
  {
    ValidateIff(input);
  }

  lemma WriteKeepsLaw(n: Net, row: Tunnel)
    requires Lawful(n) && RowOk(row, n.imports)
    ensures Lawful(Written(n, row))
  {
  }

  lemma InsertKeepsLaw(n: Net, row: Tunnel, imports: set<TunnelId>)
    requires Lawful(n) && row.id !in n.issued && n.imports <= imports <= n.imports + {row.id} && RowOk(row, imports)
    ensures Lawful(Net(n.db.CreateTunnel(row).0, n.seen, n.issued + {row.id}, imports))
  {
    hide Acceptable;
    var db' := n.db.CreateTunnel(row).0;
    assert db'.Valid();
  }

  /** No interleaving breaks a row: stale write-backs, restarts and lost updates included. */
  lemma ActKeepsLaw(n: Net, a: Act)
    requires Lawful(n) && Permitted(n, a)
    ensures Lawful(After(n, a)) && n.issued <= After(n, a).issued
  {
    hide Lawful, RetryDelay, Validate, Db.Valid, Db.UpdateTunnel, Db.CreateTunnel;
    match a
    case Read(id) => ReadKeepsLaw(n, id);
    case MarkWrite(t, state, message, now) => SeenOk(n, t); WriteKeepsLaw(n, MarkedRow(t, state, message, now));
    case FailWrite(t, message, failedAt, now) =>
      SeenOk(n, t);
      WriteKeepsLaw(n, MarkedRow(FailedRow(t, failedAt), Error, message, now));
    case EditWrite(t, input, now) =>
      SeenOk(n, t);
      EditOk(t, input, now, n.imports);
      WriteKeepsLaw(n, EditedRow(t, Defaulted(input), now));
    case DeleteWrite(t, now) => SeenOk(n, t); WriteKeepsLaw(n, Touched(t.(desired := Deleted), now));
    case StateWrite(t, on, now) =>
      SeenOk(n, t);
      WriteKeepsLaw(n, Touched(t.(desired := if on then Enabled else Disabled), now));
    case Insert(input, id, now) =>
      NewOk(input, id, now, n.imports);
      InsertKeepsLaw(n, NewRow(Defaulted(input), id, now), n.imports);
    case InsertImport(item, _, id, now) =>
      InsertKeepsLaw(n, ImportedRow(item, item.address.value, id, now), n.imports + {id});
    case _ => OtherActsKeepLaw(n, a);
  }

  lemma SeenOk(n: Net, t: Tunnel)
    requires Lawful(n) && t in n.seen
    ensures RowOk(t, n.imports)
  {
  }

  lemma EditOk(t: Tunnel, input: TunnelInput, now: nat, imports: set<TunnelId>)
    requires input.typ.Gre? && Validate(input).None?
    ensures RowOk(EditedRow(t, Defaulted(input), now), imports)
  {
    ValidInBounds(input);
  }

  lemma NewOk(input: TunnelInput, id: TunnelId, now: nat, imports: set<TunnelId>)
    requires input.typ.Gre? && Validate(input).None?
    ensures RowOk(NewRow(Defaulted(input), id, now), imports)
  {
    ValidInBounds(input);
  }

  lemma ReadKeepsLaw(n: Net, id: TunnelId)
    requires Lawful(n)
    ensures Lawful(After(n, Read(id)))
  {
  }

  lemma DropKeepsLaw(n: Net, id: TunnelId)
    requires Lawful(n)
    ensures Lawful(n.(db := n.db.DeleteTunnel(id).0))
  {
  }

  lemma ClearKeepsLaw(n: Net)
    requires Lawful(n)
    ensures Lawful(n.(db := n.db.ClearRetries().0))
  {
  }

  lemma LogKeepsLaw(n: Net, db: Db)
    requires Lawful(n) && db.tunnels == n.db.tunnels
    ensures Lawful(n.(db := db))
  {
  }

  lemma OtherActsKeepLaw(n: Net, a: Act)
    requires Lawful(n) && Permitted(n, a)
    requires a.DropRow? || a.LogOperation? || a.RunOperations? || a.CloseOperations?
      || a.RequeueOperations? || a.ClearRetryTimes?
    ensures Lawful(After(n, a))
  {
    hide Lawful, RunningOp, CompletedOp, RequeuedOp, Db.DeleteTunnel, Db.ClearRetries;
    if a.DropRow? {
      DropKeepsLaw(n, a.id);
    } else if a.ClearRetryTimes? {
      ClearKeepsLaw(n);
    } else {
      LogKeepsLaw(n, After(n, a).db);
    }
  }

  /** In every history every row obeys the law and names stay distinct. */
  lemma {:induction false} HistoryIsLawful(ns: seq<Net>, acts: seq<Act>, j: nat)
    requires History(ns, acts) && j < |ns| && Lawful(ns[0])
    ensures Lawful(ns[j]) && ns[0].issued <= ns[j].issued
  {
    hide After, Permitted, Lawful;
    if j > 0 {
      HistoryIsLawful(ns, acts, j - 1);
      ActKeepsLaw(ns[j - 1], acts[j - 1]);
    }
  }

  /** So the provider's byte comparison of TTLs is the comparison of the stored numbers. */
  lemma TtlCastIsExact(ns: seq<Net>, acts: seq<Act>, j: nat, id: TunnelId, link: Link)
    requires History(ns, acts) && j < |ns| && Lawful(ns[0]) && id in ns[j].db.tunnels
    ensures link.ttl == Uint8(ns[j].db.tunnels[id].ttl) <==> link.ttl == ns[j].db.tunnels[id].ttl
  {
    hide History;
    HistoryIsLawful(ns, acts, j);
  }

  // ---------- removed rows ----------

  lemma ActMakesNoOldRow(n: Net, a: Act, id: TunnelId)
    requires Permitted(n, a) && id in n.issued && id !in n.db.tunnels
    ensures id !in After(n, a).db.tunnels
  {
    hide RetryDelay, Validate;
  }

  /** A removed id never comes back, whatever stale row is written. */
  lemma {:induction false} RemovedForGood(ns: seq<Net>, acts: seq<Act>, id: TunnelId, i: nat, j: nat)
    requires History(ns, acts) && Lawful(ns[0]) && i <= j < |ns|
    requires id in ns[i].issued
    requires id !in ns[i].db.tunnels
    ensures id !in ns[j].db.tunnels && id in ns[j].issued
    decreases j
  {
    hide After, Permitted, Lawful;
    if i < j {
      RemovedForGood(ns, acts, id, i, j - 1);
      HistoryIsLawful(ns, acts, j - 1);
      ActKeepsLaw(ns[j - 1], acts[j - 1]);
      ActMakesNoOldRow(ns[j - 1], acts[j - 1], id);
    }
  }

  // ---------- operations ----------

  /** An operation over any stretch of history: who it is never changes, an end is an end. */
  predicate Lives(o: Operation, o': Operation) {
    && o'.action == o.action && o'.resource == o.resource && o'.createdAt == o.createdAt
    && (if o.Open() then o'.Open() ==> o'.message == o.message else o' == o)
    && ((o.finishedAt.Some? <==> !o.Open()) ==> (o'.finishedAt.Some? <==> !o'.Open()))
  }

  ghost predicate LogLives(ops: seq<Operation>, ops': seq<Operation>, restarted: bool) {
    && |ops| <= |ops'|
    && (forall i | 0 <= i < |ops| ::
          Lives(ops[i], ops'[i]) && (!restarted && ops[i].status.Running? ==> !ops'[i].status.Queued?))
    && (forall i | |ops| <= i < |ops'| :: ops'[i].finishedAt.Some? <==> !ops'[i].Open())
  }

  lemma ActKeepsLog(n: Net, a: Act)
    requires Permitted(n, a)
    ensures LogLives(n.db.ops, After(n, a).db.ops, a.RequeueOperations?)
  {
    hide RetryDelay, Validate, MarkedRow, EditedRow, Db.NameTaken;
  }

  lemma LogLivesOn(a: seq<Operation>, b: seq<Operation>, c: seq<Operation>, r1: bool, r2: bool)
    requires LogLives(a, b, r1) && LogLives(b, c, r2)
    ensures LogLives(a, c, r1 || r2)
  {
    forall i | 0 <= i < |a| ensures Lives(a[i], c[i]) { assert Lives(a[i], b[i]) && Lives(b[i], c[i]); }
    forall i | |a| <= i < |c| ensures c[i].finishedAt.Some? <==> !c[i].Open() {
      if i < |b| { assert Lives(b[i], c[i]); }
    }
  }

  ghost predicate Restarts(acts: seq<Act>, i: nat, j: nat)
    requires i <= j <= |acts|
  {
    exists k | i <= k < j :: acts[k].RequeueOperations?
  }

  /** Over every history: the log only grows, and running turns queued only across a restart. */
  lemma {:induction false} LogOverHistory(ns: seq<Net>, acts: seq<Act>, i: nat, j: nat)
    requires History(ns, acts) && i <= j < |ns|
    ensures LogLives(ns[i].db.ops, ns[j].db.ops, Restarts(acts, i, j))
    decreases j
  {
    hide After, Permitted, LogLives;
    if i < j {
      LogOverHistory(ns, acts, i, j - 1);
      ActKeepsLog(ns[j - 1], acts[j - 1]);
      var before, last := Restarts(acts, i, j - 1), acts[j - 1].RequeueOperations?;
      LogLivesOn(ns[i].db.ops, ns[j - 1].db.ops, ns[j].db.ops, before, last);
      LogLivesLoosely(ns[i].db.ops, ns[j].db.ops, before || last, Restarts(acts, i, j));
    } else {
      LogLivesReflexive(ns[i].db.ops);
    }
  }

  lemma LogLivesLoosely(a: seq<Operation>, b: seq<Operation>, r: bool, r': bool)
    requires LogLives(a, b, r) && (r ==> r')
    ensures LogLives(a, b, r')
  {
  }

  lemma LogLivesReflexive(a: seq<Operation>)
    ensures LogLives(a, a, false)
  {
  }

  // ---------- what does not survive ----------

  /**
    The lost update. A write-back from a snapshot puts the snapshot's intent in place of whatever
    was stored meanwhile; so the stored intent survives exactly if the snapshot carries it too.
  */
  lemma LostUpdate(n: Net, t: Tunnel, state: Actual, message: string, now: nat)
    requires t in n.seen && n.db.Valid() && t.id in n.db.tunnels && !n.db.NameTaken(t.name, t.id)
    ensures
      var stored := n.db.tunnels[t.id];
      var after := After(n, MarkWrite(t, state, message, now)).db.tunnels[t.id];
      after.Intent() == stored.Intent() <==> t.(createdAt := stored.createdAt).Intent() == stored.Intent()
  {
  }

  /** A delete that lands between a pass's listing and its write-back is undone. */
  lemma DeleteCanBeUndone(n: Net, id: TunnelId, t1: nat, t2: nat)
    requires n.db.Valid() && id in n.db.tunnels && n.db.tunnels[id].desired.Enabled?
    ensures
      var row := n.db.tunnels[id];
      var n1 := After(n, Read(id));
      var n2 := After(n1, DeleteWrite(row, t1));
      var n3 := After(n2, MarkWrite(row, Up, "", t2));
      && id in n2.db.tunnels && n2.db.tunnels[id].desired.Deleted?
      && id in n3.db.tunnels && n3.db.tunnels[id].desired.Enabled?
  {
    assert !n.db.NameTaken(n.db.tunnels[id].name, id);
  }
}
