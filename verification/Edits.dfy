/**
  From a request to the host: what a handler accepted, one fault-free controller step makes so,
  stated in the terms of the request and not of the row in between.
*/
module Edits {
  import opened Domain
  import opened Kernel
  import opened Provider
  import opened Healing
  import opened Goal
  import opened Store
  import opened Controller
  import opened Frames
  import opened Api
  import opened Truth
  import opened QuietSteps
  import opened Runs
  import opened Limits

  /** The host has what the request asked for, under the tunnel's marker. */
  ghost predicate Granted(k: Kern, id: TunnelId, asked: TunnelInput, on: bool) {
    && asked.name in k.links && k.egress.Some?
    && var link := k.links[asked.name];
    && link.gre && link.alias == Marker(id) && link.up == on
    && link.local == asked.local.Parse() && link.remote == asked.remote.Parse()
    && link.ttl == (if asked.ttl == 0 then 255 else asked.ttl)
    && link.mtu == (if asked.mtu == 0 then 1476 else asked.mtu)
    && AddressIs(link.addrs, asked.address)
    && (MarkIngress(asked.name, Marker(id)) in k.rules <==> on && asked.masquerade)
    && (Masquerade(k.egress.value, Marker(id)) in k.rules <==> on && asked.masquerade)
    && LegacyMasquerade(asked.name, Marker(id)) !in k.rules
  }

  /** The row holds the request, with its defaults, and is due. */
  predicate Records(t: Tunnel, id: TunnelId, asked: TunnelInput) {
    && t.id == id && t.typ == asked.typ && t.name == asked.name
    && t.local == asked.local && t.remote == asked.remote && t.address == asked.address
    && t.peerAddress == asked.peerAddress && t.description == asked.description && t.masquerade == asked.masquerade
    && t.mtu == (if asked.mtu == 0 then 1476 else asked.mtu) && t.ttl == (if asked.ttl == 0 then 255 else asked.ttl)
    && Acceptable(t) && t.actual.Pending? && t.failureCount == 0 && t.retryAt.None? && t.lastError == ""
  }

  /** The statement that logs is the last of a handler: one queued operation more, unless it broke. */
  ghost predicate Logs(w: World, w': World, id: TunnelId, action: string, message: string) {
    var ops, ops', e := w.db.ops, w'.db.ops, w'.kern.env;
    if e.LastBroke() then ops' == ops
    else
      && |ops'| == |ops| + 1 && ops'[..|ops|] == ops
      && ops'[|ops|] == Operation(action, id, Queued, Text(message), ops'[|ops|].createdAt, None)
      && ops'[|ops|].createdAt == e.Began(1)
  }

  lemma WorkingStoreLogs(w: World, w': World, id: TunnelId, action: string, message: string)
    requires Logs(w, w', id, action, message) && w.kern.env.StoreWorks() && w.kern.env.Before(w'.kern.env)
    requires w.kern.env.pos < w'.kern.env.pos
    ensures exists at: nat :: w'.db.ops == w.db.ops + [Operation(action, id, Queued, Text(message), at, None)]
  {
    var ops, ops' := w.db.ops, w'.db.ops;
    var at := ops'[|ops|].createdAt;
    assert ops' == ops + [Operation(action, id, Queued, Text(message), at, None)];
  }

  const SAVED: string := "desired state saved; waiting for reconciliation"
  const UPDATED: string := "desired state updated; waiting for reconciliation"
  const IMPORTED: string := "existing GRE interface adopted; waiting for reconciliation"

  /** What each answer of a create means, with nothing failing; checked in this order. */
  function CreateAnswer(w: World, asked: TunnelInput, id: TunnelId): int {
    if !ProperRequest(asked) then 400
    else if asked.name in w.kern.links then 409
    else if asked.peerAddress != BLANK && asked.peerAddress.Parse().None? then 400
    else if w.db.NameTaken(asked.name, id) then 409
    else 201
  }

  /** An accepted create stores the request and logs it; with nothing failing the answer is as told. */
  lemma CreateStores(w: World, raw: TunnelInput, id: TunnelId)
    ensures var (w', code) := TunnelCreated(w, raw, id);
      && (code == 201 ==>
        && id in w'.db.tunnels && Records(w'.db.tunnels[id], id, raw)
        && w'.db.tunnels[id].desired.Enabled? && Logs(w, w', id, "create_tunnel", SAVED)
        && w'.db.tunnels[id].createdAt == w'.db.tunnels[id].updatedAt == w'.kern.env.Began(2))
      && (w.kern.env.Quiet() && id !in w.db.tunnels ==> code == CreateAnswer(w, raw, id))
  {
    hide TunnelCreated, Records, Logs, ProperRequest, Db.NameTaken;
    if TunnelCreated(w, raw, id).1 == 201 { CreateRecords(w, raw, id); }
    if w.kern.env.Quiet() && id !in w.db.tunnels { CreateAnswers(w, raw, id); }
  }

  lemma CreateRecords(w: World, raw: TunnelInput, id: TunnelId)
    requires TunnelCreated(w, raw, id).1 == 201
    ensures var w' := TunnelCreated(w, raw, id).0;
      && id in w'.db.tunnels && Records(w'.db.tunnels[id], id, raw)
      && w'.db.tunnels[id].desired.Enabled? && Logs(w, w', id, "create_tunnel", SAVED)
      && w'.db.tunnels[id].createdAt == w'.db.tunnels[id].updatedAt == w'.kern.env.Began(2)
  {
    hide HandlerFrame, Validate, Proper, Db.NameTaken, Env.Began, Env.LastBroke;
    ValidateIff(raw);
    BeganNext(w.kern.env.Next());
    BeganNext(w.kern.env.Next().Next());
  }

  lemma CreateAnswers(w: World, raw: TunnelInput, id: TunnelId)
    requires w.kern.env.Quiet() && id !in w.db.tunnels
    ensures TunnelCreated(w, raw, id).1 == CreateAnswer(w, raw, id)
  {
    hide HandlerFrame, LogGrows, Validate, ProperRequest, InBounds;
    ValidateIff(raw);
    QuietLater(w.kern.env, w.kern.env);
    QuietLater(w.kern.env, w.kern.env.Next());
  }

  /** What the answer of a handler for a stored tunnel is when it cannot get at the tunnel. */
  function FetchAnswer(w: World, id: TunnelId, ok: int): int {
    if id !in w.db.tunnels then 404 else if w.db.tunnels[id].desired.Deleted? then 409 else ok
  }

  function UpdateAnswer(w: World, asked: TunnelInput, id: TunnelId): int {
    FetchAnswer(w, id, if !ProperRequest(asked) then 400 else if w.db.NameTaken(asked.name, id) then 409 else 200)
  }

  /** An update keeps what the input cannot say: the id, the desired state, the creation time. */
  lemma UpdateStores(w: World, id: TunnelId, raw: TunnelInput)
    requires w.db.Valid()
    ensures var (w', code) := TunnelUpdated(w, id, raw);
      && (code == 200 ==>
        && id in w.db.tunnels && id in w'.db.tunnels && Records(w'.db.tunnels[id], id, raw)
        && w'.db.tunnels[id].desired == w.db.tunnels[id].desired
        && w'.db.tunnels[id].createdAt == w.db.tunnels[id].createdAt
        && w'.db.tunnels[id].updatedAt == w'.kern.env.Began(2)
        && Logs(w, w', id, "update_tunnel", UPDATED))
      && (code == 500 <==> w.kern.env.Breaking())
      && (code == 404 ==> id !in w.db.tunnels) && (code == 400 ==> !ProperRequest(raw))
      && code in [200, 400, 404, 409, 500]
      && (w.kern.env.Quiet() ==> code == UpdateAnswer(w, raw, id))
  {
    hide TunnelUpdated, Records, Logs, ProperRequest, Db.NameTaken;
    if TunnelUpdated(w, id, raw).1 == 200 { UpdateRecords(w, id, raw); }
    UpdateAnswers(w, id, raw);
  }

  lemma UpdateRecords(w: World, id: TunnelId, raw: TunnelInput)
    requires w.db.Valid() && TunnelUpdated(w, id, raw).1 == 200
    ensures var w' := TunnelUpdated(w, id, raw).0;
      && id in w.db.tunnels && id in w'.db.tunnels && Records(w'.db.tunnels[id], id, raw)
      && w'.db.tunnels[id].desired == w.db.tunnels[id].desired
      && w'.db.tunnels[id].createdAt == w.db.tunnels[id].createdAt
      && w'.db.tunnels[id].updatedAt == w'.kern.env.Began(2)
      && Logs(w, w', id, "update_tunnel", UPDATED)
  {
    hide HandlerFrame, Db.Valid, Db.NameTaken, Validate, Proper, Env.Began, Env.LastBroke;
    BeganNext(w.kern.env.Next());
    BeganNext(w.kern.env.Next().Next());
    if id in w.db.tunnels { RowUnderItsId(w.db, id); }
    ValidateIff(raw);
  }

  lemma UpdateAnswers(w: World, id: TunnelId, raw: TunnelInput)
    requires w.db.Valid()
    ensures var code := TunnelUpdated(w, id, raw).1;
      && (code == 500 <==> w.kern.env.Breaking())
      && (code == 404 ==> id !in w.db.tunnels) && (code == 400 ==> !ProperRequest(raw))
      && code in [200, 400, 404, 409, 500]
      && (w.kern.env.Quiet() ==> code == UpdateAnswer(w, raw, id))
  {
    hide HandlerFrame, Db.Valid, Db.NameTaken, Validate, InBounds, LogGrows, ProperRequest;
    if id in w.db.tunnels { RowUnderItsId(w.db, id); }
    ValidateIff(raw);
    if w.kern.env.Quiet() {
      QuietLater(w.kern.env, w.kern.env);
      QuietLater(w.kern.env, w.kern.env.Next());
    }
  }

  function StateAction(state: Desired): string {
    match state
    case Deleted => "delete_tunnel"
    case Enabled => "enabled_tunnel"
    case Disabled => "disabled_tunnel"
  }

  /** A delete or a change of state touches the desired state and the outcome fields, and nothing else. */
  lemma StateChangeStores(w: World, id: TunnelId, state: Desired)
    requires w.db.Valid()
    ensures
      var (w', code) := if state.Deleted? then TunnelDeleted(w, id) else StateSet(w, id, state);
      var ok := if state.Deleted? then 202 else 200;
      && (code == ok ==>
        && id in w.db.tunnels && id in w'.db.tunnels
        && w'.db.tunnels[id] == w.db.tunnels[id].(
             desired := state, actual := Pending, lastError := "", failureCount := 0, retryAt := None,
             updatedAt := w'.db.tunnels[id].updatedAt)
        && w'.db.tunnels[id].updatedAt == w'.kern.env.Began(2)
        && Logs(w, w', id, StateAction(state), if state.Deleted? then "tunnel removal queued" else UPDATED))
      && (w.kern.env.Breaking() ==> code == 500)
      && (code == 404 ==> id !in w.db.tunnels)
      && (code == 409 ==> id in w.db.tunnels && w.db.tunnels[id].desired.Deleted?)
      && code in [ok, 404, 409, 500]
      && (w.kern.env.Quiet() ==> code == FetchAnswer(w, id, ok))
  {
    hide TunnelDeleted, StateSet, Logs;
    if state.Deleted? { DeleteStores(w, id); } else { StateStores(w, id, state); }
  }

  lemma DeleteStores(w: World, id: TunnelId)
    requires w.db.Valid()
    ensures
      var (w', code) := TunnelDeleted(w, id);
      && (code == 202 ==>
        && id in w.db.tunnels && id in w'.db.tunnels
        && w'.db.tunnels[id] == w.db.tunnels[id].(
             desired := Deleted, actual := Pending, lastError := "", failureCount := 0, retryAt := None,
             updatedAt := w'.db.tunnels[id].updatedAt)
        && w'.db.tunnels[id].updatedAt == w'.kern.env.Began(2)
        && Logs(w, w', id, "delete_tunnel", "tunnel removal queued"))
      && (w.kern.env.Breaking() ==> code == 500)
      && (code == 404 ==> id !in w.db.tunnels)
      && (code == 409 ==> id in w.db.tunnels && w.db.tunnels[id].desired.Deleted?)
      && code in [202, 404, 409, 500]
      && (w.kern.env.Quiet() ==> code == FetchAnswer(w, id, 202))
  {
    hide HandlerFrame, Db.Valid, Env.Began, Env.LastBroke;
    BeganNext(w.kern.env.Next());
    BeganNext(w.kern.env.Next().Next());
    if id in w.db.tunnels { RowUnderItsId(w.db, id); }
    if w.kern.env.Quiet() {
      QuietLater(w.kern.env, w.kern.env);
      QuietLater(w.kern.env, w.kern.env.Next());
    }
  }

  lemma StateStores(w: World, id: TunnelId, state: Desired)
    requires w.db.Valid() && !state.Deleted?
    ensures
      var (w', code) := StateSet(w, id, state);
      && (code == 200 ==>
        && id in w.db.tunnels && id in w'.db.tunnels
        && w'.db.tunnels[id] == w.db.tunnels[id].(
             desired := state, actual := Pending, lastError := "", failureCount := 0, retryAt := None,
             updatedAt := w'.db.tunnels[id].updatedAt)
        && w'.db.tunnels[id].updatedAt == w'.kern.env.Began(2)
        && Logs(w, w', id, StateAction(state), UPDATED))
      && (w.kern.env.Breaking() ==> code == 500)
      && (code == 404 ==> id !in w.db.tunnels)
      && (code == 409 ==> id in w.db.tunnels && w.db.tunnels[id].desired.Deleted?)
      && code in [200, 404, 409, 500]
      && (w.kern.env.Quiet() ==> code == FetchAnswer(w, id, 200))
  {
    hide HandlerFrame, Db.Valid, Env.Began, Env.LastBroke;
    BeganNext(w.kern.env.Next());
    BeganNext(w.kern.env.Next().Next());
    if id in w.db.tunnels { RowUnderItsId(w.db, id); }
    if w.kern.env.Quiet() {
      QuietLater(w.kern.env, w.kern.env);
      QuietLater(w.kern.env, w.kern.env.Next());
    }
  }

  /** A row that records a request, and a step that succeeds without faults: the host has it. */
  lemma RecordsGrants(w: World, t: Tunnel, asked: TunnelInput)
    requires Records(t, t.id, asked) && !t.desired.Deleted?
    requires FullyApplied(w, t)
    ensures Granted(w.kern, t.id, asked, t.desired.Enabled?)
  {
  }

  /** The world as it stands, with another plan ahead. */
  function Ahead(w: World, later: Env): World { w.(kern := w.kern.(env := later)) }

  lemma StepGrants(w: World, t: Tunnel, asked: TunnelInput)
    requires w.db.Valid() && t.id in w.db.tunnels && w.db.tunnels[t.id] == t && t.typ.Gre?
    requires Records(t, t.id, asked) && !t.desired.Deleted?
    requires w.kern.env.Quiet() && Achievable(w.kern, t) && NoDoubles(w.kern.rules, t, w.kern.egress.value)
    ensures ReconcileOne(w, t).1 == Settled(true)
    ensures Granted(ReconcileOne(w, t).0.kern, t.id, asked, t.desired.Enabled?)
  {
    hide ReconcileOne, Achievable, NoDoubles, FullyApplied, Granted;
    QuietVerdict(w, t);
    assert w.kern.egress.Some? by { AchievableHasEgress(w.kern, t); }
    QuietSuccessIsFull(w, t);
    RecordsGrants(ReconcileOne(w, t).0, t, asked);
  }

  lemma AchievableHasEgress(k: Kern, t: Tunnel)
    requires Achievable(k, t)
    ensures k.egress.Some?
  {
  }

  /** An accepted create, then one fault-free step: the host has what was asked. */
  lemma CreateReachesHost(w: World, raw: TunnelInput, id: TunnelId, later: Env)
    requires w.db.Valid() && TunnelCreated(w, raw, id).1 == 201 && later.Quiet()
    requires var w1 := TunnelCreated(w, raw, id).0;
      id in w1.db.tunnels && Achievable(w1.kern, w1.db.tunnels[id])
      && NoDoubles(w1.kern.rules, w1.db.tunnels[id], w1.kern.egress.value)
    ensures var w1 := TunnelCreated(w, raw, id).0;
      var (w2, v) := ReconcileOne(Ahead(w1, later), w1.db.tunnels[id]);
      v == Settled(true) && Granted(w2.kern, id, raw, true)
  {
    hide TunnelCreated, ReconcileOne, Achievable, NoDoubles, Granted, LogGrows, RequiresRecreate;
    CreateStores(w, raw, id);
    var w1 := TunnelCreated(w, raw, id).0;
    AchievableAhead(w1.kern, later, w1.db.tunnels[id]);
    TypeAccepted(w, raw, id);
    StepGrants(Ahead(w1, later), w1.db.tunnels[id], raw);
  }

  lemma TypeAccepted(w: World, raw: TunnelInput, id: TunnelId)
    ensures TunnelCreated(w, raw, id).1 == 201 ==> raw.typ.Gre?
    ensures (id in w.db.tunnels ==> w.db.tunnels[id].id == id) && TunnelUpdated(w, id, raw).1 == 200 ==> raw.typ.Gre?
  {
    hide HandlerFrame, Validate, Db.CreateTunnel, Db.UpdateTunnel;
  }

  lemma AchievableAhead(k: Kern, later: Env, t: Tunnel)
    requires Achievable(k, t)
    ensures Achievable(k.(env := later), t)
  {
  }

  /** An accepted update, then one fault-free step: the host has what was asked, up or down as before. */
  lemma UpdateReachesHost(w: World, id: TunnelId, raw: TunnelInput, later: Env)
    requires w.db.Valid() && TunnelUpdated(w, id, raw).1 == 200 && later.Quiet()
    requires var w1 := TunnelUpdated(w, id, raw).0;
      id in w1.db.tunnels && Achievable(w1.kern, w1.db.tunnels[id])
      && NoDoubles(w1.kern.rules, w1.db.tunnels[id], w1.kern.egress.value)
    ensures var w1 := TunnelUpdated(w, id, raw).0;
      var (w2, v) := ReconcileOne(Ahead(w1, later), w1.db.tunnels[id]);
      id in w.db.tunnels && v == Settled(true) && Granted(w2.kern, id, raw, w.db.tunnels[id].desired.Enabled?)
  {
    hide TunnelUpdated, ReconcileOne, Achievable, NoDoubles, Granted, LogGrows, RequiresRecreate;
    UpdateStores(w, id, raw);
    var w1 := TunnelUpdated(w, id, raw).0;
    AchievableAhead(w1.kern, later, w1.db.tunnels[id]);
    TypeAccepted(w, raw, id);
    StepGrants(Ahead(w1, later), w1.db.tunnels[id], raw);
  }

  // ---------- import ----------

  /** A GRE link both of whose endpoints are set, and not to the unspecified address. */
  predicate RealEnds(link: Link) {
    && link.gre
    && link.local.Some? && link.local.value != IPv4(0) && link.local.value != IPv6(0)
    && link.remote.Some? && link.remote.value != IPv4(0) && link.remote.value != IPv6(0)
  }

  /** A listing has exactly the links with both endpoints set, each once it was met. */
  lemma {:induction false} DiscoveredExactly(k: Kern, names: seq<Name>, n: Name)
    requires forall x | x in names :: x in k.links
    ensures var items := DiscoveredFrom(k, names).1;
      && ((exists item | item in items :: item.name == n) <==> n in names && RealEnds(k.links[n]))
      && (k.env.Quiet() ==> forall item | item in items :: item.address.Some? <==> k.links[item.name].addrs != [])
    decreases |names|
  {
    hide Describes, Visible, RealEnds;
    if names != [] {
      var (k1, first) := DiscoverOne(k, names[0]);
      var (k2, rest) := DiscoveredFrom(k1, names[1..]);
      DiscoveredExactly(k1, names[1..], n);
      OneDiscovered(k, names[0]);
      if k.env.Quiet() { QuietLater(k.env, k1.env); }
      assert n in names <==> n == names[0] || n in names[1..];
      if item :| item in first + rest && item.name == n { assert item in first || item in rest; }
      if item :| item in first && item.name == n { assert item in first + rest; }
      if item :| item in rest && item.name == n { assert item in first + rest; }
    }
  }

  lemma OneDiscovered(k: Kern, name: Name)
    requires name in k.links
    ensures var items := DiscoverOne(k, name).1;
      && (forall item | item in items :: item.name == name)
      && (items != [] <==> RealEnds(k.links[name]))
      && (k.env.Quiet() ==> forall item | item in items :: item.address.Some? <==> k.links[name].addrs != [])
  {
    if k.env.Quiet() { QuietLater(k.env, k.env); }
  }

  /** What qualifies for import: a tunnel of two real ends that was managed before and has an address. */
  predicate Importable(link: Link) {
    RealEnds(link) && "mikrotunnel:" <= link.alias && link.addrs != []
  }

  /** What each answer of an import means, with nothing failing. */
  function ImportAnswer(w: World, name: Name, id: TunnelId): int {
    if name !in w.kern.links || !RealEnds(w.kern.links[name]) then 404
    else if !Importable(w.kern.links[name]) || w.db.NameTaken(name, id) then 409
    else 201
  }

  /** Faults aside, an import is accepted exactly for such a link whose name no other row has. */
  lemma ImportAcceptsIff(w: World, name: Name, id: TunnelId, order: seq<Name>)
    requires ListsLinks(order, w.kern.links)
    requires w.kern.env.Quiet() && id !in w.db.tunnels
    ensures Imported(w, name, id, order).1 == ImportAnswer(w, name, id)
    ensures Imported(w, name, id, order).1 == 201 <==>
      name in w.kern.links && Importable(w.kern.links[name]) && !w.db.NameTaken(name, id)
  {
    hide DiscoveredFrom, AdoptedRow, Db.NameTaken;
    QuietLater(w.kern.env, w.kern.env);
    var k1 := w.kern.LinkList().0;
    QuietLater(w.kern.env, k1.env);
    DiscoveredExactly(k1, order, name);
    var (k2, items) := DiscoveredFrom(k1, order);
    QuietLater(w.kern.env, k2.env);
    QuietLater(w.kern.env, k2.env.Next());
    var found := FindItem(items, name);
    if found.Some? && found.value.address.Some? && PREFIX <= found.value.alias {
      var w3 := w.(kern := k2.Tick());
      QuietAdoption(w3, ImportedRow(found.value, found.value.address.value, id, w3.Now()));
    }
  }

  /** An import answers 500 exactly if the links could not be listed or the store could not be read. */
  lemma ImportBroken(w: World, name: Name, id: TunnelId, order: seq<Name>)
    requires forall n | n in order :: n in w.kern.links
    ensures var (w1, pick) := Picked(w, name, id, order);
      && (w.kern.env.Failing() ==> pick == Refuse(500))
      && (pick == Refuse(500) ==> w.kern.env.Failing() || w1.kern.env.LastBroke())
      && (pick.Take? ==> !w1.kern.env.LastBroke())
      && (Imported(w, name, id, order).1 == 500 <==> pick == Refuse(500))
  {
    hide DiscoveredFrom, Describes, Adopted, LogGrows;
  }

  lemma QuietAdoption(w: World, t: Tunnel)
    requires w.kern.env.Quiet() && t.id !in w.db.tunnels
    requires t.name in w.kern.links && w.kern.links[t.name].gre && PREFIX <= w.kern.links[t.name].alias
    ensures AdoptedRow(w, t).1 == if w.db.NameTaken(t.name, t.id) then 409 else 201
  {
    hide OwnershipMarked, Db.NameTaken, LogGrows;
    QuietLater(w.kern.env, w.kern.env);
    var w1 := w.Execute(w.db.CreateTunnel(t)).0;
    QuietLater(w.kern.env, w1.kern.env);
    var k2 := w1.kern.LinkByName(t.name).0;
    QuietLater(w.kern.env, k2.env);
    QuietMark(k2, t.name, Marker(t.id));
  }

  /** The row of an import: what the link is, and of all that a link does not say, nothing. */
  predicate Adopts(t: Tunnel, name: Name, id: TunnelId, link: Link) {
    && t.id == id && t.name == name && t.typ.Gre? && Mirrors(t, link)
    && t.peerAddress == BLANK && t.description == "" && !t.masquerade
    && t.desired.Enabled? && t.actual.Pending? && t.lastError == "" && t.failureCount == 0 && t.retryAt.None?
  }

  /** An accepted import stores the link as it is, without masquerading, and logs the request. */
  lemma ImportStores(w: World, name: Name, id: TunnelId, order: seq<Name>)
    requires forall n | n in order :: n in w.kern.links
    requires Imported(w, name, id, order).1 == 201
    ensures var w' := Imported(w, name, id, order).0;
      && name in w.kern.links && id in w'.db.tunnels
      && Adopts(w'.db.tunnels[id], name, id, w.kern.links[name])
      && w.Now() <= w'.db.tunnels[id].createdAt == w'.db.tunnels[id].updatedAt <= w'.Now()
      && Logs(w, w', id, "import_tunnel", IMPORTED)
  {
    hide DiscoveredFrom, AdoptedRow, Logs;
    var (w1, pick) := Picked(w, name, id, order);
    AdoptionLogs(w1, pick.row);
    LogsSince(w, w1, AdoptedRow(w1, pick.row).0, id, "import_tunnel", IMPORTED);
    assert PREFIX == "mikrotunnel:";
  }

  lemma LogsSince(w: World, w1: World, w': World, id: TunnelId, action: string, message: string)
    requires w1.db == w.db && Logs(w1, w', id, action, message)
    ensures Logs(w, w', id, action, message)
  {
  }

  lemma AdoptionLogs(w: World, t: Tunnel)
    requires AdoptedRow(w, t).1 == 201
    ensures var w' := AdoptedRow(w, t).0;
      && t.id in w'.db.tunnels && w'.db.tunnels[t.id] == t && w.Now() <= w'.Now()
      && Logs(w, w', t.id, "import_tunnel", IMPORTED)
  {
    hide Adopted, LogGrows, Env.Began, Env.LastBroke;
    var w1 := w.Execute(w.db.CreateTunnel(t)).0;
    var k := Adopted(w1.kern, t.name, Marker(t.id)).0;
    BeganNext(k.env);
  }

  /**
    An accepted import and one fault-free step: the very interface that was found, now under the
    tunnel's marker and up, its endpoints, TTL, MTU and first address as they were, and none of
    the tunnel's rules on the host.
  */
  lemma ImportReachesHost(w: World, name: Name, id: TunnelId, order: seq<Name>, later: Env)
    requires forall n | n in order :: n in w.kern.links
    requires w.db.Valid() && Imported(w, name, id, order).1 == 201 && later.Quiet()
    requires var w1 := Imported(w, name, id, order).0;
      && w1.kern.egress.Some? && id in w1.db.tunnels
      && NoDoubles(w1.kern.rules, w1.db.tunnels[id], w1.kern.egress.value)
    ensures
      var w1 := Imported(w, name, id, order).0;
      var (w2, v) := ReconcileOne(Ahead(w1, later), w1.db.tunnels[id]);
      && v == Settled(true) && name in w.kern.links && w.kern.links[name].addrs != []
      && name in w2.kern.links && w2.kern.egress.Some?
      && var was, link := w.kern.links[name], w2.kern.links[name];
      && link == was.(alias := Marker(id), up := true, addrs := link.addrs)
      && AddressIs(link.addrs, Cidr4(was.addrs[0].ip, was.addrs[0].prefix))
      && MarkIngress(name, Marker(id)) !in w2.kern.rules
      && Masquerade(w2.kern.egress.value, Marker(id)) !in w2.kern.rules
      && LegacyMasquerade(name, Marker(id)) !in w2.kern.rules
  {
    hide Imported, ReconcileOne, NoDoubles, AddressIs, Logs, Foreign, AllSucceeded, GoalRules, LogGrows;
    ImportStores(w, name, id, order);
    ImportMirrors(w, name, id, order);
    ImportKeepsTable(w, name, id, order);
    var w1 := Imported(w, name, id, order).0;
    var u, t := Ahead(w1, later), w1.db.tunnels[id];
    QuietVerdict(u, t);
    QuietApply(u, t);
    QuietSuccessIsFull(u, t);
  }

  lemma ImportKeepsTable(w: World, name: Name, id: TunnelId, order: seq<Name>)
    requires forall n | n in order :: n in w.kern.links
    requires w.db.Valid()
    ensures Imported(w, name, id, order).0.db.Valid()
  {
    hide Imported, LogGrows, Db.Valid;
    ImportFrame(w, name, id, order);
  }
}
