/** The handlers that edit desired state, with their validation and their answers. */
module Api {
  import opened Domain
  import opened Kernel
  import opened Provider
  import opened Healing
  import opened Goal
  import opened Store

  // ---------- validation ----------

  predicate IsLetter(c: char) { 'a' <= c <= 'z' || 'A' <= c <= 'Z' }
  predicate IsNameChar(c: char) { IsLetter(c) || '0' <= c <= '9' || c == '_' || c == '-' }

  predicate ValidName(name: Name) {
    1 <= |name| <= 15 && IsLetter(name[0]) && forall c | c in name :: IsNameChar(c)
  }

  function Validate(input: TunnelInput): Err {
    if !ValidName(input.name) then Some("name must be 1-15 characters: letters, digits, _ or -")
    else if input.local.Garbage? then Some("invalid local endpoint")
    else if input.remote.Garbage? || input.remote == input.local then Some("invalid remote endpoint")
    else if input.address.BadCidr? then Some("invalid tunnel address")
    else if input.mtu != 0 && (input.mtu < 576 || input.mtu > 9000) then Some("mtu must be between 576 and 9000")
    else if input.ttl != 0 && (input.ttl < 1 || input.ttl > 255) then Some("ttl must be between 1 and 255")
    else None
  }

  function Defaulted(input: TunnelInput): TunnelInput {
    input.(mtu := if input.mtu == 0 then 1476 else input.mtu, ttl := if input.ttl == 0 then 255 else input.ttl)
  }

  /** The characters of interface names, told one by one. */
  predicate NameFits(name: Name) {
    && 1 <= |name| <= 15
    && ('a' <= name[0] <= 'z' || 'A' <= name[0] <= 'Z')
    && forall i | 0 <= i < |name| ::
        var c := name[i];
        'a' <= c <= 'z' || 'A' <= c <= 'Z' || '0' <= c <= '9' || c == '_' || c == '-'
  }

  /** An interface name, two different addresses for its ends, and an address in CIDR form. */
  predicate Proper(name: Name, local: IPText, remote: IPText, address: CidrText) {
    NameFits(name) && !local.Garbage? && !remote.Garbage? && local != remote && !address.BadCidr?
  }

  /** What a request must be like; zero asks for the default. */
  predicate ProperRequest(asked: TunnelInput) {
    && asked.typ.Gre? && Proper(asked.name, asked.local, asked.remote, asked.address)
    && (asked.mtu == 0 || 576 <= asked.mtu <= 9000) && (asked.ttl == 0 || 1 <= asked.ttl <= 255)
  }

  lemma NameFitsIff(name: Name)
    ensures ValidName(name) <==> NameFits(name)
  {
    if ValidName(name) {
      forall i | 0 <= i < |name| ensures IsNameChar(name[i]) { assert name[i] in name; }
    }
  }

  lemma ValidateIff(input: TunnelInput)
    ensures input.typ.Gre? && Validate(input).None? <==> ProperRequest(input)
    ensures input.typ.Gre? && Validate(Defaulted(input)).None? <==> ProperRequest(input)
  {
    hide ValidName, NameFits;
    NameFitsIff(input.name);
  }

  /** A row as a request makes it. */
  predicate Acceptable(t: Tunnel) {
    InBounds(t) && t.typ.Gre? && Proper(t.name, t.local, t.remote, t.address)
  }

  /** The bounds the TTL cast and the MTU setter rely on. */
  predicate InBounds(t: Tunnel) { 576 <= t.mtu <= 9000 && 1 <= t.ttl <= 255 }

  // ---------- rows ----------

  function NewRow(input: TunnelInput, id: TunnelId, now: nat): Tunnel {
    Tunnel(id, input.name, input.typ, input.local, input.remote, input.address, input.peerAddress,
           input.mtu, input.ttl, input.description, input.masquerade, Enabled, Pending, "", 0, None, now, now)
  }

  function ImportedRow(item: Discovered, cidr: CidrText, id: TunnelId, now: nat): Tunnel {
    Tunnel(id, item.name, Gre, item.local, item.remote, cidr, BLANK,
           item.mtu, item.ttl, "", false, Enabled, Pending, "", 0, None, now, now)
  }

  /** Every edit makes the row due at once. */
  function Touched(t: Tunnel, now: nat): Tunnel {
    t.(actual := Pending, lastError := "", failureCount := 0, retryAt := None, updatedAt := now)
  }

  function EditedRow(t: Tunnel, input: TunnelInput, now: nat): Tunnel {
    Touched(t.(name := input.name, typ := input.typ, local := input.local, remote := input.remote,
               address := input.address, peerAddress := input.peerAddress, mtu := input.mtu, ttl := input.ttl,
               description := input.description, masquerade := input.masquerade), now)
  }

  function NewOperation(id: TunnelId, action: string, message: string, now: nat): Operation {
    Operation(action, id, Queued, Text(message), now, None)
  }

  /** The log is as before, or one queued operation for the tunnel longer. */
  ghost predicate LogGrows(ops: seq<Operation>, ops': seq<Operation>, id: TunnelId) {
    || ops' == ops
    || (|ops'| == |ops| + 1 && ops'[..|ops|] == ops
        && ops'[|ops|].resource == id && ops'[|ops|].status.Queued? && ops'[|ops|].finishedAt.None?)
  }

  /** What a handler may do: its own row, one operation, and nothing on the host. */
  ghost predicate HandlerFrame(w: World, w': World, id: TunnelId) {
    && w'.kern == w.kern.(env := w'.kern.env) && w.kern.env.Before(w'.kern.env)
    && w'.db.tunnels - {id} == w.db.tunnels - {id}
    && (w.db.Valid() ==> w'.db.Valid())
    && LogGrows(w.db.ops, w'.db.ops, id)
  }

  // ---------- handlers ----------

  function Logged(w: World, id: TunnelId, action: string, message: string): (w': World)
    ensures w'.kern == w.kern.Tick() && w'.db.tunnels == w.db.tunnels
    ensures LogGrows(w.db.ops, w'.db.ops, id)
    ensures !w.kern.env.Breaking() ==> |w'.db.ops| == |w.db.ops| + 1
  {
    w.Execute(w.db.CreateOperation(NewOperation(id, action, message, w.Now()))).0
  }

  /** The row written, and if that worked the operation logged; its own failure is ignored. */
  function Saved(
      w: World, r: (Db, Outcome), id: TunnelId, action: string, message: string,
      ok: int, refused: int): (s: (World, int))
    requires ok != refused && r.0.ops == w.db.ops && (!r.1.Done? ==> r.0 == w.db)
    requires r.0.tunnels - {id} == w.db.tunnels - {id}
    requires w.db.Valid() ==> r.0.Valid()
    ensures HandlerFrame(w, s.0, id)
    ensures s.1 != ok ==> s.0.db == w.db
    ensures s.1 == ok ==> r.1.Done? && s.0.db.tunnels == r.0.tunnels
  {
    var (w1, o) := w.Execute(r);
    if !o.Done? then (w1, refused) else (Logged(w1, id, action, message), ok)
  }

  /** A row written back by a handler that read it. */
  function Resaved(w: World, row: Tunnel, action: string, message: string, ok: int, refused: int): (s: (World, int))
    requires ok != refused
    ensures HandlerFrame(w, s.0, row.id)
    ensures s.1 in [ok, refused] && (s.1 == refused ==> s.0.db == w.db)
    ensures s.1 == ok ==>
      && row.id in w.db.tunnels && row.id in s.0.db.tunnels
      && s.0.db.tunnels[row.id] == row.(createdAt := w.db.tunnels[row.id].createdAt)
  {
    Saved(w, w.db.UpdateTunnel(row), row.id, action, message, ok, refused)
  }

  function TunnelCreated(w: World, raw: TunnelInput, id: TunnelId): (r: (World, int))
    ensures HandlerFrame(w, r.0, id)
    ensures r.1 != 201 ==> r.0.db == w.db
    ensures r.1 == 201 ==>
      && id !in w.db.tunnels && id in r.0.db.tunnels
      && InBounds(r.0.db.tunnels[id]) && r.0.db.tunnels[id].retryAt.None?
  {
    var input := Defaulted(raw);
    if !raw.typ.Gre? then (w, 400)
    else if Validate(input).Some? then (w, 400)
    else
      var (k, found) := w.kern.LinkByName(input.name);
      var w1 := w.(kern := k);
      if found.Ok? then (w1, 409)
      else if input.peerAddress != BLANK && input.peerAddress.Parse().None? then (w1, 400)
      else Saved(w1, w1.db.CreateTunnel(NewRow(input, id, w1.Now())), id, "create_tunnel",
                 "desired state saved; waiting for reconciliation", 201, 409)
  }

  function Fetched(w: World, id: TunnelId): (World, int) {
    var w1 := w.(kern := w.kern.Tick());
    if w.kern.env.Breaking() then (w1, 500)
    else if id !in w.db.tunnels then (w1, 404)
    else if w.db.tunnels[id].desired.Deleted? then (w1, 409)
    else (w1, 200)
  }

  function TunnelUpdated(w: World, id: TunnelId, raw: TunnelInput): (r: (World, int))
    requires id in w.db.tunnels ==> w.db.tunnels[id].id == id
    ensures HandlerFrame(w, r.0, id)
    ensures r.1 != 200 ==> r.0.db == w.db
    ensures r.1 == 200 ==>
      && id in w.db.tunnels && id in r.0.db.tunnels && !w.db.tunnels[id].desired.Deleted?
      && InBounds(r.0.db.tunnels[id]) && r.0.db.tunnels[id].name == raw.name
      && r.0.db.tunnels[id].desired == w.db.tunnels[id].desired && r.0.db.tunnels[id].retryAt.None?
  {
    var (w1, code) := Fetched(w, id);
    if code != 200 then (w1, code)
    else
      var input := Defaulted(raw);
      if !raw.typ.Gre? then (w1, 400)
      else if Validate(input).Some? then (w1, 400)
      else Resaved(w1, EditedRow(w1.db.tunnels[id], input, w1.Now()), "update_tunnel",
                   "desired state updated; waiting for reconciliation", 200, 409)
  }

  function TunnelDeleted(w: World, id: TunnelId): (r: (World, int))
    requires id in w.db.tunnels ==> w.db.tunnels[id].id == id
    ensures HandlerFrame(w, r.0, id)
    ensures r.1 != 202 ==> r.0.db == w.db
    ensures r.1 == 202 ==>
      && id in w.db.tunnels && id in r.0.db.tunnels && r.0.db.tunnels[id].desired.Deleted?
      && r.0.db.tunnels[id].name == w.db.tunnels[id].name && r.0.db.tunnels[id].retryAt.None?
  {
    var (w1, code) := Fetched(w, id);
    if code != 200 then (w1, code)
    else
      var row := Touched(w1.db.tunnels[id].(desired := Deleted), w1.Now());
      Resaved(w1, row, "delete_tunnel", "tunnel removal queued", 202, 500)
  }

  function StateSet(w: World, id: TunnelId, state: Desired): (r: (World, int))
    requires id in w.db.tunnels ==> w.db.tunnels[id].id == id
    requires !state.Deleted?
    ensures HandlerFrame(w, r.0, id)
    ensures r.1 != 200 ==> r.0.db == w.db
    ensures r.1 == 200 ==>
      && id in w.db.tunnels && id in r.0.db.tunnels && !w.db.tunnels[id].desired.Deleted?
      && r.0.db.tunnels[id].desired == state
      && r.0.db.tunnels[id].name == w.db.tunnels[id].name && r.0.db.tunnels[id].retryAt.None?
  {
    var (w1, code) := Fetched(w, id);
    if code != 200 then (w1, code)
    else
      var row := Touched(w1.db.tunnels[id].(desired := state), w1.Now());
      Resaved(w1, row, if state.Enabled? then "enabled_tunnel" else "disabled_tunnel",
            "desired state updated; waiting for reconciliation", 200, 500)
  }

  function FindItem(items: seq<Discovered>, name: Name): (r: Option<Discovered>)
    ensures r.Some? ==> r.value in items && r.value.name == name
    ensures r.None? ==> forall item | item in items :: item.name != name
  {
    if items == [] then None
    else if items[0].name == name then Some(items[0])
    else FindItem(items[1..], name)
  }

  /** The second half of an import: the row first, then the link's alias, undone if that fails. */
  function AdoptedRow(w: World, t: Tunnel): (World, int) {
    var (w1, o) := w.Execute(w.db.CreateTunnel(t));
    if !o.Done? then (w1, 409)
    else
      var (k, err) := Adopted(w1.kern, t.name, Marker(t.id));
      var w2 := w1.(kern := k);
      if err.Some? then (w2.Execute(w2.db.DeleteTunnel(t.id)).0, 400)
      else (Logged(w2, t.id, "import_tunnel", "existing GRE interface adopted; waiting for reconciliation"), 201)
  }

  datatype Pick = Refuse(code: int) | Take(row: Tunnel)

  /** The first half: find the link in a listing, and make its row if it qualifies. */
  function Picked(w: World, name: Name, id: TunnelId, order: seq<Name>): (World, Pick)
    requires forall n | n in order :: n in w.kern.links
  {
    var (k1, ok) := w.kern.LinkList();
    if !ok then (w.(kern := k1), Refuse(500))
    else
      var (k2, items) := DiscoveredFrom(k1, order);
      var w2 := w.(kern := k2);
      var found := FindItem(items, name);
      if found.None? then (w2, Refuse(404))
      else if !(PREFIX <= found.value.alias) then (w2, Refuse(409))
      else if found.value.address.None? then (w2, Refuse(409))
      else
        var w3 := w2.(kern := w2.kern.Tick());
        if w2.kern.env.Breaking() then (w3, Refuse(500))
        else (w3, Take(ImportedRow(found.value, found.value.address.value, id, w3.Now())))
  }

  function Imported(w: World, name: Name, id: TunnelId, order: seq<Name>): (World, int)
    requires forall n | n in order :: n in w.kern.links
  {
    var (w1, pick) := Picked(w, name, id, order);
    match pick
    case Refuse(code) => (w1, code)
    case Take(row) => AdoptedRow(w1, row)
  }

  // ---------- import does not disturb ----------

  /** The row says of the link what the link is. */
  predicate Mirrors(t: Tunnel, link: Link) {
    && link.gre && t.local.Parse() == link.local && t.remote.Parse() == link.remote
    && t.ttl == link.ttl && t.mtu == link.mtu
    && link.addrs != [] && t.address == Cidr4(link.addrs[0].ip, link.addrs[0].prefix)
  }

  lemma ImportMirrors(w: World, name: Name, id: TunnelId, order: seq<Name>)
    requires forall n | n in order :: n in w.kern.links
    requires Imported(w, name, id, order).1 == 201
    ensures
      var w1 := Imported(w, name, id, order).0;
      && name in w.kern.links && name in w1.kern.links && id in w1.db.tunnels
      && w1.db.tunnels[id].id == id && w1.db.tunnels[id].name == name && w1.db.tunnels[id].desired.Enabled?
      && Mirrors(w1.db.tunnels[id], w.kern.links[name])
      && w1.kern.links[name] == w.kern.links[name].(alias := Marker(id))
      && PREFIX <= w.kern.links[name].alias
  {
    hide DiscoveredFrom, OwnershipMarked, LinkFrame;
  }

  /** Reconciling an owned link the row mirrors: the same interface, whatever fails. */
  lemma MirrorKept(k: Kern, t: Tunnel)
    requires t.name in k.links && k.links[t.name].alias == Marker(t.id) && Mirrors(t, k.links[t.name])
    ensures
      var link := k.links[t.name];
      var (k', err) := Reconciled(k, t);
      && Keeps(k, t) && t.name in k'.links
      && k'.links[t.name] == link.(addrs := k'.links[t.name].addrs, up := k'.links[t.name].up)
      && (err.None? ==> AddressIs(k'.links[t.name].addrs, t.address))
  {
    hide Foreign, Configured, AddressIs, Created;
    var (k1, got) := Acquire(k, t);
    if got.Ready? {
      ConfigureTunes(k1, t);
      if Reconciled(k, t).1.None? { SuccessIsTruthful(k, t); }
    }
  }

  /**
    An import that answers 201 stored what the link already is: under every plan the first
    reconcile keeps the interface and its index, endpoints, TTL and MTU, and when it succeeds the
    first address found is the address.
  */
  lemma ImportKeepsLink(w: World, name: Name, id: TunnelId, order: seq<Name>, later: Env)
    requires forall n | n in order :: n in w.kern.links
    requires Imported(w, name, id, order).1 == 201
    ensures
      var w1 := Imported(w, name, id, order).0;
      && name in w.kern.links && id in w1.db.tunnels && w.kern.links[name].addrs != []
      && var link := w.kern.links[name];
      var (k', err) := Reconciled(w1.kern.(env := later), w1.db.tunnels[id]);
      && name in k'.links
      && k'.links[name].index == link.index && k'.links[name].alias == Marker(id)
      && k'.links[name].local == link.local && k'.links[name].remote == link.remote
      && k'.links[name].ttl == link.ttl && k'.links[name].mtu == link.mtu
      && (err.None? ==> AddressIs(k'.links[name].addrs, Cidr4(link.addrs[0].ip, link.addrs[0].prefix)))
  {
    hide Imported, Reconciled, AddressIs;
    ImportMirrors(w, name, id, order);
    var w1 := Imported(w, name, id, order).0;
    MirrorKept(w1.kern.(env := later), w1.db.tunnels[id]);
  }

  /** The row goes in, the adoption fails, and the delete that is to undo the row breaks. */
  predicate LeavesRow(w: World, t: Tunnel) {
    && !w.kern.env.Breaking() && t.id !in w.db.tunnels && !w.db.NameTaken(t.name, t.id)
    && var (k, err) := Adopted(w.kern.Tick(), t.name, Marker(t.id));
    && err.Some? && k.env.Breaking()
  }

  /** An import that answers otherwise leaves the tables as they were, except in exactly that case. */
  lemma FailedImportLeavesTableIff(w: World, name: Name, id: TunnelId, order: seq<Name>)
    requires forall n | n in order :: n in w.kern.links
    requires Imported(w, name, id, order).1 != 201
    ensures
      var w' := Imported(w, name, id, order).0;
      var (w1, pick) := Picked(w, name, id, order);
      && (w'.db != w.db <==> pick.Take? && LeavesRow(w1, pick.row))
      && (w'.db != w.db ==> id !in w.db.tunnels && w'.db == w.db.(tunnels := w.db.tunnels[id := pick.row]))
  {
    hide DiscoveredFrom, Describes, AdoptedRow, LeavesRow;
    var (w1, pick) := Picked(w, name, id, order);
    if pick.Take? { FailedAdoptionLeavesTableIff(w1, pick.row); }
  }

  lemma FailedAdoptionLeavesTableIff(w: World, t: Tunnel)
    requires AdoptedRow(w, t).1 != 201
    ensures var w' := AdoptedRow(w, t).0;
      && (w'.db != w.db <==> LeavesRow(w, t))
      && (w'.db != w.db ==> t.id !in w.db.tunnels && w'.db == w.db.(tunnels := w.db.tunnels[t.id := t]))
  {
    hide Adopted, LinkFrame;
    var (w1, o) := w.Execute(w.db.CreateTunnel(t));
    if o.Done? {
      assert w1.db.tunnels - {t.id} == w.db.tunnels;
      assert w1.db.tunnels != w.db.tunnels;
    }
  }

  // ---------- the handlers themselves ----------

  class Server {
    const store: SQLiteStore
    const host: Host
    const env: Environment

    constructor (store: SQLiteStore, host: Host)
      requires store.env == host.env
      ensures this.store == store && this.host == host && Wired()
    {
      this.store, this.host, this.env := store, host, host.env;
    }

    predicate Wired() { store.env == env && host.env == env }

    function W(): World
      requires Wired()
      reads store, host, env
    {
      World(host.K(), store.D())
    }

    method LogOperation(id: TunnelId, action: string, message: string)
      requires Wired()
      modifies store, env
      ensures W() == Logged(old(W()), id, action, message)
    {
      var _ := store.CreateOperation(Operation(action, id, Queued, Text(message), env.now, None));
    }

    /** The defaults, then the provider's validation. */
    method Admit(raw: TunnelInput) returns (ok: bool, input: TunnelInput)
      ensures input == Defaulted(raw)
      ensures ok <==> raw.typ.Gre? && Validate(input).None?
    {
      input := raw;
      if input.mtu == 0 { input := input.(mtu := 1476); }
      if input.ttl == 0 { input := input.(ttl := 255); }
      ok := input.typ.Gre? && Validate(input).None?;
    }

    method CreateTunnel(raw: TunnelInput, id: TunnelId) returns (code: int)
      requires Wired()
      modifies store, env
      ensures (W(), code) == TunnelCreated(old(W()), raw, id)
    {
      hide Db.CreateTunnel, Validate, Db.Valid, LogGrows, HandlerFrame, InBounds;
      var admitted, input := Admit(raw);
      if !admitted { return 400; }
      var found := host.LinkByName(input.name);
      if found.Ok? { return 409; }
      if input.peerAddress != BLANK && input.peerAddress.Parse().None? { return 400; }
      var o := store.CreateTunnel(NewRow(input, id, env.now));
      if !o.Done? { return 409; }
      LogOperation(id, "create_tunnel", "desired state saved; waiting for reconciliation");
      return 201;
    }

    method Fetch(id: TunnelId) returns (code: int, row: Option<Tunnel>)
      requires Wired()
      modifies env
      ensures (W(), code) == Fetched(old(W()), id)
      ensures code == 200 ==> id in store.tunnels && row == Some(store.tunnels[id])
    {
      var o, found := store.GetTunnel(id);
      if o.NoRow? { return 404, None; }
      if found.None? { return 500, None; }
      if found.value.desired.Deleted? { return 409, None; }
      return 200, found;
    }

    method UpdateTunnel(id: TunnelId, raw: TunnelInput) returns (code: int)
      requires Wired() && (id in store.tunnels ==> store.tunnels[id].id == id)
      modifies store, env
      ensures (W(), code) == TunnelUpdated(old(W()), id, raw)
    {
      hide Db.UpdateTunnel, Validate, Db.Valid, LogGrows, HandlerFrame, InBounds;
      var row;
      code, row := Fetch(id);
      if code != 200 { return; }
      var admitted, input := Admit(raw);
      if !admitted { return 400; }
      var current := row.value;
      current := current.(name := input.name, typ := input.typ, local := input.local, remote := input.remote);
      current := current.(address := input.address, peerAddress := input.peerAddress, mtu := input.mtu);
      current := current.(ttl := input.ttl, description := input.description, masquerade := input.masquerade);
      current := current.(actual := Pending, lastError := "", failureCount := 0, retryAt := None, updatedAt := env.now);
      var o := store.UpdateTunnel(current);
      if !o.Done? { return 409; }
      LogOperation(id, "update_tunnel", "desired state updated; waiting for reconciliation");
      return 200;
    }

    method DeleteTunnel(id: TunnelId) returns (code: int)
      requires Wired() && (id in store.tunnels ==> store.tunnels[id].id == id)
      modifies store, env
      ensures (W(), code) == TunnelDeleted(old(W()), id)
    {
      hide Db.UpdateTunnel;
      var row;
      code, row := Fetch(id);
      if code != 200 { return; }
      var t := row.value.(desired := Deleted);
      t := t.(actual := Pending, lastError := "", failureCount := 0, retryAt := None, updatedAt := env.now);
      var o := store.UpdateTunnel(t);
      if !o.Done? { return 500; }
      LogOperation(id, "delete_tunnel", "tunnel removal queued");
      return 202;
    }

    method SetTunnelState(id: TunnelId, state: Desired) returns (code: int)
      requires Wired() && (id in store.tunnels ==> store.tunnels[id].id == id) && !state.Deleted?
      modifies store, env
      ensures (W(), code) == StateSet(old(W()), id, state)
    {
      hide Db.UpdateTunnel;
      var row;
      code, row := Fetch(id);
      if code != 200 { return; }
      var t := row.value.(desired := state);
      t := t.(actual := Pending, lastError := "", failureCount := 0, retryAt := None, updatedAt := env.now);
      var o := store.UpdateTunnel(t);
      if !o.Done? { return 500; }
      LogOperation(id, if state.Enabled? then "enabled_tunnel" else "disabled_tunnel",
                   "desired state updated; waiting for reconciliation");
      return 200;
    }

    method ImportInterface(name: Name, id: TunnelId) returns (code: int, ghost order: seq<Name>)
      requires Wired()
      modifies store, host, env
      ensures forall n | n in order :: n in old(host.links)
      ensures old(host.K()).LinkList().1 ==> ListsLinks(order, old(host.links))
      ensures (W(), code) == Imported(old(W()), name, id, order)
    {
      hide DiscoveredFrom, Describes, Adopted, ListsLinks;
      var ok, items, listed := Discover(host);
      order := listed;
      if !ok { return 500, order; }
      var found: Option<Discovered> := None;
      var i := 0;
      while i < |items| && found.None?
        invariant 0 <= i <= |items|
        invariant FindItem(items, name) == if found.Some? then found else FindItem(items[i..], name)
      {
        assert items[i..][1..] == items[i + 1..];
        if items[i].name == name { found := Some(items[i]); }
        i := i + 1;
      }
      if found.None? { return 404, order; }
      if !(PREFIX <= found.value.alias) { return 409, order; }
      if found.value.address.None? { return 409, order; }
      var o, _ := store.ListTunnels();
      if o.Broken? { return 500, order; }
      var t := ImportedRow(found.value, found.value.address.value, id, env.now);
      o := store.CreateTunnel(t);
      if !o.Done? { return 409, order; }
      var err := Adopt(host, name, Marker(t.id));
      if err.Some? {
        o := store.DeleteTunnel(t.id);
        return 400, order;
      }
      LogOperation(t.id, "import_tunnel", "existing GRE interface adopted; waiting for reconciliation");
      return 201, order;
    }
  }
}
