/**
  The host the provider acts on: links, addresses and firewall rules, and the primitives that
  change them. Every primitive, here and in the store, takes its outcome and its duration from a
  plan, so a statement about all plans is a statement about all failures at all moments.
*/
module Kernel {
  import opened Domain

  /**
    What the plan has for a primitive. `HostFails` fails it on the host and leaves a statement of
    the store alone; `AllFails` fails either. With `Unpersisted` netlink acknowledges an alias and
    drops it, when a link is made and when one is set; iproute2 keeps it. With `Unpersistable`
    iproute2 drops it too. Neither matters to any other primitive.
  */
  datatype Fault = Works | HostFails | AllFails | Unpersisted | Unpersistable {
    predicate Refuses() { HostFails? || AllFails? }
    predicate Drops() { Unpersisted? || Unpersistable? }

    /** No error, and the last resort for an alias does what it says. */
    predicate Serves() { Works? || Unpersisted? }
  }

  datatype Tick = Tick(fault: Fault, elapsed: nat)

  datatype Env = Env(plan: nat -> Tick, pos: nat, now: nat) {
    predicate Failing() { plan(pos).fault.Refuses() }
    predicate Breaking() { plan(pos).fault.AllFails? }
    predicate Dropping() { plan(pos).fault.Drops() }
    predicate DroppingAll() { plan(pos).fault.Unpersistable? }
    function Next(): Env { Env(plan, pos + 1, now + plan(pos).elapsed) }

    /** The time at which the n-th last primitive began. */
    function Began(n: nat): int {
      if n == 0 || pos < n then now else Began(n - 1) - plan(pos - n).elapsed
    }

    /** The last primitive called was a statement of the store that broke. */
    predicate LastBroke() { pos > 0 && plan(pos - 1).fault.AllFails? }

    ghost predicate Before(later: Env) {
      later.plan == plan && pos <= later.pos && now <= later.now
    }

    /** Nothing fails from here on; the kernel may still be one that drops aliases. */
    ghost predicate Quiet() {
      forall i: nat :: pos <= i ==> plan(i).fault.Serves()
    }

    /** The kernel is one that keeps aliases; anything may fail. */
    ghost predicate KeepsAliases() {
      forall i: nat :: pos <= i ==> !plan(i).fault.Drops()
    }

    /** Nothing fails before primitive n, nothing works from it on: the process dies there. */
    ghost predicate DiesAt(n: nat) {
      forall i: nat :: pos <= i ==>
        if n <= i then plan(i).fault.AllFails? else plan(i).fault.Serves()
    }

    /** No statement of the store breaks from here on; the host may do as it likes. */
    ghost predicate StoreWorks() {
      forall i: nat :: pos <= i ==> !plan(i).fault.AllFails?
    }
  }

  lemma BeganNext(e: Env)
    ensures e.Next().Began(1) == e.now && e.Next().Next().Began(1) == e.Next().now && e.Next().Next().Began(2) == e.now
    ensures e.Next().LastBroke() == e.Breaking()
  {
    var e2 := e.Next().Next();
    assert e2.Began(1) == e2.Began(0) - e2.plan(e2.pos - 1).elapsed;
    assert e2.Began(2) == e2.Began(1) - e2.plan(e2.pos - 2).elapsed;
  }

  /** An IPv4 address of a link; `tag` is its label, which `netlink.Addr.String` shows too. */
  datatype Address = Address(ip: nat, prefix: nat, tag: string)

  /** `index` is the kernel's interface index: a link made anew gets a new one. */
  datatype Link = Link(
    index: nat, gre: bool, local: Option<IP>, remote: Option<IP>, ttl: Byte, mtu: int,
    alias: string, up: bool, addrs: seq<Address>)
  {
    predicate SameTuple(other: Link) {
      gre && other.gre && local == other.local && remote == other.remote
    }
  }

  /** The rules the provider knows, each with the packet mark its comment's id determines. */
  datatype Rule =
    | MarkIngress(iface: Name, comment: string)
    | Masquerade(egress: Name, comment: string)
    | LegacyMasquerade(iface: Name, comment: string)
    | Unrelated(text: string)
  {
    predicate Carries(marker: string) { !Unrelated? && comment == marker }
  }

  datatype Reply<+T> = Ok(value: T) | NotFound | Exists | Failure

  function RemoveFirst<T(==)>(s: seq<T>, x: T): seq<T> {
    if s == [] then []
    else if s[0] == x then s[1..]
    else [s[0]] + RemoveFirst(s[1..], x)
  }

  /** A new IPv4 address gets the link's name as its label; an IPv6 one is kept elsewhere. */
  function WithAddress(had: seq<Address>, cidr: CidrText, name: Name): seq<Address> {
    if cidr.Cidr4? && !(exists a | a in had :: a.ip == cidr.ip && a.prefix == cidr.prefix)
    then had + [Address(cidr.ip, cidr.prefix, name)]
    else had
  }

  datatype Kern = Kern(links: map<Name, Link>, rules: seq<Rule>, nextIndex: nat, egress: Option<Name>, env: Env) {
    function Tick(): Kern { this.(env := env.Next()) }

    function LinkByName(name: Name): (Kern, Reply<Link>) {
      (Tick(),
       if env.Failing() then Failure
       else if name in links then Ok(links[name])
       else NotFound)
    }

    function LinkList(): (Kern, bool) {
      (Tick(), !env.Failing())
    }

    predicate TupleTaken(link: Link) {
      exists n | n in links :: links[n].SameTuple(link)
    }

    /** Both a taken name and a taken (local, remote) tuple answer EEXIST. */
    function LinkAdd(name: Name, link: Link): (r: (Kern, Reply<()>))
      ensures r.0.links - {name} == links - {name}
    {
      if env.Failing() || link.local.None? || link.remote.None? then (Tick(), Failure)
      else if name in links || TupleTaken(link) then (Tick(), Exists)
      else
        var made := link.(index := nextIndex, alias := if env.Dropping() then "" else link.alias);
        (Tick().(links := links[name := made], nextIndex := nextIndex + 1), Ok(()))
    }

    function LinkDel(name: Name): (r: (Kern, bool))
      ensures r.0.links - {name} == links - {name}
    {
      if env.Failing() || name !in links then (Tick(), false)
      else (Tick().(links := links - {name}), true)
    }

    /** The shape of every setter: the named link becomes `link`, or the call fails. */
    function LinkSet(name: Name, link: Link): (r: (Kern, bool))
      ensures r.0.links - {name} == links - {name}
    {
      if env.Failing() || name !in links then (Tick(), false)
      else (Tick().(links := links[name := link]), true)
    }

    function LinkSetMTU(name: Name, mtu: int): (Kern, bool) {
      if name in links then LinkSet(name, links[name].(mtu := mtu)) else (Tick(), false)
    }

    function LinkSetAdmin(name: Name, up: bool): (Kern, bool) {
      if name in links then LinkSet(name, links[name].(up := up)) else (Tick(), false)
    }

    function LinkSetAlias(name: Name, alias: string): (Kern, bool) {
      if name !in links then (Tick(), false)
      else if env.Dropping() then (Tick(), true)
      else LinkSet(name, links[name].(alias := alias))
    }

    /** `ip link set dev ... alias ...` */
    function IPLinkSetAlias(name: Name, alias: string): (Kern, bool) {
      if name !in links then (Tick(), false)
      else if env.DroppingAll() then (Tick(), true)
      else LinkSet(name, links[name].(alias := alias))
    }

    function AddrList(name: Name): (Kern, Reply<seq<Address>>) {
      (Tick(), if env.Failing() || name !in links then Failure else Ok(links[name].addrs))
    }

    function AddrDel(name: Name, addr: Address): (Kern, bool) {
      if name in links && addr in links[name].addrs
      then LinkSet(name, links[name].(addrs := RemoveFirst(links[name].addrs, addr)))
      else (Tick(), false)
    }

    function AddrReplace(name: Name, cidr: CidrText): (Kern, bool) {
      if name in links then LinkSet(name, links[name].(addrs := WithAddress(links[name].addrs, cidr, name)))
      else (Tick(), false)
    }

    function DefaultRoute(): (Kern, Option<Name>) {
      (Tick(), if env.Failing() then None else egress)
    }

    function RuleCheck(rule: Rule): (Kern, bool) {
      (Tick(), !env.Failing() && rule in rules)
    }

    function RuleAppend(rule: Rule): (Kern, bool) {
      if env.Failing() then (Tick(), false) else (Tick().(rules := rules + [rule]), true)
    }

    function RuleDelete(rule: Rule): Kern {
      if env.Failing() then Tick() else Tick().(rules := RemoveFirst(rules, rule))
    }
  }

  /** The plan at run time, shared by the host and the store. */
  class Environment {
    const plan: nat -> Tick
    var pos: nat
    var now: nat

    constructor (plan: nat -> Tick, now: nat)
      ensures this.plan == plan && E() == Env(plan, 0, now)
    {
      this.plan, this.pos, this.now := plan, 0, now;
    }

    function E(): Env
      reads this
    {
      Env(plan, pos, now)
    }

    method Next() returns (fault: Fault)
      modifies this
      ensures E() == old(E()).Next() && fault == old(E()).plan(old(pos)).fault
    {
      var tick := plan(pos);
      pos, now := pos + 1, now + tick.elapsed;
      fault := tick.fault;
    }
  }

  /** The host, changed in place. */
  class Host {
    const env: Environment
    const egress: Option<Name>
    var links: map<Name, Link>
    var rules: seq<Rule>
    var nextIndex: nat

    constructor (env: Environment, links: map<Name, Link>, rules: seq<Rule>, nextIndex: nat, egress: Option<Name>)
      ensures this.env == env && K() == Kern(links, rules, nextIndex, egress, env.E())
    {
      this.env, this.egress := env, egress;
      this.links, this.rules, this.nextIndex := links, rules, nextIndex;
    }

    function K(): Kern
      reads this, env
    {
      Kern(links, rules, nextIndex, egress, env.E())
    }

    method LinkByName(name: Name) returns (r: Reply<Link>)
      modifies env
      ensures (K(), r) == old(K()).LinkByName(name)
    {
      var fault := env.Next();
      if fault.Refuses() {
        r := Failure;
      } else if name in links {
        r := Ok(links[name]);
      } else {
        r := NotFound;
      }
    }

    method LinkList() returns (ok: bool, names: set<Name>)
      modifies env
      ensures (K(), ok) == old(K()).LinkList()
      ensures names == links.Keys
    {
      var fault := env.Next();
      return !fault.Refuses(), links.Keys;
    }

    method LinkAdd(name: Name, link: Link) returns (r: Reply<()>)
      modifies this, env
      ensures (K(), r) == old(K()).LinkAdd(name, link)
    {
      var taken := exists n | n in links :: links[n].SameTuple(link);
      var fault := env.Next();
      if fault.Refuses() || link.local.None? || link.remote.None? {
        r := Failure;
      } else if name in links || taken {
        r := Exists;
      } else {
        var alias := if fault.Drops() then "" else link.alias;
        links := links[name := link.(index := nextIndex, alias := alias)];
        nextIndex := nextIndex + 1;
        r := Ok(());
      }
    }

    method LinkDel(name: Name) returns (ok: bool)
      modifies this, env
      ensures (K(), ok) == old(K()).LinkDel(name)
    {
      var fault := env.Next();
      ok := !fault.Refuses() && name in links;
      if ok { links := links - {name}; }
    }

    method LinkSetMTU(name: Name, mtu: int) returns (ok: bool)
      modifies this, env
      ensures (K(), ok) == old(K()).LinkSetMTU(name, mtu)
    {
      var fault := env.Next();
      ok := !fault.Refuses() && name in links;
      if ok { links := links[name := links[name].(mtu := mtu)]; }
    }

    method LinkSetAdmin(name: Name, up: bool) returns (ok: bool)
      modifies this, env
      ensures (K(), ok) == old(K()).LinkSetAdmin(name, up)
    {
      var fault := env.Next();
      ok := !fault.Refuses() && name in links;
      if ok { links := links[name := links[name].(up := up)]; }
    }

    method LinkSetAlias(name: Name, alias: string) returns (ok: bool)
      modifies this, env
      ensures (K(), ok) == old(K()).LinkSetAlias(name, alias)
    {
      var fault := env.Next();
      ok := !fault.Refuses() && name in links;
      if ok && !fault.Drops() { links := links[name := links[name].(alias := alias)]; }
    }

    method IPLinkSetAlias(name: Name, alias: string) returns (ok: bool)
      modifies this, env
      ensures (K(), ok) == old(K()).IPLinkSetAlias(name, alias)
    {
      var fault := env.Next();
      ok := !fault.Refuses() && name in links;
      if ok && !fault.Unpersistable? { links := links[name := links[name].(alias := alias)]; }
    }

    method AddrList(name: Name) returns (r: Reply<seq<Address>>)
      modifies env
      ensures (K(), r) == old(K()).AddrList(name)
    {
      var fault := env.Next();
      r := if fault.Refuses() || name !in links then Failure else Ok(links[name].addrs);
    }

    method AddrDel(name: Name, addr: Address) returns (ok: bool)
      modifies this, env
      ensures (K(), ok) == old(K()).AddrDel(name, addr)
    {
      var fault := env.Next();
      ok := !fault.Refuses() && name in links && addr in links[name].addrs;
      if ok { links := links[name := links[name].(addrs := RemoveFirst(links[name].addrs, addr))]; }
    }

    method AddrReplace(name: Name, cidr: CidrText) returns (ok: bool)
      modifies this, env
      ensures (K(), ok) == old(K()).AddrReplace(name, cidr)
    {
      var fault := env.Next();
      ok := !fault.Refuses() && name in links;
      if ok { links := links[name := links[name].(addrs := WithAddress(links[name].addrs, cidr, name))]; }
    }

    method DefaultRoute() returns (r: Option<Name>)
      modifies env
      ensures (K(), r) == old(K()).DefaultRoute()
    {
      var fault := env.Next();
      r := if fault.Refuses() then None else egress;
    }

    method RuleCheck(rule: Rule) returns (present: bool)
      modifies env
      ensures (K(), present) == old(K()).RuleCheck(rule)
    {
      var fault := env.Next();
      present := !fault.Refuses() && rule in rules;
    }

    method RuleAppend(rule: Rule) returns (ok: bool)
      modifies this, env
      ensures (K(), ok) == old(K()).RuleAppend(rule)
    {
      var fault := env.Next();
      ok := !fault.Refuses();
      if ok { rules := rules + [rule]; }
    }

    method RuleDelete(rule: Rule)
      modifies this, env
      ensures K() == old(K()).RuleDelete(rule)
    {
      var fault := env.Next();
      if !fault.Refuses() { rules := RemoveFirst(rules, rule); }
    }
  }
}
