/**
  Two full passes converge, even when tunnels swap or cycle their endpoints: the first pass frees
  every stale (local, remote) tuple, the second finds every target free.
*/
module Convergence {
  import opened Domain
  import opened Kernel
  import opened Provider
  import opened Healing
  import opened Goal
  import opened Store
  import opened Controller
  import opened Frames
  import opened QuietSteps

  /** Nothing stale under the tunnel's name: no link, or its own with the stored endpoints. */
  predicate Clean(k: Kern, t: Tunnel) {
    if t.desired.Deleted? then t.name !in k.links
    else t.name in k.links ==> k.links[t.name].alias == Marker(t.id) && !RequiresRecreate(k.links[t.name], t)
  }

  lemma QuietCreateMarks(k: Kern, t: Tunnel)
    requires k.env.Quiet() && t.name !in k.links
    ensures Clean(Created(k, t).0, t.(desired := Enabled))
  {
    QuietLater(k.env, k.env);
    var (k1, added) := k.LinkAdd(t.name, Fresh(0, t));
    QuietLater(k.env, k1.env);
    if added.Ok? {
      var k2 := k1.LinkByName(t.name).0;
      QuietLater(k.env, k2.env);
      QuietMark(k2, t.name, Marker(t.id));
    }
  }

  /** Even when its target is taken, a fault-free reconcile leaves nothing stale behind. */
  lemma QuietReconcileCleans(k: Kern, t: Tunnel)
    requires k.env.Quiet() && Claimable(k, t) && !t.desired.Deleted?
    ensures Clean(Reconciled(k, t).0, t)
  {
    hide Created, Configured, Foreign;
    QuietLater(k.env, k.env);
    var (k1, found) := k.LinkByName(t.name);
    QuietLater(k.env, k1.env);
    if found.NotFound? {
      QuietCreateMarks(k1, t);
    } else if RequiresRecreate(k.links[t.name], t) {
      var k2 := k1.LinkDel(t.name).0;
      QuietLater(k.env, k2.env);
      QuietCreateMarks(k2, t);
    }
    var (k3, got) := Acquire(k, t);
    if got.Ready? { ConfigureTunes(k3, t); }
  }

  lemma StepCleans(w: World, t: Tunnel)
    requires Startable(w, t)
    ensures Clean(ReconcileOne(w, t).0.kern, t)
    ensures t.desired.Deleted? ==> t.id !in ReconcileOne(w, t).0.db.tunnels
  {
    hide Reconciled, Removed, RemoveOne, ApplyOne, Fail;
    var w1 := w.Execute(w.db.MarkOperationsRunning(t.id)).0;
    QuietExecute(w, w.db.MarkOperationsRunning(t.id));
    if t.desired.Deleted? {
      QuietDelete(w, t);
    } else {
      QuietReconcileCleans(w1.kern, t);
      ApplyKernel(w1, t);
    }
  }

  /** A step for another name does not disturb. */
  lemma StepSpares(w: World, t: Tunnel, s: Tunnel)
    requires s.name != t.name
    ensures var k, k' := w.kern, ReconcileOne(w, t).0.kern;
      && (Clean(k, s) ==> Clean(k', s)) && (Claimable(k, s) ==> Claimable(k', s))
      && (s.name in k'.links <==> s.name in k.links)
      && (s.name in k.links ==> k'.links[s.name] == k.links[s.name])
  {
    hide ReconcileOne, Foreign;
    ReconcileOneFrame(w, t);
    Elsewhere(w.kern.links, ReconcileOne(w, t).0.kern.links, t.name, s.name);
  }

  /** What holds of the rows still to visit, all through a fault-free pass. */
  ghost predicate PassReady(w: World, rows: seq<Tunnel>) {
    && w.db.Valid() && Current(w.db, rows)
    && w.kern.env.Quiet() && w.kern.egress.Some?
    && forall t | t in rows :: t.typ.Gre? && Due(t, w.Now()) && Claimable(w.kern, t)
  }

  lemma RowNamesDiffer(w: World, rows: seq<Tunnel>, s: Tunnel)
    requires rows != [] && PassReady(w, rows) && s in rows[1..]
    ensures s in rows && s.id != rows[0].id && s.name != rows[0].name
  {
    var i :| 0 <= i < |rows[1..]| && rows[1..][i] == s;
    assert rows[i + 1] == s;
  }

  lemma PassReadyStep(w: World, rows: seq<Tunnel>)
    requires rows != [] && PassReady(w, rows)
    ensures PassReady(ReconcileOne(w, rows[0]).0, rows[1..])
    ensures Startable(w, rows[0])
  {
    hide ReconcileOne, Claimable, Foreign, Advances;
    var w1 := ReconcileOne(w, rows[0]).0;
    ReconcileOneFrame(w, rows[0]);
    StaysCurrent(w, rows);
    QuietLater(w.kern.env, w1.kern.env);
    assert rows[0] in rows;
    forall s | s in rows[1..] ensures s.typ.Gre? && Due(s, w1.Now()) && Claimable(w1.kern, s) {
      RowNamesDiffer(w, rows, s);
      StepSpares(w, rows[0], s);
    }
  }

  /** After a fault-free pass nothing stale is left under any listed name, and deleted rows are gone. */
  lemma {:induction false} PassCleans(w: World, rows: seq<Tunnel>, s: Tunnel)
    requires PassReady(w, rows)
    requires s in rows || (Clean(w.kern, s) && forall t | t in rows :: t.name != s.name)
    ensures Clean(Pass(w, rows).kern, s)
    ensures s in rows && s.desired.Deleted? ==> s.id !in Pass(w, rows).db.tunnels
    decreases |rows|
  {
    hide ReconcileOne, Clean, Startable, PassReady;
    if rows != [] {
      var w1 := ReconcileOne(w, rows[0]).0;
      PassReadyStep(w, rows);
      forall t | t in rows[1..] ensures t in rows && t.name != rows[0].name && t.id != rows[0].id {
        RowNamesDiffer(w, rows, t);
      }
      assert rows[0] in rows;
      if s == rows[0] {
        StepCleans(w, s);
      } else if s !in rows {
        StepSpares(w, rows[0], s);
      } else {
        assert s in rows[1..];
      }
      PassCleans(w1, rows[1..], s);
      PassDropsNoMore(w1, rows[1..], s.id);
    }
  }

  lemma PassDropsNoMore(w: World, rows: seq<Tunnel>, id: TunnelId)
    requires PassReady(w, rows)
    ensures id !in w.db.tunnels ==> id !in Pass(w, rows).db.tunnels
  {
    PassKeepsIntent(w, rows);
  }

  // ---------- the second pass ----------

  /** Names differ, targets of tunnels that are to stay differ, and what is stored parses. */
  ghost predicate WellPosed(all: set<Tunnel>) {
    && (forall s, t | s in all && t in all && s != t :: s.name != t.name)
    && (forall s, t | s in all && t in all && s != t && !s.desired.Deleted? && !t.desired.Deleted? ::
          !Fresh(0, s).SameTuple(Fresh(0, t)))
    && (forall t | t in all && !t.desired.Deleted? ::
          t.local.Parse().Some? && t.remote.Parse().Some? && !t.address.BadCidr?)
  }

  /** No link outside the listed names holds a target. */
  ghost predicate NoSquatter(k: Kern, all: set<Tunnel>) {
    forall n, t | n in k.links && t in all && !t.desired.Deleted? && (forall s | s in all :: s.name != n) ::
      !k.links[n].SameTuple(Fresh(0, t))
  }

  ghost predicate Peaceful(k: Kern, all: set<Tunnel>) {
    (forall t | t in all :: Clean(k, t)) && NoSquatter(k, all)
  }

  lemma PeaceMakesRoom(k: Kern, all: set<Tunnel>, t: Tunnel)
    requires WellPosed(all) && Peaceful(k, all) && t in all && !t.desired.Deleted?
    ensures Available(k, t) && Claimable(k, t)
  {
    assert Clean(k, t);
    forall n | n in k.links && n != t.name ensures !k.links[n].SameTuple(Fresh(0, t)) {
      if s :| s in all && s.name == n {
        assert Clean(k, s);
      }
    }
  }

  lemma OnlyIntentMatters(k: Kern, t: Tunnel)
    ensures Clean(k, t.Intent()) == Clean(k, t) && Keeps(k, t.Intent()) == Keeps(k, t)
    ensures Available(k, t.Intent()) == Available(k, t) && Claimable(k, t.Intent()) == Claimable(k, t)
  {
  }

  lemma StepKeepsPeace(w: World, t: Tunnel, all: set<Tunnel>)
    requires Startable(w, t) && t.Intent() in all && WellPosed(all) && Peaceful(w.kern, all)
    ensures Peaceful(ReconcileOne(w, t).0.kern, all)
  {
    hide ReconcileOne, Foreign, RequiresRecreate;
    var k, k' := w.kern, ReconcileOne(w, t).0.kern;
    StepCleans(w, t);
    ReconcileOneFrame(w, t);
    forall s | s in all ensures Clean(k', s) {
      if s != t.Intent() {
        StepSpares(w, t, s);
      } else {
        OnlyIntentMatters(k', t);
      }
    }
    forall n, s | n in k'.links && s in all && !s.desired.Deleted? && (forall r | r in all :: r.name != n)
      ensures !k'.links[n].SameTuple(Fresh(0, s))
    {
      assert t.Intent().name != n;
      Elsewhere(k.links, k'.links, t.name, n);
    }
  }

  lemma {:induction false} ForeignMember(rules: seq<Rule>, r: Rule, marker: string)
    requires !r.Carries(marker)
    ensures r in Foreign(rules, marker) <==> r in rules
  {
    if rules != [] {
      assert rules == [rules[0]] + rules[1..];
      ForeignMember(rules[1..], r, marker);
    }
  }

  /** The desired state holds and the row says so. */
  ghost predicate Converged(w: World, s: Tunnel) {
    && Fulfilled(w, s) && !s.desired.Deleted?
    && s.id in w.db.tunnels
    && IsHealthy(w.db.tunnels[s.id], s, if s.desired.Enabled? then Up else Down)
  }

  lemma StepKeepsConverged(w: World, t: Tunnel, s: Tunnel)
    requires Converged(w, s) && s.name != t.name && s.id != t.id
    ensures Converged(ReconcileOne(w, t).0, s)
  {
    hide ReconcileOne, Foreign, RequiresRecreate, AddressIs, IsHealthy, Advances, Db.Valid;
    var w' := ReconcileOne(w, t).0;
    ReconcileOneFrame(w, t);
    StepSpares(w, t, s);
    RowsElsewhere(w.db, w'.db, t.id, s.id);
    if Marker(s.id) == Marker(t.id) { MarkerInjective(s.id, t.id); }
    ForeignMember(w.kern.rules, IngressRule(s), Marker(t.id));
    ForeignMember(w'.kern.rules, IngressRule(s), Marker(t.id));
    ForeignMember(w.kern.rules, NatRule(s, w.kern.egress.value), Marker(t.id));
    ForeignMember(w'.kern.rules, NatRule(s, w.kern.egress.value), Marker(t.id));
  }

  lemma StepConverges(w: World, s: Tunnel, all: set<Tunnel>)
    requires Startable(w, s) && s.Intent() in all && WellPosed(all) && Peaceful(w.kern, all)
    requires s.desired.Enabled? || (s.desired.Disabled? && s.name in w.kern.links)
    ensures Converged(ReconcileOne(w, s).0, s)
  {
    hide ReconcileOne, RequiresRecreate, Fulfilled;
    PeaceMakesRoom(w.kern, all, s.Intent());
    OnlyIntentMatters(w.kern, s);
    assert Clean(w.kern, s.Intent());
    QuietApply(w, s);
    VerdictIsEarned(w, s);
  }

  ghost predicate Listed(rows: seq<Tunnel>, all: set<Tunnel>) {
    forall t | t in rows :: t.Intent() in all
  }

  /** With nothing stale left, one pass brings every enabled tunnel, and every disabled one that
      still has its link, to its desired state. */
  lemma {:induction false} PassConverges(w: World, rows: seq<Tunnel>, all: set<Tunnel>, s: Tunnel)
    requires PassReady(w, rows) && Listed(rows, all) && WellPosed(all) && Peaceful(w.kern, all)
    requires
      || (s in rows && (s.desired.Enabled? || (s.desired.Disabled? && s.name in w.kern.links)))
      || (Converged(w, s) && forall t | t in rows :: t.name != s.name && t.id != s.id)
    ensures Converged(Pass(w, rows), s)
    decreases |rows|
  {
    hide ReconcileOne, Startable, PassReady, Converged, Peaceful, WellPosed;
    if rows != [] {
      var t := rows[0];
      var w1 := ReconcileOne(w, t).0;
      PassReadyStep(w, rows);
      assert t in rows;
      StepKeepsPeace(w, t, all);
      forall r | r in rows[1..] ensures r in rows && r.name != t.name && r.id != t.id {
        RowNamesDiffer(w, rows, r);
      }
      if s == t {
        StepConverges(w, s, all);
      } else if s in rows {
        assert s in rows[1..];
        StepSpares(w, t, s);
      } else {
        StepKeepsConverged(w, t, s);
      }
      PassConverges(w1, rows[1..], all, s);
    }
  }

  // ---------- the theorem ----------

  function Intents(rows: seq<Tunnel>): set<Tunnel> {
    set t | t in rows :: t.Intent()
  }

  /**
    No outside change, no failure but EEXIST, names free or own, targets distinct and not held by
    links outside the list: after two passes in which every row is due, whatever the order of
    each, every enabled tunnel is as stored and reports up, every deleted one is gone from host
    and table, and every disabled one is down or has no link.
  */
  lemma TwoPassConvergence(w: World, rows1: seq<Tunnel>, later: Env, rows2: seq<Tunnel>, s: Tunnel)
    requires PassReady(w, rows1) && w.db.IsListing(rows1)
    requires WellPosed(Intents(rows1)) && NoSquatter(w.kern, Intents(rows1))
    requires later.Quiet()
    requires var db := Pass(w, rows1).db;
      db.IsListing(rows2) && forall t | t in rows2 :: Due(t, later.now)
    requires s in rows1
    ensures
      var w1 := Pass(w, rows1);
      var w2 := Pass(w1.(kern := w1.kern.(env := later)), rows2);
      && (s.desired.Enabled? ==> Converged(w2, s))
      && (s.desired.Deleted? ==> s.name !in w2.kern.links && s.id !in w2.db.tunnels)
      && (s.desired.Disabled? && s.name in w1.kern.links ==> Converged(w2, s))
  {
    hide Pass, PassReady, WellPosed, Converged;
    var all := Intents(rows1);
    var w1 := Pass(w, rows1);
    var v := w1.(kern := w1.kern.(env := later));
    PassLeavesPeace(w, rows1);
    SecondPassReady(w, rows1, later, rows2);
    PassCleans(w, rows1, s);
    if s.desired.Deleted? {
      assert Clean(v.kern, s);
      forall t | t in rows2 ensures t.name != s.name {
        SecondRowOrigin(w, rows1, rows2, t, s);
      }
      PassCleans(v, rows2, s);
      PassDropsNoMore(v, rows2, s.id);
    } else if s.desired.Enabled? || s.name in w1.kern.links {
      var s2 := SurvivorListed(w, rows1, rows2, s);
      PassConverges(v, rows2, all, s2);
      ConvergedIntent(Pass(v, rows2), s, s2);
    }
  }

  lemma ConvergedIntent(w: World, s: Tunnel, s2: Tunnel)
    requires s2.Intent() == s.Intent() && Converged(w, s2)
    ensures Converged(w, s)
  {
  }

  lemma PassLeavesPeace(w: World, rows: seq<Tunnel>)
    requires PassReady(w, rows) && WellPosed(Intents(rows)) && NoSquatter(w.kern, Intents(rows))
    ensures Peaceful(Pass(w, rows).kern, Intents(rows))
  {
    hide Pass, Clean, WellPosed;
    var k, k', all := w.kern, Pass(w, rows).kern, Intents(rows);
    forall s | s in all ensures Clean(k', s) {
      var t :| t in rows && t.Intent() == s;
      PassCleans(w, rows, t);
      OnlyIntentMatters(k', t);
    }
    forall n, s | n in k'.links && s in all && !s.desired.Deleted? && (forall r | r in all :: r.name != n)
      ensures !k'.links[n].SameTuple(Fresh(0, s))
    {
      forall t | t in rows ensures t.name != n { assert t.Intent() in all; }
      PassOwnership(w, rows, n, set t | t in rows :: Marker(t.id));
    }
  }

  lemma SecondPassReady(w: World, rows1: seq<Tunnel>, later: Env, rows2: seq<Tunnel>)
    requires PassReady(w, rows1) && w.db.IsListing(rows1) && later.Quiet()
    requires WellPosed(Intents(rows1)) && NoSquatter(w.kern, Intents(rows1))
    requires Pass(w, rows1).db.IsListing(rows2) && forall t | t in rows2 :: Due(t, later.now)
    ensures var w1 := Pass(w, rows1); PassReady(w1.(kern := w1.kern.(env := later)), rows2)
    ensures Listed(rows2, Intents(rows1))
  {
    hide Pass, WellPosed, Clean;
    var w1 := Pass(w, rows1);
    PassKeepsIntent(w, rows1);
    PassKeepsEgress(w, rows1);
    PassLeavesPeace(w, rows1);
    forall t | t in rows2 ensures t.Intent() in Intents(rows1) && t.typ.Gre? && Claimable(w1.kern, t) {
      var r := w.db.tunnels[t.id];
      assert r in rows1;
      assert r.Intent() == t.Intent();
      OnlyIntentMatters(w1.kern, t);
      assert Clean(w1.kern, t.Intent());
      CleanIsClaimable(w1.kern, t.Intent());
    }
  }

  lemma CleanIsClaimable(k: Kern, t: Tunnel)
    requires Clean(k, t)
    ensures Claimable(k, t)
  {
  }

  lemma {:induction false} PassKeepsEgress(w: World, rows: seq<Tunnel>)
    ensures Pass(w, rows).kern.egress == w.kern.egress
    decreases |rows|
  {
    if rows != [] {
      ReconcileOneFrame(w, rows[0]);
      PassKeepsEgress(ReconcileOne(w, rows[0]).0, rows[1..]);
    }
  }

  /** A row of the second listing is not one the first pass deleted, nor does it share its name. */
  lemma SecondRowOrigin(w: World, rows1: seq<Tunnel>, rows2: seq<Tunnel>, t: Tunnel, s: Tunnel)
    requires PassReady(w, rows1) && w.db.IsListing(rows1) && Pass(w, rows1).db.IsListing(rows2)
    requires WellPosed(Intents(rows1))
    requires t in rows2 && s in rows1 && s.desired.Deleted?
    ensures t.name != s.name
  {
    hide Pass;
    PassKeepsIntent(w, rows1);
    PassCleans(w, rows1, s);
    var r := w.db.tunnels[t.id];
    assert r in rows1 && r.Intent() == t.Intent();
    assert r.Intent() in Intents(rows1) && s.Intent() in Intents(rows1);
  }

  lemma SurvivorListed(w: World, rows1: seq<Tunnel>, rows2: seq<Tunnel>, s: Tunnel) returns (s2: Tunnel)
    requires PassReady(w, rows1) && w.db.IsListing(rows1) && Pass(w, rows1).db.IsListing(rows2)
    requires s in rows1 && !s.desired.Deleted?
    ensures s2 in rows2 && s2.Intent() == s.Intent()
  {
    hide Pass;
    PassKeepsIntent(w, rows1);
    PassKeepsRow(w, rows1, s);
    s2 := Pass(w, rows1).db.tunnels[s.id];
  }

  /** Only a row that is to go can go. */
  lemma {:induction false} PassKeepsRow(w: World, rows: seq<Tunnel>, s: Tunnel)
    requires Current(w.db, rows) && s.id in w.db.tunnels && !w.db.tunnels[s.id].desired.Deleted?
    ensures s.id in Pass(w, rows).db.tunnels
    decreases |rows|
  {
    hide ReconcileOne, Advances, Db.Valid;
    if rows != [] {
      var w1 := ReconcileOne(w, rows[0]).0;
      StaysCurrent(w, rows);
      ReconcileOneFrame(w, rows[0]);
      if s.id !in w1.db.tunnels && rows[0].id == s.id { OnlyDeletedRowsGo(w, rows[0]); }
      if rows[0].id != s.id {
        RowsElsewhere(w.db, w1.db, rows[0].id, s.id);
      }
      PassKeepsRow(w1, rows[1..], s);
    }
  }

  // ---------- a case that needs both passes ----------

  function Asks(id: TunnelId, name: Name, local: nat, remote: nat): Tunnel {
    Tunnel(id, name, Gre, Dotted(local), Dotted(remote), Cidr4(1, 30), BLANK, 1476, 255, "", false,
           Enabled, Pending, "", 0, None, 0, 0)
  }

  /** Two tunnels whose links each hold the endpoints the other one asks for. */
  function Swapped(s: Tunnel, t: Tunnel, egress: Name): World {
    World(
      Kern(map[s.name := Fresh(0, t).(alias := Marker(s.id)), t.name := Fresh(1, s).(alias := Marker(t.id))], [], 2,
           Some(egress), Env((i: nat) => Tick(Works, 0), 0, 0)),
      Db(map[s.id := s, t.id := t], []))
  }

  lemma SwapReady(s: Tunnel, t: Tunnel, egress: Name)
    requires s.id != t.id && s.name != t.name && s.typ.Gre? && t.typ.Gre? && s.retryAt.None? && t.retryAt.None?
    ensures var w := Swapped(s, t, egress); PassReady(w, [s, t]) && w.db.IsListing([s, t])
  {
    hide Marker, Fresh;
  }

  lemma SwapPosed(s: Tunnel, t: Tunnel, egress: Name)
    requires s.id != t.id && s.name != t.name
    requires s.desired.Enabled? && t.desired.Enabled? && !s.address.BadCidr? && !t.address.BadCidr?
    requires s.local.Parse().Some? && s.remote.Parse().Some? && t.local.Parse().Some? && t.remote.Parse().Some?
    requires s.remote.Parse() != t.remote.Parse()
    ensures WellPosed(Intents([s, t])) && NoSquatter(Swapped(s, t, egress).kern, Intents([s, t]))
  {
    hide Marker;
    assert Intents([s, t]) == {s.Intent(), t.Intent()};
  }

  lemma SwapTaken(s: Tunnel, t: Tunnel, egress: Name)
    requires s.name != t.name && s.remote.Parse() != t.remote.Parse()
    ensures var k := Swapped(s, t, egress).kern;
      !Keeps(k, s) && !Available(k, s) && !Keeps(k, t) && !Available(k, t)
  {
    hide Marker;
    var k := Swapped(s, t, egress).kern;
    assert k.links[t.name].SameTuple(Fresh(0, s));
    assert k.links[s.name].SameTuple(Fresh(0, t));
  }

  /** Neither can have its endpoints in the first step, yet the two-pass theorem applies. */
  lemma SwapIsWellPosed(i: TunnelId, j: TunnelId, n: Name, m: Name, a: nat, b: nat, c: nat, egress: Name)
    requires i != j && n != m && b != c
    ensures
      var s, t := Asks(i, n, a, b), Asks(j, m, a, c);
      var w := Swapped(s, t, egress);
      && PassReady(w, [s, t]) && w.db.IsListing([s, t])
      && WellPosed(Intents([s, t])) && NoSquatter(w.kern, Intents([s, t]))
      && !Keeps(w.kern, s) && !Available(w.kern, s) && !Keeps(w.kern, t) && !Available(w.kern, t)
  {
    hide PassReady, WellPosed, NoSquatter, Intents, Swapped, Keeps, Available, Db.IsListing;
    var s, t := Asks(i, n, a, b), Asks(j, m, a, c);
    SwapReady(s, t, egress);
    SwapPosed(s, t, egress);
    SwapTaken(s, t, egress);
  }
}
