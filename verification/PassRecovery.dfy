/**
  Crash recovery of a whole pass. The process dies at any primitive of a pass over any table; it
  restarts, lists the table again and makes one pass with nothing failing. Each tunnel then is
  where an uninterrupted pass would have left it, unless the crash fell into one of two gaps.
*/
module PassRecovery {
  import opened Domain
  import opened Kernel
  import opened Provider
  import opened Healing
  import opened Goal
  import opened Store
  import opened Controller
  import opened Frames
  import opened QuietSteps
  import opened Convergence
  import opened Recovery
  import opened Truth
  import opened Settlement
  import opened Limits

  // ---------- what one tunnel sees of other tunnels' steps ----------

  lemma {:induction false} RemoveForeign(rules: seq<Rule>, r: Rule, marker: string)
    requires !r.Carries(marker)
    ensures Foreign(RemoveFirst(rules, r), marker) == RemoveFirst(Foreign(rules, marker), r)
  {
    if rules != [] && rules[0] != r {
      var rest := RemoveFirst(rules[1..], r);
      assert RemoveFirst(rules, r) == [rules[0]] + rest && ([rules[0]] + rest)[1..] == rest;
      RemoveForeign(rules[1..], r, marker);
      if rules[0].Carries(marker) {
        assert Foreign(rules, marker) == Foreign(rules[1..], marker);
        assert Foreign([rules[0]] + rest, marker) == Foreign(rest, marker);
      } else {
        var others := Foreign(rules[1..], marker);
        assert Foreign(rules, marker) == [rules[0]] + others && ([rules[0]] + others)[1..] == others;
      }
    } else if rules != [] {
      assert ([rules[0]] + Foreign(rules[1..], marker))[1..] == Foreign(rules[1..], marker);
    }
  }

  lemma ForeignOnce(rules: seq<Rule>, r: Rule, marker: string)
    requires !r.Carries(marker)
    ensures AtMostOnce(Foreign(rules, marker), r) <==> AtMostOnce(rules, r)
  {
    hide RemoveFirst, Foreign;
    RemoveForeign(rules, r, marker);
    ForeignMember(RemoveFirst(rules, r), r, marker);
  }

  ghost predicate RulesAlike(rules: seq<Rule>, rules': seq<Rule>, r: Rule) {
    (r in rules' <==> r in rules) && (AtMostOnce(rules', r) <==> AtMostOnce(rules, r))
  }

  ghost predicate OwnRulesAlike(k: Kern, k': Kern, t: Tunnel) {
    && k'.egress == k.egress
    && RulesAlike(k.rules, k'.rules, IngressRule(t)) && RulesAlike(k.rules, k'.rules, LegacyRule(t))
    && (k.egress.Some? ==> RulesAlike(k.rules, k'.rules, NatRule(t, k.egress.value)))
  }

  ghost predicate OwnOpsAlike(ops: seq<Operation>, ops': seq<Operation>, id: TunnelId) {
    && |ops'| == |ops|
    && forall i | 0 <= i < |ops| ::
        ops'[i].resource == ops[i].resource && (ops[i].resource == id ==> ops'[i] == ops[i])
  }

  /** To this tunnel both worlds look the same: link, row, operations and rules. */
  ghost predicate Alike(w: World, w': World, t: Tunnel) {
    && SameLink(w.kern.links, w'.kern.links, t.name)
    && (t.id in w'.db.tunnels <==> t.id in w.db.tunnels)
    && (t.id in w.db.tunnels ==> w'.db.tunnels[t.id] == w.db.tunnels[t.id])
    && OwnOpsAlike(w.db.ops, w'.db.ops, t.id) && OwnRulesAlike(w.kern, w'.kern, t)
  }

  lemma RuleElsewhere(k: Kern, k': Kern, s: Tunnel, r: Rule)
    requires Foreign(k'.rules, Marker(s.id)) == Foreign(k.rules, Marker(s.id)) && !r.Carries(Marker(s.id))
    ensures RulesAlike(k.rules, k'.rules, r)
  {
    hide Foreign, AtMostOnce;
    ForeignOnce(k.rules, r, Marker(s.id));
    ForeignOnce(k'.rules, r, Marker(s.id));
    ForeignMember(k.rules, r, Marker(s.id));
    ForeignMember(k'.rules, r, Marker(s.id));
  }

  lemma StepAlike(w: World, s: Tunnel, t: Tunnel)
    requires s.id != t.id && s.name != t.name
    ensures Alike(w, ReconcileOne(w, s).0, t) && w.kern.env.Before(ReconcileOne(w, s).0.kern.env)
  {
    hide ReconcileOne, Foreign, RulesAlike, Db.Valid;
    var w' := ReconcileOne(w, s).0;
    ReconcileOneFrame(w, s);
    Elsewhere(w.kern.links, w'.kern.links, s.name, t.name);
    RowsElsewhere(w.db, w'.db, s.id, t.id);
    if Marker(s.id) == Marker(t.id) { MarkerInjective(s.id, t.id); }
    RuleElsewhere(w.kern, w'.kern, s, IngressRule(t));
    RuleElsewhere(w.kern, w'.kern, s, LegacyRule(t));
    if w.kern.egress.Some? { RuleElsewhere(w.kern, w'.kern, s, NatRule(t, w.kern.egress.value)); }
  }

  lemma AlikeOn(a: World, b: World, c: World, t: Tunnel)
    requires Alike(a, b, t) && Alike(b, c, t)
    ensures Alike(a, c, t)
  {
    hide AtMostOnce;
  }

  /** Rows of other tunnels: other ids, other names. */
  ghost predicate Others(rows: seq<Tunnel>, t: Tunnel) {
    forall s | s in rows :: s.id != t.id && s.name != t.name
  }

  lemma {:induction false} PassAlike(w: World, rows: seq<Tunnel>, t: Tunnel)
    requires Others(rows, t)
    ensures Alike(w, Pass(w, rows), t) && w.kern.env.Before(Pass(w, rows).kern.env)
    decreases |rows|
  {
    hide ReconcileOne, Alike;
    if rows == [] {
      AlikeSelf(w, t);
    } else {
      assert rows[0] in rows;
      var w1 := ReconcileOne(w, rows[0]).0;
      StepAlike(w, rows[0], t);
      PassAlike(w1, rows[1..], t);
      AlikeOn(w, w1, Pass(w, rows), t);
    }
  }

  lemma AlikeSelf(w: World, t: Tunnel)
    ensures Alike(w, w, t)
  {
  }

  // ---------- room for its endpoints ----------

  /** A tunnel's link keeps its endpoints or gets the stored ones, under every plan. */
  lemma EndpointsOwn(k: Kern, s: Tunnel)
    requires s.name in Reconciled(k, s).0.links
    ensures var link := Reconciled(k, s).0.links[s.name];
      || (s.name in k.links && link.gre == k.links[s.name].gre
          && link.local == k.links[s.name].local && link.remote == k.links[s.name].remote)
      || (link.gre && link.local == s.local.Parse() && link.remote == s.remote.Parse())
  {
    hide OwnershipMarked, Foreign, Configured, Repaired;
    var (k1, got) := Acquire(k, s);
    if got.Ready? { ConfigureTunes(k1, s); }
  }

  lemma StepKeepsRoom(w: World, s: Tunnel, t: Tunnel)
    requires s.name != t.name && Available(w.kern, t)
    requires s.desired.Deleted? || !Fresh(0, s).SameTuple(Fresh(0, t))
    ensures Available(ReconcileOne(w, s).0.kern, t)
  {
    hide ReconcileOne, Reconciled, Removed, Foreign, DbFrame;
    var k, k' := w.kern, ReconcileOne(w, s).0.kern;
    ReconcileOneFrame(w, s);
    if s.name in k'.links { StepEndpoints(w, s); }
    forall n | n in k'.links && n != t.name ensures !k'.links[n].SameTuple(Fresh(0, t)) {
      if n != s.name { Elsewhere(k.links, k'.links, s.name, n); }
    }
  }

  lemma StepEndpoints(w: World, s: Tunnel)
    requires s.name in ReconcileOne(w, s).0.kern.links
    ensures var link := ReconcileOne(w, s).0.kern.links[s.name];
      || (s.name in w.kern.links && link.gre == w.kern.links[s.name].gre
          && link.local == w.kern.links[s.name].local && link.remote == w.kern.links[s.name].remote)
      || (!s.desired.Deleted? && link.gre && link.local == s.local.Parse() && link.remote == s.remote.Parse())
  {
    hide ApplyOne, RemoveOne, Fail, Reconciled, Removed, Foreign;
    FailKernel(w, s, "provider is not installed");
    var w1 := w.Execute(w.db.MarkOperationsRunning(s.id)).0;
    ApplyKernel(w1, s);
    RemoveKernel(w1, s);
    if s.name in Reconciled(w1.kern, s).0.links { EndpointsOwn(w1.kern, s); }
  }

  /** None of the rows asks for this tunnel's endpoints. */
  ghost predicate Unrivalled(rows: seq<Tunnel>, t: Tunnel) {
    forall s | s in rows && s.id != t.id && !s.desired.Deleted? :: !Fresh(0, s).SameTuple(Fresh(0, t))
  }

  lemma {:induction false} PassKeepsRoom(w: World, rows: seq<Tunnel>, t: Tunnel)
    requires Others(rows, t) && Unrivalled(rows, t) && Available(w.kern, t)
    ensures Available(Pass(w, rows).kern, t)
    decreases |rows|
  {
    hide ReconcileOne, Available, Fresh;
    if rows != [] {
      assert rows[0] in rows;
      StepKeepsRoom(w, rows[0], t);
      PassKeepsRoom(ReconcileOne(w, rows[0]).0, rows[1..], t);
    }
  }

  // ---------- the tunnel's turn ----------

  lemma {:induction false} PassSplits(w: World, a: seq<Tunnel>, b: seq<Tunnel>)
    ensures Pass(w, a + b) == Pass(Pass(w, a), b)
    decreases |a|
  {
    hide ReconcileOne;
    if a == [] {
      assert a + b == b;
    } else {
      assert (a + b)[1..] == a[1..] + b;
      PassSplits(ReconcileOne(w, a[0]).0, a[1..], b);
    }
  }

  lemma OthersBeside(db: Db, rows: seq<Tunnel>, part: seq<Tunnel>, i: nat, from: nat)
    requires db.Valid() && Current(db, rows) && i < |rows| && from + |part| <= |rows|
    requires part == rows[from..from + |part|] && (from + |part| <= i || i < from)
    ensures Others(part, rows[i])
  {
    forall s | s in part ensures s.id != rows[i].id && s.name != rows[i].name {
      var j :| 0 <= j < |part| && part[j] == s;
      assert rows[from + j] == s;
    }
  }

  lemma PassFirst(w: World, t: Tunnel, rest: seq<Tunnel>)
    ensures Pass(w, [t] + rest) == Pass(ReconcileOne(w, t).0, rest)
  {
    hide ReconcileOne;
    assert ([t] + rest)[1..] == rest;
  }

  lemma PassAround(w: World, pre: seq<Tunnel>, t: Tunnel, post: seq<Tunnel>)
    ensures Pass(w, pre + [t] + post) == Pass(ReconcileOne(Pass(w, pre), t).0, post)
  {
    hide ReconcileOne, Pass;
    assert pre + [t] + post == pre + ([t] + post);
    PassSplits(w, pre, [t] + post);
    PassFirst(Pass(w, pre), t, post);
  }

  /** A pass is the steps before the tunnel's, its own, and the steps after it. */
  lemma TurnOf(w: World, rows: seq<Tunnel>, t: Tunnel) returns (pre: seq<Tunnel>, post: seq<Tunnel>)
    requires w.db.Valid() && Current(w.db, rows) && t in rows
    ensures rows == pre + [t] + post && Others(pre, t) && Others(post, t)
    ensures Pass(w, rows) == Pass(ReconcileOne(Pass(w, pre), t).0, post)
  {
    hide ReconcileOne, Pass, Current, Db.Valid, Others;
    var i :| 0 <= i < |rows| && rows[i] == t;
    pre, post := rows[..i], rows[i + 1..];
    PassAround(w, pre, t, post);
    OthersBeside(w.db, rows, pre, i, 0);
    OthersBeside(w.db, rows, post, i, i + 1);
  }

  /** A tunnel whose step can get through, in a world of rivals: what holds of it before the pass. */
  ghost predicate Hopeful(w: World, rows: seq<Tunnel>, t: Tunnel) {
    && w.db.IsListing(rows) && t in rows && Recoverable(w, t)
    && (t.desired.Enabled? ==> Unrivalled(rows, t))
  }

  /** Nothing the steps before do changes that. */
  lemma StaysRecoverable(w: World, u: World, t: Tunnel)
    requires Recoverable(w, t) && Alike(w, u, t) && u.db.Valid() && w.Now() <= u.Now()
    requires t.desired.Enabled? ==> Keeps(w.kern, t) || Available(u.kern, t)
    ensures Recoverable(u, t)
  {
    hide AtMostOnce, RequiresRecreate, Db.Valid;
  }

  lemma TurnComes(w: World, pre: seq<Tunnel>, rows: seq<Tunnel>, t: Tunnel)
    requires Hopeful(w, rows, t) && pre <= rows && Others(pre, t)
    ensures Recoverable(Pass(w, pre), t) && Alike(w, Pass(w, pre), t)
    ensures w.kern.env.Before(Pass(w, pre).kern.env) && Current(w.db, pre)
  {
    hide Alike, Pass, NoDoubles, Keeps, Available;
    var u := Pass(w, pre);
    assert forall i | 0 <= i < |pre| :: pre[i] == rows[i];
    PassAlike(w, pre, t);
    PassKeepsIntent(w, pre);
    if t.desired.Enabled? && Available(w.kern, t) { PassKeepsRoom(w, pre, t); }
    StaysRecoverable(w, u, t);
  }

  // ---------- where it ends ----------

  /** The link a fault-free step leaves an enabled tunnel; a new one's index is as good as any. */
  function LinkGoal(k: Kern, t: Tunnel): Link {
    Tuned(if Keeps(k, t) then k.links[t.name] else Fresh(0, t), t)
  }

  /** Of the tunnel's operations all that were open are successes; their number is not the point. */
  ghost predicate OwnSucceeded(ops: seq<Operation>, ops': seq<Operation>, id: TunnelId, message: string) {
    && |ops'| == |ops|
    && forall i | 0 <= i < |ops| :: ops'[i].resource == ops[i].resource && (ops[i].resource == id ==>
         if ops[i].Open()
         then ops'[i].(finishedAt := None) == ops[i].(status := Success, message := Text(message), finishedAt := None)
              && ops'[i].finishedAt.Some?
         else ops'[i] == ops[i])
  }

  /** Where a tunnel is when a pass has got through to it, told from the world before. */
  ghost predicate Arrived(w: World, w': World, t: Tunnel) {
    && w'.kern.egress == w.kern.egress && w.kern.egress.Some?
    && RulesAre(w'.kern.rules, t, w.kern.egress.value, Wants(t))
    && OwnSucceeded(w.db.ops, w'.db.ops, t.id, DoneMessage(t))
    && if t.desired.Deleted? then t.name !in w'.kern.links && t.id !in w'.db.tunnels
       else
         && t.name in w'.kern.links
         && w'.kern.links[t.name].(index := 0) == LinkGoal(w.kern, t).(index := 0)
         && (Keeps(w.kern, t) ==> w'.kern.links[t.name].index == w.kern.links[t.name].index)
         && t.id in w'.db.tunnels && IsHealthy(w'.db.tunnels[t.id], t, Up) && w'.db.tunnels[t.id].lastError == ""
  }

  lemma OwnOfAll(ops: seq<Operation>, ops': seq<Operation>, id: TunnelId, message: string)
    requires AllSucceeded(ops, ops', id, message)
    ensures OwnSucceeded(ops, ops', id, message)
  {
    forall i | 0 <= i < |ops| ensures ops'[i].resource == ops[i].resource {
      if ops[i].resource == id && ops[i].Open() {
        assert ops'[i].(finishedAt := None).resource == ops[i].resource;
      }
    }
  }

  lemma StepArrives(u: World, t: Tunnel)
    requires Recoverable(u, t) && u.kern.env.Quiet()
    ensures Arrived(u, ReconcileOne(u, t).0, t)
  {
    hide ReconcileOne, GoalRules, RulesAre, NoDoubles, RequiresRecreate, Available;
    hide IsHealthy, AllSucceeded, Foreign, DbFrame;
    var u' := ReconcileOne(u, t).0;
    ReconcileOneFrame(u, t);
    GoalRulesTwice(u.kern.rules, t, u.kern.egress.value, Wants(t));
    if t.desired.Deleted? { QuietDelete(u, t); } else { QuietApply(u, t); }
    OwnOfAll(u.db.ops, u'.db.ops, t.id, DoneMessage(t));
  }

  /** To have arrived is a matter between the tunnel and itself. */
  lemma ArrivedAlike(w: World, u: World, u': World, w': World, t: Tunnel)
    requires Alike(w, u, t) && Arrived(u, u', t) && Alike(u', w', t)
    ensures Arrived(w, w', t)
  {
    hide RequiresRecreate, AtMostOnce, Repaired, IsHealthy;
  }

  /** A pass with nothing failing gets through to every tunnel that can be got through to. */
  lemma PassArrives(w: World, rows: seq<Tunnel>, t: Tunnel)
    requires Hopeful(w, rows, t) && w.kern.env.Quiet()
    ensures Arrived(w, Pass(w, rows), t)
  {
    hide ReconcileOne, Pass, Alike, Arrived, Others, Unrivalled, Recoverable;
    HopefulIsListed(w, rows, t);
    var pre, post := TurnOf(w, rows, t);
    var u := Pass(w, pre);
    assert pre <= rows;
    TurnComes(w, pre, rows, t);
    QuietLater(w.kern.env, u.kern.env);
    StepArrives(u, t);
    PassAlike(ReconcileOne(u, t).0, post, t);
    ArrivedAlike(w, u, ReconcileOne(u, t).0, Pass(w, rows), t);
  }

  lemma HopefulIsListed(w: World, rows: seq<Tunnel>, t: Tunnel)
    requires Hopeful(w, rows, t)
    ensures w.db.Valid() && Current(w.db, rows) && t in rows && t.id in w.db.tunnels && w.db.tunnels[t.id] == t
    ensures w.db.IsListing(rows) && w.kern.egress.Some? && !t.desired.Disabled?
  {
  }

  // ---------- the crash ----------

  ghost predicate OwnCutShort(ops: seq<Operation>, ops': seq<Operation>, id: TunnelId, message: string) {
    && |ops'| == |ops|
    && forall i | 0 <= i < |ops| :: ops'[i].resource == ops[i].resource && (ops[i].resource == id ==>
         if ops[i].Open() then CutShort(ops[i], ops'[i], message) else ops'[i] == ops[i])
  }

  /** What a crash that left no unmarked link leaves of a tunnel: nothing of its goal is lost. */
  ghost predicate Mendable(w: World, c: World, t: Tunnel) {
    && c.kern.egress == w.kern.egress && w.kern.egress.Some?
    && OwnCutShort(w.db.ops, c.db.ops, t.id, DoneMessage(t))
    && if t.id !in c.db.tunnels
       then t.desired.Deleted? && t.name !in c.kern.links && RulesAre(c.kern.rules, t, w.kern.egress.value, false)
       else
         && NoDoubles(c.kern.rules, t, w.kern.egress.value) && c.db.tunnels[t.id].Intent() == t.Intent()
         && (t.desired.Enabled? ==>
           && (Keeps(c.kern, t) || Available(c.kern, t))
           && LinkGoal(c.kern, t).(index := 0) == LinkGoal(w.kern, t).(index := 0)
           && (Keeps(w.kern, t) ==> Keeps(c.kern, t) && c.kern.links[t.name].index == w.kern.links[t.name].index))
  }

  lemma GoalIsLinkGoal(k: Kern, k': Kern, t: Tunnel)
    requires SameGoal(k, k', t) && k.nextIndex <= k'.nextIndex
    ensures LinkGoal(k', t).(index := 0) == LinkGoal(k, t).(index := 0)
    ensures Keeps(k, t) ==> Keeps(k', t) && k'.links[t.name].index == k.links[t.name].index
  {
    hide Repaired, RequiresRecreate;
    var a, b := GoalLinks(k, t)[t.name], GoalLinks(k', t)[t.name];
    assert a.(index := 0) == LinkGoal(k, t).(index := 0);
    assert b.(index := 0) == LinkGoal(k', t).(index := 0);
  }

  /** The rules are withdrawn in a process that lived to the end of the withdrawal. */
  lemma LivingSweeps(rules: seq<Rule>, e: Env, t: Tunnel, egress: Name, n: nat)
    requires e.DiesAt(n) && NoDoubles(rules, t, egress)
    requires AfterRemoval(AfterRemoval(e, IngressRule(t) in rules), NatRule(t, egress) in rules).pos < n
    ensures Sweeps(rules, e, t, egress, false)
  {
    var e1 := AfterRemoval(e, IngressRule(t) in rules);
    var e2 := AfterRemoval(e1, NatRule(t, egress) in rules);
    DyingLater(e, e, n);
    DyingLater(e, e.Next(), n);
    DyingLater(e, e1, n);
    DyingLater(e, e1.Next(), n);
    DyingLater(e, e2, n);
  }

  lemma RemovedLiving(k: Kern, t: Tunnel, n: nat)
    requires k.env.DiesAt(n) && k.egress.Some? && NoDoubles(k.rules, t, k.egress.value)
    requires Removed(k, t).1.None? && Removed(k, t).0.env.pos < n
    ensures RulesAre(Removed(k, t).0.rules, t, k.egress.value, false)
  {
    hide RulesAre, Sweeps, NoDoubles, RulesWithdrawn, AfterRemoval, Foreign;
    var k1 := k.DefaultRoute().0;
    WithdrawnIff(k1, t, k.egress.value);
    DyingLater(k.env, k1.env, n);
    LivingSweeps(k1.rules, k1.env, t, k.egress.value, n);
  }

  lemma DroppedIsSwept(w: World, t: Tunnel, n: nat)
    requires w.kern.env.DiesAt(n) && t.id in w.db.tunnels
    requires w.kern.egress.Some? && NoDoubles(w.kern.rules, t, w.kern.egress.value)
    requires t.id !in RemoveOne(w, t).0.db.tunnels
    ensures RulesAre(RemoveOne(w, t).0.kern.rules, t, w.kern.egress.value, false)
  {
    hide Removed, RulesAre, NoDoubles, Fail, Complete, Foreign;
    var (k, err) := Removed(w.kern, t);
    RemoveKernel(w, t);
    DyingLater(w.kern.env, k.env, n);
    RemovedLiving(w.kern, t, n);
  }

  lemma CutShortIsOwn(ops: seq<Operation>, ops': seq<Operation>, id: TunnelId, message: string)
    requires OpsCutShort(ops, ops', id, message)
    ensures OwnCutShort(ops, ops', id, message)
  {
    forall i | 0 <= i < |ops| ensures ops'[i].resource == ops[i].resource {
      if ops[i].resource == id && ops[i].Open() {
        assert CutShort(ops[i], ops'[i], message);
        assert ops'[i].(status := Queued).resource == ops'[i].resource == ops'[i].(finishedAt := None).resource;
        assert ops[i].(status := Queued).resource == ops[i].resource;
      }
    }
  }

  lemma StepWounds(u: World, t: Tunnel, n: nat)
    requires Recoverable(u, t) && u.kern.env.DiesAt(n) && Claimable(ReconcileOne(u, t).0.kern, t)
    ensures Mendable(u, ReconcileOne(u, t).0, t)
  {
    hide ReconcileOne, RulesAre, NoDoubles, RequiresRecreate, Available, OpsCutShort;
    hide LinkGoal, GoalLinks, GoalIndex, GoalRules, Foreign;
    var u' := ReconcileOne(u, t).0;
    ReconcileOneFrame(u, t);
    CrashKeepsGoal(u, t, n);
    StepCut(u, t, n);
    StepCutShort(u, t);
    CutShortIsOwn(u.db.ops, u'.db.ops, t.id, DoneMessage(t));
    if t.id !in u'.db.tunnels {
      OnlyDeletedRowsGo(u, t);
      StepSwept(u, t, n);
    } else if t.desired.Enabled? {
      GoalIsLinkGoal(u.kern, u'.kern, t);
    }
  }

  lemma StepSwept(u: World, t: Tunnel, n: nat)
    requires Recoverable(u, t) && u.kern.env.DiesAt(n) && t.desired.Deleted?
    requires t.id !in ReconcileOne(u, t).0.db.tunnels
    ensures RulesAre(ReconcileOne(u, t).0.kern.rules, t, u.kern.egress.value, false)
  {
    hide RemoveOne, RulesAre, NoDoubles;
    DyingLater(u.kern.env, u.kern.env.Next(), n);
    DroppedIsSwept(u.Execute(u.db.MarkOperationsRunning(t.id)).0, t, n);
  }

  lemma MendableAlike(w: World, u: World, u': World, c: World, t: Tunnel)
    requires Alike(w, u, t) && Mendable(u, u', t) && Alike(u', c, t)
    requires t.desired.Enabled? && t.id in c.db.tunnels ==> Keeps(c.kern, t) || Available(c.kern, t)
    ensures Mendable(w, c, t)
  {
    hide RequiresRecreate, AtMostOnce, Repaired, Available, CutShort;
  }

  lemma CrashedPass(w: World, rows: seq<Tunnel>, t: Tunnel, n: nat)
    requires Hopeful(w, rows, t) && w.kern.env.DiesAt(n) && Claimable(Pass(w, rows).kern, t)
    ensures Mendable(w, Pass(w, rows), t)
  {
    hide ReconcileOne, Pass, Others, Unrivalled, Recoverable, Mendable;
    hide RequiresRecreate, Available, OwnOpsAlike, OwnRulesAlike;
    HopefulIsListed(w, rows, t);
    var pre, post := TurnOf(w, rows, t);
    var u := Pass(w, pre);
    var u' := ReconcileOne(u, t).0;
    assert pre <= rows;
    TurnComes(w, pre, rows, t);
    DyingLater(w.kern.env, u.kern.env, n);
    PassAlike(u', post, t);
    StepWounds(u, t, n);
    if t.desired.Enabled? && t.id in u'.db.tunnels {
      MendableHasRoom(u, u', t);
      UnrivalledPart(rows, post, t);
      if Available(u'.kern, t) { PassKeepsRoom(u', post, t); }
    }
    MendableAlike(w, u, u', Pass(w, rows), t);
  }

  lemma MendableHasRoom(u: World, u': World, t: Tunnel)
    requires Mendable(u, u', t) && t.desired.Enabled? && t.id in u'.db.tunnels
    ensures Keeps(u'.kern, t) || Available(u'.kern, t)
  {
  }

  lemma UnrivalledPart(rows: seq<Tunnel>, part: seq<Tunnel>, t: Tunnel)
    requires forall s | s in part :: s in rows
    ensures Unrivalled(rows, t) ==> Unrivalled(part, t)
  {
  }

  // ---------- the restart and the pass after it ----------

  /** The restarted process, its table listed. */
  function Resumed(c: World, later: Env): World {
    var b := Reborn(c, later);
    b.(kern := b.kern.Tick())
  }

  lemma ResumedIs(c: World, later: Env)
    requires later.Quiet()
    ensures var b := Resumed(c, later);
      && b.kern == c.kern.(env := b.kern.env) && b.kern.env.Quiet()
      && b.db.ops == c.db.RequeueRunning().0.ops
      && b.db.tunnels.Keys == c.db.tunnels.Keys
      && (forall id | id in b.db.tunnels :: b.db.tunnels[id] == c.db.tunnels[id].(retryAt := None))
      && (c.db.Valid() ==> b.db.Valid())
  {
    hide Reborn, Db.Valid;
    RebornIs(c, later);
    QuietLater(Reborn(c, later).kern.env, Reborn(c, later).kern.Tick().env);
  }

  /** The second listing holds rows of the first, as far as the operator is concerned. */
  lemma SecondListing(w: World, rows: seq<Tunnel>, later: Env, rows2: seq<Tunnel>, r: Tunnel) returns (s: Tunnel)
    requires w.db.Valid() && w.db.IsListing(rows) && later.Quiet()
    requires Resumed(Pass(w, rows), later).db.IsListing(rows2) && r in rows2
    ensures s in rows && s.Intent() == r.Intent()
  {
    hide Pass, Resumed, Db.Valid, Advances;
    PassKeepsIntent(w, rows);
    ResumedIs(Pass(w, rows), later);
    s := w.db.tunnels[r.id];
    assert r == Resumed(Pass(w, rows), later).db.tunnels[r.id];
  }

  lemma SecondListingFits(w: World, rows: seq<Tunnel>, later: Env, rows2: seq<Tunnel>, t: Tunnel)
    requires w.db.Valid() && w.db.IsListing(rows) && later.Quiet() && t in rows
    requires Resumed(Pass(w, rows), later).db.IsListing(rows2)
    ensures Unrivalled(rows, t) ==> Unrivalled(rows2, t)
    ensures forall r | r in rows2 && r.name == t.name :: r.id == t.id
  {
    hide Pass, Resumed;
    forall r | r in rows2
      ensures r.name == t.name ==> r.id == t.id
      ensures Unrivalled(rows, t) && r.id != t.id && !r.desired.Deleted? ==> !Fresh(0, r).SameTuple(Fresh(0, t))
    {
      var s := SecondListing(w, rows, later, rows2, r);
      assert s.id == r.id && s.name == r.name && s.local == r.local && s.remote == r.remote && s.desired == r.desired;
    }
  }

  lemma MendedOps(ops: seq<Operation>, crashed: seq<Operation>, ended: seq<Operation>, id: TunnelId, message: string)
    requires OwnCutShort(ops, crashed, id, message)
    requires OwnSucceeded(Db(map[], crashed).RequeueRunning().0.ops, ended, id, message)
    ensures OwnSucceeded(ops, ended, id, message)
  {
    var requeued := Db(map[], crashed).RequeueRunning().0.ops;
    forall i | 0 <= i < |ops|
      ensures ended[i].resource == ops[i].resource
      ensures ops[i].resource == id ==>
        if ops[i].Open()
        then ended[i].(finishedAt := None) == ops[i].(status := Success, message := Text(message), finishedAt := None)
             && ended[i].finishedAt.Some?
        else ended[i] == ops[i]
    {
      assert requeued[i] == RequeuedOp(crashed[i]);
      if ops[i].resource == id && ops[i].Open() { assert CutShort(ops[i], crashed[i], message); }
    }
  }

  /** The row survived: the second pass gets through to it, and ends where the first would have. */
  lemma SurvivorMends(w: World, rows: seq<Tunnel>, t: Tunnel, later: Env, rows2: seq<Tunnel>)
    requires Hopeful(w, rows, t) && later.Quiet()
    requires var c := Pass(w, rows);
      && c.db.Valid() && Mendable(w, c, t) && Claimable(c.kern, t) && t.id in c.db.tunnels
      && Resumed(c, later).db.IsListing(rows2)
    ensures Arrived(w, Pass(Resumed(Pass(w, rows), later), rows2), t)
  {
    hide Pass, Resumed, RulesAre, NoDoubles, RequiresRecreate, Available;
    hide Unrivalled, Repaired, Arrived, Db.Valid;
    var c := Pass(w, rows);
    var b := Resumed(c, later);
    ResumedIs(c, later);
    var s := b.db.tunnels[t.id];
    HopefulIsListed(w, rows, t);
    SecondListingFits(w, rows, later, rows2, t);
    SnapshotIsHopeful(c, b, t, s, rows2);
    PassArrives(b, rows2, s);
    ArrivedBack(w, c, b, Pass(b, rows2), t, s);
  }

  lemma SnapshotIsHopeful(c: World, b: World, t: Tunnel, s: Tunnel, rows2: seq<Tunnel>)
    requires b.kern == c.kern.(env := b.kern.env) && b.db.Valid() && b.db.IsListing(rows2)
    requires t.id in b.db.tunnels && b.db.tunnels[t.id] == s && s.Intent() == t.Intent() && s.retryAt.None?
    requires c.kern.egress.Some? && NoDoubles(c.kern.rules, t, c.kern.egress.value) && Claimable(c.kern, t)
    requires t.typ.Gre? && !t.desired.Disabled?
    requires t.desired.Enabled? ==>
      !t.address.BadCidr? && (Keeps(c.kern, t) || Available(c.kern, t)) && Unrivalled(rows2, t)
    ensures Hopeful(b, rows2, s)
  {
    hide AtMostOnce, Db.Valid;
    SnapshotIsGoalBlind(c.kern, t, s);
    KernIgnoresEnv(c.kern, b.kern, s);
  }

  lemma ArrivedBack(w: World, c: World, b: World, e: World, t: Tunnel, s: Tunnel)
    requires Mendable(w, c, t) && t.id in c.db.tunnels
    requires b.kern == c.kern.(env := b.kern.env) && b.db.ops == c.db.RequeueRunning().0.ops
    requires s.Intent() == t.Intent() && !t.desired.Disabled? && Arrived(b, e, s)
    ensures Arrived(w, e, t)
  {
    hide AtMostOnce, RequiresRecreate, Available, Repaired, OwnCutShort, OwnSucceeded;
    SnapshotIsGoalBlind(c.kern, t, s);
    KernIgnoresEnv(c.kern, b.kern, s);
    assert Db(map[], c.db.ops).RequeueRunning().0.ops == c.db.RequeueRunning().0.ops;
    MendedOps(w.db.ops, c.db.ops, e.db.ops, t.id, DoneMessage(t));
    assert LinkGoal(b.kern, s) == LinkGoal(c.kern, t);
  }

  /** The row was dropped and nothing of the tunnel is open: there is nothing left to do, and nothing is done. */
  lemma GoneMends(w: World, rows: seq<Tunnel>, t: Tunnel, later: Env, rows2: seq<Tunnel>)
    requires Hopeful(w, rows, t) && later.Quiet()
    requires var c := Pass(w, rows);
      && Mendable(w, c, t) && t.id !in c.db.tunnels && NoneOpen(c.db.ops, t.id)
      && Resumed(c, later).db.IsListing(rows2)
    ensures Arrived(w, Pass(Resumed(Pass(w, rows), later), rows2), t)
  {
    hide Pass, Resumed, RulesAre, NoDoubles, RequiresRecreate, AtMostOnce, Db.Valid;
    var c := Pass(w, rows);
    var b := Resumed(c, later);
    HopefulIsListed(w, rows, t);
    ResumedIs(c, later);
    SecondListingFits(w, rows, later, rows2, t);
    PassAlike(b, rows2, t);
    RulesAreAlike(b.kern, Pass(b, rows2).kern, t, w.kern.egress.value);
    ClosedOps(w.db.ops, c.db.ops, Pass(b, rows2).db.ops, t.id, DoneMessage(t));
  }

  lemma RulesAreAlike(k: Kern, k': Kern, t: Tunnel, egress: Name)
    requires OwnRulesAlike(k, k', t) && k.egress == Some(egress) && RulesAre(k.rules, t, egress, false)
    ensures RulesAre(k'.rules, t, egress, false)
  {
  }

  lemma ClosedOps(ops: seq<Operation>, crashed: seq<Operation>, ended: seq<Operation>, id: TunnelId, message: string)
    requires OwnCutShort(ops, crashed, id, message) && NoneOpen(crashed, id)
    requires OwnOpsAlike(Db(map[], crashed).RequeueRunning().0.ops, ended, id)
    ensures OwnSucceeded(ops, ended, id, message)
  {
    var requeued := Db(map[], crashed).RequeueRunning().0.ops;
    forall i | 0 <= i < |ops|
      ensures ended[i].resource == ops[i].resource
      ensures ops[i].resource == id ==>
        if ops[i].Open()
        then ended[i].(finishedAt := None) == ops[i].(status := Success, message := Text(message), finishedAt := None)
             && ended[i].finishedAt.Some?
        else ended[i] == ops[i]
    {
      assert requeued[i] == RequeuedOp(crashed[i]);
      if ops[i].resource == id && ops[i].Open() { assert CutShort(ops[i], crashed[i], message); }
    }
  }

  // ---------- the theorem ----------

  /** To the tunnel both ends are one, but for times and the index of an interface made anew. */
  ghost predicate SameFor(a: World, b: World, t: Tunnel) {
    && (t.name in a.kern.links <==> t.name in b.kern.links)
    && (t.name in a.kern.links ==> a.kern.links[t.name].(index := 0) == b.kern.links[t.name].(index := 0))
    && (t.id in a.db.tunnels <==> t.id in b.db.tunnels)
    && (t.id in a.db.tunnels ==> a.db.tunnels[t.id].(updatedAt := 0) == b.db.tunnels[t.id].(updatedAt := 0))
    && |a.db.ops| == |b.db.ops|
    && (forall i | 0 <= i < |a.db.ops| ::
          && a.db.ops[i].resource == b.db.ops[i].resource
          && (b.db.ops[i].resource == t.id ==>
            && a.db.ops[i].(finishedAt := None) == b.db.ops[i].(finishedAt := None)
            && (a.db.ops[i].finishedAt.Some? <==> b.db.ops[i].finishedAt.Some?)))
    && a.kern.egress == b.kern.egress
    && (forall r | r in OwnRules(t, a.kern.egress) :: r in a.kern.rules <==> r in b.kern.rules)
  }

  function OwnRules(t: Tunnel, egress: Option<Name>): set<Rule> {
    {IngressRule(t), LegacyRule(t)} + if egress.Some? then {NatRule(t, egress.value)} else {}
  }

  lemma ArrivedAgree(w: World, a: World, b: World, t: Tunnel)
    requires Arrived(w, a, t) && Arrived(w, b, t)
    ensures SameFor(a, b, t)
  {
    hide RequiresRecreate, Repaired;
  }

  lemma ArrivedIsClaimed(w: World, d: World, t: Tunnel)
    requires Claimable(w.kern, t) && Arrived(w, d, t)
    ensures Claimable(d.kern, t)
  {
    hide Repaired, RequiresRecreate;
    assert t.name in d.kern.links ==> LinkGoal(w.kern, t).alias == Marker(t.id);
    assert t.name in d.kern.links ==> d.kern.links[t.name].(index := 0).alias == Marker(t.id);
  }

  lemma ArrivedIsClosed(w: World, d: World, t: Tunnel)
    requires Arrived(w, d, t)
    ensures NoneOpen(d.db.ops, t.id)
  {
    forall i | 0 <= i < |d.db.ops| && d.db.ops[i].resource == t.id ensures !d.db.ops[i].Open() {
      if w.db.ops[i].Open() {
        assert d.db.ops[i].(finishedAt := None).status.Success?;
      }
    }
  }

  lemma OpenIsNotClosed(e: World, d: World, t: Tunnel, i: nat)
    requires i < |e.db.ops| && e.db.ops[i].resource == t.id && e.db.ops[i].Open() && NoneOpen(d.db.ops, t.id)
    ensures !SameFor(e, d, t)
  {
  }

  /** A pass that died left it unfinished, and whatever comes after will not finish it. */
  lemma GapsStay(w: World, rows: seq<Tunnel>, t: Tunnel, later: Env, rows2: seq<Tunnel>, d: World)
    requires Hopeful(w, rows, t) && later.Quiet() && Arrived(w, d, t)
    requires Resumed(Pass(w, rows), later).db.IsListing(rows2)
    requires !Claimable(Pass(w, rows).kern, t)
      || (t.id !in Pass(w, rows).db.tunnels && !NoneOpen(Pass(w, rows).db.ops, t.id))
    ensures !SameFor(Pass(Resumed(Pass(w, rows), later), rows2), d, t)
  {
    hide Pass, Resumed, RulesAre, NoDoubles, Repaired, Db.Valid, ForeignToAll;
    var c := Pass(w, rows);
    var b := Resumed(c, later);
    HopefulIsListed(w, rows, t);
    ResumedIs(c, later);
    SecondListingFits(w, rows, later, rows2, t);
    if !Claimable(c.kern, t) {
      PassOwnership(b, rows2, t.name, set s | s in rows2 :: Marker(s.id));
      ArrivedIsClaimed(w, d, t);
    } else {
      var i :| 0 <= i < |c.db.ops| && c.db.ops[i].resource == t.id && c.db.ops[i].Open();
      assert b.db.ops[i] == RequeuedOp(c.db.ops[i]);
      PassOps(b, rows2, i);
      var e := Pass(b, rows2);
      ArrivedIsClosed(w, d, t);
      OpenIsNotClosed(e, d, t, i);
    }
  }

  /**
    The process dies at primitive n of a pass, whichever that is and whosever step it falls into;
    it restarts, lists the table, and makes one pass with nothing failing. For every tunnel that is
    enabled or to go, that could have been got through to and whose endpoints no other row asks
    for, everything is then as an uninterrupted pass would have left it, if and only if the crash
    left no link under its name without its marker, and its row is still there or nothing of it is
    open any more. What the other tunnels of the table are, and how they fared, is of no concern.
  */
  lemma CrashedPassRecoversIff(
      w: World, rows: seq<Tunnel>, t: Tunnel, n: nat, later: Env, rows2: seq<Tunnel>, never: Env)
    requires Hopeful(w, rows, t) && w.kern.env.DiesAt(n)
    requires later.Quiet() && never.Quiet() && Due(t, never.now)
    requires Resumed(Pass(w, rows), later).db.IsListing(rows2)
    ensures var c := Pass(w, rows);
      SameFor(Pass(Resumed(c, later), rows2), Pass(w.(kern := w.kern.(env := never)), rows), t) <==>
      Claimable(c.kern, t) && (t.id in c.db.tunnels || NoneOpen(c.db.ops, t.id))
  {
    hide Pass, Resumed, Claimable, Arrived, SameFor, Mendable, NoneOpen, Db.Valid;
    var c := Pass(w, rows);
    var u := w.(kern := w.kern.(env := never));
    HopefulIsListed(w, rows, t);
    PassKeepsIntent(w, rows);
    HopefulAnyTime(w, rows, t, never);
    PassArrives(u, rows, t);
    ArrivedAnyTime(w, Pass(u, rows), t, never);
    if Claimable(c.kern, t) && (t.id in c.db.tunnels || NoneOpen(c.db.ops, t.id)) {
      CrashedPass(w, rows, t, n);
      if t.id in c.db.tunnels {
        SurvivorMends(w, rows, t, later, rows2);
      } else {
        GoneMends(w, rows, t, later, rows2);
      }
      ArrivedAgree(w, Pass(Resumed(c, later), rows2), Pass(u, rows), t);
    } else {
      GapsStay(w, rows, t, later, rows2, Pass(u, rows));
    }
  }

  lemma HopefulAnyTime(w: World, rows: seq<Tunnel>, t: Tunnel, e: Env)
    requires Hopeful(w, rows, t) && Due(t, e.now)
    ensures Hopeful(w.(kern := w.kern.(env := e)), rows, t)
  {
    hide AtMostOnce, RequiresRecreate;
  }

  lemma ArrivedAnyTime(w: World, d: World, t: Tunnel, e: Env)
    requires Arrived(w.(kern := w.kern.(env := e)), d, t)
    ensures Arrived(w, d, t)
  {
    hide Repaired, RequiresRecreate, RulesAre;
  }
}
