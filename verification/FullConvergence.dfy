/**
  Convergence in full: when the second pass is due, what of the firewall, and which disabled
  tunnels are in it, all told from the world before the first pass.
*/
module FullConvergence {
  import opened Domain
  import opened Kernel
  import opened Provider
  import opened Healing
  import opened Goal
  import opened Store
  import opened Controller
  import opened Frames
  import opened QuietSteps
  import opened Truth
  import opened Convergence
  import opened PassRecovery
  import Backoff

  // ---------- when the second pass is due ----------

  /** No retry lies further ahead than the cap. */
  ghost predicate NoneFar(db: Db, now: nat) {
    forall id | id in db.tunnels && db.tunnels[id].retryAt.Some? :: db.tunnels[id].retryAt.value <= now + CAP
  }

  lemma StepNoneFar(w: World, t: Tunnel)
    requires t.id in w.db.tunnels && w.db.tunnels[t.id] == t && NoneFar(w.db, w.Now())
    ensures var w' := ReconcileOne(w, t).0; NoneFar(w'.db, w'.Now()) && w.Now() <= w'.Now()
  {
    hide ReconcileOne, RetryDelay, OwnershipMarked, Foreign, Db.Valid, Advances;
    var w' := ReconcileOne(w, t).0;
    ReconcileOneFrame(w, t);
    Backoff.StepMoves(w, t);
    RetryDelayShape(t.failureCount + 1, t.failureCount + 1);
    forall id | id in w'.db.tunnels && w'.db.tunnels[id].retryAt.Some?
      ensures w'.db.tunnels[id].retryAt.value <= w'.Now() + CAP
    {
      if id != t.id { RowsElsewhere(w.db, w'.db, t.id, id); }
    }
  }

  lemma {:induction false} PassNoneFar(w: World, rows: seq<Tunnel>)
    requires Current(w.db, rows) && NoneFar(w.db, w.Now())
    ensures NoneFar(Pass(w, rows).db, Pass(w, rows).Now())
    decreases |rows|
  {
    hide ReconcileOne, NoneFar;
    if rows != [] {
      StepNoneFar(w, rows[0]);
      StaysCurrent(w, rows);
      PassNoneFar(ReconcileOne(w, rows[0]).0, rows[1..]);
    }
  }

  /** Five minutes after a pass over due rows every row is due again. */
  lemma DueAfterCap(w: World, rows: seq<Tunnel>, rows2: seq<Tunnel>, now: nat)
    requires PassReady(w, rows) && w.db.IsListing(rows) && Pass(w, rows).db.IsListing(rows2)
    requires Pass(w, rows).Now() + CAP <= now
    ensures forall t | t in rows2 :: Due(t, now)
  {
    hide Pass, Claimable;
    forall id | id in w.db.tunnels && w.db.tunnels[id].retryAt.Some?
      ensures w.db.tunnels[id].retryAt.value <= w.Now() + CAP
    {
      assert w.db.tunnels[id] in rows;
    }
    PassNoneFar(w, rows);
  }

  // ---------- rules ----------

  lemma ReconciledRules(k: Kern, t: Tunnel)
    ensures Reconciled(k, t).0.rules in [k.rules, MasqueradeEnsured(AtRules(k, t), t, WantsMasquerade(t)).0.rules]
  {
    hide Acquire, AddressEnsured, MasqueradeEnsured, Foreign, RuleFrame;
  }

  lemma QuietReconcileSingles(k: Kern, t: Tunnel)
    requires k.env.Quiet() && k.egress.Some? && NoDoubles(k.rules, t, k.egress.value)
    ensures NoDoubles(Reconciled(k, t).0.rules, t, k.egress.value)
  {
    hide Reconciled, AtRules, MasqueradeEnsured, GoalRules, NoDoubles, RulesAre;
    ReconciledRules(k, t);
    AtRulesFrame(k, t);
    QuietLater(k.env, AtRules(k, t).env);
    QuietMasquerade(AtRules(k, t), t, WantsMasquerade(t));
    GoalRulesTwice(k.rules, t, k.egress.value, WantsMasquerade(t));
  }

  /** A fault-free step doubles no rule, whether it succeeds or not. */
  lemma QuietStepSingles(w: World, t: Tunnel)
    requires Startable(w, t) && NoDoubles(w.kern.rules, t, w.kern.egress.value)
    ensures var k' := ReconcileOne(w, t).0.kern;
      && k'.egress == w.kern.egress && NoDoubles(k'.rules, t, w.kern.egress.value)
      && (t.desired.Deleted? ==> RulesAre(k'.rules, t, w.kern.egress.value, false))
  {
    hide ReconcileOne, GoalRules, NoDoubles, RulesAre, Foreign, DbFrame;
    ReconcileOneFrame(w, t);
    if t.desired.Deleted? {
      QuietDelete(w, t);
      GoalRulesTwice(w.kern.rules, t, w.kern.egress.value, false);
    } else {
      QuietStepRules(w, t);
    }
  }

  lemma QuietStepRules(w: World, t: Tunnel)
    requires Startable(w, t) && !t.desired.Deleted? && NoDoubles(w.kern.rules, t, w.kern.egress.value)
    ensures NoDoubles(ReconcileOne(w, t).0.kern.rules, t, w.kern.egress.value)
  {
    hide ApplyOne, RemoveOne, Fail, Reconciled, NoDoubles, Claimable;
    QuietExecute(w, w.db.MarkOperationsRunning(t.id));
    var w1 := w.Execute(w.db.MarkOperationsRunning(t.id)).0;
    ApplyKernel(w1, t);
    QuietReconcileSingles(w1.kern, t);
  }

  // ---------- a pass up to the tunnel's turn ----------

  lemma {:induction false} PassReadyAfter(w: World, pre: seq<Tunnel>, rest: seq<Tunnel>)
    requires PassReady(w, pre + rest)
    ensures PassReady(Pass(w, pre), rest)
    decreases |pre|
  {
    hide ReconcileOne, PassReady, Startable;
    if pre == [] {
      assert pre + rest == rest;
    } else {
      assert (pre + rest)[0] == pre[0] && (pre + rest)[1..] == pre[1..] + rest;
      PassReadyStep(w, pre + rest);
      PassReadyAfter(ReconcileOne(w, pre[0]).0, pre[1..], rest);
    }
  }

  lemma {:induction false} PassKeepsPeace(w: World, pre: seq<Tunnel>, rest: seq<Tunnel>, all: set<Tunnel>)
    requires PassReady(w, pre + rest) && Listed(pre, all) && WellPosed(all) && Peaceful(w.kern, all)
    ensures Peaceful(Pass(w, pre).kern, all)
    decreases |pre|
  {
    hide ReconcileOne, PassReady, Startable, WellPosed, Peaceful;
    if pre != [] {
      assert (pre + rest)[0] == pre[0] && (pre + rest)[1..] == pre[1..] + rest;
      assert pre[0] in pre;
      PassReadyStep(w, pre + rest);
      StepKeepsPeace(w, pre[0], all);
      PassKeepsPeace(ReconcileOne(w, pre[0]).0, pre[1..], rest, all);
    }
  }

  /** The tunnel's turn in a fault-free pass: the world it finds, and what follows leaves it alone. */
  lemma ReadyTurn(w: World, rows: seq<Tunnel>, s: Tunnel) returns (pre: seq<Tunnel>, post: seq<Tunnel>)
    requires PassReady(w, rows) && s in rows
    ensures rows == pre + ([s] + post) && Others(pre, s) && Others(post, s)
    ensures Startable(Pass(w, pre), s) && Alike(w, Pass(w, pre), s)
    ensures Alike(ReconcileOne(Pass(w, pre), s).0, Pass(w, rows), s)
  {
    hide ReconcileOne, Pass, Alike, Startable;
    ReadyIsCurrent(w, rows);
    pre, post := TurnOf(w, rows, s);
    assert pre + [s] + post == pre + ([s] + post);
    PassReadyAfter(w, pre, [s] + post);
    PassReadyStep(Pass(w, pre), [s] + post);
    PassAlike(w, pre, s);
    PassAlike(ReconcileOne(Pass(w, pre), s).0, post, s);
  }

  lemma ReadyIsCurrent(w: World, rows: seq<Tunnel>)
    requires PassReady(w, rows)
    ensures w.db.Valid() && Current(w.db, rows) && w.kern.env.Quiet() && w.kern.egress.Some?
  {
  }

  /** A fault-free pass doubles no rule of a listed tunnel, and leaves none of a deleted one. */
  lemma PassSingles(w: World, rows: seq<Tunnel>, s: Tunnel)
    requires PassReady(w, rows) && s in rows && NoDoubles(w.kern.rules, s, w.kern.egress.value)
    ensures var k' := Pass(w, rows).kern;
      && k'.egress == w.kern.egress && NoDoubles(k'.rules, s, w.kern.egress.value)
      && (s.desired.Deleted? ==> RulesAre(k'.rules, s, w.kern.egress.value, false))
  {
    hide ReconcileOne, Pass, AtMostOnce, PassReady, Startable, Others, OwnOpsAlike;
    ReadyIsCurrent(w, rows);
    var pre, post := ReadyTurn(w, rows, s);
    QuietStepSingles(Pass(w, pre), s);
  }

  lemma PartListed(rows: seq<Tunnel>, pre: seq<Tunnel>, rest: seq<Tunnel>, all: set<Tunnel>)
    requires rows == pre + rest && Listed(rows, all)
    ensures Listed(pre, all)
  {
    forall t | t in pre ensures t.Intent() in all { assert t in rows; }
  }

  /** With nothing stale left a fault-free pass puts the rules of a tunnel that is to stay as wanted. */
  lemma PassRules(w: World, rows: seq<Tunnel>, all: set<Tunnel>, s: Tunnel)
    requires PassReady(w, rows) && Listed(rows, all) && WellPosed(all) && Peaceful(w.kern, all)
    requires s in rows && NoDoubles(w.kern.rules, s, w.kern.egress.value)
    requires s.desired.Enabled? || (s.desired.Disabled? && s.name in w.kern.links)
    ensures RulesAre(Pass(w, rows).kern.rules, s, w.kern.egress.value, WantsMasquerade(s))
  {
    hide ReconcileOne, Pass, AtMostOnce, PassReady, Startable, Others;
    hide OwnOpsAlike, WellPosed, Peaceful, GoalRules;
    hide RequiresRecreate, Available;
    ReadyIsCurrent(w, rows);
    var pre, post := ReadyTurn(w, rows, s);
    var u := Pass(w, pre);
    PartListed(rows, pre, [s] + post, all);
    PassKeepsPeace(w, pre, [s] + post, all);
    assert s in rows;
    StepRules(u, s, all);
  }

  lemma StepRules(u: World, s: Tunnel, all: set<Tunnel>)
    requires Startable(u, s) && s.Intent() in all && WellPosed(all) && Peaceful(u.kern, all)
    requires s.desired.Enabled? || (s.desired.Disabled? && s.name in u.kern.links)
    requires NoDoubles(u.kern.rules, s, u.kern.egress.value)
    ensures ReconcileOne(u, s).0.kern.egress == u.kern.egress
    ensures RulesAre(ReconcileOne(u, s).0.kern.rules, s, u.kern.egress.value, WantsMasquerade(s))
  {
    hide ReconcileOne, RequiresRecreate, NoDoubles, RulesAre, GoalRules, GoalLinks, GoalIndex, AllSucceeded;
    hide Foreign, DbFrame;
    ReconcileOneFrame(u, s);
    PeaceMakesRoom(u.kern, all, s.Intent());
    OnlyIntentMatters(u.kern, s);
    assert Clean(u.kern, s.Intent());
    QuietApply(u, s);
    GoalRulesTwice(u.kern.rules, s, u.kern.egress.value, WantsMasquerade(s));
  }

  // ---------- disabled tunnels ----------

  /** A disabled tunnel whose link will do still has it after a fault-free pass. */
  lemma PassKeepsLink(w: World, rows: seq<Tunnel>, s: Tunnel)
    requires PassReady(w, rows) && s in rows && s.desired.Disabled? && !s.address.BadCidr? && Keeps(w.kern, s)
    ensures s.name in Pass(w, rows).kern.links
  {
    hide ReconcileOne, Pass, PassReady, Others, OwnOpsAlike;
    hide OwnRulesAlike, RequiresRecreate, GoalRules, AllSucceeded;
    var pre, post := ReadyTurn(w, rows, s);
    QuietApply(Pass(w, pre), s);
  }

  // ---------- the theorem ----------

  /**
    Two passes, the second at least five minutes after the first has ended, with nothing failing but
    EEXIST and no outside change; the hypotheses speak of the world before the first. Then every
    enabled tunnel, and every disabled one whose link would do, is as stored, firewall included,
    and its row says so; every deleted one is gone with its rules.
  */
  lemma TwoPassesSuffice(w: World, rows1: seq<Tunnel>, later: Env, rows2: seq<Tunnel>, s: Tunnel)
    requires PassReady(w, rows1) && w.db.IsListing(rows1)
    requires WellPosed(Intents(rows1)) && NoSquatter(w.kern, Intents(rows1))
    requires later.Quiet() && Pass(w, rows1).Now() + CAP <= later.now
    requires Pass(w, rows1).db.IsListing(rows2)
    requires s in rows1 && NoDoubles(w.kern.rules, s, w.kern.egress.value)
    ensures
      var w1 := Pass(w, rows1);
      var w2 := Pass(w1.(kern := w1.kern.(env := later)), rows2);
      && (s.desired.Enabled? || (s.desired.Disabled? && Keeps(w.kern, s)) ==> Converged(w2, s) && FullyApplied(w2, s))
      && (s.desired.Deleted? ==> FullyApplied(w2, s))
  {
    hide Pass, PassReady, WellPosed, NoSquatter, Peaceful, RulesAre, NoDoubles, Keeps, LinkApplied, AddressIs;
    hide IsHealthy, Db.IsListing;
    DueAfterCap(w, rows1, rows2, later.now);
    TwoPassConvergence(w, rows1, later, rows2, s);
    var w1 := Pass(w, rows1);
    var v := w1.(kern := w1.kern.(env := later));
    PassSingles(w, rows1, s);
    PassKeepsEgress(w, rows1);
    PassKeepsEgress(v, rows2);
    ReadyIsCurrent(w, rows1);
    if s.desired.Deleted? {
      DeletedRulesStay(w, rows1, v, rows2, s);
    } else if s.desired.Enabled? || Keeps(w.kern, s) {
      if s.desired.Disabled? {
        WellPosedParses(rows1, s);
        PassKeepsLink(w, rows1, s);
      }
      SurvivorRules(w, rows1, later, rows2, s);
    }
  }

  lemma WellPosedParses(rows: seq<Tunnel>, s: Tunnel)
    requires WellPosed(Intents(rows)) && s in rows && !s.desired.Deleted?
    ensures !s.address.BadCidr?
  {
    assert s.Intent() in Intents(rows);
  }

  lemma DeletedRulesStay(w: World, rows1: seq<Tunnel>, v: World, rows2: seq<Tunnel>, s: Tunnel)
    requires PassReady(w, rows1) && w.db.IsListing(rows1) && Pass(w, rows1).db.IsListing(rows2)
    requires WellPosed(Intents(rows1)) && s in rows1 && s.desired.Deleted?
    requires v == Pass(w, rows1).(kern := v.kern) && v.kern.egress.Some?
    requires RulesAre(v.kern.rules, s, v.kern.egress.value, false)
    ensures RulesAre(Pass(v, rows2).kern.rules, s, v.kern.egress.value, false)
  {
    hide Pass, PassReady, WellPosed, OwnOpsAlike, Clean;
    PassCleans(w, rows1, s);
    forall t | t in rows2 ensures t.id != s.id && t.name != s.name {
      SecondRowOrigin(w, rows1, rows2, t, s);
    }
    PassAlike(v, rows2, s);
  }

  lemma SurvivorRules(w: World, rows1: seq<Tunnel>, later: Env, rows2: seq<Tunnel>, s: Tunnel)
    requires PassReady(w, rows1) && w.db.IsListing(rows1) && later.Quiet()
    requires WellPosed(Intents(rows1)) && NoSquatter(w.kern, Intents(rows1))
    requires Pass(w, rows1).db.IsListing(rows2) && forall t | t in rows2 :: Due(t, later.now)
    requires s in rows1 && w.kern.egress.Some? && NoDoubles(Pass(w, rows1).kern.rules, s, w.kern.egress.value)
    requires s.desired.Enabled? || (s.desired.Disabled? && s.name in Pass(w, rows1).kern.links)
    ensures
      var w1 := Pass(w, rows1);
      var w2 := Pass(w1.(kern := w1.kern.(env := later)), rows2);
      RulesAre(w2.kern.rules, s, w.kern.egress.value, WantsMasquerade(s))
  {
    hide Pass, PassReady, WellPosed, NoSquatter, Peaceful, AtMostOnce, Db.IsListing;
    var w1 := Pass(w, rows1);
    var v := w1.(kern := w1.kern.(env := later));
    PassLeavesPeace(w, rows1);
    PassKeepsEgress(w, rows1);
    SecondPassReady(w, rows1, later, rows2);
    PeaceIsTimeless(w1.kern, later, Intents(rows1));
    var s2 := SurvivorListed(w, rows1, rows2, s);
    PassRules(v, rows2, Intents(rows1), s2);
  }

  lemma PeaceIsTimeless(k: Kern, e: Env, all: set<Tunnel>)
    requires Peaceful(k, all)
    ensures Peaceful(k.(env := e), all)
  {
  }
}
