/** Resuming a run from a coherent snapshot computes what the run over all grants from the
    start of measurement computes. */
module Resumption {
  import opened Grants
  import opened Reference
  import opened Balances
  import opened Projection
  import opened Checkpoints
  import opened World

  /** Any run starting at `s` lists the grant. */
  predicate Reaches(g: Grant, s: Time) {
    && g.amount >= 0.0 && g.effectiveAt <= s
    && (g.effectiveAt == s || g.expiresAt.None? || g.expiresAt.value > s)
    && (g.deletedAt.None? || g.deletedAt.value >= s)
    && (g.voidedAt.None? || g.voidedAt.value >= s)
  }

  lemma ReachesIsListed(g: Grant, s: Time, at: Time)
    requires Reaches(g, s) && s <= at
    ensures Listed(g, s, at)
  {
  }

  lemma ActiveReaches(g: Grant, s: Time)
    requires Active(g, s) && Sane(g)
    ensures Reaches(g, s)
  {
  }

  /** The snapshot stands for state `c`: every later computation over all grants agrees. */
  predicate Stands(gs: seq<Grant>, c: State, snap: Snapshot)
    requires Fits(gs, c)
  {
    SameFrom(gs, Filled(gs, snap), c, snap.at)
  }

  predicate Covered(gs: seq<Grant>, snap: Snapshot) {
    forall id :: id in snap.balances ==> exists i :: 0 <= i < |gs| && gs[i].id == id && Reaches(gs[i], snap.at)
  }

  // ------------------------------------------------------- grants of a run

  lemma SortedGrants(w: World)
    requires Distinct(w.grants) && AllSane(w.grants)
    ensures var gs := Prioritize(w.grants); Distinct(gs) && AllSane(gs) && Ids(gs) == Ids(w.grants)
  {
    var gs := Prioritize(w.grants);
    PrioritizeOrders(w.grants);
    PrioritizePermutes(w.grants);
    forall i | 0 <= i < |gs| ensures Sane(gs[i]) {
      assert gs[i] in w.grants;
    }
  }

  lemma RunGrantsPicked(w: World, snap: Snapshot, at: Time)
    requires Distinct(w.grants)
    ensures var gs := Prioritize(w.grants);
      RunGrants(w, snap, at) == Pick(gs, ListMask(gs, snap.at, at))
    ensures Distinct(RunGrants(w, snap, at))
  {
    PrioritizeListed(w.grants, snap.at, at);
    PickListed(Prioritize(w.grants), snap.at, at);
    ListActiveIn(w.grants, snap.at, at);
    PrioritizeOrders(ListActive(w.grants, snap.at, at));
  }

  lemma RunGrantsMembers(w: World, snap: Snapshot, at: Time)
    requires Distinct(w.grants)
    ensures forall g :: g in RunGrants(w, snap, at) <==> g in Prioritize(w.grants) && Listed(g, snap.at, at)
  {
    PrioritizeListed(w.grants, snap.at, at);
    ListActiveIn(Prioritize(w.grants), snap.at, at);
  }

  lemma CoveredIsRunnable(w: World, snap: Snapshot, at: Time)
    requires Distinct(w.grants) && snap.at <= at && snap.grantUsage >= 0.0 && Covered(Prioritize(w.grants), snap)
    ensures Runnable(w, snap, at)
  {
    RunGrantsMembers(w, snap, at);
    var gs, l := Prioritize(w.grants), RunGrants(w, snap, at);
    forall id | id in snap.balances ensures id in Ids(l) {
      var i :| 0 <= i < |gs| && gs[i].id == id && Reaches(gs[i], snap.at);
      ReachesIsListed(gs[i], snap.at, at);
      assert gs[i] in l;
    }
  }

  // ------------------------------------------------------------ projection

  lemma {:induction false} PickFill(gs: seq<Grant>, mask: seq<bool>, m: BalanceMap, at: Time)
    requires |gs| == |mask|
    ensures FillAll(Pick(gs, mask), m, at) == Pick(FillAll(gs, m, at), mask)
  {
    if gs != [] {
      PickFill(gs[1..], mask[1..], m, at);
      assert FillAll(gs, m, at)[1..] == FillAll(gs[1..], m, at);
    }
  }

  /** The entered states project onto each other at the snapshot's time. */
  lemma ResumeEnters(w: World, c: State, snap: Snapshot, at: Time)
    requires Distinct(w.grants) && AllSane(w.grants) && snap.at <= at
    requires Fits(Prioritize(w.grants), c) && Stands(Prioritize(w.grants), c, snap)
    ensures var gs, l := Prioritize(w.grants), RunGrants(w, snap, at);
      Projects(ListMask(gs, snap.at, at), Enter(gs, c, snap.at), Enter(l, Filled(l, snap), snap.at))
  {
    var gs := Prioritize(w.grants);
    var mask := ListMask(gs, snap.at, at);
    SortedGrants(w);
    RunGrantsPicked(w, snap, at);
    ListedProjects(gs, snap.at, at);
    PickFill(gs, mask, snap.balances, snap.at);
    EnterProjects(gs, mask, Filled(gs, snap), Filled(Pick(gs, mask), snap), snap.at);
  }

  /** Every later state projects as well. */
  lemma ResumeWalks(w: World, env: Env, c: State, snap: Snapshot, at: Time, t: Time)
    requires Distinct(w.grants) && AllSane(w.grants) && snap.at < t <= at
    requires Fits(Prioritize(w.grants), c) && Stands(Prioritize(w.grants), c, snap)
    ensures var gs, l := Prioritize(w.grants), RunGrants(w, snap, at);
      Projects(ListMask(gs, snap.at, at), Walk(gs, env, c, snap.at, t), Walk(l, env, Filled(l, snap), snap.at, t))
  {
    var gs, l := Prioritize(w.grants), RunGrants(w, snap, at);
    var mask := ListMask(gs, snap.at, at);
    SortedGrants(w);
    ResumeEnters(w, c, snap, at);
    RunGrantsPicked(w, snap, at);
    ListedProjects(gs, snap.at, at);
    WalkProjects(gs, mask, env, Enter(gs, c, snap.at), Enter(l, Filled(l, snap), snap.at), snap.at, t);
    WalkEntered(gs, env, c, snap.at, t);
    WalkEntered(l, env, Filled(l, snap), snap.at, t);
  }

  lemma RecurrencesListed(w: World, snap: Snapshot, at: Time)
    requires Distinct(w.grants) && AllSane(w.grants) && snap.at <= at
    ensures RecursAt(RunGrants(w, snap, at), at) == RecursAt(Prioritize(w.grants), at)
  {
    var gs, l := Prioritize(w.grants), RunGrants(w, snap, at);
    SortedGrants(w);
    RunGrantsMembers(w, snap, at);
    if i :| 0 <= i < |l| && Active(l[i], at) && Recurs(l[i], at) {
      assert l[i] in gs;
    }
    if i :| 0 <= i < |gs| && Active(gs[i], at) && Recurs(gs[i], at) {
      if !Listed(gs[i], snap.at, at) { UnlistedIsInactive(gs[i], snap.at, at, at); }
      assert gs[i] in l;
    }
  }

  /** A run that resumes from a snapshot ends where the run over all grants ends. */
  lemma ResumeFinishes(w: World, env: Env, c: State, snap: Snapshot, at: Time)
    requires Distinct(w.grants) && AllSane(w.grants) && snap.at <= at
    requires Fits(Prioritize(w.grants), c) && Stands(Prioritize(w.grants), c, snap)
    ensures var gs, l := Prioritize(w.grants), RunGrants(w, snap, at);
      && Projects(ListMask(gs, snap.at, at), Finish(gs, env, c, snap.at, at), Finish(l, env, Filled(l, snap), snap.at, at))
      && Report(l, Finish(l, env, Filled(l, snap), snap.at, at), at) == Report(gs, Finish(gs, env, c, snap.at, at), at)
  {
    var gs, l := Prioritize(w.grants), RunGrants(w, snap, at);
    var mask := ListMask(gs, snap.at, at);
    SortedGrants(w);
    RunGrantsPicked(w, snap, at);
    ListedProjects(gs, snap.at, at);
    RecurrencesListed(w, snap, at);
    var f := Filled(l, snap);
    if snap.at == at {
      ResumeEnters(w, c, snap, at);
      ServeProjects(gs, mask, Enter(gs, c, at), Enter(l, f, at), at, 0.0);
      ServeEntered(gs, c, at, 0.0);
      ServeEntered(l, f, at, 0.0);
    } else {
      ResumeWalks(w, env, c, snap, at, at);
      ServeProjects(gs, mask, Walk(gs, env, c, snap.at, at), Walk(l, env, f, snap.at, at), at, 0.0);
    }
    PickActiveMap(gs, Finish(gs, env, c, snap.at, at).bals, mask, at);
  }

  // ------------------------------------------- rows written by a resumed run

  /** A map of the entered balances of the active grants stands for the state it was taken from. */
  lemma ActiveMapStands(gs: seq<Grant>, s: State, t: Time, m: BalanceMap, config: Option<UnitConfig>)
    requires Fits(gs, s) && Distinct(gs) && AllSane(gs) && m == ActiveMap(gs, s.bals, t)
    ensures var row := Snapshot(t, m, s.overage, s.usage, s.burnt, config); Stands(gs, s, row) && Covered(gs, row)
  {
    var row := Snapshot(t, m, s.overage, s.usage, s.burnt, config);
    ActiveMapKeys(gs, s.bals, t);
    forall i | 0 <= i < |gs| ensures Entered(gs[i], Fill(gs[i], m, t), t) == Entered(gs[i], s.bals[i], t) {
    }
    forall id | id in m ensures exists i :: 0 <= i < |gs| && gs[i].id == id && Reaches(gs[i], t) {
      var i :| 0 <= i < |gs| && gs[i].id == id && Active(gs[i], t);
      ActiveReaches(gs[i], t);
    }
  }

  lemma StartFill(w: World, at: Time, g: Grant)
    requires w.recs != [] && Distinct(w.grants) && g in w.grants
    ensures Fill(g, StartingSnapshot(w, at).balances, Start(w)) == if Active(g, Start(w)) then g.amount else 0.0
  {
    var s := Start(w);
    var listed := ListActive(w.grants, s, at);
    ListActiveIn(w.grants, s, at);
    PopulateMeaning(map[], listed, s);
    if g.id in Ids(listed) {
      var k :| 0 <= k < |listed| && listed[k].id == g.id;
      assert listed[k] in listed;
      DistinctIds(w.grants, listed[k], g);
    }
  }

  lemma StartRunnable(w: World, at: Time)
    requires w.recs != [] && Distinct(w.grants) && Start(w) <= at
    ensures Runnable(w, StartingSnapshot(w, at), at)
  {
    var listed := ListActive(w.grants, Start(w), at);
    PopulateMeaning(map[], listed, Start(w));
    PrioritizePermutes(listed);
  }

  /** The starting snapshot stands for the initial state. */
  lemma StartStands(w: World, at: Time)
    requires w.recs != [] && Distinct(w.grants)
    ensures var gs := Prioritize(w.grants); Stands(gs, Initial(gs, Start(w)), StartingSnapshot(w, at))
  {
    var gs := Prioritize(w.grants);
    var snap := StartingSnapshot(w, at);
    PrioritizePermutes(w.grants);
    forall i | 0 <= i < |gs| ensures Fill(gs[i], snap.balances, Start(w)) == Initial(gs, Start(w)).bals[i] {
      assert gs[i] in w.grants;
      StartFill(w, at, gs[i]);
    }
    assert Filled(gs, snap).bals == Initial(gs, Start(w)).bals;
  }

  lemma DistinctIds(gs: seq<Grant>, a: Grant, b: Grant)
    requires Distinct(gs) && a in gs && b in gs && a.id == b.id
    ensures a == b
  {
  }
}
