/** How the connector's calls of the engine relate to the operations on the whole state. */
module Stepping {
  import opened Grants
  import opened Reference
  import opened Balances
  import opened Checkpoints
  import opened UsagePeriods
  import opened Burndown
  import opened History
  import opened Engine
  import opened EngineRun
  import opened World

  predicate Solvent(snap: Snapshot) {
    snap.overage >= 0.0 && snap.grantUsage >= 0.0 && forall id :: id in snap.balances ==> snap.balances[id] >= 0.0
  }

  /** What every operation keeps, coherent or not. */
  ghost predicate Sensible(w: World) {
    && ValidRecs(w.recs) && (forall i :: 0 < i < |w.recs| ==> w.recs[i].start <= w.now)
    && Distinct(w.grants) && AllSane(w.grants) && Metered(w.raw)
    && forall i :: 0 <= i < |w.rows| ==> Solvent(w.rows[i])
  }

  // ------------------------------------------------------- listed grants

  lemma ListedFacts(w: World, from: Time, until: Time)
    requires Distinct(w.grants) && AllSane(w.grants)
    ensures var l := ListActive(w.grants, from, until);
      && Distinct(l) && AllSane(l) && Distinct(Prioritize(l)) && AllSane(Prioritize(l))
  {
    var l := ListActive(w.grants, from, until);
    ListActiveIn(w.grants, from, until);
    PrioritizePermutes(l);
    forall i | 0 <= i < |l| ensures Sane(l[i]) { assert l[i] in w.grants; }
    SanePrioritized(l);
    PrioritizeOrders(l);
  }

  /** The populated snapshot is the filled state of the run. */
  lemma PopulatedIsFilled(l: seq<Grant>, snap: Snapshot)
    requires Distinct(l) && AllSane(l)
    ensures var m := Populate(snap.balances, l, snap.at);
      && Ids(l) <= m.Keys && (m.Keys == Ids(l) <==> snap.balances.Keys <= Ids(l))
      && StateOf(Prioritize(l), snap.(balances := m)) == Filled(Prioritize(l), snap)
      && (Solvent(snap) ==> Good(Filled(Prioritize(l), snap)))
  {
    var pg, m := Prioritize(l), Populate(snap.balances, l, snap.at);
    PopulateMeaning(snap.balances, l, snap.at);
    PrioritizePermutes(l);
    HasIds(pg);
    forall i | 0 <= i < |pg| ensures m[pg[i].id] == Fill(pg[i], snap.balances, snap.at) && Sane(pg[i]) {
      assert pg[i] in l;
    }
  }

  // -------------------------------------------------- resets of one run

  lemma SameCounts(resets: seq<Time>, t: Time)
    requires Increasing(resets)
    ensures multiset(resets)[t] == if t in resets then 1 else 0
  {
    if t in resets {
      var i :| 0 <= i < |resets| && resets[i] == t;
      assert resets == resets[..i] + [t] + resets[i + 1..];
      assert multiset(resets) == multiset(resets[..i]) + multiset{t} + multiset(resets[i + 1..]);
      assert t !in resets[..i] && t !in resets[i + 1..];
    }
  }

  /** Both environments describe the same run. */
  lemma SameFinish(pg: seq<Grant>, e1: Env, e2: Env, s: State, from: Time, until: Time)
    requires Fits(pg, s) && from <= until && e1.preserve == e2.preserve
    requires forall t: Time :: from <= t < until ==> e1.usage(t) == e2.usage(t)
    requires forall t: Time :: from < t <= until ==> e1.resets(t) == e2.resets(t)
    ensures Finish(pg, e1, s, from, until) == Finish(pg, e2, s, from, until)
  {
    WalkLocal(pg, e1, e2, s, from, until);
  }

  function OwnerUsage(w: World): Time -> real { t => Convert(w.unitConfig, w.raw(t)) }

  lemma OwnerUsageMetered(w: World)
    requires Metered(w.raw)
    ensures Metered(OwnerUsage(w))
  {
    forall t: Time ensures OwnerUsage(w)(t) >= 0.0 { ConvertPositive(w.unitConfig, w.raw(t)); }
  }

  /** The timeline between two times is the owner's resets, once each. */
  lemma QueryTimeline(w: World, from: Time, until: Time)
    requires w.recs != [] && from <= until
    ensures var resets := ResetsBetween(w.recs, from, until);
      && Increasing(resets) && Sorted(resets) && TimelineOk(from, until, resets)
      && forall t: Time :: from < t <= until ==> ListEnv(OwnerUsage(w), resets, w.preserve).resets(t) == OwnerEnv(w, w.unitConfig).resets(t)
  {
    var resets := ResetsBetween(w.recs, from, until);
    ResetsBetweenMeaning(w.recs, from, until);
    FirstLastIn(resets);
    forall t: Time | from < t <= until
      ensures ListEnv(OwnerUsage(w), resets, w.preserve).resets(t) == OwnerEnv(w, w.unitConfig).resets(t)
    {
      SameCounts(resets, t);
    }
  }

  lemma FirstLastIn(ts: seq<Time>)
    ensures ts != [] ==> ts[0] in ts && ts[|ts| - 1] in ts
  {
  }

  /** The timeline of a reset run: recorded resets, then the new one, strictly after the start. */
  function ResetTimes(w: World, from: Time, at: Time): seq<Time>
    requires w.recs != []
  {
    if from < at then ResetsBetween(w.recs, from, at) + [at] else []
  }

  lemma ResetRunTimeline(w: World, from: Time, at: Time, preserve: bool)
    requires w.recs != [] && from <= at
    ensures var resets := ResetTimes(w, from, at);
      && Sorted(resets) && TimelineOk(from, at, resets)
      && forall t: Time :: from < t <= at ==> ListEnv(OwnerUsage(w), resets, preserve).resets(t) == ResetEnv(w, from, at, preserve).resets(t)
  {
    var rs, resets := ResetsBetween(w.recs, from, at), ResetTimes(w, from, at);
    ResetsBetweenMeaning(w.recs, from, at);
    FirstLastIn(resets);
    FirstLastIn(rs);
    forall i, j | 0 <= i < j < |resets| ensures resets[i] <= resets[j] {
      if j == |rs| { assert rs[i] in rs; }
    }
    forall t: Time | from < t <= at
      ensures ListEnv(OwnerUsage(w), resets, preserve).resets(t) == ResetEnv(w, from, at, preserve).resets(t)
    {
      SameCounts(rs, t);
      assert multiset(resets) == multiset(rs) + multiset{at};
    }
  }

  // ------------------------------------------------ results and stored rows

  lemma RemoveInactiveReordered(m: BalanceMap, l: seq<Grant>, at: Time)
    requires Distinct(l) && m.Keys == Ids(l)
    ensures RemoveInactive(m, l, at) == Ok(ActiveMap(Prioritize(l), Vals(Prioritize(l), m), at))
  {
    var pg := Prioritize(l);
    PrioritizePermutes(l);
    PrioritizeOrders(l);
    RemoveInactiveIsActiveMap(m, pg, at);
    forall id ensures ActiveIn(l, id, at) == ActiveIn(pg, id, at) { ActiveInReordered(l, pg, id, at); }
    assert RemoveInactive(m, l, at).value == RemoveInactive(m, pg, at).value;
  }

  lemma ActiveInReordered(a: seq<Grant>, b: seq<Grant>, id: GrantId, at: Time)
    requires forall g :: g in a <==> g in b
    ensures ActiveIn(a, id, at) == ActiveIn(b, id, at)
  {
    if i :| 0 <= i < |a| && a[i].id == id && Active(a[i], at) { assert a[i] in b; }
    if i :| 0 <= i < |b| && b[i].id == id && Active(b[i], at) { assert b[i] in a; }
  }

  /** The latest segment, not the first, that starts at or before the bound. */
  predicate Chosen(segs: seq<Segment>, bound: Time, i: int) {
    && 1 <= i < |segs| && segs[i].from <= bound
    && forall j :: i < j < |segs| ==> segs[j].from > bound
  }

  /** Segments whose starts are exactly the breaks of the run. */
  ghost predicate StartsAreBreaks(pg: seq<Grant>, resets: Time -> nat, from: Time, end: Time, segs: seq<Segment>) {
    && (forall i :: 1 <= i < |segs| && !segs[i].rollover ==> Breaks(pg, resets, from, end, segs[i].from))
    && (forall t :: Breaks(pg, resets, from, end, t) ==> exists j :: 1 <= j < |segs| && !segs[j].rollover && segs[j].from == t)
    && (forall i :: 0 <= i < |segs| && segs[i].rollover ==> i + 1 < |segs| && segs[i + 1].from == segs[i].from)
    && (forall i, j :: 0 <= i < j < |segs| ==> segs[i].from <= segs[j].from)
  }

  lemma CompleteStarts(pg: seq<Grant>, env: Env, owner: Env, resets: seq<Time>, start: Snapshot, end: Time, segs: seq<Segment>, cur: Snapshot)
    requires Ids(pg) <= start.balances.Keys && Complete(pg, env, resets, start, end, segs, cur) && cur.at == end
    requires forall t: Time :: start.at < t <= end ==> (owner.resets(t) > 0 <==> t in resets)
    requires forall t :: t in resets ==> start.at < t <= end
    ensures StartsAreBreaks(pg, owner.resets, start.at, end, segs)
  {
    forall i | 0 <= i < |segs| && segs[i].rollover ensures i + 1 < |segs| && segs[i + 1].from == segs[i].from {
      RolloverHasNext(segs, start, i);
    }
  }

  lemma RolloverHasNext(segs: seq<Segment>, start: Snapshot, i: nat)
    requires ValidHistory(segs, start) && i < |segs| && segs[i].rollover && !segs[|segs| - 1].rollover
    ensures i + 1 < |segs| && segs[i + 1].from == segs[i].until
  {
  }

  /** The snapshot loop picks the start of the last break: never a rollover. */
  lemma ChosenIsLastBreak(pg: seq<Grant>, resets: Time -> nat, from: Time, end: Time, segs: seq<Segment>, bound: Time, i: int)
    requires StartsAreBreaks(pg, resets, from, end, segs)
    ensures Chosen(segs, bound, i) ==> !segs[i].rollover && LastBreak(pg, resets, from, end, bound) == Some(segs[i].from)
    ensures (forall j :: 1 <= j < |segs| ==> segs[j].from > bound) ==> LastBreak(pg, resets, from, end, bound) == None
  {
    LastBreakMeaning(pg, resets, from, end, bound);
    var b := LastBreak(pg, resets, from, end, bound);
    if b.Some? {
      var j :| 1 <= j < |segs| && !segs[j].rollover && segs[j].from == b.value;
    }
    if Chosen(segs, bound, i) {
      assert i + 1 < |segs| ==> segs[i + 1].from > bound;
      assert Breaks(pg, resets, from, end, segs[i].from);
    }
  }

  // ------------------------------------------------- one call of the engine

  /** What one engine call returns, in terms of the filled state. */
  ghost predicate EngineRan(w: World, snap: Snapshot, at: Time, preserve: bool, resets: seq<Time>, r: RunResult) {
    var l := ListActive(w.grants, snap.at, at);
    var start := snap.(balances := Populate(snap.balances, l, snap.at));
    && Ids(l) <= start.balances.Keys
    && StateOf(Prioritize(l), start) == Filled(RunGrants(w, snap, at), snap)
    && Ran(l, OwnerUsage(w), start, at, preserve, resets, r)
  }

  lemma EngineState(w: World, snap: Snapshot, at: Time, preserve: bool, resets: seq<Time>, r: RunResult)
    requires Sensible(w) && EngineRan(w, snap, at, preserve, resets, r)
    ensures var l, pg := ListActive(w.grants, snap.at, at), RunGrants(w, snap, at);
      && Ids(pg) <= r.snapshot.balances.Keys
      && StateOf(pg, r.snapshot) == Finish(pg, ListEnv(OwnerUsage(w), resets, preserve), Filled(pg, snap), snap.at, at)
      && RemoveInactive(r.snapshot.balances, l, at) == Ok(ActiveMap(pg, StateOf(pg, r.snapshot).bals, at))
  {
    var l := ListActive(w.grants, snap.at, at);
    ListedFacts(w, snap.at, at);
    RemoveInactiveReordered(r.snapshot.balances, l, at);
  }

  /** A query's engine call gives the query's answer. */
  lemma QueryRan(w: World, snap: Snapshot, at: Time, r: RunResult)
    requires Sensible(w) && Runnable(w, snap, at)
    requires EngineRan(w, snap, at, w.preserve, ResetsBetween(w.recs, snap.at, at), r)
    ensures var l := ListActive(w.grants, snap.at, at);
      && RemoveInactive(r.snapshot.balances, l, at).Ok?
      && QueryFrom(w, snap, at) ==
           Ok(Balance(at, RemoveInactive(r.snapshot.balances, l, at).value, r.snapshot.overage, r.snapshot.usage, r.snapshot.grantUsage))
  {
    var resets, pg := ResetsBetween(w.recs, snap.at, at), RunGrants(w, snap, at);
    EngineState(w, snap, at, w.preserve, resets, r);
    QueryTimeline(w, snap.at, at);
    SameFinish(pg, ListEnv(OwnerUsage(w), resets, w.preserve), OwnerEnv(w, w.unitConfig), Filled(pg, snap), snap.at, at);
  }

  lemma QueryStarts(w: World, snap: Snapshot, at: Time, r: RunResult)
    requires Sensible(w) && Runnable(w, snap, at)
    requires EngineRan(w, snap, at, w.preserve, ResetsBetween(w.recs, snap.at, at), r)
    ensures StartsAreBreaks(RunGrants(w, snap, at), OwnerEnv(w, w.unitConfig).resets, snap.at, at, r.segments)
  {
    var resets, l := ResetsBetween(w.recs, snap.at, at), ListActive(w.grants, snap.at, at);
    var start := snap.(balances := Populate(snap.balances, l, snap.at));
    QueryTimeline(w, snap.at, at);
    ResetsBetweenMeaning(w.recs, snap.at, at);
    CompleteStarts(RunGrants(w, snap, at), ListEnv(OwnerUsage(w), resets, w.preserve), OwnerEnv(w, w.unitConfig), resets, start, at, r.segments, r.snapshot);
  }

  /** The snapshot reconstructed at a segment start, filtered and stamped, is the row of that time. */
  lemma SegmentRow(w: World, snap: Snapshot, at: Time, r: RunResult, i: nat)
    requires Sensible(w) && Runnable(w, snap, at)
    requires EngineRan(w, snap, at, w.preserve, ResetsBetween(w.recs, snap.at, at), r)
    requires i < |r.segments| && !r.segments[i].rollover && snap.at < r.segments[i].from <= at
    ensures var l := ListActive(w.grants, snap.at, at);
      var s := SnapshotAtStart(snap.(balances := Populate(snap.balances, l, snap.at)), r.segments, i);
      && RemoveInactive(s.balances, l, s.at).Ok?
      && s.(balances := RemoveInactive(s.balances, l, s.at).value, unitConfig := w.unitConfig) == RowAt(w, snap, at, s.at)
  {
    var resets, l, pg := ResetsBetween(w.recs, snap.at, at), ListActive(w.grants, snap.at, at), RunGrants(w, snap, at);
    var start := snap.(balances := Populate(snap.balances, l, snap.at));
    var s, t := SnapshotAtStart(start, r.segments, i), r.segments[i].from;
    var e, owner := ListEnv(OwnerUsage(w), resets, w.preserve), OwnerEnv(w, w.unitConfig);
    ListedFacts(w, snap.at, at);
    QueryTimeline(w, snap.at, at);
    WalkLocal(pg, e, owner, Filled(pg, snap), snap.at, t);
    assert StartsAt(pg, r.segments[i], Fold(CountersOf(StateOf(pg, start)), r.segments[..i]), Walk(pg, e, StateOf(pg, start), snap.at, t));
    RemoveInactiveReordered(s.balances, l, t);
  }

  // ------------------------------------------------------ rows stay solvent

  lemma {:induction false} ActiveMapSolvent(gs: seq<Grant>, bals: seq<real>, t: Time)
    requires |gs| == |bals| && NonNegative(bals)
    ensures forall id :: id in ActiveMap(gs, bals, t) ==> ActiveMap(gs, bals, t)[id] >= 0.0
  {
    if gs != [] { ActiveMapSolvent(gs[1..], bals[1..], t); }
  }

  lemma FilledGood(w: World, snap: Snapshot, at: Time)
    requires Sensible(w) && Solvent(snap)
    ensures Good(Filled(RunGrants(w, snap, at), snap)) && AllSane(RunGrants(w, snap, at))
  {
    var l := ListActive(w.grants, snap.at, at);
    ListedFacts(w, snap.at, at);
    PopulatedIsFilled(l, snap);
  }

  lemma RowSolvent(w: World, snap: Snapshot, at: Time, t: Time)
    requires Sensible(w) && Solvent(snap)
    ensures Solvent(RowAt(w, snap, at, t))
  {
    var pg, env := RunGrants(w, snap, at), OwnerEnv(w, w.unitConfig);
    FilledGood(w, snap, at);
    OwnerUsageMetered(w);
    assert forall x: Time :: env.usage(x) == OwnerUsage(w)(x);
    WalkGood(pg, env, Filled(pg, snap), snap.at, t);
    var s := Walk(pg, env, Filled(pg, snap), snap.at, t);
    ServeGood(pg, s, t, 0.0);
    ActiveMapSolvent(pg, EnterAll(pg, s.bals, t), t);
  }

  lemma StartSolvent(w: World, at: Time)
    requires Sensible(w)
    ensures Solvent(StartingSnapshot(w, at))
  {
    var l := ListActive(w.grants, Start(w), at);
    PopulateMeaning(map[], l, Start(w));
    ListedFacts(w, Start(w), at);
    HasIds(l);
    forall id | id in StartingSnapshot(w, at).balances ensures StartingSnapshot(w, at).balances[id] >= 0.0 {
      var i :| 0 <= i < |l| && l[i].id == id;
      assert l[i] in l && Sane(l[i]);
    }
  }

  lemma ResumeSolvent(w: World, at: Time)
    requires Sensible(w)
    ensures Solvent(Resume(w, at))
  {
    StartSolvent(w, at);
  }

  /** A reset's engine call gives the row the reset stores. */
  lemma ResetRan(w: World, at: Time, preserve: bool, r: RunResult)
    requires Sensible(w) && Runnable(w, Resume(w, at), at)
    requires var snap := Resume(w, at); EngineRan(w, snap, at, preserve, ResetTimes(w, snap.at, at), r)
    ensures var l := ListActive(w.grants, Resume(w, at).at, at);
      && RemoveInactive(r.snapshot.balances, l, at).Ok?
      && r.snapshot.at == at
      && r.snapshot.(balances := RemoveInactive(r.snapshot.balances, l, at).value, unitConfig := w.unitConfig) == ResetRow(w, at, preserve)
  {
    var snap := Resume(w, at);
    var resets, pg := ResetTimes(w, snap.at, at), RunGrants(w, snap, at);
    EngineState(w, snap, at, preserve, resets, r);
    ResetRunTimeline(w, snap.at, at, preserve);
    SameFinish(pg, ListEnv(OwnerUsage(w), resets, preserve), ResetEnv(w, snap.at, at, preserve), Filled(pg, snap), snap.at, at);
  }

  lemma ResetRowSolvent(w: World, at: Time, preserve: bool)
    requires Sensible(w)
    ensures Solvent(ResetRow(w, at, preserve))
  {
    var snap := Resume(w, at);
    var pg, env := RunGrants(w, snap, at), ResetEnv(w, snap.at, at, preserve);
    ResumeSolvent(w, at);
    FilledGood(w, snap, at);
    OwnerUsageMetered(w);
    assert forall x: Time :: env.usage(x) == OwnerUsage(w)(x);
    WalkGood(pg, env, Filled(pg, snap), snap.at, at);
    ServeGood(pg, Walk(pg, env, Filled(pg, snap), snap.at, at), at, 0.0);
    ActiveMapSolvent(pg, Finish(pg, env, Filled(pg, snap), snap.at, at).bals, at);
  }
}
