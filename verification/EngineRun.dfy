/** The engine's Run: usage periods one after the other, and the history it records
    (openmeter/credit/engine/run.go). */
module EngineRun {
  import opened Grants
  import opened Reference
  import opened Balances
  import opened Checkpoints
  import opened Phases
  import opened Burndown
  import opened History
  import opened Engine

  // --------------------------------------------------- shape of one period

  /** Where the segments of a period start: at its beginning, then exactly at the events inside
      it, then once more at its end if something recurs there and the end is inclusive. */
  ghost predicate PeriodShape(pg: seq<Grant>, from: Time, until: Time, inclusive: bool, ps: seq<Segment>) {
    && |ps| > 0 && ps[0].from == from && ps[|ps| - 1].until == until
    && (forall i, j :: 0 <= i < j < |ps| ==> ps[i].from < ps[j].from)
    && (forall i :: 0 <= i < |ps| ==> !ps[i].rollover && !ps[i].usageReset && from <= ps[i].from <= until)
    && (forall i :: 1 <= i < |ps| ==> from < ps[i].from && (if ps[i].from < until then EventAt(pg, ps[i].from) else inclusive && RecursAt(pg, until)))
    && (forall t :: from < t < until && EventAt(pg, t) ==> exists i :: 1 <= i < |ps| && ps[i].from == t)
    && (from < until && inclusive && RecursAt(pg, until) ==> |ps| > 1 && ps[|ps| - 1].from == until)
  }

  lemma {:induction false} PhasesAscend(gs: seq<Grant>, from: Time, until: Time, inclusive: bool, plan: Plan, i: nat, j: nat)
    requires from <= until && PlanOk(gs, from, until, inclusive, plan) && i < j < |plan.phases|
    ensures plan.phases[i].from < plan.phases[j].from && plan.phases[i].until <= plan.phases[j].from
  {
    assert plan.phases[j].from == plan.phases[j - 1].until;
    if i < j - 1 { PhasesAscend(gs, from, until, inclusive, plan, i, j - 1); }
  }

  /** Every time of the period lies in some phase. */
  lemma {:induction false} PhaseOf(gs: seq<Grant>, from: Time, until: Time, inclusive: bool, plan: Plan, t: Time, k: nat) returns (i: nat)
    requires from <= until && PlanOk(gs, from, until, inclusive, plan) && k < |plan.phases|
    requires plan.phases[k].from <= t < until
    ensures k <= i < |plan.phases| && plan.phases[i].from <= t < plan.phases[i].until
    decreases |plan.phases| - k
  {
    if t < plan.phases[k].until {
      i := k;
    } else {
      assert k + 1 < |plan.phases| ==> plan.phases[k + 1].from == plan.phases[k].until;
      i := PhaseOf(gs, from, until, inclusive, plan, t, k + 1);
    }
  }

  lemma PeriodHasShape(gs: seq<Grant>, env: Env, start: Snapshot, until: Time, inclusive: bool, snap: Snapshot, ps: seq<Segment>)
    requires Ids(gs) <= start.balances.Keys && start.at <= until
    requires PeriodRun(gs, env, start, until, inclusive, snap, ps)
    ensures PeriodShape(Prioritize(gs), start.at, until, inclusive, ps)
  {
    var pg, s := Prioritize(gs), StateOf(Prioritize(gs), start);
    var plan :| PlanOk(pg, start.at, until, inclusive, plan) && |ps| == |plan.phases| && PeriodSegments(pg, env, s, start.at, ps, plan.phases);
    ShapeOfPlan(pg, env, s, start.at, until, inclusive, plan, ps);
  }

  lemma ShapeOfPlan(pg: seq<Grant>, env: Env, s: State, from: Time, until: Time, inclusive: bool, plan: Plan, ps: seq<Segment>)
    requires Fits(pg, s) && from <= until && PlanOk(pg, from, until, inclusive, plan)
    requires |ps| == |plan.phases| && PeriodSegments(pg, env, s, from, ps, plan.phases)
    ensures PeriodShape(pg, from, until, inclusive, ps)
  {
    var phases, n := plan.phases, |plan.phases|;
    forall i, j | 0 <= i < j < n ensures ps[i].from < ps[j].from { PhasesAscend(pg, from, until, inclusive, plan, i, j); }
    RecurringMeansEvent(pg, until);
    forall i | 0 <= i < n ensures from <= ps[i].from <= until {
      PlanGrows(pg, from, until, inclusive, plan, i);
      if i < n - 1 { PhasesAscend(pg, from, until, inclusive, plan, i, n - 1); }
    }
    forall i | 1 <= i < n ensures from < ps[i].from && (if ps[i].from < until then EventAt(pg, ps[i].from) else inclusive && RecursAt(pg, until)) {
      PlanGrows(pg, from, until, inclusive, plan, i);
      assert phases[i].from == phases[i - 1].until;
      if i < n - 1 { PhasesAscend(pg, from, until, inclusive, plan, i, n - 1); }
    }
    forall t | from < t < until && EventAt(pg, t) ensures exists i :: 1 <= i < n && ps[i].from == t {
      var i := PhaseOf(pg, from, until, inclusive, plan, t, 0);
      assert ps[i].from == t;
    }
  }

  // --------------------------------------------------- history of the run

  /** Every segment that is not a rollover starts with the reference state at its time. */
  ghost predicate Tracks(pg: seq<Grant>, env: Env, s: State, from: Time, segs: seq<Segment>)
    requires Fits(pg, s)
  {
    forall i :: 0 <= i < |segs| && !segs[i].rollover ==>
      StartsAt(pg, segs[i], Fold(CountersOf(s), segs[..i]), Walk(pg, env, s, from, segs[i].from))
  }

  /** A later segment start is an event, a reset, or a recurrence at the very end. */
  ghost predicate OnlyBreaks(pg: seq<Grant>, resets: seq<Time>, from: Time, until: Time, segs: seq<Segment>) {
    forall i :: 1 <= i < |segs| && !segs[i].rollover ==>
      && from < segs[i].from <= until
      && ((segs[i].from < until && EventAt(pg, segs[i].from)) || segs[i].from in resets || (segs[i].from == until && RecursAt(pg, until)))
  }

  ghost predicate Covers(pg: seq<Grant>, resets: seq<Time>, from: Time, upto: Time, segs: seq<Segment>) {
    forall t :: from < t < upto && (EventAt(pg, t) || t in resets) ==> exists i :: 1 <= i < |segs| && !segs[i].rollover && segs[i].from == t
  }

  /** Before the next period starts at `at`, every segment is earlier, except a rollover at `at`. */
  ghost predicate Pending(segs: seq<Segment>, at: Time) {
    && InOrder(segs)
    && (forall i :: 0 <= i < |segs| ==> segs[i].from <= at && (segs[i].from == at ==> segs[i].rollover))
    && (|segs| > 0 ==> segs[|segs| - 1].until == at)
  }

  lemma AppendTracks(pg: seq<Grant>, env: Env, u: Env, s: State, from: Time, segs: seq<Segment>, w: State, at: Time, ps: seq<Segment>)
    requires Fits(pg, s) && Fits(pg, w) && Tracks(pg, env, s, from, segs) && Fold(CountersOf(s), segs) == CountersOf(w)
    requires forall i :: 0 <= i < |ps| ==> StartsAt(pg, ps[i], Fold(CountersOf(w), ps[..i]), Walk(pg, u, w, at, ps[i].from))
    requires forall i :: 0 <= i < |ps| ==> Walk(pg, u, w, at, ps[i].from) == Walk(pg, env, s, from, ps[i].from)
    ensures Tracks(pg, env, s, from, segs + ps)
  {
    var r := segs + ps;
    forall i | 0 <= i < |r| && !r[i].rollover
      ensures StartsAt(pg, r[i], Fold(CountersOf(s), r[..i]), Walk(pg, env, s, from, r[i].from))
    {
      if i < |segs| {
        assert r[..i] == segs[..i];
      } else {
        var k := i - |segs|;
        assert r[..i] == segs + ps[..k];
        FoldAppend(CountersOf(s), segs, ps[..k]);
      }
    }
  }

  lemma AppendCovers(pg: seq<Grant>, resets: seq<Time>, from: Time, at: Time, until: Time, inclusive: bool, segs: seq<Segment>, ps: seq<Segment>)
    requires from <= at <= until && Covers(pg, resets, from, at, segs) && PeriodShape(pg, at, until, inclusive, ps)
    requires segs == [] <==> from == at
    requires forall t :: t in resets ==> t <= at || until <= t
    ensures Covers(pg, resets, from, until, segs + ps)
    ensures from < at ==> exists i :: 1 <= i < |segs + ps| && !(segs + ps)[i].rollover && (segs + ps)[i].from == at
  {
    var r := segs + ps;
    if from < at {
      assert r[|segs|] == ps[0];
    }
    forall t | from < t < until && (EventAt(pg, t) || t in resets)
      ensures exists i :: 1 <= i < |r| && !r[i].rollover && r[i].from == t
    {
      if t < at {
        var i :| 1 <= i < |segs| && !segs[i].rollover && segs[i].from == t;
        assert r[i] == segs[i];
      } else if t > at {
        var i :| 1 <= i < |ps| && ps[i].from == t;
        assert r[|segs| + i] == ps[i];
      }
    }
  }

  lemma AppendBreaks(pg: seq<Grant>, resets: seq<Time>, from: Time, at: Time, until: Time, end: Time, inclusive: bool, segs: seq<Segment>, ps: seq<Segment>)
    requires from <= at <= until <= end && OnlyBreaks(pg, resets, from, end, segs) && PeriodShape(pg, at, until, inclusive, ps)
    requires segs == [] <==> from == at
    requires from < at ==> at in resets
    requires inclusive ==> until == end
    requires !inclusive ==> until < end || until in resets
    ensures OnlyBreaks(pg, resets, from, end, segs + ps)
  {
    var r := segs + ps;
    forall i | 1 <= i < |r| && !r[i].rollover
      ensures from < r[i].from <= end
      ensures (r[i].from < end && EventAt(pg, r[i].from)) || r[i].from in resets || (r[i].from == end && RecursAt(pg, end))
    {
      if i >= |segs| { assert r[i] == ps[i - |segs|]; }
    }
  }

  lemma AppendInOrder(pg: seq<Grant>, segs: seq<Segment>, at: Time, until: Time, inclusive: bool, ps: seq<Segment>)
    requires Pending(segs, at) && PeriodShape(pg, at, until, inclusive, ps)
    ensures InOrder(segs + ps)
  {
    var r := segs + ps;
    forall i, j | 0 <= i < j < |r|
      ensures r[i].from < r[j].from || (r[i].from == r[j].from && (r[j].rollover ==> r[i].rollover))
    {
      if j >= |segs| { assert r[j] == ps[j - |segs|]; }
      if i >= |segs| { assert r[i] == ps[i - |segs|]; }
    }
  }

  lemma AppendValid(segs: seq<Segment>, start: Snapshot, cur: Snapshot, ps: seq<Segment>)
    requires ValidHistory(segs, start) && ValidHistory(ps, cur)
    requires if segs == [] then cur.at == start.at && cur.overage == start.overage else segs[|segs| - 1].until == cur.at
    ensures ValidHistory(segs + ps, start)
  {
    var r := segs + ps;
    forall i | 1 <= i < |r| ensures r[i].from == r[i - 1].until {
      if i > |segs| { assert r[i] == ps[i - |segs|] && r[i - 1] == ps[i - 1 - |segs|]; }
    }
    assert segs != [] ==> r[0] == segs[0];
  }

  /** Marks the last segment as ended by a reset and records the rollover after it. */
  function CloseWithReset(segs: seq<Segment>, roll: Segment): seq<Segment>
    requires |segs| > 0
  {
    segs[|segs| - 1 := segs[|segs| - 1].(usageReset := true)] + [roll]
  }

  lemma CloseAt(segs: seq<Segment>, roll: Segment, i: nat)
    requires i < |segs|
    ensures var r := CloseWithReset(segs, roll);
      r[i].from == segs[i].from && r[i].until == segs[i].until && r[i].rollover == segs[i].rollover && r[..i] == segs[..i]
      && r[i].balanceAtStart == segs[i].balanceAtStart && r[i].overageAtStart == segs[i].overageAtStart
  {
  }

  lemma CloseTracks(pg: seq<Grant>, env: Env, s: State, from: Time, segs: seq<Segment>, roll: Segment)
    requires Fits(pg, s) && |segs| > 0 && roll.rollover && Tracks(pg, env, s, from, segs)
    ensures Tracks(pg, env, s, from, CloseWithReset(segs, roll))
  {
    var r := CloseWithReset(segs, roll);
    forall i | 0 <= i < |r| && !r[i].rollover
      ensures StartsAt(pg, r[i], Fold(CountersOf(s), r[..i]), Walk(pg, env, s, from, r[i].from))
    {
      CloseAt(segs, roll, i);
    }
  }

  lemma CloseFold(c: Counters, segs: seq<Segment>, roll: Segment)
    requires |segs| > 0 && roll.totalUsage == 0.0 && !roll.usageReset
    ensures Fold(c, CloseWithReset(segs, roll)) == Counters(0.0, SumUses(roll.uses))
  {
    var n := |segs|;
    var marked := segs[n - 1 := segs[n - 1].(usageReset := true)];
    FoldSnoc(c, marked, roll);
    assert marked == marked[..n - 1] + [marked[n - 1]];
    FoldSnoc(c, marked[..n - 1], marked[n - 1]);
  }

  lemma CloseValid(segs: seq<Segment>, roll: Segment, start: Snapshot)
    requires |segs| > 0 && ValidHistory(segs, start) && roll.from == roll.until == segs[|segs| - 1].until
    ensures ValidHistory(CloseWithReset(segs, roll), start)
  {
    forall i | 0 <= i < |segs|
      ensures CloseWithReset(segs, roll)[i].from == segs[i].from
      ensures CloseWithReset(segs, roll)[i].until == segs[i].until
      ensures CloseWithReset(segs, roll)[i].overageAtStart == segs[i].overageAtStart
    {
      CloseAt(segs, roll, i);
    }
  }

  lemma CloseShape(pg: seq<Grant>, resets: seq<Time>, start: Snapshot, end: Time, segs: seq<Segment>, roll: Segment, at: Time)
    requires |segs| > 0 && roll.rollover && roll.from == roll.until == at && segs[|segs| - 1].until == at
    requires OnlyBreaks(pg, resets, start.at, end, segs)
    requires InOrder(segs) && forall i :: 0 <= i < |segs| ==> segs[i].from < at
    ensures var r := CloseWithReset(segs, roll);
      OnlyBreaks(pg, resets, start.at, end, r) && Pending(r, at)
  {
    forall i | 0 <= i < |segs|
      ensures CloseWithReset(segs, roll)[i].from == segs[i].from
      ensures CloseWithReset(segs, roll)[i].until == segs[i].until
      ensures CloseWithReset(segs, roll)[i].rollover == segs[i].rollover
      ensures CloseWithReset(segs, roll)[i].overageAtStart == segs[i].overageAtStart
    {
      CloseAt(segs, roll, i);
    }
  }

  lemma CloseCovers(pg: seq<Grant>, resets: seq<Time>, from: Time, upto: Time, segs: seq<Segment>, roll: Segment)
    requires |segs| > 0 && Covers(pg, resets, from, upto, segs)
    ensures Covers(pg, resets, from, upto, CloseWithReset(segs, roll))
  {
    var r := CloseWithReset(segs, roll);
    forall t | from < t < upto && (EventAt(pg, t) || t in resets)
      ensures exists i :: 1 <= i < |r| && !r[i].rollover && r[i].from == t
    {
      var i :| 1 <= i < |segs| && !segs[i].rollover && segs[i].from == t;
      CloseAt(segs, roll, i);
      assert !r[i].rollover && r[i].from == t;
    }
  }

  // -------------------------------------------------------------------- run

  datatype RunResult = RunResult(snapshot: Snapshot, segments: seq<Segment>)

  /** What the recorded history promises when no reset is recorded twice. */
  ghost predicate Recorded(pg: seq<Grant>, env: Env, resets: seq<Time>, start: Snapshot, end: Time, segs: seq<Segment>, cur: Snapshot)
    requires Ids(pg) <= start.balances.Keys
  {
    var s := StateOf(pg, start);
    && Tracks(pg, env, s, start.at, segs)
    && OnlyBreaks(pg, resets, start.at, end, segs)
    && Covers(pg, resets, start.at, cur.at, segs)
    && ValidHistory(segs, start)
    && Fold(CountersOf(s), segs) == Counters(cur.usage, cur.grantUsage)
  }

  /** The finished history: every break of the run starts a segment, nothing else does. */
  ghost predicate Complete(pg: seq<Grant>, env: Env, resets: seq<Time>, start: Snapshot, end: Time, segs: seq<Segment>, cur: Snapshot)
    requires Ids(pg) <= start.balances.Keys
  {
    && Recorded(pg, env, resets, start, end, segs, cur)
    && InOrder(segs) && |segs| > 0 && !segs[|segs| - 1].rollover
    && (start.at < end && (end in resets || RecursAt(pg, end)) ==> exists i :: 1 <= i < |segs| && !segs[i].rollover && segs[i].from == end)
  }

  lemma {:induction false} PrefixCounts(resets: seq<Time>, k: nat, x: Time)
    requires Sorted(resets) && k <= |resets| && (k < |resets| ==> x < resets[k])
    ensures multiset(resets)[x] == multiset(resets[..k])[x]
    decreases |resets| - k
  {
    if k == |resets| {
      assert resets[..k] == resets;
    } else {
      assert resets[..k + 1] == resets[..k] + [resets[k]];
      if k + 1 < |resets| { assert resets[k] <= resets[k + 1]; }
      PrefixCounts(resets, k + 1, x);
    }
  }

  /** Within a period the reference of the whole run is the unreset walk from its start. */
  lemma WithinPeriod(pg: seq<Grant>, usage: Time -> real, preserve: bool, s: State, from: Time, resets: seq<Time>, k: nat, at: Time, t: Time)
    requires Fits(pg, s) && Sorted(resets) && k <= |resets| && from <= at <= t && (k < |resets| ==> t < resets[k])
    requires forall x :: x in resets[..k] ==> x <= at
    ensures Walk(pg, ListEnv(usage, resets, preserve), s, from, t) ==
      Walk(pg, Unreset(usage, preserve), Walk(pg, ListEnv(usage, resets[..k], preserve), s, from, at), at, t)
  {
    NoMoreResets(pg, usage, preserve, s, from, resets[..k], at, t);
    forall x: Time | from < x <= t ensures ListEnv(usage, resets, preserve).resets(x) == ListEnv(usage, resets[..k], preserve).resets(x) {
      PrefixCounts(resets, k, x);
    }
    WalkLocal(pg, ListEnv(usage, resets, preserve), ListEnv(usage, resets[..k], preserve), s, from, t);
  }

  /** The time up to which the run has got after `k` resets. */
  function Reached(from: Time, resets: seq<Time>, k: nat): Time
    requires k <= |resets|
  {
    if k == 0 then from else resets[k - 1]
  }

  /** Where the run stands after `k` resets. */
  ghost predicate AtReset(gs: seq<Grant>, usage: Time -> real, preserve: bool, start: Snapshot, resets: seq<Time>, k: nat, cur: Snapshot)
    requires Ids(gs) <= start.balances.Keys && k <= |resets|
  {
    var pg, s := Prioritize(gs), StateOf(Prioritize(gs), start);
    && cur.at == Reached(start.at, resets, k) && cur.unitConfig == start.unitConfig && cur.balances.Keys == Ids(gs)
    && Ids(pg) <= cur.balances.Keys
    && StateOf(pg, cur) == Walk(pg, ListEnv(usage, resets[..k], preserve), s, start.at, cur.at)
    && Good(StateOf(pg, cur))
  }

  lemma ReachedBounds(from: Time, until: Time, resets: seq<Time>, k: nat)
    requires Sorted(resets) && TimelineOk(from, until, resets) && k <= |resets|
    ensures from <= Reached(from, resets, k) <= until
    ensures k > 0 ==> from < Reached(from, resets, k) && Reached(from, resets, k) in resets[..k]
    ensures forall x :: x in resets[..k] ==> from < x <= Reached(from, resets, k)
    ensures k < |resets| ==> Reached(from, resets, k) <= resets[k] <= until && from < resets[k]
    ensures Increasing(resets) && k < |resets| ==> Reached(from, resets, k) < resets[k]
  {
    if k > 0 { assert resets[..k][k - 1] == resets[k - 1]; }
    if resets != [] { assert forall i :: 0 <= i < |resets| ==> resets[0] <= resets[i] <= resets[|resets| - 1]; }
  }

  /** Where a period that is not the last one ends. */
  lemma PeriodEnd(gs: seq<Grant>, usage: Time -> real, preserve: bool, cur: Snapshot, end: Time, snap: Snapshot, ps: seq<Segment>)
    requires Ids(gs) <= cur.balances.Keys && cur.at <= end && PeriodRun(gs, Unreset(usage, preserve), cur, end, false, snap, ps)
    ensures Ids(gs) <= snap.balances.Keys
    ensures var pg, w := Prioritize(gs), StateOf(Prioritize(gs), cur);
      StateOf(pg, snap) == if cur.at < end then Walk(pg, Unreset(usage, preserve), w, cur.at, end) else Settle(pg, w, end)
  {
    var pg, w := Prioritize(gs), StateOf(Prioritize(gs), cur);
    assert Walk(pg, Unreset(usage, preserve), w, end, end) == w;
  }

  /** The reset that ends a period is the run's next one. */
  lemma NextAtReset(pg: seq<Grant>, usage: Time -> real, preserve: bool, s: State, from: Time, resets: seq<Time>, k: nat, at: Time, w: State, x: State)
    requires AllSane(pg) && Metered(usage) && Fits(pg, s) && Fits(pg, w) && Good(w) && Fits(pg, x)
    requires k < |resets| && from <= at <= resets[k] && w == Walk(pg, ListEnv(usage, resets[..k], preserve), s, from, at)
    requires if at < resets[k] then forall t :: t in resets[..k] ==> t <= at else resets[k] in resets[..k] && from < resets[k]
    requires x == if at < resets[k] then Walk(pg, Unreset(usage, preserve), w, at, resets[k]) else Settle(pg, w, resets[k])
    ensures Reset(pg, x, resets[k], preserve) == Walk(pg, ListEnv(usage, resets[..k + 1], preserve), s, from, resets[k])
    ensures Good(Reset(pg, x, resets[k], preserve))
  {
    assert resets[..k + 1] == resets[..k] + [resets[k]];
    NextReset(pg, usage, preserve, s, from, resets[..k], resets[k], at, w);
    NextResetGood(pg, usage, preserve, resets[k], at, w);
  }

  /** One period and its reset take the run from one reset to the next. */
  lemma ResetStep(gs: seq<Grant>, usage: Time -> real, preserve: bool, start: Snapshot, until: Time, resets: seq<Time>, k: nat,
      cur: Snapshot, snap: Snapshot, ps: seq<Segment>, out: Snapshot)
    requires Ids(gs) <= start.balances.Keys && AllSane(gs) && Metered(usage)
    requires Sorted(resets) && TimelineOk(start.at, until, resets) && k < |resets|
    requires AtReset(gs, usage, preserve, start, resets, k, cur)
    requires PeriodRun(gs, Unreset(usage, preserve), cur, resets[k], false, snap, ps)
    requires out.at == resets[k] && out.unitConfig == snap.unitConfig && out.balances.Keys == Ids(gs)
    requires StateOf(Prioritize(gs), out) == Reset(Prioritize(gs), StateOf(Prioritize(gs), snap), resets[k], preserve)
    ensures AtReset(gs, usage, preserve, start, resets, k + 1, out)
  {
    var pg := Prioritize(gs);
    ReachedBounds(start.at, until, resets, k);
    SanePrioritized(gs);
    PeriodEnd(gs, usage, preserve, cur, resets[k], snap, ps);
    NextAtReset(pg, usage, preserve, StateOf(pg, start), start.at, resets, k, cur.at, StateOf(pg, cur), StateOf(pg, snap));
  }

  /** The final period ends the run where the reference finishes. */
  lemma FinalStep(gs: seq<Grant>, usage: Time -> real, preserve: bool, start: Snapshot, until: Time, resets: seq<Time>,
      cur: Snapshot, snap: Snapshot, ps: seq<Segment>)
    requires Ids(gs) <= start.balances.Keys
    requires Sorted(resets) && TimelineOk(start.at, until, resets)
    requires AtReset(gs, usage, preserve, start, resets, |resets|, cur)
    requires PeriodRun(gs, Unreset(usage, preserve), cur, until, true, snap, ps)
    ensures var pg := Prioritize(gs);
      StateOf(pg, snap) == Finish(pg, ListEnv(usage, resets, preserve), StateOf(pg, start), start.at, until)
  {
    var pg, s, n := Prioritize(gs), StateOf(Prioritize(gs), start), |resets|;
    assert resets[..n] == resets;
    ReachedBounds(start.at, until, resets, n);
    NoMoreResets(pg, usage, preserve, s, start.at, resets, cur.at, until);
    Occurrences(usage, resets, preserve, until);
  }

  lemma PeriodTracks(gs: seq<Grant>, usage: Time -> real, preserve: bool, start: Snapshot, until: Time, resets: seq<Time>, k: nat,
      cur: Snapshot, end: Time, inclusive: bool, snap: Snapshot, segs: seq<Segment>, ps: seq<Segment>)
    requires Ids(gs) <= start.balances.Keys
    requires Increasing(resets) && TimelineOk(start.at, until, resets) && k <= |resets|
    requires AtReset(gs, usage, preserve, start, resets, k, cur) && cur.at <= end
    requires if k < |resets| then end == resets[k] && !inclusive else end == until && inclusive
    requires PeriodRun(gs, Unreset(usage, preserve), cur, end, inclusive, snap, ps)
    requires Tracks(Prioritize(gs), ListEnv(usage, resets, preserve), StateOf(Prioritize(gs), start), start.at, segs)
    requires Fold(CountersOf(StateOf(Prioritize(gs), start)), segs) == Counters(cur.usage, cur.grantUsage)
    ensures Tracks(Prioritize(gs), ListEnv(usage, resets, preserve), StateOf(Prioritize(gs), start), start.at, segs + ps)
  {
    var pg, s, env, u := Prioritize(gs), StateOf(Prioritize(gs), start), ListEnv(usage, resets, preserve), Unreset(usage, preserve);
    var w := StateOf(pg, cur);
    ReachedBounds(start.at, until, resets, k);
    PeriodHasShape(gs, u, cur, end, inclusive, snap, ps);
    var plan :| PlanOk(pg, cur.at, end, inclusive, plan) && |ps| == |plan.phases| && PeriodSegments(pg, u, w, cur.at, ps, plan.phases);
    forall i | 0 <= i < |ps| ensures Walk(pg, u, w, cur.at, ps[i].from) == Walk(pg, env, s, start.at, ps[i].from) {
      if k < |resets| && i > 0 { assert ps[i].from < end; }
      WithinPeriod(pg, usage, preserve, s, start.at, resets, k, cur.at, ps[i].from);
    }
    AppendTracks(pg, env, u, s, start.at, segs, w, cur.at, ps);
  }

  lemma PeriodFold(gs: seq<Grant>, env: Env, start: Snapshot, cur: Snapshot, end: Time, inclusive: bool, snap: Snapshot, segs: seq<Segment>, ps: seq<Segment>)
    requires Ids(gs) <= start.balances.Keys && Ids(gs) <= cur.balances.Keys
    requires PeriodRun(gs, env, cur, end, inclusive, snap, ps)
    requires Fold(CountersOf(StateOf(Prioritize(gs), start)), segs) == Counters(cur.usage, cur.grantUsage)
    ensures Fold(CountersOf(StateOf(Prioritize(gs), start)), segs + ps) == Counters(snap.usage, snap.grantUsage)
  {
    FoldAppend(CountersOf(StateOf(Prioritize(gs), start)), segs, ps);
  }

  lemma ResetsOutside(from: Time, until: Time, resets: seq<Time>, k: nat, end: Time)
    requires Increasing(resets) && TimelineOk(from, until, resets) && k <= |resets|
    requires if k < |resets| then end == resets[k] else end == until
    ensures forall t :: t in resets ==> t <= Reached(from, resets, k) || end <= t
    ensures from < Reached(from, resets, k) ==> Reached(from, resets, k) in resets
    ensures Reached(from, resets, k) <= end <= until
    ensures k < |resets| ==> Reached(from, resets, k) < end && end in resets
    ensures from == Reached(from, resets, k) <==> k == 0
  {
    ReachedBounds(from, until, resets, k);
    forall t | t in resets ensures t <= Reached(from, resets, k) || end <= t {
      var i :| 0 <= i < |resets| && resets[i] == t;
      if i < k { assert resets[..k][i] == t && t in resets[..k]; }
    }
  }

  /** The facts about segment starts carry over when a period is appended. */
  lemma RecordStarts(pg: seq<Grant>, resets: seq<Time>, start: Snapshot, until: Time, k: nat, end: Time, inclusive: bool,
      segs: seq<Segment>, ps: seq<Segment>)
    requires Increasing(resets) && TimelineOk(start.at, until, resets) && k <= |resets|
    requires if k < |resets| then end == resets[k] && !inclusive else end == until && inclusive
    requires PeriodShape(pg, Reached(start.at, resets, k), end, inclusive, ps)
    requires OnlyBreaks(pg, resets, start.at, until, segs) && Covers(pg, resets, start.at, Reached(start.at, resets, k), segs)
    requires segs == [] <==> k == 0
    ensures OnlyBreaks(pg, resets, start.at, until, segs + ps) && Covers(pg, resets, start.at, end, segs + ps)
    ensures start.at < Reached(start.at, resets, k) ==>
      exists i :: 1 <= i < |segs + ps| && !(segs + ps)[i].rollover && (segs + ps)[i].from == Reached(start.at, resets, k)
  {
    var at := Reached(start.at, resets, k);
    ResetsOutside(start.at, until, resets, k, end);
    AppendCovers(pg, resets, start.at, at, end, inclusive, segs, ps);
    AppendBreaks(pg, resets, start.at, at, end, until, inclusive, segs, ps);
  }

  lemma RecordShape(pg: seq<Grant>, at: Time, end: Time, inclusive: bool, segs: seq<Segment>, ps: seq<Segment>)
    requires Pending(segs, at) && at <= end && PeriodShape(pg, at, end, inclusive, ps) && (!inclusive ==> at < end)
    ensures InOrder(segs + ps)
    ensures var r := segs + ps; |r| > 0 && !r[|r| - 1].rollover && r[|r| - 1].until == end
    ensures !inclusive ==> forall i :: 0 <= i < |segs + ps| ==> (segs + ps)[i].from < end
    ensures inclusive && at < end && RecursAt(pg, end) ==>
      exists i :: 1 <= i < |segs + ps| && !(segs + ps)[i].rollover && (segs + ps)[i].from == end
  {
    AppendInOrder(pg, segs, at, end, inclusive, ps);
    var r := segs + ps;
    assert r[|r| - 1] == ps[|ps| - 1];
    if inclusive && at < end && RecursAt(pg, end) { assert r[|segs| + |ps| - 1].from == end; }
  }

  /** The history and the position of the run after `k` resets. */
  ghost predicate HistoryAt(pg: seq<Grant>, env: Env, resets: seq<Time>, start: Snapshot, until: Time, k: nat, segs: seq<Segment>, cur: Snapshot)
    requires Ids(pg) <= start.balances.Keys
  {
    && (segs == [] <==> k == 0) && (k == 0 ==> cur == start)
    && (segs == [] || segs[|segs| - 1].until == cur.at)
    && ValidHistory(segs, start)
    && (Increasing(resets) ==> Recorded(pg, env, resets, start, until, segs, cur) && Pending(segs, cur.at))
  }

  /** A period extends the recorded history up to its end. */
  lemma RecordPeriod(gs: seq<Grant>, usage: Time -> real, preserve: bool, start: Snapshot, until: Time, resets: seq<Time>, k: nat,
      cur: Snapshot, end: Time, inclusive: bool, snap: Snapshot, segs: seq<Segment>, ps: seq<Segment>)
    requires Ids(gs) <= start.balances.Keys
    requires Sorted(resets) && TimelineOk(start.at, until, resets) && k <= |resets|
    requires AtReset(gs, usage, preserve, start, resets, k, cur) && cur.at <= end
    requires if k < |resets| then end == resets[k] && !inclusive else end == until && inclusive
    requires PeriodRun(gs, Unreset(usage, preserve), cur, end, inclusive, snap, ps)
    requires HistoryAt(Prioritize(gs), ListEnv(usage, resets, preserve), resets, start, until, k, segs, cur)
    ensures ValidHistory(segs + ps, start)
    ensures |ps| > 0 && ps[|ps| - 1].until == end
    ensures Increasing(resets) ==>
      PeriodRecorded(Prioritize(gs), ListEnv(usage, resets, preserve), resets, start, until, end, inclusive, segs + ps, snap)
  {
    PeriodHasShape(gs, Unreset(usage, preserve), cur, end, inclusive, snap, ps);
    AppendValid(segs, start, cur, ps);
    if Increasing(resets) {
      RecordStrict(gs, usage, preserve, start, until, resets, k, cur, end, inclusive, snap, segs, ps);
    }
  }

  /** The recorded history up to the end of a period. */
  ghost predicate PeriodRecorded(pg: seq<Grant>, env: Env, resets: seq<Time>, start: Snapshot, until: Time, end: Time, inclusive: bool,
      r: seq<Segment>, snap: Snapshot)
    requires Ids(pg) <= start.balances.Keys
  {
    Recorded(pg, env, resets, start, until, r, snap) && PeriodClosed(pg, resets, start.at, end, inclusive, r)
  }

  ghost predicate PeriodClosed(pg: seq<Grant>, resets: seq<Time>, from: Time, end: Time, inclusive: bool, r: seq<Segment>) {
    && InOrder(r) && |r| > 0 && !r[|r| - 1].rollover
    && (!inclusive ==> forall i :: 0 <= i < |r| ==> r[i].from < end)
    && (inclusive && from < end && (end in resets || RecursAt(pg, end)) ==>
         exists i :: 1 <= i < |r| && !r[i].rollover && r[i].from == end)
  }

  lemma RecordFacts(gs: seq<Grant>, usage: Time -> real, preserve: bool, start: Snapshot, until: Time, resets: seq<Time>, k: nat,
      cur: Snapshot, end: Time, inclusive: bool, snap: Snapshot, segs: seq<Segment>, ps: seq<Segment>)
    requires Ids(gs) <= start.balances.Keys
    requires Increasing(resets) && TimelineOk(start.at, until, resets) && k <= |resets|
    requires AtReset(gs, usage, preserve, start, resets, k, cur) && cur.at <= end
    requires if k < |resets| then end == resets[k] && !inclusive else end == until && inclusive
    requires PeriodRun(gs, Unreset(usage, preserve), cur, end, inclusive, snap, ps)
    requires HistoryAt(Prioritize(gs), ListEnv(usage, resets, preserve), resets, start, until, k, segs, cur)
    requires ValidHistory(segs + ps, start) && PeriodShape(Prioritize(gs), cur.at, end, inclusive, ps)
    ensures Recorded(Prioritize(gs), ListEnv(usage, resets, preserve), resets, start, until, segs + ps, snap)
    ensures start.at < Reached(start.at, resets, k) ==>
      exists i :: 1 <= i < |segs + ps| && !(segs + ps)[i].rollover && (segs + ps)[i].from == Reached(start.at, resets, k)
  {
    PeriodTracks(gs, usage, preserve, start, until, resets, k, cur, end, inclusive, snap, segs, ps);
    PeriodFold(gs, Unreset(usage, preserve), start, cur, end, inclusive, snap, segs, ps);
    RecordStarts(Prioritize(gs), resets, start, until, k, end, inclusive, segs, ps);
  }

  /** Closing the facts of a period into what is recorded up to its end. */
  lemma RecordEnd(pg: seq<Grant>, resets: seq<Time>, from: Time, until: Time, k: nat, end: Time, inclusive: bool, segs: seq<Segment>, ps: seq<Segment>)
    requires Increasing(resets) && TimelineOk(from, until, resets) && k <= |resets|
    requires if k < |resets| then end == resets[k] && !inclusive else end == until && inclusive
    requires Pending(segs, Reached(from, resets, k)) && PeriodShape(pg, Reached(from, resets, k), end, inclusive, ps)
    requires from < Reached(from, resets, k) ==>
      exists i :: 1 <= i < |segs + ps| && !(segs + ps)[i].rollover && (segs + ps)[i].from == Reached(from, resets, k)
    ensures PeriodClosed(pg, resets, from, end, inclusive, segs + ps)
  {
    ResetsOutside(from, until, resets, k, end);
    RecordShape(pg, Reached(from, resets, k), end, inclusive, segs, ps);
    if inclusive && end in resets {
      var i :| 0 <= i < |resets| && resets[i] == end;
      assert resets[i] <= Reached(from, resets, k);
    }
  }

  lemma RecordStrict(gs: seq<Grant>, usage: Time -> real, preserve: bool, start: Snapshot, until: Time, resets: seq<Time>, k: nat,
      cur: Snapshot, end: Time, inclusive: bool, snap: Snapshot, segs: seq<Segment>, ps: seq<Segment>)
    requires Ids(gs) <= start.balances.Keys
    requires Increasing(resets) && TimelineOk(start.at, until, resets) && k <= |resets|
    requires AtReset(gs, usage, preserve, start, resets, k, cur) && cur.at <= end
    requires if k < |resets| then end == resets[k] && !inclusive else end == until && inclusive
    requires PeriodRun(gs, Unreset(usage, preserve), cur, end, inclusive, snap, ps)
    requires HistoryAt(Prioritize(gs), ListEnv(usage, resets, preserve), resets, start, until, k, segs, cur)
    requires ValidHistory(segs + ps, start) && PeriodShape(Prioritize(gs), cur.at, end, inclusive, ps)
    ensures PeriodRecorded(Prioritize(gs), ListEnv(usage, resets, preserve), resets, start, until, end, inclusive, segs + ps, snap)
  {
    RecordFacts(gs, usage, preserve, start, until, resets, k, cur, end, inclusive, snap, segs, ps);
    RecordEnd(Prioritize(gs), resets, start.at, until, k, end, inclusive, segs, ps);
  }

  lemma RecordReset(pg: seq<Grant>, env: Env, resets: seq<Time>, start: Snapshot, end: Time, segs: seq<Segment>, snap: Snapshot, roll: Segment, out: Snapshot)
    requires Ids(pg) <= start.balances.Keys && Recorded(pg, env, resets, start, end, segs, snap)
    requires |segs| > 0 && InOrder(segs) && segs[|segs| - 1].until == snap.at == out.at
    requires forall i :: 0 <= i < |segs| ==> segs[i].from < out.at
    requires RolloverSegment(roll, out.at, out.balances) && Counters(out.usage, out.grantUsage) == Counters(0.0, SumUses(roll.uses))
    ensures Recorded(pg, env, resets, start, end, CloseWithReset(segs, roll), out)
    ensures Pending(CloseWithReset(segs, roll), out.at)
  {
    var s := StateOf(pg, start);
    CloseTracks(pg, env, s, start.at, segs, roll);
    CloseFold(CountersOf(s), segs, roll);
    CloseShape(pg, resets, start, end, segs, roll, out.at);
    CloseCovers(pg, resets, start.at, out.at, segs, roll);
    CloseValid(segs, roll, start);
  }

  /** One period of the run and the reset that ends it. */
  method RunToReset(gs: seq<Grant>, usage: Time -> real, ghost start: Snapshot, ghost until: Time, preserve: bool, resets: seq<Time>, k: nat,
      segs: seq<Segment>, cur: Snapshot) returns (segs': seq<Segment>, out: Snapshot)
    requires Distinct(gs) && AllSane(gs) && Metered(usage) && Sorted(resets) && TimelineOk(start.at, until, resets) && k < |resets|
    requires Ids(gs) <= start.balances.Keys
    requires AtReset(gs, usage, preserve, start, resets, k, cur)
    requires HistoryAt(Prioritize(gs), ListEnv(usage, resets, preserve), resets, start, until, k, segs, cur)
    ensures AtReset(gs, usage, preserve, start, resets, k + 1, out)
    ensures HistoryAt(Prioritize(gs), ListEnv(usage, resets, preserve), resets, start, until, k + 1, segs', out)
  {
    ReachedBounds(start.at, until, resets, k);
    HasIds(gs);
    AllRelevant(gs, cur.balances, cur.at, resets[k]);
    var relevant := Relevant(gs, cur.balances, cur.at, resets[k]);
    var period := RunBetweenResets(relevant, usage, cur, resets[k], false, preserve);
    var (snap, ps) := period.value;
    var roll;
    out, roll := ResetPeriod(relevant, snap, preserve, resets[k]);
    ResetStep(gs, usage, preserve, start, until, resets, k, cur, snap, ps, out);
    RecordPeriod(gs, usage, preserve, start, until, resets, k, cur, resets[k], false, snap, segs, ps);
    segs' := CloseWithReset(segs + ps, roll);
    assert (segs + ps)[|segs + ps| - 1] == ps[|ps| - 1];
    CloseValid(segs + ps, roll, start);
    if Increasing(resets) {
      RecordReset(Prioritize(gs), ListEnv(usage, resets, preserve), resets, start, until, segs + ps, snap, roll, out);
    }
  }

  /** What a successful run returns. */
  ghost predicate Ran(gs: seq<Grant>, usage: Time -> real, start: Snapshot, until: Time, preserve: bool, resets: seq<Time>, r: RunResult)
    requires Ids(gs) <= start.balances.Keys
  {
    var pg, snap := Prioritize(gs), r.snapshot;
    && snap.at == until && snap.unitConfig == start.unitConfig && snap.balances.Keys == Ids(gs)
    && StateOf(pg, snap) == Finish(pg, ListEnv(usage, resets, preserve), StateOf(pg, start), start.at, until)
    && (Increasing(resets) ==> Complete(pg, ListEnv(usage, resets, preserve), resets, start, until, r.segments, snap))
  }

  /** The loop over the usage periods. */
  method RunPeriods(gs: seq<Grant>, usage: Time -> real, start: Snapshot, ghost until: Time, preserve: bool, resets: seq<Time>)
      returns (segs: seq<Segment>, cur: Snapshot)
    requires Distinct(gs) && AllSane(gs) && Metered(usage) && Sorted(resets) && TimelineOk(start.at, until, resets)
    requires start.balances.Keys == Ids(gs) && Good(StateOf(Prioritize(gs), start))
    ensures AtReset(gs, usage, preserve, start, resets, |resets|, cur)
    ensures HistoryAt(Prioritize(gs), ListEnv(usage, resets, preserve), resets, start, until, |resets|, segs, cur)
  {
    cur, segs := start, [];
    StartOfRun(gs, usage, preserve, start, until, resets);
    for k := 0 to |resets|
      invariant AtReset(gs, usage, preserve, start, resets, k, cur)
      invariant HistoryAt(Prioritize(gs), ListEnv(usage, resets, preserve), resets, start, until, k, segs, cur)
    {
      segs, cur := RunToReset(gs, usage, start, until, preserve, resets, k, segs, cur);
    }
  }

  /** The last period, whose end is inclusive. */
  method RunLast(gs: seq<Grant>, usage: Time -> real, ghost start: Snapshot, until: Time, preserve: bool, ghost resets: seq<Time>,
      segs: seq<Segment>, cur: Snapshot) returns (r: RunResult)
    requires Distinct(gs) && AllSane(gs) && Metered(usage) && Sorted(resets) && TimelineOk(start.at, until, resets)
    requires Ids(gs) <= start.balances.Keys
    requires AtReset(gs, usage, preserve, start, resets, |resets|, cur)
    requires HistoryAt(Prioritize(gs), ListEnv(usage, resets, preserve), resets, start, until, |resets|, segs, cur)
    ensures Ran(gs, usage, start, until, preserve, resets, r)
  {
    ReachedBounds(start.at, until, resets, |resets|);
    HasIds(gs);
    AllRelevant(gs, cur.balances, cur.at, until);
    var relevant := Relevant(gs, cur.balances, cur.at, until);
    var period := RunBetweenResets(relevant, usage, cur, until, true, preserve);
    var (snap, ps) := period.value;
    FinalStep(gs, usage, preserve, start, until, resets, cur, snap, ps);
    RecordPeriod(gs, usage, preserve, start, until, resets, |resets|, cur, until, true, snap, segs, ps);
    r := RunResult(snap, segs + ps);
  }

  /** Run. It fails exactly when the starting snapshot's grant usage is negative, the resets are not
      within the run, or the balances do not pair up with the grants; otherwise it ends where the minute-by-minute reference finishes. */
  method Run(gs: seq<Grant>, usage: Time -> real, start: Snapshot, until: Time, preserve: bool, resets: seq<Time>)
      returns (r: Result<RunResult>)
    requires Distinct(gs) && AllSane(gs) && Metered(usage) && Sorted(resets)
    requires Ids(gs) <= start.balances.Keys
    requires NonNegative(Vals(Prioritize(gs), start.balances)) && start.overage >= 0.0
    ensures r.Ok? <==> start.grantUsage >= 0.0 && TimelineOk(start.at, until, resets) && start.balances.Keys == Ids(gs)
    ensures r.Ok? ==> Ran(gs, usage, start, until, preserve, resets, r.value)
  {
    if start.grantUsage < 0.0 { return Err; }
    if |resets| > 0 && resets[0] <= start.at <= resets[|resets| - 1] { return Err; }
    var lo, hi := if until < start.at then until else start.at, if until < start.at then start.at else until;
    if |resets| > 0 && resets[0] < lo { lo := resets[0]; }
    if |resets| > 0 && hi < resets[|resets| - 1] { hi := resets[|resets| - 1]; }
    assert |resets| > 0 ==> resets[0] <= resets[|resets| - 1];
    if lo != start.at || hi != until { return Err; }
    // the first period already rejects balances of other grants
    if start.balances.Keys != Ids(gs) { return Err; }
    var segs, cur := RunPeriods(gs, usage, start, until, preserve, resets);
    var result := RunLast(gs, usage, start, until, preserve, resets, segs, cur);
    r := Ok(result);
  }

  lemma StartOfRun(gs: seq<Grant>, usage: Time -> real, preserve: bool, start: Snapshot, until: Time, resets: seq<Time>)
    requires Ids(gs) == start.balances.Keys && Good(StateOf(Prioritize(gs), start))
    ensures AtReset(gs, usage, preserve, start, resets, 0, start)
    ensures HistoryAt(Prioritize(gs), ListEnv(usage, resets, preserve), resets, start, until, 0, [], start)
  {
  }
}
