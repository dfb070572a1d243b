/** The engine: burning down grants between resets and across them
    (openmeter/credit/engine/run.go, openmeter/credit/engine/reset.go). */
module Engine {
  import opened Grants
  import opened Reference
  import opened Balances
  import opened Projection
  import opened Phases
  import opened Burndown
  import opened History

  // ------------------------------------------------------ between two resets

  /** The same metering without any reset. */
  function Unreset(usage: Time -> real, preserve: bool): Env {
    Env(usage, t => 0, preserve)
  }

  function CountersOf(s: State): Counters { Counters(s.usage, s.burnt) }

  /** The segment starts with the reference state at its time, grant activity applied. */
  ghost predicate StartsAt(pg: seq<Grant>, seg: Segment, c: Counters, s: State) {
    && Fits(pg, s)
    && seg.balanceAtStart.Keys == Ids(pg)
    && Vals(pg, seg.balanceAtStart) == EnterAll(pg, s.bals, seg.from)
    && seg.overageAtStart == s.overage
    && c == CountersOf(s)
  }

  /** Prefixes of the segments of one period. */
  ghost predicate PeriodSegments(pg: seq<Grant>, env: Env, s: State, from: Time, segs: seq<Segment>, phases: seq<Phase>)
    requires Fits(pg, s)
  {
    && |segs| <= |phases|
    && (forall k :: 0 <= k < |segs| ==> segs[k].from == phases[k].from && segs[k].until == phases[k].until)
    && (forall k :: 0 <= k < |segs| ==> !segs[k].usageReset && !segs[k].rollover)
    && (forall k :: 0 <= k < |segs| ==>
         StartsAt(pg, segs[k], Fold(CountersOf(s), segs[..k]), Walk(pg, env, s, from, segs[k].from)))
  }

  lemma {:induction false} PrioritizeSorted(gs: seq<Grant>)
    requires Ordered(gs)
    ensures Prioritize(gs) == gs
  {
    if gs != [] {
      PrioritizeSorted(gs[1..]);
      if |gs| > 1 { assert Precedes(gs[0], gs[1]); }
    }
  }

  /** The reference state at the start of phase `k`; the phase then serves its usage at once. */
  lemma PhaseStep(pg: seq<Grant>, usage: Time -> real, preserve: bool, s: State, from: Time, until: Time, inclusive: bool, plan: Plan, k: nat)
    requires Fits(pg, s) && Good(s) && AllSane(pg) && Metered(usage) && from <= until
    requires PlanOk(pg, from, until, inclusive, plan) && k < |plan.phases|
    ensures var p, env := plan.phases[k], Unreset(usage, preserve);
      var w := Walk(pg, env, s, from, p.from);
      var u := UsageIn(usage, p.from, p.until);
      && from <= p.from && Good(w)
      && (p.from < p.until ==> Serve(pg, w, p.from, u) == Walk(pg, env, s, from, p.until))
      && (p.from == p.until ==> Serve(pg, w, p.from, u) == Settle(pg, w, p.from))
  {
    var p, env := plan.phases[k], Unreset(usage, preserve);
    PlanGrows(pg, from, until, inclusive, plan, k);
    WalkGood(pg, env, s, from, p.from);
    if p.from < p.until {
      var w := Walk(pg, env, s, from, p.from);
      assert Quiet(pg, p.from, p.until) by {
        forall t, i | p.from < t < p.until && 0 <= i < |pg| ensures !Event(pg[i], t) { assert !EventAt(pg, t); }
      }
      PhaseIsWalk(pg, env, w, p.from, p.until);
      WalkSplits(pg, env, s, from, p.from, p.until);
    }
  }

  lemma {:induction false} PlanGrows(gs: seq<Grant>, from: Time, until: Time, inclusive: bool, plan: Plan, k: nat)
    requires from <= until && PlanOk(gs, from, until, inclusive, plan) && k < |plan.phases|
    ensures from <= plan.phases[k].from && (k > 0 ==> from < plan.phases[k].from) && plan.phases[k].from <= plan.phases[k].until
  {
    if k > 0 {
      PlanGrows(gs, from, until, inclusive, plan, k - 1);
      assert plan.phases[k].from == plan.phases[k - 1].until;
    }
  }

  lemma EnteredZero(pg: seq<Grant>, start: BalanceMap, bals: seq<real>, t: Time)
    requires Ids(pg) <= start.Keys && |bals| == |pg| && Vals(pg, start) == EnterAll(pg, bals, t)
    ensures ZeroOutside(Vals(pg, start), ActiveMask(pg, t))
  {
  }

  /** The segment serves `used` from the balances `from` and leaves `out` and `left`. */
  ghost predicate Serves(pg: seq<Grant>, seg: Segment, p: Phase, used: real, bals: seq<real>, overage: real, out: BalanceMap, left: real)
    requires |bals| == |pg|
  {
    && out.Keys == Ids(pg) && seg.balanceAtStart.Keys == Ids(pg)
    && Vals(pg, seg.balanceAtStart) == EnterAll(pg, bals, p.from)
    && Burn(Vals(pg, seg.balanceAtStart), used + overage) == Burnt(Vals(pg, out), left)
    && seg.from == p.from && seg.until == p.until && !seg.usageReset && !seg.rollover
    && seg.overageAtStart == overage && seg.overage == left && seg.totalUsage == used
    && Conserves(seg, out)
  }

  /** Burning from the active grants, seen as burning from all of them. */
  method BurnPhase(pg: seq<Grant>, start: BalanceMap, active: seq<Grant>, t: Time, usage: real)
      returns (out: BalanceMap, uses: seq<GrantUsage>, left: real)
    requires Distinct(pg) && start.Keys == Ids(pg) && active == Pick(pg, ActiveMask(pg, t))
    requires ZeroOutside(Vals(pg, start), ActiveMask(pg, t))
    ensures out.Keys == Ids(pg)
    ensures Burn(Vals(pg, start), usage) == Burnt(Vals(pg, out), left)
    ensures SumUses(uses) == usage - left && ApplyUses(start, uses) == out
  {
    PickDistinct(pg, ActiveMask(pg, t));
    out, uses, left := BurnDownGrants(start, active, usage);
    BurnActive(pg, start, out, t, usage);
  }

  /** One phase of runBetweenResets: the segment it records and the balances after it. */
  method RunPhase(pg: seq<Grant>, balances: BalanceMap, overage: real, recurred: set<GrantId>, p: Phase, usage: Time -> real)
      returns (seg: Segment, out: BalanceMap, left: real)
    requires Distinct(pg) && balances.Keys == Ids(pg) && recurred == Recurring(pg, p.from)
    ensures Serves(pg, seg, p, UsageIn(usage, p.from, p.until), Vals(pg, balances), overage, out, left)
  {
    var start, active := EnterPhase(pg, balances, recurred, p.from);
    var used := UsageIn(usage, p.from, p.until);
    EnteredZero(pg, start, Vals(pg, balances), p.from);
    var uses;
    out, uses, left := BurnPhase(pg, start, active, p.from, used + overage);
    seg := Segment(p.from, p.until, start, overage, used, left, uses, false, false);
    assert used + overage == SumUses(uses) + left;
  }

  /** The reference state that runBetweenResets has reached before phase `k`. */
  ghost function AfterPhases(pg: seq<Grant>, env: Env, s: State, from: Time, until: Time, phases: seq<Phase>, k: nat): State
    requires Fits(pg, s) && 0 < |phases| && k <= |phases|
  {
    if k < |phases| then Walk(pg, env, s, from, phases[k].from)
    else if phases[k - 1].from < phases[k - 1].until then Walk(pg, env, s, from, until)
    else Settle(pg, Walk(pg, env, s, from, until), until)
  }

  /** Balances, overage and counters are those of the reference state. */
  ghost predicate Holds(pg: seq<Grant>, w: State, balances: BalanceMap, overage: real, c: Counters) {
    balances.Keys == Ids(pg) && w == State(Vals(pg, balances), overage, c.usage, c.burnt)
  }

  lemma BurntIsServed(pg: seq<Grant>, w: State, p: Phase, used: real, balances: BalanceMap, overage: real, c: Counters,
      seg: Segment, out: BalanceMap, left: real)
    requires Holds(pg, w, balances, overage, c) && Serves(pg, seg, p, used, Vals(pg, balances), overage, out, left)
    ensures Holds(pg, Serve(pg, w, p.from, used), out, left, Counters(c.usage + seg.totalUsage, c.burnt + SumUses(seg.uses)))
    ensures StartsAt(pg, seg, c, w)
  {
    assert SumUses(seg.uses) == used + overage - left;
  }

  lemma ReachedNext(pg: seq<Grant>, usage: Time -> real, preserve: bool, s: State, from: Time, until: Time, inclusive: bool, plan: Plan, k: nat)
    requires Fits(pg, s) && Good(s) && AllSane(pg) && Metered(usage) && from <= until
    requires PlanOk(pg, from, until, inclusive, plan) && k < |plan.phases|
    ensures var env, p := Unreset(usage, preserve), plan.phases[k];
      AfterPhases(pg, env, s, from, until, plan.phases, k + 1) ==
        Serve(pg, AfterPhases(pg, env, s, from, until, plan.phases, k), p.from, UsageIn(usage, p.from, p.until))
  {
    PhaseStep(pg, usage, preserve, s, from, until, inclusive, plan, k);
    if k + 1 < |plan.phases| { assert plan.phases[k + 1].from == plan.phases[k].until; }
  }

  lemma SegmentsSnoc(pg: seq<Grant>, env: Env, s: State, from: Time, phases: seq<Phase>, segs: seq<Segment>, seg: Segment)
    requires Fits(pg, s) && |segs| < |phases| && PeriodSegments(pg, env, s, from, segs, phases)
    requires seg.from == phases[|segs|].from && seg.until == phases[|segs|].until && !seg.usageReset && !seg.rollover
    requires StartsAt(pg, seg, Fold(CountersOf(s), segs), Walk(pg, env, s, from, seg.from))
    ensures PeriodSegments(pg, env, s, from, segs + [seg], phases)
  {
    var r := segs + [seg];
    forall j | 0 <= j < |r| ensures StartsAt(pg, r[j], Fold(CountersOf(s), r[..j]), Walk(pg, env, s, from, r[j].from)) {
      assert r[..j] == segs[..j];
      assert segs[..|segs|] == segs;
    }
  }

  /** The run is in step with the reference before the next phase. */
  ghost predicate InStep(pg: seq<Grant>, env: Env, s: State, from: Time, until: Time, phases: seq<Phase>,
      balances: BalanceMap, overage: real, segs: seq<Segment>)
    requires Fits(pg, s) && 0 < |phases|
  {
    && PeriodSegments(pg, env, s, from, segs, phases)
    && Holds(pg, AfterPhases(pg, env, s, from, until, phases, |segs|), balances, overage, Fold(CountersOf(s), segs))
    && (|segs| > 0 ==> segs[0].overageAtStart == s.overage)
  }

  /** A phase keeps the run in step with the reference. */
  lemma PhaseKeeps(pg: seq<Grant>, usage: Time -> real, env: Env, s: State, from: Time, until: Time, phases: seq<Phase>,
      balances: BalanceMap, overage: real, segs: seq<Segment>, seg: Segment, out: BalanceMap, left: real)
    requires Fits(pg, s) && |segs| < |phases| && phases[0].from == from
    requires InStep(pg, env, s, from, until, phases, balances, overage, segs)
    requires var p := phases[|segs|];
      && Serves(pg, seg, p, UsageIn(usage, p.from, p.until), Vals(pg, balances), overage, out, left)
      && AfterPhases(pg, env, s, from, until, phases, |segs| + 1) ==
           Serve(pg, AfterPhases(pg, env, s, from, until, phases, |segs|), p.from, UsageIn(usage, p.from, p.until))
    ensures InStep(pg, env, s, from, until, phases, out, left, segs + [seg])
  {
    var p, c := phases[|segs|], Fold(CountersOf(s), segs);
    BurntIsServed(pg, AfterPhases(pg, env, s, from, until, phases, |segs|), p, UsageIn(usage, p.from, p.until), balances, overage, c, seg, out, left);
    FoldSnoc(CountersOf(s), segs, seg);
    SegmentsSnoc(pg, env, s, from, phases, segs, seg);
    if segs == [] { assert Walk(pg, env, s, from, from) == s; }
  }

  lemma NextRecurring(gs: seq<Grant>, from: Time, until: Time, inclusive: bool, plan: Plan, k: nat)
    requires PlanOk(gs, from, until, inclusive, plan) && k + 1 < |plan.phases|
    ensures plan.phases[k].recurredAtEnd == Recurring(gs, plan.phases[k + 1].from)
  {
    assert plan.phases[k + 1].from == plan.phases[k].until;
  }

  /** The phases of one period, run one after the other. */
  method RunPhases(pg: seq<Grant>, usage: Time -> real, start: Snapshot, until: Time, inclusive: bool, ghost preserve: bool, plan: Plan)
      returns (balances: BalanceMap, overage: real, segs: seq<Segment>)
    requires start.at <= until && Distinct(pg) && Ordered(pg) && AllSane(pg) && Metered(usage)
    requires start.balances.Keys == Ids(pg) && Good(StateOf(pg, start)) && PlanOk(pg, start.at, until, inclusive, plan)
    ensures |segs| == |plan.phases|
    ensures InStep(pg, Unreset(usage, preserve), StateOf(pg, start), start.at, until, plan.phases, balances, overage, segs)
  {
    var grants, phases := pg, plan.phases;
    ghost var s, env := StateOf(pg, start), Unreset(usage, preserve);
    var recurred := plan.recurredAtStart;
    balances, overage, segs := start.balances, start.overage, [];
    var rePrioritize := false;
    for k := 0 to |phases|
      invariant grants == pg && |segs| == k
      invariant k < |phases| ==> recurred == Recurring(pg, phases[k].from)
      invariant InStep(pg, env, s, start.at, until, phases, balances, overage, segs)
    {
      if rePrioritize {
        PrioritizeSorted(grants);
        grants := Prioritize(grants);
      }
      ReachedNext(pg, usage, preserve, s, start.at, until, inclusive, plan, k);
      var seg, out, left := RunPhase(grants, balances, overage, recurred, phases[k], usage);
      PhaseKeeps(pg, usage, env, s, start.at, until, phases, balances, overage, segs, seg, out, left);
      segs, balances, overage := segs + [seg], out, left;
      rePrioritize, recurred := phases[k].priorityChange, phases[k].recurredAtEnd;
      if k + 1 < |phases| { NextRecurring(pg, start.at, until, inclusive, plan, k); }
    }
  }

  /** What a run between resets promises about its result. */
  ghost predicate PeriodRun(gs: seq<Grant>, env: Env, start: Snapshot, until: Time, inclusive: bool, snap: Snapshot, segs: seq<Segment>)
    requires Ids(gs) <= start.balances.Keys
  {
    var pg, s := Prioritize(gs), StateOf(Prioritize(gs), start);
    var w := Walk(pg, env, s, start.at, until);
    && snap.at == until && snap.unitConfig == start.unitConfig && snap.balances.Keys == Ids(pg)
    && StateOf(pg, snap) == (if start.at == until || (inclusive && RecursAt(pg, until)) then Settle(pg, w, until) else w)
    && (exists plan :: PlanOk(pg, start.at, until, inclusive, plan) && |segs| == |plan.phases|
         && PeriodSegments(pg, env, s, start.at, segs, plan.phases))
    && Fold(CountersOf(s), segs) == Counters(snap.usage, snap.grantUsage)
    && ValidHistory(segs, start)
  }

  /** runBetweenResets. It fails exactly when grants and balances do not pair up, or the starting
      snapshot's grant usage is negative. */
  method RunBetweenResets(gs: seq<Grant>, usage: Time -> real, start: Snapshot, until: Time, inclusive: bool, ghost preserve: bool)
      returns (r: Result<(Snapshot, seq<Segment>)>)
    requires start.at <= until && Distinct(gs) && AllSane(gs) && Metered(usage)
    requires start.balances.Keys == Ids(gs) ==> NonNegative(Vals(Prioritize(gs), start.balances)) && start.overage >= 0.0
    ensures r.Ok? <==> start.balances.Keys == Ids(gs) && start.grantUsage >= 0.0
    ensures r.Ok? ==> PeriodRun(gs, Unreset(usage, preserve), start, until, inclusive, r.value.0, r.value.1)
  {
    if start.balances.Keys != Ids(gs) { return Err; }
    // a history does not accept such a starting snapshot
    if start.grantUsage < 0.0 { return Err; }
    var pg := Prioritize(gs);
    PrioritizeOrders(gs);
    SanePrioritized(gs);
    ghost var s, env := StateOf(pg, start), Unreset(usage, preserve);
    var plan := GetPhases(pg, start.at, until, inclusive);
    var balances, overage, segs := RunPhases(pg, usage, start, until, inclusive, preserve, plan);
    FoldTotals(CountersOf(s), segs);
    var snap := Snapshot(until, balances, overage, start.usage + TotalUsage(segs), start.grantUsage + TotalGrantUsage(segs), start.unitConfig);
    PeriodRunOk(gs, env, start, until, inclusive, plan, snap, segs);
    r := Ok((snap, segs));
  }

  lemma PeriodRunOk(gs: seq<Grant>, env: Env, start: Snapshot, until: Time, inclusive: bool, plan: Plan, snap: Snapshot, segs: seq<Segment>)
    requires start.at <= until && Ids(gs) <= start.balances.Keys
    requires PlanOk(Prioritize(gs), start.at, until, inclusive, plan) && |segs| == |plan.phases|
    requires InStep(Prioritize(gs), env, StateOf(Prioritize(gs), start), start.at, until, plan.phases, snap.balances, snap.overage, segs)
    requires snap.at == until && snap.unitConfig == start.unitConfig
    requires Fold(CountersOf(StateOf(Prioritize(gs), start)), segs) == Counters(snap.usage, snap.grantUsage)
    ensures PeriodRun(gs, env, start, until, inclusive, snap, segs)
  {
    PeriodHistory(Prioritize(gs), env, StateOf(Prioritize(gs), start), start, until, inclusive, plan, segs);
  }

  lemma SanePrioritized(gs: seq<Grant>)
    requires AllSane(gs)
    ensures AllSane(Prioritize(gs))
  {
    PrioritizePermutes(gs);
    forall i | 0 <= i < |Prioritize(gs)| ensures Sane(Prioritize(gs)[i]) { assert Prioritize(gs)[i] in gs; }
  }

  lemma LastPhase(pg: seq<Grant>, from: Time, until: Time, inclusive: bool, plan: Plan)
    requires from <= until && PlanOk(pg, from, until, inclusive, plan)
    ensures var last := plan.phases[|plan.phases| - 1];
      last.from == last.until <==> from == until || (inclusive && RecursAt(pg, until))
  {
    RecurringMeansEvent(pg, until);
    PlanGrows(pg, from, until, inclusive, plan, |plan.phases| - 1);
  }

  /** The segments of a period are a valid history, and the last one is empty exactly at a terminal event. */
  lemma PeriodHistory(pg: seq<Grant>, env: Env, s: State, start: Snapshot, until: Time, inclusive: bool, plan: Plan, segs: seq<Segment>)
    requires Fits(pg, s) && start.at <= until && PlanOk(pg, start.at, until, inclusive, plan)
    requires |segs| == |plan.phases| && PeriodSegments(pg, env, s, start.at, segs, plan.phases)
    requires segs[0].overageAtStart == start.overage
    ensures ValidHistory(segs, start)
    ensures var last := plan.phases[|plan.phases| - 1];
      last.from == last.until <==> start.at == until || (inclusive && RecursAt(pg, until))
  {
    var n, phases := |plan.phases|, plan.phases;
    forall k | 1 <= k < n ensures segs[k].from == segs[k - 1].until { assert phases[k].from == phases[k - 1].until; }
    forall k | 0 <= k < n ensures segs[k].from <= segs[k].until { PlanGrows(pg, start.at, until, inclusive, plan, k); }
    LastPhase(pg, start.at, until, inclusive, plan);
  }

  // ------------------------------------------------------------------ reset

  /** Active grants carry over what their floor and ceiling allow; inactive ones are untouched. */
  predicate CarriedOver(gs: seq<Grant>, before: BalanceMap, after: BalanceMap, at: Time) {
    forall g :: g in gs ==>
      && g.id in before && g.id in after
      && (if Active(g, at) then CarriesOver(g, before[g.id], after[g.id]) else after[g.id] == before[g.id])
  }

  /** Rolls over the balances of the active grants. */
  method RollOver(gs: seq<Grant>, balances: BalanceMap, at: Time) returns (out: BalanceMap)
    requires Distinct(gs) && balances.Keys == Ids(gs)
    ensures out.Keys == balances.Keys && Vals(gs, out) == RollAll(gs, Vals(gs, balances), at)
    ensures CarriedOver(gs, balances, out, at)
  {
    out := balances;
    HasIds(gs);
    for k := 0 to |gs|
      invariant out.Keys == balances.Keys
      invariant forall i :: 0 <= i < |gs| ==>
        out[gs[i].id] == if i < k && Active(gs[i], at) then Rollover(gs[i], balances[gs[i].id]) else balances[gs[i].id]
      invariant forall i :: 0 <= i < k && Active(gs[i], at) ==> CarriesOver(gs[i], balances[gs[i].id], out[gs[i].id])
    {
      RolloverMeaning(gs[k], balances[gs[k].id]);
      if Active(gs[k], at) { out := out[gs[k].id := Rollover(gs[k], out[gs[k].id])]; }
    }
  }

  /** The rollover segment is an instantaneous, conserving transition. */
  ghost predicate RolloverSegment(seg: Segment, at: Time, balances: BalanceMap) {
    && seg.from == at && seg.until == at && seg.rollover && !seg.usageReset && seg.totalUsage == 0.0
    && Conserves(seg, balances)
  }

  /** reset: rolls over, then burns preserved overage from all grants in order. */
  method ResetPeriod(gs: seq<Grant>, snap: Snapshot, preserve: bool, at: Time) returns (out: Snapshot, seg: Segment)
    requires Distinct(gs) && Ids(gs) == snap.balances.Keys
    ensures out.at == at && out.unitConfig == snap.unitConfig && out.balances.Keys == Ids(gs)
    ensures StateOf(Prioritize(gs), out) == Reset(Prioritize(gs), StateOf(Prioritize(gs), snap), at, preserve)
    ensures RolloverSegment(seg, at, out.balances)
    ensures Counters(out.usage, out.grantUsage) == Counters(0.0, SumUses(seg.uses))
    ensures !preserve || snap.overage == 0.0 ==> CarriedOver(gs, snap.balances, out.balances, at)
  {
    var pg := Prioritize(gs);
    PrioritizeOrders(gs);
    PrioritizePermutes(gs);
    var rolled := RollOver(pg, snap.balances, at);
    assert CarriedOver(gs, snap.balances, rolled, at);
    var kept := if preserve then snap.overage else 0.0;
    var balances, uses, left := rolled, [], kept;
    if kept != 0.0 {
      balances, uses, left := BurnDownGrants(rolled, pg, kept);
    }
    out := Snapshot(at, balances, left, 0.0, SumUses(uses), snap.unitConfig);
    seg := Segment(at, at, rolled, kept, 0.0, left, uses, false, true);
  }

  // -------------------------------------------------------------------- run

  /** How often each time occurs among the resets. */
  function ListEnv(usage: Time -> real, resets: seq<Time>, preserve: bool): Env {
    Env(usage, t => multiset(resets)[t], preserve)
  }

  predicate Sorted(ts: seq<Time>) { forall i, j :: 0 <= i < j < |ts| ==> ts[i] <= ts[j] }

  /** The resets lie after the start and not after the end. */
  predicate TimelineOk(from: Time, until: Time, resets: seq<Time>) {
    from <= until && (resets == [] || (from < resets[0] && resets[|resets| - 1] <= until))
  }

  /** filterRelevantGrants. */
  function Relevant(gs: seq<Grant>, m: BalanceMap, from: Time, until: Time): seq<Grant> {
    if gs == [] then []
    else
      var g := gs[0];
      var lo, hi := if g.effectiveAt < from then from else g.effectiveAt, Earlier(End(g), Some(until)).value;
      (if lo < hi || g.effectiveAt == until || End(g) == Some(from) || g.id in m then [g] else []) + Relevant(gs[1..], m, from, until)
  }

  /** The grant's effective period shares time with the period, or one ends where the other begins. */
  predicate Touches(g: Grant, from: Time, until: Time) {
    || (from < until && g.effectiveAt < until && (End(g).Some? ==> g.effectiveAt < End(g).value && from < End(g).value))
    || g.effectiveAt == until || End(g) == Some(from)
  }

  /** A grant is left out exactly if it has no balance and its effective period does not touch the
      period; one in force throughout an empty period does not touch it. */
  lemma {:induction false} RelevantMeaning(gs: seq<Grant>, m: BalanceMap, from: Time, until: Time)
    ensures forall g :: g in Relevant(gs, m, from, until) <==> g in gs && (g.id in m || Touches(g, from, until))
  {
    if gs != [] { RelevantMeaning(gs[1..], m, from, until); }
  }

  lemma {:induction false} AllRelevant(gs: seq<Grant>, m: BalanceMap, from: Time, until: Time)
    requires forall i :: 0 <= i < |gs| ==> gs[i].id in m
    ensures Relevant(gs, m, from, until) == gs
  {
    if gs != [] { AllRelevant(gs[1..], m, from, until); }
  }

  lemma Occurrences(usage: Time -> real, resets: seq<Time>, preserve: bool, at: Time)
    ensures var e, e' := ListEnv(usage, resets, preserve), ListEnv(usage, resets + [at], preserve);
      && (forall t :: t !in resets ==> e.resets(t) == 0)
      && (forall t :: t in resets ==> e.resets(t) > 0)
      && (forall t :: e'.resets(t) == e.resets(t) + (if t == at then 1 else 0))
  {
    var e, e' := ListEnv(usage, resets, preserve), ListEnv(usage, resets + [at], preserve);
    forall t | t !in resets ensures e.resets(t) == 0 { assert t !in multiset(resets); }
    forall t | t in resets ensures e.resets(t) > 0 { assert t in multiset(resets); }
    assert multiset(resets + [at]) == multiset(resets) + multiset{at};
  }

  /** Up until the minute before a later reset the walk goes on unreset. */
  lemma UntilReset(pg: seq<Grant>, e: Env, e': Env, u: Env, s: State, from: Time, last: Time, t: Time, w: State)
    requires Fits(pg, s) && from <= last <= t && w == Walk(pg, e, s, from, last)
    requires e.usage == e'.usage == u.usage && e.preserve == e'.preserve == u.preserve
    requires forall x: Time :: x <= t ==> e'.resets(x) == e.resets(x)
    requires forall x: Time :: last < x <= t ==> e.resets(x) == u.resets(x)
    ensures Walk(pg, e', s, from, t) == Walk(pg, u, w, last, t)
  {
    WalkLocal(pg, e, e', s, from, last);
    WalkSplits(pg, e', s, from, last, t);
    WalkLocal(pg, e', u, w, last, t);
  }

  lemma ExtendByReset(pg: seq<Grant>, e: Env, e': Env, u: Env, s: State, from: Time, last: Time, at: Time, w: State)
    requires Fits(pg, s) && from <= last < at && w == Walk(pg, e, s, from, last)
    requires e.usage == e'.usage == u.usage && e.preserve == e'.preserve == u.preserve
    requires forall t: Time :: t < at ==> e'.resets(t) == e.resets(t)
    requires forall t: Time :: last < t ==> e.resets(t) == 0
    requires forall t: Time :: u.resets(t) == 0
    requires e'.resets(at) == 1
    ensures Walk(pg, e', s, from, at) == Reset(pg, Walk(pg, u, w, last, at), at, e.preserve)
  {
    UntilReset(pg, e, e', u, s, from, last, at - 1, w);
    LastMinute(pg, e', u, s, from, last, at, w, Walk(pg, u, w, last, at - 1));
  }

  lemma LastMinute(pg: seq<Grant>, e': Env, u: Env, s: State, from: Time, last: Time, at: Time, w: State, x: State)
    requires Fits(pg, s) && Fits(pg, w) && from <= last < at
    requires e'.usage == u.usage && e'.preserve == u.preserve && e'.resets(at) == 1 && u.resets(at) == 0
    requires x == Walk(pg, e', s, from, at - 1) == Walk(pg, u, w, last, at - 1)
    ensures Walk(pg, e', s, from, at) == Reset(pg, Walk(pg, u, w, last, at), at, u.preserve)
  {
    WalkLast(pg, e', s, from, at, x);
    WalkLast(pg, u, w, last, at, x);
  }

  /** A further reset, later than all others: the walk goes on unreset and then resets. */
  lemma LaterReset(pg: seq<Grant>, usage: Time -> real, preserve: bool, s: State, from: Time, resets: seq<Time>, at: Time, last: Time)
    requires Fits(pg, s) && from <= last < at
    requires forall t :: t in resets ==> t <= last
    ensures var w := Walk(pg, ListEnv(usage, resets, preserve), s, from, last);
      Walk(pg, ListEnv(usage, resets + [at], preserve), s, from, at) ==
        Reset(pg, Walk(pg, Unreset(usage, preserve), w, last, at), at, preserve)
  {
    var e := ListEnv(usage, resets, preserve);
    Occurrences(usage, resets, preserve, at);
    forall t: Time | last < t ensures e.resets(t) == 0 { assert t !in resets; }
    ExtendByReset(pg, e, ListEnv(usage, resets + [at], preserve), Unreset(usage, preserve), s, from, last, at,
                  Walk(pg, e, s, from, last));
  }

  /** A reset recorded once more for the time of the last one: the empty period in between settles. */
  lemma RepeatedReset(pg: seq<Grant>, usage: Time -> real, preserve: bool, s: State, from: Time, resets: seq<Time>, at: Time)
    requires Fits(pg, s) && from < at && at in resets
    ensures Walk(pg, ListEnv(usage, resets + [at], preserve), s, from, at) ==
        Reset(pg, Settle(pg, Walk(pg, ListEnv(usage, resets, preserve), s, from, at), at), at, preserve)
  {
    var e, e' := ListEnv(usage, resets, preserve), ListEnv(usage, resets + [at], preserve);
    Occurrences(usage, resets, preserve, at);
    WalkLocal(pg, e, e', s, from, at - 1);
  }

  /** The next reset, later than all others or recorded for the time of the last one. */
  lemma NextReset(pg: seq<Grant>, usage: Time -> real, preserve: bool, s: State, from: Time, resets: seq<Time>, at: Time, last: Time, w: State)
    requires Fits(pg, s) && from <= last && w == Walk(pg, ListEnv(usage, resets, preserve), s, from, last)
    requires if last < at then forall t :: t in resets ==> t <= last else last == at && at in resets && from < at
    ensures var x := if last < at then Walk(pg, Unreset(usage, preserve), w, last, at) else Settle(pg, w, at);
      Walk(pg, ListEnv(usage, resets + [at], preserve), s, from, at) == Reset(pg, x, at, preserve)
  {
    if last < at {
      LaterReset(pg, usage, preserve, s, from, resets, at, last);
    } else {
      RepeatedReset(pg, usage, preserve, s, from, resets, at);
    }
  }

  lemma NextResetGood(pg: seq<Grant>, usage: Time -> real, preserve: bool, at: Time, last: Time, w: State)
    requires Fits(pg, w) && Good(w) && AllSane(pg) && Metered(usage)
    ensures var x := if last < at then Walk(pg, Unreset(usage, preserve), w, last, at) else Settle(pg, w, at);
      Good(Reset(pg, x, at, preserve))
  {
    WalkGood(pg, Unreset(usage, preserve), w, last, at);
    ServeGood(pg, w, at, 0.0);
    ResetGood(pg, if last < at then Walk(pg, Unreset(usage, preserve), w, last, at) else Settle(pg, w, at), at, preserve);
  }

  /** Without further resets the walk goes on unreset. */
  lemma NoMoreResets(pg: seq<Grant>, usage: Time -> real, preserve: bool, s: State, from: Time, resets: seq<Time>, last: Time, t: Time)
    requires Fits(pg, s) && from <= last <= t
    requires forall x :: x in resets ==> x <= last
    ensures var e := ListEnv(usage, resets, preserve);
      Walk(pg, e, s, from, t) == Walk(pg, Unreset(usage, preserve), Walk(pg, e, s, from, last), last, t)
  {
    var e, u := ListEnv(usage, resets, preserve), Unreset(usage, preserve);
    WalkSplits(pg, e, s, from, last, t);
    Occurrences(usage, resets, preserve, t);
    WalkLocal(pg, e, u, Walk(pg, e, s, from, last), last, t);
  }
}
