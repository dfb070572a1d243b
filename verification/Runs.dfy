/** Voiding a grant, and whole runs of operations. */
module Runs {
  import opened Grants
  import opened Reference
  import opened Balances
  import opened Projection
  import opened Checkpoints
  import opened UsagePeriods
  import opened World
  import opened Resumption
  import opened Transparency
  import opened ResetRows
  import opened LateGrants
  import opened Preservation
  import opened OwnerResets

  // ------------------------------------------------------------------ void

  function Voided(g: Grant, id: GrantId, at: Time): Grant {
    if g.id == id then g.(voidedAt := Some(at)) else g
  }

  lemma {:induction false} InsertVoided(g: Grant, gs: seq<Grant>, id: GrantId, at: Time)
    ensures Insert(Voided(g, id, at), VoidIn(gs, id, at)) == VoidIn(Insert(g, gs), id, at)
  {
    if gs == [] || Precedes(g, gs[0]) {
      assert VoidIn([g] + gs, id, at) == [Voided(g, id, at)] + VoidIn(gs, id, at);
    } else {
      InsertVoided(g, gs[1..], id, at);
      assert VoidIn(gs, id, at)[1..] == VoidIn(gs[1..], id, at);
      var tail := Insert(g, gs[1..]);
      assert VoidIn([gs[0]] + tail, id, at) == [Voided(gs[0], id, at)] + VoidIn(tail, id, at);
    }
  }

  /** Voiding does not change the burn-down order. */
  lemma {:induction false} PrioritizeVoided(gs: seq<Grant>, id: GrantId, at: Time)
    ensures Prioritize(VoidIn(gs, id, at)) == VoidIn(Prioritize(gs), id, at)
  {
    if gs != [] {
      PrioritizeVoided(gs[1..], id, at);
      InsertVoided(gs[0], Prioritize(gs[1..]), id, at);
      assert VoidIn(gs, id, at)[1..] == VoidIn(gs[1..], id, at);
    }
  }

  /** The two lists differ only in void times that do not matter at `t`. */
  predicate SameActivity(a: seq<Grant>, b: seq<Grant>, t: Time) {
    && |a| == |b|
    && forall i :: 0 <= i < |a| ==> a[i].(voidedAt := b[i].voidedAt) == b[i] && Active(a[i], t) == Active(b[i], t)
  }

  lemma SameActivitySteps(a: seq<Grant>, b: seq<Grant>, bals: seq<real>, t: Time)
    requires SameActivity(a, b, t) && |bals| == |a|
    ensures EnterAll(a, bals, t) == EnterAll(b, bals, t)
    ensures RollAll(a, bals, t) == RollAll(b, bals, t)
  {
  }

  lemma {:induction false} ResetsCongruent(a: seq<Grant>, b: seq<Grant>, s: State, t: Time, preserve: bool, n: nat)
    requires SameActivity(a, b, t) && Fits(a, s)
    ensures Resets(a, s, t, preserve, n) == Resets(b, s, t, preserve, n)
  {
    if n == 1 {
      SameActivitySteps(a, b, s.bals, t);
    } else if n > 1 {
      ResetsCongruent(a, b, s, t, preserve, n - 1);
      var r := Resets(a, s, t, preserve, n - 1);
      SameActivitySteps(a, b, r.bals, t);
      SameActivitySteps(a, b, Settle(a, r, t).bals, t);
    }
  }

  lemma ServeCongruent(a: seq<Grant>, b: seq<Grant>, s: State, t: Time, usage: real)
    requires SameActivity(a, b, t) && Fits(a, s)
    ensures Serve(a, s, t, usage) == Serve(b, s, t, usage)
  {
    SameActivitySteps(a, b, s.bals, t);
  }

  lemma {:induction false} WalkCongruent(a: seq<Grant>, b: seq<Grant>, env: Env, s: State, from: Time, until: Time)
    requires |a| == |b| && Fits(a, s) && forall x :: from <= x <= until ==> SameActivity(a, b, x)
    ensures Walk(a, env, s, from, until) == Walk(b, env, s, from, until)
    decreases until - from
  {
    if from < until {
      var m := until - 1;
      WalkCongruent(a, b, env, s, from, m);
      var w := Walk(a, env, s, from, m);
      assert SameActivity(a, b, m) && SameActivity(a, b, until);
      ServeCongruent(a, b, w, m, env.usage(m));
      ResetsCongruent(a, b, Serve(a, w, m, env.usage(m)), until, env.preserve, env.resets(until));
    }
  }

  lemma VoidedSameActivity(gs: seq<Grant>, id: GrantId, at: Time, x: Time)
    requires forall i :: 0 <= i < |gs| && gs[i].id == id ==> gs[i].voidedAt.None?
    requires x < at
    ensures SameActivity(gs, VoidIn(gs, id, at), x)
  {
  }

  /** The grant being voided does not change the state before the void time. */
  lemma VoidedWalk(gs: seq<Grant>, id: GrantId, at: Time, env: Env, start: Time, t: Time)
    requires forall i :: 0 <= i < |gs| && gs[i].id == id ==> gs[i].voidedAt.None?
    requires start <= t < at
    ensures var vs := VoidIn(gs, id, at);
      Walk(vs, env, Initial(vs, start), start, t) == Walk(gs, env, Initial(gs, start), start, t)
  {
    var vs := VoidIn(gs, id, at);
    forall x | start <= x <= t ensures SameActivity(gs, vs, x) { VoidedSameActivity(gs, id, at, x); }
    assert SameActivity(gs, vs, start);
    assert Initial(vs, start).bals == Initial(gs, start).bals;
    WalkCongruent(gs, vs, env, Initial(gs, start), start, t);
  }

  /** States that differ only in the balance of a grant the second list no longer has active. */
  predicate DiffersAt(gs: seq<Grant>, vs: seq<Grant>, a: State, b: State, t: Time) {
    && |gs| == |vs| == |a.bals| == |b.bals| && SameCounters(a, b)
    && forall i :: 0 <= i < |gs| ==> !Active(vs[i], t) || (a.bals[i] == b.bals[i] && vs[i] == gs[i])
  }

  lemma DifferenceStands(gs: seq<Grant>, vs: seq<Grant>, a: State, b: State, row: Snapshot)
    requires DiffersAt(gs, vs, a, b, row.at) && Stands(gs, a, row)
    ensures Stands(vs, b, row)
  {
    forall i | 0 <= i < |gs|
      ensures Entered(vs[i], Fill(vs[i], row.balances, row.at), row.at) == Entered(vs[i], b.bals[i], row.at)
    {
      assert EnterAll(gs, FillAll(gs, row.balances, row.at), row.at)[i] == EnterAll(gs, a.bals, row.at)[i];
    }
  }

  lemma VoidedReset(gs: seq<Grant>, id: GrantId, t: Time, s: State, preserve: bool)
    requires Fits(gs, s) && (preserve ==> s.overage == 0.0)
    ensures DiffersAt(gs, VoidIn(gs, id, t), Reset(gs, s, t, preserve), Reset(VoidIn(gs, id, t), s, t, preserve), t)
  {
  }

  lemma VoidKeepsCover(gs: seq<Grant>, id: GrantId, at: Time, row: Snapshot)
    requires Covered(gs, row) && row.at <= at
    ensures Covered(VoidIn(gs, id, at), row)
  {
    var vs := VoidIn(gs, id, at);
    forall k | k in row.balances ensures exists i :: 0 <= i < |vs| && vs[i].id == k && Reaches(vs[i], row.at) {
      var i :| 0 <= i < |gs| && gs[i].id == k && Reaches(gs[i], row.at);
      assert vs[i].id == k && Reaches(vs[i], row.at);
    }
  }

  /** A row before the void time still stands. */
  lemma VoidStandsBefore(gs: seq<Grant>, id: GrantId, at: Time, env: Env, start: Time, row: Snapshot)
    requires forall i :: 0 <= i < |gs| && gs[i].id == id ==> gs[i].voidedAt.None?
    requires start < row.at < at && Stands(gs, Walk(gs, env, Initial(gs, start), start, row.at), row)
    ensures var vs := VoidIn(gs, id, at); Stands(vs, Walk(vs, env, Initial(vs, start), start, row.at), row)
  {
    var vs, t := VoidIn(gs, id, at), row.at;
    var c := Walk(gs, env, Initial(gs, start), start, t);
    VoidedWalk(gs, id, at, env, start, t);
    VoidedSameActivity(gs, id, at, t);
    SameActivitySteps(gs, vs, c.bals, t);
    SameActivitySteps(gs, vs, FillAll(gs, row.balances, t), t);
    assert FillAll(vs, row.balances, t) == FillAll(gs, row.balances, t);
  }

  /** The void leaves what comes before any reset at the void time as it was. */
  lemma VoidedDue(gs: seq<Grant>, id: GrantId, t: Time, env: Env, start: Time)
    requires forall i :: 0 <= i < |gs| && gs[i].id == id ==> gs[i].voidedAt.None?
    requires start < t
    ensures var vs := VoidIn(gs, id, t);
      BeforeResets(vs, env, Initial(vs, start), start, t) == BeforeResets(gs, env, Initial(gs, start), start, t)
  {
    VoidedWalk(gs, id, t, env, start, t - 1);
    VoidedSameActivity(gs, id, t, t - 1);
    ServeCongruent(gs, VoidIn(gs, id, t), Walk(gs, env, Initial(gs, start), start, t - 1), t - 1, env.usage(t - 1));
  }

  lemma VoidedStart(gs: seq<Grant>, id: GrantId, t: Time)
    ensures DiffersAt(gs, VoidIn(gs, id, t), Initial(gs, t), Initial(VoidIn(gs, id, t), t), t)
  {
  }

  /** A grant gone at a preserving reset with overage to burn: its contribution shows or goes unnoticed. */
  lemma VoidAtResetIff(gs: seq<Grant>, k: nat, s: State, row: Snapshot)
    requires Fits(gs, s) && k < |gs| && Distinct(gs) && AllSane(gs) && Good(s) && Exhausted(s) && s.overage > 0.0
    requires Stands(gs, Reset(gs, s, row.at, true), row)
    ensures var vs, f := VoidIn(gs, gs[k].id, row.at), Floors(gs, row.at);
      Stands(vs, Reset(vs, s, row.at, true), row) <==> Unnoticed(f[k := 0.0], k, f[k], s.overage, Keeping(gs, row.at))
  {
    var t, o, vs, f := row.at, s.overage, VoidIn(gs, gs[k].id, row.at), Floors(gs, row.at);
    var f0, a := f[k := 0.0], Reset(gs, s, t, true);
    EmptySteps(gs, s.bals, t);
    EmptySteps(vs, s.bals, t);
    VoidedFloors(gs, k, t);
    FloorsNonNegative(gs, t);
    assert f0[k := f[k]] == f;
    DifferenceStands(gs, vs, a, a, row);
    RolledSameIff(vs, f0, k, f[k], o, t);
    UnnoticedBehind(f0, k, f[k], o, Keeping(gs, t), Keeping(vs, t));
  }

  lemma VoidedFloors(gs: seq<Grant>, k: nat, t: Time)
    requires k < |gs| && Distinct(gs)
    ensures var vs := VoidIn(gs, gs[k].id, t);
      && Floors(vs, t) == Floors(gs, t)[k := 0.0]
      && (forall i :: 0 <= i < |gs| && i != k ==> vs[i] == gs[i]) && !Active(vs[k], t)
      && forall i :: 0 <= i < |gs| && i != k ==> Keeping(vs, t)[i] == Keeping(gs, t)[i]
  {
  }

  lemma UnnoticedBehind(rolled: seq<real>, k: nat, r: real, o: real, a: seq<bool>, b: seq<bool>)
    requires |a| == |b| == |rolled| && forall i :: k < i < |a| ==> a[i] == b[i]
    ensures Unnoticed(rolled, k, r, o, a) == Unnoticed(rolled, k, r, o, b)
  {
  }

  lemma VoidStandsIff(w: World, v: World, k: nat, row: Snapshot)
    requires Inv(w) && k < |Prioritize(w.grants)| && Prioritize(w.grants)[k].voidedAt.None?
    requires v == w.(grants := VoidIn(w.grants, Prioritize(w.grants)[k].id, row.at), rows := v.rows) && RowOk(w, row)
    ensures Stands(Prioritize(v.grants), Canon(v, row.unitConfig, row.at), row) <==>
      UnnoticedAt(w, row.unitConfig, Prioritize(w.grants), Prioritize(w.grants)[k].id, row.at)
  {
    var gs, t, config := Prioritize(w.grants), row.at, row.unitConfig;
    var id := gs[k].id;
    var vs := VoidIn(gs, id, t);
    PrioritizeVoided(w.grants, id, t);
    SortedGrants(w);
    UnnoticedUnless(w, row, gs, k);
    if t == Start(w) {
      VoidedStart(gs, id, t);
      DifferenceStands(gs, vs, Initial(gs, t), Initial(vs, t), row);
    } else {
      var s := Due(w, config, t);
      DueGood(w, config, t);
      VoidedDue(gs, id, t, OwnerEnv(w, config), Start(w));
      if Burning(w, row) { VoidAtResetIff(gs, k, s, row); } else {
        if IsReset(w.recs, t) { VoidedReset(gs, id, t, s, w.preserve); }
        DifferenceStands(gs, vs, Canon(w, config, t), Canon(v, config, t), row);
      }
    }
  }

  /** The one grant with the id, in burn-down order. */
  lemma VoidedPlace(w: World, id: GrantId) returns (k: nat)
    requires Distinct(w.grants) && AllSane(w.grants) && Voidable(w.grants, id)
    ensures var gs := Prioritize(w.grants);
      k < |gs| && gs[k].id == id && gs[k].voidedAt.None? && forall i :: 0 <= i < |gs| && gs[i].id == id ==> i == k
  {
    var gs := Prioritize(w.grants);
    var j :| 0 <= j < |w.grants| && w.grants[j].id == id && w.grants[j].voidedAt.None?;
    PrioritizePermutes(w.grants);
    SortedGrants(w);
    assert w.grants[j] in gs;
    k :| 0 <= k < |gs| && gs[k] == w.grants[j];
  }

  /** A kept row still stands after a grant was voided exactly if the grant goes unnoticed. */
  lemma VoidRowOkIff(w: World, v: World, id: GrantId, at: Time, row: Snapshot)
    requires Inv(w) && v == w.(grants := VoidIn(w.grants, id, at), rows := v.rows)
    requires Voidable(w.grants, id) && RowOk(w, row) && row.at <= at
    ensures RowOk(v, row) <==> row.at < at || UnnoticedAt(w, row.unitConfig, Prioritize(w.grants), id, at)
  {
    var gs := Prioritize(w.grants);
    var k := VoidedPlace(w, id);
    PrioritizeVoided(w.grants, id, at);
    VoidKeepsCover(gs, id, at, row);
    if row.at < at {
      if row.at == Start(w) { VoidStandsAtStart(gs, id, at, row); } else { VoidStandsBefore(gs, id, at, OwnerEnv(w, row.unitConfig), Start(w), row); }
    } else {
      VoidStandsIff(w, v, k, row);
    }
  }

  lemma VoidStandsAtStart(gs: seq<Grant>, id: GrantId, at: Time, row: Snapshot)
    requires forall i :: 0 <= i < |gs| && gs[i].id == id ==> gs[i].voidedAt.None?
    requires row.at < at && Stands(gs, Initial(gs, row.at), row)
    ensures Stands(VoidIn(gs, id, at), Initial(VoidIn(gs, id, at), row.at), row)
  {
    var vs := VoidIn(gs, id, at);
    assert Initial(vs, row.at).bals == Initial(gs, row.at).bals;
    SameActivitySteps(gs, vs, Initial(gs, row.at).bals, row.at);
    SameActivitySteps(gs, vs, FillAll(gs, row.balances, row.at), row.at);
    assert FillAll(vs, row.balances, row.at) == FillAll(gs, row.balances, row.at);
  }

  /** Voiding a grant keeps the store good exactly if the row kept at the void time, when there is
      one, does not depend on the grant. */
  lemma VoidKeepsIff(w: World, id: GrantId, at: Option<Time>)
    requires Inv(w) && VoidGrant(w, id, at).Ok?
    ensures Inv(VoidGrant(w, id, at).value) <==>
      HarmlessAt(w, Prioritize(w.grants), id, if at.Some? then at.value else w.now)
  {
    var t, v, gs := if at.Some? then at.value else w.now, VoidGrant(w, id, at).value, Prioritize(w.grants);
    if HarmlessAt(w, gs, id, t) {
      forall i | Visible(v.rows, i) ensures RowOk(v, v.rows[i]) {
        var j := InvalidateVisible(w.rows, t, i);
        VoidRowOkIff(w, v, id, t, w.rows[j]);
      }
    }
    if Inv(v) {
      forall j | Visible(w.rows, j) && w.rows[j].at == t ensures UnnoticedAt(w, w.rows[j].unitConfig, gs, id, t) {
        var i := StaysVisible(w.rows, t, j);
        VoidRowOkIff(w, v, id, t, w.rows[j]);
      }
    }
  }

  // ------------------------------------------------------------- whole runs

  /** What the environment grants: time goes forward, usage arrives for open time only, and grants
      are sane and new. */
  ghost predicate Admissible(w: World, op: Op)
    requires w.recs != []
  {
    match op
    case DoCreate(g) => Create(w, g).Ok? ==> Sane(g) && g.id !in Ids(w.grants)
    case Tick(now) => w.now <= now
    case Ingest(raw) =>
      Metered(raw) && forall t: Time :: t < w.now - w.grace || t < PeriodStart(w.recs, w.now) ==> raw(t) == w.raw(t)
    case _ => true
  }

  /** The condition, checkable before the operation, under which it keeps the invariant. */
  ghost predicate Harmless(w: World, op: Op)
    requires w.recs != []
  {
    match op
    case DoQuery(at, lockFree) => !lockFree || QueryRow(w, at).None? || PeriodStart(w.recs, at) <= w.now
    case DoCreate(g) => Create(w, g).Ok? ==> HarmlessAt(w, Prioritize([g] + w.grants), g.id, g.effectiveAt)
    case DoVoid(id, at) => VoidGrant(w, id, at).Ok? ==> HarmlessAt(w, Prioritize(w.grants), id, if at.Some? then at.value else w.now)
    case DoReset(at, preserve, retain) => ResetUsage(w, at, preserve, retain).Ok? ==> ResetHarmless(w, at, preserve)
    case _ => true
  }

  ghost predicate Sound(w: World, op: Op)
    requires w.recs != []
  {
    Admissible(w, op) && Harmless(w, op)
  }

  ghost predicate AllSound(w: World, ops: seq<Op>)
    requires w.recs != []
    decreases |ops|
  {
    ops != [] ==> Sound(w, ops[0]) && AllSound(Apply(w, ops[0]), ops[1..])
  }

  /** An admissible operation leaves every usable snapshot standing for recomputation exactly if it
      is harmless. */
  lemma StepKeepsIff(w: World, op: Op)
    requires Inv(w) && Admissible(w, op)
    ensures Inv(Apply(w, op)) <==> Harmless(w, op)
  {
    match op
    case DoQuery(at, lockFree) => QueryKeepsIff(w, at, lockFree);
    case DoCreate(g) => if Create(w, g).Ok? { CreateKeepsIff(w, g); }
    case DoVoid(id, at) => if VoidGrant(w, id, at).Ok? { VoidKeepsIff(w, id, at); }
    case DoReset(at, preserve, retain) =>
      if ResetUsage(w, at, preserve, retain).Ok? { ResetKeepsIff(w, at, preserve, retain); }
    case SetUnitConfig(config) => UnitConfigKeeps(w, config);
    case Tick(now) => TickKeeps(w, now);
    case Ingest(raw) => IngestKeeps(w, raw);
  }

  /** After any run of sound operations every usable snapshot stands for recomputation. */
  lemma {:induction false} RunKeeps(w: World, ops: seq<Op>)
    requires Inv(w) && AllSound(w, ops)
    ensures Inv(RunOps(w, ops))
    decreases |ops|
  {
    if ops != [] {
      StepKeepsIff(w, ops[0]);
      RunKeeps(Apply(w, ops[0]), ops[1..]);
    }
  }

  /** Cache transparency over whole runs: whatever was created, voided, reset, queried, stored,
      reconfigured or metered, a query agrees with forgetting every snapshot. */
  lemma TransparentAfterAnyRun(w: World, ops: seq<Op>, at: Time)
    requires Inv(w) && AllSound(w, ops)
    ensures var v := RunOps(w, ops);
      Query(v, at) == Query(v.(rows := []), at) <==> (at < Start(v) || !ShowsNewGrant(v, at))
  {
    RunKeeps(w, ops);
    TransparentIff(RunOps(w, ops), at);
  }

  // ------------------------------------------------ reset snapshots survive

  predicate Periods(w: World) {
    ValidRecs(w.recs) && forall i :: 0 < i < |w.recs| ==> w.recs[i].start <= w.now
  }

  predicate ClockForward(w: World, ops: seq<Op>)
    requires w.recs != []
    decreases |ops|
  {
    ops != [] ==> (ops[0].Tick? ==> w.now <= ops[0].now) && ClockForward(Apply(w, ops[0]), ops[1..])
  }

  lemma StepKeepsRow(w: World, op: Op, row: Snapshot)
    requires Periods(w) && row in w.rows && row.at <= PeriodStart(w.recs, w.now)
    requires op.Tick? ==> w.now <= op.now
    ensures var v := Apply(w, op); Periods(v) && row in v.rows && row.at <= PeriodStart(v.recs, v.now)
  {
    match op
    case DoQuery(at, lockFree) =>
    case DoCreate(g) => InvalidateMembers(w.rows, g.effectiveAt);
    case DoVoid(id, at) => InvalidateMembers(w.rows, if at.Some? then at.value else w.now);
    case DoReset(at, preserve, retain) =>
      if ResetUsage(w, at, preserve, retain).Ok? {
        InvalidateMembers(w.rows, at);
        EndCurrentPeriod(w.recs, at, retain, w.now);
      }
    case SetUnitConfig(config) =>
    case Tick(now) => PeriodStartGrows(w.recs, w.now, now);
    case Ingest(raw) =>
  }

  lemma {:induction false} RunKeepsRow(w: World, ops: seq<Op>, row: Snapshot)
    requires Periods(w) && ClockForward(w, ops) && row in w.rows && row.at <= PeriodStart(w.recs, w.now)
    ensures row in RunOps(w, ops).rows
    decreases |ops|
  {
    if ops != [] {
      StepKeepsRow(w, ops[0], row);
      RunKeepsRow(Apply(w, ops[0]), ops[1..], row);
    }
  }

  /** The snapshot a successful reset stores is never deleted by any later run of operations. */
  lemma ResetSnapshotSurvives(w: World, at: Time, preserve: bool, retain: bool, ops: seq<Op>)
    requires Periods(w) && ResetUsage(w, at, preserve, retain).Ok?
    requires ClockForward(ResetUsage(w, at, preserve, retain).value, ops)
    ensures ResetRow(w, at, preserve) in RunOps(ResetUsage(w, at, preserve, retain).value, ops).rows
  {
    var v := ResetUsage(w, at, preserve, retain).value;
    EndCurrentPeriod(w.recs, at, retain, w.now);
    assert v.rows[|v.rows| - 1] == ResetRow(w, at, preserve);
    RunKeepsRow(v, ops, ResetRow(w, at, preserve));
  }

  /** The check against later resets never rejects a reset within the current usage period. */
  lemma NoResetSincePeriodStart(w: World, at: Time)
    requires Periods(w) && Start(w) <= w.now && PeriodStart(w.recs, w.now) <= at <= w.now
    ensures ResetsBetween(w.recs, at, w.now) == []
  {
    PeriodStartIsLatestReset(w.recs, w.now);
    NoResetsBetween(w.recs, at, w.now);
  }

  // ------------------------------------------------------------ two paths

  /** The synthetic snapshot at the start of a queried period stands for the state at that time
      exactly when answering did not burn overage from a
      grant that the period's run refills again. */
  lemma PeriodSnapshotStandsIff(w: World, from: Time)
    requires Inv(w) && Start(w) <= from
    ensures Query(w, from).Ok? && PeriodSnapshot(w, from).at == from
    ensures Stands(Prioritize(w.grants), Canon(w, w.unitConfig, from), PeriodSnapshot(w, from)) <==>
      (!Settles(w, from) || Canon(w, w.unitConfig, from).overage == 0.0 || NoRefill(Prioritize(w.grants), from))
    ensures Covered(Prioritize(w.grants), PeriodSnapshot(w, from))
  {
    QueryMeaning(w, from);
    var gs, c := Prioritize(w.grants), Canon(w, w.unitConfig, from);
    var full := if Settles(w, from) then Settle(gs, c, from) else c;
    SortedGrants(w);
    CanonGood(w, w.unitConfig, from);
    ActiveMapStands(gs, full, from, Query(w, from).value.balances, w.unitConfig);
    SettledIsCheckpointIff(gs, c, from);
  }

  /** Whether recomputing the balance at `at` applies grant activity at `at`. */
  predicate ScratchSettles(w: World, at: Time)
    requires w.recs != []
  {
    at == Start(w) || IsReset(w.recs, at) || RecursAt(Prioritize(w.grants), at)
  }

  /** Without stored snapshots a query is computed from the start of measurement. */
  lemma ScratchAnswer(w: World, at: Time)
    requires Inv(w) && Start(w) <= at
    ensures Query(w.(rows := []), at) == Ok(Answer(w, at, ScratchSettles(w, at)))
  {
    var v := w.(rows := []);
    assert Inv(v);
    QueryMeaning(v, at);
    assert Resume(v, at).at == Start(w);
    assert forall b :: Answer(v, at, b) == Answer(w, at, b);
  }

  lemma PeriodRuns(w: World, from: Time, until: Time)
    requires Inv(w) && Start(w) <= from < until && Query(w, from).Ok?
    requires PeriodSnapshot(w, from).at == from && Covered(Prioritize(w.grants), PeriodSnapshot(w, from))
    requires Stands(Prioritize(w.grants), Canon(w, w.unitConfig, from), PeriodSnapshot(w, from))
    ensures QueryPeriod(w, from, until) == Ok(Answer(w, until, IsReset(w.recs, until) || RecursAt(Prioritize(w.grants), until)))
  {
    var snap := PeriodSnapshot(w, from);
    CanonGood(w, w.unitConfig, from);
    CoveredIsRunnable(w, snap, until);
    QueryFromMeaning(w, snap, until);
  }

  /** Two-path agreement: the balance at the end of a period query is the balance computed
      from the start of measurement. */
  lemma PeriodAgrees(w: World, from: Time, until: Time)
    requires Inv(w) && Start(w) <= from < until
    requires !Settles(w, from) || Canon(w, w.unitConfig, from).overage == 0.0 || NoRefill(Prioritize(w.grants), from)
    ensures QueryPeriod(w, from, until) == Query(w.(rows := []), until)
  {
    PeriodSnapshotStandsIff(w, from);
    PeriodRuns(w, from, until);
    ScratchAnswer(w, until);
  }

  // ------------------------------------------------- two paths, quiet periods

  lemma SameMapSameBalances(gs: seq<Grant>, e: seq<real>, from: Time, until: Time, u: real, v: real)
    requires Distinct(gs) && e == Refilled(gs, from) && from < until && Quiet(gs, from, until + 1)
    requires ActiveMap(gs, Burn(e, u).bals, until) == ActiveMap(gs, Burn(e, v).bals, until)
    ensures Burn(e, u).bals == Burn(e, v).bals
  {
    var x, y := Burn(e, u).bals, Burn(e, v).bals;
    ActiveMapKeys(gs, x, until);
    ActiveMapKeys(gs, y, until);
    forall i | 0 <= i < |gs| ensures x[i] == y[i] {
      if !Active(gs[i], until) { InactiveStays(gs, x, y, e, from, until, u, v, i); }
    }
  }

  /** Different usage burnt from the same balances leaves different balances or overage. */
  lemma BurnsDiffer(e: seq<real>, u: real, v: real)
    requires NonNegative(e) && 0.0 <= u < v
    ensures Burn(e, u) != Burn(e, v)
  {
    BurnTotals(e, u);
    BurnTotals(e, v);
  }

  lemma Forgiven(gs: seq<Grant>, c: State, from: Time)
    requires Fits(gs, c) && Good(c) && Exhausted(c) && AllSane(gs) && c.overage > 0.0 && !NoRefill(gs, from)
    ensures var f, e := Settle(gs, c, from), Refilled(gs, from);
      0.0 <= f.overage < c.overage && NonNegative(e) && EnterAll(gs, f.bals, from) == e == EnterAll(gs, c.bals, from)
  {
    FloorsNonNegative(gs, from);
    RefilledEmptyIff(gs, from);
    CarriedSettles(gs, c, from);
    SettledRefills(gs, c, from);
  }

  lemma ReportsDiffer(gs: seq<Grant>, e: seq<real>, from: Time, until: Time, u: real, v: real, x: State, y: State)
    requires Distinct(gs) && e == Refilled(gs, from) && NonNegative(e) && 0.0 <= u < v
    requires from < until && Quiet(gs, from, until + 1) && Fits(gs, x) && Fits(gs, y)
    requires Burnt(x.bals, x.overage) == Burn(e, u) && Burnt(y.bals, y.overage) == Burn(e, v)
    ensures Report(gs, x, until) != Report(gs, y, until)
  {
    BurnsDiffer(e, u, v);
    if ActiveMap(gs, x.bals, until) == ActiveMap(gs, y.bals, until) { SameMapSameBalances(gs, e, from, until, u, v); }
  }

  /** Settling overage into refilled grants shows at the end of a period without events. */
  lemma ForgivenShows(gs: seq<Grant>, c: State, from: Time, until: Time, u: real)
    requires Fits(gs, c) && Good(c) && Exhausted(c) && Distinct(gs) && AllSane(gs) && u >= 0.0
    requires from < until && Quiet(gs, from, until + 1) && c.overage > 0.0 && !NoRefill(gs, from)
    ensures Report(gs, Serve(gs, Settle(gs, c, from), from, u), until) != Report(gs, Serve(gs, c, from, u), until)
  {
    var e, f := Refilled(gs, from), Settle(gs, c, from);
    Forgiven(gs, c, from);
    ServeFrom(gs, f, from, u, e, Burn(e, u + f.overage));
    ServeFrom(gs, c, from, u, e, Burn(e, u + c.overage));
    ReportsDiffer(gs, e, from, until, u + f.overage, u + c.overage, Serve(gs, f, from, u), Serve(gs, c, from, u));
  }

  lemma InactiveStays(gs: seq<Grant>, x: seq<real>, y: seq<real>, e: seq<real>, from: Time, until: Time, u: real, v: real, i: nat)
    requires |e| == |gs| && e == Refilled(gs, from) && x == Burn(e, u).bals && y == Burn(e, v).bals && i < |gs|
    requires from < until && Quiet(gs, from, until + 1) && !Active(gs[i], until)
    ensures x[i] == y[i] == 0.0
  {
    forall t | from < t <= until ensures !ChangesAt(gs[i], t) { assert !Event(gs[i], t); }
    ActivityIsStable(gs[i], from, until);
    ZeroStaysZero(e, u, i);
    ZeroStaysZero(e, v, i);
  }

  /** Entering the settled state again refills the same grants. */
  lemma SettledRefills(gs: seq<Grant>, c: State, t: Time)
    requires Fits(gs, c) && Good(c) && Exhausted(c) && AllSane(gs) && c.overage > 0.0
    ensures EnterAll(gs, Settle(gs, c, t).bals, t) == Refilled(gs, t) == EnterAll(gs, c.bals, t)
  {
    var e := Refilled(gs, t);
    EmptySteps(gs, c.bals, t);
    forall i | 0 <= i < |gs| && !Refills(gs[i], t) ensures Burn(e, 0.0 + c.overage).bals[i] == 0.0 { ZeroStaysZero(e, 0.0 + c.overage, i); }
  }

  /** The period from `from` to `until` has neither a reset nor a grant event after its start. */
  ghost predicate QuietPeriod(w: World, from: Time, until: Time)
    requires w.recs != []
  {
    Quiet(Prioritize(w.grants), from, until + 1) && forall t: Time :: from < t <= until ==> !IsReset(w.recs, t)
  }

  lemma QuietWalk(w: World, s: State, from: Time, until: Time)
    requires Inv(w) && from < until && QuietPeriod(w, from, until) && Fits(Prioritize(w.grants), s) && Good(s)
    ensures var gs, env := Prioritize(w.grants), OwnerEnv(w, w.unitConfig);
      Finish(gs, env, s, from, until) == Serve(gs, s, from, UsageIn(env.usage, from, until))
  {
    var gs, env := Prioritize(w.grants), OwnerEnv(w, w.unitConfig);
    SortedGrants(w);
    OwnerMetered(w, w.unitConfig);
    assert Quiet(gs, from, until);
    PhaseIsWalk(gs, env, s, from, until);
    if RecursAt(gs, until) {
      var i :| 0 <= i < |gs| && Active(gs[i], until) && Recurs(gs[i], until);
      assert Event(gs[i], until);
    }
  }

  /** What a period query answers: the settled state of its start, carried on. */
  lemma PeriodMeaning(w: World, from: Time, until: Time)
    requires Inv(w) && Start(w) <= from <= until
    ensures var gs, env, c := Prioritize(w.grants), OwnerEnv(w, w.unitConfig), Canon(w, w.unitConfig, from);
      QueryPeriod(w, from, until) ==
        Ok(Report(gs, Finish(gs, env, if Settles(w, from) then Settle(gs, c, from) else c, from, until), until))
  {
    QueryMeaning(w, from);
    var gs, c := Prioritize(w.grants), Canon(w, w.unitConfig, from);
    var full := if Settles(w, from) then Settle(gs, c, from) else c;
    SortedGrants(w);
    CanonGood(w, w.unitConfig, from);
    ServeGood(gs, c, from, 0.0);
    var snap := PeriodSnapshot(w, from);
    ActiveMapStands(gs, full, from, Query(w, from).value.balances, w.unitConfig);
    CoveredIsRunnable(w, snap, until);
    ResumeFinishes(w, OwnerEnv(w, w.unitConfig), full, snap, until);
  }

  lemma ScratchFinish(w: World, from: Time, until: Time)
    requires Inv(w) && Start(w) <= from < until
    ensures var gs, env := Prioritize(w.grants), OwnerEnv(w, w.unitConfig);
      Query(w.(rows := []), until) == Ok(Report(gs, Finish(gs, env, Canon(w, w.unitConfig, from), from, until), until))
  {
    ScratchAnswer(w, until);
    FinishIsCanon(w, from, until);
  }

  /** Within a quiet period the condition for the two paths to agree is exact. */
  lemma PeriodAgreesIff(w: World, from: Time, until: Time)
    requires Inv(w) && Start(w) <= from < until && QuietPeriod(w, from, until)
    ensures QueryPeriod(w, from, until) == Query(w.(rows := []), until) <==>
            (!Settles(w, from) || Canon(w, w.unitConfig, from).overage == 0.0 || NoRefill(Prioritize(w.grants), from))
  {
    var gs, env, c := Prioritize(w.grants), OwnerEnv(w, w.unitConfig), Canon(w, w.unitConfig, from);
    SortedGrants(w);
    CanonGood(w, w.unitConfig, from);
    if !Settles(w, from) || c.overage == 0.0 || NoRefill(gs, from) { PeriodAgrees(w, from, until); } else {
      OwnerMetered(w, w.unitConfig);
      UsageNonNegative(env.usage, from, until);
      ServeGood(gs, c, from, 0.0);
      PeriodMeaning(w, from, until);
      ScratchFinish(w, from, until);
      QuietWalk(w, c, from, until);
      QuietWalk(w, Settle(gs, c, from), from, until);
      ForgivenShows(gs, c, from, until, UsageIn(env.usage, from, until));
    }
  }

  // --------------------------------------------------- two paths, no period

  /** A state that stands for another one settles like it. */
  lemma SettlesAlike(gs: seq<Grant>, a: State, b: State, t: Time)
    requires Fits(gs, a) && Fits(gs, b) && SameFrom(gs, a, b, t)
    ensures Settle(gs, a, t) == Settle(gs, b, t)
  {
    ServeFrom(gs, a, t, 0.0, EnterAll(gs, b.bals, t), Burn(EnterAll(gs, b.bals, t), 0.0 + b.overage));
    ServeFrom(gs, b, t, 0.0, EnterAll(gs, b.bals, t), Burn(EnterAll(gs, b.bals, t), 0.0 + b.overage));
  }

  /** Applying the activity of a moment twice shows exactly if overage is burnt from a grant that is
      refilled again. */
  lemma SettlingTwiceShowsIff(gs: seq<Grant>, c: State, t: Time)
    requires Fits(gs, c) && Good(c) && Exhausted(c) && Distinct(gs) && AllSane(gs)
    ensures Report(gs, Settle(gs, Settle(gs, c, t), t), t) == Report(gs, Settle(gs, c, t), t) <==>
            c.overage == 0.0 || NoRefill(gs, t)
  {
    SettledIsCheckpointIff(gs, c, t);
    if c.overage == 0.0 || NoRefill(gs, t) { SettlesAlike(gs, Settle(gs, c, t), c, t); } else {
      var e, f := Refilled(gs, t), Settle(gs, c, t);
      Forgiven(gs, c, t);
      ServeFrom(gs, f, t, 0.0, e, Burn(e, 0.0 + f.overage));
      ServeFrom(gs, c, t, 0.0, e, Burn(e, 0.0 + c.overage));
      MomentsDiffer(gs, e, t, 0.0 + f.overage, 0.0 + c.overage, Settle(gs, f, t), f);
    }
  }

  lemma MomentsDiffer(gs: seq<Grant>, e: seq<real>, t: Time, u: real, v: real, x: State, y: State)
    requires Distinct(gs) && e == Refilled(gs, t) && NonNegative(e) && 0.0 <= u < v && Fits(gs, x) && Fits(gs, y)
    requires Burnt(x.bals, x.overage) == Burn(e, u) && Burnt(y.bals, y.overage) == Burn(e, v)
    ensures Report(gs, x, t) != Report(gs, y, t)
  {
    BurnsDiffer(e, u, v);
    if ActiveMap(gs, x.bals, t) == ActiveMap(gs, y.bals, t) {
      ActiveMapKeys(gs, x.bals, t);
      ActiveMapKeys(gs, y.bals, t);
      forall i | 0 <= i < |gs| ensures x.bals[i] == y.bals[i] {
        if !Active(gs[i], t) {
          ZeroStaysZero(e, u, i);
          ZeroStaysZero(e, v, i);
        }
      }
    }
  }

  /** A grant that takes effect shows as soon as the moment is settled, once or twice. */
  lemma TakingEffectShows(gs: seq<Grant>, p: State, t: Time, u: real)
    requires Fits(gs, p) && Good(p) && Distinct(gs) && AllSane(gs) && u >= 0.0 && !RecursAt(gs, t)
    ensures var c := Serve(gs, p, t - 1, u);
      Report(gs, Settle(gs, Settle(gs, c, t), t), t) == Report(gs, c, t) <==> NoRefill(gs, t)
  {
    var c := Serve(gs, p, t - 1, u);
    SettlingShowsIff(gs, p, t, u);
    ServeGood(gs, p, t - 1, u);
    ServeExhausts(gs, p, t - 1, u);
    SettlingTwiceShowsIff(gs, c, t);
    var d := Settle(gs, c, t);
    if !NoRefill(gs, t) {
      CarriedSettles(gs, c, t);
      CarriedSettles(gs, d, t);
      FloorsNonNegative(gs, t);
      RefilledEmptyIff(gs, t);
      if c.overage == 0.0 {
        SettleWithoutOverage(gs, c, t);
        SettleWithoutOverage(gs, d, t);
        EnterTwice(gs, c.bals, t);
      }
    }
  }

  lemma EmptyPeriodAnswer(w: World, at: Time)
    requires Inv(w) && Start(w) <= at
    ensures var gs, c := Prioritize(w.grants), Canon(w, w.unitConfig, at);
      QueryPeriod(w, at, at) == Ok(Report(gs, Settle(gs, if Settles(w, at) then Settle(gs, c, at) else c, at), at))
    ensures ScratchSettles(w, at) ==> Settles(w, at)
  {
    PeriodMeaning(w, at, at);
    ResumeStands(w, at);
  }

  /** Without a reset or a recurrence then. */
  lemma EmptyPeriodUnsettledIff(w: World, at: Time, twice: bool)
    requires Inv(w) && Start(w) <= at && !ScratchSettles(w, at)
    ensures var gs, c := Prioritize(w.grants), Canon(w, w.unitConfig, at);
      Report(gs, Settle(gs, if twice then Settle(gs, c, at) else c, at), at) == Report(gs, c, at) <==> NoRefill(gs, at)
  {
    var gs, p, env := Prioritize(w.grants), Canon(w, w.unitConfig, at - 1), OwnerEnv(w, w.unitConfig);
    SortedGrants(w);
    CanonGood(w, w.unitConfig, at - 1);
    OwnerMetered(w, w.unitConfig);
    assert Canon(w, w.unitConfig, at) == Serve(gs, p, at - 1, env.usage(at - 1));
    SettlingShowsIff(gs, p, at, env.usage(at - 1));
    TakingEffectShows(gs, p, at, env.usage(at - 1));
  }

  /** A period query for a single moment: grant activity then is applied once more. It agrees with
      recomputing the balance of the moment exactly if nothing is refilled, or the moment is settled
      anyway and leaves no overage to burn. */
  lemma EmptyPeriodAgreesIff(w: World, at: Time)
    requires Inv(w) && Start(w) <= at
    ensures QueryPeriod(w, at, at) == Query(w.(rows := []), at) <==>
            NoRefill(Prioritize(w.grants), at) || (ScratchSettles(w, at) && Canon(w, w.unitConfig, at).overage == 0.0)
  {
    EmptyPeriodAnswer(w, at);
    ScratchAnswer(w, at);
    if ScratchSettles(w, at) {
      SortedGrants(w);
      CanonGood(w, w.unitConfig, at);
      SettlingTwiceShowsIff(Prioritize(w.grants), Canon(w, w.unitConfig, at), at);
    } else {
      EmptyPeriodUnsettledIff(w, at, Settles(w, at));
    }
  }
}
