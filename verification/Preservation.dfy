/** Which operations keep every stored snapshot coherent, over any run. */
module Preservation {
  import opened Grants
  import opened Reference
  import opened Balances
  import opened Projection
  import opened Checkpoints
  import opened UsagePeriods
  import opened World
  import opened Resumption
  import opened Transparency
  import opened ResetRows
  import opened LateGrants

  // --------------------------------------------------------------- queries

  /** The row a query stores stands for the state at its time, if its usage period has begun. */
  lemma QueryRowOk(w: World, at: Time)
    requires Inv(w) && PeriodStart(w.recs, at) <= w.now && QueryRow(w, at).Some?
    ensures RowOk(w, QueryRow(w, at).value)
  {
    var snap := Resume(w, at);
    var gs, l := Prioritize(w.grants), RunGrants(w, snap, at);
    var env := OwnerEnv(w, w.unitConfig);
    LastBreakMeaning(l, env.resets, snap.at, at, NotAfter(w, PeriodStart(w.recs, at)));
    var t := LastBreak(l, env.resets, snap.at, at, NotAfter(w, PeriodStart(w.recs, at))).value;
    if at < Start(w) { QueryTooEarly(w, at); assert false; }
    ResumeStands(w, at);
    PeriodStartBounded(w, at);
    var c := Canon(w, w.unitConfig, snap.at);
    SortedGrants(w);
    RunGrantsPicked(w, snap, at);
    ListedProjects(gs, snap.at, at);
    ResumeWalks(w, env, c, snap, at, t);
    WalkSplits(gs, env, Initial(gs, Start(w)), Start(w), snap.at, t);
    var full, part := Canon(w, w.unitConfig, t), Walk(l, env, Filled(l, snap), snap.at, t);
    var mask := ListMask(gs, snap.at, at);
    EnterProjects(gs, mask, full, part, t);
    PickActiveMap(gs, EnterAll(gs, full.bals, t), mask, t);
    ActiveMapStands(gs, Enter(gs, full, t), t, RowAt(w, snap, at, t).balances, w.unitConfig);
    EnterTwice(gs, full.bals, t);
  }

  /** A query whose usage period starts after now stores a row at that start or, if measurement has
      not started, over time that is open all the same. */
  lemma QueryRowInOpenTime(w: World, at: Time)
    requires Inv(w) && w.now < PeriodStart(w.recs, at) && QueryRow(w, at).Some?
    ensures QueryRow(w, at).value.at > Frozen(w)
  {
    var snap, p := Resume(w, at), PeriodStart(w.recs, at);
    var l, resets := RunGrants(w, snap, at), OwnerEnv(w, w.unitConfig).resets;
    LastBreakMeaning(l, resets, snap.at, at, p);
    if at < Start(w) { QueryTooEarly(w, at); assert false; }
    ResumeStands(w, at);
    PeriodStartIsLatestReset(w.recs, at);
    if Start(w) <= w.now {
      PeriodStartIsLatestReset(w.recs, w.now);
      assert snap.at <= Frozen(w) <= w.now;
      assert IsReset(w.recs, p) && Breaks(l, resets, snap.at, at, p);
      assert NotAfter(w, p) == p;
      assert QueryRow(w, at).value == RowAt(w, snap, at, LastBreak(l, resets, snap.at, at, p).value);
      assert QueryRow(w, at).value.at >= p;
    } else {
      QueryRowIsNewer(w, at);
      assert Frozen(w) == Start(w);
    }
  }

  /** The row a query stores is a usable one exactly when the usage period queried has begun. */
  lemma QueryRowOkIff(w: World, at: Time)
    requires Inv(w) && QueryRow(w, at).Some?
    ensures RowOk(w, QueryRow(w, at).value) <==> PeriodStart(w.recs, at) <= w.now
    ensures QueryRow(w, at).value.at > Resume(w, at).at
  {
    QueryRowIsNewer(w, at);
    if PeriodStart(w.recs, at) <= w.now { QueryRowOk(w, at); } else { QueryRowInOpenTime(w, at); }
  }

  lemma QueryRowIsNewer(w: World, at: Time)
    requires w.recs != [] && QueryRow(w, at).Some?
    ensures QueryRow(w, at).value.at > Resume(w, at).at
  {
    var snap := Resume(w, at);
    var l, resets, bound := RunGrants(w, snap, at), OwnerEnv(w, w.unitConfig).resets, NotAfter(w, PeriodStart(w.recs, at));
    LastBreakMeaning(l, resets, snap.at, at, bound);
    var t := LastBreak(l, resets, snap.at, at, bound).value;
    assert QueryRow(w, at).value == RowAt(w, snap, at, t);
    assert RowAt(w, snap, at, t).at == t > snap.at;
  }

  /** The row a query stores, in plain times: it is older than the grace period or not after the start
      of the usage period queried, and it is at the last break that is. */
  lemma QueryRowTime(w: World, at: Time, t: Time)
    requires w.recs != [] && Runnable(w, Resume(w, at), at)
    ensures var row, p := QueryRow(w, at), PeriodStart(w.recs, at);
      var snap := Resume(w, at);
      && (row.Some? ==> row.value.at <= w.now - w.grace || row.value.at <= p)
      && (row.Some? ==> Breaks(RunGrants(w, snap, at), OwnerEnv(w, w.unitConfig).resets, snap.at, at, row.value.at))
      && (Breaks(RunGrants(w, snap, at), OwnerEnv(w, w.unitConfig).resets, snap.at, at, t) && (t <= w.now - w.grace || t <= p) ==>
            row.Some? && t <= row.value.at)
  {
    var snap := Resume(w, at);
    var l, resets, bound := RunGrants(w, snap, at), OwnerEnv(w, w.unitConfig).resets, NotAfter(w, PeriodStart(w.recs, at));
    LastBreakMeaning(l, resets, snap.at, at, bound);
    match LastBreak(l, resets, snap.at, at, bound)
    case None =>
    case Some(b) => assert QueryRow(w, at) == Some(RowAt(w, snap, at, b)) && RowAt(w, snap, at, b).at == b;
  }

  lemma PeriodStartBounded(w: World, at: Time)
    requires w.recs != [] && PeriodStart(w.recs, at) <= w.now
    ensures PeriodStart(w.recs, at) <= PeriodStart(w.recs, w.now)
  {
    if at <= w.now {
      PeriodStartGrows(w.recs, at, w.now);
    } else {
      PeriodStartGrows(w.recs, w.now, at);
      if w.recs[0].start < PeriodStart(w.recs, at) {
        var p := PeriodStart(w.recs, at);
        PeriodStartIsLatestReset(w.recs, at);
        assert PeriodStart(w.recs, p) == p;
        PeriodStartGrows(w.recs, p, w.now);
      }
    }
  }

  /** Appending a good row keeps the store good: it can only hide rows of the same time. */
  lemma AppendKeeps(w: World, row: Snapshot)
    requires Inv(w) && RowOk(w, row)
    ensures Inv(w.(rows := w.rows + [row]))
  {
    var v := w.(rows := w.rows + [row]);
    forall i | Visible(v.rows, i) ensures RowOk(v, v.rows[i]) {
      if i < |w.rows| {
        assert forall j :: i < j < |w.rows| ==> v.rows[j] == w.rows[j];
        assert Visible(w.rows, i);
      }
      assert Canon(v, v.rows[i].unitConfig, v.rows[i].at) == Canon(w, v.rows[i].unitConfig, v.rows[i].at);
    }
  }

  /** A query keeps the store good exactly when it stores nothing or its usage period has begun. */
  lemma QueryKeepsIff(w: World, at: Time, lockFree: bool)
    requires Inv(w)
    ensures Inv(AfterQuery(w, at, lockFree)) <==> !lockFree || QueryRow(w, at).None? || PeriodStart(w.recs, at) <= w.now
  {
    if lockFree && QueryRow(w, at).Some? {
      var row, v := QueryRow(w, at).value, AfterQuery(w, at, lockFree);
      QueryRowOkIff(w, at);
      if RowOk(w, row) { AppendKeeps(w, row); } else {
        assert Visible(v.rows, |w.rows|);
        assert Canon(v, row.unitConfig, row.at) == Canon(w, row.unitConfig, row.at);
      }
    }
  }

  // ------------------------------------------------- time, usage and unit config

  lemma TickKeeps(w: World, now: Time)
    requires Inv(w) && w.now <= now
    ensures Inv(w.(now := now))
  {
    PeriodStartGrows(w.recs, w.now, now);
    var v := w.(now := now);
    forall i | Visible(v.rows, i) ensures RowOk(v, v.rows[i]) {
      assert RowOk(w, w.rows[i]);
      assert Canon(v, v.rows[i].unitConfig, v.rows[i].at) == Canon(w, v.rows[i].unitConfig, v.rows[i].at);
    }
  }

  lemma UnitConfigKeeps(w: World, config: Option<UnitConfig>)
    requires Inv(w)
    ensures Inv(w.(unitConfig := config))
  {
    var v := w.(unitConfig := config);
    forall i | Visible(v.rows, i) ensures RowOk(v, v.rows[i]) {
      assert RowOk(w, w.rows[i]);
      assert Canon(v, v.rows[i].unitConfig, v.rows[i].at) == Canon(w, v.rows[i].unitConfig, v.rows[i].at);
    }
  }

  lemma CanonLocal(w: World, v: World, config: Option<UnitConfig>, t: Time)
    requires w.recs != [] && v.recs != [] && Start(w) == Start(v) && w.grants == v.grants && w.preserve == v.preserve
    requires forall x: Time :: x < t ==> w.raw(x) == v.raw(x)
    requires forall x: Time :: x <= t ==> IsReset(w.recs, x) == IsReset(v.recs, x)
    ensures Canon(w, config, t) == Canon(v, config, t)
  {
    var gs := Prioritize(w.grants);
    WalkLocal(gs, OwnerEnv(w, config), OwnerEnv(v, config), Initial(gs, Start(w)), Start(w), t);
  }

  lemma IngestKeeps(w: World, raw: Time -> real)
    requires Inv(w) && Metered(raw)
    requires forall t: Time :: t < w.now - w.grace || t < PeriodStart(w.recs, w.now) ==> raw(t) == w.raw(t)
    ensures Inv(w.(raw := raw))
  {
    var v := w.(raw := raw);
    forall i | Visible(v.rows, i) ensures RowOk(v, v.rows[i]) {
      assert RowOk(w, w.rows[i]);
      CanonLocal(w, v, v.rows[i].unitConfig, v.rows[i].at);
    }
  }

  // ------------------------------------------------------------ last resets

  /** The state at `t` before the resets at `t`. */
  function BeforeResets(gs: seq<Grant>, env: Env, s: State, from: Time, t: Time): (r: State)
    requires Fits(gs, s)
    ensures Fits(gs, r)
  {
    Serve(gs, Walk(gs, env, s, from, t - 1), t - 1, env.usage(t - 1))
  }

  /** What the owner comes to at `t`, before any reset then: computed from the start of measurement. */
  function Due(w: World, config: Option<UnitConfig>, t: Time): (s: State)
    requires w.recs != []
    ensures Fits(Prioritize(w.grants), s)
  {
    var gs := Prioritize(w.grants);
    BeforeResets(gs, OwnerEnv(w, config), Initial(gs, Start(w)), Start(w), t)
  }

  lemma DueGood(w: World, config: Option<UnitConfig>, t: Time)
    requires w.recs != [] && Distinct(w.grants) && AllSane(w.grants) && Metered(w.raw) && Start(w) < t
    ensures var gs, s := Prioritize(w.grants), Due(w, config, t);
      && AllSane(gs) && Good(s) && Exhausted(s)
      && Canon(w, config, t) == Resets(gs, s, t, w.preserve, if IsReset(w.recs, t) then 1 else 0)
  {
    var gs, env, c := Prioritize(w.grants), OwnerEnv(w, config), Canon(w, config, t - 1);
    SortedGrants(w);
    CanonGood(w, config, t - 1);
    OwnerMetered(w, config);
    ServeGood(gs, c, t - 1, env.usage(t - 1));
    ServeExhausts(gs, c, t - 1, env.usage(t - 1));
  }

  /** Whether the grant takes part in a reset at `t` makes no difference to the other grants and to
      the overage: there is no such reset, or no overage preserved then that it would burn. */
  predicate UnnoticedAt(w: World, config: Option<UnitConfig>, gs: seq<Grant>, id: GrantId, t: Time)
    requires w.recs != []
  {
    t == Start(w) || !IsReset(w.recs, t) || !w.preserve ||
    forall k :: 0 <= k < |gs| && gs[k].id == id ==>
      var floors := Floors(gs, t);
      Unnoticed(floors[k := 0.0], k, floors[k], Due(w, config, t).overage, Keeping(gs, t))
  }

  /** The stored row of that time, if there is one, does not depend on it. */
  ghost predicate HarmlessAt(w: World, gs: seq<Grant>, id: GrantId, t: Time)
    requires w.recs != []
  {
    forall i :: Visible(w.rows, i) && w.rows[i].at == t ==> UnnoticedAt(w, w.rows[i].unitConfig, gs, id, t)
  }

  lemma UnnoticedWithoutOverage(rolled: seq<real>, k: nat, r: real, kept: seq<bool>)
    requires NonNegative(rolled) && |kept| == |rolled|
    ensures Unnoticed(rolled, k, r, 0.0, kept)
  {
    TotalNonNegative(rolled);
    forall i | 0 <= i < |rolled| ensures Spared(rolled, i, r, 0.0) { TotalNonNegative(rolled[..i]); }
  }

  // --------------------------------------------------------------- create

  function InsertMask(g: Grant, gs: seq<Grant>): (m: seq<bool>)
    ensures |m| == |Insert(g, gs)|
    ensures |m| == |gs| + 1
  {
    if gs == [] || Precedes(g, gs[0]) then [false] + seq(|gs|, i => true) else [true] + InsertMask(g, gs[1..])
  }

  lemma {:induction false} PickAll<T>(xs: seq<T>, mask: seq<bool>)
    requires |xs| == |mask| && forall i :: 0 <= i < |mask| ==> mask[i]
    ensures Pick(xs, mask) == xs
  {
    if xs != [] { PickAll(xs[1..], mask[1..]); }
  }

  /** Without the new grant the new order is the old order. */
  lemma {:induction false} PickInserted(g: Grant, gs: seq<Grant>)
    ensures var m := InsertMask(g, gs);
      && Pick(Insert(g, gs), m) == gs
      && forall i :: 0 <= i < |m| && !m[i] ==> Insert(g, gs)[i] == g
  {
    var m, r := InsertMask(g, gs), Insert(g, gs);
    if gs == [] || Precedes(g, gs[0]) {
      assert r[1..] == gs;
      PickAll(gs, m[1..]);
    } else {
      PickInserted(g, gs[1..]);
      assert r[1..] == Insert(g, gs[1..]) && m[1..] == InsertMask(g, gs[1..]);
    }
  }

  lemma {:induction false} PickInitial(gs: seq<Grant>, mask: seq<bool>, t: Time)
    requires |gs| == |mask|
    ensures Pick(Initial(gs, t).bals, mask) == Initial(Pick(gs, mask), t).bals
  {
    if gs != [] {
      PickInitial(gs[1..], mask[1..], t);
      assert Initial(gs, t).bals[1..] == Initial(gs[1..], t).bals;
    }
  }

  /** Until it takes effect, an additional grant only adds a zero balance to every state. */
  lemma AddedProjects(all: seq<Grant>, mask: seq<bool>, env: Env, start: Time, t: Time)
    requires |all| == |mask| && start < t
    requires forall x :: start <= x < t ==> InactiveOutside(all, mask, x)
    ensures var some := Pick(all, mask);
      Projects(mask, BeforeResets(all, env, Initial(all, start), start, t), BeforeResets(some, env, Initial(some, start), start, t))
  {
    var some, m := Pick(all, mask), t - 1;
    PickInitial(all, mask, start);
    assert InactiveOutside(all, mask, start) && InactiveOutside(all, mask, m);
    WalkProjects(all, mask, env, Initial(all, start), Initial(some, start), start, m);
    ServeProjects(all, mask, Walk(all, env, Initial(all, start), start, m), Walk(some, env, Initial(some, start), start, m), m, env.usage(m));
  }

  /** The states agree outside the new grant. */
  predicate AgreesOn(mask: seq<bool>, full: State, part: State) {
    |mask| == |full.bals| && part.bals == Pick(full.bals, mask) && SameCounters(full, part)
  }

  lemma ResetAgrees(all: seq<Grant>, mask: seq<bool>, full: State, part: State, t: Time, preserve: bool)
    requires |all| == |mask| && Projects(mask, full, part) && (preserve ==> full.overage == 0.0)
    ensures Fits(Pick(all, mask), part)
    ensures AgreesOn(mask, Reset(all, full, t, preserve), Reset(Pick(all, mask), part, t, preserve))
  {
    PickRoll(all, full.bals, mask, t);
  }

  lemma CreateProjects(w: World, v: World, g: Grant, config: Option<UnitConfig>, t: Time)
    requires w.recs != [] && v == w.(grants := [g] + w.grants, rows := v.rows) && Start(w) < t <= g.effectiveAt
    ensures Projects(InsertMask(g, Prioritize(w.grants)), Due(v, config, t), Due(w, config, t))
  {
    var some, all := Prioritize(w.grants), Prioritize(v.grants);
    assert v.grants[1..] == w.grants;
    PickInserted(g, some);
    AddedProjects(all, InsertMask(g, some), OwnerEnv(w, config), Start(w), t);
  }

  /** Unless overage is preserved by a reset then, the states agree when it takes effect too. */
  lemma CreateAgrees(w: World, v: World, g: Grant, config: Option<UnitConfig>, t: Time)
    requires w.recs != [] && v == w.(grants := [g] + w.grants, rows := v.rows) && Start(w) <= t <= g.effectiveAt
    requires Start(w) < t && IsReset(w.recs, t) && w.preserve ==> Due(w, config, t).overage == 0.0
    ensures AgreesOn(InsertMask(g, Prioritize(w.grants)), Canon(v, config, t), Canon(w, config, t))
  {
    var some, all := Prioritize(w.grants), Prioritize(v.grants);
    assert v.grants[1..] == w.grants;
    var mask := InsertMask(g, some);
    PickInserted(g, some);
    if t == Start(w) { PickInitial(all, mask, t); } else {
      CreateProjects(w, v, g, config, t);
      if IsReset(w.recs, t) { ResetAgrees(all, mask, Due(v, config, t), Due(w, config, t), t, w.preserve); }
    }
  }

  lemma InsertKeepsCover(g: Grant, gs: seq<Grant>, row: Snapshot)
    requires Covered(gs, row)
    ensures Covered(Insert(g, gs), row)
  {
    InsertMultiset(g, gs);
    forall id | id in row.balances ensures exists i :: 0 <= i < |Insert(g, gs)| && Insert(g, gs)[i].id == id && Reaches(Insert(g, gs)[i], row.at) {
      var i :| 0 <= i < |gs| && gs[i].id == id && Reaches(gs[i], row.at);
      assert gs[i] in multiset(Insert(g, gs));
    }
  }

  lemma CreateEnters(all: seq<Grant>, mask: seq<bool>, g: Grant, full: State, part: State, row: Snapshot)
    requires |all| == |mask| && AgreesOn(mask, full, part) && g.id !in row.balances && row.at <= g.effectiveAt
    requires forall i :: 0 <= i < |mask| && !mask[i] ==> all[i] == g
    requires Fits(Pick(all, mask), part) && Stands(Pick(all, mask), part, row)
    ensures Stands(all, full, row)
  {
    var t := row.at;
    var fill := FillAll(all, row.balances, t);
    PickFill(all, mask, row.balances, t);
    PickEnter(all, fill, mask, t);
    PickEnter(all, full.bals, mask, t);
    PickExtensional(EnterAll(all, fill, t), EnterAll(all, full.bals, t), mask);
  }

  lemma {:induction false} PickUpdate(xs: seq<real>, mask: seq<bool>, k: nat, x: real)
    requires |xs| == |mask| && k < |xs| && !mask[k]
    ensures Pick(xs[k := x], mask) == Pick(xs, mask)
  {
    if k == 0 { assert xs[k := x][1..] == xs[1..]; } else {
      PickUpdate(xs[1..], mask[1..], k - 1, x);
      assert xs[k := x][1..] == xs[1..][k - 1 := x];
    }
  }

  /** A grant that takes effect at a preserving reset: the state of the reset without it, over all. */
  lemma ResetWithout(all: seq<Grant>, mask: seq<bool>, k: nat, part: State, t: Time)
    requires |all| == |mask| && k < |all| && forall i :: 0 <= i < |mask| ==> mask[i] == (i != k)
    requires Fits(Pick(all, mask), part) && part.overage > 0.0 && Empty(part.bals)
    ensures AgreesOn(mask, Rolled(Floors(all, t)[k := 0.0], part.overage), Reset(Pick(all, mask), part, t, true))
  {
    var some, f := Pick(all, mask), Floors(all, t);
    var f0, zeros := f[k := 0.0], seq(|all|, i => 0.0);
    EmptySteps(all, zeros, t);
    EmptySteps(some, part.bals, t);
    PickRoll(all, zeros, mask, t);
    PickZeros(zeros, mask);
    assert Pick(zeros, mask) == part.bals;
    PickUpdate(f, mask, k, 0.0);
    PickBurn(f0, mask, part.overage);
  }

  lemma {:induction false} PickZeros(zeros: seq<real>, mask: seq<bool>)
    requires |zeros| == |mask| && Empty(zeros)
    ensures Empty(Pick(zeros, mask))
  {
    if zeros != [] { PickZeros(zeros[1..], mask[1..]); }
  }

  /** With it, its contribution shows or goes unnoticed. */
  lemma CreateAtResetIff(all: seq<Grant>, mask: seq<bool>, k: nat, full: State, part: State, row: Snapshot)
    requires |all| == |mask| && k < |all| && forall i :: 0 <= i < |mask| ==> mask[i] == (i != k)
    requires AllSane(all) && Projects(mask, full, part) && Exhausted(full) && part.overage > 0.0
    requires all[k].id !in row.balances && all[k].effectiveAt == row.at && |all| == |full.bals|
    requires Fits(Pick(all, mask), part) && Stands(Pick(all, mask), Reset(Pick(all, mask), part, row.at, true), row)
    ensures var f := Floors(all, row.at);
      Stands(all, Reset(all, full, row.at, true), row) <==> Unnoticed(f[k := 0.0], k, f[k], part.overage, Keeping(all, row.at))
  {
    var t, o, f := row.at, part.overage, Floors(all, row.at);
    var f0 := f[k := 0.0];
    PickZeros(full.bals, mask);
    ResetWithout(all, mask, k, part, t);
    CreateEnters(all, mask, all[k], Rolled(f0, o), Reset(Pick(all, mask), part, t, true), row);
    EmptySteps(all, full.bals, t);
    FloorsNonNegative(all, t);
    assert f0[k := f[k]] == f;
    RolledSameIff(all, f0, k, f[k], o, t);
  }

  /** The place of the new grant. */
  lemma {:induction false} InsertPlace(g: Grant, gs: seq<Grant>) returns (k: nat)
    ensures k < |Insert(g, gs)| && Insert(g, gs)[k] == g
    ensures forall i :: 0 <= i <= |gs| ==> InsertMask(g, gs)[i] == (i != k)
  {
    if gs == [] || Precedes(g, gs[0]) { k := 0; } else {
      k := InsertPlace(g, gs[1..]);
      k := k + 1;
    }
  }

  lemma UnnoticedAtPlace(w: World, config: Option<UnitConfig>, gs: seq<Grant>, k: nat, t: Time)
    requires w.recs != [] && k < |gs| && Distinct(gs) && AllSane(gs)
    requires t == Start(w) || !IsReset(w.recs, t) || !w.preserve || Due(w, config, t).overage >= 0.0
    ensures UnnoticedAt(w, config, gs, gs[k].id, t) <==>
      (t == Start(w) || !IsReset(w.recs, t) || !w.preserve || Due(w, config, t).overage == 0.0 ||
        Unnoticed(Floors(gs, t)[k := 0.0], k, Floors(gs, t)[k], Due(w, config, t).overage, Keeping(gs, t)))
  {
    var f := Floors(gs, t);
    FloorsNonNegative(gs, t);
    forall i | 0 <= i < |gs| && gs[i].id == gs[k].id ensures i == k { }
    UnnoticedWithoutOverage(f[k := 0.0], k, f[k], Keeping(gs, t));
  }

  /** A preserving reset at the row's time, with overage to burn. */
  predicate Burning(w: World, row: Snapshot)
    requires w.recs != []
  {
    Start(w) < row.at && IsReset(w.recs, row.at) && w.preserve && Due(w, row.unitConfig, row.at).overage > 0.0
  }

  /** The row still stands without such a reset. */
  lemma CreateStands(w: World, v: World, g: Grant, row: Snapshot)
    requires Inv(w) && v == w.(grants := [g] + w.grants, rows := v.rows) && !Burning(w, row)
    requires Sane(g) && g.id !in Ids(w.grants) && RowOk(w, row) && row.at <= g.effectiveAt
    ensures Stands(Prioritize(v.grants), Canon(v, row.unitConfig, row.at), row)
  {
    var some, t, config := Prioritize(w.grants), row.at, row.unitConfig;
    assert v.grants[1..] == w.grants;
    NewGrantSorted(w, v, g);
    PickInserted(g, some);
    assert forall i :: 0 <= i < |some| ==> some[i].id in Ids(some);
    if Start(w) < t { DueGood(w, config, t); }
    CreateAgrees(w, v, g, config, t);
    CreateEnters(Prioritize(v.grants), InsertMask(g, some), g, Canon(v, config, t), Canon(w, config, t), row);
  }

  /** With one, at which the grant takes effect. */
  lemma CreateStandsIff(w: World, v: World, g: Grant, row: Snapshot, k: nat)
    requires Inv(w) && v == w.(grants := [g] + w.grants, rows := v.rows) && Burning(w, row)
    requires Sane(g) && g.id !in Ids(w.grants) && RowOk(w, row) && row.at == g.effectiveAt
    requires k < |Prioritize(v.grants)| && Prioritize(v.grants)[k] == g
    requires var mask := InsertMask(g, Prioritize(w.grants)); forall i :: 0 <= i < |mask| ==> mask[i] == (i != k)
    ensures var all, t := Prioritize(v.grants), row.at;
      Stands(all, Canon(v, row.unitConfig, t), row) <==>
      Unnoticed(Floors(all, t)[k := 0.0], k, Floors(all, t)[k], Due(w, row.unitConfig, t).overage, Keeping(all, t))
  {
    var some, t, config := Prioritize(w.grants), row.at, row.unitConfig;
    assert v.grants[1..] == w.grants;
    NewGrantSorted(w, v, g);
    PickInserted(g, some);
    assert forall i :: 0 <= i < |some| ==> some[i].id in Ids(some);
    DueGood(w, config, t);
    DueGood(v, config, t);
    CreateProjects(w, v, g, config, t);
    CreateAtResetIff(Prioritize(v.grants), InsertMask(g, some), k, Due(v, config, t), Due(w, config, t), row);
  }

  lemma UnnoticedUnless(w: World, row: Snapshot, gs: seq<Grant>, k: nat)
    requires Inv(w) && RowOk(w, row) && k < |gs| && Distinct(gs) && AllSane(gs)
    ensures UnnoticedAt(w, row.unitConfig, gs, gs[k].id, row.at) <==>
      (Burning(w, row) ==>
        Unnoticed(Floors(gs, row.at)[k := 0.0], k, Floors(gs, row.at)[k], Due(w, row.unitConfig, row.at).overage, Keeping(gs, row.at)))
  {
    if Start(w) < row.at { DueGood(w, row.unitConfig, row.at); }
    UnnoticedAtPlace(w, row.unitConfig, gs, k, row.at);
  }

  /** A kept row still stands after a grant was created exactly if the grant goes unnoticed. */
  lemma CreateRowOkIff(w: World, v: World, g: Grant, row: Snapshot)
    requires Inv(w) && v == w.(grants := [g] + w.grants, rows := v.rows)
    requires Sane(g) && g.id !in Ids(w.grants) && RowOk(w, row) && row.at <= g.effectiveAt
    ensures RowOk(v, row) <==>
      row.at < g.effectiveAt || UnnoticedAt(w, row.unitConfig, Prioritize(v.grants), g.id, row.at)
  {
    var some, all := Prioritize(w.grants), Prioritize(v.grants);
    assert v.grants[1..] == w.grants;
    NewGrantSorted(w, v, g);
    var k := InsertPlace(g, some);
    InsertKeepsCover(g, some, row);
    UnnoticedUnless(w, row, all, k);
    if !Burning(w, row) { CreateStands(w, v, g, row); }
    else if row.at < g.effectiveAt { CreatedLater(w, v, g, row); }
    else { CreateStandsIff(w, v, g, row, k); }
  }

  lemma NewGrantSorted(w: World, v: World, g: Grant)
    requires Distinct(w.grants) && AllSane(w.grants) && v.grants == [g] + w.grants && Sane(g) && g.id !in Ids(w.grants)
    ensures var all := Prioritize(v.grants); Distinct(all) && AllSane(all) && Distinct(v.grants) && AllSane(v.grants)
    ensures g.id !in Ids(Prioritize(w.grants))
  {
    forall i | 0 <= i < |w.grants| ensures w.grants[i].id != g.id { assert w.grants[i].id in Ids(w.grants); }
    SortedGrants(w);
    SortedGrants(v);
  }

  /** Before it takes effect the grant takes part in no reset. */
  lemma CreatedLater(w: World, v: World, g: Grant, row: Snapshot)
    requires Inv(w) && v == w.(grants := [g] + w.grants, rows := v.rows) && g.id !in Ids(w.grants) && Sane(g)
    requires RowOk(w, row) && Start(w) < row.at < g.effectiveAt && IsReset(w.recs, row.at)
    ensures Stands(Prioritize(v.grants), Canon(v, row.unitConfig, row.at), row)
  {
    var some, all, t, config := Prioritize(w.grants), Prioritize(v.grants), row.at, row.unitConfig;
    assert v.grants[1..] == w.grants;
    NewGrantSorted(w, v, g);
    var mask := InsertMask(g, some);
    PickInserted(g, some);
    CreateProjects(w, v, g, config, t);
    ResetProjects(all, mask, Due(v, config, t), Due(w, config, t), t, w.preserve);
    assert forall i :: 0 <= i < |some| ==> some[i].id in Ids(some);
    CreateEnters(all, mask, g, Canon(v, config, t), Canon(w, config, t), row);
  }

  /** A visible row among the rows before is still visible among those kept. */
  lemma {:induction false} StaysVisible(rows: seq<Snapshot>, t: Time, j: int) returns (i: int)
    requires Visible(rows, j) && rows[j].at <= t
    ensures Visible(InvalidateAfter(rows, t), i) && InvalidateAfter(rows, t)[i] == rows[j]
  {
    var n := |rows| - 1;
    var p, r := InvalidateAfter(rows[..n], t), InvalidateAfter(rows, t);
    if j == n { i := |p|; } else {
      assert rows[..n][j] == rows[j] && rows[n].at != rows[j].at;
      assert forall k :: j < k < n ==> rows[..n][k] == rows[k];
      i := StaysVisible(rows[..n], t, j);
      assert forall k :: 0 <= k < |p| ==> p[k] == r[k];
    }
  }

  /** Creating a grant keeps the store good exactly if the row kept at its effective time, when there
      is one, does not depend on the grant. */
  lemma CreateKeepsIff(w: World, g: Grant)
    requires Inv(w) && Create(w, g).Ok? && Sane(g) && g.id !in Ids(w.grants)
    ensures Inv(Create(w, g).value) <==> HarmlessAt(w, Prioritize(Create(w, g).value.grants), g.id, g.effectiveAt)
  {
    var v, t := Create(w, g).value, g.effectiveAt;
    NewGrantSorted(w, v, g);
    if HarmlessAt(w, Prioritize(v.grants), g.id, t) {
      forall i | Visible(v.rows, i) ensures RowOk(v, v.rows[i]) {
        var j := InvalidateVisible(w.rows, t, i);
        CreateRowOkIff(w, v, g, w.rows[j]);
      }
    }
    if Inv(v) {
      forall j | Visible(w.rows, j) && w.rows[j].at == t ensures UnnoticedAt(w, w.rows[j].unitConfig, Prioritize(v.grants), g.id, t) {
        var i := StaysVisible(w.rows, t, j);
        CreateRowOkIff(w, v, g, w.rows[j]);
      }
    }
  }
}
