/** The credit connector: one owner's grants, usage periods and stored snapshots, updated in
    place (openmeter/credit/balance.go, openmeter/credit/grant.go, openmeter/credit/helper.go). */
module Connector {
  import opened Grants
  import opened Reference
  import opened Balances
  import opened Checkpoints
  import opened UsagePeriods
  import opened Burndown
  import opened History
  import opened Engine
  import opened EngineRun
  import opened World
  import opened Stepping

  /** GetLatestValidAt, scanning the rows. */
  method FindLatest(rows: seq<Snapshot>, at: Time) returns (r: Option<Snapshot>)
    ensures r == Latest(rows, at)
  {
    var best := -1;
    for k := 0 to |rows|
      invariant best == LatestIndex(rows[..k], at)
    {
      assert rows[..k + 1][..k] == rows[..k];
      if rows[k].at <= at && (best == -1 || rows[best].at <= rows[k].at) { best := k; }
    }
    assert rows[..|rows|] == rows;
    r := if best == -1 then None else Some(rows[best]);
  }

  /** The soft delete of InvalidateAfter. */
  method KeepUpTo(rows: seq<Snapshot>, t: Time) returns (r: seq<Snapshot>)
    ensures r == InvalidateAfter(rows, t)
  {
    r := [];
    for k := 0 to |rows|
      invariant r == InvalidateAfter(rows[..k], t)
    {
      assert rows[..k + 1][..k] == rows[..k];
      if rows[k].at <= t { r := r + [rows[k]]; }
    }
    assert rows[..|rows|] == rows;
  }

  /** populateBalanceSnapshotWithMissingGrantsActiveAt. */
  method PopulateMissing(m: BalanceMap, gs: seq<Grant>, at: Time) returns (out: BalanceMap)
    ensures out == Populate(m, gs, at)
  {
    out := m;
    for k := 0 to |gs|
      invariant out == Populate(m, gs[..k], at)
    {
      assert gs[..k + 1][..k] == gs[..k];
      if gs[k].id !in out { out := out[gs[k].id := if Active(gs[k], at) then gs[k].amount else 0.0]; }
    }
    assert gs[..|gs|] == gs;
  }

  /** The listed grants by id. */
  method ById(gs: seq<Grant>) returns (byId: map<GrantId, Grant>)
    requires Distinct(gs)
    ensures byId.Keys == Ids(gs) && forall i :: 0 <= i < |gs| ==> gs[i].id in byId && byId[gs[i].id] == gs[i]
  {
    byId := map[];
    for k := 0 to |gs|
      invariant byId.Keys == Ids(gs[..k])
      invariant forall i :: 0 <= i < k ==> gs[i].id in byId && byId[gs[i].id] == gs[i]
    {
      assert gs[..k + 1] == gs[..k] + [gs[k]];
      IdsSnoc(gs[..k], gs[k], gs[..k + 1]);
      byId := byId[gs[k].id := gs[k]];
    }
    assert gs[..|gs|] == gs;
  }

  /** removeInactiveGrantsFromSnapshotAt, balance by balance. */
  method KeepActive(m: BalanceMap, gs: seq<Grant>, at: Time) returns (r: Result<BalanceMap>)
    requires Distinct(gs)
    ensures r == RemoveInactive(m, gs, at)
  {
    var byId := ById(gs);
    var filtered: BalanceMap := map[];
    var rest := m.Keys;
    while rest != {}
      invariant rest <= m.Keys && m.Keys - rest <= Ids(gs)
      invariant filtered == map id | id in m && id !in rest && ActiveIn(gs, id, at) :: m[id]
      decreases |rest|
    {
      var id :| id in rest;
      if id !in byId {
        assert id in m && id !in Ids(gs);
        return Err;
      }
      assert ActiveIn(gs, id, at) == Active(byId[id], at) by { ActiveInById(gs, id, byId[id], at); }
      if Active(byId[id], at) { filtered := filtered[id := m[id]]; }
      rest := rest - {id};
    }
    assert m.Keys <= Ids(gs);
    assert filtered == RemoveInactive(m, gs, at).value;
    r := Ok(filtered);
  }

  lemma ActiveInById(gs: seq<Grant>, id: GrantId, g: Grant, at: Time)
    requires Distinct(gs) && id in Ids(gs)
    requires exists i :: 0 <= i < |gs| && gs[i] == g && g.id == id
    ensures ActiveIn(gs, id, at) == Active(g, at)
  {
    var i :| 0 <= i < |gs| && gs[i] == g && g.id == id;
    if k :| 0 <= k < |gs| && gs[k].id == id && Active(gs[k], at) { assert k == i; }
  }

  /** The backward loop of snapshotEngineResult: the latest segment, not the first, that does
      not start after the limit. */
  method ChooseSegment(segs: seq<Segment>, notAfter: Time) returns (i: int)
    ensures i == 0 ==> forall j :: 1 <= j < |segs| ==> segs[j].from > notAfter
    ensures i != 0 ==> Chosen(segs, notAfter, i)
  {
    if |segs| == 0 { return 0; }
    i := |segs| - 1;
    while i >= 1
      invariant 0 <= i < |segs|
      invariant forall j :: i < j < |segs| ==> segs[j].from > notAfter
    {
      if segs[i].from <= notAfter { return; }
      i := i - 1;
    }
  }

  /** One call of the engine: listing, populating and running. */
  method RunEngine(w: World, snap: Snapshot, at: Time, preserve: bool, resets: seq<Time>) returns (r: Result<RunResult>, grants: seq<Grant>)
    requires Sensible(w) && Solvent(snap) && Sorted(resets)
    requires snap.at <= at ==> TimelineOk(snap.at, at, resets)
    ensures grants == ListActive(w.grants, snap.at, at)
    ensures r.Ok? <==> Runnable(w, snap, at)
    ensures r.Ok? ==> EngineRan(w, snap, at, preserve, resets, r.value)
  {
    grants := ListActive(w.grants, snap.at, at);
    ListedFacts(w, snap.at, at);
    PopulatedIsFilled(grants, snap);
    OwnerUsageMetered(w);
    var balances := PopulateMissing(snap.balances, grants, snap.at);
    r := Run(grants, OwnerUsage(w), snap.(balances := balances), at, preserve, resets);
  }

  class Credit {
    var recs: seq<UsageRec>
    var grants: seq<Grant>
    var rows: seq<Snapshot>
    var raw: Time -> real
    var unitConfig: Option<UnitConfig>
    var preserve: bool
    var grace: nat
    var now: Time

    /** The owner's state as a value. */
    function State(): World
      reads this
    {
      World(recs, grants, rows, raw, unitConfig, preserve, grace, now)
    }

    ghost predicate Valid()
      reads this
    {
      Sensible(State())
    }

    constructor (recs: seq<UsageRec>, raw: Time -> real, preserve: bool, grace: nat, now: Time)
      requires ValidRecs(recs) && (forall i :: 0 < i < |recs| ==> recs[i].start <= now) && Metered(raw)
      ensures Valid() && State() == World(recs, [], [], raw, None, preserve, grace, now)
    {
      this.recs, this.grants, this.rows, this.raw := recs, [], [], raw;
      this.unitConfig, this.preserve, this.grace, this.now := None, preserve, grace, now;
    }

    /** GetLastValidSnapshotAt. */
    method GetLastValidSnapshotAt(at: Time) returns (snap: Snapshot)
      requires Valid()
      ensures snap == Resume(State(), at)
    {
      var row := FindLatest(rows, at);
      if row.Some? && row.value.unitConfig == unitConfig { return row.value; }
      var listed := ListActive(grants, recs[0].start, at);
      var balances := PopulateMissing(map[], listed, recs[0].start);
      snap := Snapshot(recs[0].start, balances, 0.0, 0.0, 0.0, None);
    }

    /** saveSnapshot: filters, stamps the current unit config and stores. */
    method SaveSnapshot(snap: Snapshot, gs: seq<Grant>) returns (ok: bool)
      requires Distinct(gs)
      modifies this`rows
      ensures ok == RemoveInactive(snap.balances, gs, snap.at).Ok?
      ensures rows == if ok then old(rows) + [snap.(balances := RemoveInactive(snap.balances, gs, snap.at).value, unitConfig := unitConfig)] else old(rows)
    {
      var filtered := KeepActive(snap.balances, gs, snap.at);
      ok := filtered.Ok?;
      if ok { rows := rows + [snap.(balances := filtered.value, unitConfig := unitConfig)]; }
    }

    /** A save that is known to succeed. */
    method StoreRow(snap: Snapshot, gs: seq<Grant>, ghost row: Snapshot)
      requires Valid() && Distinct(gs) && RemoveInactive(snap.balances, gs, snap.at).Ok? && Solvent(row)
      requires snap.(balances := RemoveInactive(snap.balances, gs, snap.at).value, unitConfig := unitConfig) == row
      modifies this`rows
      ensures Valid() && rows == old(rows) + [row]
    {
      var ok := SaveSnapshot(snap, gs);
    }

    /** snapshotEngineResult: stores at most one snapshot, unless the owner lock is taken. */
    method SnapshotEngineResult(snap: Snapshot, at: Time, lockFree: bool, run: RunResult, listed: seq<Grant>)
      requires Valid() && Solvent(snap) && Runnable(State(), snap, at) && listed == ListActive(grants, snap.at, at)
      requires EngineRan(State(), snap, at, preserve, ResetsBetween(recs, snap.at, at), run)
      modifies this`rows
      ensures Valid() && rows == old(rows) + RowsOf(old(State()), snap, at, lockFree)
    {
      if !lockFree { return; }
      var i := ChooseSegment(run.segments, NotAfter(State(), PeriodStart(recs, at)));
      ChosenRow(State(), snap, at, run, i);
      if i == 0 { return; }
      var balances := PopulateMissing(snap.balances, listed, snap.at);
      StoreRow(SnapshotAtStart(snap.(balances := balances), run.segments, i), listed, RowsOf(State(), snap, at, true)[0]);
    }

    /** getBalanceSinceSnapshot: answers, and may store one snapshot on the way. */
    method GetBalanceSinceSnapshot(snap: Snapshot, at: Time, lockFree: bool) returns (r: Result<Balance>)
      requires Valid() && Solvent(snap)
      modifies this`rows
      ensures r == QueryFrom(old(State()), snap, at)
      ensures Valid() && rows == old(rows) + RowsOf(old(State()), snap, at, lockFree)
    {
      var resets := ResetsBetween(recs, snap.at, at);
      if snap.at <= at { QueryTimeline(State(), snap.at, at); } else { assert resets == []; }
      var run, listed := RunEngine(State(), snap, at, preserve, resets);
      if run.Err? { return Err; }
      var result := run.value.snapshot;
      ListedFacts(State(), snap.at, at);
      QueryRan(State(), snap, at, run.value);
      var balances := KeepActive(result.balances, listed, at);
      r := Ok(Balance(at, balances.value, result.overage, result.usage, result.grantUsage));
      SnapshotEngineResult(snap, at, lockFree, run.value, listed);
    }

    /** GetBalanceAt. */
    method GetBalanceAt(at: Time, lockFree: bool) returns (r: Result<Balance>)
      requires Valid()
      modifies this`rows
      ensures r == Query(old(State()), at)
      ensures Valid() && State() == AfterQuery(old(State()), at, lockFree)
    {
      ResumeSolvent(State(), at);
      var snap := GetLastValidSnapshotAt(at);
      r := GetBalanceSinceSnapshot(snap, at, lockFree);
    }

    /** GetBalanceForPeriod: the engine's run from the balance at the period's start, with the
        balances of all grants of the run and its history. */
    method GetBalanceForPeriod(from: Time, until: Time, lockFree: bool) returns (r: Result<RunResult>)
      requires Valid()
      modifies this`rows
      ensures r.Ok? <==> QueryPeriod(old(State()), from, until).Ok?
      ensures r.Ok? ==>
        && EngineRan(old(State()), PeriodSnapshot(old(State()), from), until, preserve, ResetsBetween(recs, from, until), r.value)
        && Increasing(ResetsBetween(recs, from, until))
        && QueryPeriod(old(State()), from, until) == ActiveBalance(old(State()), from, until, r.value.snapshot)
      ensures Valid() && State() == AfterQuery(old(State()), from, lockFree)
    {
      ghost var w := State();
      var first := GetBalanceAt(from, lockFree);
      if first.Err? { return Err; }
      var b := first.value;
      var snap := Snapshot(b.at, b.balances, b.overage, b.usage, b.grantUsage, unitConfig);
      PeriodSnapshotSolvent(w, from);
      var resets := ResetsBetween(recs, snap.at, until);
      if snap.at <= until { QueryTimeline(w, snap.at, until); } else { assert resets == []; }
      var listed;
      r, listed := RunEngine(State(), snap, until, preserve, resets);
      if r.Ok? { QueryRan(w, snap, until, r.value); }
    }

    /** CreateGrant, with the id the repository assigns. */
    method CreateGrant(g: Grant) returns (ok: bool)
      requires Valid() && g.id !in Ids(grants) && g.maxRollover >= 0.0
      modifies this`grants, this`rows
      ensures ok <==> g.amount > 0.0 && PeriodStart(recs, now) <= g.effectiveAt
      ensures ok == Create(old(State()), g).Ok?
      ensures ok ==> forall row :: row in rows <==> row in old(rows) && row.at <= g.effectiveAt
      ensures Valid() && State() == OrElse(Create(old(State()), g), old(State()))
    {
      if g.amount <= 0.0 || g.effectiveAt < PeriodStart(recs, now) { return false; }
      CreatedSensible(State(), g);
      InvalidateMembers(rows, g.effectiveAt);
      grants := [g] + grants;
      rows := KeepUpTo(rows, g.effectiveAt);
      ok := true;
    }

    /** The place of the grant with the id, or the end. */
    method FindGrant(id: GrantId) returns (k: nat)
      ensures k <= |grants| && (k < |grants| ==> grants[k].id == id) && forall i :: 0 <= i < k ==> grants[i].id != id
    {
      k := 0;
      while k < |grants| && grants[k].id != id
        invariant 0 <= k <= |grants| && forall i :: 0 <= i < k ==> grants[i].id != id
      {
        k := k + 1;
      }
    }

    /** The updates of a void. */
    method ApplyVoid(id: GrantId, t: Time)
      requires Valid()
      modifies this`grants, this`rows
      ensures Valid() && State() == old(State()).(grants := VoidIn(old(grants), id, t), rows := InvalidateAfter(old(rows), t))
      ensures VoidedFrom(grants, id, t) && forall row :: row in rows <==> row in old(rows) && row.at <= t
    {
      VoidedSensible(State(), id, t);
      InvalidateMembers(rows, t);
      VoidInVoids(grants, id, t);
      grants := VoidIn(grants, id, t);
      rows := KeepUpTo(rows, t);
    }

    /** VoidGrant. */
    method VoidGrantAt(id: GrantId, at: Option<Time>) returns (ok: bool)
      requires Valid()
      modifies this`grants, this`rows
      ensures var t := if at.Some? then at.value else now;
        && (ok <==> PeriodStart(recs, now) <= t <= now && InForce(old(grants), id))
        && (ok ==> (forall row :: row in rows <==> row in old(rows) && row.at <= t) && VoidedFrom(grants, id, t))
      ensures ok == VoidGrant(old(State()), id, at).Ok?
      ensures Valid() && State() == OrElse(VoidGrant(old(State()), id, at), old(State()))
    {
      var k := FindGrant(id);
      InForceAt(grants, id, k);
      if k == |grants| || grants[k].voidedAt.Some? { return false; }
      var t := if at.Some? then at.value else now;
      if t > now || t < PeriodStart(recs, now) { return false; }
      ApplyVoid(id, t);
      ok := true;
    }

    /** The engine run of a reset. */
    method RunReset(at: Time, preserveOverage: bool) returns (r: Result<Snapshot>, listed: seq<Grant>)
      requires Valid()
      ensures r.Ok? <==> Runnable(State(), Resume(State(), at), at)
      ensures r.Ok? ==> (
        && Distinct(listed) && r.value.at == at && RemoveInactive(r.value.balances, listed, at).Ok?
        && r.value.(balances := RemoveInactive(r.value.balances, listed, at).value, unitConfig := unitConfig) == ResetRow(State(), at, preserveOverage))
    {
      ResumeSolvent(State(), at);
      var snap := GetLastValidSnapshotAt(at);
      var resets := if snap.at < at then ResetsBetween(recs, snap.at, at) + [at] else [];
      if snap.at <= at { ResetRunTimeline(State(), snap.at, at, preserveOverage); }
      var run;
      run, listed := RunEngine(State(), snap, at, preserveOverage, resets);
      if run.Err? { return Err, listed; }
      ListedFacts(State(), snap.at, at);
      ResetRan(State(), at, preserveOverage, run.value);
      r := Ok(run.value.snapshot);
    }

    /** The stored rows after a reset: later ones go, the reset's own is added. */
    method StoreReset(run: Snapshot, listed: seq<Grant>, ghost row: Snapshot)
      requires Valid() && Distinct(listed) && RemoveInactive(run.balances, listed, run.at).Ok? && Solvent(row)
      requires run.(balances := RemoveInactive(run.balances, listed, run.at).value, unitConfig := unitConfig) == row
      modifies this`rows
      ensures Valid() && rows == InvalidateAfter(old(rows), run.at) + [row]
    {
      KeptSolvent(State(), run.at);
      rows := KeepUpTo(rows, run.at);
      StoreRow(run, listed, row);
    }

    /** The updates of a reset: the stored rows, then the usage period. */
    method CommitReset(run: Snapshot, listed: seq<Grant>, ghost row: Snapshot, at: Time, retainAnchor: bool)
      requires Valid() && Distinct(listed) && RemoveInactive(run.balances, listed, run.at).Ok? && Solvent(row) && run.at == at
      requires run.(balances := RemoveInactive(run.balances, listed, run.at).value, unitConfig := unitConfig) == row
      requires PeriodStart(recs, now) <= at <= now
      modifies this`recs, this`rows
      ensures Valid() && |rows| > 0 && rows[|rows| - 1] == row
      ensures State() == old(State()).(rows := InvalidateAfter(old(rows), at) + [row], recs := EndPeriod(old(recs), at, retainAnchor))
    {
      EndCurrentPeriod(recs, at, retainAnchor, now);
      StoreReset(run, listed, row);
      recs := EndPeriod(recs, at, retainAnchor);
    }

    /** ResetUsageForOwner. */
    method ResetUsageForOwner(at: Time, preserveOverage: bool, retainAnchor: bool) returns (r: Result<Snapshot>)
      requires Valid()
      modifies this`recs, this`rows
      ensures r == if ResetAllowed(old(State()), at) then Ok(ResetRow(old(State()), at, preserveOverage)) else Err
      ensures Valid() && State() == OrElse(ResetUsage(old(State()), at, preserveOverage, retainAnchor), old(State()))
    {
      if at > now || at < PeriodStart(recs, now) || ResetsBetween(recs, at, now) != [] { return Err; }
      var run, listed := RunReset(at, preserveOverage);
      if run.Err? { return Err; }
      ghost var row := ResetRow(State(), at, preserveOverage);
      ResetRowSolvent(State(), at, preserveOverage);
      CommitReset(run.value, listed, row, at, retainAnchor);
      r := Ok(rows[|rows| - 1]);
    }
  }

  /** There is a grant with the id, and it is not voided. */
  predicate InForce(gs: seq<Grant>, id: GrantId) {
    exists g :: g in gs && g.id == id && g.voidedAt.None?
  }

  predicate VoidedFrom(gs: seq<Grant>, id: GrantId, t: Time) {
    forall g :: g in gs && g.id == id ==> g.voidedAt == Some(t)
  }

  lemma InForceAt(gs: seq<Grant>, id: GrantId, k: nat)
    requires Distinct(gs) && k <= |gs| && (k < |gs| ==> gs[k].id == id) && forall i :: 0 <= i < k ==> gs[i].id != id
    ensures InForce(gs, id) <==> k < |gs| && gs[k].voidedAt.None?
    ensures Voidable(gs, id) <==> k < |gs| && gs[k].voidedAt.None?
  {
    if g :| g in gs && g.id == id && g.voidedAt.None? {
      var i :| 0 <= i < |gs| && gs[i] == g;
      assert i == k;
    }
  }

  lemma VoidInVoids(gs: seq<Grant>, id: GrantId, t: Time)
    ensures VoidedFrom(VoidIn(gs, id, t), id, t)
  {
  }

  lemma CreatedSensible(w: World, g: Grant)
    requires Sensible(w) && g.id !in Ids(w.grants) && Sane(g)
    ensures Sensible(w.(grants := [g] + w.grants, rows := InvalidateAfter(w.rows, g.effectiveAt)))
  {
    HasIds(w.grants);
    KeptSolvent(w, g.effectiveAt);
  }

  lemma VoidedSensible(w: World, id: GrantId, t: Time)
    requires Sensible(w)
    ensures Sensible(w.(grants := VoidIn(w.grants, id, t), rows := InvalidateAfter(w.rows, t)))
  {
    KeptSolvent(w, t);
  }

  lemma KeptSolvent(w: World, t: Time)
    requires Sensible(w)
    ensures Sensible(w.(rows := InvalidateAfter(w.rows, t)))
  {
    var kept := InvalidateAfter(w.rows, t);
    InvalidateMembers(w.rows, t);
    forall i | 0 <= i < |kept| ensures Solvent(kept[i]) { assert kept[i] in kept; }
  }

  /** The rows a query adds. */
  function RowsOf(w: World, snap: Snapshot, at: Time, lockFree: bool): seq<Snapshot>
    requires w.recs != []
  {
    if lockFree && RowFrom(w, snap, at).Some? then [RowFrom(w, snap, at).value] else []
  }

  /** The segment the loop picks gives the row of the operation, or there is none. */
  lemma ChosenRow(w: World, snap: Snapshot, at: Time, run: RunResult, i: int)
    requires Sensible(w) && Solvent(snap) && Runnable(w, snap, at)
    requires EngineRan(w, snap, at, w.preserve, ResetsBetween(w.recs, snap.at, at), run)
    requires var bound := NotAfter(w, PeriodStart(w.recs, at));
      if i == 0 then forall j :: 1 <= j < |run.segments| ==> run.segments[j].from > bound else Chosen(run.segments, bound, i)
    ensures i == 0 ==> RowsOf(w, snap, at, true) == []
    ensures i != 0 ==>
      var l := ListActive(w.grants, snap.at, at);
      var s := SnapshotAtStart(snap.(balances := Populate(snap.balances, l, snap.at)), run.segments, i);
      && Distinct(l) && RemoveInactive(s.balances, l, s.at).Ok?
      && var row := s.(balances := RemoveInactive(s.balances, l, s.at).value, unitConfig := w.unitConfig);
      RowsOf(w, snap, at, true) == [row] && Solvent(row)
  {
    var pg, resets, bound := RunGrants(w, snap, at), OwnerEnv(w, w.unitConfig).resets, NotAfter(w, PeriodStart(w.recs, at));
    QueryStarts(w, snap, at, run);
    ChosenIsLastBreak(pg, resets, snap.at, at, run.segments, bound, i);
    if i != 0 {
      ListedFacts(w, snap.at, at);
      LastBreakMeaning(pg, resets, snap.at, at, bound);
      SegmentRow(w, snap, at, run, i);
      RowSolvent(w, snap, at, run.segments[i].from);
    }
  }

  /** The balance of a run from `from`, without the grants inactive at its end. */
  function ActiveBalance(w: World, from: Time, until: Time, snap: Snapshot): Result<Balance> {
    match RemoveInactive(snap.balances, ListActive(w.grants, from, until), until)
    case Ok(balances) => Ok(Balance(until, balances, snap.overage, snap.usage, snap.grantUsage))
    case Err => Err
  }

  lemma PeriodSnapshotSolvent(w: World, from: Time)
    requires Sensible(w) && Query(w, from).Ok?
    ensures Solvent(PeriodSnapshot(w, from))
  {
    var snap := Resume(w, from);
    var pg, env := RunGrants(w, snap, from), OwnerEnv(w, w.unitConfig);
    ResumeSolvent(w, from);
    FilledGood(w, snap, from);
    OwnerUsageMetered(w);
    assert forall x: Time :: env.usage(x) == OwnerUsage(w)(x);
    WalkGood(pg, env, Filled(pg, snap), snap.at, from);
    ServeGood(pg, Walk(pg, env, Filled(pg, snap), snap.at, from), from, 0.0);
    ActiveMapSolvent(pg, Finish(pg, env, Filled(pg, snap), snap.at, from).bals, from);
  }
}
