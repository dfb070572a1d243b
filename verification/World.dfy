/** One owner's credit state, and the effect of every operation on it as a function of the
    whole state (openmeter/credit/balance.go, grant.go, helper.go, connector.go). */
module World {
  import opened Grants
  import opened Reference
  import opened Balances
  import opened Checkpoints
  import opened UsagePeriods

  datatype World = World(
    recs: seq<UsageRec>, grants: seq<Grant>, rows: seq<Snapshot>, raw: Time -> real,
    unitConfig: Option<UnitConfig>, preserve: bool, grace: nat, now: Time)

  function Start(w: World): Time requires w.recs != [] { w.recs[0].start }

  function MakeEnv(recs: seq<UsageRec>, raw: Time -> real, preserve: bool, config: Option<UnitConfig>): Env
    requires recs != []
  {
    Env(t => Convert(config, raw(t)), t => if IsReset(recs, t) then 1 else 0, preserve)
  }

  function OwnerEnv(w: World, config: Option<UnitConfig>): Env
    requires w.recs != []
  {
    MakeEnv(w.recs, w.raw, w.preserve, config)
  }

  /** The state at `t` computed from the start of measurement over all grants. */
  function Canon(w: World, config: Option<UnitConfig>, t: Time): (s: State)
    requires w.recs != []
    ensures Fits(Prioritize(w.grants), s)
  {
    var gs := Prioritize(w.grants);
    Walk(gs, OwnerEnv(w, config), Initial(gs, Start(w)), Start(w), t)
  }

  // ------------------------------------------------------------ stored rows

  /** GetLatestValidAt: the row with the latest time not after `at`, the newest of equals. */
  function LatestIndex(rows: seq<Snapshot>, at: Time): (i: int)
    ensures -1 <= i < |rows|
  {
    if rows == [] then -1
    else
      var n := |rows| - 1;
      var best := LatestIndex(rows[..n], at);
      if rows[n].at <= at && (best == -1 || rows[best].at <= rows[n].at) then n else best
  }

  function Latest(rows: seq<Snapshot>, at: Time): Option<Snapshot> {
    var i := LatestIndex(rows, at);
    if i == -1 then None else Some(rows[i])
  }

  /** No newer row has the same time. */
  predicate Visible(rows: seq<Snapshot>, i: int) {
    0 <= i < |rows| && forall j :: i < j < |rows| ==> rows[j].at != rows[i].at
  }

  lemma {:induction false} LatestMeaning(rows: seq<Snapshot>, at: Time)
    ensures var i := LatestIndex(rows, at);
      && (i == -1 ==> forall k :: 0 <= k < |rows| ==> rows[k].at > at)
      && (i != -1 ==> Visible(rows, i) && rows[i].at <= at)
      && (i != -1 ==> forall k :: 0 <= k < |rows| && rows[k].at <= at ==> rows[k].at <= rows[i].at)
  {
    if rows != [] {
      var n := |rows| - 1;
      LatestMeaning(rows[..n], at);
      var p := rows[..n];
      assert forall k :: 0 <= k < n ==> p[k] == rows[k];
    }
  }

  function InvalidateAfter(rows: seq<Snapshot>, t: Time): seq<Snapshot> {
    if rows == [] then []
    else InvalidateAfter(rows[..|rows| - 1], t) + if rows[|rows| - 1].at <= t then [rows[|rows| - 1]] else []
  }

  /** Exactly the rows after `t` are lost. */
  lemma {:induction false} InvalidateMembers(rows: seq<Snapshot>, t: Time)
    ensures forall x :: x in InvalidateAfter(rows, t) <==> x in rows && x.at <= t
  {
    if rows != [] {
      var n := |rows| - 1;
      InvalidateMembers(rows[..n], t);
      assert rows == rows[..n] + [rows[n]];
    }
  }

  /** A visible row among those kept was visible before. */
  lemma {:induction false} InvalidateVisible(rows: seq<Snapshot>, t: Time, i: int) returns (j: int)
    requires Visible(InvalidateAfter(rows, t), i)
    ensures Visible(rows, j) && rows[j] == InvalidateAfter(rows, t)[i] && rows[j].at <= t
  {
    var n := |rows| - 1;
    var p, r := InvalidateAfter(rows[..n], t), InvalidateAfter(rows, t);
    if i < |p| {
      assert forall k :: 0 <= k < |p| ==> p[k] == r[k];
      j := InvalidateVisible(rows[..n], t, i);
      assert rows[..n][j] == rows[j];
      assert rows[n].at <= t ==> r[|p|] == rows[n];
      assert forall k :: j < k < n ==> rows[..n][k] == rows[k];
    } else {
      j := n;
    }
  }

  // ----------------------------------------------------------------- queries

  function StartingSnapshot(w: World, at: Time): Snapshot
    requires w.recs != []
  {
    Snapshot(Start(w), Populate(map[], ListActive(w.grants, Start(w), at), Start(w)), 0.0, 0.0, 0.0, None)
  }

  /** GetLastValidSnapshotAt: the latest row if it was computed under the owner's current unit
      config, otherwise the start of measurement. */
  function Resume(w: World, at: Time): Snapshot
    requires w.recs != []
  {
    match Latest(w.rows, at)
    case Some(row) => if row.unitConfig == w.unitConfig then row else StartingSnapshot(w, at)
    case None => StartingSnapshot(w, at)
  }

  function Filled(gs: seq<Grant>, snap: Snapshot): (s: State)
    ensures Fits(gs, s)
  {
    State(FillAll(gs, snap.balances, snap.at), snap.overage, snap.usage, snap.grantUsage)
  }

  datatype Balance = Balance(at: Time, balances: BalanceMap, overage: real, usage: real, grantUsage: real)

  function Report(gs: seq<Grant>, s: State, at: Time): Balance
    requires Fits(gs, s)
  {
    Balance(at, ActiveMap(gs, s.bals, at), s.overage, s.usage, s.burnt)
  }

  /** The grants a run from `snap` to `at` works on, in burn-down order. */
  function RunGrants(w: World, snap: Snapshot, at: Time): seq<Grant> {
    Prioritize(ListActive(w.grants, snap.at, at))
  }

  /** The run is possible: it does not go backwards, starts with no negative grant usage, and knows
      the grant of every balance. */
  predicate Runnable(w: World, snap: Snapshot, at: Time) {
    snap.at <= at && snap.grantUsage >= 0.0 && snap.balances.Keys <= Ids(RunGrants(w, snap, at))
  }

  function QueryFrom(w: World, snap: Snapshot, at: Time): Result<Balance>
    requires w.recs != []
  {
    var gs := RunGrants(w, snap, at);
    if Runnable(w, snap, at) then
      Ok(Report(gs, Finish(gs, OwnerEnv(w, w.unitConfig), Filled(gs, snap), snap.at, at), at))
    else Err
  }

  /** GetBalanceAt. */
  function Query(w: World, at: Time): Result<Balance>
    requires w.recs != []
  {
    QueryFrom(w, Resume(w, at), at)
  }

  function Later(a: Time, b: Time): Time { if a < b then b else a }

  /** getSnapshotNotAfter. */
  function NotAfter(w: World, periodStart: Time): Time {
    Later(w.now - w.grace, periodStart)
  }

  /** A history segment starts at `t` in a run from `from` to `until`. */
  predicate Breaks(gs: seq<Grant>, resets: Time -> nat, from: Time, until: Time, t: Time) {
    from < t <= until && ((t < until && EventAt(gs, t)) || resets(t) > 0 || (t == until && RecursAt(gs, t)))
  }

  function LastBreak(gs: seq<Grant>, resets: Time -> nat, from: Time, until: Time, bound: Time): Option<Time>
    decreases bound - from
  {
    if bound <= from then None
    else if Breaks(gs, resets, from, until, bound) then Some(bound)
    else LastBreak(gs, resets, from, until, bound - 1)
  }

  lemma {:induction false} LastBreakMeaning(gs: seq<Grant>, resets: Time -> nat, from: Time, until: Time, bound: Time)
    ensures var r := LastBreak(gs, resets, from, until, bound);
      && (r.Some? ==> Breaks(gs, resets, from, until, r.value) && r.value <= bound)
      && (forall t :: Breaks(gs, resets, from, until, t) && t <= bound ==> r.Some? && t <= r.value)
    decreases bound - from
  {
    if from < bound && !Breaks(gs, resets, from, until, bound) {
      LastBreakMeaning(gs, resets, from, until, bound - 1);
    }
  }

  /** The row a run from `snap` stores for the history segment starting at `t`. */
  function RowAt(w: World, snap: Snapshot, at: Time, t: Time): Snapshot
    requires w.recs != []
  {
    var gs := RunGrants(w, snap, at);
    var s := Walk(gs, OwnerEnv(w, w.unitConfig), Filled(gs, snap), snap.at, t);
    Snapshot(t, ActiveMap(gs, EnterAll(gs, s.bals, t), t), s.overage, s.usage, s.burnt, w.unitConfig)
  }

  /** The row a run from `snap` adds, at most one: that of the latest segment start that is not
      after the limit. */
  function RowFrom(w: World, snap: Snapshot, at: Time): Option<Snapshot>
    requires w.recs != []
  {
    if !Runnable(w, snap, at) then None
    else
      match LastBreak(RunGrants(w, snap, at), OwnerEnv(w, w.unitConfig).resets, snap.at, at,
                      NotAfter(w, PeriodStart(w.recs, at)))
      case Some(t) => Some(RowAt(w, snap, at, t))
      case None => None
  }

  function QueryRow(w: World, at: Time): Option<Snapshot>
    requires w.recs != []
  {
    RowFrom(w, Resume(w, at), at)
  }

  function AfterQuery(w: World, at: Time, lockFree: bool): World
    requires w.recs != []
  {
    if lockFree && QueryRow(w, at).Some? then w.(rows := w.rows + [QueryRow(w, at).value]) else w
  }

  // ------------------------------------------------------------- operations

  /** CreateGrant, for a grant the repository has given an id to. */
  function Create(w: World, g: Grant): Result<World>
    requires w.recs != []
  {
    if g.amount <= 0.0 || g.effectiveAt < PeriodStart(w.recs, w.now) then Err
    else Ok(w.(grants := [g] + w.grants, rows := InvalidateAfter(w.rows, g.effectiveAt)))
  }

  function VoidIn(gs: seq<Grant>, id: GrantId, at: Time): seq<Grant> {
    seq(|gs|, i requires 0 <= i < |gs| => if gs[i].id == id then gs[i].(voidedAt := Some(at)) else gs[i])
  }

  predicate Voidable(gs: seq<Grant>, id: GrantId) {
    exists i :: 0 <= i < |gs| && gs[i].id == id && gs[i].voidedAt.None?
  }

  /** VoidGrant, now or at the given time. */
  function VoidGrant(w: World, id: GrantId, at: Option<Time>): Result<World>
    requires w.recs != []
  {
    var t := if at.Some? then at.value else w.now;
    if !Voidable(w.grants, id) || t > w.now || t < PeriodStart(w.recs, w.now) then Err
    else Ok(w.(grants := VoidIn(w.grants, id, t), rows := InvalidateAfter(w.rows, t)))
  }

  /** The resets a reset run applies: the recorded ones and the new one, strictly after its start. */
  function ResetEnv(w: World, from: Time, at: Time, preserve: bool): Env
    requires w.recs != []
  {
    Env(t => Convert(w.unitConfig, w.raw(t)),
        t => (if from < t && IsReset(w.recs, t) then 1 else 0) + (if from < t && t == at then 1 else 0),
        preserve)
  }

  function ResetState(w: World, at: Time, preserve: bool): (seq<Grant>, State)
    requires w.recs != []
    ensures Fits(ResetState(w, at, preserve).0, ResetState(w, at, preserve).1)
  {
    var snap := Resume(w, at);
    var gs := RunGrants(w, snap, at);
    (gs, Finish(gs, ResetEnv(w, snap.at, at, preserve), Filled(gs, snap), snap.at, at))
  }

  /** The overage the reset run is left with after rolling over at `at`. */
  function OverageAfterReset(w: World, at: Time, preserve: bool): real
    requires w.recs != []
  {
    var snap := Resume(w, at);
    var gs := RunGrants(w, snap, at);
    Walk(gs, ResetEnv(w, snap.at, at, preserve), Filled(gs, snap), snap.at, at).overage
  }

  function ResetRow(w: World, at: Time, preserve: bool): Snapshot
    requires w.recs != []
  {
    var (gs, s) := ResetState(w, at, preserve);
    Snapshot(at, ActiveMap(gs, s.bals, at), s.overage, s.usage, s.burnt, w.unitConfig)
  }

  predicate ResetAllowed(w: World, at: Time)
    requires w.recs != []
  {
    && at <= w.now
    && PeriodStart(w.recs, w.now) <= at
    && ResetsBetween(w.recs, at, w.now) == []
    && Runnable(w, Resume(w, at), at)
  }

  /** ResetUsageForOwner. */
  function ResetUsage(w: World, at: Time, preserve: bool, retainAnchor: bool): Result<World>
    requires w.recs != []
  {
    if !ResetAllowed(w, at) then Err
    else Ok(w.(rows := InvalidateAfter(w.rows, at) + [ResetRow(w, at, preserve)],
               recs := EndPeriod(w.recs, at, retainAnchor)))
  }

  /** The synthetic snapshot at the start of a queried period. */
  function PeriodSnapshot(w: World, from: Time): Snapshot
    requires w.recs != [] && Query(w, from).Ok?
  {
    var b := Query(w, from).value;
    Snapshot(b.at, b.balances, b.overage, b.usage, b.grantUsage, w.unitConfig)
  }

  /** GetBalanceForPeriod on grants active at its end: a run from the balance at its start. */
  function QueryPeriod(w: World, from: Time, until: Time): Result<Balance>
    requires w.recs != []
  {
    if Query(w, from).Err? then Err else QueryFrom(w, PeriodSnapshot(w, from), until)
  }

  datatype Op =
    | DoQuery(at: Time, lockFree: bool)
    | DoCreate(g: Grant)
    | DoVoid(id: GrantId, voidAt: Option<Time>)
    | DoReset(resetAt: Time, preserve: bool, retainAnchor: bool)
    | SetUnitConfig(config: Option<UnitConfig>)
    | Tick(now: Time)
    | Ingest(raw: Time -> real)

  function OrElse(r: Result<World>, w: World): World {
    if r.Ok? then r.value else w
  }

  /** A failing operation changes nothing. */
  function Apply(w: World, op: Op): (r: World)
    requires w.recs != []
    ensures r.recs != []
  {
    match op
    case DoQuery(at, lockFree) => AfterQuery(w, at, lockFree)
    case DoCreate(g) => OrElse(Create(w, g), w)
    case DoVoid(id, at) => OrElse(VoidGrant(w, id, at), w)
    case DoReset(at, preserve, retain) => OrElse(ResetUsage(w, at, preserve, retain), w)
    case SetUnitConfig(config) => w.(unitConfig := config)
    case Tick(now) => w.(now := now)
    case Ingest(raw) => w.(raw := raw)
  }

  function RunOps(w: World, ops: seq<Op>): (r: World)
    requires w.recs != []
    ensures r.recs != []
    decreases |ops|
  {
    if ops == [] then w else RunOps(Apply(w, ops[0]), ops[1..])
  }
}
