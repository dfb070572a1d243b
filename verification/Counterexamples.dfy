/** Why the conditions of the main results are there: small histories on which the credit
    connector's answers depend on which snapshots were stored. */
module Counterexamples {
  import opened Grants
  import opened Reference
  import opened Balances
  import opened Projection
  import opened Checkpoints
  import opened UsagePeriods
  import opened World
  import opened Resumption
  import opened Transparency
  import opened Preservation
  import opened OwnerResets
  import opened Runs

  function Simple(effectiveAt: Time, amount: real, minRollover: real, maxRollover: real): Grant {
    Grant(1, amount, 1, 0, effectiveAt, None, None, None, minRollover, maxRollover, None)
  }

  /** An owner measured since `m`, with the same usage every minute and no snapshots yet. */
  function Measured(gs: seq<Grant>, usage: real, m: Time, interval: Interval, preserve: bool, now: Time): World {
    World([UsageRec(m, Recurrence(m, interval))], gs, [], t => usage, None, preserve, 0, now)
  }

  lemma MeasuredInv(gs: seq<Grant>, usage: real, m: Time, interval: Interval, preserve: bool, now: Time)
    requires usage >= 0.0 && Distinct(gs) && AllSane(gs)
    ensures Inv(Measured(gs, usage, m, interval, preserve, now))
  {
    var w := Measured(gs, usage, m, interval, preserve, now);
    assert forall i :: !Visible(w.rows, i);
    forall t: Time ensures w.raw(t) >= 0.0 { }
  }

  lemma RunGrantsOne(w: World, g: Grant, snap: Snapshot, at: Time)
    requires w.grants == [g]
    ensures RunGrants(w, snap, at) == if Listed(g, snap.at, at) then [g] else []
    ensures Prioritize(w.grants) == [g]
  {
    assert w.grants[1..] == [] && [g] + [] == [g];
    assert Prioritize([g]) == Insert(g, Prioritize([])) == [g];
    assert ListActive(w.grants, snap.at, at) == if Listed(g, snap.at, at) then [g] else [];
  }

  lemma EnterOne(g: Grant, b: real, t: Time)
    ensures EnterAll([g], [b], t) == [Entered(g, b, t)]
  {
  }

  lemma BurnOne(b: real, u: real)
    ensures Burn([b], u) == Burnt([Keep(b, u)], Rest(b, u))
  {
    assert [b][1..] == [];
  }

  lemma ServeOne(g: Grant, b: real, s: State, t: Time, usage: real)
    requires s.bals == [b]
    ensures var e, u := Entered(g, b, t), usage + s.overage;
      Serve([g], s, t, usage) == State([Keep(e, u)], Rest(e, u), s.usage + usage, s.burnt + (u - Rest(e, u)))
  {
    EnterOne(g, b, t);
    BurnOne(Entered(g, b, t), usage + s.overage);
  }

  lemma ResetOne(g: Grant, b: real, s: State, t: Time)
    requires s.bals == [b]
    ensures var r := if Active(g, t) then Rollover(g, b) else b;
      Reset([g], s, t, true) == State([Keep(r, s.overage)], Rest(r, s.overage), 0.0, s.overage - Rest(r, s.overage)) || s.overage == 0.0
  {
    var r := if Active(g, t) then Rollover(g, b) else b;
    assert RollAll([g], [b], t) == [r];
    BurnOne(r, s.overage);
  }

  lemma WalkMinute(gs: seq<Grant>, env: Env, s: State, m: Time)
    requires Fits(gs, s)
    ensures Walk(gs, env, s, m, m + 1) == Resets(gs, Serve(gs, s, m, env.usage(m)), m + 1, env.preserve, env.resets(m + 1))
  {
    assert Walk(gs, env, s, m, m) == s;
  }

  lemma FilledOne(g: Grant, snap: Snapshot)
    ensures Filled([g], snap) == State([Fill(g, snap.balances, snap.at)], snap.overage, snap.usage, snap.grantUsage)
  {
  }

  lemma ActiveMapOne(g: Grant, b: real, t: Time)
    requires Active(g, t)
    ensures ActiveMap([g], [b], t) == map[g.id := b]
  {
    assert ActiveMap([g][1..], [b][1..], t) == map[];
  }

  // ------------------------------------------------------------ stored snapshots

  /** One grant that takes effect after a minute; two minutes later it is still unused. */
  predicate Unused(w: World, m: Time, g: Grant) {
    && w.grants == [g] && g == Simple(m + 1, 10.0, 0.0, 0.0) && w.rows == [] && w.recs == [UsageRec(m, Recurrence(m, 1000))]
    && w.unitConfig == None && w.grace == 0 && w.now == m + 2
  }

  lemma UnusedBreaks(w: World, m: Time, g: Grant)
    requires Unused(w, m, g)
    ensures PeriodStart(w.recs, m + 2) <= w.now
    ensures LastBreak([g], OwnerEnv(w, None).resets, m, m + 2, NotAfter(w, PeriodStart(w.recs, m + 2))) == Some(m + 1)
  {
    var resets, bound := OwnerEnv(w, None).resets, NotAfter(w, PeriodStart(w.recs, m + 2));
    PeriodStartIsLatestReset(w.recs, m + 2);
    LastBreakMeaning([g], resets, m, m + 2, bound);
    assert Event([g][0], m + 1);
    assert EventAt([g], m + 1) && Breaks([g], resets, m, m + 2, m + 1);
    assert !Breaks([g], resets, m, m + 2, m + 2);
  }

  lemma UnusedRow(w: World, m: Time, g: Grant)
    requires Inv(w) && Unused(w, m, g)
    ensures QueryRow(w, m + 2).Some? && QueryRow(w, m + 2).value.at == m + 1
  {
    RunGrantsOne(w, g, Resume(w, m + 2), m + 2);
    StartRunnable(w, m + 2);
    UnusedBreaks(w, m, g);
  }

  lemma LoneRow(v: World, row: Snapshot)
    requires v.recs != [] && v.rows == [row] && row.unitConfig == v.unitConfig
    ensures Resume(v, row.at) == row
  {
    LatestMeaning([row], row.at);
  }

  lemma NewGrantShows(v: World, m: Time, g: Grant)
    requires v.grants == [g] && g == Simple(m + 1, 10.0, 0.0, 0.0) && v.recs == [UsageRec(m, Recurrence(m, 1000))]
    requires Resume(v, m + 1).at == m + 1
    ensures ShowsNewGrant(v, m + 1)
  {
    RunGrantsOne(v, g, Resume(v, m + 1), m + 1);
    assert v.grants[0] == g;
  }

  lemma StoredShows(v: World, m: Time, g: Grant, row: Snapshot)
    requires Inv(v) && v.grants == [g] && g == Simple(m + 1, 10.0, 0.0, 0.0) && v.recs == [UsageRec(m, Recurrence(m, 1000))]
    requires v.rows == [row] && row.at == m + 1 && row.unitConfig == v.unitConfig
    ensures Query(v, m + 1) != Query(v.(rows := []), m + 1)
  {
    LoneRow(v, row);
    NewGrantShows(v, m, g);
    TransparentIff(v, m + 1);
  }

  lemma AfterUnused(w: World, m: Time, g: Grant)
    requires Inv(w) && Unused(w, m, g)
    ensures Inv(AfterQuery(w, m + 2, true))
    ensures QueryRow(w, m + 2).Some? && AfterQuery(w, m + 2, true) == w.(rows := [QueryRow(w, m + 2).value])
  {
    UnusedRow(w, m, g);
    UnusedBreaks(w, m, g);
    QueryKeepsIff(w, m + 2, true);
  }

  lemma UnusedChanges(w: World, m: Time, g: Grant)
    requires Inv(w) && Unused(w, m, g)
    ensures Query(w, m + 1) != Query(AfterQuery(w, m + 2, true), m + 1)
  {
    UnusedRow(w, m, g);
    AfterUnused(w, m, g);
    var v := AfterQuery(w, m + 2, true);
    assert v.(rows := []) == w;
    StoredShows(v, m, g, QueryRow(w, m + 2).value);
  }

  /** A balance at the moment a grant takes effect is 0 before a query stores a snapshot of that
      moment and the full amount afterwards. */
  lemma AnswerChangesOnceStored(m: Time)
    ensures var w := Measured([Simple(m + 1, 10.0, 0.0, 0.0)], 0.0, m, 1000, false, m + 2);
      Inv(w) && Query(w, m + 1) != Query(AfterQuery(w, m + 2, true), m + 1)
  {
    var g := Simple(m + 1, 10.0, 0.0, 0.0);
    MeasuredInv([g], 0.0, m, 1000, false, m + 2);
    UnusedChanges(Measured([g], 0.0, m, 1000, false, m + 2), m, g);
  }

  lemma UsedStates(env: Env, m: Time, g: Grant)
    requires g == Simple(m + 1, 10.0, 0.0, 0.0) && env.usage(m) == 1.0 && env.resets(m + 1) == 0
    ensures Walk([g], env, Initial([g], m), m, m + 1) == State([0.0], 1.0, 1.0, 0.0)
    ensures BeforeResets([g], env, Initial([g], m), m, m + 1) == State([0.0], 1.0, 1.0, 0.0)
  {
    var s := State([0.0], 0.0, 0.0, 0.0);
    assert Initial([g], m) == s;
    WalkMinute([g], env, s, m);
    ServeOne(g, 0.0, s, m, 1.0);
    assert Walk([g], env, s, m, m) == s;
  }

  lemma UsedMinute(w: World, m: Time, g: Grant)
    requires Inv(w) && w.recs == [UsageRec(m, Recurrence(m, 1000))] && w.grants == [g] && g == Simple(m + 1, 10.0, 0.0, 0.0)
    requires w.unitConfig == None && forall t: Time :: w.raw(t) == 1.0
    ensures Canon(w, None, m + 1) == Due(w, None, m + 1) == State([0.0], 1.0, 1.0, 0.0)
  {
    RunGrantsOne(w, g, Resume(w, m + 1), m + 1);
    assert !IsReset(w.recs, m + 1);
    UsedStates(OwnerEnv(w, None), m, g);
  }

  /** A usable snapshot one minute into the measurement. */
  predicate Stored(v: World, m: Time, g: Grant, row: Snapshot) {
    && v.recs == [UsageRec(m, Recurrence(m, 1000))] && v.grants == [g] && g == Simple(m + 1, 10.0, 0.0, 0.0)
    && v.rows == [row] && row.at == m + 1 && row.unitConfig == v.unitConfig == None && v.now == m + 2
  }

  lemma StoredAllowed(v: World, m: Time, g: Grant, row: Snapshot, preserve: bool)
    requires Inv(v) && Stored(v, m, g, row)
    ensures Resume(v, m + 1) == row && ResetUsage(v, m + 1, preserve, false).Ok?
  {
    LoneRow(v, row);
    ResumeStands(v, m + 1);
    PeriodStartIsLatestReset(v.recs, m + 2);
    NoResetSincePeriodStart(v, m + 1);
  }

  lemma StoredReset(v: World, m: Time, g: Grant, row: Snapshot, preserve: bool)
    requires Inv(v) && Stored(v, m, g, row) && forall t: Time :: v.raw(t) == 1.0
    ensures Resume(v, m + 1) == row && ResetUsage(v, m + 1, preserve, false).Ok?
    ensures ResetRow(v, m + 1, preserve).usage == 1.0
    ensures var u := ResetUsage(v, m + 1, preserve, false).value;
      Canon(u, None, m + 1).usage == 0.0 && !RowOk(u, ResetRow(v, m + 1, preserve))
  {
    StoredAllowed(v, m, g, row, preserve);
    UsedMinute(v, m, g);
    ResetRowStands(v, m + 1, preserve);
    CanonAfterReset(v, m + 1, preserve, false);
    assert SameCounters(Filled(Prioritize(v.grants), ResetRow(v, m + 1, preserve)), Outcome(v, m + 1, preserve));
    ResetRowOkIsSame(v, m + 1, preserve, false);
  }

  /** A reset at the time of a usable snapshot is dropped: its row still counts the unit of usage that
      the reset should have left behind, so it is not a usable one. */
  lemma ResetAtSnapshotIsDropped(m: Time, preserve: bool)
    ensures var w := Measured([Simple(m + 1, 10.0, 0.0, 0.0)], 1.0, m, 1000, false, m + 2);
      var v := AfterQuery(w, m + 2, true);
      && Inv(v) && Resume(v, m + 1).at == m + 1 && ResetUsage(v, m + 1, preserve, false).Ok?
      && ResetRow(v, m + 1, preserve).usage == 1.0
      && var u := ResetUsage(v, m + 1, preserve, false).value;
      Canon(u, None, m + 1).usage == 0.0 && !RowOk(u, ResetRow(v, m + 1, preserve))
  {
    var g := Simple(m + 1, 10.0, 0.0, 0.0);
    var w := Measured([g], 1.0, m, 1000, false, m + 2);
    MeasuredInv([g], 1.0, m, 1000, false, m + 2);
    AfterUnused(w, m, g);
    UnusedRow(w, m, g);
    StoredReset(AfterQuery(w, m + 2, true), m, g, QueryRow(w, m + 2).value, preserve);
  }

  // ------------------------------------------------------------------- resets

  /** Without snapshots a query continues the state of any earlier moment. */
  lemma QueryFromScratch(w: World, at: Time, until: Time)
    requires Inv(w) && w.rows == [] && Start(w) <= at < until
    ensures var gs, env := Prioritize(w.grants), OwnerEnv(w, w.unitConfig);
      Query(w, until) == Ok(Report(gs, Finish(gs, env, Canon(w, w.unitConfig, at), at, until), until))
  {
    QueryMeaning(w, until);
    FinishIsCanon(w, at, until);
  }

  lemma CanonIgnoresRows(w: World, rows: seq<Snapshot>, t: Time)
    requires w.recs != []
    ensures Canon(w.(rows := rows), w.unitConfig, t) == Canon(w, w.unitConfig, t)
  {
  }

  /** A query that resumes from a row continues the state the row stands for. */
  lemma QueryFromRow(w: World, row: Snapshot, c: State, until: Time)
    requires w.recs != [] && Distinct(w.grants) && AllSane(w.grants) && row.at < until
    requires Resume(w, until) == row && Covered(Prioritize(w.grants), row)
    requires Fits(Prioritize(w.grants), c) && c.burnt >= 0.0 && Stands(Prioritize(w.grants), c, row)
    ensures var gs, env := Prioritize(w.grants), OwnerEnv(w, w.unitConfig);
      Query(w, until) == Ok(Report(gs, Finish(gs, env, c, row.at, until), until))
  {
    CoveredIsRunnable(w, row, until);
    ResumeFinishes(w, OwnerEnv(w, w.unitConfig), c, row, until);
  }

  lemma SettledBurnt(w: World, config: Option<UnitConfig>, t: Time)
    requires w.recs != [] && Distinct(w.grants) && AllSane(w.grants) && Metered(w.raw)
    ensures Settle(Prioritize(w.grants), Canon(w, config, t), t).burnt >= 0.0
  {
    SortedGrants(w);
    CanonGood(w, config, t);
    ServeGood(Prioritize(w.grants), Canon(w, config, t), t, 0.0);
  }

  /** Recomputation continues the state itself. */
  lemma ScratchQueryAfterReset(w: World, at: Time, preserve: bool, retain: bool, until: Time)
    requires Inv(w) && ResetUsage(w, at, preserve, retain).Ok? && FreshReset(w, at, preserve) && at < until
    ensures var v := ResetUsage(w, at, preserve, retain).value;
      var gs, env, c := Prioritize(w.grants), OwnerEnv(v, w.unitConfig), Canon(v, w.unitConfig, at);
      Query(v.(rows := []), until) == Ok(Report(gs, Finish(gs, env, c, at, until), until))
  {
    var v := ResetUsage(w, at, preserve, retain).value;
    EndCurrentPeriod(w.recs, at, retain, w.now);
    ResumeStands(w, at);
    CanonIgnoresRows(v, [], at);
    QueryFromScratch(v.(rows := []), at, until);
  }

  /** The next queries resume from the state the reset settled, instead of the state itself. */
  lemma QueriesAfterReset(w: World, at: Time, preserve: bool, retain: bool, until: Time)
    requires Inv(w) && ResetUsage(w, at, preserve, retain).Ok? && FreshReset(w, at, preserve) && at < until
    ensures var v := ResetUsage(w, at, preserve, retain).value;
      var gs, env, c := Prioritize(w.grants), OwnerEnv(v, w.unitConfig), Canon(v, w.unitConfig, at);
      && Query(v, until) == Ok(Report(gs, Finish(gs, env, Settle(gs, c, at), at, until), until))
      && Query(v.(rows := []), until) == Ok(Report(gs, Finish(gs, env, c, at, until), until))
  {
    var v := ResetUsage(w, at, preserve, retain).value;
    var c := Canon(v, w.unitConfig, at);
    ResetRowSettles(w, at, preserve, retain);
    LatestAfterReset(w.rows, ResetRow(w, at, preserve), until);
    SettledBurnt(v, w.unitConfig, at);
    QueryFromRow(v, ResetRow(w, at, preserve), Settle(Prioritize(w.grants), c, at), until);
    ScratchQueryAfterReset(w, at, preserve, retain, until);
  }

  lemma LatestAfterReset(rows: seq<Snapshot>, row: Snapshot, until: Time)
    requires row.at <= until
    ensures Latest(InvalidateAfter(rows, row.at) + [row], until) == Some(row)
  {
    var kept := InvalidateAfter(rows, row.at);
    InvalidateMembers(rows, row.at);
    LatestMeaning(kept, until);
    assert (kept + [row])[..|kept|] == kept;
    var i := LatestIndex(kept, until);
    if i != -1 { assert kept[i] in kept; }
  }

  /** Ten units take effect after a minute; one unit of usage a minute, a reset after the first. */
  lemma ForgivenStates(env: Env, m: Time, g: Grant)
    requires ResetBetween(env, m) && g == Simple(m + 1, 10.0, 0.0, 0.0)
    ensures var c := Walk([g], env, Initial([g], m), m, m + 1);
      && Finish([g], env, c, m + 1, m + 2) == State([8.0], 0.0, 1.0, 2.0)
      && Finish([g], env, Settle([g], c, m + 1), m + 1, m + 2) == State([9.0], 0.0, 1.0, 2.0)
  {
    var s0, c, d := Initial([g], m), State([0.0], 1.0, 0.0, 0.0), State([9.0], 0.0, 0.0, 1.0);
    WalkMinute([g], env, s0, m);
    ServeOne(g, 0.0, s0, m, 1.0);
    ResetOne(g, 0.0, State([0.0], 1.0, 1.0, 0.0), m + 1);
    assert Walk([g], env, s0, m, m + 1) == c;
    WalkMinute([g], env, c, m + 1);
    ServeOne(g, 0.0, c, m + 1, 1.0);
    ServeOne(g, 0.0, c, m + 1, 0.0);
    WalkMinute([g], env, d, m + 1);
    ServeOne(g, 9.0, d, m + 1, 1.0);
    assert !RecursAt([g], m + 2);
  }

  predicate Overdue(w: World, m: Time, g: Grant) {
    Preserving(w.(grants := []), m) && w.grants == [g] && g == Simple(m + 1, 10.0, 0.0, 0.0)
  }

  lemma OverdueReset(w: World, m: Time, g: Grant)
    requires Inv(w) && Overdue(w, m, g) && forall t: Time :: w.raw(t) == 1.0
    ensures ResetUsage(w, m + 1, true, false).Ok? && FreshReset(w, m + 1, true)
    ensures ResetBetween(OwnerEnv(ResetUsage(w, m + 1, true, false).value, None), m)
  {
    PeriodStartIsLatestReset(w.recs, m + 1);
    FirstReset(w, m + 1, true, false);
  }

  lemma OverdueAnswers(w: World, m: Time, g: Grant)
    requires Inv(w) && Overdue(w, m, g) && forall t: Time :: w.raw(t) == 1.0
    ensures ResetUsage(w, m + 1, true, false).Ok? && FreshReset(w, m + 1, true)
    ensures var v := ResetUsage(w, m + 1, true, false).value;
      && Query(v, m + 2) == Ok(Balance(m + 2, map[1 := 9.0], 0.0, 1.0, 2.0))
      && Query(v.(rows := []), m + 2) == Ok(Balance(m + 2, map[1 := 8.0], 0.0, 1.0, 2.0))
  {
    OverdueReset(w, m, g);
    QueriesAfterReset(w, m + 1, true, false, m + 2);
    ForgivenStates(OwnerEnv(ResetUsage(w, m + 1, true, false).value, None), m, g);
    RunGrantsOne(w, g, Resume(w, m + 1), m + 1);
    ActiveMapOne(g, 8.0, m + 2);
    ActiveMapOne(g, 9.0, m + 2);
  }

  /** A reset that preserves overage, at the moment a grant takes effect, burns the overage from
      the grant; later queries refill the grant in full and forgive it. */
  lemma ResetForgivesOverage(m: Time)
    ensures var w := Measured([Simple(m + 1, 10.0, 0.0, 0.0)], 1.0, m, 1000, true, m + 1);
      && Inv(w) && ResetUsage(w, m + 1, true, false).Ok? && FreshReset(w, m + 1, true)
      && var v := ResetUsage(w, m + 1, true, false).value;
      && Query(v, m + 2) == Ok(Balance(m + 2, map[1 := 9.0], 0.0, 1.0, 2.0))
      && Query(v.(rows := []), m + 2) == Ok(Balance(m + 2, map[1 := 8.0], 0.0, 1.0, 2.0))
  {
    var g := Simple(m + 1, 10.0, 0.0, 0.0);
    MeasuredInv([g], 1.0, m, 1000, true, m + 1);
    OverdueAnswers(Measured([g], 1.0, m, 1000, true, m + 1), m, g);
  }

  /** The first reset of an owner without snapshots runs from the start of measurement. */
  lemma FirstReset(w: World, at: Time, preserve: bool, retain: bool)
    requires Inv(w) && w.rows == [] && Start(w) < at <= w.now && PeriodStart(w.recs, w.now) <= at
    ensures ResetUsage(w, at, preserve, retain).Ok?
    ensures var gs := Prioritize(w.grants);
      OverageAfterReset(w, at, preserve) == Walk(gs, ResetEnv(w, Start(w), at, preserve), Initial(gs, Start(w)), Start(w), at).overage
  {
    var snap, gs := Resume(w, at), Prioritize(w.grants);
    assert snap == StartingSnapshot(w, at);
    StartRunnable(w, at);
    StartStands(w, at);
    NoResetSincePeriodStart(w, at);
    ResumeWalks(w, ResetEnv(w, Start(w), at, preserve), Initial(gs, Start(w)), snap, at, at);
  }

  lemma EmptyMinute(env: Env, o: real, u: real, b: real, m: Time)
    requires env.usage(m) == 1.0 && env.resets(m + 1) <= 1
    ensures var r := Walk([], env, State([], o, u, b), m, m + 1);
      r.bals == [] && r.overage == if env.resets(m + 1) == 0 || env.preserve then o + 1.0 else 0.0
  {
    WalkMinute([], env, State([], o, u, b), m);
  }

  /** One unit of usage a minute for three minutes and a reset after two. */
  ghost predicate ThreeMinutes(env: Env, m: Time) {
    && env.usage(m) == env.usage(m + 1) == env.usage(m + 2) == 1.0 && env.resets(m + 1) == 0 && env.resets(m + 2) == 1
    && env.resets(m + 3) <= 1 && (env.preserve || env.resets(m + 3) == 0)
  }

  lemma EmptyStates(env: Env, m: Time)
    requires ThreeMinutes(env, m)
    ensures Walk([], env, Initial([], m), m, m + 3).overage == if env.preserve then 3.0 else 1.0
  {
    var s0 := State([], 0.0, 0.0, 0.0);
    assert Initial([], m) == s0;
    EmptyMinute(env, 0.0, 0.0, 0.0, m);
    var s1 := Walk([], env, s0, m, m + 1);
    EmptyMinute(env, s1.overage, s1.usage, s1.burnt, m + 1);
    var s2 := Walk([], env, s1, m + 1, m + 2);
    EmptyMinute(env, s2.overage, s2.usage, s2.burnt, m + 2);
    WalkSplits([], env, s0, m, m + 1, m + 2);
    WalkSplits([], env, s0, m, m + 2, m + 3);
  }

  /** A reset recurs every other minute; the owner drops overage. */
  predicate EveryOther(w: World, m: Time) {
    && w.grants == [] && w.rows == [] && w.recs == [UsageRec(m, Recurrence(m, 2))] && w.now == m + 3
    && w.unitConfig == None && !w.preserve
  }

  lemma EveryOtherMinute(recs: seq<UsageRec>, m: Time)
    requires recs == [UsageRec(m, Recurrence(m, 2))]
    ensures !IsReset(recs, m + 1) && IsReset(recs, m + 2) && !IsReset(recs, m + 3) && PeriodStart(recs, m + 3) <= m + 3
  {
    PeriodStartIsLatestReset(recs, m + 3);
  }

  lemma EveryOtherEnvs(w: World, m: Time)
    requires EveryOther(w, m) && forall t: Time :: w.raw(t) == 1.0
    ensures ThreeMinutes(OwnerEnv(w, None), m) && ThreeMinutes(ResetEnv(w, m, m + 3, true), m)
  {
    EveryOtherMinute(w.recs, m);
  }

  lemma PreservedBack(w: World, m: Time)
    requires Inv(w) && EveryOther(w, m) && forall t: Time :: w.raw(t) == 1.0
    ensures ResetUsage(w, m + 3, true, false).Ok?
    ensures OverageAfterReset(w, m + 3, true) == 3.0 && Canon(w, None, m + 3).overage == 1.0
  {
    EveryOtherMinute(w.recs, m);
    FirstReset(w, m + 3, true, false);
    EveryOtherEnvs(w, m);
    EmptyStates(OwnerEnv(w, None), m);
    EmptyStates(ResetEnv(w, m, m + 3, true), m);
  }

  /** The reset's choice to preserve overage is applied to earlier resets too: three units are
      preserved, although the owner's reset after two minutes dropped two of them. */
  lemma OverrideReachesBack(m: Time)
    ensures var w := Measured([], 1.0, m, 2, false, m + 3);
      && Inv(w) && ResetUsage(w, m + 3, true, false).Ok?
      && OverageAfterReset(w, m + 3, true) == 3.0 && Canon(w, None, m + 3).overage == 1.0
  {
    MeasuredInv([], 1.0, m, 2, false, m + 3);
    PreservedBack(Measured([], 1.0, m, 2, false, m + 3), m);
  }

  /** Seven units of usage; after a minute a reset that rolls the empty grant over to five. */
  lemma TwiceStates(env: Env, m: Time, g: Grant)
    requires env.usage(m) == 7.0 && env.preserve && 1 <= env.resets(m + 1) <= 2 && g == Simple(m, 0.0, 5.0, 5.0)
    ensures Walk([g], env, Initial([g], m), m, m + 1).overage == if env.resets(m + 1) == 1 then 2.0 else 0.0
  {
    var s0, s1, s2 := Initial([g], m), State([0.0], 7.0, 7.0, 0.0), State([0.0], 2.0, 0.0, 5.0);
    WalkMinute([g], env, s0, m);
    ServeOne(g, 0.0, s0, m, 7.0);
    ResetOne(g, 0.0, s1, m + 1);
    ServeOne(g, 0.0, s2, m + 1, 0.0);
    ResetOne(g, 0.0, s2, m + 1);
    assert Resets([g], s1, m + 1, true, 1) == s2;
    assert Settle([g], s2, m + 1) == s2;
  }

  predicate EveryMinute(w: World, m: Time, g: Grant) {
    && w.grants == [g] && g == Simple(m, 0.0, 5.0, 5.0) && w.rows == [] && w.recs == [UsageRec(m, Recurrence(m, 1))]
    && w.now == m + 1 && w.unitConfig == None && w.preserve
  }

  lemma EveryMinuteReset(w: World, m: Time, g: Grant)
    requires EveryMinute(w, m, g)
    ensures PeriodStart(w.recs, m + 1) <= m + 1 && IsReset(w.recs, m + 1)
    ensures OwnerEnv(w, None).resets(m + 1) == 1 && ResetEnv(w, m, m + 1, true).resets(m + 1) == 2
  {
    PeriodStartIsLatestReset(w.recs, m + 1);
  }

  lemma CountedTwice(w: World, m: Time, g: Grant)
    requires Inv(w) && EveryMinute(w, m, g) && forall t: Time :: w.raw(t) == 7.0
    ensures ResetUsage(w, m + 1, true, false).Ok?
    ensures OverageAfterReset(w, m + 1, true) == 0.0 && Canon(w, None, m + 1).overage == 2.0
  {
    EveryMinuteReset(w, m, g);
    FirstReset(w, m + 1, true, false);
    RunGrantsOne(w, g, Resume(w, m + 1), m + 1);
    TwiceStates(ResetEnv(w, m, m + 1, true), m, g);
    TwiceStates(OwnerEnv(w, None), m, g);
  }

  /** A reset at a recorded reset that has no snapshot yet is applied twice. */
  lemma RecordedResetCountsTwice(m: Time)
    ensures var w := Measured([Simple(m, 0.0, 5.0, 5.0)], 7.0, m, 1, true, m + 1);
      && Inv(w) && ResetUsage(w, m + 1, true, false).Ok?
      && OverageAfterReset(w, m + 1, true) == 0.0 && Canon(w, None, m + 1).overage == 2.0
  {
    var g := Simple(m, 0.0, 5.0, 5.0);
    MeasuredInv([g], 7.0, m, 1, true, m + 1);
    CountedTwice(Measured([g], 7.0, m, 1, true, m + 1), m, g);
  }

  // ------------------------------------------------------- grants at a reset

  /** The owner after a reset one minute into the measurement that stored the row. */
  predicate AfterReset(v: World, m: Time, g: Grant, row: Snapshot) {
    && v.recs == [UsageRec(m, Recurrence(m, 1000)), UsageRec(m + 1, Recurrence(m + 1, 1000))]
    && v.grants == [g] && v.rows == [row] && row.at == m + 1 && row.grantUsage >= 0.0 && row.unitConfig == v.unitConfig == None
    && v.now == m + 1 && v.preserve
  }

  /** One unit of usage in each of two minutes, and a reset between them. */
  ghost predicate ResetBetween(env: Env, m: Time) {
    env.usage(m) == env.usage(m + 1) == 1.0 && env.preserve && env.resets(m + 1) == 1 && env.resets(m + 2) == 0
  }

  lemma AfterResetEnv(v: World, m: Time, g: Grant, row: Snapshot)
    requires AfterReset(v, m, g, row) && forall t: Time :: v.raw(t) == 1.0
    ensures ResetBetween(OwnerEnv(v, None), m)
    ensures Prioritize(v.grants) == [g] && Resume(v, m + 2) == row
  {
    RunGrantsOne(v, g, row, m + 2);
    LatestMeaning([row], m + 2);
  }

  lemma ResumedAfterReset(v: World, m: Time, g: Grant, row: Snapshot)
    requires AfterReset(v, m, g, row) && Sane(g) && Covered([g], row) && forall t: Time :: v.raw(t) == 1.0
    ensures Query(v, m + 2) == Ok(Report([g], Finish([g], OwnerEnv(v, None), Filled([g], row), m + 1, m + 2), m + 2))
  {
    AfterResetEnv(v, m, g, row);
    QueryFromRow(v, row, Filled([g], row), m + 2);
  }

  lemma ScratchAfterReset(v: World, m: Time, g: Grant, row: Snapshot)
    requires AfterReset(v, m, g, row) && Sane(g) && forall t: Time :: v.raw(t) == 1.0
    ensures var env := OwnerEnv(v, None);
      Query(v.(rows := []), m + 2) ==
        Ok(Report([g], Finish([g], env, Walk([g], env, Initial([g], m), m, m + 1), m + 1, m + 2), m + 2))
  {
    AfterResetEnv(v, m, g, row);
    var u := v.(rows := []);
    assert Inv(u);
    QueryFromScratch(u, m + 1, m + 2);
  }

  lemma CreatedStates(env: Env, m: Time, g: Grant)
    requires ResetBetween(env, m) && g == Simple(m + 1, 10.0, 5.0, 5.0)
    ensures Finish([g], env, Walk([g], env, Initial([g], m), m, m + 1), m + 1, m + 2).bals == [9.0]
    ensures Finish([g], env, State([10.0], 1.0, 0.0, 0.0), m + 1, m + 2).bals == [8.0]
  {
    var s0, s1, c, d := Initial([g], m), State([0.0], 1.0, 1.0, 0.0), State([4.0], 0.0, 0.0, 1.0), State([10.0], 1.0, 0.0, 0.0);
    WalkMinute([g], env, s0, m);
    ServeOne(g, 0.0, s0, m, 1.0);
    ResetOne(g, 0.0, s1, m + 1);
    assert Walk([g], env, s0, m, m + 1) == c;
    WalkMinute([g], env, c, m + 1);
    ServeOne(g, 4.0, c, m + 1, 1.0);
    WalkMinute([g], env, d, m + 1);
    ServeOne(g, 10.0, d, m + 1, 1.0);
  }

  /** An owner without grants; overage is preserved. */
  predicate Preserving(w: World, m: Time) {
    && w.grants == [] && w.rows == [] && w.recs == [UsageRec(m, Recurrence(m, 1000))] && w.now == m + 1
    && w.unitConfig == None && w.preserve
  }

  lemma PreservingReset(w: World, m: Time)
    requires Inv(w) && Preserving(w, m)
    ensures ResetUsage(w, m + 1, true, false).Ok? && FreshReset(w, m + 1, true)
    ensures ResetUsage(w, m + 1, true, false).value.recs == [UsageRec(m, Recurrence(m, 1000)), UsageRec(m + 1, Recurrence(m + 1, 1000))]
  {
    PeriodStartIsLatestReset(w.recs, m + 1);
    FirstReset(w, m + 1, true, false);
  }

  lemma PreservedOverage(w: World, m: Time)
    requires Inv(w) && Preserving(w, m) && forall t: Time :: w.raw(t) == 1.0
    ensures ResetUsage(w, m + 1, true, false).Ok? && ResetRow(w, m + 1, true) == Snapshot(m + 1, map[], 1.0, 0.0, 0.0, None)
  {
    PreservingReset(w, m);
    var v := ResetUsage(w, m + 1, true, false).value;
    var row, s0, env := ResetRow(w, m + 1, true), State([], 0.0, 0.0, 0.0), OwnerEnv(v, None);
    ResetRowSettles(w, m + 1, true, false);
    assert Initial([], m) == s0 && env.resets(m + 1) == 1;
    WalkMinute([], env, s0, m);
    assert Canon(v, None, m + 1) == State([], 1.0, 0.0, 0.0);
    assert row.balances == map[];
  }

  lemma CreatedAtReset(w: World, m: Time, g: Grant)
    requires Inv(w) && Preserving(w, m) && (forall t: Time :: w.raw(t) == 1.0) && g == Simple(m + 1, 10.0, 5.0, 5.0)
    ensures ResetUsage(w, m + 1, true, false).Ok?
    ensures var r := ResetUsage(w, m + 1, true, false).value;
      Create(r, g).Ok? && AfterReset(Create(r, g).value, m, g, Snapshot(m + 1, map[], 1.0, 0.0, 0.0, None))
  {
    PreservingReset(w, m);
    PreservedOverage(w, m);
    PeriodStartIsLatestReset(ResetUsage(w, m + 1, true, false).value.recs, m + 1);
  }

  lemma CreatedDiffers(w: World, m: Time, g: Grant)
    requires Inv(w) && Preserving(w, m) && (forall t: Time :: w.raw(t) == 1.0) && g == Simple(m + 1, 10.0, 5.0, 5.0)
    ensures ResetUsage(w, m + 1, true, false).Ok? && Create(ResetUsage(w, m + 1, true, false).value, g).Ok?
    ensures var v := Create(ResetUsage(w, m + 1, true, false).value, g).value;
      && Query(v, m + 2).Ok? && Query(v, m + 2).value.balances == map[1 := 8.0]
      && Query(v.(rows := []), m + 2).Ok? && Query(v.(rows := []), m + 2).value.balances == map[1 := 9.0]
  {
    CreatedAtReset(w, m, g);
    var v, row := Create(ResetUsage(w, m + 1, true, false).value, g).value, Snapshot(m + 1, map[], 1.0, 0.0, 0.0, None);
    AfterResetEnv(v, m, g, row);
    ResumedAfterReset(v, m, g, row);
    ScratchAfterReset(v, m, g, row);
    FilledOne(g, row);
    CreatedStates(OwnerEnv(v, None), m, g);
    ActiveMapOne(g, 8.0, m + 2);
    ActiveMapOne(g, 9.0, m + 2);
  }

  /** A grant created for the very moment of the last reset was not there to roll over: the
      snapshot of the reset, which is kept, and recomputing from the start disagree. */
  lemma CreateAtResetDiffers(m: Time)
    ensures var w, g := Measured([], 1.0, m, 1000, true, m + 1), Simple(m + 1, 10.0, 5.0, 5.0);
      && Inv(w) && ResetUsage(w, m + 1, true, false).Ok? && Create(ResetUsage(w, m + 1, true, false).value, g).Ok?
      && var v := Create(ResetUsage(w, m + 1, true, false).value, g).value;
      && Query(v, m + 2).Ok? && Query(v, m + 2).value.balances == map[1 := 8.0]
      && Query(v.(rows := []), m + 2).Ok? && Query(v.(rows := []), m + 2).value.balances == map[1 := 9.0]
  {
    MeasuredInv([], 1.0, m, 1000, true, m + 1);
    CreatedDiffers(Measured([], 1.0, m, 1000, true, m + 1), m, Simple(m + 1, 10.0, 5.0, 5.0));
  }

  lemma VoidedStates(env: Env, m: Time, g: Grant)
    requires ResetBetween(env, m) && g == Simple(m, 0.0, 5.0, 5.0)
    ensures Walk([g], env, Initial([g], m), m, m + 1) == State([4.0], 0.0, 0.0, 1.0)
    ensures var h := g.(voidedAt := Some(m + 1));
      && Finish([h], env, Walk([h], env, Initial([h], m), m, m + 1), m + 1, m + 2).overage == 2.0
      && forall b, u, x :: Finish([h], env, State([b], 0.0, u, x), m + 1, m + 2).overage == 1.0
  {
    var h := g.(voidedAt := Some(m + 1));
    var s0, s1, c := Initial([g], m), State([0.0], 1.0, 1.0, 0.0), State([0.0], 1.0, 0.0, 0.0);
    WalkMinute([g], env, s0, m);
    ServeOne(g, 0.0, s0, m, 1.0);
    ResetOne(g, 0.0, s1, m + 1);
    assert Initial([h], m) == s0;
    WalkMinute([h], env, s0, m);
    ServeOne(h, 0.0, s0, m, 1.0);
    ResetOne(h, 0.0, s1, m + 1);
    assert Walk([h], env, s0, m, m + 1) == c;
    WalkMinute([h], env, c, m + 1);
    ServeOne(h, 0.0, c, m + 1, 1.0);
    forall b, u, x ensures Finish([h], env, State([b], 0.0, u, x), m + 1, m + 2).overage == 1.0 {
      WalkMinute([h], env, State([b], 0.0, u, x), m + 1);
      ServeOne(h, b, State([b], 0.0, u, x), m + 1, 1.0);
    }
  }

  /** A grant of nothing that every reset rolls over to five. */
  predicate Rolling(w: World, m: Time, g: Grant) {
    Preserving(w.(grants := []), m) && w.grants == [g] && g == Simple(m, 0.0, 5.0, 5.0)
  }

  lemma RollingReset(w: World, m: Time, g: Grant)
    requires Inv(w) && Rolling(w, m, g) && forall t: Time :: w.raw(t) == 1.0
    ensures ResetUsage(w, m + 1, true, false).Ok? && FreshReset(w, m + 1, true)
    ensures ResetUsage(w, m + 1, true, false).value.recs == [UsageRec(m, Recurrence(m, 1000)), UsageRec(m + 1, Recurrence(m + 1, 1000))]
    ensures ResetBetween(OwnerEnv(ResetUsage(w, m + 1, true, false).value, None), m)
  {
    PeriodStartIsLatestReset(w.recs, m + 1);
    FirstReset(w, m + 1, true, false);
  }

  lemma RolledRow(w: World, m: Time, g: Grant)
    requires Inv(w) && Rolling(w, m, g) && forall t: Time :: w.raw(t) == 1.0
    ensures ResetUsage(w, m + 1, true, false).Ok?
    ensures var row := ResetRow(w, m + 1, true);
      row.at == m + 1 && row.overage == 0.0 && row.grantUsage >= 0.0 && row.unitConfig == None && Covered([g], row)
  {
    RollingReset(w, m, g);
    ResetRowSettles(w, m + 1, true, false);
    RunGrantsOne(w, g, Resume(w, m + 1), m + 1);
    VoidedStates(OwnerEnv(ResetUsage(w, m + 1, true, false).value, None), m, g);
    ServeOne(g, 4.0, State([4.0], 0.0, 0.0, 1.0), m + 1, 0.0);
  }

  lemma VoidedAtReset(r: World, m: Time, g: Grant)
    requires r.recs == [UsageRec(m, Recurrence(m, 1000)), UsageRec(m + 1, Recurrence(m + 1, 1000))] && r.now == m + 1
    requires r.grants == [g] && g == Simple(m, 0.0, 5.0, 5.0)
    ensures var v := VoidGrant(r, 1, Some(m + 1));
      v.Ok? && v.value == r.(grants := [g.(voidedAt := Some(m + 1))], rows := InvalidateAfter(r.rows, m + 1))
  {
    PeriodStartIsLatestReset(r.recs, m + 1);
    assert Voidable(r.grants, 1) by { assert r.grants[0].id == 1; }
    assert VoidIn(r.grants, 1, m + 1) == [g.(voidedAt := Some(m + 1))];
  }

  lemma VoidedDiffers(w: World, m: Time, g: Grant)
    requires Inv(w) && Rolling(w, m, g) && forall t: Time :: w.raw(t) == 1.0
    ensures ResetUsage(w, m + 1, true, false).Ok? && VoidGrant(ResetUsage(w, m + 1, true, false).value, 1, Some(m + 1)).Ok?
    ensures var v := VoidGrant(ResetUsage(w, m + 1, true, false).value, 1, Some(m + 1)).value;
      && Query(v, m + 2).Ok? && Query(v, m + 2).value.overage == 1.0
      && Query(v.(rows := []), m + 2).Ok? && Query(v.(rows := []), m + 2).value.overage == 2.0
  {
    RolledRow(w, m, g);
    RollingReset(w, m, g);
    var r, row, h := ResetUsage(w, m + 1, true, false).value, ResetRow(w, m + 1, true), g.(voidedAt := Some(m + 1));
    VoidedAtReset(r, m, g);
    VoidKeepsCover([g], 1, m + 1, row);
    assert VoidIn([g], 1, m + 1) == [h];
    AnswersAfterVoid(VoidGrant(r, 1, Some(m + 1)).value, m, g, h, row);
  }

  lemma AnswersAfterVoid(v: World, m: Time, g: Grant, h: Grant, row: Snapshot)
    requires AfterReset(v, m, h, row) && row.overage == 0.0 && Covered([h], row) && forall t: Time :: v.raw(t) == 1.0
    requires g == Simple(m, 0.0, 5.0, 5.0) && h == g.(voidedAt := Some(m + 1))
    ensures Query(v, m + 2).Ok? && Query(v, m + 2).value.overage == 1.0
    ensures Query(v.(rows := []), m + 2).Ok? && Query(v.(rows := []), m + 2).value.overage == 2.0
  {
    AfterResetEnv(v, m, h, row);
    ResumedAfterReset(v, m, h, row);
    ScratchAfterReset(v, m, h, row);
    FilledOne(h, row);
    VoidedStates(OwnerEnv(v, None), m, g);
  }

  /** A grant voided at the very moment of the last reset had rolled over there: again the kept
      snapshot of the reset and recomputing from the start disagree. */
  lemma VoidAtResetDiffers(m: Time)
    ensures var w := Measured([Simple(m, 0.0, 5.0, 5.0)], 1.0, m, 1000, true, m + 1);
      && Inv(w) && ResetUsage(w, m + 1, true, false).Ok? && VoidGrant(ResetUsage(w, m + 1, true, false).value, 1, Some(m + 1)).Ok?
      && var v := VoidGrant(ResetUsage(w, m + 1, true, false).value, 1, Some(m + 1)).value;
      && Query(v, m + 2).Ok? && Query(v, m + 2).value.overage == 1.0
      && Query(v.(rows := []), m + 2).Ok? && Query(v.(rows := []), m + 2).value.overage == 2.0
  {
    var g := Simple(m, 0.0, 5.0, 5.0);
    MeasuredInv([g], 1.0, m, 1000, true, m + 1);
    VoidedDiffers(Measured([g], 1.0, m, 1000, true, m + 1), m, g);
  }

  // ------------------------------------------------------------ period queries

  function Recurring(m: Time): Grant {
    Simple(m, 10.0, 0.0, 0.0).(recurrence := Some(Recurrence(m + 1, 1000)))
  }

  lemma RecurringStates(env: Env, m: Time)
    requires env.usage(m) == env.usage(m + 1) == 11.0 && env.resets(m + 1) == env.resets(m + 2) == 0
    ensures var g := Recurring(m);
      var c := Walk([g], env, Initial([g], m), m, m + 1);
      && Settle([g], c, m + 1) == State([9.0], 0.0, 11.0, 11.0)
      && Finish([g], env, c, m + 1, m + 2).overage == 2.0
      && Finish([g], env, State([9.0], 0.0, 11.0, 11.0), m + 1, m + 2).overage == 1.0
  {
    var g := Recurring(m);
    var s0, c, d := Initial([g], m), State([0.0], 1.0, 11.0, 10.0), State([9.0], 0.0, 11.0, 11.0);
    assert s0 == State([10.0], 0.0, 0.0, 0.0);
    WalkMinute([g], env, s0, m);
    ServeOne(g, 10.0, s0, m, 11.0);
    ServeOne(g, 0.0, c, m + 1, 0.0);
    WalkMinute([g], env, c, m + 1);
    ServeOne(g, 0.0, c, m + 1, 11.0);
    WalkMinute([g], env, d, m + 1);
    ServeOne(g, 9.0, d, m + 1, 11.0);
    assert !RecursAt([g], m + 2);
  }

  /** One grant of ten that recurs after the first minute, eleven units of usage a minute. */
  predicate Overdrawn(w: World, m: Time) {
    w.grants == [Recurring(m)] && w.rows == [] && w.recs == [UsageRec(m, Recurrence(m, 1000))] && w.unitConfig == None
  }

  lemma RecurringRecurs(m: Time)
    ensures RecursAt([Recurring(m)], m + 1)
  {
    var g := Recurring(m);
    assert Recurs(g, m + 1) && [g][0] == g;
  }

  lemma OverdrawnSettles(w: World, m: Time)
    requires Inv(w) && Overdrawn(w, m)
    ensures Prioritize(w.grants) == [Recurring(m)]
    ensures Query(w, m + 1) == Ok(Answer(w, m + 1, true))
  {
    RunGrantsOne(w, Recurring(m), Resume(w, m + 1), m + 1);
    RecurringRecurs(m);
    QueryMeaning(w, m + 1);
    assert Settles(w, m + 1);
  }

  lemma OverdrawnAnswer(w: World, m: Time)
    requires Inv(w) && Overdrawn(w, m) && forall t: Time :: w.raw(t) == 11.0
    ensures Query(w, m + 1) == Ok(Balance(m + 1, map[1 := 9.0], 0.0, 11.0, 11.0))
  {
    OverdrawnSettles(w, m);
    RecurringStates(OwnerEnv(w, None), m);
    ActiveMapOne(Recurring(m), 9.0, m + 1);
  }

  lemma OverdrawnNext(w: World, m: Time)
    requires Inv(w) && Overdrawn(w, m) && forall t: Time :: w.raw(t) == 11.0
    ensures Query(w, m + 2).Ok? && Query(w, m + 2).value.overage == 2.0
  {
    RunGrantsOne(w, Recurring(m), Resume(w, m + 1), m + 1);
    QueryFromScratch(w, m + 1, m + 2);
    RecurringStates(OwnerEnv(w, None), m);
  }

  lemma RunFromSnapshot(w: World, g: Grant, snap: Snapshot, until: Time)
    requires w.recs != [] && w.grants == [g] && Sane(g) && snap.at <= until && snap.grantUsage >= 0.0 && Covered([g], snap)
    ensures QueryFrom(w, snap, until) == Ok(Report([g], Finish([g], OwnerEnv(w, w.unitConfig), Filled([g], snap), snap.at, until), until))
  {
    RunGrantsOne(w, g, snap, until);
    CoveredIsRunnable(w, snap, until);
    ResumeFinishes(w, OwnerEnv(w, w.unitConfig), Filled([g], snap), snap, until);
  }

  lemma OverdrawnPeriod(w: World, m: Time)
    requires Inv(w) && Overdrawn(w, m) && forall t: Time :: w.raw(t) == 11.0
    ensures QueryPeriod(w, m + 1, m + 2).Ok? && QueryPeriod(w, m + 1, m + 2).value.overage == 1.0
  {
    var g := Recurring(m);
    OverdrawnAnswer(w, m);
    var snap := PeriodSnapshot(w, m + 1);
    assert Covered([g], snap);
    RunFromSnapshot(w, g, snap, m + 2);
    FilledOne(g, snap);
    RecurringStates(OwnerEnv(w, None), m);
  }

  /** A period query that starts at a recurrence forgives the overage the recurrence covered. */
  lemma PeriodQueryForgivesOverage(m: Time)
    ensures var w := Measured([Recurring(m)], 11.0, m, 1000, false, m + 2);
      && Inv(w)
      && QueryPeriod(w, m + 1, m + 2).Ok? && QueryPeriod(w, m + 1, m + 2).value.overage == 1.0
      && Query(w, m + 2).Ok? && Query(w, m + 2).value.overage == 2.0
  {
    var w := Measured([Recurring(m)], 11.0, m, 1000, false, m + 2);
    MeasuredInv([Recurring(m)], 11.0, m, 1000, false, m + 2);
    OverdrawnPeriod(w, m);
    OverdrawnNext(w, m);
  }

  // ------------------------------------------------------------ future queries

  lemma FutureRow(w: World, m: Time)
    requires Inv(w) && w.grants == [] && w.rows == [] && w.recs == [UsageRec(m, Recurrence(m, 5))] && w.now == m + 3 && w.grace == 0
    ensures QueryRow(w, m + 6).Some? && QueryRow(w, m + 6).value.at == m + 5 > Frozen(w)
  {
    PeriodStartIsLatestReset(w.recs, m + 6);
    PeriodStartIsLatestReset(w.recs, m + 3);
    assert IsReset(w.recs, m + 5) && !IsReset(w.recs, m + 6);
    StartRunnable(w, m + 6);
    assert Breaks(RunGrants(w, Resume(w, m + 6), m + 6), OwnerEnv(w, w.unitConfig).resets, m, m + 6, m + 5);
  }

  /** A query whose usage period starts after now stores a snapshot over time whose usage may
      still change. */
  lemma FutureQueryStoresOpenTime(m: Time)
    ensures var w := Measured([], 1.0, m, 5, false, m + 3);
      Inv(w) && QueryRow(w, m + 6).Some? && QueryRow(w, m + 6).value.at == m + 5 > Frozen(w)
  {
    MeasuredInv([], 1.0, m, 5, false, m + 3);
    FutureRow(Measured([], 1.0, m, 5, false, m + 3), m);
  }

  // ---------------------------------------------------- negative ceilings

  /** One unused grant of ten that a reset rolls over to minus five. */
  predicate Sinking(w: World, m: Time, g: Grant) {
    && w.grants == [g] && g == Simple(m, 10.0, 0.0, -5.0) && w.rows == [] && w.recs == [UsageRec(m, Recurrence(m, 1000))]
    && w.unitConfig == None && w.now == m + 1
  }

  lemma SinkingStart(w: World, m: Time, g: Grant)
    requires Sinking(w, m, g)
    ensures var snap := Resume(w, m + 1);
      && snap.at == m && snap.grantUsage == 0.0 && Runnable(w, snap, m + 1) && RunGrants(w, snap, m + 1) == [g]
      && Filled([g], snap) == State([10.0], 0.0, 0.0, 0.0)
  {
    var snap := Resume(w, m + 1);
    LatestMeaning(w.rows, m + 1);
    RunGrantsOne(w, g, snap, m + 1);
    assert ListActive(w.grants, m, m + 1) == [g] by { assert w.grants[1..] == []; }
    PopulateMeaning(map[], [g], m);
    assert g in [g] && snap.balances[g.id] == 10.0;
    FilledOne(g, snap);
  }

  lemma SinkingStates(env: Env, m: Time, g: Grant)
    requires g == Simple(m, 10.0, 0.0, -5.0) && env.usage(m) == 0.0 && !env.preserve && env.resets(m + 1) == 1
    ensures Finish([g], env, State([10.0], 0.0, 0.0, 0.0), m, m + 1) == State([0.0], 5.0, 0.0, -5.0)
  {
    var s, r := State([10.0], 0.0, 0.0, 0.0), State([-5.0], 0.0, 0.0, 0.0);
    WalkMinute([g], env, s, m);
    ServeOne(g, 10.0, s, m, 0.0);
    assert RollAll([g], [10.0], m + 1) == [-5.0];
    assert Reset([g], s, m + 1, false) == r;
    ServeOne(g, -5.0, r, m + 1, 0.0);
  }

  lemma SinkingReset(w: World, m: Time, g: Grant)
    requires Sinking(w, m, g) && forall t: Time :: w.raw(t) == 0.0
    ensures ResetUsage(w, m + 1, false, false).Ok?
    ensures ResetRow(w, m + 1, false) == Snapshot(m + 1, map[1 := 0.0], 5.0, 0.0, -5.0, None)
  {
    SinkingStart(w, m, g);
    PeriodStartIsLatestReset(w.recs, m + 1);
    assert ResetsBetween(w.recs, m + 1, m + 1) == [];
    SinkingStates(ResetEnv(w, m, m + 1, false), m, g);
    ActiveMapOne(g, 0.0, m + 1);
  }

  lemma SinkingQuery(v: World, row: Snapshot, until: Time)
    requires v.recs != [] && v.rows == [row] && row.unitConfig == v.unitConfig && row.grantUsage < 0.0 && row.at <= until
    ensures Query(v, until) == Err
  {
    LatestMeaning([row], until);
  }

  /** A grant with a negative rollover ceiling, which nothing rejects: the reset stores a negative
      grant usage, and every later query fails. */
  lemma NegativeCeilingBlocksQueries(m: Time, until: Time)
    requires m + 1 <= until
    ensures var w := Measured([Simple(m, 10.0, 0.0, -5.0)], 0.0, m, 1000, false, m + 1);
      && ResetUsage(w, m + 1, false, false).Ok? && ResetRow(w, m + 1, false).grantUsage == -5.0
      && Query(w, until).Ok? && Query(ResetUsage(w, m + 1, false, false).value, until) == Err
  {
    var g := Simple(m, 10.0, 0.0, -5.0);
    var w := Measured([g], 0.0, m, 1000, false, m + 1);
    SinkingReset(w, m, g);
    SinkingQuery(ResetUsage(w, m + 1, false, false).value, ResetRow(w, m + 1, false), until);
    LatestMeaning(w.rows, until);
    StartRunnable(w, until);
  }
}
