/** Stored snapshots affect the cost of a balance query, not its answer, except in one case. */
module Transparency {
  import opened Grants
  import opened Reference
  import opened Balances
  import opened Checkpoints
  import opened UsagePeriods
  import opened World
  import opened Resumption

  /** Metered usage before this time no longer changes: it is older than the grace period, or from
      before the current usage period. */
  function Frozen(w: World): Time
    requires w.recs != []
  {
    var open, period := w.now - w.grace, PeriodStart(w.recs, w.now);
    if open < period then period else open
  }

  /** The row was taken since measurement started, in frozen time, and stands for the state
      computed from the start of measurement under the unit config it is stamped with. */
  predicate RowOk(w: World, row: Snapshot)
    requires w.recs != []
  {
    && Start(w) <= row.at <= Frozen(w)
    && Stands(Prioritize(w.grants), Canon(w, row.unitConfig, row.at), row)
    && Covered(Prioritize(w.grants), row)
  }

  ghost predicate Inv(w: World) {
    && ValidRecs(w.recs)
    && (forall i :: 0 < i < |w.recs| ==> w.recs[i].start <= w.now)
    && Distinct(w.grants) && AllSane(w.grants) && Metered(w.raw)
    && forall i :: Visible(w.rows, i) ==> RowOk(w, w.rows[i])
  }

  lemma OwnerMetered(w: World, config: Option<UnitConfig>)
    requires w.recs != [] && Metered(w.raw)
    ensures Metered(OwnerEnv(w, config).usage)
  {
    forall t: Time ensures OwnerEnv(w, config).usage(t) >= 0.0 { ConvertPositive(config, w.raw(t)); }
  }

  lemma CanonGood(w: World, config: Option<UnitConfig>, t: Time)
    requires w.recs != [] && Distinct(w.grants) && AllSane(w.grants) && Metered(w.raw)
    ensures Good(Canon(w, config, t)) && Exhausted(Canon(w, config, t))
  {
    SortedGrants(w);
    OwnerMetered(w, config);
    var gs := Prioritize(w.grants);
    WalkExhausts(gs, OwnerEnv(w, config), Initial(gs, Start(w)), Start(w), t);
  }

  /** A query resumes from the start of measurement or from a row computed under the current
      unit config, and what it resumes from stands for the state at that time. */
  lemma ResumeStands(w: World, at: Time)
    requires Inv(w) && Start(w) <= at
    ensures var snap := Resume(w, at);
      && Start(w) <= snap.at <= at
      && Stands(Prioritize(w.grants), Canon(w, w.unitConfig, snap.at), snap)
      && Runnable(w, snap, at)
      && (snap.at > Start(w) ==> snap in w.rows && snap.unitConfig == w.unitConfig && RowOk(w, snap))
  {
    var i := LatestIndex(w.rows, at);
    LatestMeaning(w.rows, at);
    if i != -1 && w.rows[i].unitConfig == w.unitConfig {
      assert RowOk(w, w.rows[i]);
      CanonGood(w, w.unitConfig, w.rows[i].at);
      CoveredIsRunnable(w, w.rows[i], at);
    } else {
      StartStands(w, at);
      StartRunnable(w, at);
    }
  }

  /** Whether a query at `at` applies grant activity at `at`. */
  predicate Settles(w: World, at: Time)
    requires w.recs != []
  {
    Resume(w, at).at == at || IsReset(w.recs, at) || RecursAt(Prioritize(w.grants), at)
  }

  /** What a query answers, without mentioning snapshots. */
  function Answer(w: World, at: Time, settled: bool): Balance
    requires w.recs != []
  {
    var gs, c := Prioritize(w.grants), Canon(w, w.unitConfig, at);
    Report(gs, if settled then Settle(gs, c, at) else c, at)
  }

  lemma FinishIsCanon(w: World, s: Time, at: Time)
    requires w.recs != [] && Start(w) <= s <= at
    ensures var gs, env := Prioritize(w.grants), OwnerEnv(w, w.unitConfig);
      var settled := s == at || IsReset(w.recs, at) || RecursAt(gs, at);
      Report(gs, Finish(gs, env, Canon(w, w.unitConfig, s), s, at), at) == Answer(w, at, settled)
  {
    var gs, env := Prioritize(w.grants), OwnerEnv(w, w.unitConfig);
    WalkSplits(gs, env, Initial(gs, Start(w)), Start(w), s, at);
  }

  /** A run from any snapshot that stands for the state at its time. */
  lemma QueryFromMeaning(w: World, snap: Snapshot, at: Time)
    requires Inv(w) && Start(w) <= snap.at && Runnable(w, snap, at)
    requires Stands(Prioritize(w.grants), Canon(w, w.unitConfig, snap.at), snap)
    ensures QueryFrom(w, snap, at) ==
      Ok(Answer(w, at, snap.at == at || IsReset(w.recs, at) || RecursAt(Prioritize(w.grants), at)))
  {
    ResumeFinishes(w, OwnerEnv(w, w.unitConfig), Canon(w, w.unitConfig, snap.at), snap, at);
    FinishIsCanon(w, snap.at, at);
  }

  /** A query never fails from the start of measurement on, and answers with the state
      computed minute by minute from there over all grants. */
  lemma QueryMeaning(w: World, at: Time)
    requires Inv(w)
    ensures Query(w, at) == if at < Start(w) then Err else Ok(Answer(w, at, Settles(w, at)))
  {
    if Start(w) <= at {
      ResumeStands(w, at);
      QueryFromMeaning(w, Resume(w, at), at);
    } else {
      QueryTooEarly(w, at);
    }
  }

  /** Whatever the grants: a query fails exactly before the start of measurement, or if the snapshot
      it resumes from has a negative grant usage. */
  lemma QueryFailsIff(w: World, at: Time)
    requires w.recs != [] && Distinct(w.grants)
    requires forall i :: Visible(w.rows, i) ==> Start(w) <= w.rows[i].at && Covered(Prioritize(w.grants), w.rows[i])
    ensures Query(w, at).Err? <==> at < Start(w) || Resume(w, at).grantUsage < 0.0
  {
    var i := LatestIndex(w.rows, at);
    LatestMeaning(w.rows, at);
    if i != -1 && w.rows[i].unitConfig == w.unitConfig {
      if w.rows[i].grantUsage >= 0.0 { CoveredIsRunnable(w, w.rows[i], at); }
    } else if Start(w) <= at {
      StartRunnable(w, at);
    }
  }

  // ------------------------------------------------------ what a query counts

  lemma CanonUsage(w: World, config: Option<UnitConfig>, at: Time)
    requires w.recs != [] && Start(w) <= at
    ensures Canon(w, config, at).usage == UsageIn(OwnerEnv(w, config).usage, PeriodStart(w.recs, at), at)
  {
    var gs, env, p := Prioritize(w.grants), OwnerEnv(w, config), PeriodStart(w.recs, at);
    PeriodStartIsLatestReset(w.recs, at);
    WalkSplits(gs, env, Initial(gs, Start(w)), Start(w), p, at);
    assert Canon(w, config, p).usage == 0.0;
    WalkConserves(gs, env, Canon(w, config, p), p, at);
  }

  lemma OwnerUsageConverted(w: World, from: Time, until: Time)
    requires w.recs != []
    ensures UsageIn(OwnerEnv(w, w.unitConfig).usage, from, until) == Convert(w.unitConfig, UsageIn(w.raw, from, until))
  {
    UsageLocal(OwnerEnv(w, w.unitConfig).usage, t => Convert(w.unitConfig, w.raw(t)), from, until);
    ConvertUsage(w.unitConfig, w.raw, from, until);
  }

  lemma QueryCounts(w: World, at: Time)
    requires Inv(w) && Start(w) <= at
    ensures Query(w, at).Ok? && Query(w, at).value.usage == Canon(w, w.unitConfig, at).usage
  {
    QueryMeaning(w, at);
  }

  /** A metered total in the owner's unit. */
  predicate InUnit(config: Option<UnitConfig>, metered: real, usage: real) {
    match config
    case None => usage == metered
    case Some(Multiply(f)) => usage == metered * f
    case Some(Divide(d)) => usage == metered / d
  }

  /** The usage a query reports: what was metered since the current period began, multiplied or
      divided by the owner's factor. */
  lemma QueryUsage(w: World, at: Time)
    requires Inv(w) && Start(w) <= at
    ensures Query(w, at).Ok?
    ensures InUnit(w.unitConfig, UsageIn(w.raw, PeriodStart(w.recs, at), at), Query(w, at).value.usage)
  {
    QueryCounts(w, at);
    CanonUsage(w, w.unitConfig, at);
    OwnerUsageConverted(w, PeriodStart(w.recs, at), at);
  }

  lemma QueryTooEarly(w: World, at: Time)
    requires Inv(w) && at < Start(w)
    ensures Query(w, at) == Err
  {
    LatestMeaning(w.rows, at);
  }

  // ------------------------------------------------------- when settling shows

  lemma {:induction false} ActiveMapLocal(gs: seq<Grant>, a: seq<real>, b: seq<real>, t: Time)
    requires |gs| == |a| == |b| && forall i :: 0 <= i < |gs| && Active(gs[i], t) ==> a[i] == b[i]
    ensures ActiveMap(gs, a, t) == ActiveMap(gs, b, t)
  {
    if gs != [] { ActiveMapLocal(gs[1..], a[1..], b[1..], t); }
  }

  /** Right after a served minute, settling changes the answer exactly when a grant with a
      positive amount takes effect at that time. */
  lemma SettlingShowsIff(gs: seq<Grant>, w: State, t: Time, u: real)
    requires Fits(gs, w) && Good(w) && Distinct(gs) && AllSane(gs) && u >= 0.0 && !RecursAt(gs, t)
    ensures var c := Serve(gs, w, t - 1, u);
      Report(gs, Settle(gs, c, t), t) == Report(gs, c, t) <==> NoRefill(gs, t)
  {
    var c := Serve(gs, w, t - 1, u);
    var e0 := EnterAll(gs, w.bals, t - 1);
    ServeExhausts(gs, w, t - 1, u);
    ServeGood(gs, w, t - 1, u);
    ServeGood(gs, c, t, 0.0);
    forall i | 0 <= i < |gs| && Refills(gs[i], t) ensures c.bals[i] == 0.0 {
      assert gs[i].effectiveAt == t && !Active(gs[i], t - 1);
      ZeroStaysZero(e0, u + w.overage, i);
    }
    var e := EnterAll(gs, c.bals, t);
    var f := Settle(gs, c, t);
    assert 0.0 + c.overage == c.overage;
    if NoRefill(gs, t) {
      if c.overage == 0.0 { BurnNothing(e); } else { ZerosBurn(e, c.overage); }
      ActiveMapLocal(gs, f.bals, c.bals, t);
    } else {
      var i :| 0 <= i < |gs| && Refills(gs[i], t) && gs[i].amount != 0.0;
      assert Sane(gs[i]) && e[i] == gs[i].amount;
      TotalPositive(e, i);
      BurnTotals(e, c.overage);
      if c.overage == 0.0 {
        BurnNothing(e);
        ActiveMapKeys(gs, f.bals, t);
        ActiveMapKeys(gs, c.bals, t);
        assert ActiveMap(gs, f.bals, t)[gs[i].id] != ActiveMap(gs, c.bals, t)[gs[i].id];
      }
    }
  }

  /** The query is at a stored snapshot's time at which a grant takes effect, and neither a
      reset nor a recurrence makes every query look past that moment. */
  predicate ShowsNewGrant(w: World, at: Time)
    requires w.recs != []
  {
    && Start(w) < at && Resume(w, at).at == at
    && !IsReset(w.recs, at) && !RecursAt(Prioritize(w.grants), at)
    && exists i :: 0 <= i < |w.grants| && w.grants[i].effectiveAt == at && Active(w.grants[i], at) && w.grants[i].amount > 0.0
  }

  lemma RefillInSorted(w: World, at: Time)
    requires Distinct(w.grants) && AllSane(w.grants) && !RecursAt(Prioritize(w.grants), at)
    ensures NoRefill(Prioritize(w.grants), at) <==>
      !exists i :: 0 <= i < |w.grants| && w.grants[i].effectiveAt == at && Active(w.grants[i], at) && w.grants[i].amount > 0.0
  {
    var gs := Prioritize(w.grants);
    SortedGrants(w);
    PrioritizePermutes(w.grants);
    if !NoRefill(gs, at) {
      var i :| 0 <= i < |gs| && Refills(gs[i], at) && gs[i].amount != 0.0;
      assert gs[i] in w.grants && Sane(gs[i]);
    }
    if i :| 0 <= i < |w.grants| && w.grants[i].effectiveAt == at && Active(w.grants[i], at) && w.grants[i].amount > 0.0 {
      assert w.grants[i] in gs;
      assert Refills(w.grants[i], at);
    }
  }

  /** A settled answer differs from an unsettled one exactly when a grant takes effect then. */
  lemma AnswersDifferIff(w: World, at: Time)
    requires Inv(w) && Start(w) < at && !IsReset(w.recs, at) && !RecursAt(Prioritize(w.grants), at)
    ensures Answer(w, at, true) == Answer(w, at, false) <==> NoRefill(Prioritize(w.grants), at)
  {
    var gs, env := Prioritize(w.grants), OwnerEnv(w, w.unitConfig);
    var before := Canon(w, w.unitConfig, at - 1);
    SortedGrants(w);
    CanonGood(w, w.unitConfig, at - 1);
    OwnerMetered(w, w.unitConfig);
    assert Canon(w, w.unitConfig, at) == Serve(gs, before, at - 1, env.usage(at - 1));
    SettlingShowsIff(gs, before, at, env.usage(at - 1));
  }

  /** Two owners that differ only in their stored snapshots get the same answer, unless exactly
      one of them has a usable snapshot at a moment at which a grant takes effect. */
  lemma SnapshotsDoNotMatterIff(w: World, rows: seq<Snapshot>, at: Time)
    requires Inv(w) && Inv(w.(rows := rows))
    ensures Query(w, at) == Query(w.(rows := rows), at) <==>
            (at < Start(w) || (ShowsNewGrant(w, at) <==> ShowsNewGrant(w.(rows := rows), at)))
  {
    var v := w.(rows := rows);
    QueryMeaning(w, at);
    QueryMeaning(v, at);
    assert forall b :: Answer(w, at, b) == Answer(v, at, b);
    if Start(w) < at && !IsReset(w.recs, at) && !RecursAt(Prioritize(w.grants), at) {
      AnswersDifferIff(w, at);
      RefillInSorted(w, at);
    } else if Start(w) == at {
      ResumeStands(w, at);
      ResumeStands(v, at);
    }
  }

  /** Cache transparency: a query agrees with recomputing from the start of measurement. */
  lemma TransparentIff(w: World, at: Time)
    requires Inv(w)
    ensures Query(w, at) == Query(w.(rows := []), at) <==> (at < Start(w) || !ShowsNewGrant(w, at))
  {
    assert Inv(w.(rows := []));
    SnapshotsDoNotMatterIff(w, [], at);
    if Start(w) < at { assert Resume(w.(rows := []), at).at == Start(w); }
  }
}
