/** What a reset stores, and when that stands for recomputing the owner's state. */
module OwnerResets {
  import opened Grants
  import opened Reference
  import opened Balances
  import opened Checkpoints
  import opened UsagePeriods
  import opened World
  import opened Resumption
  import opened Transparency
  import opened ResetRows
  import opened Preservation

  /** What the run of a reset comes to at `at`, before any reset then: the reset's choice about
      overage applies to the earlier resets of the run. */
  function Own(w: World, at: Time, preserve: bool): (s: State)
    requires w.recs != []
    ensures Fits(Prioritize(w.grants), s)
  {
    var from := Resume(w, at).at;
    BeforeResets(Prioritize(w.grants), ResetEnv(w, from, at, preserve), Canon(w, w.unitConfig, from), from, at)
  }

  lemma OwnGood(w: World, at: Time, preserve: bool)
    requires Inv(w) && Start(w) <= at && Resume(w, at).at < at
    ensures AllSane(Prioritize(w.grants)) && Good(Own(w, at, preserve)) && Exhausted(Own(w, at, preserve))
  {
    ResumeStands(w, at);
    var gs, from := Prioritize(w.grants), Resume(w, at).at;
    var env, c := ResetEnv(w, from, at, preserve), Canon(w, w.unitConfig, from);
    SortedGrants(w);
    CanonGood(w, w.unitConfig, from);
    OwnerMetered(w, w.unitConfig);
    assert forall t: Time :: env.usage(t) == OwnerEnv(w, w.unitConfig).usage(t);
    WalkExhausts(gs, env, c, from, at - 1);
    var x := Walk(gs, env, c, from, at - 1);
    ServeGood(gs, x, at - 1, env.usage(at - 1));
    ServeExhausts(gs, x, at - 1, env.usage(at - 1));
  }

  lemma DueFrom(w: World, config: Option<UnitConfig>, s: Time, t: Time)
    requires w.recs != [] && Start(w) <= s < t
    ensures Due(w, config, t) == BeforeResets(Prioritize(w.grants), OwnerEnv(w, config), Canon(w, config, s), s, t)
  {
    var gs := Prioritize(w.grants);
    WalkSplits(gs, OwnerEnv(w, config), Initial(gs, Start(w)), Start(w), s, t - 1);
  }

  lemma SameChoice(w: World, s: Time, m: Time, gs: seq<Grant>, c: State, owner: Env, env: Env)
    requires w.recs != [] && gs == Prioritize(w.grants) && Fits(gs, c) && s <= m
    requires owner == OwnerEnv(w, w.unitConfig) && env == ResetEnv(w, s, m + 1, w.preserve)
    ensures Walk(gs, env, c, s, m) == Walk(gs, owner, c, s, m) && env.usage(m) == owner.usage(m)
  {
    WalkLocal(gs, owner, env, c, s, m);
  }

  /** With the owner's choice the run is the owner's. */
  lemma OwnIsDue(w: World, at: Time)
    requires Inv(w) && Start(w) <= at && Resume(w, at).at < at
    ensures Own(w, at, w.preserve) == Due(w, w.unitConfig, at)
  {
    ResumeStands(w, at);
    var gs, from := Prioritize(w.grants), Resume(w, at).at;
    DueFrom(w, w.unitConfig, from, at);
    SameChoice(w, from, at - 1, gs, Canon(w, w.unitConfig, from), OwnerEnv(w, w.unitConfig), ResetEnv(w, from, at, w.preserve));
  }

  /** How often a reset is applied that is not dropped: after the one recorded for the same time. */
  function Times(w: World, at: Time): nat
    requires w.recs != []
  {
    if IsReset(w.recs, at) then 2 else 1
  }

  /** The state the reset's row stands for: at a usable snapshot the reset is dropped. */
  function Outcome(w: World, at: Time, preserve: bool): (s: State)
    requires w.recs != []
    ensures Fits(Prioritize(w.grants), s)
  {
    var gs := Prioritize(w.grants);
    if Resume(w, at).at == at then Settle(gs, Canon(w, w.unitConfig, at), at)
    else Settle(gs, Resets(gs, Own(w, at, preserve), at, preserve, Times(w, at)), at)
  }

  lemma ResetRunEnds(w: World, at: Time, preserve: bool)
    requires Inv(w) && Start(w) <= at
    ensures var s := Resume(w, at).at;
      && Start(w) <= s <= at
      && Finish(Prioritize(w.grants), ResetEnv(w, s, at, preserve), Canon(w, w.unitConfig, s), s, at) == Outcome(w, at, preserve)
  {
    ResumeStands(w, at);
    var s := Resume(w, at).at;
  }

  /** The row stands for the outcome, whose balances it holds. */
  lemma ResetRowStands(w: World, at: Time, preserve: bool)
    requires Inv(w) && Start(w) <= at
    ensures ResetRow(w, at, preserve).balances == ActiveMap(Prioritize(w.grants), Outcome(w, at, preserve).bals, at)
    ensures Stands(Prioritize(w.grants), Outcome(w, at, preserve), ResetRow(w, at, preserve))
    ensures Covered(Prioritize(w.grants), ResetRow(w, at, preserve))
  {
    var gs, snap := Prioritize(w.grants), Resume(w, at);
    ResumeStands(w, at);
    ResetRunEnds(w, at, preserve);
    ResumeFinishes(w, ResetEnv(w, snap.at, at, preserve), Canon(w, w.unitConfig, snap.at), snap, at);
    SortedGrants(w);
    ActiveMapStands(gs, Outcome(w, at, preserve), at, ResetRow(w, at, preserve).balances, w.unitConfig);
  }

  /** Balance by balance: a reset without overage to burn carries every active grant's balance over
      within its floor and ceiling, unless the grant is refilled at that moment. */
  lemma ResetCarriesOver(w: World, at: Time, preserve: bool, i: nat)
    requires Inv(w) && Start(w) <= at && Resume(w, at).at < at && !IsReset(w.recs, at)
    requires preserve ==> Own(w, at, preserve).overage == 0.0
    requires i < |Prioritize(w.grants)| && Active(Prioritize(w.grants)[i], at)
    ensures var g, row := Prioritize(w.grants)[i], ResetRow(w, at, preserve);
      && g.id in row.balances && row.overage == 0.0
      && if Refills(g, at) then row.balances[g.id] == g.amount
         else CarriesOver(g, Own(w, at, preserve).bals[i], row.balances[g.id])
  {
    var gs, own := Prioritize(w.grants), Own(w, at, preserve);
    var r := Reset(gs, own, at, preserve);
    OwnGood(w, at, preserve);
    ResetRowStands(w, at, preserve);
    NothingCarried(gs, own, at, preserve);
    SettleWithoutOverage(gs, r, at);
    assert Resets(gs, own, at, preserve, 1) == r;
    SortedGrants(w);
    ActiveMapKeys(gs, Outcome(w, at, preserve).bals, at);
    RolloverMeaning(gs[i], own.bals[i]);
  }

  // ---------------------------------------------------- the owner afterwards

  lemma DueLocal(w: World, v: World, config: Option<UnitConfig>, t: Time)
    requires w.recs != [] && v.recs != [] && Start(w) == Start(v) && v == w.(recs := v.recs, rows := v.rows)
    requires forall x: Time :: x < t ==> IsReset(w.recs, x) == IsReset(v.recs, x)
    ensures Due(v, config, t) == Due(w, config, t)
  {
    CanonLocal(w, v, config, t - 1);
  }

  lemma OneReset(v: World, config: Option<UnitConfig>, t: Time)
    requires v.recs != [] && Start(v) < t && IsReset(v.recs, t)
    ensures Canon(v, config, t) == Reset(Prioritize(v.grants), Due(v, config, t), t, v.preserve)
  {
  }

  /** Afterwards the owner has exactly one reset at that time. */
  lemma CanonAfterReset(w: World, at: Time, preserve: bool, retain: bool)
    requires Inv(w) && ResetUsage(w, at, preserve, retain).Ok?
    ensures var v := ResetUsage(w, at, preserve, retain).value;
      && Start(v) == Start(w) <= at
      && Canon(v, w.unitConfig, at) ==
           if at == Start(w) then Canon(w, w.unitConfig, at)
           else Reset(Prioritize(w.grants), Due(w, w.unitConfig, at), at, w.preserve)
  {
    var v, config, gs := ResetUsage(w, at, preserve, retain).value, w.unitConfig, Prioritize(w.grants);
    EndCurrentPeriod(w.recs, at, retain, w.now);
    if at > Start(w) {
      DueLocal(w, v, config, at);
      OneReset(v, config, at);
    } else {
      assert Canon(v, config, at) == Initial(gs, at);
    }
  }

  lemma StandsIff(gs: seq<Grant>, a: State, b: State, row: Snapshot)
    requires Fits(gs, a) && Fits(gs, b) && Stands(gs, a, row)
    ensures Stands(gs, b, row) <==> SameFrom(gs, a, b, row.at)
  {
  }

  lemma ResetRowOkIsSame(w: World, at: Time, preserve: bool, retain: bool)
    requires Inv(w) && ResetUsage(w, at, preserve, retain).Ok?
    ensures var v, gs := ResetUsage(w, at, preserve, retain).value, Prioritize(w.grants);
      RowOk(v, ResetRow(w, at, preserve)) <==> SameFrom(gs, Outcome(w, at, preserve), Canon(v, w.unitConfig, at), at)
  {
    var v := ResetUsage(w, at, preserve, retain).value;
    CanonAfterReset(w, at, preserve, retain);
    EndCurrentPeriod(w.recs, at, retain, w.now);
    ResetRowStands(w, at, preserve);
    StandsIff(Prioritize(w.grants), Outcome(w, at, preserve), Canon(v, w.unitConfig, at), ResetRow(w, at, preserve));
  }

  /** When the row a reset stores is a usable one, from the balance due just before it and what the
      reset's own run comes to. */
  predicate ResetHarmless(w: World, at: Time, preserve: bool)
    requires w.recs != []
  {
    var gs, due := Prioritize(w.grants), Due(w, w.unitConfig, at);
    var floors := Total(Floors(gs, at));
    // the overage the owner keeps is covered by what is rolled over, or not covered by refills
    var settled := (w.preserve ==> due.overage <= floors) || NoRefill(gs, at);
    if at == Start(w) then true
    else if Resume(w, at).at == at then
      // the reset is dropped, after one was recorded then or altogether
      if IsReset(w.recs, at) then settled else DropHarmless(gs, due, at, w.preserve)
    else if preserve == w.preserve then
      // it is applied once, or a second time
      if !IsReset(w.recs, at) then settled
      else !preserve || due.overage == 0.0 || (floors == 0.0 && NoRefill(gs, at))
    else
      // it decides about overage otherwise than the owner, also at earlier resets of its run
      var own := Own(w, at, preserve);
      && RolledOver(gs, own, at) == RolledOver(gs, due, at)
      && if preserve then own.overage <= Coverage(gs, at, Times(w, at)) else due.overage == 0.0
  }

  /** The owner's own reset, settled. */
  lemma SettledIff(gs: seq<Grant>, s: State, t: Time, preserve: bool)
    requires Fits(gs, s) && Good(s) && AllSane(gs) && Exhausted(s)
    ensures var r := Reset(gs, s, t, preserve);
      SameFrom(gs, Settle(gs, r, t), r, t) <==> (preserve ==> s.overage <= Total(Floors(gs, t))) || NoRefill(gs, t)
  {
    OverageLeft(gs, s, t, preserve);
    FloorsNonNegative(gs, t);
    ResetGood(gs, s, t, preserve);
    ResetExhausts(gs, s, t, preserve);
    SettledIsCheckpointIff(gs, Reset(gs, s, t, preserve), t);
  }

  lemma StartSettles(w: World, at: Time, preserve: bool)
    requires Inv(w) && at == Start(w)
    ensures SameFrom(Prioritize(w.grants), Outcome(w, at, preserve), Canon(w, w.unitConfig, at), at)
  {
    var gs := Prioritize(w.grants);
    ResumeStands(w, at);
    SortedGrants(w);
    CanonGood(w, w.unitConfig, at);
    SettledIsCheckpointIff(gs, Canon(w, w.unitConfig, at), at);
  }

  lemma OwnersOutcomeIff(w: World, at: Time)
    requires Inv(w) && Start(w) < at && Resume(w, at).at < at
    ensures var gs, due := Prioritize(w.grants), Due(w, w.unitConfig, at);
      SameFrom(gs, Outcome(w, at, w.preserve), Reset(gs, due, at, w.preserve), at) <==> ResetHarmless(w, at, w.preserve)
  {
    var gs, due := Prioritize(w.grants), Due(w, w.unitConfig, at);
    DueGood(w, w.unitConfig, at);
    OwnIsDue(w, at);
    if IsReset(w.recs, at) { TwiceIff(gs, due, at, w.preserve); } else {
      assert Resets(gs, due, at, w.preserve, 1) == Reset(gs, due, at, w.preserve);
      SettledIff(gs, due, at, w.preserve);
    }
  }

  lemma OutcomeSameIff(w: World, at: Time, preserve: bool)
    requires Inv(w) && Start(w) < at && Resume(w, at).at <= at
    ensures var gs, due := Prioritize(w.grants), Due(w, w.unitConfig, at);
      SameFrom(gs, Outcome(w, at, preserve), Reset(gs, due, at, w.preserve), at) <==> ResetHarmless(w, at, preserve)
  {
    var gs, due := Prioritize(w.grants), Due(w, w.unitConfig, at);
    DueGood(w, w.unitConfig, at);
    if Resume(w, at).at == at {
      if IsReset(w.recs, at) { SettledIff(gs, due, at, w.preserve); } else { DroppedIff(gs, due, at, w.preserve); }
    } else if preserve == w.preserve {
      OwnersOutcomeIff(w, at);
    } else {
      OwnGood(w, at, preserve);
      if preserve { PreservingRunIff(gs, Own(w, at, preserve), due, at, Times(w, at)); }
      else { DroppingRunIff(gs, Own(w, at, preserve), due, at, Times(w, at)); }
    }
  }

  /** A reset's row is a usable snapshot exactly in these cases, whatever was recorded or stored at
      its time and whatever it decides about overage. */
  lemma ResetRowOkIff(w: World, at: Time, preserve: bool, retain: bool)
    requires Inv(w) && ResetUsage(w, at, preserve, retain).Ok?
    ensures RowOk(ResetUsage(w, at, preserve, retain).value, ResetRow(w, at, preserve)) <==> ResetHarmless(w, at, preserve)
  {
    ResetRowOkIsSame(w, at, preserve, retain);
    CanonAfterReset(w, at, preserve, retain);
    if at == Start(w) { StartSettles(w, at, preserve); } else {
      ResumeStands(w, at);
      OutcomeSameIff(w, at, preserve);
    }
  }

  /** A reset keeps the store good exactly in these cases. */
  lemma ResetKeepsIff(w: World, at: Time, preserve: bool, retain: bool)
    requires Inv(w) && ResetUsage(w, at, preserve, retain).Ok?
    ensures Inv(ResetUsage(w, at, preserve, retain).value) <==> ResetHarmless(w, at, preserve)
  {
    var v := ResetUsage(w, at, preserve, retain).value;
    var kept := InvalidateAfter(w.rows, at);
    ResetRowOkIff(w, at, preserve, retain);
    EndCurrentPeriod(w.recs, at, retain, w.now);
    assert v.rows[|kept|] == ResetRow(w, at, preserve) && Visible(v.rows, |kept|);
    if ResetHarmless(w, at, preserve) {
      forall i | Visible(v.rows, i) ensures RowOk(v, v.rows[i]) {
        if i < |kept| { KeptRowOk(w, v, at, i); }
      }
    }
  }

  /** The rows before the reset still stand. */
  lemma KeptRowOk(w: World, v: World, at: Time, i: int)
    requires Inv(w) && v.recs != [] && Start(v) == Start(w) && Frozen(w) <= Frozen(v)
    requires v == w.(recs := v.recs, rows := v.rows) && forall t :: t < at ==> IsReset(v.recs, t) == IsReset(w.recs, t)
    requires |v.rows| == |InvalidateAfter(w.rows, at)| + 1 && v.rows[..|v.rows| - 1] == InvalidateAfter(w.rows, at)
    requires v.rows[|v.rows| - 1].at == at && Visible(v.rows, i) && i < |v.rows| - 1
    ensures RowOk(v, v.rows[i])
  {
    var kept := InvalidateAfter(w.rows, at);
    assert v.rows[..|kept|] == kept;
    assert forall j :: 0 <= j < |kept| ==> v.rows[j] == kept[j];
    assert Visible(kept, i);
    var j := InvalidateVisible(w.rows, at, i);
    CanonLocal(w, v, w.rows[j].unitConfig, w.rows[j].at);
  }

  // ---------------------------------------------------------- fresh resets

  /** The reset is at a new time: no usable snapshot there, no reset recorded there, and overage
      is treated as the owner treats it everywhere else. */
  predicate FreshReset(w: World, at: Time, preserve: bool)
    requires w.recs != []
  {
    preserve == w.preserve && !IsReset(w.recs, at) && Resume(w, at).at < at
  }

  /** The snapshot a fresh reset stores settles the state computed from the start of measurement. */
  lemma ResetRowSettles(w: World, at: Time, preserve: bool, retain: bool)
    requires Inv(w) && ResetUsage(w, at, preserve, retain).Ok? && FreshReset(w, at, preserve)
    ensures var v, gs := ResetUsage(w, at, preserve, retain).value, Prioritize(w.grants);
      Stands(gs, Settle(gs, Canon(v, w.unitConfig, at), at), ResetRow(w, at, preserve)) && Covered(gs, ResetRow(w, at, preserve))
  {
    CanonAfterReset(w, at, preserve, retain);
    ResumeStands(w, at);
    OwnIsDue(w, at);
    ResetRowStands(w, at, preserve);
  }
}
