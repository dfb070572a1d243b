/** When a reset's settled outcome is a usable checkpoint for the owner's reset at that time, whichever
    resets the run applied there, with whichever choice about overage. */
module ResetRows {
  import opened Grants
  import opened Reference
  import opened Projection
  import opened Checkpoints

  /** What a reset at `t` rolls empty grants over to. */
  function Floors(gs: seq<Grant>, t: Time): (r: seq<real>)
    ensures |r| == |gs|
  {
    seq(|gs|, i requires 0 <= i < |gs| => if Active(gs[i], t) then Rollover(gs[i], 0.0) else 0.0)
  }

  /** What grants refilled at `t` are refilled to. */
  function Refilled(gs: seq<Grant>, t: Time): (r: seq<real>)
    ensures |r| == |gs|
  {
    seq(|gs|, i requires 0 <= i < |gs| => if Refills(gs[i], t) then gs[i].amount else 0.0)
  }

  predicate Empty(bals: seq<real>) { forall i :: 0 <= i < |bals| ==> bals[i] == 0.0 }

  lemma FloorsNonNegative(gs: seq<Grant>, t: Time)
    requires AllSane(gs)
    ensures NonNegative(Floors(gs, t)) && NonNegative(Refilled(gs, t))
    ensures Total(Floors(gs, t)) >= 0.0 && Total(Refilled(gs, t)) >= 0.0
  {
    forall i | 0 <= i < |gs| ensures Sane(gs[i]) { }
    TotalNonNegative(Floors(gs, t));
    TotalNonNegative(Refilled(gs, t));
  }

  lemma EmptySteps(gs: seq<Grant>, bals: seq<real>, t: Time)
    requires |bals| == |gs| && Empty(bals)
    ensures RollAll(gs, bals, t) == Floors(gs, t) && EnterAll(gs, bals, t) == Refilled(gs, t)
  {
  }

  lemma EmptyIff(bals: seq<real>)
    requires NonNegative(bals)
    ensures Empty(bals) <==> Total(bals) == 0.0
  {
    if Empty(bals) { TotalOfZeros(bals); } else {
      var i :| 0 <= i < |bals| && bals[i] != 0.0;
      TotalPositive(bals, i);
    }
  }

  lemma RefilledEmptyIff(gs: seq<Grant>, t: Time)
    requires AllSane(gs)
    ensures Total(Refilled(gs, t)) == 0.0 <==> NoRefill(gs, t)
  {
    FloorsNonNegative(gs, t);
    EmptyIff(Refilled(gs, t));
    if Empty(Refilled(gs, t)) {
      forall i | 0 <= i < |gs| && Refills(gs[i], t) ensures gs[i].amount == 0.0 { assert Refilled(gs, t)[i] == 0.0; }
    }
  }

  /** Rolling over again changes nothing; neither does burning what an empty grant rolled over to. */
  lemma RolloverAgain(g: Grant, b: real)
    requires Sane(g)
    ensures Rollover(g, Rollover(g, b)) == Rollover(g, b)
    ensures 0.0 <= b <= Rollover(g, 0.0) ==> Rollover(g, b) == Rollover(g, 0.0)
  {
  }

  // ------------------------------------------------------- without overage

  /** Settling, and resetting once more, are absorbed when no overage is carried. */
  lemma RollEnterRoll(gs: seq<Grant>, bals: seq<real>, t: Time)
    requires |bals| == |gs| && AllSane(gs)
    ensures var r := RollAll(gs, bals, t);
      EnterAll(gs, RollAll(gs, EnterAll(gs, r, t), t), t) == EnterAll(gs, r, t)
  {
    var r := RollAll(gs, bals, t);
    var e := EnterAll(gs, r, t);
    forall i | 0 <= i < |gs| ensures Entered(gs[i], RollAll(gs, e, t)[i], t) == e[i] {
      RolloverAgain(gs[i], bals[i]);
    }
  }

  lemma SettleWithoutOverage(gs: seq<Grant>, s: State, t: Time)
    requires Fits(gs, s) && Good(s) && AllSane(gs) && s.overage == 0.0
    ensures Settle(gs, s, t) == Enter(gs, s, t)
  {
    var e := EnterAll(gs, s.bals, t);
    ServeGood(gs, s, t, 0.0);
    BurnNothing(e);
    assert 0.0 + s.overage == 0.0;
  }

  /** A reset that carries nothing only rolls over; any further one changes nothing. */
  lemma NothingCarried(gs: seq<Grant>, s: State, t: Time, preserve: bool)
    requires Fits(gs, s) && Good(s) && AllSane(gs) && (preserve ==> s.overage == 0.0)
    ensures var r := Reset(gs, s, t, preserve);
      && r == State(RollAll(gs, s.bals, t), 0.0, 0.0, 0.0) && Good(r)
      && SameFrom(gs, Settle(gs, r, t), r, t)
      && SameFrom(gs, Settle(gs, Resets(gs, s, t, preserve, 2), t), r, t)
  {
    var r := Reset(gs, s, t, preserve);
    ResetGood(gs, s, t, preserve);
    SettleWithoutOverage(gs, r, t);
    EnterTwice(gs, r.bals, t);
    var e := Settle(gs, r, t);
    ServeGood(gs, r, t, 0.0);
    assert Resets(gs, s, t, preserve, 1) == r;
    var r2 := Reset(gs, e, t, preserve);
    assert r2 == Resets(gs, s, t, preserve, 2);
    ResetGood(gs, e, t, preserve);
    SettleWithoutOverage(gs, r2, t);
    RollEnterRoll(gs, s.bals, t);
    EnterTwice(gs, r2.bals, t);
  }

  // --------------------------------------------------------- with overage

  /** A preserving reset of an exhausted state. */
  lemma CarriedOnce(gs: seq<Grant>, s: State, t: Time)
    requires Fits(gs, s) && Good(s) && AllSane(gs) && Exhausted(s) && s.overage > 0.0
    ensures var r, left := Reset(gs, s, t, true), Max(0.0, s.overage - Total(Floors(gs, t)));
      && Good(r) && Exhausted(r) && r == State(Burn(Floors(gs, t), s.overage).bals, left, 0.0, s.overage - left)
  {
    EmptySteps(gs, s.bals, t);
    FloorsNonNegative(gs, t);
    BurnTotals(Floors(gs, t), s.overage);
    ResetGood(gs, s, t, true);
    ResetExhausts(gs, s, t, true);
  }

  /** The overage a reset leaves. */
  lemma OverageLeft(gs: seq<Grant>, s: State, t: Time, preserve: bool)
    requires Fits(gs, s) && Good(s) && AllSane(gs) && Exhausted(s)
    ensures Reset(gs, s, t, preserve).overage == Max(0.0, (if preserve then s.overage else 0.0) - Total(Floors(gs, t)))
  {
    FloorsNonNegative(gs, t);
    if preserve && s.overage > 0.0 { CarriedOnce(gs, s, t); } else { NothingCarried(gs, s, t, preserve); }
  }

  /** Settling burns the carried overage from what is refilled. */
  lemma CarriedSettles(gs: seq<Grant>, r: State, t: Time)
    requires Fits(gs, r) && Good(r) && AllSane(gs) && Exhausted(r)
    ensures var e := Settle(gs, r, t);
      && Good(e) && Exhausted(e) && e.usage == r.usage && e.burnt == r.burnt + r.overage - e.overage
      && e.overage == Max(0.0, r.overage - Total(Refilled(gs, t)))
  {
    ServeGood(gs, r, t, 0.0);
    ServeExhausts(gs, r, t, 0.0);
    FloorsNonNegative(gs, t);
    assert 0.0 + r.overage == r.overage;
    if r.overage == 0.0 { SettleWithoutOverage(gs, r, t); } else {
      EmptySteps(gs, r.bals, t);
      BurnTotals(Refilled(gs, t), r.overage);
    }
  }

  // --------------------------------------------- the owner's reset and others

  /** A choice about overage other than the owner's is recorded nowhere but in the row: it stands
      for the owner's reset exactly when there was no overage to decide about. */
  lemma OverrideIff(gs: seq<Grant>, s: State, t: Time, preserve: bool)
    requires Fits(gs, s) && Good(s) && AllSane(gs) && Exhausted(s)
    ensures SameFrom(gs, Settle(gs, Reset(gs, s, t, preserve), t), Reset(gs, s, t, !preserve), t) <==> s.overage == 0.0
  {
    NothingCarried(gs, s, t, false);
    if s.overage == 0.0 { NothingCarried(gs, s, t, true); } else {
      CarriedOnce(gs, s, t);
      CarriedSettles(gs, Reset(gs, s, t, preserve), t);
    }
  }

  /** A reset that overage survives without being burnt. */
  lemma CarriedThrough(gs: seq<Grant>, s: State, t: Time)
    requires Fits(gs, s) && Good(s) && AllSane(gs) && Exhausted(s) && s.overage > 0.0
    requires Total(Floors(gs, t)) == 0.0 && Total(Refilled(gs, t)) == 0.0
    ensures var r := Reset(gs, s, t, true); var e := Settle(gs, r, t);
      && Good(r) && Exhausted(r) && Good(e) && Exhausted(e)
      && r.overage == e.overage == s.overage && r.usage == e.usage == r.burnt == e.burnt == 0.0
      && EnterAll(gs, r.bals, t) == EnterAll(gs, e.bals, t) == Refilled(gs, t)
  {
    var r := Reset(gs, s, t, true);
    CarriedOnce(gs, s, t);
    CarriedSettles(gs, r, t);
    EmptySteps(gs, r.bals, t);
    EmptySteps(gs, Settle(gs, r, t).bals, t);
  }

  /** A second reset of the same kind at the same time does no harm exactly when no overage is
      carried, or none of it is burnt. */
  lemma TwiceIff(gs: seq<Grant>, s: State, t: Time, preserve: bool)
    requires Fits(gs, s) && Good(s) && AllSane(gs) && Exhausted(s)
    ensures SameFrom(gs, Settle(gs, Resets(gs, s, t, preserve, 2), t), Reset(gs, s, t, preserve), t) <==>
            !preserve || s.overage == 0.0 || (Total(Floors(gs, t)) == 0.0 && NoRefill(gs, t))
  {
    if !preserve || s.overage == 0.0 { NothingCarried(gs, s, t, preserve); } else {
      var r := Reset(gs, s, t, true);
      var e := Settle(gs, r, t);
      assert Resets(gs, s, t, true, 1) == r;
      RefilledEmptyIff(gs, t);
      FloorsNonNegative(gs, t);
      CarriedOnce(gs, s, t);
      CarriedSettles(gs, r, t);
      if Total(Floors(gs, t)) == 0.0 && NoRefill(gs, t) {
        CarriedThrough(gs, s, t);
        CarriedThrough(gs, e, t);
      } else {
        CarriedAgain(gs, e, t);
        assert e.overage < s.overage;
      }
    }
  }

  /** After another reset the overage carried into it is either burnt or still overage. */
  lemma CarriedAgain(gs: seq<Grant>, e: State, t: Time)
    requires Fits(gs, e) && Good(e) && AllSane(gs) && Exhausted(e)
    ensures var f := Settle(gs, Reset(gs, e, t, true), t); f.burnt + f.overage == e.overage
  {
    if e.overage > 0.0 {
      CarriedOnce(gs, e, t);
      CarriedSettles(gs, Reset(gs, e, t, true), t);
    } else {
      NothingCarried(gs, e, t, true);
    }
  }

  lemma BurnLowers(bals: seq<real>, usage: real)
    requires NonNegative(bals) && usage >= 0.0
    ensures forall i :: 0 <= i < |bals| ==> 0.0 <= Burn(bals, usage).bals[i] <= bals[i]
  {
    forall i | 0 <= i < |bals| ensures 0.0 <= Burn(bals, usage).bals[i] <= bals[i] { BurnInOrder(bals, usage, i); }
  }

  /** Rolled over again, what was burnt from rolled-over balances is given back. */
  lemma RolledBack(gs: seq<Grant>, s: State, t: Time)
    requires Fits(gs, s) && Good(s) && AllSane(gs) && Exhausted(s) && s.overage > 0.0
    ensures var e := Settle(gs, Reset(gs, s, t, true), t);
      EnterAll(gs, RollAll(gs, e.bals, t), t) == EnterAll(gs, Floors(gs, t), t)
  {
    var r := Reset(gs, s, t, true);
    var e := Settle(gs, r, t);
    var rolled := RollAll(gs, e.bals, t);
    CarriedOnce(gs, s, t);
    FloorsNonNegative(gs, t);
    BurnLowers(Floors(gs, t), s.overage);
    ServeGood(gs, r, t, 0.0);
    BurnLowers(EnterAll(gs, r.bals, t), 0.0 + r.overage);
    forall i | 0 <= i < |gs| ensures Entered(gs[i], rolled[i], t) == Entered(gs[i], Floors(gs, t)[i], t) {
      assert 0.0 <= e.bals[i] <= EnterAll(gs, r.bals, t)[i];
      if Active(gs[i], t) && !Refills(gs[i], t) { RolloverAgain(gs[i], e.bals[i]); }
    }
  }

  /** A second reset finds no overage: its settled state is that of a reset that dropped it. */
  lemma AllBurntByThen(gs: seq<Grant>, s: State, t: Time, e: State)
    requires Fits(gs, s) && Good(s) && AllSane(gs) && Exhausted(s) && s.overage > 0.0
    requires e == Settle(gs, Reset(gs, s, t, true), t) && Good(e) && e.overage == 0.0
    ensures SameFrom(gs, Settle(gs, Reset(gs, e, t, true), t), Reset(gs, s, t, false), t)
  {
    NothingCarried(gs, s, t, false);
    NothingCarried(gs, e, t, true);
    RolledBack(gs, s, t);
    EmptySteps(gs, s.bals, t);
    EnterTwice(gs, RollAll(gs, e.bals, t), t);
    SettleWithoutOverage(gs, Reset(gs, e, t, true), t);
  }

  lemma BurntByThenIff(gs: seq<Grant>, s: State, t: Time, e: State)
    requires Fits(gs, s) && Good(s) && AllSane(gs) && Exhausted(s) && s.overage > 0.0
    requires e == Settle(gs, Reset(gs, s, t, true), t)
    ensures Good(e) && Exhausted(e)
    ensures e.overage == 0.0 <==> s.overage <= Total(Floors(gs, t)) + Total(Refilled(gs, t))
  {
    FloorsNonNegative(gs, t);
    CarriedOnce(gs, s, t);
    CarriedSettles(gs, Reset(gs, s, t, true), t);
  }

  lemma NotAllBurntByThen(gs: seq<Grant>, s: State, t: Time, e: State)
    requires Fits(gs, s) && Good(s) && AllSane(gs)
    requires Fits(gs, e) && Good(e) && Exhausted(e) && e.overage > 0.0
    ensures !SameFrom(gs, Settle(gs, Reset(gs, e, t, true), t), Reset(gs, s, t, false), t)
  {
    NothingCarried(gs, s, t, false);
    CarriedAgain(gs, e, t);
  }

  lemma TwiceIsAgain(gs: seq<Grant>, s: State, t: Time, preserve: bool)
    requires Fits(gs, s)
    ensures Resets(gs, s, t, preserve, 2) == Reset(gs, Settle(gs, Reset(gs, s, t, preserve), t), t, preserve)
  {
    assert Resets(gs, s, t, preserve, 1) == Reset(gs, s, t, preserve);
  }

  /** A second, overage-preserving reset at the time of a reset that drops overage does no harm
      exactly when what grants roll over and refill to covers the overage. */
  lemma TwicePreservedIff(gs: seq<Grant>, s: State, t: Time)
    requires Fits(gs, s) && Good(s) && AllSane(gs) && Exhausted(s)
    ensures SameFrom(gs, Settle(gs, Resets(gs, s, t, true, 2), t), Reset(gs, s, t, false), t) <==>
            s.overage <= Total(Floors(gs, t)) + Total(Refilled(gs, t))
  {
    FloorsNonNegative(gs, t);
    TwiceIsAgain(gs, s, t, true);
    if s.overage == 0.0 {
      NothingCarried(gs, s, t, false);
      NothingCarried(gs, s, t, true);
    } else {
      var e := Settle(gs, Reset(gs, s, t, true), t);
      BurntByThenIff(gs, s, t, e);
      if e.overage == 0.0 { AllBurntByThen(gs, s, t, e); } else { NotAllBurntByThen(gs, s, t, e); }
    }
  }

  // ------------------------------------- runs that come to a different state

  /** The overage that what a reset rolls over to, and what is refilled before it is applied a second
      time, can still cover when nothing may be left of it. */
  function Coverage(gs: seq<Grant>, t: Time, n: nat): real {
    if n == 2 then Total(Floors(gs, t)) + Total(Refilled(gs, t)) else 0.0
  }

  /** What is left of preserved overage after one or two resets and settling shows in the counters. */
  lemma PreservedShows(gs: seq<Grant>, s: State, t: Time, n: nat)
    requires Fits(gs, s) && Good(s) && AllSane(gs) && Exhausted(s) && 1 <= n <= 2 && s.overage > Coverage(gs, t, n)
    ensures var o := Settle(gs, Resets(gs, s, t, true, n), t); o.burnt + o.overage > 0.0
  {
    FloorsNonNegative(gs, t);
    if n == 1 {
      CarriedAgain(gs, s, t);
      assert Resets(gs, s, t, true, 1) == Reset(gs, s, t, true);
    } else {
      var e := Settle(gs, Reset(gs, s, t, true), t);
      TwiceIsAgain(gs, s, t, true);
      BurntByThenIff(gs, s, t, e);
      CarriedAgain(gs, e, t);
    }
  }

  lemma PreservedCovered(gs: seq<Grant>, s: State, t: Time, n: nat)
    requires Fits(gs, s) && Good(s) && AllSane(gs) && Exhausted(s) && 1 <= n <= 2 && s.overage <= Coverage(gs, t, n)
    ensures SameFrom(gs, Settle(gs, Resets(gs, s, t, true, n), t), Reset(gs, s, t, false), t)
  {
    if n == 1 {
      OverrideIff(gs, s, t, true);
      assert Resets(gs, s, t, true, 1) == Reset(gs, s, t, true);
    } else {
      TwicePreservedIff(gs, s, t);
    }
  }

  lemma DroppedOnceOrTwice(gs: seq<Grant>, s: State, t: Time, n: nat)
    requires Fits(gs, s) && Good(s) && AllSane(gs) && 1 <= n <= 2
    ensures SameFrom(gs, Settle(gs, Resets(gs, s, t, false, n), t), Reset(gs, s, t, false), t)
  {
    NothingCarried(gs, s, t, false);
    assert Resets(gs, s, t, false, 1) == Reset(gs, s, t, false);
  }

  /** The balances after a reset that carries nothing. */
  function RolledOver(gs: seq<Grant>, s: State, t: Time): seq<real>
    requires Fits(gs, s)
  {
    EnterAll(gs, RollAll(gs, s.bals, t), t)
  }

  /** Resets that preserve overage, from state `own`, stand for one that drops it, from `due`. */
  lemma PreservingRunIff(gs: seq<Grant>, own: State, due: State, t: Time, n: nat)
    requires Fits(gs, own) && Good(own) && Exhausted(own) && AllSane(gs) && Fits(gs, due) && Good(due) && 1 <= n <= 2
    ensures SameFrom(gs, Settle(gs, Resets(gs, own, t, true, n), t), Reset(gs, due, t, false), t) <==>
            own.overage <= Coverage(gs, t, n) && RolledOver(gs, own, t) == RolledOver(gs, due, t)
  {
    NothingCarried(gs, own, t, false);
    NothingCarried(gs, due, t, false);
    if own.overage <= Coverage(gs, t, n) { PreservedCovered(gs, own, t, n); } else { PreservedShows(gs, own, t, n); }
  }

  /** Resets that drop overage, from state `own`, stand for one that preserves it, from `due`. */
  lemma DroppingRunIff(gs: seq<Grant>, own: State, due: State, t: Time, n: nat)
    requires Fits(gs, own) && Good(own) && AllSane(gs) && Fits(gs, due) && Good(due) && Exhausted(due) && 1 <= n <= 2
    ensures SameFrom(gs, Settle(gs, Resets(gs, own, t, false, n), t), Reset(gs, due, t, true), t) <==>
            due.overage == 0.0 && RolledOver(gs, own, t) == RolledOver(gs, due, t)
  {
    NothingCarried(gs, own, t, false);
    DroppedOnceOrTwice(gs, own, t, n);
    if due.overage == 0.0 { NothingCarried(gs, due, t, true); } else { CarriedOnce(gs, due, t); }
  }

  // ------------------------------------------------------ the reset is dropped

  /** Nothing is counted or carried away by the reset, and every grant keeps its balance. */
  predicate DropHarmless(gs: seq<Grant>, s: State, t: Time, preserve: bool)
    requires Fits(gs, s)
  {
    var floors := Floors(gs, t);
    && s.usage == 0.0 && s.burnt == 0.0 && (preserve || s.overage == 0.0)
    && (s.overage > 0.0 ==> Max(0.0, s.overage - Total(floors)) == Max(0.0, s.overage - Total(Refilled(gs, t))))
    && forall i :: 0 <= i < |gs| && Active(gs[i], t) && !Refills(gs[i], t) ==>
         if s.overage > 0.0 then floors[i] <= Max(0.0, s.overage - Total(floors[..i])) else Rollover(gs[i], s.bals[i]) == s.bals[i]
  }

  lemma DroppedOverage(gs: seq<Grant>, s: State, t: Time)
    requires Fits(gs, s) && Good(s) && AllSane(gs) && Exhausted(s) && s.overage > 0.0
    ensures EnterAll(gs, Settle(gs, s, t).bals, t) == EnterAll(gs, Reset(gs, s, t, true).bals, t) <==>
      forall i :: 0 <= i < |gs| && Active(gs[i], t) && !Refills(gs[i], t) ==>
        Floors(gs, t)[i] <= Max(0.0, s.overage - Total(Floors(gs, t)[..i]))
  {
    var e, r := Settle(gs, s, t), Reset(gs, s, t, true);
    EmptySteps(gs, s.bals, t);
    FloorsNonNegative(gs, t);
    CarriedOnce(gs, s, t);
    forall i | 0 <= i < |gs| ensures
      Entered(gs[i], e.bals[i], t) == Entered(gs[i], r.bals[i], t) <==>
      (Active(gs[i], t) && !Refills(gs[i], t) ==> Floors(gs, t)[i] <= Max(0.0, s.overage - Total(Floors(gs, t)[..i])))
    {
      BurnInOrder(Floors(gs, t), s.overage, i);
      if Active(gs[i], t) && !Refills(gs[i], t) { ZeroStaysZero(Refilled(gs, t), 0.0 + s.overage, i); }
    }
    EnteredEqual(gs, e.bals, r.bals, t);
  }

  lemma EnteredEqual(gs: seq<Grant>, a: seq<real>, b: seq<real>, t: Time)
    requires |a| == |b| == |gs|
    ensures EnterAll(gs, a, t) == EnterAll(gs, b, t) <==>
      forall i :: 0 <= i < |gs| ==> Entered(gs[i], a[i], t) == Entered(gs[i], b[i], t)
  {
    if EnterAll(gs, a, t) == EnterAll(gs, b, t) {
      forall i | 0 <= i < |gs| ensures Entered(gs[i], a[i], t) == Entered(gs[i], b[i], t) {
        assert EnterAll(gs, a, t)[i] == EnterAll(gs, b, t)[i];
      }
    }
  }

  lemma DroppedWithoutOverage(gs: seq<Grant>, s: State, t: Time, preserve: bool)
    requires Fits(gs, s) && Good(s) && AllSane(gs) && s.overage == 0.0
    ensures EnterAll(gs, Settle(gs, s, t).bals, t) == EnterAll(gs, Reset(gs, s, t, preserve).bals, t) <==>
      forall i :: 0 <= i < |gs| && Active(gs[i], t) && !Refills(gs[i], t) ==> Rollover(gs[i], s.bals[i]) == s.bals[i]
  {
    SettleWithoutOverage(gs, s, t);
    NothingCarried(gs, s, t, preserve);
    EnterTwice(gs, s.bals, t);
    EnteredEqual(gs, s.bals, RollAll(gs, s.bals, t), t);
  }

  /** When a dropped reset goes unnoticed. */
  lemma DroppedIff(gs: seq<Grant>, s: State, t: Time, preserve: bool)
    requires Fits(gs, s) && Good(s) && AllSane(gs) && Exhausted(s)
    ensures SameFrom(gs, Settle(gs, s, t), Reset(gs, s, t, preserve), t) <==> DropHarmless(gs, s, t, preserve)
  {
    CarriedSettles(gs, s, t);
    if s.overage == 0.0 {
      DroppedWithoutOverage(gs, s, t, preserve);
      NothingCarried(gs, s, t, preserve);
      SettleWithoutOverage(gs, s, t);
      assert SameCounters(Settle(gs, s, t), Reset(gs, s, t, preserve)) <==> s.usage == 0.0 && s.burnt == 0.0;
    } else if preserve {
      CarriedOnce(gs, s, t);
      DroppedOverage(gs, s, t);
    } else {
      NothingCarried(gs, s, t, preserve);
    }
  }
}
