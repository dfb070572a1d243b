/** What a checkpoint must preserve: states after a walk, and what settling does to them. */
module Checkpoints {
  import opened Grants
  import opened Reference
  import opened Projection

  function Initial(gs: seq<Grant>, t: Time): (s: State)
    ensures Fits(gs, s)
  {
    State(seq(|gs|, i requires 0 <= i < |gs| => if Active(gs[i], t) then gs[i].amount else 0.0), 0.0, 0.0, 0.0)
  }

  /** Where the engine stops: it settles at `until` when that time is its starting point,
      a reset, or a recurrence; otherwise grant activity at `until` is not applied. */
  function Finish(gs: seq<Grant>, env: Env, s: State, from: Time, until: Time): (r: State)
    requires Fits(gs, s)
    ensures Fits(gs, r)
  {
    var w := Walk(gs, env, s, from, until);
    if from == until || env.resets(until) > 0 || RecursAt(gs, until) then Settle(gs, w, until) else w
  }

  /** Overage and unspent balance do not coexist. */
  predicate Exhausted(s: State) {
    s.overage > 0.0 ==> forall i :: 0 <= i < |s.bals| ==> s.bals[i] == 0.0
  }

  lemma ServeExhausts(gs: seq<Grant>, s: State, t: Time, usage: real)
    requires Fits(gs, s) && Good(s) && AllSane(gs) && usage >= 0.0
    ensures Exhausted(Serve(gs, s, t, usage))
  {
    var e := EnterAll(gs, s.bals, t);
    if Burn(e, usage + s.overage).left > 0.0 { OverageExhausts(e, usage + s.overage); }
  }

  lemma ResetExhausts(gs: seq<Grant>, s: State, t: Time, preserve: bool)
    requires Fits(gs, s) && Good(s) && AllSane(gs)
    ensures Exhausted(Reset(gs, s, t, preserve))
  {
    if preserve && s.overage != 0.0 {
      var rolled := RollAll(gs, s.bals, t);
      if Burn(rolled, s.overage).left > 0.0 { OverageExhausts(rolled, s.overage); }
    }
  }

  lemma {:induction false} ResetsExhaust(gs: seq<Grant>, s: State, t: Time, preserve: bool, n: nat)
    requires Fits(gs, s) && Good(s) && AllSane(gs) && Exhausted(s)
    ensures Exhausted(Resets(gs, s, t, preserve, n))
  {
    if n == 1 {
      ResetExhausts(gs, s, t, preserve);
    } else if n > 1 {
      ResetsGood(gs, s, t, preserve, n - 1);
      ServeGood(gs, Resets(gs, s, t, preserve, n - 1), t, 0.0);
      ResetExhausts(gs, Settle(gs, Resets(gs, s, t, preserve, n - 1), t), t, preserve);
    }
  }

  lemma {:induction false} WalkExhausts(gs: seq<Grant>, env: Env, s: State, from: Time, until: Time)
    requires Fits(gs, s) && Good(s) && AllSane(gs) && Metered(env.usage) && Exhausted(s)
    ensures Exhausted(Walk(gs, env, s, from, until)) && Good(Walk(gs, env, s, from, until))
    decreases until - from
  {
    WalkGood(gs, env, s, from, until);
    if from < until {
      var m := until - 1;
      WalkGood(gs, env, s, from, m);
      var w := Walk(gs, env, s, from, m);
      ServeExhausts(gs, w, m, env.usage(m));
      ServeGood(gs, w, m, env.usage(m));
      ResetsExhaust(gs, Serve(gs, w, m, env.usage(m)), until, env.preserve, env.resets(until));
    }
  }

  // ------------------------------------------------------------- settling

  /** No grant with a positive amount is refilled at `t`. */
  predicate NoRefill(gs: seq<Grant>, t: Time) {
    forall i :: 0 <= i < |gs| && Refills(gs[i], t) ==> gs[i].amount == 0.0
  }

  /** Two states from which every later computation is the same. */
  predicate SameFrom(gs: seq<Grant>, a: State, b: State, t: Time)
    requires Fits(gs, a) && Fits(gs, b)
  {
    EnterAll(gs, a.bals, t) == EnterAll(gs, b.bals, t) && SameCounters(a, b)
  }

  lemma {:induction false} TotalOfZeros(bals: seq<real>)
    requires forall i :: 0 <= i < |bals| ==> bals[i] == 0.0
    ensures Total(bals) == 0.0
  {
    if bals != [] { TotalOfZeros(bals[1..]); }
  }

  lemma {:induction false} TotalPositive(bals: seq<real>, i: nat)
    requires NonNegative(bals) && i < |bals| && bals[i] > 0.0
    ensures Total(bals) > 0.0
  {
    TotalNonNegative(bals[1..]);
    if i > 0 { TotalPositive(bals[1..], i - 1); }
  }

  lemma {:induction false} ZerosBurn(bals: seq<real>, u: real)
    requires forall i :: 0 <= i < |bals| ==> bals[i] == 0.0
    ensures Burn(bals, u) == Burnt(bals, u)
  {
    if bals != [] { ZerosBurn(bals[1..], u); }
  }

  /** A settled state is a usable checkpoint exactly when nothing was burnt on settling from a
      grant that would be refilled again: there is no overage, or nothing refills at that time. */
  lemma SettledIsCheckpointIff(gs: seq<Grant>, s: State, t: Time)
    requires Fits(gs, s) && Good(s) && AllSane(gs) && Exhausted(s)
    ensures SameFrom(gs, Settle(gs, s, t), s, t) <==> s.overage == 0.0 || NoRefill(gs, t)
  {
    var e := EnterAll(gs, s.bals, t);
    var b := Burn(e, 0.0 + s.overage);
    if s.overage == 0.0 {
      BurnNothing(e);
      EnterTwice(gs, s.bals, t);
    } else if NoRefill(gs, t) {
      assert forall i :: 0 <= i < |e| ==> e[i] == 0.0;
      ZerosBurn(e, s.overage);
      EnterTwice(gs, s.bals, t);
    } else {
      var i :| 0 <= i < |gs| && Refills(gs[i], t) && gs[i].amount != 0.0;
      assert Sane(gs[i]) && e[i] == gs[i].amount;
      TotalPositive(e, i);
      BurnTotals(e, s.overage);
      assert b.left < s.overage;
    }
  }
}
