/** The meaning of a balance, minute by minute: what the engine's phases must compute. */
module Reference {
  import opened Grants

  // -------------------------------------------------------------- burn-down

  datatype Burnt = Burnt(bals: seq<real>, left: real)

  predicate NonNegative(bals: seq<real>) { forall i :: 0 <= i < |bals| ==> bals[i] >= 0.0 }

  function Total(bals: seq<real>): real {
    if bals == [] then 0.0 else bals[0] + Total(bals[1..])
  }

  /** What a grant keeps of balance `b` when `usage` reaches it, and what usage it passes on. */
  function Keep(b: real, usage: real): real {
    if b == 0.0 then b else if b <= usage then 0.0 else b - usage
  }

  function Rest(b: real, usage: real): real {
    if b == 0.0 then usage else if b <= usage then usage - b else 0.0
  }

  /** Burns `usage` from the balances in order; `left` is what no balance covers. */
  function Burn(bals: seq<real>, usage: real): (r: Burnt)
    ensures |r.bals| == |bals|
  {
    if bals == [] then Burnt([], usage)
    else
      var t := Burn(bals[1..], Rest(bals[0], usage));
      Burnt([Keep(bals[0], usage)] + t.bals, t.left)
  }

  lemma {:induction false} BurnGood(bals: seq<real>, usage: real)
    requires NonNegative(bals) && usage >= 0.0
    ensures NonNegative(Burn(bals, usage).bals) && 0.0 <= Burn(bals, usage).left <= usage
  {
    if bals != [] { BurnGood(bals[1..], Rest(bals[0], usage)); }
  }

  function Max(a: real, b: real): real { if a < b then b else a }

  /** Overage is the usage beyond all balances together, and nothing is lost. */
  lemma {:induction false} BurnTotals(bals: seq<real>, usage: real)
    requires NonNegative(bals) && usage >= 0.0
    ensures Burn(bals, usage).left == Max(0.0, usage - Total(bals))
    ensures Total(Burn(bals, usage).bals) == Max(0.0, Total(bals) - usage)
  {
    if bals != [] {
      var t := Burn(bals[1..], Rest(bals[0], usage));
      BurnTotals(bals[1..], Rest(bals[0], usage));
      TotalNonNegative(bals[1..]);
      assert Burn(bals, usage).bals[1..] == t.bals;
    }
  }

  /** Every grant keeps what the usage does not reach once all earlier grants are exhausted. */
  lemma {:induction false} BurnInOrder(bals: seq<real>, usage: real, i: nat)
    requires NonNegative(bals) && usage >= 0.0 && i < |bals|
    ensures Burn(bals, usage).bals[i] == Max(0.0, bals[i] - Max(0.0, usage - Total(bals[..i])))
  {
    if i > 0 {
      BurnInOrder(bals[1..], Rest(bals[0], usage), i - 1);
      assert bals[..i][1..] == bals[1..][..i - 1];
      TotalNonNegative(bals[1..][..i - 1]);
    }
  }

  lemma {:induction false} PrefixCovers(bals: seq<real>, i: nat, j: nat)
    requires NonNegative(bals) && i < j < |bals|
    ensures Total(bals[..i]) + bals[i] <= Total(bals[..j])
  {
    if i > 0 {
      PrefixCovers(bals[1..], i - 1, j - 1);
      assert bals[..i][1..] == bals[1..][..i - 1] && bals[..j][1..] == bals[1..][..j - 1];
    } else {
      assert bals[..j][1..] == bals[1..][..j - 1];
      TotalNonNegative(bals[1..][..j - 1]);
    }
  }

  /** A later balance is touched only when every earlier one is exhausted. */
  lemma EarlierFirst(bals: seq<real>, usage: real, i: nat, j: nat)
    requires NonNegative(bals) && usage >= 0.0 && i < j < |bals| && Burn(bals, usage).bals[j] < bals[j]
    ensures Burn(bals, usage).bals[i] == 0.0
  {
    BurnInOrder(bals, usage, i);
    BurnInOrder(bals, usage, j);
    PrefixCovers(bals, i, j);
  }

  lemma {:induction false} TotalNonNegative(bals: seq<real>)
    requires NonNegative(bals)
    ensures Total(bals) >= 0.0
  {
    if bals != [] { TotalNonNegative(bals[1..]); }
  }

  lemma {:induction false} BurnNothing(bals: seq<real>)
    requires NonNegative(bals)
    ensures Burn(bals, 0.0) == Burnt(bals, 0.0)
  {
    if bals != [] { BurnNothing(bals[1..]); }
  }

  lemma BurnPastHead(bals: seq<real>, usage: real)
    requires bals != [] && 0.0 <= bals[0] <= usage
    ensures var r, t := Burn(bals, usage), Burn(bals[1..], usage - bals[0]);
      r.bals[0] == 0.0 && r.bals[1..] == t.bals && r.left == t.left
  {
  }

  lemma BurnWithinHead(bals: seq<real>, usage: real)
    requires NonNegative(bals) && bals != [] && 0.0 <= usage < bals[0]
    ensures var r := Burn(bals, usage);
      r.bals[0] == bals[0] - usage && r.bals[1..] == bals[1..] && r.left == 0.0
  {
    BurnNothing(bals[1..]);
  }

  lemma SameBurnt(a: Burnt, b: Burnt)
    requires a.bals != [] && b.bals != [] && a.bals[0] == b.bals[0] && a.bals[1..] == b.bals[1..] && a.left == b.left
    ensures a == b
  {
    assert a.bals == [a.bals[0]] + a.bals[1..] && b.bals == [b.bals[0]] + b.bals[1..];
  }

  lemma FirstPastHead(bals: seq<real>, u: real)
    requires NonNegative(bals) && bals != [] && bals[0] <= u
    ensures var t := Burn(bals[1..], u - bals[0]); Burn(bals, u) == Burnt([0.0] + t.bals, t.left) && t.left >= 0.0
  {
    BurnPastHead(bals, u);
    BurnGood(bals[1..], u - bals[0]);
    var t := Burn(bals[1..], u - bals[0]);
    SameBurnt(Burn(bals, u), Burnt([0.0] + t.bals, t.left));
  }

  lemma FirstWithinHead(bals: seq<real>, u: real)
    requires NonNegative(bals) && bals != [] && 0.0 <= u < bals[0]
    ensures Burn(bals, u) == Burnt([bals[0] - u] + bals[1..], 0.0)
  {
    BurnWithinHead(bals, u);
    SameBurnt(Burn(bals, u), Burnt([bals[0] - u] + bals[1..], 0.0));
  }

  /** The second instalment is burnt from what the first, ending in the tail, has left. */
  lemma SplitInTail(bals: seq<real>, u: real, v: real, t: Burnt)
    requires bals != [] && 0.0 <= bals[0] <= u && v >= 0.0 && t.left >= 0.0 && t == Burn(bals[1..], u - bals[0])
    requires Burn(t.bals, v + t.left) == Burn(bals[1..], u - bals[0] + v)
    ensures Burn([0.0] + t.bals, v + t.left) == Burn(bals, u + v)
  {
    var first := [0.0] + t.bals;
    assert first[1..] == t.bals;
    BurnPastHead(first, v + t.left);
    BurnPastHead(bals, u + v);
    assert u - bals[0] + v == u + v - bals[0];
    SameBurnt(Burn(first, v + t.left), Burn(bals, u + v));
  }

  /** The first instalment ends within the first grant. */
  lemma SplitInHead(bals: seq<real>, u: real, v: real)
    requires NonNegative(bals) && bals != [] && 0.0 <= u < bals[0] && v >= 0.0
    ensures Burn([bals[0] - u] + bals[1..], v) == Burn(bals, u + v)
  {
    var first := [bals[0] - u] + bals[1..];
    assert first[1..] == bals[1..];
    if bals[0] <= u + v {
      BurnPastHead(first, v);
      BurnPastHead(bals, u + v);
      assert v - (bals[0] - u) == u + v - bals[0];
    } else {
      BurnWithinHead(first, v);
      BurnWithinHead(bals, u + v);
    }
    SameBurnt(Burn(first, v), Burn(bals, u + v));
  }

  /** Burning in two instalments, carrying overage, is burning the sum. */
  lemma {:induction false} BurnSplits(bals: seq<real>, u: real, v: real, r: Burnt)
    requires NonNegative(bals) && u >= 0.0 && v >= 0.0 && r == Burn(bals, u)
    ensures Burn(r.bals, v + r.left) == Burn(bals, u + v)
  {
    if bals != [] {
      var b, tail := bals[0], bals[1..];
      if b <= u {
        var t := Burn(tail, u - b);
        FirstPastHead(bals, u);
        BurnSplits(tail, u - b, v, t);
        SplitInTail(bals, u, v, t);
      } else {
        FirstWithinHead(bals, u);
        SplitInHead(bals, u, v);
        assert v + r.left == v;
      }
    }
  }

  /** Overage only remains once every balance is exhausted. */
  lemma {:induction false} OverageExhausts(bals: seq<real>, usage: real)
    requires NonNegative(bals) && usage >= 0.0 && Burn(bals, usage).left > 0.0
    ensures forall i :: 0 <= i < |bals| ==> Burn(bals, usage).bals[i] == 0.0
  {
    if bals != [] {
      OverageExhausts(bals[1..], Rest(bals[0], usage));
      if bals[0] > usage { BurnNothing(bals[1..]); }
    }
  }

  lemma {:induction false} ZeroStaysZero(bals: seq<real>, usage: real, i: nat)
    requires i < |bals| && bals[i] == 0.0
    ensures Burn(bals, usage).bals[i] == 0.0
  {
    if i > 0 {
      ZeroStaysZero(bals[1..], Rest(bals[0], usage), i - 1);
    }
  }

  // ------------------------------------------------------------------ state

  /** Balances in burn-down order, overage, and the usage period's counters. */
  datatype State = State(bals: seq<real>, overage: real, usage: real, burnt: real)

  predicate Fits(gs: seq<Grant>, s: State) { |s.bals| == |gs| }

  predicate Good(s: State) { NonNegative(s.bals) && s.overage >= 0.0 && s.burnt >= 0.0 }

  function Entered(g: Grant, b: real, t: Time): real {
    if !Active(g, t) then 0.0 else if Refills(g, t) then g.amount else b
  }

  function EnterAll(gs: seq<Grant>, bals: seq<real>, t: Time): (r: seq<real>)
    requires |bals| == |gs|
    ensures |r| == |gs|
  {
    seq(|gs|, i requires 0 <= i < |gs| => Entered(gs[i], bals[i], t))
  }

  /** Grant activity at `t` takes effect, nothing is burnt yet. */
  function Enter(gs: seq<Grant>, s: State, t: Time): State
    requires Fits(gs, s)
  {
    s.(bals := EnterAll(gs, s.bals, t))
  }

  /** `usage` is served from the grants as they are at `t`. */
  function Serve(gs: seq<Grant>, s: State, t: Time, usage: real): (r: State)
    requires Fits(gs, s)
    ensures Fits(gs, r)
  {
    var b := Burn(EnterAll(gs, s.bals, t), usage + s.overage);
    State(b.bals, b.left, s.usage + usage, s.burnt + (usage + s.overage - b.left))
  }

  function Settle(gs: seq<Grant>, s: State, t: Time): (r: State)
    requires Fits(gs, s)
    ensures Fits(gs, r)
  {
    Serve(gs, s, t, 0.0)
  }

  function RollAll(gs: seq<Grant>, bals: seq<real>, t: Time): (r: seq<real>)
    requires |bals| == |gs|
    ensures |r| == |gs|
  {
    seq(|gs|, i requires 0 <= i < |gs| => if Active(gs[i], t) then Rollover(gs[i], bals[i]) else bals[i])
  }

  /** While a grant with a greater priority number loses balance, every active grant with a smaller
      number is exhausted. */
  lemma SmallerPriorityFirst(gs: seq<Grant>, s: State, t: Time, usage: real, i: nat, j: nat)
    requires Distinct(gs) && AllSane(gs) && Fits(Prioritize(gs), s) && Good(s) && usage >= 0.0
    requires i < |Prioritize(gs)| && j < |Prioritize(gs)|
    requires Prioritize(gs)[i].priority < Prioritize(gs)[j].priority
    requires var pg := Prioritize(gs); Serve(pg, s, t, usage).bals[j] < Enter(pg, s, t).bals[j]
    ensures Serve(Prioritize(gs), s, t, usage).bals[i] == 0.0
  {
    var pg := Prioritize(gs);
    PrioritizePermutes(gs);
    forall k | 0 <= k < |pg| ensures Sane(pg[k]) { assert pg[k] in gs; }
    if j < i { PrioritizeByFields(gs, j, i); }
    EarlierFirst(EnterAll(pg, s.bals, t), usage + s.overage, i, j);
  }

  /** A usage reset at `t`: active grants roll over, preserved overage is burnt. */
  function Reset(gs: seq<Grant>, s: State, t: Time, preserve: bool): (r: State)
    requires Fits(gs, s)
    ensures Fits(gs, r)
  {
    var kept := if preserve then s.overage else 0.0;
    var rolled := RollAll(gs, s.bals, t);
    var b := if kept != 0.0 then Burn(rolled, kept) else Burnt(rolled, 0.0);
    State(b.bals, b.left, 0.0, kept - b.left)
  }

  /** `n` resets recorded for the same time; each later one follows an empty period. */
  function Resets(gs: seq<Grant>, s: State, t: Time, preserve: bool, n: nat): (r: State)
    requires Fits(gs, s)
    ensures Fits(gs, r)
  {
    if n == 0 then s
    else if n == 1 then Reset(gs, s, t, preserve)
    else Reset(gs, Settle(gs, Resets(gs, s, t, preserve, n - 1), t), t, preserve)
  }

  /** Usage per minute, number of resets per minute, and what resets do with overage. */
  datatype Env = Env(usage: Time -> real, resets: Time -> nat, preserve: bool)

  ghost predicate Metered(usage: Time -> real) { forall t: Time :: usage(t) >= 0.0 }

  /** The state at `until` (resets at `until` applied, grant activity at `until` not yet). */
  function Walk(gs: seq<Grant>, env: Env, s: State, from: Time, until: Time): (r: State)
    requires Fits(gs, s)
    ensures Fits(gs, r)
    decreases until - from
  {
    if until <= from then s
    else
      var w := Walk(gs, env, s, from, until - 1);
      Resets(gs, Serve(gs, w, until - 1, env.usage(until - 1)), until, env.preserve, env.resets(until))
  }

  /** The last minute of a walk. */
  lemma WalkLast(gs: seq<Grant>, env: Env, s: State, from: Time, until: Time, before: State)
    requires Fits(gs, s) && from < until && before == Walk(gs, env, s, from, until - 1)
    ensures Walk(gs, env, s, from, until) ==
      Resets(gs, Serve(gs, before, until - 1, env.usage(until - 1)), until, env.preserve, env.resets(until))
  {
  }

  function UsageIn(usage: Time -> real, from: Time, until: Time): real
    decreases until - from
  {
    if until <= from then 0.0 else UsageIn(usage, from, until - 1) + usage(until - 1)
  }

  lemma {:induction false} UsageLocal(a: Time -> real, b: Time -> real, from: Time, until: Time)
    requires forall t: Time :: from <= t < until ==> a(t) == b(t)
    ensures UsageIn(a, from, until) == UsageIn(b, from, until)
    decreases until - from
  {
    if from < until { UsageLocal(a, b, from, until - 1); }
  }

  lemma {:induction false} UsageNonNegative(usage: Time -> real, from: Time, until: Time)
    requires Metered(usage)
    ensures UsageIn(usage, from, until) >= 0.0
    decreases until - from
  {
    if from < until { UsageNonNegative(usage, from, until - 1); }
  }

  /** Balances, overage and what was burnt stay non-negative. */
  lemma ServeGood(gs: seq<Grant>, s: State, t: Time, usage: real)
    requires Fits(gs, s) && Good(s) && AllSane(gs) && usage >= 0.0
    ensures NonNegative(EnterAll(gs, s.bals, t)) && Good(Serve(gs, s, t, usage))
  {
    BurnGood(EnterAll(gs, s.bals, t), usage + s.overage);
  }

  lemma ResetGood(gs: seq<Grant>, s: State, t: Time, preserve: bool)
    requires Fits(gs, s) && Good(s) && AllSane(gs)
    ensures NonNegative(RollAll(gs, s.bals, t)) && Good(Reset(gs, s, t, preserve))
  {
    BurnGood(RollAll(gs, s.bals, t), s.overage);
  }

  lemma {:induction false} ResetsGood(gs: seq<Grant>, s: State, t: Time, preserve: bool, n: nat)
    requires Fits(gs, s) && Good(s) && AllSane(gs)
    ensures Good(Resets(gs, s, t, preserve, n))
  {
    if n == 1 {
      ResetGood(gs, s, t, preserve);
    } else if n > 1 {
      ResetsGood(gs, s, t, preserve, n - 1);
      var r := Resets(gs, s, t, preserve, n - 1);
      ServeGood(gs, r, t, 0.0);
      ResetGood(gs, Settle(gs, r, t), t, preserve);
    }
  }

  lemma {:induction false} WalkGood(gs: seq<Grant>, env: Env, s: State, from: Time, until: Time)
    requires Fits(gs, s) && Good(s) && AllSane(gs) && Metered(env.usage)
    ensures Good(Walk(gs, env, s, from, until))
    decreases until - from
  {
    if from < until {
      var m := until - 1;
      WalkGood(gs, env, s, from, m);
      var w := Walk(gs, env, s, from, m);
      ServeGood(gs, w, m, env.usage(m));
      ResetsGood(gs, Serve(gs, w, m, env.usage(m)), until, env.preserve, env.resets(until));
    }
  }

  /** A walk can be cut at any intermediate time. */
  lemma {:induction false} WalkSplits(gs: seq<Grant>, env: Env, s: State, from: Time, mid: Time, until: Time)
    requires Fits(gs, s) && from <= mid <= until
    ensures Walk(gs, env, Walk(gs, env, s, from, mid), mid, until) == Walk(gs, env, s, from, until)
    decreases until - mid
  {
    if mid < until { WalkSplits(gs, env, s, from, mid, until - 1); }
  }

  /** A walk depends only on the usage before its end and the resets up until its end. */
  lemma {:induction false} WalkLocal(gs: seq<Grant>, e1: Env, e2: Env, s: State, from: Time, until: Time)
    requires Fits(gs, s) && e1.preserve == e2.preserve
    requires forall t: Time :: from <= t < until ==> e1.usage(t) == e2.usage(t)
    requires forall t: Time :: from < t <= until ==> e1.resets(t) == e2.resets(t)
    ensures Walk(gs, e1, s, from, until) == Walk(gs, e2, s, from, until)
    decreases until - from
  {
    if from < until { WalkLocal(gs, e1, e2, s, from, until - 1); }
  }

  /** Nothing is lost between resets: usage and carried overage are either burnt or overage. */
  lemma {:induction false} WalkConserves(gs: seq<Grant>, env: Env, s: State, from: Time, until: Time)
    requires Fits(gs, s) && forall t: Time :: from < t <= until ==> env.resets(t) == 0
    ensures var w, used := Walk(gs, env, s, from, until), UsageIn(env.usage, from, until);
      w.usage == s.usage + used && (w.burnt - s.burnt) + w.overage == s.overage + used
    decreases until - from
  {
    if from < until { WalkConserves(gs, env, s, from, until - 1); }
  }

  /** A reset starts the counters anew with the overage it preserves. */
  lemma ResetConserves(gs: seq<Grant>, s: State, t: Time, preserve: bool)
    requires Fits(gs, s) && Good(s) && AllSane(gs)
    ensures var r := Reset(gs, s, t, preserve);
      && r.usage == 0.0 && r.burnt + r.overage == (if preserve then s.overage else 0.0)
      && Total(r.bals) + r.burnt == Total(RollAll(gs, s.bals, t))
  {
    var rolled := RollAll(gs, s.bals, t);
    ResetGood(gs, s, t, preserve);
    BurnTotals(rolled, s.overage);
  }

  // ------------------------------------------------------ entering is idempotent

  lemma EnterTwice(gs: seq<Grant>, bals: seq<real>, t: Time)
    requires |bals| == |gs|
    ensures EnterAll(gs, EnterAll(gs, bals, t), t) == EnterAll(gs, bals, t)
  {
  }

  /** Only the entered state matters for what follows. */
  lemma ServeEntered(gs: seq<Grant>, s: State, t: Time, usage: real)
    requires Fits(gs, s)
    ensures Serve(gs, Enter(gs, s, t), t, usage) == Serve(gs, s, t, usage)
  {
    EnterTwice(gs, s.bals, t);
  }

  lemma {:induction false} WalkEntered(gs: seq<Grant>, env: Env, s: State, from: Time, until: Time)
    requires Fits(gs, s) && from < until
    ensures Walk(gs, env, Enter(gs, s, from), from, until) == Walk(gs, env, s, from, until)
    decreases until - from
  {
    if from < until - 1 { WalkEntered(gs, env, s, from, until - 1); } else { ServeEntered(gs, s, from, env.usage(from)); }
  }

  // --------------------------------------------------- one phase is many minutes

  /** No grant changes strictly between the ends of the phase. */
  ghost predicate Quiet(gs: seq<Grant>, from: Time, until: Time) {
    forall t, i :: from < t < until && 0 <= i < |gs| ==> !Event(gs[i], t)
  }

  lemma QuietEnter(gs: seq<Grant>, bals: seq<real>, from: Time, t: Time, usage: real)
    requires |bals| == |gs| && from < t && Quiet(gs, from, t + 1)
    ensures var r := Burn(EnterAll(gs, bals, from), usage).bals; EnterAll(gs, r, t) == r
  {
    var e := EnterAll(gs, bals, from);
    var r := Burn(e, usage).bals;
    forall i | 0 <= i < |gs| ensures Entered(gs[i], r[i], t) == r[i] {
      forall x | from < x <= t ensures !ChangesAt(gs[i], x) { assert !Event(gs[i], x); }
      ActivityIsStable(gs[i], from, t);
      assert !Event(gs[i], t);
      if !Active(gs[i], from) { ZeroStaysZero(e, usage, i); }
    }
  }

  lemma ServeTwice(gs: seq<Grant>, s: State, from: Time, m: Time, u: real, v: real)
    requires Fits(gs, s) && Good(s) && AllSane(gs) && u >= 0.0 && v >= 0.0
    requires from < m && Quiet(gs, from, m + 1)
    ensures Serve(gs, Serve(gs, s, from, u), m, v) == Serve(gs, s, from, u + v)
  {
    var e := EnterAll(gs, s.bals, from);
    var b := Burn(e, u + s.overage);
    QuietEnter(gs, s.bals, from, m, u + s.overage);
    BurnSplits(e, u + s.overage, v, b);
    assert u + s.overage + v == (u + v) + s.overage;
    var c := Burn(b.bals, v + b.left);
    assert (s.burnt + (u + s.overage - b.left)) + (v + b.left - c.left) == s.burnt + ((u + v) + s.overage - c.left);
  }

  /** Serving a quiet phase at once is serving it minute by minute. */
  lemma {:induction false} PhaseIsWalk(gs: seq<Grant>, env: Env, s: State, from: Time, until: Time)
    requires Fits(gs, s) && Good(s) && AllSane(gs) && Metered(env.usage)
    requires from < until && Quiet(gs, from, until)
    requires forall t: Time :: from < t <= until ==> env.resets(t) == 0
    ensures Walk(gs, env, s, from, until) == Serve(gs, s, from, UsageIn(env.usage, from, until))
    decreases until - from
  {
    var m := until - 1;
    var w := Walk(gs, env, s, from, m);
    assert Walk(gs, env, s, from, until) == Serve(gs, w, m, env.usage(m));
    if from == m {
      assert UsageIn(env.usage, from, until) == env.usage(m);
    } else {
      PhaseIsWalk(gs, env, s, from, m);
      UsageNonNegative(env.usage, from, m);
      ServeTwice(gs, s, from, m, UsageIn(env.usage, from, m), env.usage(m));
    }
  }
}
