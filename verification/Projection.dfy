/** A run over some of the grants is the projection of the run over all of them,
    as long as the grants left out stay inactive. */
module Projection {
  import opened Grants
  import opened Reference
  import opened Balances

  function Pick<T>(xs: seq<T>, mask: seq<bool>): seq<T>
    requires |xs| == |mask|
  {
    if xs == [] then []
    else if mask[0] then [xs[0]] + Pick(xs[1..], mask[1..])
    else Pick(xs[1..], mask[1..])
  }

  lemma {:induction false} PickSameLength<T, U>(xs: seq<T>, ys: seq<U>, mask: seq<bool>)
    requires |xs| == |ys| == |mask|
    ensures |Pick(xs, mask)| == |Pick(ys, mask)|
  {
    if xs != [] { PickSameLength(xs[1..], ys[1..], mask[1..]); }
  }

  /** Vectors that agree on the picked and on the other positions are equal. */
  lemma {:induction false} PickExtensional(a: seq<real>, b: seq<real>, mask: seq<bool>)
    requires |a| == |b| == |mask| && Pick(a, mask) == Pick(b, mask)
    requires forall i :: 0 <= i < |mask| && !mask[i] ==> a[i] == b[i]
    ensures a == b
  {
    if a != [] {
      if mask[0] {
        assert a[0] == Pick(a, mask)[0] && b[0] == Pick(b, mask)[0];
        assert Pick(a[1..], mask[1..]) == Pick(a, mask)[1..];
        assert Pick(b[1..], mask[1..]) == Pick(b, mask)[1..];
      }
      PickExtensional(a[1..], b[1..], mask[1..]);
      assert a == [a[0]] + a[1..] && b == [b[0]] + b[1..];
    }
  }

  /** Balances of the grants outside the mask are zero. */
  predicate ZeroOutside(bals: seq<real>, mask: seq<bool>)
    requires |bals| == |mask|
  {
    forall i :: 0 <= i < |bals| && !mask[i] ==> bals[i] == 0.0
  }

  predicate SameCounters(a: State, b: State) {
    a.overage == b.overage && a.usage == b.usage && a.burnt == b.burnt
  }

  predicate Projects(mask: seq<bool>, full: State, part: State) {
    && |mask| == |full.bals|
    && part.bals == Pick(full.bals, mask)
    && ZeroOutside(full.bals, mask)
    && SameCounters(full, part)
  }

  ghost predicate InactiveOutside(gs: seq<Grant>, mask: seq<bool>, t: Time)
    requires |gs| == |mask|
  {
    forall i :: 0 <= i < |gs| && !mask[i] ==> !Active(gs[i], t)
  }

  lemma {:induction false} PickBurn(bals: seq<real>, mask: seq<bool>, u: real)
    requires |bals| == |mask| && ZeroOutside(bals, mask)
    ensures Pick(Burn(bals, u).bals, mask) == Burn(Pick(bals, mask), u).bals
    ensures Burn(bals, u).left == Burn(Pick(bals, mask), u).left
    ensures ZeroOutside(Burn(bals, u).bals, mask)
  {
    forall i | 0 <= i < |bals| && !mask[i] ensures Burn(bals, u).bals[i] == 0.0 { ZeroStaysZero(bals, u, i); }
    if bals != [] {
      var rest := Rest(bals[0], u);
      PickBurn(bals[1..], mask[1..], rest);
      var r, t := Burn(bals, u), Burn(bals[1..], rest);
      assert r.bals[1..] == t.bals;
      if mask[0] {
        var p := Pick(bals[1..], mask[1..]);
        assert ([bals[0]] + p)[1..] == p;
      }
    }
  }

  lemma {:induction false} PickEnter(gs: seq<Grant>, bals: seq<real>, mask: seq<bool>, t: Time)
    requires |gs| == |bals| == |mask|
    ensures |Pick(gs, mask)| == |Pick(bals, mask)|
    ensures Pick(EnterAll(gs, bals, t), mask) == EnterAll(Pick(gs, mask), Pick(bals, mask), t)
  {
    PickSameLength(gs, bals, mask);
    if gs != [] {
      PickEnter(gs[1..], bals[1..], mask[1..], t);
      assert EnterAll(gs, bals, t)[1..] == EnterAll(gs[1..], bals[1..], t);
    }
  }

  lemma {:induction false} PickRoll(gs: seq<Grant>, bals: seq<real>, mask: seq<bool>, t: Time)
    requires |gs| == |bals| == |mask|
    ensures |Pick(gs, mask)| == |Pick(bals, mask)|
    ensures Pick(RollAll(gs, bals, t), mask) == RollAll(Pick(gs, mask), Pick(bals, mask), t)
  {
    PickSameLength(gs, bals, mask);
    if gs != [] {
      PickRoll(gs[1..], bals[1..], mask[1..], t);
      assert RollAll(gs, bals, t)[1..] == RollAll(gs[1..], bals[1..], t);
    }
  }

  lemma EnterProjects(gs: seq<Grant>, mask: seq<bool>, full: State, part: State, t: Time)
    requires |gs| == |mask| && Fits(gs, full) && part.bals == Pick(full.bals, mask) && SameCounters(full, part)
    requires InactiveOutside(gs, mask, t)
    ensures Fits(Pick(gs, mask), part)
    ensures Projects(mask, Enter(gs, full, t), Enter(Pick(gs, mask), part, t))
  {
    PickEnter(gs, full.bals, mask, t);
  }

  lemma ServeFrom(gs: seq<Grant>, s: State, t: Time, usage: real, e: seq<real>, b: Burnt)
    requires Fits(gs, s) && e == EnterAll(gs, s.bals, t) && b == Burn(e, usage + s.overage)
    ensures Serve(gs, s, t, usage) == State(b.bals, b.left, s.usage + usage, s.burnt + (usage + s.overage - b.left))
  {
  }

  /** Serving usage commutes with leaving inactive grants out. */
  lemma ServeProjects(gs: seq<Grant>, mask: seq<bool>, full: State, part: State, t: Time, usage: real)
    requires |gs| == |mask| && Projects(mask, full, part) && InactiveOutside(gs, mask, t)
    ensures Fits(Pick(gs, mask), part)
    ensures Projects(mask, Serve(gs, full, t, usage), Serve(Pick(gs, mask), part, t, usage))
  {
    var e, u := EnterAll(gs, full.bals, t), usage + full.overage;
    PickEnter(gs, full.bals, mask, t);
    PickBurn(e, mask, u);
    ServeFrom(gs, full, t, usage, e, Burn(e, u));
    ServeFrom(Pick(gs, mask), part, t, usage, Pick(e, mask), Burn(Pick(e, mask), u));
  }

  /** A reset leaves a grant outside the mask at zero. */
  predicate Neutral(g: Grant, t: Time) {
    !Active(g, t) || Rollover(g, 0.0) == 0.0
  }

  lemma ResetProjects(gs: seq<Grant>, mask: seq<bool>, full: State, part: State, t: Time, preserve: bool)
    requires |gs| == |mask| && Projects(mask, full, part)
    requires forall i :: 0 <= i < |gs| && !mask[i] ==> Neutral(gs[i], t)
    ensures Fits(Pick(gs, mask), part)
    ensures Projects(mask, Reset(gs, full, t, preserve), Reset(Pick(gs, mask), part, t, preserve))
  {
    PickRoll(gs, full.bals, mask, t);
    PickBurn(RollAll(gs, full.bals, t), mask, if preserve then full.overage else 0.0);
  }

  lemma {:induction false} ResetsProject(gs: seq<Grant>, mask: seq<bool>, full: State, part: State, t: Time, preserve: bool, n: nat)
    requires |gs| == |mask| && Projects(mask, full, part) && (n > 0 ==> InactiveOutside(gs, mask, t))
    ensures Fits(Pick(gs, mask), part)
    ensures Projects(mask, Resets(gs, full, t, preserve, n), Resets(Pick(gs, mask), part, t, preserve, n))
  {
    PickSameLength(gs, full.bals, mask);
    if n == 1 {
      ResetProjects(gs, mask, full, part, t, preserve);
    } else if n > 1 {
      ResetsProject(gs, mask, full, part, t, preserve, n - 1);
      var f, p := Resets(gs, full, t, preserve, n - 1), Resets(Pick(gs, mask), part, t, preserve, n - 1);
      ServeProjects(gs, mask, f, p, t, 0.0);
      ResetProjects(gs, mask, Settle(gs, f, t), Settle(Pick(gs, mask), p, t), t, preserve);
    }
  }

  /** Leaving out grants that stay inactive does not change a walk. */
  lemma {:induction false} WalkProjects(gs: seq<Grant>, mask: seq<bool>, env: Env, full: State, part: State, from: Time, until: Time)
    requires |gs| == |mask| && Projects(mask, full, part)
    requires forall t :: from <= t <= until ==> InactiveOutside(gs, mask, t)
    ensures Fits(Pick(gs, mask), part)
    ensures Projects(mask, Walk(gs, env, full, from, until), Walk(Pick(gs, mask), env, part, from, until))
    decreases until - from
  {
    PickSameLength(gs, full.bals, mask);
    if from < until {
      var m := until - 1;
      WalkProjects(gs, mask, env, full, part, from, m);
      var f, p := Walk(gs, env, full, from, m), Walk(Pick(gs, mask), env, part, from, m);
      assert InactiveOutside(gs, mask, m) && InactiveOutside(gs, mask, until);
      ServeProjects(gs, mask, f, p, m, env.usage(m));
      ResetsProject(gs, mask, Serve(gs, f, m, env.usage(m)), Serve(Pick(gs, mask), p, m, env.usage(m)), until, env.preserve, env.resets(until));
    }
  }

  // ----------------------------------------------------------------- listing

  function ListMask(gs: seq<Grant>, from: Time, until: Time): (m: seq<bool>)
    ensures |m| == |gs|
  {
    seq(|gs|, i requires 0 <= i < |gs| => Listed(gs[i], from, until))
  }

  lemma {:induction false} PickListed(gs: seq<Grant>, from: Time, until: Time)
    ensures Pick(gs, ListMask(gs, from, until)) == ListActive(gs, from, until)
  {
    if gs != [] {
      PickListed(gs[1..], from, until);
      assert ListMask(gs, from, until)[1..] == ListMask(gs[1..], from, until);
      var l := ListActive(gs[1..], from, until);
      assert [] + l == l;
    }
  }

  lemma ListedProjects(gs: seq<Grant>, from: Time, until: Time)
    requires AllSane(gs) && from <= until
    ensures forall t :: from <= t <= until ==> InactiveOutside(gs, ListMask(gs, from, until), t)
  {
    forall t | from <= t <= until ensures InactiveOutside(gs, ListMask(gs, from, until), t) {
      forall i | 0 <= i < |gs| && !ListMask(gs, from, until)[i] ensures !Active(gs[i], t) {
        UnlistedIsInactive(gs[i], from, until, t);
      }
    }
  }

  lemma {:induction false} PickActiveMap(gs: seq<Grant>, bals: seq<real>, mask: seq<bool>, t: Time)
    requires |gs| == |bals| == |mask| && InactiveOutside(gs, mask, t)
    ensures |Pick(gs, mask)| == |Pick(bals, mask)|
    ensures ActiveMap(Pick(gs, mask), Pick(bals, mask), t) == ActiveMap(gs, bals, t)
  {
    PickSameLength(gs, bals, mask);
    if gs != [] {
      forall i | 0 <= i < |gs[1..]| && !mask[1..][i] ensures !Active(gs[1..][i], t) { assert !mask[i + 1]; }
      PickActiveMap(gs[1..], bals[1..], mask[1..], t);
      if mask[0] {
        var p, q := Pick(gs[1..], mask[1..]), Pick(bals[1..], mask[1..]);
        assert ([gs[0]] + p)[1..] == p && ([bals[0]] + q)[1..] == q;
      }
    }
  }
}
