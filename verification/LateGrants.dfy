/** When a grant that is new at a reset, or gone at it, goes unnoticed in what the reset burnt. */
module LateGrants {
  import opened Grants
  import opened Reference
  import opened Projection
  import opened Checkpoints
  import opened ResetRows

  lemma {:induction false} TotalSplits(bals: seq<real>, i: nat)
    requires i < |bals|
    ensures Total(bals[..i + 1]) == Total(bals[..i]) + bals[i]
  {
    if i > 0 {
      TotalSplits(bals[1..], i - 1);
      assert bals[..i + 1][1..] == bals[1..][..i] && bals[..i][1..] == bals[1..][..i - 1];
    } else {
      assert bals[..1][1..] == [];
    }
  }

  lemma {:induction false} TotalWith(bals: seq<real>, k: nat, r: real)
    requires k < |bals| && bals[k] == 0.0
    ensures Total(bals[k := r]) == Total(bals) + r
  {
    if k > 0 {
      TotalWith(bals[1..], k - 1, r);
      assert bals[k := r][1..] == bals[1..][k - 1 := r];
    } else {
      assert bals[k := r][1..] == bals[1..];
    }
  }

  /** The grant in place `i` is not reached by overage `o`, or exhausted even if `r` was burnt first. */
  predicate Spared(rolled: seq<real>, i: nat, r: real, o: real)
    requires i < |rolled|
  {
    o <= Total(rolled[..i]) || rolled[i] == 0.0 || Total(rolled[..i]) + rolled[i] + r <= o
  }

  /** Burning overage `o` leaves the same overage, and the same to the grants of `kept`, whether or
      not a grant in place `k` contributes `r`: the others cover the overage, and the kept grants
      behind are spared. */
  predicate Unnoticed(rolled: seq<real>, k: nat, r: real, o: real, kept: seq<bool>)
    requires |kept| == |rolled|
  {
    r == 0.0 || (o <= Total(rolled) && forall i :: k < i < |rolled| && kept[i] ==> Spared(rolled, i, r, o))
  }

  /** One grant behind. */
  lemma KeepsSameIff(b: real, t: real, r: real, o: real)
    requires b >= 0.0 && t >= 0.0 && r > 0.0 && o >= 0.0
    ensures Max(0.0, b - Max(0.0, o - t)) == Max(0.0, b - Max(0.0, o - (t + r))) <==>
            o <= t || b == 0.0 || t + b + r <= o
  {
  }

  lemma WithKeepsSameIff(rolled: seq<real>, k: nat, r: real, o: real, i: nat)
    requires NonNegative(rolled) && k < |rolled| && rolled[k] == 0.0 && r > 0.0 && o >= 0.0 && i < |rolled| && i != k
    ensures Burn(rolled[k := r], o).bals[i] == Burn(rolled, o).bals[i] <==>
      i < k || Spared(rolled, i, r, o)
  {
    BurnInOrder(rolled, o, i);
    BurnInOrder(rolled[k := r], o, i);
    TotalNonNegative(rolled[..i]);
    if i < k { assert rolled[k := r][..i] == rolled[..i]; } else {
      assert rolled[k := r][..i] == rolled[..i][k := r];
      TotalWith(rolled[..i], k, r);
      KeepsSameIff(rolled[i], Total(rolled[..i]), r, o);
    }
  }

  lemma LeftSameIff(rolled: seq<real>, k: nat, r: real, o: real)
    requires NonNegative(rolled) && k < |rolled| && rolled[k] == 0.0 && r > 0.0 && o >= 0.0
    ensures Burn(rolled[k := r], o).left == Burn(rolled, o).left <==> o <= Total(rolled)
  {
    BurnTotals(rolled, o);
    BurnTotals(rolled[k := r], o);
    TotalWith(rolled, k, r);
    TotalNonNegative(rolled);
  }

  /** The two burns agree on the overage left and on the kept grants. */
  predicate SameKept(a: Burnt, b: Burnt, kept: seq<bool>)
    requires |a.bals| == |b.bals| == |kept|
  {
    a.left == b.left && forall i :: 0 <= i < |kept| && kept[i] ==> a.bals[i] == b.bals[i]
  }

  lemma UnnoticedIff(rolled: seq<real>, k: nat, r: real, o: real, kept: seq<bool>)
    requires NonNegative(rolled) && k < |rolled| == |kept| && rolled[k] == 0.0 && r >= 0.0 && o >= 0.0 && !kept[k]
    ensures SameKept(Burn(rolled, o), Burn(rolled[k := r], o), kept) <==> Unnoticed(rolled, k, r, o, kept)
  {
    if r == 0.0 { assert rolled[k := r] == rolled; } else {
      var a, b := Burn(rolled, o), Burn(rolled[k := r], o);
      LeftSameIff(rolled, k, r, o);
      forall i | 0 <= i < |rolled| && i != k ensures b.bals[i] == a.bals[i] <==> i < k || Spared(rolled, i, r, o) {
        WithKeepsSameIff(rolled, k, r, o, i);
      }
    }
  }

  /** If every grant behind keeps its balance, the overage must be covered by the grants ahead. */
  lemma UnnoticedWhenAllKeptIff(rolled: seq<real>, k: nat, r: real, o: real, kept: seq<bool>)
    requires NonNegative(rolled) && k < |rolled| == |kept| && rolled[k] == 0.0 && r >= 0.0
    requires forall i :: k < i < |kept| && rolled[i] > 0.0 ==> kept[i]
    ensures Unnoticed(rolled, k, r, o, kept) <==> r == 0.0 || o <= Total(rolled[..k])
  {
    assert rolled[..|rolled|] == rolled;
    if o <= Total(rolled[..k]) {
      forall i | k <= i <= |rolled| ensures Total(rolled[..k]) <= Total(rolled[..i]) { PrefixGrows(rolled, k, i); }
      assert o <= Total(rolled[..|rolled|]);
    } else if r > 0.0 && Unnoticed(rolled, k, r, o, kept) {
      NeverCovered(rolled, k, r, o, kept, |rolled|);
    }
  }

  lemma {:induction false} PrefixGrows(bals: seq<real>, i: nat, j: nat)
    requires NonNegative(bals) && i <= j <= |bals|
    ensures Total(bals[..i]) <= Total(bals[..j])
    decreases j
  {
    if i < j {
      PrefixGrows(bals, i, j - 1);
      TotalSplits(bals, j - 1);
    }
  }

  lemma {:induction false} NeverCovered(rolled: seq<real>, k: nat, r: real, o: real, kept: seq<bool>, i: nat)
    requires NonNegative(rolled) && k < i <= |rolled| == |kept| && rolled[k] == 0.0 && r > 0.0
    requires forall i :: k < i < |kept| && rolled[i] > 0.0 ==> kept[i]
    requires Unnoticed(rolled, k, r, o, kept) && Total(rolled[..k]) < o
    ensures Total(rolled[..i]) < o
    decreases i
  {
    TotalSplits(rolled, i - 1);
    if k < i - 1 { NeverCovered(rolled, k, r, o, kept, i - 1); }
  }

  // ------------------------------------------------------------- the states

  /** The grants whose balance at `t` is carried on, neither refilled nor dropped. */
  function Keeping(gs: seq<Grant>, t: Time): (m: seq<bool>)
    ensures |m| == |gs|
  {
    seq(|gs|, i requires 0 <= i < |gs| => Active(gs[i], t) && !Refills(gs[i], t))
  }

  /** What burning `o` at a reset leaves of the balances rolled over to. */
  function Rolled(rolled: seq<real>, o: real): (s: State)
    ensures |s.bals| == |rolled|
  {
    var b := Burn(rolled, o);
    State(b.bals, b.left, 0.0, o - b.left)
  }

  lemma SameFromKept(gs: seq<Grant>, a: State, b: State, t: Time)
    requires Fits(gs, a) && Fits(gs, b)
    ensures SameFrom(gs, a, b, t) <==>
      SameCounters(a, b) && forall i :: 0 <= i < |gs| && Keeping(gs, t)[i] ==> a.bals[i] == b.bals[i]
  {
    EnteredEqual(gs, a.bals, b.bals, t);
  }

  /** A grant that is not carried on itself contributes to the reset, or does not. */
  lemma RolledSameIff(gs: seq<Grant>, rolled: seq<real>, k: nat, r: real, o: real, t: Time)
    requires |rolled| == |gs| && k < |gs| && NonNegative(rolled) && rolled[k] == 0.0 && r >= 0.0 && o >= 0.0
    requires !Keeping(gs, t)[k]
    ensures SameFrom(gs, Rolled(rolled, o), Rolled(rolled[k := r], o), t) <==> Unnoticed(rolled, k, r, o, Keeping(gs, t))
  {
    SameFromKept(gs, Rolled(rolled, o), Rolled(rolled[k := r], o), t);
    UnnoticedIff(rolled, k, r, o, Keeping(gs, t));
  }
}
