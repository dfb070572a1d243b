/** Burning usage from balance maps, phase by phase
    (openmeter/credit/engine/run.go, the part below one usage period). */
module Burndown {
  import opened Grants
  import opened Reference
  import opened Balances
  import opened Projection
  import opened Phases

  datatype GrantUsage = GrantUsage(id: GrantId, usage: real, exhausted: bool)

  function SumUses(uses: seq<GrantUsage>): real {
    if uses == [] then 0.0 else SumUses(uses[..|uses| - 1]) + uses[|uses| - 1].usage
  }

  /** GrantBurnDownHistorySegment.ApplyUsage: the balances after the recorded usages. */
  function ApplyUses(m: BalanceMap, uses: seq<GrantUsage>): BalanceMap {
    if uses == [] then m
    else
      var p, u := ApplyUses(m, uses[..|uses| - 1]), uses[|uses| - 1];
      p[u.id := (if u.id in p then p[u.id] else 0.0) - u.usage]
  }

  lemma UsesSnoc(m: BalanceMap, uses: seq<GrantUsage>, u: GrantUsage)
    ensures SumUses(uses + [u]) == SumUses(uses) + u.usage
    ensures var p := ApplyUses(m, uses);
      ApplyUses(m, uses + [u]) == p[u.id := (if u.id in p then p[u.id] else 0.0) - u.usage]
  {
    assert (uses + [u])[..|uses|] == uses;
  }

  /** The usage that reaches the k-th grant. */
  function Reaching(bals: seq<real>, usage: real, k: nat): real
    requires k <= |bals|
  {
    if k == 0 then usage else Rest(bals[k - 1], Reaching(bals, usage, k - 1))
  }

  lemma {:induction false} ReachingShift(bals: seq<real>, usage: real, k: nat)
    requires 0 < k <= |bals|
    ensures Reaching(bals, usage, k) == Reaching(bals[1..], Rest(bals[0], usage), k - 1)
  {
    if k > 1 { ReachingShift(bals, usage, k - 1); }
  }

  /** Burning front to back is burning each grant with the usage that reaches it. */
  lemma {:induction false} BurnAt(bals: seq<real>, usage: real, k: nat)
    requires k < |bals|
    ensures Burn(bals, usage).bals[k] == Keep(bals[k], Reaching(bals, usage, k))
  {
    if k > 0 {
      BurnAt(bals[1..], Rest(bals[0], usage), k - 1);
      ReachingShift(bals, usage, k);
    }
  }

  lemma {:induction false} BurnLeft(bals: seq<real>, usage: real)
    ensures Burn(bals, usage).left == Reaching(bals, usage, |bals|)
  {
    if bals != [] {
      BurnLeft(bals[1..], Rest(bals[0], usage));
      ReachingShift(bals, usage, |bals|);
    }
  }

  /** At most one use more, of the grant left with `b`. */
  predicate OneMore(uses: seq<GrantUsage>, uses': seq<GrantUsage>, id: GrantId, b: real) {
    || uses' == uses
    || (|uses'| == |uses| + 1 && uses'[..|uses|] == uses && uses'[|uses|].id == id && (uses'[|uses|].exhausted <==> b == 0.0))
  }

  /** One grant of burnDownGrants. */
  method BurnGrant(ghost start: BalanceMap, m: BalanceMap, uses: seq<GrantUsage>, usage: real, id: GrantId)
      returns (out: BalanceMap, uses': seq<GrantUsage>, left: real)
    requires id in m && ApplyUses(start, uses) == m
    ensures out == m[id := Keep(m[id], usage)] && left == Rest(m[id], usage)
    ensures SumUses(uses') + left == SumUses(uses) + usage
    ensures ApplyUses(start, uses') == out
    ensures OneMore(uses, uses', id, out[id])
  {
    var b := m[id];
    if b == 0.0 {
      out, uses', left := m, uses, usage;
    } else {
      var use := if b <= usage then GrantUsage(id, b, true) else GrantUsage(id, usage, false);
      UsesSnoc(start, uses, use);
      out := m[id := if b <= usage then 0.0 else b - usage];
      uses', left := uses + [use], if b <= usage then usage - b else 0.0;
    }
  }

  /** The first `k` grants have been burnt with the usage that reaches each of them. */
  ghost predicate BurntUpTo(balances: BalanceMap, prioritized: seq<Grant>, xs: seq<real>, usage: real, k: nat, out: BalanceMap)
    requires |xs| == |prioritized|
  {
    && out.Keys == balances.Keys && (forall i :: 0 <= i < |prioritized| ==> prioritized[i].id in out)
    && (forall i :: 0 <= i < |prioritized| ==>
         out[prioritized[i].id] == if i < k then Keep(xs[i], Reaching(xs, usage, i)) else xs[i])
    && forall id :: id in balances && id !in Ids(prioritized) ==> out[id] == balances[id]
  }

  lemma BurntNext(balances: BalanceMap, prioritized: seq<Grant>, xs: seq<real>, usage: real, k: nat, out: BalanceMap)
    requires |xs| == |prioritized| && Distinct(prioritized) && k < |prioritized|
    requires BurntUpTo(balances, prioritized, xs, usage, k, out)
    ensures BurntUpTo(balances, prioritized, xs, usage, k + 1,
      out[prioritized[k].id := Keep(out[prioritized[k].id], Reaching(xs, usage, k))])
  {
    HasIds(prioritized);
    var id := prioritized[k].id;
    var next := out[id := Keep(out[id], Reaching(xs, usage, k))];
    forall i | 0 <= i < |prioritized|
      ensures next[prioritized[i].id] == if i < k + 1 then Keep(xs[i], Reaching(xs, usage, i)) else xs[i]
    {
      if i != k { assert prioritized[i].id != id; }
    }
  }

  /** A use is marked as exhausting its grant exactly if it leaves the grant nothing. */
  predicate Marked(uses: seq<GrantUsage>, out: BalanceMap) {
    forall i :: 0 <= i < |uses| ==> uses[i].id in out && (uses[i].exhausted <==> out[uses[i].id] == 0.0)
  }

  predicate Within(uses: seq<GrantUsage>, ids: set<GrantId>) {
    forall i :: 0 <= i < |uses| ==> uses[i].id in ids
  }

  lemma MarkedNext(uses: seq<GrantUsage>, uses': seq<GrantUsage>, m: BalanceMap, id: GrantId, b: real, ids: set<GrantId>)
    requires Marked(uses, m) && Within(uses, ids) && id !in ids
    requires OneMore(uses, uses', id, b)
    ensures Marked(uses', m[id := b]) && Within(uses', ids + {id})
  {
    forall i | 0 <= i < |uses'|
      ensures uses'[i].id in ids + {id} && uses'[i].id in m[id := b] && (uses'[i].exhausted <==> m[id := b][uses'[i].id] == 0.0)
    {
      if i < |uses| { assert uses'[i] == uses[i]; }
    }
  }

  lemma EarlierIds(gs: seq<Grant>, k: nat)
    requires k < |gs| && Distinct(gs)
    ensures gs[k].id !in Ids(gs[..k]) && Ids(gs[..k + 1]) == Ids(gs[..k]) + {gs[k].id}
  {
    assert gs[..k + 1] == gs[..k] + [gs[k]];
    IdsSnoc(gs[..k], gs[k], gs[..k + 1]);
  }

  /** The loop of burnDownGrants. */
  method BurnEach(balances: BalanceMap, prioritized: seq<Grant>, usage: real, ghost xs: seq<real>)
      returns (out: BalanceMap, uses: seq<GrantUsage>, left: real)
    requires Distinct(prioritized) && |xs| == |prioritized| && BurntUpTo(balances, prioritized, xs, usage, 0, balances)
    ensures BurntUpTo(balances, prioritized, xs, usage, |xs|, out) && left == Reaching(xs, usage, |xs|)
    ensures SumUses(uses) + left == usage && ApplyUses(balances, uses) == out && Marked(uses, out)
  {
    out, uses, left := balances, [], usage;
    for k := 0 to |prioritized|
      invariant BurntUpTo(balances, prioritized, xs, usage, k, out) && left == Reaching(xs, usage, k)
      invariant SumUses(uses) + left == usage && ApplyUses(balances, uses) == out
      invariant Marked(uses, out) && Within(uses, Ids(prioritized[..k]))
    {
      EarlierIds(prioritized, k);
      BurntNext(balances, prioritized, xs, usage, k, out);
      ghost var m, earlier := out, uses;
      out, uses, left := BurnGrant(balances, out, uses, left, prioritized[k].id);
      MarkedNext(earlier, uses, m, prioritized[k].id, out[prioritized[k].id], Ids(prioritized[..k]));
    }
  }

  /** burnDownGrants: burns in order, records every use, and returns the overage. */
  method BurnDownGrants(balances: BalanceMap, prioritized: seq<Grant>, usage: real)
      returns (out: BalanceMap, uses: seq<GrantUsage>, left: real)
    requires Distinct(prioritized) && Ids(prioritized) <= balances.Keys
    ensures out.Keys == balances.Keys
    ensures Vals(prioritized, out) == Burn(Vals(prioritized, balances), usage).bals
    ensures left == Burn(Vals(prioritized, balances), usage).left
    ensures forall id :: id in balances && id !in Ids(prioritized) ==> out[id] == balances[id]
    ensures SumUses(uses) == usage - left
    ensures ApplyUses(balances, uses) == out && Marked(uses, out)
  {
    ghost var xs := Vals(prioritized, balances);
    HasIds(prioritized);
    out, uses, left := BurnEach(balances, prioritized, usage, xs);
    ValsBurnt(prioritized, xs, out, usage);
    BurnLeft(xs, usage);
  }

  lemma HasIds(gs: seq<Grant>)
    ensures forall i :: 0 <= i < |gs| ==> gs[i].id in Ids(gs)
    ensures forall id :: id !in Ids(gs) ==> forall i :: 0 <= i < |gs| ==> gs[i].id != id
  {
  }

  lemma ValsBurnt(gs: seq<Grant>, xs: seq<real>, out: BalanceMap, usage: real)
    requires Ids(gs) <= out.Keys && |xs| == |gs|
    requires forall i :: 0 <= i < |gs| ==> gs[i].id in out && out[gs[i].id] == Keep(xs[i], Reaching(xs, usage, i))
    ensures Vals(gs, out) == Burn(xs, usage).bals
  {
    var b := Burn(xs, usage).bals;
    forall k | 0 <= k < |gs| ensures Vals(gs, out)[k] == b[k] { BurnAt(xs, usage, k); }
  }

  function ActiveMask(gs: seq<Grant>, t: Time): (m: seq<bool>)
    ensures |m| == |gs|
  {
    seq(|gs|, i requires 0 <= i < |gs| => Active(gs[i], t))
  }

  lemma {:induction false} PickSnoc<T>(xs: seq<T>, x: T, mask: seq<bool>, b: bool)
    requires |xs| == |mask|
    ensures Pick(xs + [x], mask + [b]) == Pick(xs, mask) + if b then [x] else []
  {
    if xs != [] {
      assert (xs + [x])[1..] == xs[1..] + [x] && (mask + [b])[1..] == mask[1..] + [b];
      PickSnoc(xs[1..], x, mask[1..], b);
    }
  }

  lemma {:induction false} PickIn<T>(xs: seq<T>, mask: seq<bool>)
    requires |xs| == |mask|
    ensures forall x :: x in Pick(xs, mask) ==> exists i :: 0 <= i < |xs| && mask[i] && xs[i] == x
  {
    if xs != [] {
      PickIn(xs[1..], mask[1..]);
      forall x | x in Pick(xs, mask) ensures exists i :: 0 <= i < |xs| && mask[i] && xs[i] == x {
        if mask[0] && x == xs[0] {
        } else {
          assert x in Pick(xs[1..], mask[1..]);
          var i :| 0 <= i < |xs[1..]| && mask[1..][i] && xs[1..][i] == x;
          assert xs[i + 1] == x && mask[i + 1];
        }
      }
    }
  }

  lemma {:induction false} PickDistinct(gs: seq<Grant>, mask: seq<bool>)
    requires |gs| == |mask| && Distinct(gs)
    ensures Distinct(Pick(gs, mask)) && Ids(Pick(gs, mask)) <= Ids(gs)
  {
    PickIn(gs, mask);
    var p := Pick(gs, mask);
    forall id | id in Ids(p) ensures id in Ids(gs) {
      var i :| 0 <= i < |p| && p[i].id == id;
      assert p[i] in p;
    }
    if gs != [] {
      assert Distinct(gs[1..]);
      PickDistinct(gs[1..], mask[1..]);
      PickIn(gs[1..], mask[1..]);
      var q := Pick(gs[1..], mask[1..]);
      if mask[0] {
        forall i, j | 0 <= i < j < |p| ensures p[i].id != p[j].id {
          if i == 0 { assert p[j] == q[j - 1] && q[j - 1] in q; } else { assert p[i] == q[i - 1] && p[j] == q[j - 1]; }
        }
      }
    }
  }

  lemma {:induction false} PickVals(gs: seq<Grant>, mask: seq<bool>, m: BalanceMap)
    requires |gs| == |mask| && Ids(gs) <= m.Keys && Distinct(gs)
    ensures Ids(Pick(gs, mask)) <= m.Keys
    ensures Vals(Pick(gs, mask), m) == Pick(Vals(gs, m), mask)
  {
    PickDistinct(gs, mask);
    if gs != [] {
      assert Distinct(gs[1..]);
      forall id | id in Ids(gs[1..]) ensures id in Ids(gs) {
        var i :| 0 <= i < |gs[1..]| && gs[1..][i].id == id;
        assert gs[i + 1].id == id;
      }
      PickVals(gs[1..], mask[1..], m);
      assert Vals(gs, m)[1..] == Vals(gs[1..], m);
      if mask[0] {
        var q := Pick(gs[1..], mask[1..]);
        assert Vals([gs[0]] + q, m) == [m[gs[0].id]] + Vals(q, m);
      }
    }
  }

  /** applyRecurrences. */
  method ApplyRecurrences(gs: seq<Grant>, balances: BalanceMap, recurred: set<GrantId>) returns (out: BalanceMap)
    requires Distinct(gs) && Ids(gs) <= balances.Keys
    ensures out.Keys == balances.Keys
    ensures forall i :: 0 <= i < |gs| ==>
      out[gs[i].id] == if gs[i].id in recurred && gs[i].recurrence.Some? then gs[i].amount else balances[gs[i].id]
  {
    out := balances;
    assert forall i :: 0 <= i < |gs| ==> gs[i].id in Ids(gs);
    for k := 0 to |gs|
      invariant out.Keys == balances.Keys
      invariant forall i :: 0 <= i < |gs| ==>
        out[gs[i].id] == if i < k && gs[i].id in recurred && gs[i].recurrence.Some? then gs[i].amount else balances[gs[i].id]
    {
      if gs[k].id in recurred && gs[k].recurrence.Some? { out := out[gs[k].id := gs[k].amount]; }
    }
  }

  /** Splits off the active grants and empties the others. */
  method Deactivate(gs: seq<Grant>, balances: BalanceMap, t: Time) returns (out: BalanceMap, active: seq<Grant>)
    requires Distinct(gs) && Ids(gs) <= balances.Keys
    ensures out.Keys == balances.Keys
    ensures forall i :: 0 <= i < |gs| ==> out[gs[i].id] == if Active(gs[i], t) then balances[gs[i].id] else 0.0
    ensures active == Pick(gs, ActiveMask(gs, t))
  {
    out, active := balances, [];
    var mask := ActiveMask(gs, t);
    assert forall i :: 0 <= i < |gs| ==> gs[i].id in Ids(gs);
    for k := 0 to |gs|
      invariant out.Keys == balances.Keys
      invariant active == Pick(gs[..k], mask[..k])
      invariant forall i :: 0 <= i < |gs| ==>
        out[gs[i].id] == if i < k && !Active(gs[i], t) then 0.0 else balances[gs[i].id]
    {
      assert gs[..k + 1] == gs[..k] + [gs[k]] && mask[..k + 1] == mask[..k] + [mask[k]];
      PickSnoc(gs[..k], gs[k], mask[..k], mask[k]);
      if Active(gs[k], t) { active := active + [gs[k]]; } else { out := out[gs[k].id := 0.0]; }
    }
    assert gs[..|gs|] == gs && mask[..|gs|] == mask;
  }

  /** Grants that take effect at `t` start with their full amount. */
  method TakeEffect(active: seq<Grant>, balances: BalanceMap, t: Time) returns (out: BalanceMap)
    requires Distinct(active) && Ids(active) <= balances.Keys
    ensures out.Keys == balances.Keys
    ensures forall i :: 0 <= i < |active| ==>
      out[active[i].id] == if active[i].effectiveAt == t then active[i].amount else balances[active[i].id]
    ensures forall id :: id in balances && id !in Ids(active) ==> out[id] == balances[id]
  {
    out := balances;
    assert forall i :: 0 <= i < |active| ==> active[i].id in Ids(active);
    for k := 0 to |active|
      invariant out.Keys == balances.Keys
      invariant forall i :: 0 <= i < |active| ==>
        out[active[i].id] == if i < k && active[i].effectiveAt == t then active[i].amount else balances[active[i].id]
      invariant forall id :: id in balances && id !in Ids(active) ==> out[id] == balances[id]
    {
      if active[k].effectiveAt == t { out := out[active[k].id := active[k].amount]; }
    }
  }

  /** What happens at the start of a phase: recurrences, grants that are inactive, grants that
      take effect. Returns the balances and the active grants, in order. */
  method EnterPhase(gs: seq<Grant>, balances: BalanceMap, recurred: set<GrantId>, t: Time)
      returns (out: BalanceMap, active: seq<Grant>)
    requires Distinct(gs) && balances.Keys == Ids(gs) && recurred == Recurring(gs, t)
    ensures out.Keys == balances.Keys
    ensures Vals(gs, out) == EnterAll(gs, Vals(gs, balances), t)
    ensures active == Pick(gs, ActiveMask(gs, t))
  {
    var a := ApplyRecurrences(gs, balances, recurred);
    var b;
    b, active := Deactivate(gs, a, t);
    PickDistinct(gs, ActiveMask(gs, t));
    out := TakeEffect(active, b, t);
    forall i | 0 <= i < |gs| ensures gs[i].id in out && out[gs[i].id] == Entered(gs[i], Vals(gs, balances)[i], t) {
      assert gs[i].id in Ids(gs);
      RecurringOne(gs, t, i);
      if Active(gs[i], t) {
        InPick(gs, ActiveMask(gs, t), i);
        var j :| 0 <= j < |active| && active[j] == gs[i];
        assert out[active[j].id] == if active[j].effectiveAt == t then active[j].amount else b[active[j].id];
      } else {
        NotPicked(gs, ActiveMask(gs, t), i);
      }
    }
  }

  lemma NotPicked(gs: seq<Grant>, mask: seq<bool>, i: nat)
    requires |gs| == |mask| && Distinct(gs) && i < |gs| && !mask[i]
    ensures gs[i].id !in Ids(Pick(gs, mask))
  {
    PickIn(gs, mask);
    var p := Pick(gs, mask);
    forall j | 0 <= j < |p| ensures p[j].id != gs[i].id {
      assert p[j] in p;
    }
  }

  lemma {:induction false} InPick<T>(xs: seq<T>, mask: seq<bool>, i: nat)
    requires |xs| == |mask| && i < |xs| && mask[i]
    ensures xs[i] in Pick(xs, mask)
  {
    if i > 0 { InPick(xs[1..], mask[1..], i - 1); }
  }

  lemma RecurringOne(gs: seq<Grant>, t: Time, i: nat)
    requires Distinct(gs) && i < |gs|
    ensures gs[i].id in Recurring(gs, t) <==> Active(gs[i], t) && Recurs(gs[i], t)
  {
    if gs[i].id in Recurring(gs, t) {
      var k :| 0 <= k < |gs| && Active(gs[k], t) && Recurs(gs[k], t) && gs[k].id == gs[i].id;
    }
  }

  /** Burning from the active grants only is burning from all grants once inactive ones are empty. */
  lemma BurnActive(gs: seq<Grant>, before: BalanceMap, after: BalanceMap, t: Time, usage: real)
    requires Distinct(gs) && Ids(gs) == before.Keys == after.Keys
    requires ZeroOutside(Vals(gs, before), ActiveMask(gs, t))
    requires var active := Pick(gs, ActiveMask(gs, t));
      && Ids(active) <= before.Keys
      && Vals(active, after) == Burn(Vals(active, before), usage).bals
      && forall id :: id in before && id !in Ids(active) ==> after[id] == before[id]
    ensures var active := Pick(gs, ActiveMask(gs, t));
      && Vals(gs, after) == Burn(Vals(gs, before), usage).bals
      && Burn(Vals(active, before), usage).left == Burn(Vals(gs, before), usage).left
  {
    var mask := ActiveMask(gs, t);
    var active := Pick(gs, mask);
    PickVals(gs, mask, before);
    PickVals(gs, mask, after);
    PickBurn(Vals(gs, before), mask, usage);
    forall i | 0 <= i < |gs| && !mask[i] ensures Vals(gs, after)[i] == Burn(Vals(gs, before), usage).bals[i] {
      assert gs[i].id in Ids(gs);
      NotPicked(gs, mask, i);
    }
    PickExtensional(Vals(gs, after), Burn(Vals(gs, before), usage).bals, mask);
  }
}
