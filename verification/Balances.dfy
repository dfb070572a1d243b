/** Balance maps and snapshots, and how they are filled and filtered
    (openmeter/credit/balance/balance.go, openmeter/credit/helper.go). */
module Balances {
  import opened Grants
  import opened Reference

  type BalanceMap = map<GrantId, real>

  type Factor = f: real | f > 0.0 witness 1.0

  datatype UnitConfig = Multiply(factor: Factor) | Divide(divisor: Factor)

  /** Unrounded conversion of metered usage into billing units. */
  function Convert(config: Option<UnitConfig>, raw: real): real {
    match config
    case Some(Multiply(f)) => raw * f
    case Some(Divide(d)) => raw / d
    case None => raw
  }

  lemma ConvertPositive(config: Option<UnitConfig>, raw: real)
    requires raw >= 0.0
    ensures Convert(config, raw) >= 0.0
  {
    match config
    case Some(Multiply(f)) => ProductPositive(raw, f);
    case Some(Divide(d)) => QuotientPositive(raw, d);
    case None =>
  }

  lemma ProductPositive(a: real, b: real) requires a >= 0.0 && b > 0.0 ensures a * b >= 0.0 {}
  lemma QuotientPositive(a: real, b: real) requires a >= 0.0 && b > 0.0 ensures a / b >= 0.0 {}

  lemma ConvertAdds(config: Option<UnitConfig>, a: real, b: real)
    ensures Convert(config, a) + Convert(config, b) == Convert(config, a + b)
    ensures Convert(config, 0.0) == 0.0
  {
    match config
    case Some(Multiply(f)) => assert a * f + b * f == (a + b) * f;
    case Some(Divide(d)) => assert a / d + b / d == (a + b) / d;
    case None =>
  }

  /** Converting the metered total is totalling the converted minutes. */
  lemma {:induction false} ConvertUsage(config: Option<UnitConfig>, raw: Time -> real, from: Time, until: Time)
    ensures Convert(config, UsageIn(raw, from, until)) == UsageIn(t => Convert(config, raw(t)), from, until)
    decreases until - from
  {
    ConvertAdds(config, 0.0, 0.0);
    if from < until {
      ConvertUsage(config, raw, from, until - 1);
      ConvertAdds(config, UsageIn(raw, from, until - 1), raw(until - 1));
    }
  }

  datatype Snapshot = Snapshot(
    at: Time, balances: BalanceMap, overage: real, usage: real, grantUsage: real,
    unitConfig: Option<UnitConfig>)

  // ------------------------------------------------------------- populating

  function Fill(g: Grant, m: BalanceMap, at: Time): real {
    if g.id in m then m[g.id] else if Active(g, at) then g.amount else 0.0
  }

  function FillAll(gs: seq<Grant>, m: BalanceMap, at: Time): (r: seq<real>)
    ensures |r| == |gs|
  {
    seq(|gs|, i requires 0 <= i < |gs| => Fill(gs[i], m, at))
  }

  /** populateBalanceSnapshotWithMissingGrantsActiveAt, grant by grant. */
  function Populate(m: BalanceMap, gs: seq<Grant>, at: Time): BalanceMap {
    if gs == [] then m
    else
      var rest := Populate(m, gs[..|gs| - 1], at);
      var g := gs[|gs| - 1];
      if g.id in rest then rest else rest[g.id := if Active(g, at) then g.amount else 0.0]
  }

  lemma IdsSnoc(gs: seq<Grant>, g: Grant, all: seq<Grant>)
    requires all == gs + [g]
    ensures Ids(all) == Ids(gs) + {g.id}
  {
    assert all[|gs|] == g;
    forall id | id in Ids(gs) ensures id in Ids(all) {
      var i :| 0 <= i < |gs| && gs[i].id == id;
      assert all[i] == gs[i];
    }
    forall id | id in Ids(all) ensures id in Ids(gs) + {g.id} {
      var i :| 0 <= i < |all| && all[i].id == id;
      if i < |gs| { assert gs[i] == all[i]; }
    }
  }

  lemma NewId(gs: seq<Grant>, g: Grant, all: seq<Grant>)
    requires all == gs + [g] && Distinct(all)
    ensures Distinct(gs) && g.id !in Ids(gs)
  {
    assert all[|gs|] == g;
    assert forall i :: 0 <= i < |gs| ==> all[i] == gs[i];
  }

  /** Populating adds exactly the missing grants and never overwrites a balance. */
  lemma {:induction false} PopulateMeaning(m: BalanceMap, gs: seq<Grant>, at: Time)
    ensures var r := Populate(m, gs, at);
      && r.Keys == m.Keys + Ids(gs)
      && (forall id :: id in m ==> r[id] == m[id])
      && (Distinct(gs) ==> forall g :: g in gs ==> r[g.id] == Fill(g, m, at))
  {
    if gs != [] {
      var init, g := gs[..|gs| - 1], gs[|gs| - 1];
      PopulateMeaning(m, init, at);
      assert gs == init + [g];
      IdsSnoc(init, g, gs);
      if Distinct(gs) {
        NewId(init, g, gs);
        forall h | h in gs ensures Populate(m, gs, at)[h.id] == Fill(h, m, at) {
          if h in init { InIds(init, h); }
        }
      }
    }
  }

  lemma InIds(gs: seq<Grant>, g: Grant)
    requires g in gs
    ensures g.id in Ids(gs)
  {
    var i :| 0 <= i < |gs| && gs[i] == g;
  }

  // --------------------------------------------------------- map <-> balances

  function Vals(gs: seq<Grant>, m: BalanceMap): (r: seq<real>)
    requires Ids(gs) <= m.Keys
    ensures |r| == |gs|
  {
    seq(|gs|, i requires 0 <= i < |gs| => (assert gs[i].id in Ids(gs); m[gs[i].id]))
  }

  function StateOf(gs: seq<Grant>, s: Snapshot): (r: State)
    requires Ids(gs) <= s.balances.Keys
    ensures Fits(gs, r)
  {
    State(Vals(gs, s.balances), s.overage, s.usage, s.grantUsage)
  }

  /** The balances of the grants active at `t`, as a map. */
  function ActiveMap(gs: seq<Grant>, bals: seq<real>, t: Time): BalanceMap
    requires |bals| == |gs|
  {
    if gs == [] then map[]
    else
      var rest := ActiveMap(gs[1..], bals[1..], t);
      if Active(gs[0], t) then rest[gs[0].id := bals[0]] else rest
  }

  lemma {:induction false} ActiveMapKeys(gs: seq<Grant>, bals: seq<real>, t: Time)
    requires |bals| == |gs|
    ensures forall id :: id in ActiveMap(gs, bals, t) <==> exists i :: 0 <= i < |gs| && gs[i].id == id && Active(gs[i], t)
    ensures Distinct(gs) ==> forall i :: 0 <= i < |gs| && Active(gs[i], t) ==> ActiveMap(gs, bals, t)[gs[i].id] == bals[i]
  {
    if gs != [] {
      var tail := gs[1..];
      ActiveMapKeys(tail, bals[1..], t);
      var m := ActiveMap(gs, bals, t);
      forall id ensures id in m <==> exists i :: 0 <= i < |gs| && gs[i].id == id && Active(gs[i], t) {
        if id in ActiveMap(tail, bals[1..], t) {
          var i :| 0 <= i < |tail| && tail[i].id == id && Active(tail[i], t);
          assert gs[i + 1].id == id && Active(gs[i + 1], t);
        }
        if i :| 0 <= i < |gs| && gs[i].id == id && Active(gs[i], t) && i > 0 {
          assert tail[i - 1].id == id && Active(tail[i - 1], t);
        }
      }
      if Distinct(gs) {
        assert Distinct(tail);
        forall i | 0 <= i < |gs| && Active(gs[i], t) ensures m[gs[i].id] == bals[i] {
          if i > 0 { assert tail[i - 1] == gs[i] && bals[1..][i - 1] == bals[i]; }
        }
      }
    }
  }

  predicate ActiveIn(gs: seq<Grant>, id: GrantId, at: Time) {
    exists i :: 0 <= i < |gs| && gs[i].id == id && Active(gs[i], at)
  }

  /** removeInactiveGrantsFromSnapshotAt fails on a balance whose grant is not listed. */
  function RemoveInactive(m: BalanceMap, gs: seq<Grant>, at: Time): Result<BalanceMap> {
    if m.Keys <= Ids(gs) then
      Ok(map id | id in m && ActiveIn(gs, id, at) :: m[id])
    else Err
  }

  lemma RemoveInactiveIsActiveMap(m: BalanceMap, gs: seq<Grant>, at: Time)
    requires Distinct(gs) && m.Keys == Ids(gs)
    ensures RemoveInactive(m, gs, at) == Ok(ActiveMap(gs, Vals(gs, m), at))
  {
    ActiveMapKeys(gs, Vals(gs, m), at);
    var r := RemoveInactive(m, gs, at).value;
    var a := ActiveMap(gs, Vals(gs, m), at);
    forall id | id in r ensures id in a && a[id] == r[id] {
      var i :| 0 <= i < |gs| && gs[i].id == id && Active(gs[i], at);
      assert a[gs[i].id] == Vals(gs, m)[i];
    }
    forall id | id in a ensures id in r {
      var i :| 0 <= i < |gs| && gs[i].id == id && Active(gs[i], at);
      assert gs[i].id in Ids(gs);
    }
    assert r == a;
  }

  /** Filtering out inactive grants and filling the missing ones again changes nothing,
      provided the snapshot has a balance for every listed grant and none for inactive ones. */
  lemma FilterThenPopulate(m: BalanceMap, gs: seq<Grant>, at: Time)
    requires Distinct(gs) && m.Keys == Ids(gs)
    requires forall i :: 0 <= i < |gs| && !Active(gs[i], at) ==> m[gs[i].id] == 0.0
    ensures RemoveInactive(m, gs, at).Ok?
    ensures Populate(RemoveInactive(m, gs, at).value, gs, at) == m
  {
    var r := RemoveInactive(m, gs, at).value;
    var p := Populate(r, gs, at);
    PopulateMeaning(r, gs, at);
    forall id | id in m ensures p[id] == m[id] { RefilledAgain(m, gs, at, r, p, id); }
    assert p.Keys == m.Keys;
  }

  /** A balance that was filtered out was empty, and is filled in as empty. */
  lemma RefilledAgain(m: BalanceMap, gs: seq<Grant>, at: Time, r: BalanceMap, p: BalanceMap, id: GrantId)
    requires Distinct(gs) && m.Keys == Ids(gs) && id in m && p.Keys == m.Keys
    requires forall i :: 0 <= i < |gs| && !Active(gs[i], at) ==> m[gs[i].id] == 0.0
    requires r == map k | k in m && ActiveIn(gs, k, at) :: m[k]
    requires (forall k :: k in r ==> p[k] == r[k]) && forall g :: g in gs ==> g.id in p && p[g.id] == Fill(g, r, at)
    ensures p[id] == m[id]
  {
    var i :| 0 <= i < |gs| && gs[i].id == id;
    assert gs[i] in gs;
    if id !in r { assert !Active(gs[i], at); }
  }

  /** A grant created after the snapshot was taken, effective exactly then, appears in full. */
  lemma NewGrantAppearsInFull(m: BalanceMap, gs: seq<Grant>, at: Time, g: Grant)
    requires Distinct(gs) && g in gs && g.id !in m && g.effectiveAt == at && Active(g, at)
    ensures g.id in Populate(m, gs, at) && Populate(m, gs, at)[g.id] == g.amount
  {
    PopulateMeaning(m, gs, at);
    var i :| 0 <= i < |gs| && gs[i] == g;
    assert gs[i].id in Ids(gs);
  }
}
