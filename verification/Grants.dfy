/** Grants, their effective period and their burn-down order
    (openmeter/credit/grant, openmeter/credit/engine/grant.go). */
module Grants {

  datatype Option<+T> = None | Some(value: T)

  datatype Result<+T> = Ok(value: T) | Err

  /** Minutes: every grant, reset and snapshot time is minute aligned. */
  type Time = int

  predicate Increasing(ts: seq<Time>) { forall i, j :: 0 <= i < j < |ts| ==> ts[i] < ts[j] }

  type GrantId = nat

  type Interval = n: int | n > 0 witness 1

  datatype Recurrence = Recurrence(anchor: Time, interval: Interval)

  datatype Grant = Grant(
    id: GrantId, amount: real, priority: nat, createdAt: Time,
    effectiveAt: Time, expiresAt: Option<Time>, deletedAt: Option<Time>, voidedAt: Option<Time>,
    minRollover: real, maxRollover: real, recurrence: Option<Recurrence>)

  /** Amounts and rollover ceilings that keep every balance non-negative. */
  predicate Sane(g: Grant) { g.amount >= 0.0 && g.maxRollover >= 0.0 }

  function Earlier(a: Option<Time>, b: Option<Time>): Option<Time> {
    match (a, b)
    case (None, _) => b
    case (_, None) => a
    case (Some(x), Some(y)) => Some(if y < x then y else x)
  }

  /** End of the effective period, never before its start. */
  function End(g: Grant): Option<Time> {
    match Earlier(Earlier(g.expiresAt, g.deletedAt), g.voidedAt)
    case None => None
    case Some(e) => Some(if e < g.effectiveAt then g.effectiveAt else e)
  }

  predicate Before(t: Time, limit: Option<Time>) { limit.None? || t < limit.value }

  predicate Active(g: Grant, t: Time) {
    g.effectiveAt <= t && Before(t, g.expiresAt) && Before(t, g.deletedAt) && Before(t, g.voidedAt)
  }

  /** ActiveAt: inside the effective period, whose end is the earliest limit, clipped to its start. */
  lemma ActiveMeaning(g: Grant, t: Time)
    ensures Active(g, t) <==> g.effectiveAt <= t && Before(t, End(g))
    ensures Active(g, t) <==>
      && g.effectiveAt <= t && (g.expiresAt.Some? ==> t < g.expiresAt.value)
      && (g.deletedAt.Some? ==> t < g.deletedAt.value) && (g.voidedAt.Some? ==> t < g.voidedAt.value)
  {
  }

  /** `t` is a whole number of intervals away from the anchor. */
  predicate OnGrid(r: Recurrence, t: Time) { (t - r.anchor) % r.interval == 0 }

  predicate Recurs(g: Grant, t: Time) {
    g.recurrence.Some? && OnGrid(g.recurrence.value, t)
  }

  /** At `t` the grant's balance is set to its full amount. */
  predicate Refills(g: Grant, t: Time) {
    Active(g, t) && (g.effectiveAt == t || Recurs(g, t))
  }

  function Rollover(g: Grant, b: real): real {
    var floored := if g.minRollover < b then b else g.minRollover;
    if g.maxRollover < floored then g.maxRollover else floored
  }

  /** What a grant with balance `b` carries over a reset as `r`. */
  predicate CarriesOver(g: Grant, b: real, r: real) {
    && (g.minRollover <= b <= g.maxRollover ==> r == b)
    && (g.minRollover <= g.maxRollover < b ==> r == g.maxRollover)
    && (b < g.minRollover <= g.maxRollover ==> r == g.minRollover)
    && (g.maxRollover < g.minRollover ==> r == g.maxRollover)
  }

  /** The balance is kept between floor and ceiling; a ceiling below the floor wins. */
  lemma RolloverMeaning(g: Grant, b: real)
    ensures CarriesOver(g, b, Rollover(g, b))
  {
  }

  /** The times at which the grant becomes active or may stop being active. */
  predicate ChangesAt(g: Grant, t: Time) {
    g.effectiveAt == t || g.expiresAt == Some(t) || g.deletedAt == Some(t) || g.voidedAt == Some(t)
  }

  /** A time at which a burn phase must start. */
  predicate Event(g: Grant, t: Time) {
    ChangesAt(g, t) || (Active(g, t) && Recurs(g, t))
  }

  predicate EventAt(gs: seq<Grant>, t: Time) {
    exists i :: 0 <= i < |gs| && Event(gs[i], t)
  }

  predicate RecursAt(gs: seq<Grant>, t: Time) {
    exists i :: 0 <= i < |gs| && Active(gs[i], t) && Recurs(gs[i], t)
  }

  // ---------------------------------------------------------------- listing

  /** The repository query ListActiveGrantsBetween. */
  predicate Listed(g: Grant, from: Time, to: Time) {
    && g.amount >= 0.0
    && (|| (g.effectiveAt < from && (g.expiresAt.None? || g.expiresAt.value > from))
        || (from <= g.effectiveAt < to)
        || g.effectiveAt == from
        || g.effectiveAt == to)
    && (g.deletedAt.None? || g.deletedAt.value >= from)
    && (g.voidedAt.None? || g.voidedAt.value >= from)
  }

  function ListActive(gs: seq<Grant>, from: Time, to: Time): seq<Grant> {
    if gs == [] then []
    else (if Listed(gs[0], from, to) then [gs[0]] else []) + ListActive(gs[1..], from, to)
  }

  function Ids(gs: seq<Grant>): set<GrantId> { set i | 0 <= i < |gs| :: gs[i].id }

  predicate Distinct(gs: seq<Grant>) {
    forall i, j :: 0 <= i < j < |gs| ==> gs[i].id != gs[j].id
  }

  predicate AllSane(gs: seq<Grant>) { forall i :: 0 <= i < |gs| ==> Sane(gs[i]) }

  // --------------------------------------------------------- burn-down order

  /** Strict burn-down precedence: priority, then earlier expiration (none last),
      then creation time, then id. */
  predicate Precedes(a: Grant, b: Grant) {
    if a.priority != b.priority then a.priority < b.priority
    else if a.expiresAt != b.expiresAt then
      b.expiresAt.None? || (a.expiresAt.Some? && a.expiresAt.value < b.expiresAt.value)
    else if a.createdAt != b.createdAt then a.createdAt < b.createdAt
    else a.id < b.id
  }

  predicate Ordered(gs: seq<Grant>) {
    forall i, j :: 0 <= i < j < |gs| ==> Precedes(gs[i], gs[j])
  }

  function Insert(g: Grant, gs: seq<Grant>): seq<Grant> {
    if gs == [] || Precedes(g, gs[0]) then [g] + gs else [gs[0]] + Insert(g, gs[1..])
  }

  /** The grants in burn-down order. */
  function Prioritize(gs: seq<Grant>): (r: seq<Grant>)
    ensures Ids(r) == Ids(gs)
  {
    if gs == [] then []
    else
      InsertIds(gs[0], Prioritize(gs[1..]));
      IdsCons(gs);
      Insert(gs[0], Prioritize(gs[1..]))
  }

  lemma IdsCons(gs: seq<Grant>)
    requires gs != []
    ensures Ids(gs) == {gs[0].id} + Ids(gs[1..])
  {
    forall id | id in Ids(gs) ensures id in {gs[0].id} + Ids(gs[1..]) {
      var i :| 0 <= i < |gs| && gs[i].id == id;
      if i > 0 { assert gs[1..][i - 1].id == id; }
    }
    forall id | id in Ids(gs[1..]) ensures id in Ids(gs) {
      var i :| 0 <= i < |gs[1..]| && gs[1..][i].id == id;
      assert gs[i + 1].id == id;
    }
  }

  lemma {:induction false} InsertIds(g: Grant, gs: seq<Grant>)
    ensures Ids(Insert(g, gs)) == {g.id} + Ids(gs)
  {
    IdsCons(Insert(g, gs));
    if gs == [] || Precedes(g, gs[0]) {
      assert Insert(g, gs)[1..] == gs;
    } else {
      IdsCons(gs);
      InsertIds(g, gs[1..]);
      assert Insert(g, gs)[1..] == Insert(g, gs[1..]);
    }
  }

  lemma {:induction false} InsertMultiset(g: Grant, gs: seq<Grant>)
    ensures multiset(Insert(g, gs)) == multiset{g} + multiset(gs)
  {
    if gs == [] || Precedes(g, gs[0]) {
    } else {
      InsertMultiset(g, gs[1..]);
      assert gs == [gs[0]] + gs[1..];
    }
  }

  /** Prioritizing only reorders. */
  lemma {:induction false} PrioritizePermutes(gs: seq<Grant>)
    ensures multiset(Prioritize(gs)) == multiset(gs)
    ensures |Prioritize(gs)| == |gs|
    ensures forall g :: g in Prioritize(gs) <==> g in gs
  {
    if gs != [] {
      PrioritizePermutes(gs[1..]);
      InsertMultiset(gs[0], Prioritize(gs[1..]));
      assert gs == [gs[0]] + gs[1..];
    }
    assert |multiset(Prioritize(gs))| == |Prioritize(gs)|;
    assert |multiset(gs)| == |gs|;
    forall g ensures g in Prioritize(gs) <==> g in gs {
      assert g in Prioritize(gs) <==> g in multiset(Prioritize(gs));
      assert g in gs <==> g in multiset(gs);
    }
  }

  lemma {:induction false} InsertOrdered(g: Grant, gs: seq<Grant>)
    requires Ordered(gs) && forall h :: h in gs ==> h.id != g.id
    ensures Ordered(Insert(g, gs))
  {
    if gs == [] || Precedes(g, gs[0]) {
      var r := Insert(g, gs);
      forall i, j | 0 <= i < j < |r| ensures Precedes(r[i], r[j]) {
        if i == 0 && j > 1 { assert Precedes(gs[0], gs[j - 1]); }
      }
    } else {
      var t := Insert(g, gs[1..]);
      InsertOrdered(g, gs[1..]);
      InsertMultiset(g, gs[1..]);
      var r := Insert(g, gs);
      forall i, j | 0 <= i < j < |r| ensures Precedes(r[i], r[j]) {
        if i == 0 {
          assert r[j] in multiset(t);
          assert gs[0] in gs;
          if r[j] != g {
            var k :| 0 <= k < |gs[1..]| && gs[1..][k] == r[j];
            assert gs[1 + k] == r[j];
          }
        }
      }
    }
  }

  /** The result is in strict burn-down order, so it depends only on the set of grants. */
  lemma {:induction false} PrioritizeOrders(gs: seq<Grant>)
    requires Distinct(gs)
    ensures Ordered(Prioritize(gs)) && Distinct(Prioritize(gs))
  {
    if gs != [] {
      assert Distinct(gs[1..]);
      PrioritizeOrders(gs[1..]);
      PrioritizePermutes(gs[1..]);
      InsertOrdered(gs[0], Prioritize(gs[1..]));
    }
    PrioritizePermutes(gs);
    OrderedDistinct(Prioritize(gs), gs);
  }

  /** Field by field: smaller priority numbers first; then earlier expirations, with none last; then
      earlier creation; then smaller ids. */
  lemma PrioritizeByFields(gs: seq<Grant>, i: nat, j: nat)
    requires Distinct(gs) && i < j < |Prioritize(gs)|
    ensures var a, b := Prioritize(gs)[i], Prioritize(gs)[j];
      && a.priority <= b.priority
      && (a.priority == b.priority ==>
            && (a.expiresAt.None? ==> b.expiresAt.None?)
            && (a.expiresAt.Some? && b.expiresAt.Some? ==> a.expiresAt.value <= b.expiresAt.value)
            && (a.expiresAt == b.expiresAt ==> a.createdAt <= b.createdAt)
            && (a.expiresAt == b.expiresAt && a.createdAt == b.createdAt ==> a.id < b.id))
  {
    PrioritizeOrders(gs);
  }

  lemma OrderedDistinct(p: seq<Grant>, gs: seq<Grant>)
    requires Ordered(p) && Distinct(gs) && forall g :: g in p ==> g in gs
    ensures Distinct(p)
  {
    forall i, j | 0 <= i < j < |p| ensures p[i].id != p[j].id {
      assert p[i] in gs && p[j] in gs;
      assert Precedes(p[i], p[j]);
    }
  }

  lemma {:induction false} ListInsert(g: Grant, gs: seq<Grant>, from: Time, to: Time)
    requires Ordered(gs) && forall h :: h in gs ==> h.id != g.id
    ensures ListActive(Insert(g, gs), from, to) ==
            if Listed(g, from, to) then Insert(g, ListActive(gs, from, to)) else ListActive(gs, from, to)
  {
    if gs == [] {
      assert ([g] + gs)[1..] == gs;
    } else if Precedes(g, gs[0]) {
      assert ([g] + gs)[1..] == gs;
      ListPrecedes(g, gs, from, to);
    } else {
      ListInsert(g, gs[1..], from, to);
      var tail := Insert(g, gs[1..]);
      assert ([gs[0]] + tail)[1..] == tail;
      var l := ListActive(gs[1..], from, to);
      assert ([gs[0]] + l)[1..] == l && [] + l == l;
    }
  }

  lemma {:induction false} ListPrecedes(g: Grant, gs: seq<Grant>, from: Time, to: Time)
    requires Ordered(gs) && (gs != [] ==> Precedes(g, gs[0]))
    ensures var l := ListActive(gs, from, to); l == [] || Precedes(g, l[0])
  {
    if gs != [] && !Listed(gs[0], from, to) && |gs| > 1 {
      assert Precedes(gs[0], gs[1]);
      ListPrecedes(g, gs[1..], from, to);
    }
  }

  lemma HeadIsNew(gs: seq<Grant>)
    requires gs != [] && Distinct(gs)
    ensures forall h :: h in Prioritize(gs[1..]) ==> h.id != gs[0].id
  {
    PrioritizePermutes(gs[1..]);
    forall h | h in Prioritize(gs[1..]) ensures h.id != gs[0].id {
      var k :| 0 <= k < |gs[1..]| && gs[1..][k] == h;
      assert gs[k + 1] == h;
    }
  }

  lemma PrioritizeCons(g: Grant, gs: seq<Grant>)
    ensures Prioritize([g] + gs) == Insert(g, Prioritize(gs)) && [] + gs == gs
  {
    assert ([g] + gs)[1..] == gs;
  }

  /** Prioritizing the listed grants is listing the prioritized grants. */
  lemma {:induction false} PrioritizeListed(gs: seq<Grant>, from: Time, to: Time)
    requires Distinct(gs)
    ensures Prioritize(ListActive(gs, from, to)) == ListActive(Prioritize(gs), from, to)
  {
    if gs != [] {
      assert Distinct(gs[1..]);
      PrioritizeListed(gs[1..], from, to);
      PrioritizeOrders(gs[1..]);
      HeadIsNew(gs);
      ListInsert(gs[0], Prioritize(gs[1..]), from, to);
      PrioritizeCons(gs[0], ListActive(gs[1..], from, to));
    }
  }

  lemma {:induction false} ListActiveIn(gs: seq<Grant>, from: Time, to: Time)
    ensures forall g :: g in ListActive(gs, from, to) <==> g in gs && Listed(g, from, to)
    ensures Distinct(gs) ==> Distinct(ListActive(gs, from, to))
  {
    if gs != [] {
      ListActiveIn(gs[1..], from, to);
      var l := ListActive(gs[1..], from, to);
      if Distinct(gs) {
        assert Distinct(gs[1..]);
        var r := ListActive(gs, from, to);
        forall i, j | 0 <= i < j < |r| ensures r[i].id != r[j].id {
          if Listed(gs[0], from, to) && i == 0 {
            assert r[j] == l[j - 1];
            assert l[j - 1] in l;
            assert r[j] in gs[1..];
          }
        }
      }
    }
  }

  /** A grant is listed exactly if it takes effect by the end of the period, has not expired, been
      deleted or been voided before, and may have an amount. */
  lemma ListedMeaning(g: Grant, from: Time, to: Time)
    requires from <= to
    ensures Listed(g, from, to) <==>
      && g.amount >= 0.0 && g.effectiveAt <= to
      && !(g.effectiveAt < from && g.expiresAt.Some? && g.expiresAt.value <= from)
      && !(g.deletedAt.Some? && g.deletedAt.value < from) && !(g.voidedAt.Some? && g.voidedAt.value < from)
  {
  }

  // ------------------------------------------------------------ active facts

  /** A grant that a query skips is inactive throughout the queried period. */
  lemma UnlistedIsInactive(g: Grant, from: Time, to: Time, t: Time)
    requires g.amount >= 0.0 && !Listed(g, from, to) && from <= t <= to
    ensures !Active(g, t)
  {
  }

  /** Activity only changes at an activity change. */
  lemma ActivityIsStable(g: Grant, from: Time, t: Time)
    requires from <= t && forall x :: from < x <= t ==> !ChangesAt(g, x)
    ensures Active(g, t) == Active(g, from)
  {
    if from < t {
      if Active(g, t) {
        assert g.effectiveAt <= t;
        assert !ChangesAt(g, t);
        if g.effectiveAt > from { assert ChangesAt(g, g.effectiveAt); }
      }
      if Active(g, from) && !Active(g, t) {
        var e := if !Before(t, g.expiresAt) then g.expiresAt.value
                 else if !Before(t, g.deletedAt) then g.deletedAt.value else g.voidedAt.value;
        assert from < e <= t && ChangesAt(g, e);
      }
    }
  }
}
