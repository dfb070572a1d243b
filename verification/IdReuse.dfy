/** Reusing database ids for recalculated lines and discounts
    (openmeter/billing/stdinvoiceline.go, openmeter/billing/invoicelinediscount.go). */
module IdReuse {
  import opened Grants

  /** The database fields of an entity. */
  datatype Managed = Managed(id: string, createdAt: int, updatedAt: int, deletedAt: Option<int>)

  /** A discount; `amount` stands for everything a recalculation may change. */
  datatype Discount = Discount(ref: Option<string>, managed: Managed, amount: real)

  datatype DetailedLine = DetailedLine(
    ref: string, managed: Managed, feeLineConfigId: string, amount: real, discounts: seq<Discount>)

  // --------------------------------------------------------------- discounts

  /** The first existing discount with the reference. */
  function FirstWith(ds: seq<Discount>, ref: string): (k: nat)
    ensures k <= |ds|
    ensures k < |ds| ==> ds[k].ref == Some(ref)
    ensures forall i :: 0 <= i < k ==> ds[i].ref != Some(ref)
  {
    if ds == [] || ds[0].ref == Some(ref) then 0 else 1 + FirstWith(ds[1..], ref)
  }

  predicate Known(ds: seq<Discount>, d: Discount) {
    d.ref.Some? && FirstWith(ds, d.ref.value) < |ds|
  }

  /** The identity taken over: id and creation time, neither update nor deletion. */
  function Taken(m: Managed): Managed { Managed(m.id, m.createdAt, 0, None) }

  function ReuseOne(d: Discount, existing: seq<Discount>): Discount {
    if Known(existing, d) then d.(managed := Taken(existing[FirstWith(existing, d.ref.value)].managed)) else d
  }

  function Reuse(current: seq<Discount>, existing: seq<Discount>): seq<Discount> {
    seq(|current|, i requires 0 <= i < |current| => ReuseOne(current[i], existing))
  }

  /** A discount that takes over the identity of `stored`: its id and creation time, nothing else. */
  predicate TakesOver(d: Discount, stored: Discount, out: Discount) {
    && out.ref == d.ref && out.amount == d.amount
    && out.managed.id == stored.managed.id && out.managed.createdAt == stored.managed.createdAt
    && out.managed.updatedAt == 0 && out.managed.deletedAt.None?
  }

  /** The first stored discount with the reference is taken over, if there is one. */
  predicate Reused(d: Discount, existing: seq<Discount>, out: Discount) {
    if d.ref.Some? && exists k :: 0 <= k < |existing| && existing[k].ref == d.ref then
      exists k :: 0 <= k < |existing| && existing[k].ref == d.ref && TakesOver(d, existing[k], out) &&
                  forall i :: 0 <= i < k ==> existing[i].ref != d.ref
    else out == d
  }

  lemma ReuseOneMeaning(d: Discount, existing: seq<Discount>)
    ensures Reused(d, existing, ReuseOne(d, existing))
  {
    if Known(existing, d) {
      var k := FirstWith(existing, d.ref.value);
      assert existing[k].ref == d.ref && TakesOver(d, existing[k], ReuseOne(d, existing));
    }
  }

  /** The first discount of each reference. */
  method FirstByRef(existing: seq<Discount>) returns (first: map<string, Discount>)
    ensures forall r :: r in first <==> FirstWith(existing, r) < |existing|
    ensures forall r :: r in first ==> first[r] == existing[FirstWith(existing, r)]
  {
    first := map[];
    for k := 0 to |existing|
      invariant forall r :: r in first <==> FirstWith(existing[..k], r) < k
      invariant forall r :: r in first ==> first[r] == existing[FirstWith(existing[..k], r)]
    {
      assert existing[..k + 1] == existing[..k] + [existing[k]];
      FirstWithSnoc(existing[..k], existing[k]);
      if existing[k].ref.Some? && existing[k].ref.value !in first {
        first := first[existing[k].ref.value := existing[k]];
      }
    }
    assert existing[..|existing|] == existing;
  }

  /** ReuseIDsFrom: groups the existing discounts by reference and takes the first of each group. */
  method ReuseIDsFrom(current: seq<Discount>, existing: seq<Discount>) returns (out: seq<Discount>)
    ensures out == Reuse(current, existing)
    ensures |out| == |current| && forall i :: 0 <= i < |current| ==> Reused(current[i], existing, out[i])
  {
    forall i | 0 <= i < |current| ensures Reused(current[i], existing, ReuseOne(current[i], existing)) { ReuseOneMeaning(current[i], existing); }
    var first := FirstByRef(existing);
    out := [];
    for k := 0 to |current|
      invariant |out| == k && forall i :: 0 <= i < k ==> out[i] == ReuseOne(current[i], existing)
    {
      var d := current[k];
      if d.ref.Some? && d.ref.value in first { d := d.(managed := Taken(first[d.ref.value].managed)); }
      out := out + [d];
    }
  }

  lemma {:induction false} FirstWithAppend(a: seq<Discount>, b: seq<Discount>, r: string)
    ensures FirstWith(a + b, r) == if FirstWith(a, r) < |a| then FirstWith(a, r) else |a| + FirstWith(b, r)
  {
    if a == [] {
      assert a + b == b;
    } else {
      assert (a + b)[1..] == a[1..] + b;
      FirstWithAppend(a[1..], b, r);
    }
  }

  lemma FirstWithSnoc(a: seq<Discount>, d: Discount)
    ensures forall r :: FirstWith(a + [d], r) == if FirstWith(a, r) < |a| then FirstWith(a, r) else if d.ref == Some(r) then |a| else |a| + 1
  {
    forall r ensures FirstWith(a + [d], r) == if FirstWith(a, r) < |a| then FirstWith(a, r) else if d.ref == Some(r) then |a| else |a| + 1 {
      FirstWithAppend(a, [d], r);
    }
  }

  /** Stored ids identify stored discounts. */
  predicate DistinctIds(ds: seq<Discount>) {
    forall i, j :: 0 <= i < j < |ds| ==> ds[i].managed.id != ds[j].managed.id
  }

  /** Two recalculated discounts are handed the same stored id exactly when they share the
      reference of a stored one. */
  lemma HandedTwiceIff(current: seq<Discount>, existing: seq<Discount>, i: nat, j: nat)
    requires i < j < |current| && DistinctIds(existing)
    requires Known(existing, current[i]) && Known(existing, current[j])
    ensures Reuse(current, existing)[i].managed.id == Reuse(current, existing)[j].managed.id <==>
            current[i].ref == current[j].ref
  {
    var p, q := FirstWith(existing, current[i].ref.value), FirstWith(existing, current[j].ref.value);
    if p < q { assert existing[p].managed.id != existing[q].managed.id; }
    if q < p { assert existing[q].managed.id != existing[p].managed.id; }
  }

  /** Only database fields change, and reusing again changes nothing. */
  lemma ReuseIsIdempotent(current: seq<Discount>, existing: seq<Discount>)
    ensures Reuse(Reuse(current, existing), existing) == Reuse(current, existing)
    ensures |Reuse(current, existing)| == |current|
    ensures forall i :: 0 <= i < |current| ==> Reuse(current, existing)[i].(managed := current[i].managed) == current[i]
  {
    var r := Reuse(current, existing);
    forall i | 0 <= i < |current| ensures ReuseOne(r[i], existing) == r[i] { }
    assert Reuse(r, existing) == r;
  }

  // -------------------------------------------------- upserting one by one

  function Upsert(ds: seq<Discount>, d: Discount): seq<Discount> {
    if Known(ds, d) then
      var k := FirstWith(ds, d.ref.value);
      ds[k := d.(managed := Taken(ds[k].managed))]
    else ds + [d]
  }

  /** MergeDiscountsByChildUniqueReferenceID. */
  method MergeDiscountsByChildUniqueReferenceID(ds: seq<Discount>, d: Discount) returns (out: seq<Discount>)
    ensures out == Upsert(ds, d)
  {
    if d.ref.None? { return ds + [d]; }
    var k := 0;
    while k < |ds| && ds[k].ref != d.ref
      invariant k <= |ds| && FirstWith(ds, d.ref.value) == k + FirstWith(ds[k..], d.ref.value)
    {
      assert ds[k..][1..] == ds[k + 1..];
      k := k + 1;
    }
    if k == |ds| { return ds + [d]; }
    out := ds[k := d.(managed := Managed(ds[k].managed.id, ds[k].managed.createdAt, 0, None))];
  }

  function UpsertAll(ds: seq<Discount>, current: seq<Discount>): seq<Discount>
    decreases |current|
  {
    if current == [] then ds
    else
      var n := |current| - 1;
      Upsert(UpsertAll(ds, current[..n]), current[n])
  }

  predicate DistinctRefs(ds: seq<Discount>) {
    forall i, j :: 0 <= i < j < |ds| && ds[i].ref.Some? ==> ds[i].ref != ds[j].ref
  }

  /** The discounts that no stored one has the reference of. */
  function Unknown(current: seq<Discount>, existing: seq<Discount>): seq<Discount>
    decreases |current|
  {
    if current == [] then []
    else
      var n := |current| - 1;
      Unknown(current[..n], existing) + if Known(existing, current[n]) then [] else [current[n]]
  }

  predicate Named(current: seq<Discount>, d: Discount) {
    d.ref.Some? && exists j :: 0 <= j < |current| && current[j].ref == d.ref
  }

  lemma {:induction false} UnknownIn(current: seq<Discount>, existing: seq<Discount>)
    ensures forall d :: d in Unknown(current, existing) ==> d in current && !Known(existing, d)
    decreases |current|
  {
    if current != [] { UnknownIn(current[..|current| - 1], existing); }
  }

  lemma {:induction false} FirstWithMissing(ds: seq<Discount>, r: string)
    requires forall d :: d in ds ==> d.ref != Some(r)
    ensures FirstWith(ds, r) == |ds|
  {
    if ds != [] {
      assert ds[0] in ds;
      FirstWithMissing(ds[1..], r);
    }
  }

  lemma {:induction false} FirstWithSameRefs(a: seq<Discount>, b: seq<Discount>, r: string)
    requires |a| == |b| && forall i :: 0 <= i < |a| ==> a[i].ref == b[i].ref
    ensures FirstWith(a, r) == FirstWith(b, r)
  {
    if a != [] && a[0].ref != Some(r) { FirstWithSameRefs(a[1..], b[1..], r); }
  }

  /** Each recalculated discount is where its stored namesake was, with the identity that reuse
      gives it; the others are appended in order; every other stored discount is left alone. */
  predicate Upserted(stored: seq<Discount>, current: seq<Discount>, r: seq<Discount>) {
    && |r| >= |stored| && r[|stored|..] == Unknown(current, stored)
    && (forall j :: 0 <= j < |current| && Known(stored, current[j]) ==>
          r[FirstWith(stored, current[j].ref.value)] == ReuseOne(current[j], stored))
    && (forall i :: 0 <= i < |stored| && !Named(current, stored[i]) ==> r[i] == stored[i])
    && (forall i :: 0 <= i < |stored| ==> r[i].ref == stored[i].ref)
  }

  /** The next reference is found where it was stored, still untouched, or not at all. */
  lemma UpsertPosition(stored: seq<Discount>, earlier: seq<Discount>, before: seq<Discount>, d: Discount)
    requires d.ref.Some? && forall j :: 0 <= j < |earlier| ==> earlier[j].ref != d.ref
    requires Upserted(stored, earlier, before)
    ensures var k := FirstWith(stored, d.ref.value);
      && (k < |stored| ==> FirstWith(before, d.ref.value) == k && before[k] == stored[k])
      && (k == |stored| ==> FirstWith(before, d.ref.value) == |before|)
  {
    var r := d.ref.value;
    assert before == before[..|stored|] + before[|stored|..];
    FirstWithAppend(before[..|stored|], before[|stored|..], r);
    FirstWithSameRefs(before[..|stored|], stored, r);
    UnknownIn(earlier, stored);
    FirstWithMissing(before[|stored|..], r);
  }

  lemma NamedSnoc(earlier: seq<Discount>, d: Discount, x: Discount)
    ensures Named(earlier + [d], x) <==> Named(earlier, x) || (x.ref.Some? && d.ref == x.ref)
  {
    var r := earlier + [d];
    assert r[|earlier|] == d;
    if Named(earlier, x) {
      var j :| 0 <= j < |earlier| && earlier[j].ref == x.ref;
      assert r[j].ref == x.ref;
    }
  }

  lemma UpsertStep(stored: seq<Discount>, earlier: seq<Discount>, before: seq<Discount>, d: Discount)
    requires Upserted(stored, earlier, before)
    requires d.ref.Some? ==> forall j :: 0 <= j < |earlier| ==> earlier[j].ref != d.ref
    ensures Upserted(stored, earlier + [d], Upsert(before, d))
  {
    var current, r := earlier + [d], Upsert(before, d);
    assert current[..|earlier|] == earlier;
    if d.ref.Some? { UpsertPosition(stored, earlier, before, d); }
    forall i | 0 <= i < |stored| && !Named(current, stored[i]) ensures r[i] == stored[i] {
      NamedSnoc(earlier, d, stored[i]);
    }
    assert r[|stored|..] == Unknown(current, stored);
    forall j | 0 <= j < |current| && Known(stored, current[j])
      ensures r[FirstWith(stored, current[j].ref.value)] == ReuseOne(current[j], stored)
    {
      if j < |earlier| { assert current[j] == earlier[j]; }
    }
  }

  /** Upserting recalculated discounts with distinct references one by one agrees with reusing
      the stored ids for all of them at once. */
  lemma {:induction false} UpsertsAgreeWithReuse(stored: seq<Discount>, current: seq<Discount>)
    requires DistinctRefs(current)
    ensures Upserted(stored, current, UpsertAll(stored, current))
    decreases |current|
  {
    if current != [] {
      var n := |current| - 1;
      assert current == current[..n] + [current[n]];
      UpsertsAgreeWithReuse(stored, current[..n]);
      UpsertStep(stored, current[..n], UpsertAll(stored, current[..n]), current[n]);
    }
  }

  // ---------------------------------------------------------- detailed lines

  /** The last existing line with the reference that has not been deleted. */
  function LastLive(ls: seq<DetailedLine>, ref: string): (k: int)
    ensures -1 <= k < |ls|
    ensures k >= 0 ==> ls[k].ref == ref && ls[k].managed.deletedAt.None?
    ensures forall i :: k < i < |ls| ==> ls[i].ref != ref || ls[i].managed.deletedAt.Some?
  {
    if ls == [] then -1
    else
      var n := |ls| - 1;
      if ls[n].ref == ref && ls[n].managed.deletedAt.None? then n else LastLive(ls[..n], ref)
  }

  predicate KnownLine(existing: seq<DetailedLine>, l: DetailedLine) {
    l.ref != "" && LastLive(existing, l.ref) >= 0
  }

  /** The stored identity, timestamps and fee configuration are retained, and the discounts
      reuse those of the stored line. */
  function ReuseLine(l: DetailedLine, existing: seq<DetailedLine>): DetailedLine {
    if !KnownLine(existing, l) then l
    else
      var e := existing[LastLive(existing, l.ref)];
      l.(managed := Managed(e.managed.id, e.managed.createdAt, e.managed.updatedAt, l.managed.deletedAt),
         feeLineConfigId := e.feeLineConfigId, discounts := Reuse(l.discounts, e.discounts))
  }

  function ReuseLines(ls: seq<DetailedLine>, existing: seq<DetailedLine>): seq<DetailedLine> {
    seq(|ls|, i requires 0 <= i < |ls| => ReuseLine(ls[i], existing))
  }

  /** The live lines by reference; later ones overwrite earlier ones. */
  method LiveByRef(existing: seq<DetailedLine>) returns (byRef: map<string, DetailedLine>)
    ensures forall r :: r in byRef <==> r != "" && LastLive(existing, r) >= 0
    ensures forall r :: r in byRef ==> byRef[r] == existing[LastLive(existing, r)]
  {
    byRef := map[];
    for k := 0 to |existing|
      invariant forall r :: r in byRef <==> r != "" && LastLive(existing[..k], r) >= 0
      invariant forall r :: r in byRef ==> byRef[r] == existing[LastLive(existing[..k], r)]
    {
      assert existing[..k + 1][..k] == existing[..k];
      var child := existing[k];
      if child.ref == "" { continue; }
      if child.managed.deletedAt.Some? { continue; }
      byRef := byRef[child.ref := child];
    }
    assert existing[..|existing|] == existing;
  }

  /** DetailedLinesWithIDReuse. */
  method DetailedLinesWithIDReuse(existing: seq<DetailedLine>, ls: seq<DetailedLine>) returns (out: seq<DetailedLine>)
    ensures out == ReuseLines(ls, existing)
  {
    var byRef := LiveByRef(existing);
    out := ls;
    for k := 0 to |ls|
      invariant |out| == |ls| && forall i :: 0 <= i < |ls| ==> out[i] == if i < k then ReuseLine(ls[i], existing) else ls[i]
    {
      var child := out[k];
      if child.ref == "" { continue; }
      if child.ref in byRef {
        var e := byRef[child.ref];
        var discounts := ReuseIDsFrom(child.discounts, e.discounts);
        out := out[k := child.(managed := child.managed.(id := e.managed.id, createdAt := e.managed.createdAt, updatedAt := e.managed.updatedAt),
                               feeLineConfigId := e.feeLineConfigId, discounts := discounts)];
      }
    }
  }

  /** The last live stored line with the reference, if there is one, gives its id, its creation and
      update times and its fee configuration, and its discounts are reused; the line's own deletion,
      amount and reference stay. */
  lemma ReuseLineMeaning(l: DetailedLine, existing: seq<DetailedLine>, k: nat)
    requires k < |existing| && l.ref != "" && existing[k].ref == l.ref && existing[k].managed.deletedAt.None?
    requires forall i :: k < i < |existing| ==> existing[i].ref != l.ref || existing[i].managed.deletedAt.Some?
    ensures var r, e := ReuseLine(l, existing), existing[k];
      && r.managed.id == e.managed.id && r.managed.createdAt == e.managed.createdAt && r.managed.updatedAt == e.managed.updatedAt
      && r.managed.deletedAt == l.managed.deletedAt && r.feeLineConfigId == e.feeLineConfigId
      && r.ref == l.ref && r.amount == l.amount && |r.discounts| == |l.discounts|
      && forall i :: 0 <= i < |l.discounts| ==> Reused(l.discounts[i], e.discounts, r.discounts[i])
  {
    var j := LastLive(existing, l.ref);
    assert j == k;
    forall i | 0 <= i < |l.discounts| ensures Reused(l.discounts[i], existing[k].discounts, ReuseLine(l, existing).discounts[i]) {
      ReuseOneMeaning(l.discounts[i], existing[k].discounts);
    }
  }

  /** Without one the line stays as it is. */
  lemma UnknownLineStays(l: DetailedLine, existing: seq<DetailedLine>)
    requires l.ref == "" || forall i :: 0 <= i < |existing| ==> existing[i].ref != l.ref || existing[i].managed.deletedAt.Some?
    ensures ReuseLine(l, existing) == l
  {
  }

  predicate DistinctLineIds(ls: seq<DetailedLine>) {
    forall i, j :: 0 <= i < j < |ls| ==> ls[i].managed.id != ls[j].managed.id
  }

  /** Reusing again changes nothing; two lines are handed the same stored id exactly when they
      share a reference; amounts and references stay. */
  lemma LinesReuse(ls: seq<DetailedLine>, existing: seq<DetailedLine>)
    requires DistinctLineIds(existing)
    ensures var r := ReuseLines(ls, existing);
      && ReuseLines(r, existing) == r
      && (forall i :: 0 <= i < |ls| ==> r[i].amount == ls[i].amount && r[i].ref == ls[i].ref && |r[i].discounts| == |ls[i].discounts|)
      && (forall i, j :: 0 <= i < j < |ls| && KnownLine(existing, ls[i]) && KnownLine(existing, ls[j]) ==>
            (r[i].managed.id == r[j].managed.id <==> ls[i].ref == ls[j].ref))
  {
    var r := ReuseLines(ls, existing);
    forall i | 0 <= i < |ls| ensures ReuseLine(r[i], existing) == r[i] {
      if KnownLine(existing, ls[i]) { ReuseIsIdempotent(ls[i].discounts, existing[LastLive(existing, ls[i].ref)].discounts); }
    }
    assert ReuseLines(r, existing) == r;
    forall i, j | 0 <= i < j < |ls| && KnownLine(existing, ls[i]) && KnownLine(existing, ls[j])
      ensures r[i].managed.id == r[j].managed.id <==> ls[i].ref == ls[j].ref
    {
      var p, q := LastLive(existing, ls[i].ref), LastLive(existing, ls[j].ref);
      if p < q { assert existing[p].managed.id != existing[q].managed.id; }
      if q < p { assert existing[q].managed.id != existing[p].managed.id; }
    }
  }
}
