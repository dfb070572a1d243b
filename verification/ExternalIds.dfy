/** Merging the external ids an invoicing app returns into the invoice
    (openmeter/billing/app.go, stdinvoiceline.go, invoicedetailedline.go). */
module ExternalIds {

  datatype Discount = Discount(id: string, externalId: string, amount: real)

  datatype DetailedLine = DetailedLine(id: string, externalId: string, discounts: seq<Discount>)

  /** A line's value: what the merge reads and writes. */
  datatype Content = Content(id: string, externalId: string, discounts: seq<Discount>, detailed: seq<DetailedLine>)

  type Ids = map<string, string>

  // --------------------------------------------------------- what is placed

  function Pick(m: Ids, id: string, current: string): string { if id in m then m[id] else current }

  function PlaceDiscounts(ds: seq<Discount>, m: Ids): seq<Discount> {
    seq(|ds|, i requires 0 <= i < |ds| => ds[i].(externalId := Pick(m, ds[i].id, ds[i].externalId)))
  }

  function PlaceDetailed(ds: seq<DetailedLine>, lines: Ids, discounts: Ids): seq<DetailedLine> {
    seq(|ds|, i requires 0 <= i < |ds| =>
      DetailedLine(ds[i].id, Pick(lines, ds[i].id, ds[i].externalId), PlaceDiscounts(ds[i].discounts, discounts)))
  }

  /** Every line, detailed line and discount named by a map gets the id it maps to. */
  function Place(c: Content, lines: Ids, discounts: Ids): Content {
    Content(c.id, Pick(lines, c.id, c.externalId), PlaceDiscounts(c.discounts, discounts), PlaceDetailed(c.detailed, lines, discounts))
  }

  /** The external id is the one the map names, or stays. */
  predicate Named(m: Ids, id: string, before: string, after: string) {
    if id in m then after == m[id] else after == before
  }

  predicate DiscountsNamed(ds: seq<Discount>, m: Ids, out: seq<Discount>) {
    && |out| == |ds|
    && forall i :: 0 <= i < |ds| ==>
         out[i].id == ds[i].id && out[i].amount == ds[i].amount && Named(m, ds[i].id, ds[i].externalId, out[i].externalId)
  }

  /** Every id that a map names is placed, and nothing else changes. */
  lemma PlaceMeaning(c: Content, lines: Ids, discounts: Ids)
    ensures var r := Place(c, lines, discounts);
      && r.id == c.id && Named(lines, c.id, c.externalId, r.externalId) && DiscountsNamed(c.discounts, discounts, r.discounts)
      && |r.detailed| == |c.detailed|
      && forall i :: 0 <= i < |c.detailed| ==>
           && r.detailed[i].id == c.detailed[i].id
           && Named(lines, c.detailed[i].id, c.detailed[i].externalId, r.detailed[i].externalId)
           && DiscountsNamed(c.detailed[i].discounts, discounts, r.detailed[i].discounts)
  {
  }

  // -------------------------------------------------------------- identities

  function DiscountIds(ds: seq<Discount>): seq<string> {
    seq(|ds|, i requires 0 <= i < |ds| => ds[i].id)
  }

  function DetailedIds(ds: seq<DetailedLine>): seq<string> {
    if ds == [] then [] else DetailedIds(ds[..|ds| - 1]) + [ds[|ds| - 1].id]
  }

  function DetailedDiscountIds(ds: seq<DetailedLine>): seq<string> {
    if ds == [] then [] else DetailedDiscountIds(ds[..|ds| - 1]) + DiscountIds(ds[|ds| - 1].discounts)
  }

  function LineIdsOf(c: Content): seq<string> { [c.id] + DetailedIds(c.detailed) }

  function DiscountIdsOf(c: Content): seq<string> { DiscountIds(c.discounts) + DetailedDiscountIds(c.detailed) }

  function AllLineIds(cs: seq<Content>): seq<string> {
    if cs == [] then [] else AllLineIds(cs[..|cs| - 1]) + LineIdsOf(cs[|cs| - 1])
  }

  function AllDiscountIds(cs: seq<Content>): seq<string> {
    if cs == [] then [] else AllDiscountIds(cs[..|cs| - 1]) + DiscountIdsOf(cs[|cs| - 1])
  }

  predicate NoRepeats(ids: seq<string>) { forall i, j :: 0 <= i < j < |ids| ==> ids[i] != ids[j] }

  /** The keys of no id in the list are left. */
  function Unmatched(m: Ids, ids: seq<string>): Ids { map k | k in m && k !in ids :: m[k] }

  lemma UnmatchedTwice(m: Ids, a: seq<string>, b: seq<string>)
    ensures Unmatched(Unmatched(m, a), b) == Unmatched(m, a + b)
  {
  }

  lemma NoRepeatsParts(a: seq<string>, b: seq<string>)
    requires NoRepeats(a + b)
    ensures NoRepeats(a) && NoRepeats(b) && forall x :: x in b ==> x !in a
  {
    forall i, j | 0 <= i < j < |a| ensures a[i] != a[j] { assert (a + b)[i] != (a + b)[j]; }
    forall i, j | 0 <= i < j < |b| ensures b[i] != b[j] { assert (a + b)[|a| + i] != (a + b)[|a| + j]; }
    forall x | x in b ensures x !in a {
      var j :| 0 <= j < |b| && b[j] == x;
      assert (a + b)[|a| + j] == x;
      forall i | 0 <= i < |a| ensures a[i] != x { assert (a + b)[i] != (a + b)[|a| + j]; }
    }
  }

  /** Keys that were matched before do not matter for discounts with other ids. */
  lemma PlaceDiscountsAfter(ds: seq<Discount>, m: Ids, before: seq<string>)
    requires forall x :: x in DiscountIds(ds) ==> x !in before
    ensures PlaceDiscounts(ds, Unmatched(m, before)) == PlaceDiscounts(ds, m)
  {
    forall i | 0 <= i < |ds| ensures PlaceDiscounts(ds, Unmatched(m, before))[i] == PlaceDiscounts(ds, m)[i] {
      assert DiscountIds(ds)[i] in DiscountIds(ds);
    }
  }

  lemma {:induction false} DetailedIdsIn(ds: seq<DetailedLine>, i: nat)
    requires i < |ds|
    ensures ds[i].id in DetailedIds(ds)
    ensures forall x :: x in DiscountIds(ds[i].discounts) ==> x in DetailedDiscountIds(ds)
  {
    if i < |ds| - 1 { DetailedIdsIn(ds[..|ds| - 1], i); }
  }

  lemma PlaceAfter(c: Content, lines: Ids, discounts: Ids, beforeLines: seq<string>, beforeDiscounts: seq<string>)
    requires forall x :: x in LineIdsOf(c) ==> x !in beforeLines
    requires forall x :: x in DiscountIdsOf(c) ==> x !in beforeDiscounts
    ensures Place(c, Unmatched(lines, beforeLines), Unmatched(discounts, beforeDiscounts)) == Place(c, lines, discounts)
  {
    assert LineIdsOf(c)[0] == c.id;
    PlaceDiscountsAfter(c.discounts, discounts, beforeDiscounts);
    forall i | 0 <= i < |c.detailed|
      ensures PlaceDetailed(c.detailed, Unmatched(lines, beforeLines), Unmatched(discounts, beforeDiscounts))[i] ==
              PlaceDetailed(c.detailed, lines, discounts)[i]
    {
      DetailedIdsIn(c.detailed, i);
      PlaceDiscountsAfter(c.detailed[i].discounts, discounts, beforeDiscounts);
    }
  }

  // ------------------------------------------------------------- the merge

  /** SetDiscountExternalIDs: places the ids and reports which were found. */
  method SetDiscountExternalIDs(ds: seq<Discount>, m: Ids) returns (out: seq<Discount>, found: seq<string>)
    ensures out == PlaceDiscounts(ds, m) && DiscountsNamed(ds, m, out)
    ensures forall x :: x in found <==> x in DiscountIds(ds) && x in m
  {
    out, found := [], [];
    for k := 0 to |ds|
      invariant out == PlaceDiscounts(ds[..k], m)
      invariant forall x :: x in found <==> x in DiscountIds(ds[..k]) && x in m
    {
      assert ds[..k + 1] == ds[..k] + [ds[k]];
      assert DiscountIds(ds[..k + 1]) == DiscountIds(ds[..k]) + [ds[k].id];
      if ds[k].id in m {
        out := out + [ds[k].(externalId := m[ds[k].id])];
        found := found + [ds[k].id];
      } else {
        out := out + [ds[k]];
      }
    }
    assert ds[..|ds|] == ds;
  }

  method DeleteAll(m: Ids, found: seq<string>) returns (r: Ids)
    ensures r == Unmatched(m, found)
  {
    r := m;
    for k := 0 to |found|
      invariant r == Unmatched(m, found[..k])
    {
      assert found[..k + 1] == found[..k] + [found[k]];
      r := r - {found[k]};
    }
    assert found[..|found|] == found;
  }

  /** Placing the ids of a list of discounts consumes exactly the keys of that list. */
  method ConsumeDiscounts(ds: seq<Discount>, m: Ids) returns (out: seq<Discount>, rest: Ids)
    ensures out == PlaceDiscounts(ds, m) && rest == Unmatched(m, DiscountIds(ds))
  {
    var found;
    out, found := SetDiscountExternalIDs(ds, m);
    rest := DeleteAll(m, found);
  }

  lemma Associative(a: seq<string>, b: seq<string>, c: seq<string>)
    ensures (a + b) + c == a + (b + c)
  {
  }

  lemma {:induction false} DetailedSplits(ds: seq<DetailedLine>, k: nat, pre: seq<DetailedLine>, post: seq<DetailedLine>)
    requires k <= |ds| && pre == ds[..k] && post == ds[k..]
    ensures DetailedIds(ds) == DetailedIds(pre) + DetailedIds(post)
    ensures DetailedDiscountIds(ds) == DetailedDiscountIds(pre) + DetailedDiscountIds(post)
  {
    if k == |ds| {
      assert pre == ds;
    } else {
      var n := |ds| - 1;
      var mid, last := post[..n - k], ds[n];
      assert ds[..n][..k] == pre && ds[..n][k..] == mid && post[|post| - 1] == last;
      DetailedSplits(ds[..n], k, pre, mid);
      Associative(DetailedIds(pre), DetailedIds(mid), [last.id]);
      Associative(DetailedDiscountIds(pre), DetailedDiscountIds(mid), DiscountIds(last.discounts));
    }
  }

  /** The ids of the next detailed line did not occur before, if none repeats. */
  lemma NextDetailed(ds: seq<DetailedLine>, k: nat)
    requires k < |ds| && NoRepeats(DetailedIds(ds)) && NoRepeats(DetailedDiscountIds(ds))
    ensures ds[k].id !in DetailedIds(ds[..k])
    ensures forall x :: x in DiscountIds(ds[k].discounts) ==> x !in DetailedDiscountIds(ds[..k])
  {
    DetailedSplits(ds, k, ds[..k], ds[k..]);
    NoRepeatsParts(DetailedIds(ds[..k]), DetailedIds(ds[k..]));
    NoRepeatsParts(DetailedDiscountIds(ds[..k]), DetailedDiscountIds(ds[k..]));
    DetailedIdsIn(ds[k..], 0);
  }

  function PlaceOne(d: DetailedLine, lines: Ids, discounts: Ids): DetailedLine {
    DetailedLine(d.id, Pick(lines, d.id, d.externalId), PlaceDiscounts(d.discounts, discounts))
  }

  predicate SameDetailedIds(a: seq<DetailedLine>, b: seq<DetailedLine>) {
    |a| == |b| && forall i :: 0 <= i < |a| ==> a[i].id == b[i].id && DiscountIds(a[i].discounts) == DiscountIds(b[i].discounts)
  }

  lemma {:induction false} SameDetailedLists(a: seq<DetailedLine>, b: seq<DetailedLine>)
    requires SameDetailedIds(a, b)
    ensures DetailedIds(a) == DetailedIds(b) && DetailedDiscountIds(a) == DetailedDiscountIds(b)
  {
    if a != [] { SameDetailedLists(a[..|a| - 1], b[..|b| - 1]); }
  }

  lemma IdsSnoc(ds: seq<DetailedLine>, k: nat)
    requires k < |ds|
    ensures DetailedIds(ds[..k + 1]) == DetailedIds(ds[..k]) + [ds[k].id]
    ensures DetailedDiscountIds(ds[..k + 1]) == DetailedDiscountIds(ds[..k]) + DiscountIds(ds[k].discounts)
  {
    assert ds[..k + 1][..k] == ds[..k];
  }

  predicate NoneRepeats(ds: seq<DetailedLine>) { NoRepeats(DetailedIds(ds)) && NoRepeats(DetailedDiscountIds(ds)) }

  lemma PlaceNext(ds: seq<DetailedLine>, k: nat, lines: Ids, discounts: Ids, before: seq<string>, beforeDiscounts: seq<string>)
    requires k < |ds| && NoneRepeats(ds) && before == DetailedIds(ds[..k]) && beforeDiscounts == DetailedDiscountIds(ds[..k])
    ensures PlaceOne(ds[k], Unmatched(lines, before), Unmatched(discounts, beforeDiscounts)) == PlaceOne(ds[k], lines, discounts)
  {
    NextDetailed(ds, k);
    PlaceDiscountsAfter(ds[k].discounts, discounts, beforeDiscounts);
  }

  /** One detailed line: its keys are consumed. */
  method MergeOne(d: DetailedLine, lines: Ids, discounts: Ids) returns (out: DetailedLine, restLines: Ids, restDiscounts: Ids)
    ensures out == PlaceOne(d, lines, discounts)
    ensures restLines == Unmatched(lines, [d.id]) && restDiscounts == Unmatched(discounts, DiscountIds(d.discounts))
  {
    restLines := lines;
    var external := d.externalId;
    if d.id in lines {
      external := lines[d.id];
      restLines := restLines - {d.id};
    }
    var merged;
    merged, restDiscounts := ConsumeDiscounts(d.discounts, discounts);
    out := DetailedLine(d.id, external, merged);
  }

  lemma PlacedKeepsIds(d: DetailedLine, lines: Ids, discounts: Ids)
    ensures PlaceOne(d, lines, discounts).id == d.id
    ensures DiscountIds(PlaceOne(d, lines, discounts).discounts) == DiscountIds(d.discounts)
  {
  }

  /** The detailed lines and the keys left after `k` rounds. */
  predicate DetailedProgress(ds: seq<DetailedLine>, k: nat, lines: Ids, discounts: Ids,
      out: seq<DetailedLine>, restLines: Ids, restDiscounts: Ids)
    requires k <= |ds|
  {
    && |out| == k
    && restLines == Unmatched(lines, DetailedIds(ds[..k])) && restDiscounts == Unmatched(discounts, DetailedDiscountIds(ds[..k]))
    && (forall i :: 0 <= i < k ==> out[i].id == ds[i].id && DiscountIds(out[i].discounts) == DiscountIds(ds[i].discounts))
    && (NoneRepeats(ds) ==> forall i :: 0 <= i < k ==> out[i] == PlaceOne(ds[i], lines, discounts))
  }

  lemma KeysStep(ds: seq<DetailedLine>, k: nat, lines: Ids, discounts: Ids)
    requires k < |ds|
    ensures Unmatched(Unmatched(lines, DetailedIds(ds[..k])), [ds[k].id]) == Unmatched(lines, DetailedIds(ds[..k + 1]))
    ensures Unmatched(Unmatched(discounts, DetailedDiscountIds(ds[..k])), DiscountIds(ds[k].discounts)) ==
            Unmatched(discounts, DetailedDiscountIds(ds[..k + 1]))
  {
    IdsSnoc(ds, k);
    UnmatchedTwice(lines, DetailedIds(ds[..k]), [ds[k].id]);
    UnmatchedTwice(discounts, DetailedDiscountIds(ds[..k]), DiscountIds(ds[k].discounts));
  }

  lemma DetailedStep(ds: seq<DetailedLine>, k: nat, lines: Ids, discounts: Ids,
      out: seq<DetailedLine>, restLines: Ids, restDiscounts: Ids, placed: DetailedLine)
    requires k < |ds| && DetailedProgress(ds, k, lines, discounts, out, restLines, restDiscounts)
    requires placed == PlaceOne(ds[k], restLines, restDiscounts)
    ensures DetailedProgress(ds, k + 1, lines, discounts, out + [placed],
      Unmatched(restLines, [ds[k].id]), Unmatched(restDiscounts, DiscountIds(ds[k].discounts)))
  {
    KeysStep(ds, k, lines, discounts);
    PlacedKeepsIds(ds[k], restLines, restDiscounts);
    if NoneRepeats(ds) { PlaceNext(ds, k, lines, discounts, DetailedIds(ds[..k]), DetailedDiscountIds(ds[..k])); }
  }

  /** The inner loop over detailed lines. */
  method MergeDetailed(ds: seq<DetailedLine>, lines: Ids, discounts: Ids) returns (out: seq<DetailedLine>, restLines: Ids, restDiscounts: Ids)
    ensures restLines == Unmatched(lines, DetailedIds(ds))
    ensures restDiscounts == Unmatched(discounts, DetailedDiscountIds(ds))
    ensures SameDetailedIds(out, ds)
    ensures NoneRepeats(ds) ==> out == PlaceDetailed(ds, lines, discounts)
  {
    out, restLines, restDiscounts := [], lines, discounts;
    for k := 0 to |ds|
      invariant DetailedProgress(ds, k, lines, discounts, out, restLines, restDiscounts)
    {
      var placed, l, d := MergeOne(ds[k], restLines, restDiscounts);
      DetailedStep(ds, k, lines, discounts, out, restLines, restDiscounts, placed);
      out, restLines, restDiscounts := out + [placed], l, d;
    }
    assert ds[..|ds|] == ds;
  }

  lemma DetailedAfter(c: Content, lines: Ids, discounts: Ids)
    requires NoRepeats(LineIdsOf(c)) && NoRepeats(DiscountIdsOf(c))
    ensures NoRepeats(DetailedIds(c.detailed)) && NoRepeats(DetailedDiscountIds(c.detailed))
    ensures PlaceDetailed(c.detailed, Unmatched(lines, [c.id]), Unmatched(discounts, DiscountIds(c.discounts))) ==
            PlaceDetailed(c.detailed, lines, discounts)
  {
    NoRepeatsParts([c.id], DetailedIds(c.detailed));
    NoRepeatsParts(DiscountIds(c.discounts), DetailedDiscountIds(c.detailed));
    var p := PlaceDetailed(c.detailed, Unmatched(lines, [c.id]), Unmatched(discounts, DiscountIds(c.discounts)));
    forall i | 0 <= i < |c.detailed| ensures p[i] == PlaceDetailed(c.detailed, lines, discounts)[i] {
      DetailedIdsIn(c.detailed, i);
      PlaceDiscountsAfter(c.detailed[i].discounts, discounts, DiscountIds(c.discounts));
    }
  }

  class Line {
    const id: string
    var externalId: string
    var discounts: seq<Discount>
    var detailed: seq<DetailedLine>

    constructor (c: Content)
      ensures Value() == c
    {
      id, externalId, discounts, detailed := c.id, c.externalId, c.discounts, c.detailed;
    }

    function Value(): Content
      reads this
    {
      Content(id, externalId, discounts, detailed)
    }

    /** One round of the loop over the lines. */
    method Merge(lines: Ids, discountIds: Ids) returns (restLines: Ids, restDiscounts: Ids)
      modifies this
      ensures restLines == Unmatched(lines, LineIdsOf(old(Value())))
      ensures restDiscounts == Unmatched(discountIds, DiscountIdsOf(old(Value())))
      ensures LineIdsOf(Value()) == LineIdsOf(old(Value())) && DiscountIdsOf(Value()) == DiscountIdsOf(old(Value()))
      ensures NoRepeats(LineIdsOf(old(Value()))) && NoRepeats(DiscountIdsOf(old(Value()))) ==>
              Value() == Place(old(Value()), lines, discountIds)
    {
      ghost var c := Value();
      restLines := lines;
      if id in lines {
        externalId := lines[id];
        restLines := restLines - {id};
      }
      assert restLines == Unmatched(lines, [id]);
      discounts, restDiscounts := ConsumeDiscounts(discounts, discountIds);
      assert DiscountIds(discounts) == DiscountIds(c.discounts);
      detailed, restLines, restDiscounts := MergeDetailed(detailed, restLines, restDiscounts);
      SameDetailedLists(detailed, c.detailed);
      UnmatchedTwice(lines, [c.id], DetailedIds(c.detailed));
      UnmatchedTwice(discountIds, DiscountIds(c.discounts), DetailedDiscountIds(c.detailed));
      if NoRepeats(LineIdsOf(c)) && NoRepeats(DiscountIdsOf(c)) { DetailedAfter(c, lines, discountIds); }
    }
  }

  // ------------------------------------------------------ the whole invoice

  /** The app's result; its maps are shared with the merge. */
  class UpsertResult {
    var invoiceNumber: string
    var externalId: string
    var lineIds: Ids
    var discountIds: Ids

    constructor (invoiceNumber: string, externalId: string, lineIds: Ids, discountIds: Ids)
      ensures this.invoiceNumber == invoiceNumber && this.externalId == externalId
      ensures this.lineIds == lineIds && this.discountIds == discountIds
    {
      this.invoiceNumber, this.externalId, this.lineIds, this.discountIds := invoiceNumber, externalId, lineIds, discountIds;
    }
  }

  class Invoice {
    var number: string
    var externalId: string
    var expanded: bool
    var lines: seq<Line>

    constructor (lines: seq<Line>)
      ensures expanded && this.lines == lines
    {
      number, externalId, expanded, this.lines := "", "", true, lines;
    }

    /** MergeIntoInvoice. */
    method MergeIntoInvoice(r: UpsertResult) returns (ok: bool)
      modifies this`number, this`externalId, r`lineIds, r`discountIds, lines
      ensures number == (if r.invoiceNumber != "" then r.invoiceNumber else old(number))
      ensures externalId == (if r.externalId != "" then r.externalId else old(externalId))
      ensures ok <==> expanded && r.lineIds == map[] && r.discountIds == map[]
      ensures !expanded ==> r.lineIds == old(r.lineIds) && r.discountIds == old(r.discountIds) && Values(lines) == old(Values(lines))
      ensures expanded ==> Merged(old(Values(lines)), Values(lines), old(r.lineIds), old(r.discountIds), r.lineIds, r.discountIds)
    {
      if r.invoiceNumber != "" { number := r.invoiceNumber; }
      if r.externalId != "" { externalId := r.externalId; }
      if !expanded { return false; }
      MergeLines(lines, r);
      ok := r.lineIds == map[] && r.discountIds == map[];
    }
  }

  lemma PlaceNextLine(cs: seq<Content>, k: nat, lines: Ids, discounts: Ids)
    requires k < |cs|
    ensures AllLineIds(cs[..k + 1]) == AllLineIds(cs[..k]) + LineIdsOf(cs[k])
    ensures AllDiscountIds(cs[..k + 1]) == AllDiscountIds(cs[..k]) + DiscountIdsOf(cs[k])
    ensures AllDistinct(cs) ==>
      && NoRepeats(LineIdsOf(cs[k])) && NoRepeats(DiscountIdsOf(cs[k]))
      && (forall i :: 0 <= i < |cs| && i != k ==> cs[i].id != cs[k].id)
      && Place(cs[k], Unmatched(lines, AllLineIds(cs[..k])), Unmatched(discounts, AllDiscountIds(cs[..k]))) == Place(cs[k], lines, discounts)
  {
    assert cs[..k + 1][..k] == cs[..k];
    if AllDistinct(cs) {
      NextLine(cs, k);
      PlaceAfter(cs[k], lines, discounts, AllLineIds(cs[..k]), AllDiscountIds(cs[..k]));
    }
  }

  /** The lines' values after `k` rounds. */
  predicate Progress(cs: seq<Content>, now: seq<Content>, k: nat, lines: Ids, discounts: Ids) {
    && |now| == |cs|
    && (forall i :: 0 <= i < |cs| ==> SameIds(now[i], cs[i]))
    && (AllDistinct(cs) ==> forall i :: 0 <= i < |cs| ==> now[i] == if i < k then Place(cs[i], lines, discounts) else cs[i])
  }

  /** A round changes one line, at each position that refers to it. */
  lemma ProgressStep(cs: seq<Content>, now: seq<Content>, next: seq<Content>, k: nat, lines: Ids, discounts: Ids)
    requires k < |cs| == |next| && Progress(cs, now, k, lines, discounts)
    requires forall i :: 0 <= i < |cs| && next[i] != now[i] ==> next[i] == next[k] && now[i] == now[k]
    requires SameIds(next[k], now[k])
    requires AllDistinct(cs) ==> next[k] == Place(now[k], lines, discounts)
    ensures Progress(cs, next, k + 1, lines, discounts)
  {
    if AllDistinct(cs) { NextLine(cs, k); }
  }

  /** The loop over the lines. */
  method MergeLines(lines: seq<Line>, r: UpsertResult)
    modifies r`lineIds, r`discountIds, lines
    ensures Merged(old(Values(lines)), Values(lines), old(r.lineIds), old(r.discountIds), r.lineIds, r.discountIds)
  {
    ghost var cs, lm, dm := Values(lines), r.lineIds, r.discountIds;
    for k := 0 to |lines|
      invariant r.lineIds == Unmatched(lm, AllLineIds(cs[..k]))
      invariant r.discountIds == Unmatched(dm, AllDiscountIds(cs[..k]))
      invariant Progress(cs, Values(lines), k, lm, dm)
    {
      ghost var now := Values(lines);
      PlaceNextLine(cs, k, lm, dm);
      UnmatchedTwice(lm, AllLineIds(cs[..k]), LineIdsOf(cs[k]));
      UnmatchedTwice(dm, AllDiscountIds(cs[..k]), DiscountIdsOf(cs[k]));
      MergeLine(lines[k], r);
      ProgressStep(cs, now, Values(lines), k, lm, dm);
    }
    assert cs[..|lines|] == cs;
  }

  /** One round of the loop: the line is merged and the keys it has are consumed. */
  method MergeLine(line: Line, r: UpsertResult)
    modifies r`lineIds, r`discountIds, line
    ensures r.lineIds == Unmatched(old(r.lineIds), LineIdsOf(old(line.Value())))
    ensures r.discountIds == Unmatched(old(r.discountIds), DiscountIdsOf(old(line.Value())))
    ensures SameIds(line.Value(), old(line.Value()))
    ensures NoRepeats(LineIdsOf(old(line.Value()))) && NoRepeats(DiscountIdsOf(old(line.Value()))) ==>
            line.Value() == Place(old(line.Value()), old(r.lineIds), old(r.discountIds))
  {
    r.lineIds, r.discountIds := line.Merge(r.lineIds, r.discountIds);
  }

  predicate SameIds(a: Content, b: Content) { a.id == b.id && LineIdsOf(a) == LineIdsOf(b) && DiscountIdsOf(a) == DiscountIdsOf(b) }

  /** What a merge leaves: the maps hold exactly the keys that no line or discount of the
      invoice has, and, when no id repeats, everything a map names has its external id and
      nothing else has changed. */
  predicate Merged(cs: seq<Content>, out: seq<Content>, lines: Ids, discounts: Ids, restLines: Ids, restDiscounts: Ids) {
    && restLines == Unmatched(lines, AllLineIds(cs))
    && restDiscounts == Unmatched(discounts, AllDiscountIds(cs))
    && (AllDistinct(cs) ==> out == PlaceAll(cs, lines, discounts))
  }

  lemma {:induction false} LinesSplit(cs: seq<Content>, k: nat, pre: seq<Content>, post: seq<Content>)
    requires k <= |cs| && pre == cs[..k] && post == cs[k..]
    ensures AllLineIds(cs) == AllLineIds(pre) + AllLineIds(post)
    ensures AllDiscountIds(cs) == AllDiscountIds(pre) + AllDiscountIds(post)
  {
    if k == |cs| {
      assert pre == cs;
    } else {
      var n := |cs| - 1;
      var mid, last := post[..n - k], cs[n];
      assert cs[..n][..k] == pre && cs[..n][k..] == mid && post[|post| - 1] == last;
      LinesSplit(cs[..n], k, pre, mid);
      Associative(AllLineIds(pre), AllLineIds(mid), LineIdsOf(last));
      Associative(AllDiscountIds(pre), AllDiscountIds(mid), DiscountIdsOf(last));
    }
  }

  lemma {:induction false} LineIdsIn(cs: seq<Content>, i: nat)
    requires i < |cs|
    ensures forall x :: x in LineIdsOf(cs[i]) ==> x in AllLineIds(cs)
    ensures forall x :: x in DiscountIdsOf(cs[i]) ==> x in AllDiscountIds(cs)
    ensures AllDistinct(cs) ==> NoRepeats(LineIdsOf(cs[i])) && NoRepeats(DiscountIdsOf(cs[i]))
  {
    var n := |cs| - 1;
    if AllDistinct(cs) {
      NoRepeatsParts(AllLineIds(cs[..n]), LineIdsOf(cs[n]));
      NoRepeatsParts(AllDiscountIds(cs[..n]), DiscountIdsOf(cs[n]));
    }
    if i < n { LineIdsIn(cs[..n], i); }
  }

  /** The ids of the next line did not occur before, if none repeats. */
  lemma NextLine(cs: seq<Content>, k: nat)
    requires k < |cs| && AllDistinct(cs)
    ensures forall x :: x in LineIdsOf(cs[k]) ==> x !in AllLineIds(cs[..k])
    ensures forall x :: x in DiscountIdsOf(cs[k]) ==> x !in AllDiscountIds(cs[..k])
    ensures NoRepeats(LineIdsOf(cs[k])) && NoRepeats(DiscountIdsOf(cs[k]))
    ensures forall i :: 0 <= i < |cs| && i != k ==> cs[i].id != cs[k].id
  {
    LineIdsIn(cs, k);
    NextLineIsNew(cs, k);
    forall i | 0 <= i < |cs| && i != k ensures cs[i].id != cs[k].id {
      var lo, hi := if i < k then i else k, if i < k then k else i;
      NextLineIsNew(cs, hi);
      LineIdsIn(cs[..hi], lo);
      assert LineIdsOf(cs[..hi][lo])[0] == cs[lo].id && LineIdsOf(cs[hi])[0] == cs[hi].id;
      assert cs[lo].id in AllLineIds(cs[..hi]);
    }
  }

  lemma NextLineIsNew(cs: seq<Content>, k: nat)
    requires k < |cs| && AllDistinct(cs)
    ensures forall x :: x in LineIdsOf(cs[k]) ==> x !in AllLineIds(cs[..k])
    ensures forall x :: x in DiscountIdsOf(cs[k]) ==> x !in AllDiscountIds(cs[..k])
  {
    LinesSplit(cs, k, cs[..k], cs[k..]);
    NoRepeatsParts(AllLineIds(cs[..k]), AllLineIds(cs[k..]));
    NoRepeatsParts(AllDiscountIds(cs[..k]), AllDiscountIds(cs[k..]));
    LineIdsIn(cs[k..], 0);
  }

  // ------------------------------------------------------------ consequences

  /** A second merge of the same result changes no line and no map. */
  lemma SecondMergeChangesNothing(cs: seq<Content>, out: seq<Content>, lines: Ids, discounts: Ids, restLines: Ids, restDiscounts: Ids)
    requires AllDistinct(cs) && Merged(cs, out, lines, discounts, restLines, restDiscounts)
    ensures Merged(out, out, restLines, restDiscounts, restLines, restDiscounts)
  {
    PlacedIds(cs, lines, discounts);
    forall i | 0 <= i < |cs| ensures Place(out[i], restLines, restDiscounts) == out[i] {
      LineIdsIn(cs, i);
      NothingToPlace(out[i], restLines, restDiscounts);
    }
    assert PlaceAll(out, restLines, restDiscounts) == out;
  }

  lemma {:induction false} PlacedDetailedIds(ds: seq<DetailedLine>, lines: Ids, discounts: Ids)
    ensures var p := PlaceDetailed(ds, lines, discounts); DetailedIds(p) == DetailedIds(ds) && DetailedDiscountIds(p) == DetailedDiscountIds(ds)
  {
    var p := PlaceDetailed(ds, lines, discounts);
    if ds != [] {
      var n := |ds| - 1;
      PlacedDetailedIds(ds[..n], lines, discounts);
      assert p[..n] == PlaceDetailed(ds[..n], lines, discounts);
      assert DiscountIds(p[n].discounts) == DiscountIds(ds[n].discounts);
    }
  }

  lemma {:induction false} PlacedIds(cs: seq<Content>, lines: Ids, discounts: Ids)
    ensures var out := PlaceAll(cs, lines, discounts);
      && AllLineIds(out) == AllLineIds(cs) && AllDiscountIds(out) == AllDiscountIds(cs)
      && forall i :: 0 <= i < |cs| ==> SameIds(out[i], cs[i])
  {
    var out := PlaceAll(cs, lines, discounts);
    forall i | 0 <= i < |cs| ensures SameIds(out[i], cs[i]) {
      PlacedDetailedIds(cs[i].detailed, lines, discounts);
      assert DiscountIds(out[i].discounts) == DiscountIds(cs[i].discounts);
    }
    if cs != [] {
      var n := |cs| - 1;
      PlacedIds(cs[..n], lines, discounts);
      assert out[..n] == PlaceAll(cs[..n], lines, discounts);
    }
  }

  lemma NothingToPlace(c: Content, lines: Ids, discounts: Ids)
    requires forall x :: x in LineIdsOf(c) ==> x !in lines
    requires forall x :: x in DiscountIdsOf(c) ==> x !in discounts
    ensures Place(c, lines, discounts) == c
  {
    assert LineIdsOf(c)[0] == c.id;
    assert forall x :: x in DiscountIds(c.discounts) ==> x in DiscountIdsOf(c);
    NoDiscountToPlace(c.discounts, discounts);
    forall i | 0 <= i < |c.detailed| ensures PlaceDetailed(c.detailed, lines, discounts)[i] == c.detailed[i] {
      DetailedIdsIn(c.detailed, i);
      NoDiscountToPlace(c.detailed[i].discounts, discounts);
    }
  }

  lemma NoDiscountToPlace(ds: seq<Discount>, m: Ids)
    requires forall x :: x in DiscountIds(ds) ==> x !in m
    ensures PlaceDiscounts(ds, m) == ds
  {
    forall i | 0 <= i < |ds| ensures PlaceDiscounts(ds, m)[i] == ds[i] { assert DiscountIds(ds)[i] in DiscountIds(ds); }
  }

  function Values(lines: seq<Line>): seq<Content>
    reads lines
  {
    seq(|lines|, i requires 0 <= i < |lines| reads lines => lines[i].Value())
  }

  predicate AllDistinct(cs: seq<Content>) {
    NoRepeats(AllLineIds(cs)) && NoRepeats(AllDiscountIds(cs))
  }

  function PlaceAll(cs: seq<Content>, lines: Ids, discounts: Ids): seq<Content> {
    seq(|cs|, i requires 0 <= i < |cs| => Place(cs[i], lines, discounts))
  }
}
