/** Amounts billed so far for a line that is billed in several invoices
    (openmeter/billing/invoicelinesplitgroup.go, openmeter/billing/stdinvoiceline.go). */
module ProgressiveBilling {
  import opened Grants

  /** Times are minutes after the zero time. */
  const ZERO_TIME: Time := 0

  /** A line of a split line group with what matters of its invoice: whether the invoice is a standard
      one, and whether the line is. */
  datatype Child = Child(
    standard: bool, standardLine: bool, from: Time, until: Time, lineDeleted: bool, invoiceDeleted: bool, deletedStatus: bool,
    amount: real, charges: real)

  /** A line of a live standard invoice that has not been deleted. */
  predicate Live(c: Child) { c.standard && !c.lineDeleted && !c.invoiceDeleted && !c.deletedStatus }

  /** The zero time is no limit at all. */
  predicate InScope(c: Child, limit: Time) { limit == ZERO_TIME || c.until <= limit }

  function Net(c: Child, includeCharges: bool): real { if includeCharges then c.amount + c.charges else c.amount }

  /** The net amount of the live children that end by the limit. */
  function NetAmount(cs: seq<Child>, limit: Time, includeCharges: bool): real {
    if cs == [] then 0.0
    else (if Live(cs[0]) && InScope(cs[0], limit) then Net(cs[0], includeCharges) else 0.0) + NetAmount(cs[1..], limit, includeCharges)
  }

  /** Every child that counts is a standard line. */
  predicate Countable(cs: seq<Child>, limit: Time) {
    forall i :: 0 <= i < |cs| && Live(cs[i]) && InScope(cs[i], limit) ==> cs[i].standardLine
  }

  /** SumNetAmount, over ForEachChild: fails exactly if a child that counts is no standard line. */
  method SumNetAmount(cs: seq<Child>, limit: Time, includeCharges: bool) returns (r: Result<real>)
    ensures r == if Countable(cs, limit) then Ok(NetAmount(cs, limit, includeCharges)) else Err
  {
    var netAmount := 0.0;
    for k := 0 to |cs|
      invariant netAmount + NetAmount(cs[k..], limit, includeCharges) == NetAmount(cs, limit, includeCharges)
      invariant forall i :: 0 <= i < k && Live(cs[i]) && InScope(cs[i], limit) ==> cs[i].standardLine
    {
      var child := cs[k];
      assert cs[k..][1..] == cs[k + 1..];
      if limit != ZERO_TIME && child.until > limit { continue; }
      if child.lineDeleted { continue; }
      if child.invoiceDeleted { continue; }
      if child.standard && child.deletedStatus { continue; }
      if !child.standard { continue; }
      if !child.standardLine { return Err; }
      netAmount := netAmount + child.amount;
      if includeCharges { netAmount := netAmount + child.charges; }
    }
    r := Ok(netAmount);
  }

  /** GetPreviouslyBilledAmount: nothing for a line outside a group, an error for one whose
      group is not loaded or has a line that cannot be counted. */
  method GetPreviouslyBilledAmount(grouped: bool, hierarchy: Option<seq<Child>>, from: Time) returns (r: Result<real>)
    ensures r ==
      if !grouped then Ok(0.0)
      else if hierarchy.None? || !Countable(hierarchy.value, from) then Err
      else Ok(NetAmount(hierarchy.value, from, false))
  {
    if !grouped { return Ok(0.0); }
    if hierarchy.None? { return Err; }
    r := SumNetAmount(hierarchy.value, from, false);
  }

  /** What a single child contributes: nothing if it or its invoice was deleted, if the invoice is a
      gathering one, or if it ends after the limit; otherwise its amount and, if asked for, charges. */
  lemma ChildCounts(c: Child, limit: Time, includeCharges: bool)
    ensures c.lineDeleted || c.invoiceDeleted || c.deletedStatus || !c.standard ==> NetAmount([c], limit, includeCharges) == 0.0
    ensures limit != 0 && c.until > limit ==> NetAmount([c], limit, includeCharges) == 0.0
    ensures !c.lineDeleted && !c.invoiceDeleted && !c.deletedStatus && c.standard && (limit == 0 || c.until <= limit) ==>
      NetAmount([c], limit, includeCharges) == c.amount + if includeCharges then c.charges else 0.0
  {
    assert NetAmount([c][1..], limit, includeCharges) == 0.0;
  }

  function LiveOnes(cs: seq<Child>): seq<Child> {
    if cs == [] then [] else (if Live(cs[0]) then [cs[0]] else []) + LiveOnes(cs[1..])
  }

  /** Gathering lines and deleted lines contribute nothing. */
  lemma {:induction false} OnlyLiveCount(cs: seq<Child>, limit: Time, includeCharges: bool)
    ensures NetAmount(LiveOnes(cs), limit, includeCharges) == NetAmount(cs, limit, includeCharges)
    ensures forall i :: 0 <= i < |LiveOnes(cs)| ==> Live(LiveOnes(cs)[i])
  {
    if cs != [] {
      OnlyLiveCount(cs[1..], limit, includeCharges);
      var r := LiveOnes(cs[1..]);
      assert ([cs[0]] + r)[1..] == r && [] + r == r;
    }
  }

  lemma {:induction false} NetAmountAppend(a: seq<Child>, b: seq<Child>, limit: Time, includeCharges: bool)
    ensures NetAmount(a + b, limit, includeCharges) == NetAmount(a, limit, includeCharges) + NetAmount(b, limit, includeCharges)
  {
    if a == [] {
      assert a + b == b;
    } else {
      assert (a + b)[1..] == a[1..] + b;
      NetAmountAppend(a[1..], b, limit, includeCharges);
    }
  }

  lemma TakenOut(b: seq<Child>, k: nat, limit: Time, includeCharges: bool)
    requires k < |b|
    ensures var rest := b[..k] + b[k + 1..];
      NetAmount(b, limit, includeCharges) == NetAmount([b[k]], limit, includeCharges) + NetAmount(rest, limit, includeCharges)
  {
    var tail := [b[k]] + b[k + 1..];
    assert b == b[..k] + tail;
    NetAmountAppend(b[..k], tail, limit, includeCharges);
    NetAmountAppend([b[k]], b[k + 1..], limit, includeCharges);
    NetAmountAppend(b[..k], b[k + 1..], limit, includeCharges);
  }

  lemma MultisetTakenOut(b: seq<Child>, k: nat)
    requires k < |b|
    ensures multiset(b[..k] + b[k + 1..]) == multiset(b) - multiset{b[k]}
  {
    assert b == b[..k] + ([b[k]] + b[k + 1..]);
  }

  /** The order of the children does not matter. */
  lemma {:induction false} OrderDoesNotMatter(a: seq<Child>, b: seq<Child>, limit: Time, includeCharges: bool)
    requires multiset(a) == multiset(b)
    ensures NetAmount(a, limit, includeCharges) == NetAmount(b, limit, includeCharges)
    decreases |a|
  {
    if a == [] {
      assert |multiset(b)| == 0;
    } else {
      assert a[0] in multiset(b);
      var k :| 0 <= k < |b| && b[k] == a[0];
      var p, q := a[..0] + a[1..], b[..k] + b[k + 1..];
      TakenOut(a, 0, limit, includeCharges);
      TakenOut(b, k, limit, includeCharges);
      MultisetTakenOut(a, 0);
      MultisetTakenOut(b, k);
      OrderDoesNotMatter(p, q, limit, includeCharges);
    }
  }

  /** Non-empty periods, each starting where the one before ends. */
  predicate Contiguous(lines: seq<Child>) {
    && (forall i :: 0 <= i < |lines| ==> Live(lines[i]) && ZERO_TIME < lines[i].from < lines[i].until)
    && (forall i :: 0 < i < |lines| ==> lines[i].from == lines[i - 1].until)
  }

  function SumAmounts(lines: seq<Child>): real {
    if lines == [] then 0.0 else SumAmounts(lines[..|lines| - 1]) + lines[|lines| - 1].amount
  }

  lemma {:induction false} EndsAscend(lines: seq<Child>, i: nat, j: nat)
    requires Contiguous(lines) && i < j < |lines|
    ensures lines[i].until <= lines[j].from < lines[j].until
    decreases j
  {
    if i + 1 < j { EndsAscend(lines, i, j - 1); }
  }

  lemma {:induction false} AllInScope(lines: seq<Child>, limit: Time)
    requires forall i :: 0 <= i < |lines| ==> Live(lines[i]) && InScope(lines[i], limit)
    ensures NetAmount(lines, limit, false) == SumAmounts(lines)
    decreases |lines|
  {
    if lines != [] {
      var n := |lines| - 1;
      assert lines == lines[..n] + [lines[n]];
      AllInScope(lines[..n], limit);
      NetAmountAppend(lines[..n], [lines[n]], limit, false);
    }
  }

  lemma {:induction false} NoneInScope(lines: seq<Child>, limit: Time)
    requires forall i :: 0 <= i < |lines| ==> !InScope(lines[i], limit)
    ensures NetAmount(lines, limit, false) == 0.0
  {
    if lines != [] { NoneInScope(lines[1..], limit); }
  }

  /** What was billed before the k-th line of a group, whose live lines are loaded in any order
      among gathering and deleted ones, is the sum of the lines before it; so each line adds its
      amount to what counts as billed before the next one. */
  lemma PreviousIsPrefixSum(children: seq<Child>, lines: seq<Child>, k: nat)
    requires k < |lines| && Contiguous(lines) && multiset(LiveOnes(children)) == multiset(lines)
    ensures NetAmount(children, lines[k].from, false) == SumAmounts(lines[..k])
    ensures k + 1 < |lines| ==>
      NetAmount(children, lines[k + 1].from, false) == NetAmount(children, lines[k].from, false) + lines[k].amount
    ensures NetAmount(children, ZERO_TIME, false) == SumAmounts(lines)
  {
    PrefixSum(children, lines, k);
    if k + 1 < |lines| {
      PrefixSum(children, lines, k + 1);
      assert lines[..k + 1][..k] == lines[..k];
    }
    OnlyLiveCount(children, ZERO_TIME, false);
    OrderDoesNotMatter(LiveOnes(children), lines, ZERO_TIME, false);
    AllInScope(lines, ZERO_TIME);
  }

  lemma PrefixSum(children: seq<Child>, lines: seq<Child>, k: nat)
    requires k < |lines| && Contiguous(lines) && multiset(LiveOnes(children)) == multiset(lines)
    ensures NetAmount(children, lines[k].from, false) == SumAmounts(lines[..k])
  {
    var limit := lines[k].from;
    OnlyLiveCount(children, limit, false);
    OrderDoesNotMatter(LiveOnes(children), lines, limit, false);
    LinesBefore(lines, k);
  }

  lemma LinesBefore(lines: seq<Child>, k: nat)
    requires k < |lines| && Contiguous(lines)
    ensures NetAmount(lines, lines[k].from, false) == SumAmounts(lines[..k])
  {
    var limit, before, after := lines[k].from, lines[..k], lines[k..];
    forall i | 0 <= i < |before| ensures Live(before[i]) && InScope(before[i], limit) { EndsAscend(lines, i, k); }
    forall i | 0 <= i < |after| ensures !InScope(after[i], limit) { if i > 0 { EndsAscend(lines, k, k + i); } }
    assert lines == before + after;
    NetAmountAppend(before, after, limit, false);
    AllInScope(before, limit);
    NoneInScope(after, limit);
  }
}
