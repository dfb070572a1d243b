/** Burn-down history segments and the snapshots reconstructed from them
    (openmeter/credit/engine/history.go). */
module History {
  import opened Grants
  import opened Balances
  import opened Burndown

  datatype Segment = Segment(
    from: Time, until: Time, balanceAtStart: BalanceMap, overageAtStart: real,
    totalUsage: real, overage: real, uses: seq<GrantUsage>, usageReset: bool, rollover: bool)

  datatype Counters = Counters(usage: real, burnt: real)

  /** getUsageSnapshotAtStartOfSegment: a segment that ends in a usage reset zeroes the counters. */
  function Fold(c: Counters, segs: seq<Segment>): Counters {
    if segs == [] then c
    else
      var f, s := Fold(c, segs[..|segs| - 1]), segs[|segs| - 1];
      if s.usageReset then Counters(0.0, 0.0) else Counters(f.usage + s.totalUsage, f.burnt + SumUses(s.uses))
  }

  lemma {:induction false} FoldAppend(c: Counters, a: seq<Segment>, b: seq<Segment>)
    ensures Fold(c, a + b) == Fold(Fold(c, a), b)
  {
    if b == [] {
      assert a + b == a;
    } else {
      FoldAppend(c, a, b[..|b| - 1]);
      assert (a + b)[..|a + b| - 1] == a + b[..|b| - 1];
    }
  }

  lemma FoldSnoc(c: Counters, segs: seq<Segment>, s: Segment)
    ensures Fold(c, segs + [s]) ==
      if s.usageReset then Counters(0.0, 0.0)
      else Counters(Fold(c, segs).usage + s.totalUsage, Fold(c, segs).burnt + SumUses(s.uses))
  {
    assert (segs + [s])[..|segs|] == segs;
  }

  function TotalUsage(segs: seq<Segment>): real {
    if segs == [] then 0.0 else TotalUsage(segs[..|segs| - 1]) + segs[|segs| - 1].totalUsage
  }

  function TotalGrantUsage(segs: seq<Segment>): real {
    if segs == [] then 0.0 else TotalGrantUsage(segs[..|segs| - 1]) + SumUses(segs[|segs| - 1].uses)
  }

  /** Without resets the counters are plain totals. */
  lemma {:induction false} FoldTotals(c: Counters, segs: seq<Segment>)
    requires forall i :: 0 <= i < |segs| ==> !segs[i].usageReset
    ensures Fold(c, segs) == Counters(c.usage + TotalUsage(segs), c.burnt + TotalGrantUsage(segs))
  {
    if segs != [] { FoldTotals(c, segs[..|segs| - 1]); }
  }

  /** GetSnapshotAtStartOfSegment. */
  function SnapshotAtStart(start: Snapshot, segs: seq<Segment>, i: nat): Snapshot
    requires i < |segs|
  {
    var c := Fold(Counters(start.usage, start.grantUsage), segs[..i]);
    Snapshot(segs[i].from, segs[i].balanceAtStart, segs[i].overageAtStart, c.usage, c.burnt, start.unitConfig)
  }

  /** What NewGrantBurnDownHistory checks. */
  predicate ValidHistory(segs: seq<Segment>, start: Snapshot) {
    && (forall i :: 0 <= i < |segs| ==> segs[i].from <= segs[i].until)
    && (|segs| > 0 ==> segs[0].from == start.at && segs[0].overageAtStart == start.overage)
    && (forall i :: 1 <= i < |segs| ==> segs[i].from == segs[i - 1].until)
  }

  /** Sorting the segments by start, rollovers first, leaves them as they are; a rollover is
      instantaneous. */
  predicate InOrder(segs: seq<Segment>) {
    && (forall i, j :: 0 <= i < j < |segs| ==>
         segs[i].from < segs[j].from || (segs[i].from == segs[j].from && (segs[j].rollover ==> segs[i].rollover)))
    && (forall i :: 0 <= i < |segs| && segs[i].rollover ==> segs[i].until == segs[i].from)
  }

  /** A segment conserves usage and its recorded uses lead to the balances at its end. */
  ghost predicate Conserves(s: Segment, balanceAtEnd: BalanceMap) {
    && s.totalUsage + s.overageAtStart == SumUses(s.uses) + s.overage
    && ApplyUses(s.balanceAtStart, s.uses) == balanceAtEnd
  }
}
