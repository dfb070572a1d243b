/** Usage periods: manual resets and the recurrences between them
    (openmeter/entitlement/usageperiod.go). */
module UsagePeriods {
  import opened Grants

  datatype UsageRec = UsageRec(start: Time, recurrence: Recurrence)

  predicate ValidRecs(recs: seq<UsageRec>) {
    recs != [] && forall i, j :: 0 <= i < j < |recs| ==> recs[i].start <= recs[j].start
  }

  /** The last recurrence starting at or before `t`, or the first one. */
  function RecAt(recs: seq<UsageRec>, t: Time): UsageRec
    requires recs != []
  {
    var last := recs[|recs| - 1];
    if |recs| == 1 || last.start <= t then last else RecAt(recs[..|recs| - 1], t)
  }

  predicate IsReset(recs: seq<UsageRec>, t: Time)
    requires recs != []
  {
    && recs[0].start <= t
    && var r := RecAt(recs, t); (t == r.start || OnGrid(r.recurrence, t))
  }

  /** GetUsagePeriodStartAt: the latest reset at or before `t`, or the start of measurement. */
  function PeriodStart(recs: seq<UsageRec>, t: Time): (start: Time)
    requires recs != []
    ensures recs[0].start <= start
    decreases t - recs[0].start
  {
    if t <= recs[0].start then recs[0].start
    else if IsReset(recs, t) then t
    else PeriodStart(recs, t - 1)
  }

  lemma {:induction false} PeriodStartIsLatestReset(recs: seq<UsageRec>, t: Time)
    requires recs != [] && recs[0].start <= t
    ensures recs[0].start <= PeriodStart(recs, t) <= t
    ensures PeriodStart(recs, t) == recs[0].start || IsReset(recs, PeriodStart(recs, t))
    ensures forall x :: PeriodStart(recs, t) < x <= t ==> !IsReset(recs, x)
    decreases t - recs[0].start
  {
    if recs[0].start < t && !IsReset(recs, t) {
      PeriodStartIsLatestReset(recs, t - 1);
    }
  }

  lemma {:induction false} PeriodStartGrows(recs: seq<UsageRec>, s: Time, t: Time)
    requires recs != [] && s <= t
    ensures PeriodStart(recs, s) <= PeriodStart(recs, t)
    decreases t - s
  {
    if s < t && recs[0].start < t {
      if IsReset(recs, t) {
        if recs[0].start <= s { PeriodStartIsLatestReset(recs, s); }
      } else {
        PeriodStartGrows(recs, s, t - 1);
      }
    }
  }

  /** Ending the usage period at `at` opens a new one that starts there. */
  function EndPeriod(recs: seq<UsageRec>, at: Time, retainAnchor: bool): seq<UsageRec>
    requires recs != []
  {
    var current := RecAt(recs, at);
    recs + [UsageRec(at, Recurrence(if retainAnchor then current.recurrence.anchor else at, current.recurrence.interval))]
  }

  /** The resets after the usage period was ended at `at`: on the grid of the period ended, if its
      anchor is retained, or else on the grid anchored at `at`. */
  lemma ResetsAfterEnd(recs: seq<UsageRec>, at: Time, retainAnchor: bool, i: nat, t: Time)
    requires ValidRecs(recs) && i < |recs| && recs[i].start <= at && at < t
    requires forall j :: i < j < |recs| ==> at < recs[j].start
    ensures IsReset(EndPeriod(recs, at, retainAnchor), t) <==>
      var r := recs[i].recurrence; (t - if retainAnchor then r.anchor else at) % r.interval == 0
  {
    RecAtMeaning(recs, at, i);
  }

  /** The record in force is the last one that has started. */
  lemma {:induction false} RecAtMeaning(recs: seq<UsageRec>, t: Time, i: nat)
    requires i < |recs| && recs[i].start <= t && forall j :: i < j < |recs| ==> t < recs[j].start
    ensures RecAt(recs, t) == recs[i]
  {
    var n := |recs| - 1;
    if i < n { RecAtMeaning(recs[..n], t, i); }
  }

  /** A reset is the start of the record in force or a whole number of intervals from its anchor. */
  lemma IsResetMeaning(recs: seq<UsageRec>, t: Time, i: nat)
    requires i < |recs| && recs[0].start <= t && recs[i].start <= t && forall j :: i < j < |recs| ==> t < recs[j].start
    ensures IsReset(recs, t) <==>
      var r := recs[i].recurrence; t == recs[i].start || (t - r.anchor) % r.interval == 0
  {
    RecAtMeaning(recs, t, i);
  }

  lemma EndPeriodKeepsThePast(recs: seq<UsageRec>, at: Time, retainAnchor: bool)
    requires ValidRecs(recs) && forall i :: 0 <= i < |recs| ==> recs[i].start <= at
    ensures ValidRecs(EndPeriod(recs, at, retainAnchor))
    ensures IsReset(EndPeriod(recs, at, retainAnchor), at)
    ensures forall t :: t < at ==> IsReset(EndPeriod(recs, at, retainAnchor), t) == IsReset(recs, t)
  {
    var r := EndPeriod(recs, at, retainAnchor);
    forall t | t < at ensures IsReset(r, t) == IsReset(recs, t) {
      assert r[..|r| - 1] == recs;
    }
  }

  lemma EndPeriodAdvances(recs: seq<UsageRec>, at: Time, retainAnchor: bool, now: Time)
    requires ValidRecs(recs) && forall i :: 0 <= i < |recs| ==> recs[i].start <= at
    requires PeriodStart(recs, now) <= at <= now
    ensures at <= PeriodStart(EndPeriod(recs, at, retainAnchor), now)
  {
    EndPeriodKeepsThePast(recs, at, retainAnchor);
    var r := EndPeriod(recs, at, retainAnchor);
    PeriodStartGrows(r, at, now);
    if at == recs[0].start { } else { assert PeriodStart(r, at) == at; }
  }

  lemma {:induction false} RecStartIsReset(recs: seq<UsageRec>, i: nat)
    requires ValidRecs(recs) && i < |recs|
    ensures IsReset(recs, recs[i].start)
  {
    var t := recs[i].start;
    RecAtStart(recs, i);
  }

  lemma {:induction false} RecAtStart(recs: seq<UsageRec>, i: nat)
    requires ValidRecs(recs) && i < |recs|
    ensures RecAt(recs, recs[i].start).start == recs[i].start
  {
    var n := |recs|;
    if n > 1 && recs[n - 1].start > recs[i].start {
      RecAtStart(recs[..n - 1], i);
    }
  }

  /** No period starts after the current one's start. */
  lemma RecStartsBounded(recs: seq<UsageRec>, now: Time, i: nat)
    requires ValidRecs(recs) && i < |recs| && recs[i].start <= now
    ensures recs[i].start <= PeriodStart(recs, now)
  {
    RecStartIsReset(recs, i);
    PeriodStartIsLatestReset(recs, now);
    PeriodStartGrows(recs, recs[i].start, now);
  }

  /** A usage period ended within the current one. */
  lemma EndCurrentPeriod(recs: seq<UsageRec>, at: Time, retain: bool, now: Time)
    requires ValidRecs(recs) && (forall i :: 0 < i < |recs| ==> recs[i].start <= now)
    requires PeriodStart(recs, now) <= at <= now
    ensures var r := EndPeriod(recs, at, retain);
      && ValidRecs(r) && IsReset(r, at) && r[0] == recs[0]
      && (forall t :: t < at ==> IsReset(r, t) == IsReset(recs, t))
      && (forall i :: 0 < i < |r| ==> r[i].start <= now)
      && at <= PeriodStart(r, now)
  {
    forall i | 0 <= i < |recs| ensures recs[i].start <= at {
      if i > 0 { RecStartsBounded(recs, now, i); }
    }
    EndPeriodKeepsThePast(recs, at, retain);
    EndPeriodAdvances(recs, at, retain, now);
  }

  /** The resets after `from` and not after `until`, in order. */
  function ResetsBetween(recs: seq<UsageRec>, from: Time, until: Time): seq<Time>
    requires recs != []
    decreases until - from
  {
    if until <= from then []
    else ResetsBetween(recs, from, until - 1) + if IsReset(recs, until) then [until] else []
  }

  lemma {:induction false} ResetsBetweenMeaning(recs: seq<UsageRec>, from: Time, until: Time)
    requires recs != []
    ensures var r := ResetsBetween(recs, from, until);
      && (forall i, j :: 0 <= i < j < |r| ==> r[i] < r[j])
      && (forall t :: t in r <==> from < t <= until && IsReset(recs, t))
    decreases until - from
  {
    if from < until {
      ResetsBetweenMeaning(recs, from, until - 1);
      var p, r := ResetsBetween(recs, from, until - 1), ResetsBetween(recs, from, until);
      forall i, j | 0 <= i < j < |r| ensures r[i] < r[j] {
        assert r[i] == p[i] && p[i] in p;
      }
    }
  }

  lemma {:induction false} NoResetsBetween(recs: seq<UsageRec>, from: Time, until: Time)
    requires recs != [] && forall t :: from < t <= until ==> !IsReset(recs, t)
    ensures ResetsBetween(recs, from, until) == []
    decreases until - from
  {
    if from < until { NoResetsBetween(recs, from, until - 1); }
  }

  /** GetResetTimelineInclusive: the resets from `from` to `until`, after the start of measurement,
      which the owner always puts first. */
  function ResetTimeline(recs: seq<UsageRec>, from: Time, until: Time): seq<Time>
    requires recs != []
  {
    var resets := (if IsReset(recs, from) && from <= until then [from] else []) + ResetsBetween(recs, from, until);
    if recs[0].start in resets then resets else [recs[0].start] + resets
  }

  function After(ts: seq<Time>, t: Time): seq<Time> {
    if ts == [] then [] else (if t < ts[0] then [ts[0]] else []) + After(ts[1..], t)
  }

  lemma {:induction false} AfterAll(ts: seq<Time>, t: Time)
    requires forall x :: x in ts ==> t < x
    ensures After(ts, t) == ts
  {
    if ts != [] {
      assert ts[0] in ts && forall x :: x in ts[1..] ==> x in ts;
      AfterAll(ts[1..], t);
      assert ts == [ts[0]] + ts[1..];
    }
  }

  /** Neither shows once only the resets after `from` are asked for. */
  lemma TimelineAfter(recs: seq<UsageRec>, from: Time, until: Time)
    requires recs != [] && recs[0].start <= from
    ensures After(ResetTimeline(recs, from, until), from) == ResetsBetween(recs, from, until)
  {
    var resets, first := ResetsBetween(recs, from, until), if IsReset(recs, from) && from <= until then [from] else [];
    ResetsBetweenMeaning(recs, from, until);
    AfterAll(resets, from);
    assert (first + resets)[|first|..] == resets;
    assert first != [] ==> (first + resets)[1..] == resets;
    AfterOne(from, resets, from);
    AfterOne(recs[0].start, first + resets, from);
    if first == [] { assert first + resets == resets; } else { assert first + resets == [from] + resets; }
  }

  lemma AfterOne(x: Time, ts: seq<Time>, t: Time)
    requires x <= t
    ensures After([x] + ts, t) == After(ts, t)
  {
    assert ([x] + ts)[1..] == ts && [] + After(ts, t) == After(ts, t);
  }
}
