/** The cache of usage-period boundaries behind the engine's usage queries
    (openmeter/credit/helper.go, openmeter/credit/balance/usage.go). */
module PeriodCache {
  import opened Grants
  import opened UsagePeriods

  datatype Period = Period(from: Time, until: Time)

  predicate ContainsInclusive(p: Period, t: Time) { p.from <= t <= p.until }

  /** Consecutive times delimit the periods. */
  function PeriodsOf(bounds: seq<Time>): (ps: seq<Period>)
    ensures |ps| == if |bounds| < 2 then 0 else |bounds| - 1
  {
    if |bounds| < 2 then []
    else seq(|bounds| - 1, i requires 0 <= i < |bounds| - 1 => Period(bounds[i], bounds[i + 1]))
  }

  /** Non-empty periods, each starting where the one before ends. */
  predicate Contiguous(ps: seq<Period>) {
    && (forall i :: 0 <= i < |ps| ==> ps[i].from < ps[i].until)
    && (forall i :: 0 < i < |ps| ==> ps[i].from == ps[i - 1].until)
  }

  predicate IsBoundary(ps: seq<Period>, t: Time) {
    exists i :: 0 <= i < |ps| && (ps[i].from == t || ps[i].until == t)
  }

  method InsertTime(ts: seq<Time>, t: Time) returns (r: seq<Time>)
    requires Increasing(ts)
    ensures Increasing(r) && forall x :: x in r <==> x in ts || x == t
  {
    var k := 0;
    while k < |ts| && ts[k] < t
      invariant 0 <= k <= |ts| && forall i :: 0 <= i < k ==> ts[i] < t
    {
      k := k + 1;
    }
    if k < |ts| && ts[k] == t { return ts; }
    r := ts[..k] + [t] + ts[k..];
    assert ts == ts[..k] + ts[k..];
  }

  /** SortedPeriodsFromDedupedTimes. */
  method SortedPeriodsFromDedupedTimes(times: seq<Time>) returns (ps: seq<Period>)
    ensures Contiguous(ps)
    ensures ps != [] <==> exists i, j :: 0 <= i < j < |times| && times[i] != times[j]
    ensures ps != [] ==> forall t :: t in times <==> IsBoundary(ps, t)
  {
    var sorted: seq<Time> := [];
    for k := 0 to |times|
      invariant Increasing(sorted) && forall x :: x in sorted <==> x in times[..k]
    {
      assert times[..k + 1] == times[..k] + [times[k]];
      sorted := InsertTime(sorted, times[k]);
    }
    assert times[..|times|] == times;
    ps := PeriodsOf(sorted);
    TwoTimes(sorted, times);
    if ps != [] { BoundariesAreTimes(sorted); }
  }

  lemma TwoTimes(sorted: seq<Time>, times: seq<Time>)
    requires Increasing(sorted) && forall x :: x in sorted <==> x in times
    ensures |sorted| >= 2 <==> exists i, j :: 0 <= i < j < |times| && times[i] != times[j]
  {
    if |sorted| >= 2 {
      assert sorted[0] in times && sorted[1] in times;
      var i :| 0 <= i < |times| && times[i] == sorted[0];
      var j :| 0 <= j < |times| && times[j] == sorted[1];
      if i < j { assert times[i] != times[j]; } else { assert times[j] != times[i]; }
    }
    if i, j :| 0 <= i < j < |times| && times[i] != times[j] {
      assert times[i] in sorted && times[j] in sorted;
    }
  }

  lemma BoundariesAreTimes(bounds: seq<Time>)
    requires |bounds| >= 2
    ensures forall t :: t in bounds <==> IsBoundary(PeriodsOf(bounds), t)
  {
    var ps := PeriodsOf(bounds);
    forall t | t in bounds ensures IsBoundary(ps, t) {
      var i :| 0 <= i < |bounds| && bounds[i] == t;
      if i < |ps| { assert ps[i].from == t; } else { assert ps[i - 1].until == t; }
    }
  }

  /** The cache the engine is built with: never empty. */
  method BuildCache(firstStart: Time, resets: seq<Time>, until: Time) returns (ps: seq<Period>)
    ensures ps != [] && (Contiguous(ps) || ps == [Period(firstStart, firstStart)])
    ensures forall t :: IsBoundary(ps, t) <==> t == firstStart || t in resets || t == until
  {
    var times := [firstStart] + resets + [until];
    ps := SortedPeriodsFromDedupedTimes(times);
    if ps == [] {
      ps := [Period(firstStart, until)];
      assert times[0] == firstStart && times[|times| - 1] == until;
      assert forall i :: 0 <= i < |resets| ==> resets[i] == times[i + 1] && times[0] == times[i + 1];
      assert ps[0] == Period(firstStart, until);
    }
  }

  predicate Served(ps: seq<Period>, at: Time) { ps != [] && ps[0].from <= at <= ps[|ps| - 1].until }

  /** The latest boundary strictly before `at`, or the first boundary if `at` is that. */
  ghost predicate StartFor(ps: seq<Period>, at: Time, start: Time) {
    && IsBoundary(ps, start) && (start < at || (start == at && forall t :: IsBoundary(ps, t) ==> at <= t))
    && forall t :: IsBoundary(ps, t) && t < at ==> t <= start
  }

  lemma {:induction false} PeriodsAscend(ps: seq<Period>, i: nat, j: nat)
    requires Contiguous(ps) && i < j < |ps|
    ensures ps[i].until <= ps[j].from
    decreases j
  {
    if i + 1 < j { PeriodsAscend(ps, i, j - 1); }
  }

  /** The lookup: the first period that contains `at`, ends included. */
  method PeriodStartFor(ps: seq<Period>, at: Time) returns (r: Option<Time>)
    requires ps != [] && (Contiguous(ps) || (|ps| == 1 && ps[0].from == ps[0].until))
    ensures r.Some? <==> Served(ps, at)
    ensures r.Some? ==> StartFor(ps, at, r.value)
  {
    for k := 0 to |ps|
      invariant forall i :: 0 <= i < k ==> !ContainsInclusive(ps[i], at)
      invariant k > 0 && ps[0].from <= at ==> ps[k - 1].until < at
    {
      if ContainsInclusive(ps[k], at) {
        FirstMatch(ps, k, at);
        return Some(ps[k].from);
      }
    }
    return None;
  }

  lemma FirstMatch(ps: seq<Period>, k: nat, at: Time)
    requires k < |ps| && (Contiguous(ps) || (|ps| == 1 && ps[0].from == ps[0].until))
    requires ContainsInclusive(ps[k], at) && (k > 0 && ps[0].from <= at ==> ps[k - 1].until < at)
    ensures StartFor(ps, at, ps[k].from) && Served(ps, at)
  {
    forall j | 0 <= j < |ps| ensures ps[0].from <= ps[j].from && ps[j].until <= ps[|ps| - 1].until {
      if j > 0 { PeriodsAscend(ps, 0, j); }
      if j < |ps| - 1 { PeriodsAscend(ps, j, |ps| - 1); }
    }
    forall t | IsBoundary(ps, t) && t < at ensures t <= ps[k].from {
      var j :| 0 <= j < |ps| && (ps[j].from == t || ps[j].until == t);
      if j > k { PeriodsAscend(ps, k, j); } else if j < k { PeriodsAscend(ps, j, k); }
    }
    if k == 0 { assert forall t :: IsBoundary(ps, t) ==> ps[0].from <= t; }
  }

  // -------------------------------------------------------- within the bounds

  /** The boundaries of the cache for a run from `from` to `until`: the start of measurement, which
      the owner puts before every reset timeline, the start of the usage period at `from`, the
      resets in between, and the end. */
  predicate CacheBoundary(recs: seq<UsageRec>, from: Time, until: Time, t: Time)
    requires recs != []
  {
    t == recs[0].start || t == PeriodStart(recs, from) || t in ResetsBetween(recs, from, until) || t == until
  }

  ghost predicate CacheFor(recs: seq<UsageRec>, from: Time, until: Time, ps: seq<Period>)
    requires recs != []
  {
    && ps != [] && (Contiguous(ps) || (|ps| == 1 && ps[0].from == ps[0].until))
    && forall t :: IsBoundary(ps, t) <==> CacheBoundary(recs, from, until, t)
  }

  lemma PeriodStartAtReset(recs: seq<UsageRec>, t: Time)
    requires recs != [] && IsReset(recs, t)
    ensures PeriodStart(recs, t) == t
  {
  }

  /** buildEngineForOwner: the cache for one engine. */
  method CacheForOwner(recs: seq<UsageRec>, from: Time, until: Time) returns (ps: seq<Period>)
    requires recs != []
    ensures CacheFor(recs, from, until, ps)
  {
    if IsReset(recs, from) { PeriodStartAtReset(recs, from); }
    ps := BuildCache(PeriodStart(recs, from), ResetTimeline(recs, from, until), until);
  }

  lemma FirstIsLeast(ps: seq<Period>)
    requires ps != [] && (Contiguous(ps) || (|ps| == 1 && ps[0].from == ps[0].until))
    ensures IsBoundary(ps, ps[0].from) && IsBoundary(ps, ps[|ps| - 1].until)
    ensures forall t :: IsBoundary(ps, t) ==> ps[0].from <= t <= ps[|ps| - 1].until
  {
    forall t | IsBoundary(ps, t) ensures ps[0].from <= t <= ps[|ps| - 1].until {
      var j :| 0 <= j < |ps| && (ps[j].from == t || ps[j].until == t);
      if j > 0 { PeriodsAscend(ps, 0, j); }
      if j < |ps| - 1 { PeriodsAscend(ps, j, |ps| - 1); }
    }
  }

  /** No lookup inside the query bounds fails, exactly when measurement had started by then
      (or the query is for a single moment). */
  lemma LookupsSucceedIff(recs: seq<UsageRec>, from: Time, until: Time, ps: seq<Period>)
    requires recs != [] && from <= until && CacheFor(recs, from, until, ps)
    ensures (forall at :: from <= at <= until ==> Served(ps, at)) <==>
            (recs[0].start <= from || from == until)
  {
    FirstIsLeast(ps);
    ResetsBetweenMeaning(recs, from, until);
    assert CacheBoundary(recs, from, until, until) && CacheBoundary(recs, from, until, PeriodStart(recs, from));
    if recs[0].start <= from { PeriodStartIsLatestReset(recs, from); }
    if from < until && from < recs[0].start {
      assert PeriodStart(recs, from) == recs[0].start;
      assert CacheBoundary(recs, from, until, ps[0].from);
      assert !Served(ps, from);
    }
  }

  // ------------------------------------------------------------ unique counts

  /** The subjects seen in each minute. */
  type Seen = Time -> set<nat>

  function SeenIn(seen: Seen, from: Time, until: Time): set<nat>
    decreases until - from
  {
    if until <= from then {} else SeenIn(seen, from, until - 1) + seen(until - 1)
  }

  lemma {:induction false} SeenSplits(seen: Seen, from: Time, mid: Time, until: Time)
    requires from <= mid <= until
    ensures SeenIn(seen, from, until) == SeenIn(seen, from, mid) + SeenIn(seen, mid, until)
    decreases until - mid
  {
    if mid < until { SeenSplits(seen, from, mid, until - 1); }
  }

  function UniqueIn(seen: Seen, from: Time, until: Time): int { |SeenIn(seen, from, until)| }

  /** QueryUsage for a unique count: the count since the period's start at the end of the phase
      minus the count at its beginning. */
  function UniqueUsage(seen: Seen, start: Time, from: Time, until: Time): int {
    (if start == until then 0 else UniqueIn(seen, start, until)) - (if start == from then 0 else UniqueIn(seen, start, from))
  }

  /** It counts the subjects of the phase not seen since the start used. */
  lemma UniqueUsageMeaning(seen: Seen, start: Time, from: Time, until: Time)
    requires start <= from <= until
    ensures UniqueUsage(seen, start, from, until) == |SeenIn(seen, from, until) - SeenIn(seen, start, from)|
  {
    SeenSplits(seen, start, from, until);
    var before, during := SeenIn(seen, start, from), SeenIn(seen, from, until);
    assert before + during == before + (during - before);
  }

  /** With the looked-up start, a phase counts the subjects that are new in its usage period, unless
      it starts at a reset: then it misses exactly those already seen since the start looked up. */
  lemma UniqueUsageIsPeriodUsageIff(recs: seq<UsageRec>, seen: Seen, lo: Time, hi: Time, ps: seq<Period>, from: Time, until: Time, start: Time)
    requires recs != [] && recs[0].start <= lo <= from < until <= hi
    requires CacheFor(recs, lo, hi, ps) && StartFor(ps, from, start)
    ensures UniqueUsage(seen, start, from, until) == UniqueUsage(seen, PeriodStart(recs, from), from, until) <==>
            (!(recs[0].start < from && IsReset(recs, from)) || SeenIn(seen, from, until) !! SeenIn(seen, start, from))
    ensures start == LookedUp(recs, lo, from) <= from
  {
    LookedUpStart(recs, lo, hi, ps, from, start);
    UniqueUsageMeaning(seen, start, from, until);
    PeriodStartIsLatestReset(recs, from);
    if recs[0].start < from && IsReset(recs, from) {
      UniqueUsageMeaning(seen, from, from, until);
      var a, b := SeenIn(seen, from, until), SeenIn(seen, start, from);
      if a * b == {} { assert a - b == a; } else { assert a == (a - b) + (a * b); }
    }
  }

  /** Where counting starts for a phase of a run from `lo`: at the period just before it; when the
      run itself resumes at a period's start, at the start of measurement. */
  function LookedUp(recs: seq<UsageRec>, lo: Time, from: Time): Time
    requires recs != []
  {
    if from == lo == PeriodStart(recs, lo) then recs[0].start else PeriodStart(recs, from - 1)
  }

  lemma LookedUpStart(recs: seq<UsageRec>, lo: Time, hi: Time, ps: seq<Period>, from: Time, start: Time)
    requires recs != [] && recs[0].start <= lo <= from < hi
    requires CacheFor(recs, lo, hi, ps) && StartFor(ps, from, start)
    ensures start == LookedUp(recs, lo, from) <= from
    ensures !(recs[0].start < from && IsReset(recs, from)) ==> start == PeriodStart(recs, from)
    ensures recs[0].start < from ==> start < from
  {
    ResetsBetweenMeaning(recs, lo, hi);
    PeriodStartIsLatestReset(recs, lo);
    assert CacheBoundary(recs, lo, hi, recs[0].start) && CacheBoundary(recs, lo, hi, PeriodStart(recs, lo));
    assert CacheBoundary(recs, lo, hi, start);
    if recs[0].start < from && from != PeriodStart(recs, lo) {
      var p := PeriodStart(recs, from - 1);
      PeriodStartIsLatestReset(recs, from - 1);
      PeriodStartGrows(recs, lo, from);
      if p <= lo { assert p == PeriodStart(recs, lo); } else { assert CacheBoundary(recs, lo, hi, p); }
      assert start < from && p <= start;
      assert start > lo ==> IsReset(recs, start);
    }
  }

  /** A run resumed at a reset looks up the start of measurement: subject 7, seen before the reset
      and again right after it, is not counted in the period the reset starts. */
  lemma ResumedRunMissesSubjects(m: Time, hi: Time, ps: seq<Period>, start: Time)
    requires m + 1 < hi
    requires CacheFor([UsageRec(m, Recurrence(m, 1))], m + 1, hi, ps) && StartFor(ps, m + 1, start)
    ensures PeriodStart([UsageRec(m, Recurrence(m, 1))], m + 1) == m + 1 && start == m
    ensures UniqueUsage(t => {7}, start, m + 1, m + 2) == 0 && UniqueUsage(t => {7}, m + 1, m + 1, m + 2) == 1
  {
    var recs, seen: Seen := [UsageRec(m, Recurrence(m, 1))], t => {7};
    assert IsReset(recs, m + 1);
    LookedUpStart(recs, m + 1, hi, ps, m + 1, start);
    SeenMinute(seen, m);
    SeenMinute(seen, m + 1);
    UniqueUsageMeaning(seen, m, m + 1, m + 2);
  }

  lemma SeenMinute(seen: Seen, m: Time)
    ensures SeenIn(seen, m, m + 1) == seen(m)
  {
    assert SeenIn(seen, m, m) == {};
  }

  // ---------------------------------------------------- counts and snapshots

  /** Counting from two starts agrees exactly if the subjects of the phase seen between them are seen
      again before it. */
  lemma CountsAgreeIff(seen: Seen, a: Time, b: Time, from: Time, until: Time)
    requires a <= b <= from <= until
    ensures UniqueUsage(seen, a, from, until) == UniqueUsage(seen, b, from, until) <==>
            SeenIn(seen, from, until) * SeenIn(seen, a, b) <= SeenIn(seen, b, from)
  {
    UniqueUsageMeaning(seen, a, from, until);
    UniqueUsageMeaning(seen, b, from, until);
    SeenSplits(seen, a, b, from);
    var during, early, late := SeenIn(seen, from, until), SeenIn(seen, a, b), SeenIn(seen, b, from);
    var fewer, more := during - (early + late), during - late;
    assert more == fewer + (during * early - late);
  }

  /** Where counting starts depends on where the run resumed only for a run resumed at the reset with
      which the phase starts, if that does not end the first period. */
  lemma LookedUpSameIff(recs: seq<UsageRec>, lo: Time, lo': Time, from: Time)
    requires recs != [] && recs[0].start <= lo <= lo' <= from
    ensures LookedUp(recs, lo, from) == LookedUp(recs, lo', from) <==>
            !(lo < lo' == from && IsReset(recs, from) && recs[0].start < PeriodStart(recs, from - 1))
    ensures LookedUp(recs, lo, from) != LookedUp(recs, lo', from) ==> LookedUp(recs, lo', from) == recs[0].start
  {
    PeriodStartIsLatestReset(recs, from);
  }

  /** The presence of a snapshot changes a unique count exactly if it is at the reset with which the
      phase starts, and a subject of the phase was seen before the period that ends there, but not
      in it. */
  lemma CountDependsOnSnapshotIff(recs: seq<UsageRec>, seen: Seen, lo: Time, lo': Time, from: Time, until: Time)
    requires recs != [] && recs[0].start <= lo <= lo' <= from < until
    ensures var a, b := LookedUp(recs, lo, from), LookedUp(recs, lo', from);
      var p := PeriodStart(recs, from - 1);
      UniqueUsage(seen, a, from, until) != UniqueUsage(seen, b, from, until) <==>
        lo < lo' == from && IsReset(recs, from) &&
        !(SeenIn(seen, from, until) * SeenIn(seen, recs[0].start, p) <= SeenIn(seen, p, from))
  {
    LookedUpSameIff(recs, lo, lo', from);
    if lo < lo' == from && IsReset(recs, from) {
      var p := PeriodStart(recs, from - 1);
      PeriodStartIsLatestReset(recs, from - 1);
      CountsAgreeIff(seen, recs[0].start, p, from, until);
    }
  }
}
