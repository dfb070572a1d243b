/** Cutting a period between resets into burn phases
    (openmeter/credit/engine/burnphase.go, openmeter/credit/engine/grant.go). */
module Phases {
  import opened Grants

  // ------------------------------------------------------------ recurrences

  lemma AtLeastOneMultiple(d: int, n: int)
    requires n > 0
    ensures d >= 1 ==> d * n >= n
    ensures d <= -1 ==> d * n <= -n
  {
    if d >= 1 { assert d * n - n == (d - 1) * n; }
    if d <= -1 { assert d * n + n == (d + 1) * n; }
  }

  lemma DivModUnique(x: int, n: int, q: int, r: int)
    requires n > 0 && 0 <= r < n && x == q * n + r
    ensures x % n == r
  {
    var d := q - x / n;
    assert x == (x / n) * n + x % n;
    assert d * n == x % n - r;
    AtLeastOneMultiple(d, n);
    assert d == 0;
  }

  lemma GridShift(r: Recurrence, t: Time, k: int)
    requires OnGrid(r, t) && 0 <= k < r.interval
    ensures OnGrid(r, t + k) <==> k == 0
    ensures OnGrid(r, t + r.interval) && OnGrid(r, t - r.interval)
  {
    var n: int := r.interval;
    var q := (t - r.anchor) / n;
    assert t - r.anchor == q * n;
    DivModUnique(t + k - r.anchor, n, q, k);
    assert t + n - r.anchor == (q + 1) * n && t - n - r.anchor == (q - 1) * n;
    DivModUnique(t + n - r.anchor, n, q + 1, 0);
    DivModUnique(t - n - r.anchor, n, q - 1, 0);
  }

  /** The points of the grid are one interval apart. */
  lemma GridStep(r: Recurrence, t: Time)
    requires OnGrid(r, t)
    ensures OnGrid(r, t + r.interval) && OnGrid(r, t - r.interval)
    ensures forall x :: t < x < t + r.interval ==> !OnGrid(r, x)
    ensures forall x :: t - r.interval < x < t ==> !OnGrid(r, x)
  {
    GridShift(r, t, 0);
    forall x | t < x < t + r.interval ensures !OnGrid(r, x) { GridShift(r, t, x - t); }
    forall x | t - r.interval < x < t ensures !OnGrid(r, x) { GridShift(r, t - r.interval, x - (t - r.interval)); }
  }

  /** The first recurrence not before `t`, found by stepping from the anchor. */
  method NextAfter(r: Recurrence, t: Time) returns (next: Time)
    ensures t <= next && OnGrid(r, next)
    ensures forall x :: t <= x < next ==> !OnGrid(r, x)
  {
    next := r.anchor;
    DivModUnique(0, r.interval, 0, 0);
    if r.anchor > t {
      while next - r.interval >= t
        invariant t <= next && OnGrid(r, next)
        decreases next - t
      {
        GridStep(r, next);
        next := next - r.interval;
      }
    } else {
      while next < t
        invariant OnGrid(r, next) && (next - r.interval < t)
        decreases t - next
      {
        GridStep(r, next);
        next := next + r.interval;
      }
    }
    GridStep(r, next);
  }

  datatype Tick = Tick(time: Time, ids: set<GrantId>)

  predicate Ascending(ts: seq<Tick>) { forall i, j :: 0 <= i < j < |ts| ==> ts[i].time < ts[j].time }

  /** Sorted insertion that merges ticks of the same time. */
  function AddTick(ts: seq<Tick>, t: Time, id: GrantId): seq<Tick> {
    if ts == [] || t < ts[0].time then [Tick(t, {id})] + ts
    else if t == ts[0].time then [Tick(t, ts[0].ids + {id})] + ts[1..]
    else [ts[0]] + AddTick(ts[1..], t, id)
  }

  /** The grants recurring at `t` according to the ticks. */
  function IdsAt(ts: seq<Tick>, t: Time): set<GrantId> {
    if ts == [] then {} else if ts[0].time == t then ts[0].ids else IdsAt(ts[1..], t)
  }

  lemma {:induction false} AddTickOrder(ts: seq<Tick>, t: Time, id: GrantId)
    requires Ascending(ts)
    ensures var r := AddTick(ts, t, id);
      && Ascending(r) && r != []
      && r[0].time == if ts == [] || t < ts[0].time then t else ts[0].time
  {
    var r := AddTick(ts, t, id);
    if ts == [] || t < ts[0].time {
      assert r[1..] == ts;
    } else if t == ts[0].time {
      assert r[1..] == ts[1..];
    } else {
      AddTickOrder(ts[1..], t, id);
      var tail := AddTick(ts[1..], t, id);
      assert r[1..] == tail && r[0].time < tail[0].time;
      forall i, j | 0 <= i < j < |r| ensures r[i].time < r[j].time {
        assert r[j] == tail[j - 1];
        if i > 0 { assert r[i] == tail[i - 1]; } else { assert tail[0].time <= tail[j - 1].time; }
      }
    }
  }

  lemma {:induction false} AddTickIds(ts: seq<Tick>, t: Time, id: GrantId, x: Time)
    requires Ascending(ts)
    ensures IdsAt(AddTick(ts, t, id), x) == if x == t then IdsAt(ts, x) + {id} else IdsAt(ts, x)
  {
    var r := AddTick(ts, t, id);
    if ts == [] || t < ts[0].time {
      assert r[1..] == ts;
      NotAt(ts, t);
    } else if t == ts[0].time {
      assert r[1..] == ts[1..];
    } else {
      AddTickIds(ts[1..], t, id, x);
      assert r[1..] == AddTick(ts[1..], t, id);
    }
  }

  predicate NoneEmpty(ts: seq<Tick>) { forall i :: 0 <= i < |ts| ==> ts[i].ids != {} }

  lemma NoneEmptyCons(h: Tick, ts: seq<Tick>)
    requires h.ids != {} && NoneEmpty(ts)
    ensures NoneEmpty([h] + ts)
  {
  }

  lemma {:induction false} AddTickFilled(ts: seq<Tick>, t: Time, id: GrantId)
    requires NoneEmpty(ts)
    ensures NoneEmpty(AddTick(ts, t, id))
  {
    if ts == [] || t < ts[0].time {
      assert id in {id};
      NoneEmptyCons(Tick(t, {id}), ts);
    } else if t == ts[0].time {
      assert id in ts[0].ids + {id};
      NoneEmptyCons(Tick(t, ts[0].ids + {id}), ts[1..]);
    } else {
      AddTickFilled(ts[1..], t, id);
      NoneEmptyCons(ts[0], AddTick(ts[1..], t, id));
    }
  }

  lemma AddTickMeaning(ts: seq<Tick>, t: Time, id: GrantId)
    requires Ascending(ts)
    ensures var r := AddTick(ts, t, id);
      && Ascending(r)
      && (forall x :: IdsAt(r, x) == if x == t then IdsAt(ts, x) + {id} else IdsAt(ts, x))
      && (NoneEmpty(ts) ==> NoneEmpty(r))
  {
    AddTickOrder(ts, t, id);
    forall x { AddTickIds(ts, t, id, x); }
    if NoneEmpty(ts) { AddTickFilled(ts, t, id); }
  }

  lemma {:induction false} NotAt(ts: seq<Tick>, t: Time)
    requires forall i :: 0 <= i < |ts| ==> ts[i].time != t
    ensures IdsAt(ts, t) == {}
  {
    if ts != [] { NotAt(ts[1..], t); }
  }

  lemma {:induction false} IdsAtTick(ts: seq<Tick>, i: nat)
    requires Ascending(ts) && i < |ts|
    ensures IdsAt(ts, ts[i].time) == ts[i].ids
  {
    if i > 0 { IdsAtTick(ts[1..], i - 1); }
  }

  /** The grants recurring at `t`. */
  function Recurring(gs: seq<Grant>, t: Time): set<GrantId> {
    set i | 0 <= i < |gs| && Active(gs[i], t) && Recurs(gs[i], t) :: gs[i].id
  }

  predicate InPeriod(t: Time, from: Time, until: Time, inclusive: bool) {
    from <= t && (t < until || (t == until && (inclusive || from == until)))
  }

  /** The recurrences of one grant in the period. */
  predicate RecursIn(g: Grant, t: Time, from: Time, until: Time, inclusive: bool) {
    InPeriod(t, from, until, inclusive) && Active(g, t) && Recurs(g, t)
  }

  method AddRecurrences(before: seq<Tick>, g: Grant, from: Time, until: Time, inclusive: bool) returns (ts: seq<Tick>)
    requires from <= until && Ascending(before) && NoneEmpty(before) && g.recurrence.Some?
    ensures Ascending(ts) && NoneEmpty(ts)
    ensures forall t :: IdsAt(ts, t) == if RecursIn(g, t, from, until, inclusive) then IdsAt(before, t) + {g.id} else IdsAt(before, t)
  {
    ts := before;
    var r := g.recurrence.value;
    var first := if g.effectiveAt < from then from else g.effectiveAt;
    var it := NextAfter(r, first);
    while InPeriod(it, from, until, inclusive) && Active(g, it)
      invariant first <= it && OnGrid(r, it) && Ascending(ts) && NoneEmpty(ts)
      invariant forall t :: first <= t < it && OnGrid(r, t) ==> InPeriod(t, from, until, inclusive) && Active(g, t)
      invariant forall t :: IdsAt(ts, t) == (if first <= t < it && OnGrid(r, t) then IdsAt(before, t) + {g.id} else IdsAt(before, t))
      decreases until - it
    {
      AddTickMeaning(ts, it, g.id);
      GridStep(r, it);
      ts := AddTick(ts, it, g.id);
      it := it + r.interval;
    }
    forall t ensures RecursIn(g, t, from, until, inclusive) <==> first <= t < it && OnGrid(r, t) {
      if RecursIn(g, t, from, until, inclusive) && it <= t { StillActive(g, it, t); }
    }
  }

  /** getGrantRecurrenceTimes. */
  method RecurrenceTimes(gs: seq<Grant>, from: Time, until: Time, inclusive: bool) returns (ts: seq<Tick>)
    requires from <= until
    ensures Ascending(ts) && NoneEmpty(ts)
    ensures forall t :: IdsAt(ts, t) == if InPeriod(t, from, until, inclusive) then Recurring(gs, t) else {}
  {
    ts := [];
    for k := 0 to |gs|
      invariant Ascending(ts) && NoneEmpty(ts)
      invariant forall t :: IdsAt(ts, t) == if InPeriod(t, from, until, inclusive) then Recurring(gs[..k], t) else {}
    {
      assert gs[..k + 1] == gs[..k] + [gs[k]];
      forall t ensures Recurring(gs[..k + 1], t) == Recurring(gs[..k], t) + if Active(gs[k], t) && Recurs(gs[k], t) then {gs[k].id} else {} {
        RecurringSnoc(gs[..k], gs[k], t);
      }
      if gs[k].recurrence.Some? { ts := AddRecurrences(ts, gs[k], from, until, inclusive); }
    }
    assert gs[..|gs|] == gs;
  }

  lemma RecurringSnoc(gs: seq<Grant>, g: Grant, t: Time)
    ensures Recurring(gs + [g], t) == Recurring(gs, t) + if Active(g, t) && Recurs(g, t) then {g.id} else {}
  {
    var r := gs + [g];
    forall id | id in Recurring(gs, t) ensures id in Recurring(r, t) {
      var i :| 0 <= i < |gs| && Active(gs[i], t) && Recurs(gs[i], t) && gs[i].id == id;
      assert r[i] == gs[i];
    }
    assert r[|gs|] == g;
  }

  lemma StillActive(g: Grant, s: Time, t: Time)
    requires g.effectiveAt <= s <= t && Active(g, t)
    ensures Active(g, s)
  {
  }

  // -------------------------------------------------------- activity changes

  /** Sorted insertion without duplicates. */
  function AddTime(ts: seq<Time>, t: Time): seq<Time> {
    if ts == [] || t < ts[0] then [t] + ts
    else if t == ts[0] then ts
    else [ts[0]] + AddTime(ts[1..], t)
  }

  lemma {:induction false} AddTimeMeaning(ts: seq<Time>, t: Time)
    requires Increasing(ts)
    ensures Increasing(AddTime(ts, t))
    ensures forall x :: x in AddTime(ts, t) <==> x in ts || x == t
  {
    if !(ts == [] || t < ts[0] || t == ts[0]) {
      AddTimeMeaning(ts[1..], t);
      var tail, r := AddTime(ts[1..], t), AddTime(ts, t);
      assert ts == [ts[0]] + ts[1..] && r == [ts[0]] + tail;
      assert forall x :: x in ts[1..] ==> ts[0] < x;
      forall i, j | 0 <= i < j < |r| ensures r[i] < r[j] {
        if i == 0 { assert r[j] == tail[j - 1] && tail[j - 1] in tail; }
      }
    }
  }

  function AddWithin(ts: seq<Time>, t: Option<Time>, from: Time, until: Time): seq<Time> {
    if t.Some? && from <= t.value < until then AddTime(ts, t.value) else ts
  }

  lemma AddWithinMeaning(ts: seq<Time>, t: Option<Time>, from: Time, until: Time)
    requires Increasing(ts)
    ensures Increasing(AddWithin(ts, t, from, until))
    ensures forall x :: x in AddWithin(ts, t, from, until) <==> x in ts || (Some(x) == t && from <= x < until)
  {
    if t.Some? { AddTimeMeaning(ts, t.value); }
  }

  function AddChanges(ts: seq<Time>, g: Grant, from: Time, until: Time): seq<Time> {
    AddWithin(AddWithin(AddWithin(AddWithin(ts, Some(g.effectiveAt), from, until), g.expiresAt, from, until), g.deletedAt, from, until), g.voidedAt, from, until)
  }

  lemma AddChangesMeaning(ts: seq<Time>, g: Grant, from: Time, until: Time)
    requires Increasing(ts)
    ensures Increasing(AddChanges(ts, g, from, until))
    ensures forall t :: t in AddChanges(ts, g, from, until) <==> t in ts || (from <= t < until && ChangesAt(g, t))
  {
    var a := AddWithin(ts, Some(g.effectiveAt), from, until);
    var b := AddWithin(a, g.expiresAt, from, until);
    var c := AddWithin(b, g.deletedAt, from, until);
    AddWithinMeaning(ts, Some(g.effectiveAt), from, until);
    AddWithinMeaning(a, g.expiresAt, from, until);
    AddWithinMeaning(b, g.deletedAt, from, until);
    AddWithinMeaning(c, g.voidedAt, from, until);
  }

  /** getGrantActivityChanges. */
  method ActivityChanges(gs: seq<Grant>, from: Time, until: Time) returns (ts: seq<Time>)
    ensures Increasing(ts)
    ensures forall t :: t in ts <==> from <= t < until && exists i :: 0 <= i < |gs| && ChangesAt(gs[i], t)
  {
    ts := [];
    for k := 0 to |gs|
      invariant Increasing(ts)
      invariant forall t :: t in ts <==> from <= t < until && exists i :: 0 <= i < k && ChangesAt(gs[i], t)
    {
      AddChangesMeaning(ts, gs[k], from, until);
      ts := AddChanges(ts, gs[k], from, until);
    }
  }

  // ------------------------------------------------------------ burn phases

  datatype Phase = Phase(from: Time, until: Time, recurredAtEnd: set<GrantId>, priorityChange: bool)

  datatype Plan = Plan(phases: seq<Phase>, recurredAtStart: set<GrantId>)

  /** What a plan promises: the phases tile the period, every grant change is at a phase start,
      every phase starts with exactly the grants that recur then, and an empty last phase is
      added exactly when the period is empty or something recurs at an inclusive end. */
  ghost predicate PlanOk(gs: seq<Grant>, from: Time, until: Time, inclusive: bool, plan: Plan) {
    var ps := plan.phases;
    var n := |ps|;
    && n > 0 && ps[0].from == from && ps[n - 1].until == until
    && (forall k :: 1 <= k < n ==> ps[k].from == ps[k - 1].until)
    && (forall k :: 0 <= k < n - 1 ==> ps[k].from < ps[k].until)
    && (ps[n - 1].from < until || (ps[n - 1].from == until && (from == until || (inclusive && Recurring(gs, until) != {}))))
    && (inclusive && from < until && Recurring(gs, until) != {} ==> ps[n - 1].from == until)
    && (forall k, t :: 0 <= k < n && ps[k].from < t < ps[k].until ==> !EventAt(gs, t))
    && (forall k :: 0 <= k < n - 1 ==> ps[k].recurredAtEnd == Recurring(gs, ps[k].until))
    && (forall k :: 0 <= k < n - 1 ==> ps[k].until == until || EventAt(gs, ps[k].until))
    && plan.recurredAtStart == Recurring(gs, from)
  }

  lemma RecurringMeansEvent(gs: seq<Grant>, t: Time)
    ensures Recurring(gs, t) != {} <==> RecursAt(gs, t)
    ensures EventAt(gs, t) <==> RecursAt(gs, t) || exists i :: 0 <= i < |gs| && ChangesAt(gs[i], t)
  {
    if id :| id in Recurring(gs, t) {
      var i :| 0 <= i < |gs| && Active(gs[i], t) && Recurs(gs[i], t) && gs[i].id == id;
    }
    if RecursAt(gs, t) {
      var i :| 0 <= i < |gs| && Active(gs[i], t) && Recurs(gs[i], t);
      assert gs[i].id in Recurring(gs, t);
      assert Event(gs[i], t);
    }
    if i :| 0 <= i < |gs| && ChangesAt(gs[i], t) { assert Event(gs[i], t); }
  }

  /** The phases built so far, up to `at`. */
  ghost predicate Built(gs: seq<Grant>, from: Time, ps: seq<Phase>, at: Time) {
    var n := |ps|;
    && (n == 0 ==> at == from)
    && (n > 0 ==> ps[0].from == from && ps[n - 1].until == at)
    && (forall k :: 1 <= k < n ==> ps[k].from == ps[k - 1].until)
    && (forall k :: 0 <= k < n ==> ps[k].from < ps[k].until)
    && (forall k, t :: 0 <= k < n && ps[k].from < t < ps[k].until ==> !EventAt(gs, t))
    && (forall k :: 0 <= k < n ==> ps[k].recurredAtEnd == {} || ps[k].recurredAtEnd == Recurring(gs, ps[k].until))
    && (forall k :: 0 <= k < n - 1 ==> ps[k].recurredAtEnd == Recurring(gs, ps[k].until))
    && (forall k :: 0 <= k < n - 1 ==> EventAt(gs, ps[k].until))
  }

  /** appendPhase drops empty phases. */
  function AppendPhase(ps: seq<Phase>, p: Phase): seq<Phase> {
    if p.until <= p.from then ps else ps + [p]
  }

  lemma AppendBuilt(gs: seq<Grant>, from: Time, ps: seq<Phase>, at: Time, p: Phase)
    requires Built(gs, from, ps, at) && p.from == at < p.until
    requires |ps| > 0 ==> EventAt(gs, at) && ps[|ps| - 1].recurredAtEnd == Recurring(gs, at)
    requires forall t :: at < t < p.until ==> !EventAt(gs, t)
    requires p.recurredAtEnd == {} || p.recurredAtEnd == Recurring(gs, p.until)
    ensures Built(gs, from, ps + [p], p.until)
  {
    var r := ps + [p];
    assert forall k :: 0 <= k < |ps| ==> r[k] == ps[k];
    assert r[|ps|] == p;
  }

  /** How far the merge has got: everything before the cursors is at or before `at`,
      everything from the cursors on is after it (or an activity change right at the start). */
  ghost predicate Cursors(from: Time, ac: seq<Time>, rt: seq<Tick>, i: int, j: int, ps: seq<Phase>, at: Time) {
    && 0 <= i <= |ac| && 0 <= j <= |rt| && from <= at
    && (forall k :: 0 <= k < i ==> ac[k] <= at)
    && (forall k :: 0 <= k < j ==> rt[k].time <= at)
    && (forall k :: i <= k < |ac| ==> ac[k] > at || (ac[k] == at == from && ps == [] && k == 0))
    && (forall k :: j <= k < |rt| ==> rt[k].time > at)
  }

  /** The lists hold exactly the events of the period (recurrences at its start taken out). */
  ghost predicate Lists(gs: seq<Grant>, from: Time, until: Time, inclusive: bool, ac: seq<Time>, rt: seq<Tick>) {
    && from <= until && Increasing(ac) && Ascending(rt)
    && (forall t :: t in ac <==> from <= t < until && exists i :: 0 <= i < |gs| && ChangesAt(gs[i], t))
    && (forall t :: IdsAt(rt, t) == if from < t && InPeriod(t, from, until, inclusive) then Recurring(gs, t) else {})
    && NoneEmpty(rt)
  }

  lemma TickTimes(gs: seq<Grant>, from: Time, until: Time, inclusive: bool, ac: seq<Time>, rt: seq<Tick>, j: nat)
    requires Lists(gs, from, until, inclusive, ac, rt) && j < |rt|
    ensures from < rt[j].time && InPeriod(rt[j].time, from, until, inclusive) && rt[j].ids == Recurring(gs, rt[j].time)
    ensures EventAt(gs, rt[j].time)
  {
    IdsAtTick(rt, j);
    RecurringMeansEvent(gs, rt[j].time);
  }

  lemma {:induction false} SomeTick(rt: seq<Tick>, t: Time) returns (j: nat)
    requires IdsAt(rt, t) != {}
    ensures j < |rt| && rt[j].time == t
  {
    if rt[0].time == t { j := 0; } else { j := SomeTick(rt[1..], t); j := j + 1; }
  }

  /** Nothing happens between the merge position and the next candidate. */
  lemma QuietUntilNext(gs: seq<Grant>, from: Time, until: Time, inclusive: bool, ac: seq<Time>, rt: seq<Tick>,
      i: int, j: int, ps: seq<Phase>, at: Time, next: Time)
    requires Lists(gs, from, until, inclusive, ac, rt) && Cursors(from, ac, rt, i, j, ps, at) && next <= until
    requires i < |ac| ==> next <= ac[i] || (ac[i] == at && forall k :: i < k < |ac| ==> next <= ac[k])
    requires j < |rt| ==> next <= rt[j].time
    ensures forall t :: at < t < next ==> !EventAt(gs, t)
  {
    forall k | 0 <= k < |rt| ensures rt[k].time <= at || next <= rt[k].time {
      if j < k { assert rt[j].time < rt[k].time; }
    }
    forall k | 0 <= k < |ac| ensures ac[k] <= at || next <= ac[k] {
      if i < k { assert ac[i] < ac[k]; }
    }
    forall t | at < t < next ensures !EventAt(gs, t) {
      NotAt(rt, t);
      RecurringMeansEvent(gs, t);
      assert t !in ac;
    }
  }

  lemma NoTickThere(gs: seq<Grant>, from: Time, until: Time, inclusive: bool, ac: seq<Time>, rt: seq<Tick>,
      i: int, j: int, ps: seq<Phase>, at: Time, next: Time)
    requires Lists(gs, from, until, inclusive, ac, rt) && Cursors(from, ac, rt, i, j, ps, at)
    requires at < next && InPeriod(next, from, until, inclusive) && (j < |rt| ==> next < rt[j].time)
    ensures Recurring(gs, next) == {}
  {
    forall k | 0 <= k < |rt| ensures rt[k].time != next {
      if j < k { assert rt[j].time < rt[k].time; }
    }
    NotAt(rt, next);
  }

  /** Once both lists are used up, only the end of the period is left. */
  lemma NothingLeft(gs: seq<Grant>, from: Time, until: Time, inclusive: bool, ac: seq<Time>, rt: seq<Tick>, ps: seq<Phase>, at: Time)
    requires Lists(gs, from, until, inclusive, ac, rt) && Cursors(from, ac, rt, |ac|, |rt|, ps, at) && at < until
    ensures forall t :: at < t < until ==> !EventAt(gs, t)
    ensures inclusive ==> Recurring(gs, until) == {}
  {
    QuietUntilNext(gs, from, until, inclusive, ac, rt, |ac|, |rt|, ps, at, until);
    if inclusive { NoTickThere(gs, from, until, inclusive, ac, rt, |ac|, |rt|, ps, at, until); }
  }

  /** Every built phase ends at an event, with the grants that recur there. */
  ghost predicate Ends(gs: seq<Grant>, ps: seq<Phase>) {
    |ps| > 0 ==> EventAt(gs, ps[|ps| - 1].until) && ps[|ps| - 1].recurredAtEnd == Recurring(gs, ps[|ps| - 1].until)
  }

  /** `next` is the nearest remaining event: an activity change, a recurrence, or both. */
  ghost predicate Nearest(ac: seq<Time>, rt: seq<Tick>, i: int, j: int, takeA: bool, takeT: bool, next: Time) {
    && 0 <= i <= |ac| && 0 <= j <= |rt| && (takeA || takeT)
    && (if takeA then i < |ac| && ac[i] == next else i < |ac| ==> next < ac[i])
    && (if takeT then j < |rt| && rt[j].time == next else j < |rt| ==> next < rt[j].time)
  }

  lemma MergeCursors(gs: seq<Grant>, from: Time, until: Time, inclusive: bool, ac: seq<Time>, rt: seq<Tick>,
      i: int, j: int, ps: seq<Phase>, at: Time, takeA: bool, takeT: bool, p: Phase)
    requires Lists(gs, from, until, inclusive, ac, rt) && Cursors(from, ac, rt, i, j, ps, at)
    requires Nearest(ac, rt, i, j, takeA, takeT, p.until) && p.from == at
    ensures at <= p.until
    ensures Cursors(from, ac, rt, if takeA then i + 1 else i, if takeT then j + 1 else j, AppendPhase(ps, p), p.until)
  {
  }

  lemma NearestWithin(gs: seq<Grant>, from: Time, until: Time, inclusive: bool, ac: seq<Time>, rt: seq<Tick>,
      i: int, j: int, takeA: bool, takeT: bool, next: Time)
    requires Lists(gs, from, until, inclusive, ac, rt) && Nearest(ac, rt, i, j, takeA, takeT, next)
    ensures from <= next <= until && EventAt(gs, next) && (next == until ==> inclusive)
    ensures takeT ==> rt[j].ids == Recurring(gs, next)
  {
    RecurringMeansEvent(gs, next);
    if takeA { assert ac[i] in ac; }
    if takeT { TickTimes(gs, from, until, inclusive, ac, rt, j); }
  }

  /** Where the merge stands. */
  ghost predicate Merging(gs: seq<Grant>, from: Time, until: Time, inclusive: bool, ac: seq<Time>, rt: seq<Tick>,
      i: int, j: int, ps: seq<Phase>, at: Time) {
    && Cursors(from, ac, rt, i, j, ps, at) && at <= until && Built(gs, from, ps, at) && Ends(gs, ps)
    && (at == until && from < until ==> inclusive)
  }

  /** One merge step: the nearest remaining event becomes the end of a phase. */
  lemma MergeStep(gs: seq<Grant>, from: Time, until: Time, inclusive: bool, ac: seq<Time>, rt: seq<Tick>,
      i: int, j: int, ps: seq<Phase>, at: Time, takeA: bool, takeT: bool, p: Phase)
    requires Lists(gs, from, until, inclusive, ac, rt) && Merging(gs, from, until, inclusive, ac, rt, i, j, ps, at)
    requires Nearest(ac, rt, i, j, takeA, takeT, p.until) && p.from == at
    requires p.recurredAtEnd == if takeT then rt[j].ids else {}
    ensures Merging(gs, from, until, inclusive, ac, rt, if takeA then i + 1 else i, if takeT then j + 1 else j, AppendPhase(ps, p), p.until)
  {
    var next := p.until;
    MergeCursors(gs, from, until, inclusive, ac, rt, i, j, ps, at, takeA, takeT, p);
    NearestWithin(gs, from, until, inclusive, ac, rt, i, j, takeA, takeT, next);
    if at < next {
      QuietUntilNext(gs, from, until, inclusive, ac, rt, i, j, ps, at, next);
      if !takeT { NoTickThere(gs, from, until, inclusive, ac, rt, i, j, ps, at, next); }
      AppendBuilt(gs, from, ps, at, p);
    }
  }

  lemma StartMerging(gs: seq<Grant>, from: Time, until: Time, inclusive: bool, ac: seq<Time>, rt: seq<Tick>)
    requires Lists(gs, from, until, inclusive, ac, rt) && forall k :: 0 <= k < |rt| ==> rt[k].time > from
    ensures Merging(gs, from, until, inclusive, ac, rt, 0, 0, [], from)
  {
    assert forall k :: 0 <= k < |ac| ==> ac[k] in ac && ac[0] <= ac[k];
  }

  /** The loop over both lists. */
  method MergeBoth(gs: seq<Grant>, from: Time, until: Time, inclusive: bool, ac: seq<Time>, rt: seq<Tick>)
      returns (ps: seq<Phase>, at: Time, i: int, j: int)
    requires Lists(gs, from, until, inclusive, ac, rt) && forall k :: 0 <= k < |rt| ==> rt[k].time > from
    ensures Merging(gs, from, until, inclusive, ac, rt, i, j, ps, at) && (i == |ac| || j == |rt|)
  {
    StartMerging(gs, from, until, inclusive, ac, rt);
    ps, at, i, j := [], from, 0, 0;
    while i < |ac| && j < |rt|
      invariant Merging(gs, from, until, inclusive, ac, rt, i, j, ps, at)
      decreases |ac| - i + |rt| - j
    {
      var takeA, takeT := ac[i] <= rt[j].time, rt[j].time <= ac[i];
      var p := if ac[i] < rt[j].time then Phase(at, ac[i], {}, true)
               else if ac[i] > rt[j].time then Phase(at, rt[j].time, rt[j].ids, false)
               else Phase(at, ac[i], rt[j].ids, true);
      MergeStep(gs, from, until, inclusive, ac, rt, i, j, ps, at, takeA, takeT, p);
      ps, at := AppendPhase(ps, p), p.until;
      if takeA { i := i + 1; }
      if takeT { j := j + 1; }
    }
  }

  /** The merge loops of getPhases. */
  method Merge(gs: seq<Grant>, from: Time, until: Time, inclusive: bool, ac: seq<Time>, rt: seq<Tick>)
      returns (ps: seq<Phase>, at: Time)
    requires Lists(gs, from, until, inclusive, ac, rt) && forall k :: 0 <= k < |rt| ==> rt[k].time > from
    ensures Merging(gs, from, until, inclusive, ac, rt, |ac|, |rt|, ps, at)
  {
    var i, j;
    ps, at, i, j := MergeBoth(gs, from, until, inclusive, ac, rt);
    while i < |ac|
      invariant Merging(gs, from, until, inclusive, ac, rt, i, j, ps, at)
      invariant i == |ac| || j == |rt|
    {
      var p := Phase(at, ac[i], {}, true);
      MergeStep(gs, from, until, inclusive, ac, rt, i, j, ps, at, true, false, p);
      i, ps, at := i + 1, AppendPhase(ps, p), p.until;
    }
    while j < |rt|
      invariant Merging(gs, from, until, inclusive, ac, rt, i, j, ps, at)
      invariant i == |ac|
    {
      var p := Phase(at, rt[j].time, rt[j].ids, false);
      MergeStep(gs, from, until, inclusive, ac, rt, i, j, ps, at, false, true, p);
      j, ps, at := j + 1, AppendPhase(ps, p), p.until;
    }
  }

  /** Takes the recurrences at the start of the period out of the ticks. */
  method TakeStart(gs: seq<Grant>, all: seq<Tick>, from: Time, until: Time, inclusive: bool)
      returns (rt: seq<Tick>, atStart: set<GrantId>)
    requires from <= until && Ascending(all) && NoneEmpty(all)
    requires forall t :: IdsAt(all, t) == if InPeriod(t, from, until, inclusive) then Recurring(gs, t) else {}
    ensures atStart == Recurring(gs, from)
    ensures Ascending(rt) && forall i :: 0 <= i < |rt| ==> rt[i].ids != {} && rt[i].time > from
    ensures forall t :: IdsAt(rt, t) == if from < t && InPeriod(t, from, until, inclusive) then Recurring(gs, t) else {}
  {
    rt, atStart := all, {};
    while |rt| > 0 && rt[0].time == from
      invariant (rt == all && atStart == {}) || (all != [] && all[0].time == from && rt == all[1..] && atStart == all[0].ids)
      decreases |rt|
    {
      atStart := atStart + rt[0].ids;
      rt := rt[1..];
    }
    StartTicks(gs, from, until, inclusive, all, rt, atStart);
  }

  /** getPhases. */
  method GetPhases(gs: seq<Grant>, from: Time, until: Time, inclusive: bool) returns (plan: Plan)
    requires from <= until
    ensures PlanOk(gs, from, until, inclusive, plan)
  {
    var ac := ActivityChanges(gs, from, until);
    var all := RecurrenceTimes(gs, from, until, inclusive);
    var rt, atStart := TakeStart(gs, all, from, until, inclusive);
    if ac == [] && rt == [] {
      plan := Plan([Phase(from, until, {}, false)], atStart);
      if from < until { NothingLeft(gs, from, until, inclusive, ac, rt, [], from); }
      return;
    }
    var ps, at := Merge(gs, from, until, inclusive, ac, rt);
    if at < until {
      NothingLeft(gs, from, until, inclusive, ac, rt, ps, at);
      AppendBuilt(gs, from, ps, at, Phase(at, until, {}, false));
      ps := AppendPhase(ps, Phase(at, until, {}, false));
    }
    if |ps| > 0 { BuiltGrows(gs, from, ps, until, 0); }
    CloseOk(gs, from, until, inclusive, ps, atStart);
    plan := Plan(Close(ps, from, until), atStart);
  }

  /** A last empty phase applies what happens at an inclusive end, or stands in for no phase. */
  function Close(ps: seq<Phase>, from: Time, until: Time): seq<Phase> {
    if |ps| == 0 then [Phase(from, until, {}, false)]
    else if ps[|ps| - 1].until == until && ps[|ps| - 1].recurredAtEnd != {} then ps + [Phase(until, until, {}, false)]
    else ps
  }

  lemma CloseEmpty(gs: seq<Grant>, from: Time, inclusive: bool, atStart: set<GrantId>)
    requires atStart == Recurring(gs, from)
    ensures PlanOk(gs, from, from, inclusive, Plan([Phase(from, from, {}, false)], atStart))
  {
  }

  lemma CloseTerminal(gs: seq<Grant>, from: Time, until: Time, ps: seq<Phase>, atStart: set<GrantId>)
    requires from < until && |ps| > 0 && Built(gs, from, ps, until) && atStart == Recurring(gs, from)
    requires ps[|ps| - 1].recurredAtEnd == Recurring(gs, until) != {}
    ensures PlanOk(gs, from, until, true, Plan(ps + [Phase(until, until, {}, false)], atStart))
  {
    RecurringMeansEvent(gs, until);
    var n, r := |ps|, ps + [Phase(until, until, {}, false)];
    assert |r| == n + 1 && r[n] == Phase(until, until, {}, false);
    assert forall k :: 0 <= k < n ==> r[k] == ps[k];
    forall k, t | 0 <= k < |r| && r[k].from < t < r[k].until ensures !EventAt(gs, t) { assert k < n; }
    forall k | 0 <= k < |r| - 1 ensures r[k].until == until || EventAt(gs, r[k].until) { assert r[k] == ps[k]; }
  }

  lemma ClosePlain(gs: seq<Grant>, from: Time, until: Time, inclusive: bool, ps: seq<Phase>, atStart: set<GrantId>)
    requires |ps| > 0 && Built(gs, from, ps, until) && atStart == Recurring(gs, from)
    requires inclusive ==> Recurring(gs, until) == {}
    ensures PlanOk(gs, from, until, inclusive, Plan(ps, atStart))
  {
  }

  lemma CloseOk(gs: seq<Grant>, from: Time, until: Time, inclusive: bool, ps: seq<Phase>, atStart: set<GrantId>)
    requires from <= until && Built(gs, from, ps, until) && atStart == Recurring(gs, from)
    requires |ps| > 0 ==>
      && from < until
      && (ps[|ps| - 1].recurredAtEnd != {} ==> inclusive)
      && (inclusive ==> ps[|ps| - 1].recurredAtEnd == Recurring(gs, until))
    ensures PlanOk(gs, from, until, inclusive, Plan(Close(ps, from, until), atStart))
  {
    if |ps| == 0 {
      CloseEmpty(gs, from, inclusive, atStart);
    } else if ps[|ps| - 1].recurredAtEnd != {} {
      CloseTerminal(gs, from, until, ps, atStart);
    } else {
      ClosePlain(gs, from, until, inclusive, ps, atStart);
    }
  }

  lemma {:induction false} BuiltGrows(gs: seq<Grant>, from: Time, ps: seq<Phase>, at: Time, k: nat)
    requires Built(gs, from, ps, at) && k < |ps|
    ensures ps[k].until <= at
    decreases |ps| - k
  {
    if k < |ps| - 1 {
      BuiltGrows(gs, from, ps, at, k + 1);
      assert ps[k + 1].from == ps[k].until;
    }
  }

  lemma {:induction false} StartTicks(gs: seq<Grant>, from: Time, until: Time, inclusive: bool, all: seq<Tick>, rt: seq<Tick>, atStart: set<GrantId>)
    requires from <= until && Ascending(all) && !(|rt| > 0 && rt[0].time == from)
    requires forall t :: IdsAt(all, t) == if InPeriod(t, from, until, inclusive) then Recurring(gs, t) else {}
    requires NoneEmpty(all)
    requires (rt == all && atStart == {}) || (all != [] && all[0].time == from && rt == all[1..] && atStart == all[0].ids)
    ensures atStart == Recurring(gs, from)
    ensures Ascending(rt) && forall i :: 0 <= i < |rt| ==> rt[i].ids != {} && rt[i].time > from
    ensures forall t :: IdsAt(rt, t) == if from < t && InPeriod(t, from, until, inclusive) then Recurring(gs, t) else {}
  {
    forall i | 0 <= i < |all| ensures InPeriod(all[i].time, from, until, inclusive) { IdsAtTick(all, i); }
    assert forall i :: 0 <= i < |rt| ==> rt[i] in all;
    forall i | 0 <= i < |rt| ensures rt[i].time > from {
      if rt != all { assert rt[i] == all[i + 1]; }
    }
    forall t ensures IdsAt(rt, t) == if from < t && InPeriod(t, from, until, inclusive) then Recurring(gs, t) else {} {
      if t <= from { NotAt(rt, t); }
    }
  }
}
