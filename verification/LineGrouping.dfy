/** Splitting an invoice edit by line engine (openmeter/billing/stdinvoiceedit.go). */
module LineGrouping {
  import opened Grants

  datatype Line = Line(id: string, engine: string, valid: bool)

  /** A change of an existing line; the override may be invalid or empty. */
  datatype Override = Override(existing: Line, valid: bool, present: bool)

  datatype Edit = Edit(invoice: nat, resolversValid: bool, created: seq<Line>, updated: seq<Override>, deleted: seq<Line>)

  predicate IsEmpty(e: Edit) { e.created == [] && e.updated == [] && e.deleted == [] }

  predicate AllValid(ls: seq<Line>) { forall l :: l in ls ==> l.valid }

  predicate AllValidOverrides(os: seq<Override>) {
    forall o :: o in os ==> o.existing.valid && o.valid && o.present
  }

  /** OnMutableInvoiceUpdateInput.Validate. */
  predicate Valid(e: Edit) {
    !IsEmpty(e) && e.resolversValid && AllValid(e.created) && AllValidOverrides(e.updated) && AllValid(e.deleted)
  }

  /** What makes an edit valid: it edits something, its resolvers are valid, and so are all its lines
      and every override, none of which is missing. */
  lemma ValidIff(e: Edit)
    ensures Valid(e) <==>
      && |e.created| + |e.updated| + |e.deleted| > 0 && e.resolversValid
      && (forall l :: l in e.created || l in e.deleted ==> l.valid)
      && forall o :: o in e.updated ==> o.existing.valid && o.valid && o.present
  {
  }

  function LinesOf(ls: seq<Line>, engine: string): seq<Line> {
    if ls == [] then []
    else LinesOf(ls[..|ls| - 1], engine) + if ls[|ls| - 1].engine == engine then [ls[|ls| - 1]] else []
  }

  function OverridesOf(os: seq<Override>, engine: string): seq<Override> {
    if os == [] then []
    else OverridesOf(os[..|os| - 1], engine) + if os[|os| - 1].existing.engine == engine then [os[|os| - 1]] else []
  }

  /** The part of the edit that concerns one engine. */
  function Part(e: Edit, engine: string): Edit {
    e.(created := LinesOf(e.created, engine), updated := OverridesOf(e.updated, engine), deleted := LinesOf(e.deleted, engine))
  }

  function EnginesOf(ls: seq<Line>): set<string> { set i | 0 <= i < |ls| :: ls[i].engine }

  function Existing(os: seq<Override>): seq<Line> {
    seq(|os|, i requires 0 <= i < |os| => os[i].existing)
  }

  function Engines(e: Edit): set<string> {
    EnginesOf(e.created) + EnginesOf(Existing(e.updated)) + EnginesOf(e.deleted)
  }

  lemma EnginesSnoc(ls: seq<Line>, l: Line)
    ensures EnginesOf(ls + [l]) == EnginesOf(ls) + {l.engine}
  {
    var r := ls + [l];
    assert r[|ls|] == l;
    forall x | x in EnginesOf(ls) ensures x in EnginesOf(r) {
      var i :| 0 <= i < |ls| && ls[i].engine == x;
      assert r[i].engine == x;
    }
  }

  /** lo.GroupBy. */
  method GroupLines(ls: seq<Line>) returns (groups: map<string, seq<Line>>)
    ensures groups.Keys == EnginesOf(ls) && forall en :: en in groups ==> groups[en] == LinesOf(ls, en)
  {
    groups := map[];
    for k := 0 to |ls|
      invariant groups.Keys == EnginesOf(ls[..k]) && forall en :: en in groups ==> groups[en] == LinesOf(ls[..k], en)
    {
      assert ls[..k + 1][..k] == ls[..k] && ls[..k + 1] == ls[..k] + [ls[k]];
      EnginesSnoc(ls[..k], ls[k]);
      Absent(ls[..k], ls[k].engine);
      var en := ls[k].engine;
      groups := groups[en := (if en in groups then groups[en] else []) + [ls[k]]];
    }
    assert ls[..|ls|] == ls;
  }

  method GroupOverrides(os: seq<Override>) returns (groups: map<string, seq<Override>>)
    ensures groups.Keys == EnginesOf(Existing(os)) && forall en :: en in groups ==> groups[en] == OverridesOf(os, en)
  {
    groups := map[];
    for k := 0 to |os|
      invariant groups.Keys == EnginesOf(Existing(os[..k])) && forall en :: en in groups ==> groups[en] == OverridesOf(os[..k], en)
    {
      assert os[..k + 1][..k] == os[..k] && Existing(os[..k + 1]) == Existing(os[..k]) + [os[k].existing];
      EnginesSnoc(Existing(os[..k]), os[k].existing);
      AbsentOverride(os[..k], os[k].existing.engine);
      var en := os[k].existing.engine;
      groups := groups[en := (if en in groups then groups[en] else []) + [os[k]]];
    }
    assert os[..|os|] == os;
  }

  lemma {:induction false} Absent(ls: seq<Line>, engine: string)
    ensures LinesOf(ls, engine) == [] <==> engine !in EnginesOf(ls)
  {
    if ls != [] {
      var n := |ls| - 1;
      Absent(ls[..n], engine);
      assert ls == ls[..n] + [ls[n]];
      EnginesSnoc(ls[..n], ls[n]);
    }
  }

  lemma {:induction false} AbsentOverride(os: seq<Override>, engine: string)
    ensures OverridesOf(os, engine) == [] <==> engine !in EnginesOf(Existing(os))
  {
    if os != [] {
      var n := |os| - 1;
      AbsentOverride(os[..n], engine);
      assert Existing(os) == Existing(os[..n]) + [os[n].existing];
      EnginesSnoc(Existing(os[..n]), os[n].existing);
    }
  }

  datatype Groups = Groups(creates: map<string, seq<Line>>, updates: map<string, seq<Override>>, deletes: map<string, seq<Line>>)

  function OrEmpty<T>(groups: map<string, seq<T>>, engine: string): seq<T> {
    if engine in groups then groups[engine] else []
  }

  function Assembled(e: Edit, g: Groups, engine: string): Edit {
    e.(created := OrEmpty(g.creates, engine), updated := OrEmpty(g.updates, engine), deleted := OrEmpty(g.deletes, engine))
  }

  /** The engines present, and their parts, assembled from the groups. */
  predicate PartsOf(e: Edit, g: Groups) {
    && g.creates.Keys + g.updates.Keys + g.deletes.Keys == Engines(e)
    && forall en :: en in Engines(e) ==> Assembled(e, g, en) == Part(e, en)
  }

  method GroupAll(e: Edit) returns (g: Groups)
    ensures PartsOf(e, g)
  {
    var creates := GroupLines(e.created);
    var updates := GroupOverrides(e.updated);
    var deletes := GroupLines(e.deleted);
    g := Groups(creates, updates, deletes);
    forall en ensures Assembled(e, g, en) == Part(e, en) {
      Absent(e.created, en);
      AbsentOverride(e.updated, en);
      Absent(e.deleted, en);
    }
  }

  predicate ValidPart(e: Edit, engine: string) { Valid(Part(e, engine)) }

  /** The loop over the present engines. */
  method Assemble(e: Edit, g: Groups, engines: set<string>) returns (r: Result<map<string, Edit>>)
    ensures r.Ok? <==> forall en :: en in engines ==> Valid(Assembled(e, g, en))
    ensures r.Ok? ==> r.value.Keys == engines && forall en :: en in engines ==> r.value[en] == Assembled(e, g, en)
  {
    var rest := engines;
    var out: map<string, Edit> := map[];
    while rest != {}
      invariant rest <= engines && out.Keys == engines - rest
      invariant forall en :: en in out ==> out[en] == Assembled(e, g, en)
      invariant forall en :: en in out ==> Valid(Assembled(e, g, en))
      decreases |rest|
    {
      var en :| en in rest;
      if !Valid(Assembled(e, g, en)) { return Err; }
      out := out[en := Assembled(e, g, en)];
      rest := rest - {en};
    }
    r := Ok(out);
  }

  lemma EngineInEngines(e: Edit, engine: string)
    ensures engine in Engines(e) <==>
      (exists l :: (l in e.created || l in e.deleted) && l.engine == engine) || exists o :: o in e.updated && o.existing.engine == engine
  {
    var os := Existing(e.updated);
    if i :| 0 <= i < |os| && os[i].engine == engine { assert e.updated[i] in e.updated; }
    if o :| o in e.updated && o.existing.engine == engine {
      var i :| 0 <= i < |e.updated| && e.updated[i] == o;
      assert os[i].engine == engine;
    }
    if l :| (l in e.created || l in e.deleted) && l.engine == engine {
      if l in e.created { var i :| 0 <= i < |e.created| && e.created[i] == l; } else { var i :| 0 <= i < |e.deleted| && e.deleted[i] == l; }
    }
  }

  lemma AssembledValidIff(e: Edit, g: Groups)
    requires PartsOf(e, g)
    ensures (forall en :: en in Engines(e) ==> Valid(Assembled(e, g, en))) <==> IsEmpty(e) || Valid(e)
  {
    ValidPartsIff(e);
    forall en | en in Engines(e) ensures Valid(Assembled(e, g, en)) == ValidPart(e, en) { }
  }

  /** GroupByLineEngine: fails only for a line without an engine or an invalid edit. */
  method GroupByLineEngine(e: Edit) returns (r: Result<map<string, Edit>>)
    ensures r.Ok? <==>
      && (forall l :: l in e.created || l in e.deleted ==> l.engine != "") && (forall o :: o in e.updated ==> o.existing.engine != "")
      && (Valid(e) || (e.created == e.deleted == [] && e.updated == []))
    ensures r.Ok? ==> r.value == map en | en in Engines(e) :: Part(e, en)
  {
    var g := GroupAll(e);
    AssembledValidIff(e, g);
    var engines := g.creates.Keys + g.updates.Keys + g.deletes.Keys;
    EngineInEngines(e, "");
    if "" in engines { return Err; }
    r := Assemble(e, g, engines);
  }

  /** All parts are valid exactly when the edit is, or when there is nothing to edit. */
  lemma ValidPartsIff(e: Edit)
    ensures (forall en :: en in Engines(e) ==> ValidPart(e, en)) <==> IsEmpty(e) || Valid(e)
  {
    forall en | en in Engines(e) ensures !IsEmpty(Part(e, en)) {
      Absent(e.created, en);
      AbsentOverride(e.updated, en);
      Absent(e.deleted, en);
    }
    LinesValidIff(e.created, Engines(e));
    LinesValidIff(e.deleted, Engines(e));
    OverridesValidIff(e.updated, Engines(e));
    if !IsEmpty(e) {
      var en := if e.created != [] then e.created[0].engine else if e.updated != [] then Existing(e.updated)[0].engine else e.deleted[0].engine;
      assert en in Engines(e);
      assert ValidPart(e, en) ==> e.resolversValid;
    }
  }

  lemma {:induction false} LinesValidIff(ls: seq<Line>, engines: set<string>)
    requires EnginesOf(ls) <= engines
    ensures (forall en :: en in engines ==> AllValid(LinesOf(ls, en))) <==> AllValid(ls)
  {
    forall i | 0 <= i < |ls| ensures ls[i] in LinesOf(ls, ls[i].engine) && ls[i].engine in engines { LineIsInGroup(ls, i); }
    forall en ensures forall l :: l in LinesOf(ls, en) ==> l in ls { GroupMembers(ls, en); }
  }

  lemma {:induction false} LineIsInGroup(ls: seq<Line>, i: nat)
    requires i < |ls|
    ensures ls[i] in LinesOf(ls, ls[i].engine) && ls[i].engine in EnginesOf(ls)
  {
    if i < |ls| - 1 { LineIsInGroup(ls[..|ls| - 1], i); }
  }

  lemma {:induction false} GroupMembers(ls: seq<Line>, engine: string)
    ensures forall l :: l in LinesOf(ls, engine) <==> l in ls && l.engine == engine
    ensures forall l :: multiset(LinesOf(ls, engine))[l] == if l.engine == engine then multiset(ls)[l] else 0
  {
    if ls != [] {
      var n := |ls| - 1;
      GroupMembers(ls[..n], engine);
      assert ls == ls[..n] + [ls[n]];
    }
  }

  lemma {:induction false} OverridesValidIff(os: seq<Override>, engines: set<string>)
    requires EnginesOf(Existing(os)) <= engines
    ensures (forall en :: en in engines ==> AllValidOverrides(OverridesOf(os, en))) <==> AllValidOverrides(os)
  {
    forall i | 0 <= i < |os| ensures os[i] in OverridesOf(os, os[i].existing.engine) && os[i].existing.engine in engines {
      assert Existing(os)[i].engine in EnginesOf(Existing(os));
      OverrideMembers(os, os[i].existing.engine);
    }
    forall en ensures forall o :: o in OverridesOf(os, en) ==> o in os { OverrideMembers(os, en); }
  }

  lemma {:induction false} OverrideMembers(os: seq<Override>, engine: string)
    ensures forall o :: o in OverridesOf(os, engine) <==> o in os && o.existing.engine == engine
    ensures forall o :: multiset(OverridesOf(os, engine))[o] == if o.existing.engine == engine then multiset(os)[o] else 0
  {
    if os != [] {
      var n := |os| - 1;
      OverrideMembers(os[..n], engine);
      assert os == os[..n] + [os[n]];
    }
  }

  /** One edit made after another. */
  function Followed(e: Edit, f: Edit): Edit {
    e.(created := e.created + f.created, updated := e.updated + f.updated, deleted := e.deleted + f.deleted)
  }

  /** The parts are an order-preserving partition: every line is, as often as in the edit, in the
      part of its own engine and in no other, and the part of two edits made one after the other is
      their parts one after the other. */
  lemma PartsPartition(e: Edit, f: Edit, engine: string)
    ensures var p := Part(e, engine);
      && (forall l :: multiset(p.created)[l] == if l.engine == engine then multiset(e.created)[l] else 0)
      && (forall o :: multiset(p.updated)[o] == if o.existing.engine == engine then multiset(e.updated)[o] else 0)
      && (forall l :: multiset(p.deleted)[l] == if l.engine == engine then multiset(e.deleted)[l] else 0)
    ensures Part(Followed(e, f), engine) == Followed(Part(e, engine), Part(f, engine))
    ensures engine !in Engines(e) ==> IsEmpty(Part(e, engine))
  {
    GroupMembers(e.created, engine);
    OverrideMembers(e.updated, engine);
    GroupMembers(e.deleted, engine);
    LinesAppend(e.created, f.created, engine);
    OverridesAppend(e.updated, f.updated, engine);
    LinesAppend(e.deleted, f.deleted, engine);
    Absent(e.created, engine);
    AbsentOverride(e.updated, engine);
    Absent(e.deleted, engine);
  }

  lemma {:induction false} LinesAppend(a: seq<Line>, b: seq<Line>, engine: string)
    ensures LinesOf(a + b, engine) == LinesOf(a, engine) + LinesOf(b, engine)
  {
    if b == [] {
      assert a + b == a;
    } else {
      var n := |b| - 1;
      assert (a + b)[..|a| + n] == a + b[..n];
      LinesAppend(a, b[..n], engine);
    }
  }

  lemma {:induction false} OverridesAppend(a: seq<Override>, b: seq<Override>, engine: string)
    ensures OverridesOf(a + b, engine) == OverridesOf(a, engine) + OverridesOf(b, engine)
  {
    if b == [] {
      assert a + b == a;
    } else {
      var n := |b| - 1;
      assert (a + b)[..|a| + n] == a + b[..n];
      OverridesAppend(a, b[..n], engine);
    }
  }
}
