/** What extraction promises its callers (openmeter/billing/validationissue.go,
    openmeter/billing/lineengine.go). */
module IssueAlgebra {
  import opened Grants
  import opened ValidationIssues

  // ------------------------------------------------------------ projection

  /** The issue has no stored metadata and its path starts with a slash, if it has one. */
  predicate Canonical(i: Issue) {
    i.id == "" && i.createdAt == i.updatedAt == 0 && i.deletedAt.None? && (i.path == "" || i.path[0] == '/')
  }

  lemma {:induction false} OccurrencesOfIssues(errs: seq<Error>, issues: seq<Issue>)
    requires |errs| == |issues| && forall i :: 0 <= i < |errs| ==> errs[i] == Invalid(issues[i])
    ensures |OccurrencesAll(errs)| == |errs|
    ensures forall i :: 0 <= i < |errs| ==> OccurrencesAll(errs)[i] == Occurrence([], IssueLeaf(issues[i]))
  {
    if errs != [] { OccurrencesOfIssues(errs[1..], issues[1..]); }
  }

  lemma DenoteAlone(i: Issue)
    ensures Denote(Occurrence([], IssueLeaf(i))) == Fresh(i.severity, i.message, i.code, i.component, Slashed(i.path))
  {
    assert [] + [i.message] == [i.message] && [] + [i.component] == [i.component] && [] + [i.path] == [i.path];
    assert NonEmpty([i.path]) == if i.path == "" then [] else [i.path];
    assert FromFirstNonEmpty([i.component]) == if i.component == "" then [] else [i.component];
  }

  /** A list of issues survives the trip through an error exactly when all are canonical. */
  lemma RoundTripIff(issues: seq<Issue>)
    ensures ToValidationIssues(AsError(issues)) == Converted(issues) <==>
            forall i :: 0 <= i < |issues| ==> Canonical(issues[i])
  {
    if issues != [] {
      var errs := AsError(issues).errs;
      OccurrencesOfIssues(errs, issues);
      ExtractionMeaning(AsError(issues));
      var os := OccurrencesAll(errs);
      assert Occurrences(AsError(issues)) == os;
      forall i | 0 <= i < |issues| ensures Denote(os[i]) == issues[i] <==> Canonical(issues[i]) {
        DenoteAlone(issues[i]);
      }
      if forall i :: 0 <= i < |issues| ==> Canonical(issues[i]) {
        assert Denotations(os) == issues;
      } else {
        var k :| 0 <= k < |issues| && !Canonical(issues[k]);
        assert Denotations(os)[k] != issues[k];
      }
    }
  }

  lemma DenotedIsCanonical(o: Occurrence)
    ensures Canonical(Denote(o))
  {
    var p := Joined(NonEmpty(Prefixes(o.frames) + [if o.leaf.IssueLeaf? then o.leaf.issue.path else ""]), "/");
    if p != "" { SlashedLate(p, ""); }
  }

  /** Extracting what was extracted changes nothing. */
  lemma ExtractionIsProjection(err: Error)
    requires ToValidationIssues(err).Converted?
    ensures var issues := ToValidationIssues(err).issues;
      && (forall i :: 0 <= i < |issues| ==> Canonical(issues[i]))
      && ToValidationIssues(AsError(issues)) == Converted(issues)
  {
    ExtractionMeaning(err);
    var os, issues := Occurrences(err), ToValidationIssues(err).issues;
    forall i | 0 <= i < |issues| ensures Canonical(issues[i]) { DenotedIsCanonical(os[i]); }
    RoundTripIff(issues);
  }

  /** Every path is empty or starts with a slash. */
  lemma PathsStartWithSlash(err: Error)
    requires ToValidationIssues(err).Converted?
    ensures forall i :: i in ToValidationIssues(err).issues ==> i.path == "" || i.path[0] == '/'
  {
    ExtractionIsProjection(err);
  }

  // ---------------------------------------------------------- rearranging

  /** The same wrappers of each kind in the same order; kinds may be interleaved differently. */
  predicate SameContext(a: seq<Frame>, b: seq<Frame>) {
    Names(a) == Names(b) && Prefixes(a) == Prefixes(b) && Texts(a) == Texts(b)
  }

  predicate SameLeaves(a: seq<Occurrence>, b: seq<Occurrence>) {
    && |a| == |b|
    && forall i :: 0 <= i < |a| ==> a[i].leaf == b[i].leaf && SameContext(a[i].frames, b[i].frames)
  }

  predicate SameConversion(a: Error, b: Error) {
    var x, y := ToValidationIssues(a), ToValidationIssues(b);
    if x.Converted? then y == x else y == Failed(b)
  }

  lemma {:induction false} ClassifiedMeaning(fs: seq<Frame>)
    ensures Classified(fs) <==> Names(fs) != [] || Prefixes(fs) != []
  {
    if fs != [] {
      ClassifiedMeaning(fs[1..]);
      if Classified(fs) {
        var i :| 0 <= i < |fs| && !fs[i].InMessage?;
        if i > 0 { assert fs[1..][i - 1] == fs[i]; }
      }
      if Classified(fs[1..]) {
        var i :| 0 <= i < |fs[1..]| && !fs[1..][i].InMessage?;
        assert fs[i + 1] == fs[1..][i];
      }
    }
  }

  /** Only the leaves and, per kind, the wrappers above them matter. */
  lemma OnlyContextsMatter(a: Error, b: Error)
    requires SameLeaves(Occurrences(a), Occurrences(b))
    ensures SameConversion(a, b)
  {
    var x, y := Occurrences(a), Occurrences(b);
    ExtractionMeaning(a);
    ExtractionMeaning(b);
    forall i | 0 <= i < |x| ensures Reportable(x[i]) == Reportable(y[i]) && Denote(x[i]) == Denote(y[i]) {
      ClassifiedMeaning(x[i].frames);
      ClassifiedMeaning(y[i].frames);
    }
    assert AllReportable(x) == AllReportable(y) by {
      if AllReportable(x) { forall i | 0 <= i < |y| ensures Reportable(y[i]) { assert Reportable(x[i]); } }
      if AllReportable(y) { forall i | 0 <= i < |x| ensures Reportable(x[i]) { assert Reportable(y[i]); } }
    }
    if AllReportable(x) { assert Denotations(x) == Denotations(y); }
  }

  function Frameless(f: Frame, e: Error): Error {
    match f
    case InComponent(n) => Component(n, e)
    case InField(p) => Field(p, e)
    case InMessage(t) => Message(t, e)
  }

  predicate SameKind(f: Frame, g: Frame) {
    (f.InComponent? && g.InComponent?) || (f.InField? && g.InField?) || (f.InMessage? && g.InMessage?)
  }

  lemma TwoFrames(f: Frame, g: Frame, fs: seq<Frame>)
    requires !SameKind(f, g)
    ensures SameContext([f] + ([g] + fs), [g] + ([f] + fs))
  {
    forall a: Frame, r: seq<Frame> ensures ([a] + r)[1..] == r { }
    assert ([f] + ([g] + fs))[1..] == [g] + fs && ([g] + ([f] + fs))[1..] == [f] + fs;
    assert ([g] + fs)[1..] == fs && ([f] + fs)[1..] == fs;
  }

  lemma FramelessOccurs(f: Frame, e: Error)
    ensures Occurrences(Frameless(f, e)) == Under(f, Occurrences(e))
  {
  }

  /** Wrappers of different kinds commute, in any context of outer wrappers. */
  lemma WrappersCommute(f: Frame, g: Frame, e: Error)
    requires !SameKind(f, g)
    ensures SameConversion(Frameless(f, Frameless(g, e)), Frameless(g, Frameless(f, e)))
  {
    var a, b := Frameless(f, Frameless(g, e)), Frameless(g, Frameless(f, e));
    var os := Occurrences(e);
    FramelessOccurs(f, Frameless(g, e));
    FramelessOccurs(g, e);
    FramelessOccurs(g, Frameless(f, e));
    FramelessOccurs(f, e);
    forall i | 0 <= i < |os| ensures SameContext(Occurrences(a)[i].frames, Occurrences(b)[i].frames) {
      TwoFrames(f, g, os[i].frames);
    }
    OnlyContextsMatter(a, b);
  }

  lemma {:induction false} OccurrencesAppend(a: seq<Error>, b: seq<Error>)
    ensures OccurrencesAll(a + b) == OccurrencesAll(a) + OccurrencesAll(b)
  {
    if a == [] {
      assert a + b == b;
    } else {
      assert (a + b)[1..] == a[1..] + b;
      OccurrencesAppend(a[1..], b);
    }
  }

  function Each(f: Frame, errs: seq<Error>): seq<Error> {
    seq(|errs|, i requires 0 <= i < |errs| => Frameless(f, errs[i]))
  }

  lemma {:induction false} OccurrencesEach(f: Frame, errs: seq<Error>)
    ensures OccurrencesAll(Each(f, errs)) == Under(f, OccurrencesAll(errs))
  {
    if errs != [] {
      OccurrencesEach(f, errs[1..]);
      assert Each(f, errs)[1..] == Each(f, errs[1..]);
      assert Under(f, Occurrences(errs[0]) + OccurrencesAll(errs[1..])) ==
             Under(f, Occurrences(errs[0])) + Under(f, OccurrencesAll(errs[1..]));
    }
  }

  /** Wrapping a joined error is joining the wrapped errors. */
  lemma WrapperDistributes(f: Frame, t: string, u: string, errs: seq<Error>)
    ensures SameConversion(Frameless(f, Join(t, errs)), Join(u, Each(f, errs)))
  {
    FramelessOccurs(f, Join(t, errs));
    OccurrencesEach(f, errs);
    OnlyContextsMatter(Frameless(f, Join(t, errs)), Join(u, Each(f, errs)));
  }

  /** A layer that only unwraps is transparent, below any wrapper and anywhere in a joined list;
      so is a joined list inside another. */
  lemma LayersAreTransparent(f: Frame, t: string, u: string, left: seq<Error>, errs: seq<Error>, right: seq<Error>)
    ensures SameConversion(Frameless(f, Wrap(t, Join(u, errs))), Frameless(f, Join(u, errs)))
    ensures SameConversion(Join(t, left + [Wrap(u, Join(t, errs))] + right), Join(t, left + errs + right))
  {
    FramelessOccurs(f, Join(u, errs));
    FramelessOccurs(f, Wrap(t, Join(u, errs)));
    OnlyContextsMatter(Frameless(f, Wrap(t, Join(u, errs))), Frameless(f, Join(u, errs)));
    var one := [Wrap(u, Join(t, errs))];
    assert Occurrences(Join(t, errs)) == OccurrencesAll(errs) && one[1..] == [];
    assert OccurrencesAll(one) == OccurrencesAll(errs) + [];
    OccurrencesAppend(left + one, right);
    OccurrencesAppend(left, one);
    OccurrencesAppend(left + errs, right);
    OccurrencesAppend(left, errs);
    OnlyContextsMatter(Join(t, left + one + right), Join(t, left + errs + right));
  }

  /** A join converts exactly when all its parts do, to their issues in order. */
  lemma JoinConverts(t: string, a: seq<Error>, b: seq<Error>)
    ensures var x, y := ToValidationIssues(Join(t, a)), ToValidationIssues(Join(t, b));
      ToValidationIssues(Join(t, a + b)) ==
        if x.Converted? && y.Converted? then Converted(x.issues + y.issues) else Failed(Join(t, a + b))
  {
    ExtractionMeaning(Join(t, a));
    ExtractionMeaning(Join(t, b));
    ExtractionMeaning(Join(t, a + b));
    OccurrencesAppend(a, b);
    AgreesSplits(OccurrencesAll(a), OccurrencesAll(b));
  }

  // ---------------------------------------------------------- line engines

  /** Error(): the text of an error. */
  function Text(err: Error): string {
    match err
    case Nil => ""
    case Component(c, e) => c + ": " + Text(e)
    case Field(p, e) => p + ": " + Text(e)
    case Message(t, e) => t + ": " + Text(e)
    case Invalid(i) => i.message
    case Join(t, _) => t
    case Wrap(t, _) => t
    case Plain(t) => t
  }

  function EngineComponent(engine: string): string { "openmeter.lineengine." + engine }

  /** NewLineEngineValidationError. */
  function NewLineEngineValidationError(engine: Option<string>, err: Error): Error {
    if err.Nil? then Nil
    else if engine.None? then Plain("line engine is required")
    else
      var component := EngineComponent(engine.value);
      var wrapped := WithComponent(component, err);
      if ToValidationIssues(wrapped).Converted? then wrapped
      else
        WithComponent(component, Invalid(Fresh(Critical, Text(err), "line_engine_collection_completed_failed", component, "")))
  }

  /** Without an engine no error converts; no error stays none. */
  lemma EngineIsRequired(err: Error)
    ensures ToValidationIssues(NewLineEngineValidationError(None, err)).Converted? <==> err.Nil?
    ensures NewLineEngineValidationError(None, Nil).Nil?
  {
    assert Extract(Plain("line engine is required"), "", "", "", false).Unknown?;
  }

  /** Any error below a non-empty component converts, to issues of that component, one per leaf. */
  lemma ComponentIsTotal(component: string, err: Error)
    requires component != ""
    ensures var r := ToValidationIssues(WithComponent(component, err));
      && r.Converted? && |r.issues| == |Occurrences(err)|
      && forall i :: 0 <= i < |r.issues| ==> r.issues[i].component == component
  {
    var e := WithComponent(component, err);
    ExtractionMeaning(e);
    if !err.Nil? {
      var os := Occurrences(e);
      forall i | 0 <= i < |os| ensures Reportable(os[i]) && Denote(os[i]).component == component {
        assert os[i].frames == [InComponent(component)] + Occurrences(err)[i].frames;
        assert !os[i].frames[0].InMessage?;
      }
    }
  }

  /** Different engines report as different components, none of them empty. */
  lemma EnginesHaveOwnComponents(a: string, b: string)
    ensures EngineComponent(a) == EngineComponent(b) <==> a == b
    ensures EngineComponent(a) != "" && EngineComponent(a)[|EngineComponent(a)| - |a|..] == a
  {
    var p := |EngineComponent("")|;
    assert EngineComponent(a)[p..] == a && EngineComponent(b)[p..] == b;
  }

  /** The fallback is never needed, nothing is lost, and every issue names the engine. */
  lemma LineEngineErrorsConvert(engine: string, err: Error)
    ensures var r := NewLineEngineValidationError(Some(engine), err);
      && r == WithComponent(EngineComponent(engine), err)
      && var c := ToValidationIssues(r);
      && c.Converted? && |c.issues| == |Occurrences(err)|
      && forall i :: 0 <= i < |c.issues| ==> c.issues[i].component == EngineComponent(engine)
  {
    ComponentIsTotal(EngineComponent(engine), err);
  }
}
