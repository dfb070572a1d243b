/** Extraction of validation issues from an arbitrary error tree
    (openmeter/billing/validationissue.go). */
module ValidationIssues {
  import opened Grants

  datatype Severity = Critical | Warning

  datatype Issue = Issue(
    id: string, createdAt: int, updatedAt: int, deletedAt: Option<int>,
    severity: Severity, message: string, code: string, component: string, path: string)

  /** An error value. `Wrap` is any error with a single unwrapped error, `Join` any error with a
      list of them; both carry their own text. */
  datatype Error =
    | Nil
    | Component(component: string, err: Error)
    | Field(prefix: string, err: Error)
    | Message(text: string, err: Error)
    | Invalid(issue: Issue)
    | Join(text: string, errs: seq<Error>)
    | Wrap(text: string, err: Error)
    | Plain(text: string)

  function WithComponent(component: string, err: Error): Error {
    if err.Nil? then Nil else Component(component, err)
  }

  /** A new issue without the stored metadata. */
  function Fresh(severity: Severity, message: string, code: string, component: string, path: string): Issue {
    Issue("", 0, 0, None, severity, message, code, component, path)
  }

  // ------------------------------------------------------------- extraction

  function Slashed(path: string): string {
    if path == "" || path[0] == '/' then path else "/" + path
  }

  function AppendToPrefix(prefix: string, field: string): string {
    if prefix == "" then Slashed(field)
    else if field == "" then Slashed(prefix)
    else Slashed(prefix + "/" + field)
  }

  function AppendMessage(prefix: string, message: string): string {
    if prefix == "" then message else prefix + ": " + message
  }

  function OrOwn(component: string, own: string): string {
    if component == "" then own else component
  }

  datatype Extraction = Issues(list: seq<Issue>) | Unknown(cause: Error)

  function Then(a: Extraction, b: Extraction): Extraction {
    if a.Unknown? then a else if b.Unknown? then b else Issues(a.list + b.list)
  }

  /** toValidationIssue, with its four accumulators. */
  function Extract(err: Error, field: string, component: string, message: string, known: bool): Extraction {
    match err
    case Nil => Issues([])
    case Component(c, e) => Extract(e, field, OrOwn(component, c), message, true)
    case Field(p, e) => Extract(e, AppendToPrefix(field, p), component, message, true)
    case Message(t, e) => Extract(e, field, component, AppendMessage(message, t), known)
    case Invalid(i) =>
      Issues([Fresh(i.severity, AppendMessage(message, i.message), i.code, OrOwn(component, i.component), AppendToPrefix(field, i.path))])
    case Join(_, es) => ExtractAll(es, field, component, message, known)
    case Wrap(_, e) => Extract(e, field, component, message, known)
    case Plain(t) =>
      if known then Issues([Fresh(Critical, AppendMessage(message, t), "", component, field)]) else Unknown(err)
  }

  function ExtractAll(errs: seq<Error>, field: string, component: string, message: string, known: bool): Extraction {
    if errs == [] then Issues([])
    else Then(Extract(errs[0], field, component, message, known), ExtractAll(errs[1..], field, component, message, known))
  }

  datatype Conversion = Converted(issues: seq<Issue>) | Failed(err: Error)

  /** ToValidationIssues: a failure hands back the whole original error. */
  function ToValidationIssues(err: Error): Conversion {
    match Extract(err, "", "", "", false)
    case Issues(list) => Converted(list)
    case Unknown(_) => Failed(err)
  }

  function AsError(issues: seq<Issue>): Error {
    if issues == [] then Nil else Join("", seq(|issues|, i requires 0 <= i < |issues| => Invalid(issues[i])))
  }

  // ------------------------------------------------- meaning, path by path

  datatype Frame = InComponent(name: string) | InField(prefix: string) | InMessage(text: string)

  datatype Leaf = IssueLeaf(issue: Issue) | PlainLeaf(text: string)

  /** A leaf of the error tree with the wrappers above it, outermost first. */
  datatype Occurrence = Occurrence(frames: seq<Frame>, leaf: Leaf)

  function Under(f: Frame, os: seq<Occurrence>): seq<Occurrence> {
    seq(|os|, i requires 0 <= i < |os| => os[i].(frames := [f] + os[i].frames))
  }

  /** The leaves from left to right; generic wrapping leaves no trace. */
  function Occurrences(err: Error): seq<Occurrence> {
    match err
    case Nil => []
    case Component(c, e) => Under(InComponent(c), Occurrences(e))
    case Field(p, e) => Under(InField(p), Occurrences(e))
    case Message(t, e) => Under(InMessage(t), Occurrences(e))
    case Invalid(i) => [Occurrence([], IssueLeaf(i))]
    case Join(_, es) => OccurrencesAll(es)
    case Wrap(_, e) => Occurrences(e)
    case Plain(t) => [Occurrence([], PlainLeaf(t))]
  }

  function OccurrencesAll(errs: seq<Error>): seq<Occurrence> {
    if errs == [] then [] else Occurrences(errs[0]) + OccurrencesAll(errs[1..])
  }

  function Names(fs: seq<Frame>): seq<string> {
    if fs == [] then [] else (if fs[0].InComponent? then [fs[0].name] else []) + Names(fs[1..])
  }

  function Prefixes(fs: seq<Frame>): seq<string> {
    if fs == [] then [] else (if fs[0].InField? then [fs[0].prefix] else []) + Prefixes(fs[1..])
  }

  function Texts(fs: seq<Frame>): seq<string> {
    if fs == [] then [] else (if fs[0].InMessage? then [fs[0].text] else []) + Texts(fs[1..])
  }

  function NonEmpty(ss: seq<string>): seq<string> {
    if ss == [] then [] else (if ss[0] == "" then [] else [ss[0]]) + NonEmpty(ss[1..])
  }

  function FromFirstNonEmpty(ss: seq<string>): seq<string> {
    if ss == [] then [] else if ss[0] == "" then FromFirstNonEmpty(ss[1..]) else ss
  }

  function FirstNonEmpty(ss: seq<string>): string {
    var r := FromFirstNonEmpty(ss);
    if r == [] then "" else r[0]
  }

  function Joined(ss: seq<string>, sep: string): string {
    if ss == [] then "" else if |ss| == 1 then ss[0] else ss[0] + sep + Joined(ss[1..], sep)
  }

  /** The outermost non-empty component, the leaf's own being innermost. */
  function ComponentOf(fs: seq<Frame>, own: string): string { FirstNonEmpty(Names(fs) + [own]) }

  /** The non-empty field prefixes from the outside in, then the leaf's own path, after a slash. */
  function PathOf(fs: seq<Frame>, own: string): string {
    var path := Joined(NonEmpty(Prefixes(fs) + [own]), "/");
    if path == "" || path[0] == '/' then path else "/" + path
  }

  /** The messages from the outside in, without the leading empty ones. */
  function MessageOf(fs: seq<Frame>, own: string): string { Joined(FromFirstNonEmpty(Texts(fs)) + [own], ": ") }

  /** A component or a field wrapper makes an ordinary error a validation issue. */
  predicate Classified(fs: seq<Frame>) {
    exists i :: 0 <= i < |fs| && !fs[i].InMessage?
  }

  predicate Reportable(o: Occurrence) { o.leaf.IssueLeaf? || Classified(o.frames) }

  function Denote(o: Occurrence): Issue {
    match o.leaf
    case IssueLeaf(i) =>
      Fresh(i.severity, MessageOf(o.frames, i.message), i.code, ComponentOf(o.frames, i.component), PathOf(o.frames, i.path))
    case PlainLeaf(t) =>
      Fresh(Critical, MessageOf(o.frames, t), "", ComponentOf(o.frames, ""), PathOf(o.frames, ""))
  }

  function Denotations(os: seq<Occurrence>): seq<Issue> {
    seq(|os|, i requires 0 <= i < |os| => Denote(os[i]))
  }

  predicate AllReportable(os: seq<Occurrence>) { forall i :: 0 <= i < |os| ==> Reportable(os[i]) }

  // -------------------------------------------------------------- accumulators

  lemma {:induction false} FramesSnoc(fs: seq<Frame>, f: Frame)
    ensures Names(fs + [f]) == Names(fs) + Names([f])
    ensures Prefixes(fs + [f]) == Prefixes(fs) + Prefixes([f])
    ensures Texts(fs + [f]) == Texts(fs) + Texts([f])
  {
    if fs == [] {
      assert fs + [f] == [f];
    } else {
      assert (fs + [f])[1..] == fs[1..] + [f];
      FramesSnoc(fs[1..], f);
    }
  }

  lemma {:induction false} NonEmptySplits(a: seq<string>, b: seq<string>)
    ensures NonEmpty(a + b) == NonEmpty(a) + NonEmpty(b)
  {
    if a == [] {
      assert a + b == b;
    } else {
      assert (a + b)[1..] == a[1..] + b;
      NonEmptySplits(a[1..], b);
    }
  }

  lemma {:induction false} FromFirstSplits(a: seq<string>, b: seq<string>)
    ensures FromFirstNonEmpty(a + b) == if FromFirstNonEmpty(a) == [] then FromFirstNonEmpty(b) else FromFirstNonEmpty(a) + b
    ensures FromFirstNonEmpty(a) != [] ==> FromFirstNonEmpty(a)[0] != ""
  {
    if a == [] {
      assert a + b == b;
    } else {
      assert (a + b)[1..] == a[1..] + b;
      FromFirstSplits(a[1..], b);
    }
  }

  lemma {:induction false} JoinedSnoc(ss: seq<string>, s: string, sep: string)
    ensures Joined(ss + [s], sep) == if ss == [] then s else Joined(ss, sep) + sep + s
  {
    if |ss| == 1 {
      assert (ss + [s])[1..] == [s];
    } else if |ss| > 1 {
      assert (ss + [s])[1..] == ss[1..] + [s];
      JoinedSnoc(ss[1..], s, sep);
      assert Joined(ss + [s], sep) == ss[0] + sep + (Joined(ss[1..], sep) + sep + s);
    }
  }

  lemma {:induction false} JoinedEmptyIff(ss: seq<string>, sep: string)
    requires ss != [] ==> ss[0] != ""
    ensures Joined(ss, sep) == "" <==> ss == []
  {
  }

  lemma {:induction false} NonEmptyIsNonEmpty(ss: seq<string>)
    ensures NonEmpty(ss) != [] ==> NonEmpty(ss)[0] != ""
  {
    if ss != [] { NonEmptyIsNonEmpty(ss[1..]); }
  }

  /** The slash is added once, whether early or late. */
  lemma SlashedLate(path: string, more: string)
    requires path != ""
    ensures Slashed(Slashed(path) + more) == Slashed(path + more) && Slashed(Slashed(path)) == Slashed(path)
  {
    if path[0] != '/' { assert ("/" + path) + more == "/" + (path + more); }
  }

  lemma PathStep(fs: seq<Frame>, own: string)
    ensures PathOf(fs, own) == AppendToPrefix(PathOf(fs, ""), own)
  {
    var ps := Prefixes(fs);
    NonEmptySplits(ps, [own]);
    NonEmptySplits(ps, [""]);
    assert NonEmpty([""]) == [] && NonEmpty([own]) == if own == "" then [] else [own];
    var ns := NonEmpty(ps);
    assert NonEmpty(ps + [""]) == ns;
    NonEmptyIsNonEmpty(ps);
    JoinedEmptyIff(ns, "/");
    if own != "" && ns != [] {
      JoinedSnoc(ns, own, "/");
      SlashedLate(Joined(ns, "/"), "/" + own);
      assert Slashed(Joined(ns, "/")) + ("/" + own) == Slashed(Joined(ns, "/")) + "/" + own;
      assert Joined(ns, "/") + ("/" + own) == Joined(ns, "/") + "/" + own;
    } else if ns != [] {
      SlashedLate(Joined(ns, "/"), "");
    } else {
      assert ns + NonEmpty([own]) == NonEmpty([own]);
    }
  }

  function MessagePrefix(fs: seq<Frame>): string { Joined(FromFirstNonEmpty(Texts(fs)), ": ") }

  lemma MessageStep(fs: seq<Frame>, own: string)
    ensures MessageOf(fs, own) == AppendMessage(MessagePrefix(fs), own)
  {
    var ts := FromFirstNonEmpty(Texts(fs));
    FromFirstSplits(Texts(fs), []);
    JoinedEmptyIff(ts, ": ");
    JoinedSnoc(ts, own, ": ");
  }

  lemma ComponentStep(fs: seq<Frame>, own: string)
    ensures ComponentOf(fs, own) == OrOwn(ComponentOf(fs, ""), own)
  {
    FromFirstSplits(Names(fs), [own]);
    FromFirstSplits(Names(fs), [""]);
  }

  /** One more wrapper moves every accumulator as its case of the extraction does. */
  lemma FrameStep(fs: seq<Frame>, f: Frame)
    ensures var g := fs + [f];
      && ComponentOf(g, "") == (if f.InComponent? then OrOwn(ComponentOf(fs, ""), f.name) else ComponentOf(fs, ""))
      && PathOf(g, "") == (if f.InField? then AppendToPrefix(PathOf(fs, ""), f.prefix) else PathOf(fs, ""))
      && MessagePrefix(g) == (if f.InMessage? then AppendMessage(MessagePrefix(fs), f.text) else MessagePrefix(fs))
      && Classified(g) == (!f.InMessage? || Classified(fs))
  {
    var g := fs + [f];
    FramesSnoc(fs, f);
    assert Names(fs) + [] == Names(fs) && Prefixes(fs) + [] == Prefixes(fs) && Texts(fs) + [] == Texts(fs);
    match f
    case InComponent(n) =>
      assert g[|fs|] == f;
      assert Names([f]) == [n] && Prefixes([f]) == [] && Texts([f]) == [];
      ComponentStep(fs, n);
      FromFirstSplits(Names(fs) + [n], [""]);
      assert FromFirstNonEmpty([""]) == [];
    case InField(p) =>
      assert g[|fs|] == f;
      assert Names([f]) == [] && Prefixes([f]) == [p] && Texts([f]) == [];
      PathStep(fs, p);
      NonEmptySplits(Prefixes(fs) + [p], [""]);
      assert NonEmpty(Prefixes(g) + [""]) == NonEmpty(Prefixes(fs) + [p]);
    case InMessage(t) =>
      assert Names([f]) == [] && Prefixes([f]) == [] && Texts([f]) == [t];
      MessageStep(fs, t);
      FromFirstSplits(Texts(fs), [t]);
      assert FromFirstNonEmpty([t]) == if t == "" then [] else [t];
      JoinedSnoc(FromFirstNonEmpty(Texts(fs)), t, ": ");
      assert Classified(g) == Classified(fs) by {
        if Classified(fs) { var i :| 0 <= i < |fs| && !fs[i].InMessage?; assert g[i] == fs[i]; }
      }
  }

  // ------------------------------------------------------------- main theorem

  function Within(fs: seq<Frame>, os: seq<Occurrence>): seq<Occurrence> {
    seq(|os|, i requires 0 <= i < |os| => os[i].(frames := fs + os[i].frames))
  }

  lemma WithinUnder(fs: seq<Frame>, f: Frame, os: seq<Occurrence>)
    ensures Within(fs, Under(f, os)) == Within(fs + [f], os)
  {
    forall i | 0 <= i < |os| ensures Within(fs, Under(f, os))[i] == Within(fs + [f], os)[i] {
      assert fs + ([f] + os[i].frames) == fs + [f] + os[i].frames;
    }
  }

  predicate Agrees(x: Extraction, os: seq<Occurrence>) {
    if AllReportable(os) then x == Issues(Denotations(os)) else x.Unknown?
  }

  /** Extraction below the wrappers `fs`, whose effect the accumulators hold. */
  lemma {:induction false} ExtractMeaning(err: Error, fs: seq<Frame>)
    ensures Agrees(Extract(err, PathOf(fs, ""), ComponentOf(fs, ""), MessagePrefix(fs), Classified(fs)), Within(fs, Occurrences(err)))
    decreases err, 0
  {
    match err
    case Nil =>
    case Component(c, e) => { Descend(e, fs, InComponent(c)); }
    case Field(p, e) => { Descend(e, fs, InField(p)); }
    case Message(t, e) => { Descend(e, fs, InMessage(t)); }
    case Invalid(i) => {
      LeafFrames(fs, IssueLeaf(i));
      MessageStep(fs, i.message);
      ComponentStep(fs, i.component);
      PathStep(fs, i.path);
    }
    case Join(_, es) => { ExtractAllMeaning(es, fs); }
    case Wrap(_, e) => { ExtractMeaning(e, fs); }
    case Plain(t) => {
      LeafFrames(fs, PlainLeaf(t));
      MessageStep(fs, t);
      assert Within(fs, Occurrences(err))[0] == Occurrence(fs, PlainLeaf(t));
    }
  }

  lemma LeafFrames(fs: seq<Frame>, leaf: Leaf)
    ensures Within(fs, [Occurrence([], leaf)]) == [Occurrence(fs, leaf)]
  {
    assert fs + [] == fs;
  }

  lemma {:induction false} Descend(e: Error, fs: seq<Frame>, f: Frame)
    ensures var g := fs + [f];
      Agrees(Extract(e, PathOf(g, ""), ComponentOf(g, ""), MessagePrefix(g), Classified(g)), Within(fs, Under(f, Occurrences(e))))
    ensures var g := fs + [f];
      && ComponentOf(g, "") == (if f.InComponent? then OrOwn(ComponentOf(fs, ""), f.name) else ComponentOf(fs, ""))
      && PathOf(g, "") == (if f.InField? then AppendToPrefix(PathOf(fs, ""), f.prefix) else PathOf(fs, ""))
      && MessagePrefix(g) == (if f.InMessage? then AppendMessage(MessagePrefix(fs), f.text) else MessagePrefix(fs))
      && Classified(g) == (!f.InMessage? || Classified(fs))
    decreases e, 1
  {
    FrameStep(fs, f);
    WithinUnder(fs, f, Occurrences(e));
    ExtractMeaning(e, fs + [f]);
  }

  lemma {:induction false} ExtractAllMeaning(errs: seq<Error>, fs: seq<Frame>)
    ensures Agrees(ExtractAll(errs, PathOf(fs, ""), ComponentOf(fs, ""), MessagePrefix(fs), Classified(fs)), Within(fs, OccurrencesAll(errs)))
    decreases errs, 0
  {
    if errs != [] {
      ExtractMeaning(errs[0], fs);
      ExtractAllMeaning(errs[1..], fs);
      var a, b := Within(fs, Occurrences(errs[0])), Within(fs, OccurrencesAll(errs[1..]));
      assert Within(fs, OccurrencesAll(errs)) == a + b;
      AgreesSplits(a, b);
    }
  }

  lemma AgreesSplits(a: seq<Occurrence>, b: seq<Occurrence>)
    ensures AllReportable(a + b) <==> AllReportable(a) && AllReportable(b)
    ensures Denotations(a + b) == Denotations(a) + Denotations(b)
  {
    if AllReportable(a) && AllReportable(b) {
      forall i | 0 <= i < |a + b| ensures Reportable((a + b)[i]) { }
    }
    if AllReportable(a + b) {
      forall i | 0 <= i < |a| ensures Reportable(a[i]) { assert (a + b)[i] == a[i]; }
      forall i | 0 <= i < |b| ensures Reportable(b[i]) { assert (a + b)[|a| + i] == b[i]; }
    }
  }

  /** Extraction is the path-by-path meaning: one issue per leaf, in order, or, exactly when an
      ordinary error has no component or field wrapper above it, the original error. */
  lemma ExtractionMeaning(err: Error)
    ensures var os := Occurrences(err);
      ToValidationIssues(err) == if AllReportable(os) then Converted(Denotations(os)) else Failed(err)
  {
    var os := Occurrences(err);
    ExtractMeaning(err, []);
    assert [] + [""] == [""] && NonEmpty([""]) == [] && FromFirstNonEmpty([""]) == [];
    assert forall i :: 0 <= i < |os| ==> [] + os[i].frames == os[i].frames;
    assert Within([], os) == os;
  }
}
