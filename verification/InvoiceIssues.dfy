/** The validation issues of an invoice, merged by reporting component
    (openmeter/billing/stdinvoice.go). */
module InvoiceIssues {
  import opened Grants
  import opened ValidationIssues
  import opened IssueAlgebra

  function Without(issues: seq<Issue>, component: string): seq<Issue> {
    if issues == [] then []
    else (if issues[0].component != component then [issues[0]] else []) + Without(issues[1..], component)
  }

  function Of(issues: seq<Issue>, component: string): seq<Issue> {
    if issues == [] then []
    else (if issues[0].component == component then [issues[0]] else []) + Of(issues[1..], component)
  }

  function NewIssues(err: Error): seq<Issue> {
    var r := ToValidationIssues(err);
    if r.Converted? then r.issues else []
  }

  function Merge(issues: seq<Issue>, err: Error, component: string): seq<Issue> {
    Without(issues, component) + NewIssues(err)
  }

  method KeepOthers(issues: seq<Issue>, component: string) returns (kept: seq<Issue>)
    ensures kept == Without(issues, component)
  {
    kept := [];
    for k := 0 to |issues|
      invariant kept + Without(issues[k..], component) == Without(issues, component)
    {
      var rest := issues[k..];
      assert rest[1..] == issues[k + 1..];
      var one := if rest[0].component != component then [rest[0]] else [];
      Associative(kept, one, Without(rest[1..], component));
      kept := kept + one;
    }
  }

  class Invoice {
    var validationIssues: seq<Issue>

    /** MergeValidationIssues: the component's issues are replaced even when the error does not
        convert, and that error is handed back. */
    method MergeValidationIssues(err: Error, component: string) returns (rest: Error)
      modifies this
      ensures validationIssues == Merge(old(validationIssues), err, component)
      ensures rest == if AllReportable(Occurrences(err)) then Nil else err
    {
      var kept := KeepOthers(validationIssues, component);
      ExtractionMeaning(err);
      match ToValidationIssues(err)
      case Converted(list) => validationIssues, rest := kept + list, Nil;
      case Failed(e) => validationIssues, rest := kept, e;
    }
  }

  // ------------------------------------------------------ last writer wins

  lemma {:induction false} OfWithout(issues: seq<Issue>, c: string, d: string)
    ensures Of(Without(issues, c), d) == if c == d then [] else Of(issues, d)
  {
    if issues != [] {
      OfWithout(issues[1..], c, d);
      var r := Without(issues[1..], c);
      if issues[0].component != c { assert ([issues[0]] + r)[1..] == r; } else { assert [] + r == r; }
    }
  }

  lemma {:induction false} OfAppend(a: seq<Issue>, b: seq<Issue>, c: string, whole: seq<Issue>)
    requires whole == a + b
    ensures Of(whole, c) == Of(a, c) + Of(b, c)
  {
    if a == [] {
      assert whole == b;
    } else {
      var tail := whole[1..];
      assert tail == a[1..] + b && whole[0] == a[0];
      OfAppend(a[1..], b, c, tail);
      Associative(if a[0].component == c then [a[0]] else [], Of(a[1..], c), Of(b, c));
    }
  }

  lemma Associative(a: seq<Issue>, b: seq<Issue>, c: seq<Issue>)
    ensures (a + b) + c == a + (b + c)
  {
  }

  /** One merge, component by component. */
  lemma MergeByComponent(issues: seq<Issue>, err: Error, c: string, d: string)
    ensures Of(Merge(issues, err, c), d) == (if c == d then [] else Of(issues, d)) + Of(NewIssues(err), d)
  {
    OfAppend(Without(issues, c), NewIssues(err), d, Merge(issues, err, c));
    OfWithout(issues, c, d);
  }

  /** What one component reports: an error and the component's name. */
  datatype Call = Call(err: Error, component: string)

  function MergeAll(issues: seq<Issue>, calls: seq<Call>): seq<Issue>
    decreases |calls|
  {
    if calls == [] then issues
    else
      var n := |calls| - 1;
      Merge(MergeAll(issues, calls[..n]), calls[n].err, calls[n].component)
  }

  /** The component wraps its errors with its own non-empty name. */
  predicate Wrapped(call: Call) {
    call.component != "" && (call.err.Nil? || (call.err.Component? && call.err.component == call.component))
  }

  lemma {:induction false} OfUniform(issues: seq<Issue>, c: string, d: string)
    requires forall i :: 0 <= i < |issues| ==> issues[i].component == c
    ensures Of(issues, d) == if c == d then issues else []
  {
    if issues != [] {
      OfUniform(issues[1..], c, d);
      assert [issues[0]] + issues[1..] == issues;
    }
  }

  lemma WrappedIssues(call: Call, d: string)
    requires Wrapped(call)
    ensures ToValidationIssues(call.err).Converted?
    ensures Of(NewIssues(call.err), d) == if d == call.component then NewIssues(call.err) else []
  {
    ComponentIsTotal(call.component, if call.err.Nil? then Nil else call.err.err);
    assert call.err.Component? && call.err.err.Nil? ==> Extract(call.err.err, "", call.component, "", true) == Issues([]);
    OfUniform(NewIssues(call.err), call.component, d);
  }

  /** The last call of a component, if any. */
  function LastCall(calls: seq<Call>, d: string): Option<Call>
    decreases |calls|
  {
    if calls == [] then None
    else
      var n := |calls| - 1;
      if calls[n].component == d then Some(calls[n]) else LastCall(calls[..n], d)
  }

  /** After any sequence of merges each component's issues are those of its last merge, and a
      component that never reported keeps its issues in order. */
  lemma {:induction false} LastWriterWins(issues: seq<Issue>, calls: seq<Call>, d: string)
    requires forall i :: 0 <= i < |calls| ==> Wrapped(calls[i])
    ensures var last := LastCall(calls, d);
      Of(MergeAll(issues, calls), d) == if last.Some? then NewIssues(last.value.err) else Of(issues, d)
    decreases |calls|
  {
    if calls != [] {
      var n := |calls| - 1;
      var before := MergeAll(issues, calls[..n]);
      LastWriterWins(issues, calls[..n], d);
      MergeByComponent(before, calls[n].err, calls[n].component, d);
      WrappedIssues(calls[n], d);
    }
  }

  lemma {:induction false} WithoutAppend(a: seq<Issue>, b: seq<Issue>, c: string, whole: seq<Issue>)
    requires whole == a + b
    ensures Without(whole, c) == Without(a, c) + Without(b, c)
  {
    if a == [] {
      assert whole == b;
    } else {
      var tail := whole[1..];
      assert tail == a[1..] + b && whole[0] == a[0];
      WithoutAppend(a[1..], b, c, tail);
      Associative(if a[0].component != c then [a[0]] else [], Without(a[1..], c), Without(b, c));
    }
  }

  lemma {:induction false} WithoutSwaps(issues: seq<Issue>, c: string, d: string)
    ensures Without(Without(issues, c), d) == Without(Without(issues, d), c)
  {
    if issues != [] {
      WithoutSwaps(issues[1..], c, d);
      var p, q := Without(issues[1..], c), Without(issues[1..], d);
      assert ([issues[0]] + p)[1..] == p && ([issues[0]] + q)[1..] == q && [] + p == p && [] + q == q;
    }
  }

  lemma {:induction false} WithoutNothing(issues: seq<Issue>, c: string)
    requires Of(issues, c) == []
    ensures Without(issues, c) == issues
  {
    if issues != [] { WithoutNothing(issues[1..], c); }
  }

  lemma {:induction false} WithoutEverything(issues: seq<Issue>, c: string)
    ensures Without(issues, c) == [] <==> Of(issues, c) == issues
    ensures |Without(issues, c)| + |Of(issues, c)| == |issues|
  {
    if issues != [] { WithoutEverything(issues[1..], c); }
  }

  /** Merges of different components commute, up to the order of the issues. */
  lemma MergesCommute(issues: seq<Issue>, a: Call, b: Call)
    requires Wrapped(a) && Wrapped(b) && a.component != b.component
    ensures multiset(Merge(Merge(issues, a.err, a.component), b.err, b.component)) ==
            multiset(Merge(Merge(issues, b.err, b.component), a.err, a.component))
  {
    var x, y := NewIssues(a.err), NewIssues(b.err);
    WrappedIssues(a, b.component);
    WrappedIssues(b, a.component);
    WithoutNothing(x, b.component);
    WithoutNothing(y, a.component);
    WithoutAppend(Without(issues, a.component), x, b.component, Merge(issues, a.err, a.component));
    WithoutAppend(Without(issues, b.component), y, a.component, Merge(issues, b.err, b.component));
    WithoutSwaps(issues, a.component, b.component);
    var w := Without(Without(issues, a.component), b.component);
    assert Merge(Merge(issues, a.err, a.component), b.err, b.component) == (w + x) + y;
    assert Merge(Merge(issues, b.err, b.component), a.err, a.component) == (w + y) + x;
    Swapped(w, x, y);
  }

  lemma Swapped(w: seq<Issue>, x: seq<Issue>, y: seq<Issue>)
    ensures multiset((w + x) + y) == multiset((w + y) + x)
  {
  }

  lemma MergedTwice(issues: seq<Issue>, err: Error, c: string, kept: seq<Issue>, x: seq<Issue>)
    requires kept == Without(issues, c) && x == NewIssues(err)
    ensures Merge(issues, err, c) == kept + x
    ensures Merge(Merge(issues, err, c), err, c) == kept + Without(x, c) + x
  {
    OfWithout(issues, c, c);
    WithoutNothing(kept, c);
    WithoutAppend(kept, x, c, kept + x);
  }

  lemma UniformIff(x: seq<Issue>, c: string)
    ensures Without(x, c) == [] <==> forall i :: 0 <= i < |x| ==> x[i].component == c
  {
    WithoutEverything(x, c);
    if Without(x, c) == [] { AllOf(x, c); }
    if forall i :: 0 <= i < |x| ==> x[i].component == c { OfUniform(x, c, c); }
  }

  /** Reporting the same error twice changes nothing exactly when every issue in it carries
      the reporting component. */
  lemma MergeTwiceIff(issues: seq<Issue>, err: Error, c: string)
    ensures Merge(Merge(issues, err, c), err, c) == Merge(issues, err, c) <==>
            forall i :: 0 <= i < |NewIssues(err)| ==> NewIssues(err)[i].component == c
  {
    var kept, x := Without(issues, c), NewIssues(err);
    MergedTwice(issues, err, c, kept, x);
    UniformIff(x, c);
    if Without(x, c) == [] {
      assert kept + [] == kept;
    } else {
      assert |kept + Without(x, c) + x| > |kept + x|;
    }
  }

  lemma {:induction false} AllOf(issues: seq<Issue>, c: string)
    requires Of(issues, c) == issues
    ensures forall i :: 0 <= i < |issues| ==> issues[i].component == c
  {
    if issues != [] {
      WithoutEverything(issues[1..], c);
      AllOf(issues[1..], c);
    }
  }
}
