/** The text form of currency references (openmeter/currencies/currency.go, pkg/currencyx).
    Strings are byte strings. */
module Currencies {
  import opened Grants

  // ------------------------------------------------------------- references

  const DELIMITER := '|'

  /** The fiat definitions known to the process: whether each has an ISO number. */
  type Registry = m: map<string, bool> | forall code :: code in m ==> DELIMITER !in code

  datatype Kind = Fiat | Custom

  datatype Details = Details(kind: Kind, code: string, name: string, precision: nat)

  /** A currency with its managed id; the definition may be missing. */
  datatype Currency = Currency(id: string, details: Option<Details>)

  datatype CurrencyReference = CurrencyReference(code: string, id: Option<string>, resolved: Option<Currency>)

  const MAX_PRECISION := 12
  const MAX_UINT32 := 0xFFFF_FFFF

  predicate IsFiat(code: string) { |code| == 3 }

  predicate IsSpace(c: char) { c == ' ' || '\t' <= c <= '\r' }

  predicate Untrimmed(s: string) { s != "" && (IsSpace(s[0]) || IsSpace(s[|s| - 1])) }

  predicate ValidFiatCode(reg: Registry, code: string) { |code| == 3 && code in reg && reg[code] }

  predicate ValidCustomCode(reg: Registry, code: string) {
    !Untrimmed(code) && DELIMITER !in code && code !in reg && 4 <= |code| <= 24
  }

  predicate ValidCode(reg: Registry, code: string) {
    if IsFiat(code) then ValidFiatCode(reg, code) else ValidCustomCode(reg, code)
  }

  predicate ValidDetails(reg: Registry, d: Details) {
    && d.name != ""
    && match d.kind
       case Fiat => ValidFiatCode(reg, d.code)
       case Custom => ValidCustomCode(reg, d.code) && d.precision <= MAX_PRECISION
  }

  predicate ValidCurrency(reg: Registry, c: Currency) {
    && c.details.Some? && ValidDetails(reg, c.details.value)
    && (c.details.value.kind.Custom? ==> c.id != "")
  }

  predicate Valid(reg: Registry, r: CurrencyReference) {
    && ValidCode(reg, r.code)
    && (IsFiat(r.code) ==> r.id.None?)
    && (r.resolved.Some? ==>
          && ValidCurrency(reg, r.resolved.value)
          && r.code == r.resolved.value.details.value.code
          && (!IsFiat(r.code) ==> r.id == Some(r.resolved.value.id)))
  }

  function IdOrEmpty(id: Option<string>): string { if id.Some? then id.value else "" }

  predicate Equal(a: CurrencyReference, b: CurrencyReference) {
    a.code == b.code && IdOrEmpty(a.id) == IdOrEmpty(b.id)
  }

  // ----------------------------------------------------------------- numbers

  function Digit(n: nat): char requires n < 10 { '0' + n as char }

  function FormatUint(n: nat): (s: string)
    ensures s != ""
  {
    if n < 10 then [Digit(n)] else FormatUint(n / 10) + [Digit(n % 10)]
  }

  predicate AllDigits(s: string) { forall i :: 0 <= i < |s| ==> '0' <= s[i] <= '9' }

  function Value(s: string): nat
    requires AllDigits(s)
  {
    if s == "" then 0 else Value(s[..|s| - 1]) * 10 + (s[|s| - 1] - '0') as nat
  }

  /** strconv.ParseUint(s, 10, 32). */
  function ParseUint(s: string): Option<nat> {
    if s == "" || !AllDigits(s) || Value(s) > MAX_UINT32 then None else Some(Value(s))
  }

  lemma {:induction false} FormatParses(n: nat)
    ensures AllDigits(FormatUint(n)) && Value(FormatUint(n)) == n
  {
    if n < 10 {
      assert FormatUint(n)[..0] == "";
    } else {
      FormatParses(n / 10);
      var s, p := FormatUint(n), FormatUint(n / 10);
      assert s[..|s| - 1] == p;
      forall i | 0 <= i < |s| ensures '0' <= s[i] <= '9' { if i < |p| { assert s[i] == p[i]; } }
    }
  }

  // --------------------------------------------------------------- segments

  function JoinSegments(segments: seq<string>): string {
    if segments == [] then ""
    else if |segments| == 1 then segments[0]
    else segments[0] + [DELIMITER] + JoinSegments(segments[1..])
  }

  /** strings.Split. */
  function Split(s: string): (r: seq<string>)
    ensures |r| >= 1
  {
    if s == "" then [""]
    else
      var r := Split(s[1..]);
      if s[0] == DELIMITER then [""] + r else [[s[0]] + r[0]] + r[1..]
  }

  predicate Plain(s: string) { DELIMITER !in s }

  predicate AllPlain(segments: seq<string>) { forall i :: 0 <= i < |segments| ==> Plain(segments[i]) }

  lemma {:induction false} SplitPlain(s: string)
    requires Plain(s)
    ensures Split(s) == [s]
  {
    if s != "" {
      assert s == [s[0]] + s[1..];
      SplitPlain(s[1..]);
      assert [s[0]] + s[1..] == s;
    }
  }

  lemma {:induction false} SplitFirst(a: string, rest: string)
    requires Plain(a)
    ensures Split(a + [DELIMITER] + rest) == [a] + Split(rest)
  {
    var s := a + [DELIMITER] + rest;
    if a == "" {
      assert s[1..] == rest;
    } else {
      assert a == [a[0]] + a[1..];
      assert s[1..] == a[1..] + [DELIMITER] + rest;
      SplitFirst(a[1..], rest);
      assert [s[0]] + a[1..] == a;
    }
  }

  /** Splitting undoes joining segments without delimiters. */
  lemma {:induction false} SplitJoined(segments: seq<string>)
    requires segments != [] && AllPlain(segments)
    ensures Split(JoinSegments(segments)) == segments
  {
    if |segments| == 1 {
      SplitPlain(segments[0]);
    } else {
      SplitFirst(segments[0], JoinSegments(segments[1..]));
      SplitJoined(segments[1..]);
    }
  }

  /** Joining undoes splitting. */
  lemma {:induction false} JoinSplit(s: string)
    ensures JoinSegments(Split(s)) == s && AllPlain(Split(s))
  {
    if s != "" {
      JoinSplit(s[1..]);
      var r := Split(s[1..]);
      if s[0] == DELIMITER {
        assert ([""] + r)[1..] == r;
        assert [DELIMITER] + s[1..] == s;
      } else {
        var t := [[s[0]] + r[0]] + r[1..];
        assert t[1..] == r[1..];
        if |r| > 1 { assert JoinSegments(t) == [s[0]] + (r[0] + [DELIMITER] + JoinSegments(r[1..])); }
        assert [s[0]] + s[1..] == s;
        assert Plain(r[0]);
        forall i | 0 <= i < |t| ensures Plain(t[i]) { if i > 0 { assert t[i] == r[i]; } }
      }
    }
  }

  lemma {:induction false} SplitCount(a: string, b: string)
    ensures |Split(a + b)| == |Split(a)| + |Split(b)| - 1
  {
    if a == "" {
      assert a + b == b;
    } else {
      assert (a + b)[1..] == a[1..] + b;
      SplitCount(a[1..], b);
    }
  }

  lemma {:induction false} SplitCountPlainIff(s: string)
    ensures |Split(s)| == 1 <==> Plain(s)
  {
    if s != "" {
      SplitCountPlainIff(s[1..]);
      assert Plain(s) <==> s[0] != DELIMITER && Plain(s[1..]) by { assert s == [s[0]] + s[1..]; }
    }
  }

  // ------------------------------------------------------------------ codec

  function CustomText(code: string, id: string, precision: string): string {
    JoinSegments(["custom", "v1", code, id, precision])
  }

  function MarshalText(reg: Registry, r: CurrencyReference): Result<string> {
    if !Valid(reg, r) then Err
    else if IsFiat(r.code) then Ok(r.code)
    else if r.id.None? || r.resolved.None? then Err
    else Ok(CustomText(r.code, r.id.value, FormatUint(r.resolved.value.details.value.precision)))
  }

  function MarshalTextPrefix(reg: Registry, r: CurrencyReference): Result<string> {
    if !Valid(reg, r) then Err
    else if IsFiat(r.code) then Ok(r.code)
    else Ok(JoinSegments(["custom", "v1", r.code] + (if r.id.Some? then [r.id.value] else [])) + [DELIMITER])
  }

  /** The custom currency snapshot a stored text stands for. */
  function Restored(code: string, id: string, precision: nat): CurrencyReference {
    CurrencyReference(code, Some(id), Some(Currency(id, Some(Details(Custom, code, code, precision)))))
  }

  /** What UnmarshalText replaces its receiver with. */
  function Parse(reg: Registry, text: string): Result<CurrencyReference> {
    var segments := Split(text);
    if |segments| == 1 then
      var r := CurrencyReference(text, None, None);
      if Valid(reg, r) && IsFiat(text) then Ok(r) else Err
    else if |segments| != 5 || segments[0] != "custom" || segments[1] != "v1" then Err
    else if IsFiat(segments[2]) || segments[3] == "" then Err
    else
      var precision := ParseUint(segments[4]);
      if precision.None? then Err
      else
        var r := Restored(segments[2], segments[3], precision.value);
        if ValidDetails(reg, r.resolved.value.details.value) then Ok(r) else Err
  }

  class Receiver {
    var reference: CurrencyReference

    constructor (r: CurrencyReference)
      ensures reference == r
    {
      reference := r;
    }

    /** UnmarshalText: the receiver changes only after the whole text has been validated. */
    method UnmarshalText(reg: Registry, text: string) returns (ok: bool)
      modifies this
      ensures ok == Parse(reg, text).Ok?
      ensures reference == if ok then Parse(reg, text).value else old(reference)
    {
      var segments := Split(text);
      if |segments| == 1 {
        var r := CurrencyReference(text, None, None);
        if !Valid(reg, r) || !IsFiat(text) { return false; }
        reference := r;
        return true;
      }
      if |segments| != 5 || segments[0] != "custom" { return false; }
      if segments[1] != "v1" { return false; }
      var code := segments[2];
      if IsFiat(code) { return false; }
      if segments[3] == "" { return false; }
      var precision := ParseUint(segments[4]);
      if precision.None? { return false; }
      var details := Details(Custom, code, code, precision.value);
      if !ValidDetails(reg, details) { return false; }
      reference := CurrencyReference(code, Some(segments[3]), Some(Currency(segments[3], Some(details))));
      return true;
    }
  }

  // -------------------------------------------------------------- round trips

  function Precision(r: CurrencyReference): nat
    requires r.resolved.Some? && r.resolved.value.details.Some?
  {
    r.resolved.value.details.value.precision
  }

  lemma PlainParts()
    ensures Plain("custom") && Plain("v1")
  {
  }

  lemma DigitsArePlain(n: nat)
    ensures Plain(FormatUint(n))
  {
    FormatParses(n);
  }

  function Head(): string { "custom|v1|" }

  lemma CustomTextShape(code: string, id: string, p: string)
    ensures CustomText(code, id, p) == Head() + code + [DELIMITER] + (id + [DELIMITER] + p)
  {
    assert ["custom", "v1", code, id, p][1..] == ["v1", code, id, p] && ["v1", code, id, p][1..] == [code, id, p];
    assert [code, id, p][1..] == [id, p] && [id, p][1..] == [p];
    assert JoinSegments([id, p]) == id + [DELIMITER] + p;
    assert JoinSegments([code, id, p]) == code + [DELIMITER] + (id + [DELIMITER] + p);
    assert JoinSegments(["v1", code, id, p]) == "v1" + [DELIMITER] + JoinSegments([code, id, p]);
    assert "custom" + [DELIMITER] + ("v1" + [DELIMITER] + JoinSegments([code, id, p])) == Head() + JoinSegments([code, id, p]);
    assert Head() + (code + [DELIMITER] + (id + [DELIMITER] + p)) == Head() + code + [DELIMITER] + (id + [DELIMITER] + p);
  }

  lemma PlainSegments(code: string, id: string, p: string)
    requires Plain(code) && Plain(id) && Plain(p)
    ensures Split(CustomText(code, id, p)) == ["custom", "v1", code, id, p]
  {
    PlainParts();
    SplitJoined(["custom", "v1", code, id, p]);
  }

  /** A delimiter in the id makes too many segments. */
  lemma TooManySegments(code: string, id: string, p: string)
    requires Plain(code) && !Plain(id)
    ensures |Split(CustomText(code, id, p))| > 5
  {
    PlainParts();
    var front, rest := ["custom", "v1", code, ""], id + [DELIMITER] + p;
    SplitJoined(front);
    FrontShape(code);
    CustomTextShape(code, id, p);
    SplitCount(JoinSegments(front), rest);
    assert rest == id + ([DELIMITER] + p);
    SplitCount(id, [DELIMITER] + p);
    SplitCountPlainIff(id);
    SplitFirst("", p);
    assert "" + [DELIMITER] + p == [DELIMITER] + p;
  }

  lemma FrontShape(code: string)
    ensures JoinSegments(["custom", "v1", code, ""]) == Head() + code + [DELIMITER]
  {
    assert ["custom", "v1", code, ""][1..] == ["v1", code, ""] && ["v1", code, ""][1..] == [code, ""] && [code, ""][1..] == [""];
    assert JoinSegments([code, ""]) == code + [DELIMITER] + "";
    assert JoinSegments(["v1", code, ""]) == "v1" + [DELIMITER] + (code + [DELIMITER] + "");
    assert "custom" + [DELIMITER] + ("v1" + [DELIMITER] + (code + [DELIMITER] + "")) == Head() + code + [DELIMITER];
  }

  lemma CustomSegments(code: string, id: string, n: nat)
    requires Plain(code)
    ensures Plain(id) ==> Split(CustomText(code, id, FormatUint(n))) == ["custom", "v1", code, id, FormatUint(n)]
    ensures !Plain(id) ==> |Split(CustomText(code, id, FormatUint(n)))| > 5
  {
    DigitsArePlain(n);
    if Plain(id) { PlainSegments(code, id, FormatUint(n)); } else { TooManySegments(code, id, FormatUint(n)); }
  }

  /** Reading back what was written gives an equal reference with the same precision, exactly
      when the id does not contain the delimiter; otherwise the text does not parse. */
  lemma RoundTripIff(reg: Registry, r: CurrencyReference)
    requires MarshalText(reg, r).Ok?
    ensures var back := Parse(reg, MarshalText(reg, r).value);
      && (back.Ok? <==> IsFiat(r.code) || Plain(r.id.value))
      && (back.Ok? ==> Valid(reg, back.value) && Equal(back.value, r))
      && (back.Ok? && !IsFiat(r.code) ==> back.value.resolved.Some? && Precision(back.value) == Precision(r) && back.value.resolved.value.id == r.resolved.value.id)
  {
    if IsFiat(r.code) {
      SplitPlain(r.code);
    } else {
      CustomSegments(r.code, r.id.value, Precision(r));
      FormatParses(Precision(r));
    }
  }

  /** Reading accepts exactly three-letter fiat codes and well-formed custom snapshots. */
  lemma ParsedForm(reg: Registry, text: string)
    requires Parse(reg, text).Ok?
    ensures var r := Parse(reg, text).value;
      && Valid(reg, r)
      && (IsFiat(r.code) ==> text == r.code && r == CurrencyReference(text, None, None))
      && (!IsFiat(r.code) ==>
            var segments := Split(text);
            && |segments| == 5 && r == Restored(segments[2], segments[3], Precision(r))
            && ParseUint(segments[4]) == Some(Precision(r)) && Plain(r.code) && Plain(r.id.value)
            && text == CustomText(r.code, r.id.value, segments[4]))
  {
    JoinSplit(text);
    var segments := Split(text);
    if |segments| == 5 { assert segments == ["custom", "v1", segments[2], segments[3], segments[4]]; }
  }

  /** Only the last segment decides whether printing changes a custom text. */
  lemma SameCustomText(code: string, id: string, p: string, q: string)
    ensures CustomText(code, id, p) == CustomText(code, id, q) <==> p == q
    ensures |CustomText(code, id, p)| > 3
  {
    CustomTextShape(code, id, p);
    CustomTextShape(code, id, q);
    var h := Head() + code + [DELIMITER];
    var x, y := id + [DELIMITER] + p, id + [DELIMITER] + q;
    if h + x == h + y {
      assert (h + x)[|h|..] == x && (h + y)[|h|..] == y;
      assert x[|id| + 1..] == p && y[|id| + 1..] == q;
    }
  }

  /** Equal references have the same code and the same id, where a missing id is as good as an empty one. */
  lemma EqualIff(a: CurrencyReference, b: CurrencyReference)
    ensures Equal(a, b) <==> a.code == b.code && (a.id == b.id || (a.id in {None, Some("")} && b.id in {None, Some("")}))
  {
  }

  predicate Blank(c: char) { c == ' ' || 9 <= c as int <= 13 }

  /** A custom code: 4 to 24 bytes without delimiters, not a registered fiat code, and with no blank at
      either end. */
  predicate CustomCode(reg: Registry, code: string) {
    4 <= |code| <= 24 && '|' !in code && code !in reg && !Blank(code[0]) && !Blank(code[|code| - 1])
  }

  /** Which references can be written: fiat codes without an id, and resolved custom references whose
      id is that of the resolved currency. */
  lemma MarshalsIff(reg: Registry, r: CurrencyReference)
    ensures MarshalText(reg, r).Ok? <==>
      if |r.code| == 3 then
        && r.code in reg && reg[r.code] && r.id.None?
        && (r.resolved.Some? ==>
             r.resolved.value.details.Some? && var d := r.resolved.value.details.value;
             d.kind.Fiat? && d.code == r.code && d.name != "")
      else
        && CustomCode(reg, r.code) && r.resolved.Some? && r.id == Some(r.resolved.value.id) && r.id != Some("")
        && r.resolved.value.details.Some? && var d := r.resolved.value.details.value;
           d.kind.Custom? && d.code == r.code && d.name != "" && d.precision <= 12
  {
  }

  predicate CustomSnapshot(reg: Registry, text: string, code: string, id: string, p: string) {
    && text == "custom|v1|" + code + "|" + (id + "|" + p)
    && CustomCode(reg, code) && id != "" && '|' !in id && p != "" && AllDigits(p) && Value(p) <= 12
  }

  lemma SnapshotParses(reg: Registry, text: string, code: string, id: string, p: string)
    requires CustomSnapshot(reg, text, code, id, p)
    ensures Parse(reg, text).Ok?
  {
    CustomTextShape(code, id, p);
    assert forall i :: 0 <= i < |p| ==> p[i] != DELIMITER;
    PlainSegments(code, id, p);
  }

  /** Which texts can be read: registered fiat codes, and custom snapshots of a code, an id and a
      precision of at most twelve. */
  lemma ParsesIff(reg: Registry, text: string)
    ensures Parse(reg, text).Ok? <==>
      (|text| == 3 && text in reg && reg[text]) || exists code, id, p :: CustomSnapshot(reg, text, code, id, p)
  {
    if Parse(reg, text).Ok? {
      ParsedForm(reg, text);
      var r := Parse(reg, text).value;
      if !IsFiat(r.code) {
        var segments := Split(text);
        CustomTextShape(r.code, r.id.value, segments[4]);
        assert CustomSnapshot(reg, text, r.code, r.id.value, segments[4]);
      }
    }
    if |text| == 3 && text in reg && reg[text] { SplitPlain(text); }
    if code, id, p :| CustomSnapshot(reg, text, code, id, p) { SnapshotParses(reg, text, code, id, p); }
  }

  /** Printing what was read gives a text that reads the same and prints to itself; it is the
      original text exactly when that is a fiat code or has a precision without leading zeros. */
  lemma PrintedTextIsNormal(reg: Registry, text: string)
    requires Parse(reg, text).Ok?
    ensures var r := Parse(reg, text).value;
      && MarshalText(reg, r).Ok?
      && Parse(reg, MarshalText(reg, r).value) == Ok(r)
      && (MarshalText(reg, r).value == text <==>
            IsFiat(text) || var p := Split(text)[|Split(text)| - 1]; |p| == 1 || p[0] != '0')
  {
    ParsedForm(reg, text);
    var r := Parse(reg, text).value;
    if IsFiat(r.code) {
      SplitPlain(r.code);
    } else {
      var p, q := Split(text)[4], FormatUint(Precision(r));
      CustomSegments(r.code, r.id.value, Precision(r));
      FormatParses(Precision(r));
      NoLeadingZeroIff(p);
      SameCustomText(r.code, r.id.value, q, p);
      SameCustomText(r.code, r.id.value, p, q);
    }
  }

  lemma {:induction false} FormatHead(n: nat)
    ensures FormatUint(n)[0] == '0' <==> n == 0
  {
    if n >= 10 { FormatHead(n / 10); }
  }

  /** Digits are printed back unchanged exactly when they have no leading zero. */
  lemma {:induction false} NoLeadingZeroIff(s: string)
    requires s != "" && AllDigits(s)
    ensures FormatUint(Value(s)) == s <==> |s| == 1 || s[0] != '0'
  {
    var n := |s| - 1;
    var v, d := Value(s[..n]), (s[n] - '0') as nat;
    if n == 0 {
      assert Value("") == 0;
    } else {
      NoLeadingZeroIff(s[..n]);
      FormatHead(v);
      FormatHead(Value(s));
      assert Value(s) / 10 == v && Value(s) % 10 == d;
      if s[0] != '0' {
        PositiveValue(s[..n]);
        assert s == s[..n] + [Digit(d)];
      }
    }
  }

  lemma {:induction false} PositiveValue(s: string)
    requires s != "" && AllDigits(s) && s[0] != '0'
    ensures Value(s) > 0
  {
    if |s| > 1 { PositiveValue(s[..|s| - 1]); }
  }

  // ------------------------------------------------------------- injectivity

  lemma FirstSeparator(d: char, a: string, x: string, b: string, y: string)
    requires d !in a && d !in b && a + [d] + x == b + [d] + y
    ensures a == b && x == y
  {
    var s, t := a + [d] + x, b + [d] + y;
    assert s[|a|] == d && t[|b|] == d;
    assert forall i :: 0 <= i < |a| ==> s[i] == a[i];
    assert forall i :: 0 <= i < |b| ==> t[i] == b[i];
    assert s[..|a|] == a && t[..|b|] == b && s[|a| + 1..] == x && t[|b| + 1..] == y;
  }

  lemma LastSeparator(d: char, a: string, x: string, b: string, y: string)
    requires d !in x && d !in y && a + [d] + x == b + [d] + y
    ensures a == b && x == y
  {
    var s, t := a + [d] + x, b + [d] + y;
    assert s[|a|] == d && t[|b|] == d;
    assert forall i :: |a| < i < |s| ==> s[i] == x[i - |a| - 1];
    assert forall i :: |b| < i < |t| ==> t[i] == y[i - |b| - 1];
    assert s[..|a|] == a && t[..|b|] == b && s[|a| + 1..] == x && t[|b| + 1..] == y;
  }

  /** References with the same text have the same code, id and precision, whatever the ids contain. */
  lemma MarshalIsInjective(reg: Registry, a: CurrencyReference, b: CurrencyReference)
    requires MarshalText(reg, a).Ok? && MarshalText(reg, a) == MarshalText(reg, b)
    ensures a.code == b.code && a.id == b.id && (IsFiat(a.code) || Precision(a) == Precision(b))
  {
    if !IsFiat(a.code) { CustomTextShape(a.code, a.id.value, FormatUint(Precision(a))); }
    if !IsFiat(b.code) { CustomTextShape(b.code, b.id.value, FormatUint(Precision(b))); }
    if !IsFiat(a.code) && !IsFiat(b.code) {
      var p, q := FormatUint(Precision(a)), FormatUint(Precision(b));
      var x, y := a.id.value + [DELIMITER] + p, b.id.value + [DELIMITER] + q;
      var s, t := a.code + [DELIMITER] + x, b.code + [DELIMITER] + y;
      assert Head() + a.code + [DELIMITER] + x == Head() + s && Head() + b.code + [DELIMITER] + y == Head() + t;
      assert (Head() + s)[10..] == s && (Head() + t)[10..] == t;
      FirstSeparator(DELIMITER, a.code, x, b.code, y);
      DigitsArePlain(Precision(a));
      DigitsArePlain(Precision(b));
      LastSeparator(DELIMITER, a.id.value, p, b.id.value, q);
      FormatParses(Precision(a));
      FormatParses(Precision(b));
    }
  }

  // ------------------------------------------------------------------ filters

  lemma PrefixShape(code: string, id: string)
    ensures JoinSegments(["custom", "v1", code]) + [DELIMITER] == Head() + code + [DELIMITER]
    ensures JoinSegments(["custom", "v1", code, id]) + [DELIMITER] == Head() + code + [DELIMITER] + (id + [DELIMITER])
  {
    assert ["custom", "v1", code, id][1..] == ["v1", code, id] && ["v1", code, id][1..] == [code, id] && [code, id][1..] == [id];
    assert ["custom", "v1", code][1..] == ["v1", code] && ["v1", code][1..] == [code];
    assert JoinSegments(["v1", code]) == "v1" + [DELIMITER] + code;
    assert "custom" + [DELIMITER] + ("v1" + [DELIMITER] + code) == Head() + code;
    assert JoinSegments(["v1", code, id]) == "v1" + [DELIMITER] + JoinSegments([code, id]);
    assert JoinSegments([code, id]) == code + [DELIMITER] + id;
    assert "custom" + [DELIMITER] + ("v1" + [DELIMITER] + JoinSegments([code, id])) == Head() + code + [DELIMITER] + id;
  }

  lemma PrefixOfCode(a: string, x: string, b: string, y: string)
    requires Plain(a) && Plain(b)
    ensures a + [DELIMITER] + x <= b + [DELIMITER] + y <==> a == b && x <= y
  {
    var s, t := a + [DELIMITER] + x, b + [DELIMITER] + y;
    if s <= t {
      var rest := t[|s|..];
      assert t == s + rest == a + [DELIMITER] + (x + rest);
      FirstSeparator(DELIMITER, a, x + rest, b, y);
    }
    if a == b && x <= y { assert t == s + y[|x|..]; }
  }

  lemma PrefixOfId(a: string, b: string, p: string)
    requires Plain(p)
    ensures a + [DELIMITER] <= b + [DELIMITER] + p <==> a == b || a + [DELIMITER] <= b
  {
    var s, t := a + [DELIMITER], b + [DELIMITER] + p;
    assert t[..|b|] == b && t[|b|] == DELIMITER;
    assert forall i :: |b| < i < |t| ==> t[i] == p[i - |b| - 1];
    if s <= t {
      assert t[|a|] == DELIMITER && t[..|a|] == a;
      if |a| < |b| { assert t[..|a| + 1] == s; assert b[..|a| + 1] == s; }
    }
    if a == b { assert t == s + p; }
    if s <= b { assert t == s + (b[|s|..] + [DELIMITER] + p); }
  }

  /** The storage prefix of a custom filter selects exactly the stored references with its code
      and, if it has one, its id or an id that continues it after a delimiter: a code or an id that
      merely starts the same is not caught. */
  lemma FilterSelectsIff(reg: Registry, filter: CurrencyReference, stored: CurrencyReference)
    requires Valid(reg, filter) && !IsFiat(filter.code) && MarshalText(reg, stored).Ok?
    ensures MarshalTextPrefix(reg, filter).value <= MarshalText(reg, stored).value <==>
            filter.code == stored.code &&
            (filter.id.None? || filter.id == stored.id || filter.id.value + [DELIMITER] <= stored.id.value)
  {
    var prefix := MarshalTextPrefix(reg, filter).value;
    PrefixShape(filter.code, IdOrEmpty(filter.id));
    var x := if filter.id.Some? then filter.id.value + [DELIMITER] else "";
    var s := filter.code + [DELIMITER] + x;
    assert ["custom", "v1", filter.code] + [] == ["custom", "v1", filter.code];
    assert ["custom", "v1", filter.code] + [IdOrEmpty(filter.id)] == ["custom", "v1", filter.code, IdOrEmpty(filter.id)];
    assert prefix == Head() + s;
    if !IsFiat(stored.code) {
      var p := FormatUint(Precision(stored));
      var y := stored.id.value + [DELIMITER] + p;
      var t := stored.code + [DELIMITER] + y;
      CustomTextShape(stored.code, stored.id.value, p);
      assert Head() + stored.code + [DELIMITER] + y == Head() + t;
      PrependKeepsPrefix(Head(), s, t);
      PrefixOfCode(filter.code, x, stored.code, y);
      DigitsArePlain(Precision(stored));
      if filter.id.Some? { PrefixOfId(filter.id.value, stored.id.value, p); }
    }
  }

  /** A fiat filter is the code itself: it selects the stored references of that code, and all custom
      ones if its code happens to be "cus". */
  lemma FiatFilterSelectsIff(reg: Registry, filter: CurrencyReference, stored: CurrencyReference)
    requires Valid(reg, filter) && IsFiat(filter.code) && MarshalText(reg, stored).Ok?
    ensures MarshalTextPrefix(reg, filter) == Ok(filter.code)
    ensures MarshalTextPrefix(reg, filter).value <= MarshalText(reg, stored).value <==>
            filter.code == stored.code || (!IsFiat(stored.code) && filter.code == "cus")
  {
    if !IsFiat(stored.code) {
      var text := MarshalText(reg, stored).value;
      CustomTextShape(stored.code, stored.id.value, FormatUint(Precision(stored)));
      SameCustomText(stored.code, stored.id.value, FormatUint(Precision(stored)), "");
      assert text[0] == 'c' && text[1] == 'u' && text[2] == 's';
      assert filter.code == [filter.code[0], filter.code[1], filter.code[2]];
    }
  }

  /** A filter for id "a" also selects what was stored for id "a|b". */
  lemma FilterOverselects(reg: Registry)
    requires "CODE" !in reg
    ensures var filter := CurrencyReference("CODE", Some("a"), None);
      var stored := CurrencyReference("CODE", Some("a|b"), Some(Currency("a|b", Some(Details(Custom, "CODE", "n", 0)))));
      && Valid(reg, filter) && MarshalText(reg, stored).Ok? && !Equal(filter, stored)
      && MarshalTextPrefix(reg, filter).value <= MarshalText(reg, stored).value
  {
    var filter := CurrencyReference("CODE", Some("a"), None);
    var stored := CurrencyReference("CODE", Some("a|b"), Some(Currency("a|b", Some(Details(Custom, "CODE", "n", 0)))));
    assert "a" + [DELIMITER] <= "a|b";
    FilterSelectsIff(reg, filter, stored);
  }

  lemma PrependKeepsPrefix(h: string, s: string, t: string)
    ensures h + s <= h + t <==> s <= t
  {
    if h + s <= h + t {
      assert forall i :: 0 <= i < |s| ==> s[i] == (h + s)[|h| + i] && t[i] == (h + t)[|h| + i];
    }
  }

  // ----------------------------------------------------------------- identity

  function IdentityKey(r: CurrencyReference): string {
    if r.id.Some? then "CUSTOM:" + r.code + ":" + r.id.value else "FIAT:" + r.code
  }

  /** The same text, cut into code and id at an earlier colon by `a` than by `b`. */
  predicate CutEarlier(a: CurrencyReference, b: CurrencyReference, u: string) {
    a.id.Some? && b.id.Some? && b.code == a.code + ":" + u && a.id.value == u + ":" + b.id.value
  }

  lemma CutEarlierIff(c: string, i: string, d: string, j: string)
    requires |c| < |d|
    ensures c + ":" + i == d + ":" + j <==> exists u :: d == c + ":" + u && i == u + ":" + j
  {
    var s, t := c + ":" + i, d + ":" + j;
    if s == t {
      var u := d[|c| + 1..];
      assert t[..|d|] == d && s[|c|] == ':' && t[|d|] == ':';
      assert s[..|c|] == c && d[..|c|] == t[..|c|] && d[|c|] == s[|c|];
      assert d == c + ":" + u;
      assert i == s[|c| + 1..] && t[|c| + 1..] == u + ":" + j;
    }
    if u :| d == c + ":" + u && i == u + ":" + j {
      assert s == c + ":" + (u + ":" + j) == t;
    }
  }

  /** References share a key exactly if they have the same code and id, or one code continues the
      other, with a colon, into what is the other's id. Codes without colons do not collide. */
  lemma IdentityKeyIff(a: CurrencyReference, b: CurrencyReference)
    ensures IdentityKey(a) == IdentityKey(b) <==>
            (a.code == b.code && a.id == b.id) || exists u :: CutEarlier(a, b, u) || CutEarlier(b, a, u)
    ensures ':' !in a.code && ':' !in b.code ==> (IdentityKey(a) == IdentityKey(b) <==> a.code == b.code && a.id == b.id)
  {
    var k, l := IdentityKey(a), IdentityKey(b);
    if a.id.Some? && b.id.Some? {
      var s, t := a.code + ":" + a.id.value, b.code + ":" + b.id.value;
      assert k == "CUSTOM:" + s && l == "CUSTOM:" + t;
      assert k[7..] == s && l[7..] == t;
      CutsIff(a, b);
      if u :| CutEarlier(a, b, u) || CutEarlier(b, a, u) {
        assert CutEarlier(a, b, u) ==> b.code[|a.code|] == ':';
        assert CutEarlier(b, a, u) ==> a.code[|b.code|] == ':';
      }
    } else if a.id.None? && b.id.None? {
      assert k[5..] == a.code && l[5..] == b.code;
    } else {
      assert k[0] != l[0];
    }
  }

  lemma CutsIff(a: CurrencyReference, b: CurrencyReference)
    requires a.id.Some? && b.id.Some?
    ensures a.code + ":" + a.id.value == b.code + ":" + b.id.value <==>
            (a.code == b.code && a.id == b.id) || exists u :: CutEarlier(a, b, u) || CutEarlier(b, a, u)
  {
    var s, t := a.code + ":" + a.id.value, b.code + ":" + b.id.value;
    if |a.code| < |b.code| {
      CutEarlierIff(a.code, a.id.value, b.code, b.id.value);
      if s == t { var u :| b.code == a.code + ":" + u && a.id.value == u + ":" + b.id.value; assert CutEarlier(a, b, u); }
    } else if |b.code| < |a.code| {
      CutEarlierIff(b.code, b.id.value, a.code, a.id.value);
      if s == t { var u :| a.code == b.code + ":" + u && b.id.value == u + ":" + a.id.value; assert CutEarlier(b, a, u); }
    } else if s == t {
      assert s[..|a.code|] == a.code && t[..|b.code|] == b.code;
      assert s[|a.code| + 1..] == a.id.value && t[|b.code| + 1..] == b.id.value;
    }
  }

  /** Valid codes may contain colons: two different references share a key. */
  lemma IdentityKeysCollide(reg: Registry)
    requires "CODE" !in reg && "CODE:A" !in reg
    ensures var a, b := CurrencyReference("CODE", Some("A:1"), None), CurrencyReference("CODE:A", Some("1"), None);
      Valid(reg, a) && Valid(reg, b) && !Equal(a, b) && IdentityKey(a) == IdentityKey(b)
  {
    assert "CUSTOM:" + "CODE" + ":" + "A:1" == "CUSTOM:" + "CODE:A" + ":" + "1";
  }
}
