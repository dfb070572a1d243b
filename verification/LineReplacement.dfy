/** Replacing invoice lines in place, on aliasing heap lines
    (openmeter/billing/stdinvoice.go, openmeter/billing/stdinvoiceline.go). */
module LineReplacement {

  /** A line: its id never changes here; the stored state is what the database last held. */
  class StandardLine {
    const id: string
    const valid: bool
    var dbState: int

    constructor (id: string, valid: bool, dbState: int)
      ensures this.id == id && this.valid == valid && this.dbState == dbState
    {
      this.id, this.valid, this.dbState := id, valid, dbState;
    }
  }

  function LineIds(lines: seq<StandardLine>): seq<string> {
    seq(|lines|, i requires 0 <= i < |lines| => lines[i].id)
  }

  /** The first position with the id, or the length if there is none. */
  function FirstWith(lines: seq<StandardLine>, id: string): (k: nat)
    ensures k <= |lines|
    ensures k < |lines| ==> lines[k].id == id
    ensures forall i :: 0 <= i < k ==> lines[i].id != id
  {
    if lines == [] || lines[0].id == id then 0 else 1 + FirstWith(lines[1..], id)
  }

  /** Positions are named by ids, so lists with the same ids name the same positions. */
  lemma {:induction false} FirstWithSameIds(a: seq<StandardLine>, b: seq<StandardLine>, id: string)
    requires |a| == |b| && forall i :: 0 <= i < |a| ==> a[i].id == b[i].id
    ensures FirstWith(a, id) == FirstWith(b, id)
  {
    if a != [] && a[0].id != id { FirstWithSameIds(a[1..], b[1..], id); }
  }

  /** The last replacement with the id. */
  function LastWith(lines: seq<StandardLine>, id: string): (k: int)
    ensures -1 <= k < |lines|
    ensures k >= 0 ==> lines[k].id == id
    ensures forall i :: k < i < |lines| ==> lines[i].id != id
  {
    if lines == [] then -1
    else
      var n := |lines| - 1;
      if lines[n].id == id then n else LastWith(lines[..n], id)
  }

  predicate IsFirst(lines: seq<StandardLine>, i: nat)
    requires i < |lines|
  {
    FirstWith(lines, lines[i].id) == i
  }

  /** The lines after the replacements: each named first position holds the last replacement of
      its id, everything else stays. */
  function Replaced(lines: seq<StandardLine>, rs: seq<StandardLine>): (r: seq<StandardLine>)
    ensures |r| == |lines|
  {
    seq(|lines|, i requires 0 <= i < |lines| =>
      var k := LastWith(rs, lines[i].id);
      if k >= 0 && IsFirst(lines, i) then rs[k] else lines[i])
  }

  class StandardInvoiceLines {
    /** null when the lines are not expanded */
    var lines: array?<StandardLine>

    constructor (lines: array?<StandardLine>)
      ensures this.lines == lines
    {
      this.lines := lines;
    }

    /** GetByID, as a position. */
    method Find(id: string) returns (k: nat)
      requires lines != null
      ensures k == FirstWith(lines[..], id)
    {
      k := 0;
      while k < lines.Length && lines[k].id != id
        invariant k <= lines.Length && FirstWith(lines[..], id) == k + FirstWith(lines[k..], id)
      {
        assert lines[k..][1..] == lines[k + 1..];
        k := k + 1;
      }
    }

    /** ReplaceByID: the replacement takes over the stored state of the line it replaces. */
    method ReplaceByID(id: string, newLine: StandardLine) returns (ok: bool)
      modifies lines, newLine`dbState
      ensures ok <==> lines != null && FirstWith(old(lines[..]), id) < lines.Length
      ensures ok ==> (
        var k := FirstWith(old(lines[..]), id);
        lines[..] == old(lines[..])[k := newLine] && newLine.dbState == old(lines[k].dbState))
      ensures !ok ==> newLine.dbState == old(newLine.dbState) && (lines != null ==> lines[..] == old(lines[..]))
    {
      if lines == null { return false; }
      var k := Find(id);
      if k == lines.Length { return false; }
      var originalDBState := lines[k].dbState;
      lines[k] := newLine;
      newLine.dbState := originalDBState;
      ok := true;
    }

    /** ReplaceLinesByID: nothing happens unless every replacement names a line; then every
        replacement succeeds, in the place and with the stored state of the line it names. */
    method ReplaceLinesByID(rs: seq<StandardLine?>) returns (ok: bool)
      modifies lines, rs
      ensures ok <==> AllFound(old(Lines()), rs)
      ensures !ok ==> Lines() == old(Lines()) && forall r :: r in rs && r != null ==> r.dbState == old(r.dbState)
      ensures ok ==> Lines() == Replaced(old(Lines()), rs) && StatesKept()
    {
      ok := CheckFound(rs);
      if ok { ReplaceEach(rs); }
    }

    method CheckFound(rs: seq<StandardLine?>) returns (ok: bool)
      ensures ok <==> AllFound(Lines(), rs)
    {
      for k := 0 to |rs|
        invariant forall i :: 0 <= i < k ==> rs[i] != null && FirstWith(Lines(), rs[i].id) < |Lines()|
      {
        if rs[k] == null || lines == null { return false; }
        var i := Find(rs[k].id);
        if i == lines.Length { return false; }
      }
      ok := true;
    }

    /** Every first position still has the stored state it had at the beginning. */
    ghost predicate FirstStates(before: seq<StandardLine>, states: seq<int>)
      requires |before| == |states|
      reads this, lines, Lines()
    {
      && |Lines()| == |before| && (forall i :: 0 <= i < |before| ==> Lines()[i].id == before[i].id)
      && forall i :: 0 <= i < |before| && IsFirst(before, i) ==> Lines()[i].dbState == states[i]
    }

    /** One replacement takes over the stored state of its position; no other first position
        holds the same line. */
    method ReplaceOne(r: StandardLine, ghost before: seq<StandardLine>, ghost states: seq<int>)
      requires |before| == |states| && FirstWith(before, r.id) < |before| && FirstStates(before, states)
      modifies lines, r`dbState
      ensures Lines() == old(Lines())[FirstWith(before, r.id) := r] && FirstStates(before, states)
    {
      FirstWithSameIds(Lines(), before, r.id);
      var found := ReplaceByID(r.id, r);
    }

    method ReplaceEach(rs: seq<StandardLine>)
      requires AllFound(Lines(), rs)
      modifies lines, rs
      ensures Lines() == Replaced(old(Lines()), rs) && StatesKept()
    {
      ghost var before := Lines();
      ghost var states := seq(|before|, i requires 0 <= i < |before| reads before => before[i].dbState);
      assert before == Replaced(before, rs[..0]);
      for k := 0 to |rs|
        invariant Lines() == Replaced(before, rs[..k]) && FirstStates(before, states)
      {
        ReplacedStep(before, rs[..k], rs[k], rs[..k + 1], FirstWith(before, rs[k].id));
        ReplaceOne(rs[k], before, states);
      }
      assert rs[..|rs|] == rs;
    }

    /** ReplaceExact: the replacements must be valid and have exactly the ids of the existing
        lines; on any error nothing changes. */
    method ReplaceExact(existing: seq<StandardLine>, rs: seq<StandardLine>) returns (ok: bool)
      modifies lines, rs
      ensures ok <==> lines != null && AllValid(rs) && SameIds(existing, rs) && AllFound(old(Lines()), rs)
      ensures !ok ==> Lines() == old(Lines()) && forall r :: r in rs ==> r.dbState == old(r.dbState)
      ensures ok ==> Lines() == Replaced(old(Lines()), rs) && StatesKept()
    {
      if lines == null { return false; }
      for k := 0 to |rs|
        invariant AllValid(rs[..k])
        modifies {}
      {
        if !rs[k].valid { return false; }
      }
      assert rs[..|rs|] == rs;
      if !SameIds(existing, rs) { return false; }
      ok := ReplaceLinesByID(rs);
    }

    /** The lines as a value; none when they are not expanded. */
    function Lines(): seq<StandardLine>
      reads this, lines
    {
      if lines == null then [] else lines[..]
    }

    /** First positions keep the stored state of the line they held. */
    twostate predicate StatesKept()
      reads this, lines, Lines()
    {
      && lines == old(lines) && |Lines()| == |old(Lines())|
      && forall i :: 0 <= i < |Lines()| && IsFirst(old(Lines()), i) ==> Lines()[i].dbState == old(Lines()[i].dbState)
    }
  }

  predicate AllFound(lines: seq<StandardLine>, rs: seq<StandardLine?>) {
    forall i :: 0 <= i < |rs| ==> rs[i] != null && FirstWith(lines, rs[i].id) < |lines|
  }

  lemma LastWithSnoc(rs: seq<StandardLine>, r: StandardLine, id: string)
    ensures LastWith(rs + [r], id) == if r.id == id then |rs| else LastWith(rs, id)
  {
    assert (rs + [r])[..|rs|] == rs;
  }

  lemma ReplacedStep(lines: seq<StandardLine>, rs: seq<StandardLine>, r: StandardLine, more: seq<StandardLine>, p: nat)
    requires more == rs + [r] && p == FirstWith(lines, r.id) < |lines|
    ensures Replaced(lines, more) == Replaced(lines, rs)[p := r]
  {
    var before, after := Replaced(lines, rs), Replaced(lines, more);
    forall i | 0 <= i < |lines| ensures after[i] == before[p := r][i] {
      LastWithSnoc(rs, r, lines[i].id);
    }
    assert after == before[p := r];
  }

  predicate AllValid(rs: seq<StandardLine>) { forall i :: 0 <= i < |rs| ==> rs[i].valid }

  /** ValidateStandardLineIDsMatchExactly: the same ids, as often, in any order. */
  predicate SameIds(a: seq<StandardLine>, b: seq<StandardLine>) {
    multiset(LineIds(a)) == multiset(LineIds(b))
  }

  /** What replacing does to a list: its ids and its length stay, each named id's first position
      holds the last replacement of that id, and every other position keeps its line. */
  lemma ReplacedMeaning(lines: seq<StandardLine>, rs: seq<StandardLine>, i: nat)
    requires i < |lines|
    ensures LineIds(Replaced(lines, rs)) == LineIds(lines)
    ensures var named := exists k :: 0 <= k < |rs| && rs[k].id == lines[i].id;
      var first := forall j :: 0 <= j < i ==> lines[j].id != lines[i].id;
      if named && first then
        exists k :: 0 <= k < |rs| && Replaced(lines, rs)[i] == rs[k] && rs[k].id == lines[i].id &&
                    forall j :: k < j < |rs| ==> rs[j].id != lines[i].id
      else Replaced(lines, rs)[i] == lines[i]
  {
    assert LineIds(Replaced(lines, rs)) == LineIds(lines);
    var k := LastWith(rs, lines[i].id);
    if k >= 0 { assert rs[k].id == lines[i].id; }
  }

  /** Replacing a subset of the lines by lines with the same ids never misses one: only an
      invalid replacement or different ids make the operation fail. */
  lemma SubsetIsFound(lines: seq<StandardLine>, existing: seq<StandardLine>, rs: seq<StandardLine>)
    requires SameIds(existing, rs) && forall l :: l in existing ==> l in lines
    ensures AllFound(lines, rs)
  {
    forall i | 0 <= i < |rs| ensures FirstWith(lines, rs[i].id) < |lines| {
      assert LineIds(rs)[i] in multiset(LineIds(existing));
      var j :| 0 <= j < |existing| && LineIds(existing)[j] == rs[i].id;
      assert existing[j] in lines;
    }
  }

  /** With distinct replacement ids the positions named by them are the replacements, one each. */
  lemma EachReplacementIsPlaced(lines: seq<StandardLine>, rs: seq<StandardLine>, k: nat)
    requires k < |rs| && AllFound(lines, rs)
    requires forall j :: 0 <= j < |rs| && j != k ==> rs[j].id != rs[k].id
    ensures Replaced(lines, rs)[FirstWith(lines, rs[k].id)] == rs[k]
  {
    var j := LastWith(rs, rs[k].id);
    assert j >= k;
  }
}
