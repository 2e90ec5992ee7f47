/** The distance behind "did you mean": a two-row dynamic program. */
module EditDistance {
  import opened Bytes
  import opened Options

  function Min3(a: int, b: int, c: int): int {
    var m := if b < a then b else a;
    if c < m then c else m
  }

  function Front(s: bytes): bytes
    requires s != []
  {
    s[..|s| - 1]
  }

  function End(s: bytes): byte
    requires s != []
  {
    s[|s| - 1]
  }

  /** The recurrence the table is filled by, on prefixes. */
  function Dist(a: bytes, b: bytes): (d: nat)
    decreases |a| + |b|
  {
    if a == [] then |b|
    else if b == [] then |a|
    else
      var cost := if End(a) == End(b) then 0 else 1;
      Min3(Dist(a, Front(b)) + 1, Dist(Front(a), b) + 1, Dist(Front(a), Front(b)) + cost)
  }

  /** The same over positions in the two strings: an entry of the table. */
  function Cell(a: bytes, b: bytes, i: nat, j: nat): (d: nat)
    requires i <= |a| && j <= |b|
    decreases i + j
  {
    if i == 0 then j
    else if j == 0 then i
    else
      var cost := if a[i - 1] == b[j - 1] then 0 else 1;
      Min3(Cell(a, b, i, j - 1) + 1, Cell(a, b, i - 1, j) + 1, Cell(a, b, i - 1, j - 1) + cost)
  }

  lemma {:induction false} CellIsDist(a: bytes, b: bytes, i: nat, j: nat)
    requires i <= |a| && j <= |b|
    ensures Cell(a, b, i, j) == Dist(a[..i], b[..j])
    decreases i + j
  {
    if i > 0 && j > 0 {
      CellIsDist(a, b, i, j - 1);
      CellIsDist(a, b, i - 1, j);
      CellIsDist(a, b, i - 1, j - 1);
      Fronts(a, i);
      Fronts(b, j);
      DistAt(a[..i], b[..j], a[..i - 1], b[..j - 1]);
    }
  }

  lemma Fronts(s: bytes, i: nat)
    requires 0 < i <= |s|
    ensures Front(s[..i]) == s[..i - 1] && End(s[..i]) == s[i - 1]
  {
  }

  lemma {:induction false} DistAt(x: bytes, y: bytes, fx: bytes, fy: bytes)
    requires x != [] && y != [] && fx == Front(x) && fy == Front(y)
    ensures Dist(x, y) ==
            Min3(Dist(x, fy) + 1, Dist(fx, y) + 1, Dist(fx, fy) + if End(x) == End(y) then 0 else 1)
  {
  }

  /** One row of the table from the row above. */
  method FillRow(a: bytes, b: bytes, i: nat, prev: array<int>, cur: array<int>)
    requires 0 < i <= |a| && prev != cur && prev.Length == cur.Length == |b| + 1
    requires forall k :: 0 <= k <= |b| ==> prev[k] == Cell(a, b, i - 1, k)
    modifies cur
    ensures forall k :: 0 <= k <= |b| ==> cur[k] == Cell(a, b, i, k)
  {
    cur[0] := i;
    for j := 1 to |b| + 1
      invariant forall k :: 0 <= k < j ==> cur[k] == Cell(a, b, i, k)
    {
      var cost := 1;
      if a[i - 1] == b[j - 1] {
        cost := 0;
      }
      cur[j] := Min3(cur[j - 1] + 1, prev[j] + 1, prev[j - 1] + cost);
    }
  }

  method EditDistance(a: bytes, b: bytes) returns (d: int)
    ensures d == Dist(a, b)
  {
    var prev := new int[|b| + 1];
    var cur := new int[|b| + 1];
    for j := 0 to |b| + 1
      invariant forall k :: 0 <= k < j ==> prev[k] == Cell(a, b, 0, k)
    {
      prev[j] := j;
    }
    for i := 1 to |a| + 1
      invariant forall k :: 0 <= k <= |b| ==> prev[k] == Cell(a, b, i - 1, k)
    {
      FillRow(a, b, i, prev, cur);
      forall k | 0 <= k <= |b| {
        prev[k] := cur[k];
      }
    }
    CellIsDist(a, b, |a|, |b|);
    assert a[..|a|] == a && b[..|b|] == b;
    return prev[|b|];
  }

  // ---- scripts of single-byte edits -----------------------------------------------

  datatype Edit = Keep | Change(c: byte) | Insert(c: byte) | Remove {
    function Cost(): nat { if Keep? then 0 else 1 }
  }

  function Then(r: Option<bytes>, c: byte): Option<bytes> {
    if r.Some? then Some(r.value + [c]) else None
  }

  /** The result of a script, which works from the last byte towards the first
      and must use up its input. */
  function Apply(s: seq<Edit>, a: bytes): Option<bytes> {
    if s == [] then (if a == [] then Some([]) else None)
    else match s[0]
      case Insert(c) => Then(Apply(s[1..], a), c)
      case Keep => if a == [] then None else Then(Apply(s[1..], Front(a)), End(a))
      case Change(c) => if a == [] then None else Then(Apply(s[1..], Front(a)), c)
      case Remove => if a == [] then None else Apply(s[1..], Front(a))
  }

  function Cost(s: seq<Edit>): nat {
    if s == [] then 0 else s[0].Cost() + Cost(s[1..])
  }

  ghost predicate Turns(s: seq<Edit>, a: bytes, b: bytes) {
    Apply(s, a) == Some(b)
  }

  /** No script from a to b is cheaper than the distance. */
  lemma {:induction false} NothingCheaper(s: seq<Edit>, a: bytes, b: bytes)
    requires Turns(s, a, b)
    ensures Cost(s) >= Dist(a, b)
    decreases |s|
  {
    if s != [] {
      match s[0]
      case Insert(c) =>
        assert Front(b) == Apply(s[1..], a).value;
        NothingCheaper(s[1..], a, Front(b));
      case Keep =>
        assert Front(b) == Apply(s[1..], Front(a)).value;
        NothingCheaper(s[1..], Front(a), Front(b));
      case Change(c) =>
        assert Front(b) == Apply(s[1..], Front(a)).value;
        NothingCheaper(s[1..], Front(a), Front(b));
      case Remove =>
        NothingCheaper(s[1..], Front(a), b);
    }
  }

  function ApplyAfter(e: Edit, s: seq<Edit>, a: bytes): Option<bytes> {
    match e
    case Insert(c) => Then(Apply(s, a), c)
    case Keep => if a == [] then None else Then(Apply(s, Front(a)), End(a))
    case Change(c) => if a == [] then None else Then(Apply(s, Front(a)), c)
    case Remove => if a == [] then None else Apply(s, Front(a))
  }

  /** Prefixing an edit to a script. */
  lemma {:induction false} Prefix(e: Edit, s: seq<Edit>, a: bytes)
    ensures Cost([e] + s) == e.Cost() + Cost(s)
    ensures Apply([e] + s, a) == ApplyAfter(e, s, a)
  {
    assert ([e] + s)[1..] == s;
  }

  /** Some script from a to b costs exactly the distance. */
  lemma {:induction false} Achieved(a: bytes, b: bytes) returns (s: seq<Edit>)
    ensures Turns(s, a, b) && Cost(s) == Dist(a, b)
    decreases |a| + |b|
  {
    if a == [] && b == [] {
      s := [];
    } else {
      var e, rest;
      if b != [] && (a == [] || Dist(a, b) == Dist(a, Front(b)) + 1) {
        rest := Achieved(a, Front(b));
        e := Insert(End(b));
      } else if a != [] && (b == [] || Dist(a, b) == Dist(Front(a), b) + 1) {
        rest := Achieved(Front(a), b);
        e := Remove;
      } else {
        rest := Achieved(Front(a), Front(b));
        e := if End(a) == End(b) then Keep else Change(End(b));
      }
      Prefix(e, rest, a);
      assert b != [] ==> Front(b) + [End(b)] == b;
      s := [e] + rest;
    }
  }

  /** Doing one script after another is a script, no dearer than both together. */
  lemma {:induction false} Compose(s: seq<Edit>, t: seq<Edit>, a: bytes, b: bytes, c: bytes) returns (r: seq<Edit>)
    requires Turns(s, a, b) && Turns(t, b, c)
    ensures Turns(r, a, c) && Cost(r) <= Cost(s) + Cost(t)
    decreases |s| + |t|
  {
    if t != [] && t[0].Insert? {
      assert Front(c) == Apply(t[1..], b).value;
      var rest := Compose(s, t[1..], a, b, Front(c));
      Prefix(t[0], rest, a);
      r := [t[0]] + rest;
    } else if s != [] && s[0].Remove? {
      var rest := Compose(s[1..], t, Front(a), b, c);
      Prefix(Remove, rest, a);
      r := [Remove] + rest;
    } else if s == [] {
      r := [];
    } else {
      r := ComposeBoth(s, t, a, b, c);
    }
  }

  /** The first script writes the byte the second one reads. */
  lemma {:induction false} ComposeBoth(s: seq<Edit>, t: seq<Edit>, a: bytes, b: bytes, c: bytes) returns (r: seq<Edit>)
    requires Turns(s, a, b) && Turns(t, b, c)
    requires s != [] && !s[0].Remove? && (t == [] || !t[0].Insert?)
    ensures Turns(r, a, c) && Cost(r) <= Cost(s) + Cost(t)
    decreases |s| + |t|, 0
  {
    var a' := if s[0].Insert? then a else Front(a);
    var c' := if t[0].Remove? then c else Front(c);
    assert Front(b) == Apply(s[1..], a').value;
    assert c' == Apply(t[1..], Front(b)).value;
    var rest := Compose(s[1..], t[1..], a', Front(b), c');
    if s[0].Insert? && t[0].Remove? {
      r := rest;
    } else {
      var e := if t[0].Remove? then Remove
               else if s[0].Insert? then Insert(if t[0].Keep? then s[0].c else t[0].c)
               else if t[0].Keep? then s[0] else t[0];
      Prefix(e, rest, a);
      r := [e] + rest;
    }
  }

  // ---- it is a metric ------------------------------------------------------------------

  lemma {:induction false} Triangle(a: bytes, b: bytes, c: bytes)
    ensures Dist(a, c) <= Dist(a, b) + Dist(b, c)
  {
    var s := Achieved(a, b);
    var t := Achieved(b, c);
    var r := Compose(s, t, a, b, c);
    NothingCheaper(r, a, c);
  }

  lemma {:induction false} Symmetric(a: bytes, b: bytes)
    ensures Dist(a, b) == Dist(b, a)
    decreases |a| + |b|
  {
    if a != [] && b != [] {
      Symmetric(a, Front(b));
      Symmetric(Front(a), b);
      Symmetric(Front(a), Front(b));
    }
  }

  lemma {:induction false} ZeroOnlyForEqual(a: bytes, b: bytes)
    ensures Dist(a, b) == 0 <==> a == b
    decreases |a| + |b|
  {
    if a != [] && b != [] {
      ZeroOnlyForEqual(Front(a), Front(b));
      assert a == Front(a) + [End(a)] && b == Front(b) + [End(b)];
    }
  }
}
