/**
 Stored and posted documents, and the string cleaning the validators share.
 A JSON object keeps its keys in order, as a Python dict does.
 */
module Documents {

  datatype Json =
    | Null
    | Bool(b: bool)
    | Int(n: int)
    | Float(r: real)
    | Str(s: string)
    | Arr(items: seq<Json>)
    | Obj(keys: seq<string>, at: map<string, Json>)

  /** Keys in order, each once, as any Python dict has them. */
  ghost predicate WellKeyed(j: Json) {
    j.Obj? ==>
      && (forall k :: k in j.keys <==> k in j.at)
      && Distinct(j.keys)
  }

  function Field(j: Json, key: string, default: Json): Json
    requires j.Obj?
  {
    if key in j.at then j.at[key] else default
  }

  // -- strings --------------------------------------------------------------------

  predicate IsSpace(c: char) { c in " \t\n\r" }

  function StripLeft(s: string): (r: string)
    ensures |r| <= |s| && (r == "" || !IsSpace(r[0]))
    ensures s != "" && !IsSpace(s[0]) ==> r == s
    ensures s != "" && !IsSpace(s[|s| - 1]) ==> r != "" && r[|r| - 1] == s[|s| - 1]
  {
    if s == "" || !IsSpace(s[0]) then s else StripLeft(s[1..])
  }

  function StripRight(s: string): (r: string)
    ensures |r| <= |s| && (r == "" || !IsSpace(r[|r| - 1]))
    ensures s != "" && !IsSpace(s[|s| - 1]) ==> r == s
    ensures s != "" && !IsSpace(s[0]) ==> r != "" && r[0] == s[0]
  {
    if s == "" || !IsSpace(s[|s| - 1]) then s else StripRight(s[..|s| - 1])
  }

  function Strip(s: string): (r: string)
    ensures Trimmed(r) && |r| <= |s|
    ensures Trimmed(s) ==> r == s
  {
    StripRight(StripLeft(s))
  }

  predicate Trimmed(s: string) { s == "" || (!IsSpace(s[0]) && !IsSpace(s[|s| - 1])) }

  predicate Blank(s: string) { Strip(s) == "" }

  predicate AllSpace(s: string) { forall i :: 0 <= i < |s| ==> IsSpace(s[i]) }

  lemma {:induction false} StripLeftCuts(left: string, s: string)
    requires AllSpace(left) && s != "" && !IsSpace(s[0])
    ensures StripLeft(left + s) == s
  {
    if left == "" {
      assert left + s == s;
    } else {
      assert (left + s)[1..] == left[1..] + s;
      StripLeftCuts(left[1..], s);
    }
  }

  lemma {:induction false} StripRightCuts(s: string, right: string)
    requires AllSpace(right) && s != "" && !IsSpace(s[|s| - 1])
    ensures StripRight(s + right) == s
  {
    if right == "" {
      assert s + right == s;
    } else {
      assert (s + right)[..|s + right| - 1] == s + right[..|right| - 1];
      StripRightCuts(s, right[..|right| - 1]);
    }
  }

  /** Padding is cut, and nothing else. */
  lemma StripCutsPadding(left: string, s: string, right: string)
    requires AllSpace(left) && AllSpace(right) && s != "" && Trimmed(s)
    ensures Strip(left + s + right) == s
  {
    assert left + s + right == left + (s + right);
    StripLeftCuts(left, s + right);
    StripRightCuts(s, right);
  }

  // -- ordering ---------------------------------------------------------------------

  /** Python's order on strings. */
  predicate Le(a: string, b: string) {
    a == "" || (b != "" && (a[0] < b[0] || (a[0] == b[0] && Le(a[1..], b[1..]))))
  }

  lemma {:induction false} LeIsTotalOrder(a: string, b: string, c: string)
    ensures Le(a, a)
    ensures Le(a, b) || Le(b, a)
    ensures Le(a, b) && Le(b, a) ==> a == b
    ensures Le(a, b) && Le(b, c) ==> Le(a, c)
    decreases |a| + |b| + |c|
  {
    if a != "" { LeIsTotalOrder(a[1..], if b == "" then "" else b[1..], if c == "" then "" else c[1..]); }
    if b != "" && c != "" && a == "" { LeIsTotalOrder("", b[1..], c[1..]); }
    if a != "" && b != "" && a[0] == b[0] && a[1..] == b[1..] {
      assert a == [a[0]] + a[1..];
      assert b == [b[0]] + b[1..];
    }
  }

  predicate IsLeast(s: set<string>, x: string) { x in s && forall y :: y in s ==> Le(x, y) }

  lemma {:induction false} LeastExists(s: set<string>)
    requires s != {}
    ensures exists x :: IsLeast(s, x)
    decreases s
  {
    var x :| x in s;
    if s == {x} {
      LeIsTotalOrder(x, x, x);
      assert IsLeast(s, x);
    } else {
      LeastExists(s - {x});
      var m :| IsLeast(s - {x}, m);
      LeIsTotalOrder(x, m, m);
      var least := if Le(x, m) then x else m;
      forall y | y in s ensures Le(least, y) {
        LeIsTotalOrder(x, m, y);
        LeIsTotalOrder(y, y, y);
      }
      assert IsLeast(s, least);
    }
  }

  lemma LeastIsUnique(s: set<string>, x: string, x': string)
    requires IsLeast(s, x) && IsLeast(s, x')
    ensures x == x'
  {
    LeIsTotalOrder(x, x', x);
  }

  function Least(s: set<string>): (x: string)
    requires s != {}
    ensures IsLeast(s, x)
  {
    LeastExists(s);
    assert forall x, x' :: IsLeast(s, x) && IsLeast(s, x') ==> x == x' by {
      forall x, x' | IsLeast(s, x) && IsLeast(s, x') ensures x == x' { LeastIsUnique(s, x, x'); }
    }
    var x :| x in s && IsLeast(s, x);
    x
  }

  /** sorted(s): every member once. */
  function Sorted(s: set<string>): (r: seq<string>)
    ensures forall k :: k in r <==> k in s
    ensures Distinct(r)
    ensures forall i, k :: 0 <= i < k < |r| ==> Le(r[i], r[k])
    decreases s
  {
    if s == {} then [] else [Least(s)] + Sorted(s - {Least(s)})
  }

  /** The items that are in keep, in their order. */
  function Keeping(q: seq<string>, keep: set<string>): (r: seq<string>)
    ensures forall x :: x in r <==> x in q && x in keep
  {
    if q == [] then [] else (if q[0] in keep then [q[0]] else []) + Keeping(q[1..], keep)
  }

  ghost predicate Distinct<T>(q: seq<T>) { forall i, k :: 0 <= i < k < |q| ==> q[i] != q[k] }
}
