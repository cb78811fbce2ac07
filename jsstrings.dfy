/**
 * The JavaScript string semantics the request handlers rely on: truthiness of
 * optional request values, String.prototype.trim, and the relational
 * comparison of two strings (`a < b`, `a <= b`).
 */
module JsStrings {
  import opened Wrappers

  /** JavaScript truthiness of a request value: `undefined` and `''` are falsy. */
  predicate Truthy(v: Option<string>) {
    v.Some? && |v.value| > 0
  }

  /**
   * The code points String.prototype.trim removes: ECMAScript WhiteSpace
   * (TAB, VT, FF, SP, NBSP, ZWNBSP and the Zs category) and LineTerminator.
   */
  predicate IsWhitespace(c: char) {
    || c == '\U{0009}' || c == '\U{000B}' || c == '\U{000C}' || c == ' '
    || c == '\U{00A0}' || c == '\U{FEFF}' || c == '\U{1680}'
    || ('\U{2000}' <= c <= '\U{200A}')
    || c == '\U{202F}' || c == '\U{205F}' || c == '\U{3000}'
    || c == '\n' || c == '\r' || c == '\U{2028}' || c == '\U{2029}'
  }

  /** Drops the leading whitespace of `s`. */
  function TrimStart(s: string): (r: string)
    ensures |r| <= |s| && r == s[|s| - |r|..]
    ensures forall i :: 0 <= i < |s| - |r| ==> IsWhitespace(s[i])
    ensures r == [] || !IsWhitespace(r[0])
  {
    if |s| > 0 && IsWhitespace(s[0]) then TrimStart(s[1..]) else s
  }

  /** Drops the trailing whitespace of `s`. */
  function TrimEnd(s: string): (r: string)
    ensures |r| <= |s| && r == s[..|r|]
    ensures forall i :: |r| <= i < |s| ==> IsWhitespace(s[i])
    ensures r == [] || !IsWhitespace(r[|r| - 1])
  {
    if |s| > 0 && IsWhitespace(s[|s| - 1]) then TrimEnd(s[..|s| - 1]) else s
  }

  /** String.prototype.trim. */
  function Trim(s: string): (r: string) {
    TrimEnd(TrimStart(s))
  }

  /** `trimIfExist`: a truthy string is trimmed, `undefined` and `''` are passed through. */
  function TrimIfExist(v: Option<string>): (r: Option<string>)
    ensures v.None? <==> r.None?
    ensures !Truthy(v) ==> r == v
    ensures Truthy(v) ==>
      && (exists i, j ::
            && 0 <= i <= j <= |v.value| && r.value == v.value[i..j]
            && forall k :: 0 <= k < i || j <= k < |v.value| ==> IsWhitespace(v.value[k]))
      && (r.value == [] || (!IsWhitespace(r.value[0]) && !IsWhitespace(r.value[|r.value| - 1])))
  {
    if Truthy(v) then
      TrimShape(v.value);
      Some(Trim(v.value))
    else v
  }

  /**
   * Trim leaves an infix of `s` that neither starts nor ends with whitespace;
   * everything it drops is whitespace.
   */
  lemma TrimShape(s: string)
    ensures exists i, j ::
      && 0 <= i <= j <= |s| && Trim(s) == s[i..j]
      && forall k :: 0 <= k < i || j <= k < |s| ==> IsWhitespace(s[k])
    ensures Trim(s) == [] || (!IsWhitespace(Trim(s)[0]) && !IsWhitespace(Trim(s)[|Trim(s)| - 1]))
  {
    var i, j := TrimBounds(s);
    if Trim(s) != [] {
      TrimEndKeepsHead(TrimStart(s));
    }
  }

  /** Where the trimmed text lies in `s`. */
  lemma TrimBounds(s: string) returns (i: nat, j: nat)
    ensures i <= j <= |s| && Trim(s) == s[i..j]
    ensures forall k :: 0 <= k < i || j <= k < |s| ==> IsWhitespace(s[k])
  {
    var t := TrimStart(s);
    var r := TrimEnd(t);
    i, j := |s| - |t|, |s| - |t| + |r|;
    assert t == s[i..];
    assert r == t[..|r|];
    forall k | j <= k < |s|
      ensures IsWhitespace(s[k])
    {
      assert s[k] == t[k - i];
    }
  }

  lemma TrimEndKeepsHead(t: string)
    requires t == [] || !IsWhitespace(t[0])
    requires TrimEnd(t) != []
    ensures !IsWhitespace(TrimEnd(t)[0])
  {
  }

  /** Trimming is idempotent. */
  lemma {:induction false} TrimIdempotent(s: string)
    ensures Trim(Trim(s)) == Trim(s)
  {
    TrimShape(s);
    var t := Trim(s);
    NoEdgeWhitespaceTrimFixed(t);
  }

  lemma NoEdgeWhitespaceTrimFixed(t: string)
    requires t == [] || (!IsWhitespace(t[0]) && !IsWhitespace(t[|t| - 1]))
    ensures Trim(t) == t
  {
  }

  /** A trimmed value is truthy exactly when the raw value holds a non-whitespace character. */
  lemma {:induction false} TrimIfExistTruthy(v: Option<string>)
    ensures Truthy(TrimIfExist(v)) <==> (v.Some? && exists i :: 0 <= i < |v.value| && !IsWhitespace(v.value[i]))
  {
    if v.Some? && |v.value| > 0 {
      var s := v.value;
      var t := TrimStart(s);
      if Trim(s) == [] {
        assert t == [];
      } else {
        var k := |s| - |t|;
        assert s[k] == t[0];
        TrimEndKeepsHead(t);
        assert TrimEnd(t)[0] == t[0];
      }
    }
  }

  /**
   * The relational comparison of two strings (`a < b`): lexicographic order of
   * the characters, a proper prefix coming first.
   */
  predicate StrLt(a: string, b: string) {
    if |a| == 0 then |b| > 0
    else if |b| == 0 then false
    else if a[0] == b[0] then StrLt(a[1..], b[1..])
    else a[0] < b[0]
  }

  /** `a <= b` on strings. */
  predicate StrLe(a: string, b: string) {
    a == b || StrLt(a, b)
  }

  lemma {:induction false} StrLtIrreflexive(a: string)
    ensures !StrLt(a, a)
  {
    if |a| > 0 {
      StrLtIrreflexive(a[1..]);
    }
  }

  lemma {:induction false} StrLtTransitive(a: string, b: string, c: string)
    requires StrLt(a, b) && StrLt(b, c)
    ensures StrLt(a, c)
  {
    if |a| > 0 && a[0] == b[0] && b[0] == c[0] {
      StrLtTransitive(a[1..], b[1..], c[1..]);
    }
  }

  lemma {:induction false} StrLtTotal(a: string, b: string)
    ensures StrLt(a, b) || a == b || StrLt(b, a)
  {
    if |a| > 0 && |b| > 0 && a[0] == b[0] {
      StrLtTotal(a[1..], b[1..]);
      if a[1..] == b[1..] {
        assert a == [a[0]] + a[1..] && b == [b[0]] + b[1..];
      }
    }
  }

  lemma StrLtAsymmetric(a: string, b: string)
    requires StrLt(a, b)
    ensures !StrLt(b, a) && a != b
  {
    if StrLt(b, a) {
      StrLtTransitive(a, b, a);
      StrLtIrreflexive(a);
    }
    if a == b {
      StrLtIrreflexive(a);
    }
  }

  /**
   * Comparing two concatenations whose first parts have equal length compares
   * the first parts, and the second parts only when the first parts agree.
   */
  lemma {:induction false} StrLtConcat(p: string, x: string, q: string, y: string)
    requires |p| == |q|
    ensures StrLt(p + x, q + y) <==> StrLt(p, q) || (p == q && StrLt(x, y))
  {
    if |p| > 0 {
      assert (p + x)[0] == p[0] && (q + y)[0] == q[0];
      assert (p + x)[1..] == p[1..] + x && (q + y)[1..] == q[1..] + y;
      StrLtConcat(p[1..], x, q[1..], y);
      if p[0] == q[0] && p[1..] == q[1..] {
        assert p == [p[0]] + p[1..] && q == [q[0]] + q[1..];
      }
    } else {
      assert p + x == x && q + y == y;
    }
  }
}
