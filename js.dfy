/**
 * The small part of JavaScript's value and string semantics that the
 * dashboard's logic relies on: parsed JSON values, truthiness, optional
 * chaining and nullish coalescing, `toLowerCase`, `trim`, `includes`,
 * `startsWith`, `slice` and the decimal rendering of integers.
 */
module Js {

  datatype Option<+T> = None | Some(value: T)

  /** A value produced by `JSON.parse`. Numbers are modelled as integers. */
  datatype Json =
    | JNull
    | JBool(b: bool)
    | JNumber(n: int)
    | JString(s: string)
    | JArray(items: seq<Json>)
    | JObject(fields: map<string, Json>)

  /** JavaScript truthiness; `None` stands for `undefined`. */
  predicate Truthy(v: Option<Json>)
  {
    match v
    case None => false
    case Some(JNull) => false
    case Some(JBool(b)) => b
    case Some(JNumber(n)) => n != 0
    case Some(JString(s)) => s != ""
    case Some(JArray(_)) => true
    case Some(JObject(_)) => true
  }

  /** `null` or `undefined`, the values `??` skips. */
  predicate Nullish(v: Option<Json>)
  {
    v == None || v == Some(JNull)
  }

  /** Property read `v?.key` on a parsed JSON value (`undefined` unless `v` is an object holding `key`). */
  function Get(v: Option<Json>, key: string): (r: Option<Json>)
    ensures r.Some? ==> v.Some? && v.value.JObject? && key in v.value.fields && r.value == v.value.fields[key]
    ensures v.Some? && v.value.JObject? && key in v.value.fields ==> r.Some?
  {
    match v
    case Some(JObject(m)) => if key in m then Some(m[key]) else None
    case _ => None
  }

  /** `a ?? b`. */
  function Coalesce(a: Option<Json>, b: Option<Json>): (r: Option<Json>)
    ensures Nullish(a) ==> r == b
    ensures !Nullish(a) ==> r == a
  {
    if Nullish(a) then b else a
  }

  // ---------------------------------------------------------------- strings

  predicate IsDigit(c: char)
  {
    '0' <= c <= '9'
  }

  predicate IsUpper(c: char)
  {
    'A' <= c <= 'Z'
  }

  function LowerChar(c: char): (r: char)
    ensures !IsUpper(r)
    ensures !IsUpper(c) ==> r == c
  {
    if IsUpper(c) then (c as int + 32) as char else c
  }

  /** `String.prototype.toLowerCase`, for the ASCII letters. */
  function Lower(s: string): (r: string)
    ensures |r| == |s|
    ensures forall i :: 0 <= i < |s| ==> r[i] == LowerChar(s[i])
  {
    if s == [] then [] else [LowerChar(s[0])] + Lower(s[1..])
  }

  lemma LowerIdempotent(s: string)
    ensures Lower(Lower(s)) == Lower(s)
  {
  }

  lemma LowerAppend(a: string, b: string)
    ensures Lower(a + b) == Lower(a) + Lower(b)
  {
  }

  /**
   * The code points `String.prototype.trim` removes: WhiteSpace
   * (TAB, VT, FF, ZWNBSP and the Space_Separator category) and
   * LineTerminator (LF, CR, LS, PS).
   */
  predicate IsJsSpace(c: char)
  {
    var n := c as int;
    || n == 0x09 || n == 0x0B || n == 0x0C || n == 0x20 || n == 0xA0 || n == 0xFEFF
    || n == 0x1680 || (0x2000 <= n <= 0x200A) || n == 0x202F || n == 0x205F || n == 0x3000
    || n == 0x0A || n == 0x0D || n == 0x2028 || n == 0x2029
  }

  function TrimStart(s: string): (r: string)
    ensures r == [] || !IsJsSpace(r[0])
    ensures exists k :: 0 <= k <= |s| && r == s[k..] && forall j :: 0 <= j < k ==> IsJsSpace(s[j])
  {
    if s != [] && IsJsSpace(s[0]) then
      var r := TrimStart(s[1..]);
      ghost var k :| 0 <= k <= |s[1..]| && r == s[1..][k..] && forall j :: 0 <= j < k ==> IsJsSpace(s[1..][j]);
      assert r == s[k + 1..];
      r
    else
      assert s == s[0..];
      s
  }

  function TrimEnd(s: string): (r: string)
    ensures r == [] || !IsJsSpace(r[|r| - 1])
    ensures exists k :: 0 <= k <= |s| && r == s[..k] && forall j :: k <= j < |s| ==> IsJsSpace(s[j])
  {
    if s != [] && IsJsSpace(s[|s| - 1]) then
      var t := s[..|s| - 1];
      var r := TrimEnd(t);
      ghost var k :| 0 <= k <= |t| && r == t[..k] && forall j :: k <= j < |t| ==> IsJsSpace(t[j]);
      assert r == s[..k];
      r
    else
      assert s == s[..|s|];
      s
  }

  /** `String.prototype.trim`. */
  function Trim(s: string): string
  {
    TrimEnd(TrimStart(s))
  }

  lemma TrimStartOfUnspaced(s: string)
    requires s == [] || !IsJsSpace(s[0])
    ensures TrimStart(s) == s
  {
  }

  lemma TrimEndOfUnspaced(s: string)
    requires s == [] || !IsJsSpace(s[|s| - 1])
    ensures TrimEnd(s) == s
  {
  }

  lemma {:induction false} TrimEndKeepsHead(s: string)
    requires s == [] || !IsJsSpace(s[0])
    ensures var r := TrimEnd(s); r == [] || !IsJsSpace(r[0])
  {
    var r := TrimEnd(s);
    if r != [] {
      var k :| 0 <= k <= |s| && r == s[..k] && forall j :: k <= j < |s| ==> IsJsSpace(s[j]);
      assert r[0] == s[0];
    }
  }

  /** Trimming twice is trimming once. */
  lemma {:induction false} TrimIdempotent(s: string)
    ensures Trim(Trim(s)) == Trim(s)
  {
    var a := TrimStart(s);
    var t := TrimEnd(a);
    TrimEndKeepsHead(a);
    TrimStartOfUnspaced(t);
    TrimEndOfUnspaced(t);
  }

  /** `s.startsWith(p)`. */
  predicate StartsWith(s: string, p: string)
  {
    p <= s
  }

  /** `s.includes(q)`: `q` occurs in `s` at some offset. */
  predicate Includes(s: string, q: string)
  {
    q <= s || (s != [] && Includes(s[1..], q))
  }

  /** The occurrence-at-an-offset reading of `includes`, both directions. */
  lemma {:induction false} IncludesIff(s: string, q: string)
    ensures Includes(s, q) <==> exists i :: 0 <= i <= |s| - |q| && q <= s[i..]
  {
    if Includes(s, q) {
      IncludesAtSomeOffset(s, q);
    }
    if exists i :: 0 <= i <= |s| - |q| && q <= s[i..] {
      var i :| 0 <= i <= |s| - |q| && q <= s[i..];
      OffsetIncludes(s, q, i);
    }
  }

  lemma {:induction false} IncludesAtSomeOffset(s: string, q: string)
    requires Includes(s, q)
    ensures exists i :: 0 <= i <= |s| - |q| && q <= s[i..]
  {
    if q <= s {
      assert q <= s[0..];
    } else {
      IncludesAtSomeOffset(s[1..], q);
      var i :| 0 <= i <= |s[1..]| - |q| && q <= s[1..][i..];
      assert s[1..][i..] == s[i + 1..];
    }
  }

  lemma {:induction false} OffsetIncludes(s: string, q: string, i: int)
    requires 0 <= i <= |s| - |q| && q <= s[i..]
    ensures Includes(s, q)
  {
    if i == 0 {
      assert s[0..] == s;
    } else {
      assert s[1..][i - 1..] == s[i..];
      OffsetIncludes(s[1..], q, i - 1);
    }
  }

  /** A string only includes strings no longer than itself. */
  lemma IncludesNoLonger(s: string, q: string)
    ensures Includes(s, q) ==> |q| <= |s|
  {
    if Includes(s, q) {
      IncludesAtSomeOffset(s, q);
    }
  }

  /** Every string includes itself and the empty string. */
  lemma IncludesSelf(s: string)
    ensures Includes(s, s) && Includes(s, "")
  {
  }

  /** Occurrence is transitive: a piece of a piece of `s` is a piece of `s`. */
  lemma {:induction false} IncludesTransitive(s: string, q: string, p: string)
    requires Includes(s, q) && Includes(q, p)
    ensures Includes(s, p)
  {
    IncludesIff(s, q);
    IncludesIff(q, p);
    var i :| 0 <= i <= |s| - |q| && q <= s[i..];
    var j :| 0 <= j <= |q| - |p| && p <= q[j..];
    assert p <= s[i + j..] by {
      forall k | 0 <= k < |p| ensures p[k] == s[i + j..][k] {
        assert p[k] == q[j + k] == s[i..][j + k];
      }
    }
    IncludesIff(s, p);
  }

  /** Case-blind occurrence: a piece of `s` lower-cased is a piece of `s` lower-cased. */
  lemma {:induction false} IncludesLower(s: string, q: string)
    requires Includes(s, q)
    ensures Includes(Lower(s), Lower(q))
  {
    if q <= s {
      assert Lower(q) <= Lower(s);
    } else {
      IncludesLower(s[1..], q);
      assert Lower(s)[1..] == Lower(s[1..]);
    }
  }

  function Min(a: int, b: int): int
  {
    if a <= b then a else b
  }

  /** `s.slice(from, to)` for non-negative bounds: both are clamped to the length, and `from > to` gives "". */
  function Slice(s: string, from: nat, to: nat): (r: string)
    ensures |r| == if Min(from, |s|) <= Min(to, |s|) then Min(to, |s|) - Min(from, |s|) else 0
  {
    var a := Min(from, |s|);
    var b := Min(to, |s|);
    if a <= b then s[a..b] else ""
  }

  /** `s.slice(from)`. */
  function SliceFrom(s: string, from: nat): (r: string)
    ensures |r| == |s| - Min(from, |s|)
  {
    s[Min(from, |s|)..]
  }

  // ---------------------------------------------------------------- numbers

  function DigitChar(d: nat): char
    requires d < 10
  {
    ('0' as int + d) as char
  }

  /** Decimal digits of a natural number, most significant first, without leading zeros. */
  function NatToString(n: nat): (r: string)
    ensures |r| >= 1 && forall i :: 0 <= i < |r| ==> IsDigit(r[i])
    ensures n >= 10 ==> r[0] != '0'
  {
    if n < 10 then [DigitChar(n)] else NatToString(n / 10) + [DigitChar(n % 10)]
  }

  function DigitValue(c: char): nat
    requires IsDigit(c)
  {
    c as int - '0' as int
  }

  /** Value of a string of decimal digits. */
  function DigitsValue(s: string): nat
    requires forall i :: 0 <= i < |s| ==> IsDigit(s[i])
  {
    if s == [] then 0 else DigitsValue(s[..|s| - 1]) * 10 + DigitValue(s[|s| - 1])
  }

  /** Reading the digits back gives the number. */
  lemma {:induction false} NatToStringValue(n: nat)
    ensures DigitsValue(NatToString(n)) == n
  {
    if n >= 10 {
      NatToStringValue(n / 10);
      var r := NatToString(n);
      assert r[..|r| - 1] == NatToString(n / 10);
    }
  }

  /** `String(n)` for an integer `n`. */
  function IntToString(n: int): (r: string)
    ensures n >= 0 ==> r == NatToString(n)
    ensures n < 0 ==> r == "-" + NatToString(-n)
  {
    if n < 0 then "-" + NatToString(-n) else NatToString(n)
  }

  // ---------------------------------------------------------------- sequences

  /** `a` is `b` with some elements deleted, the rest kept in order. */
  predicate IsSubsequence<T(==)>(a: seq<T>, b: seq<T>)
    decreases |b|
  {
    if a == [] then true
    else if b == [] then false
    else (a[0] == b[0] && IsSubsequence(a[1..], b[1..])) || IsSubsequence(a, b[1..])
  }

  lemma {:induction false} SubsequenceOfItself<T>(s: seq<T>)
    ensures IsSubsequence(s, s)
  {
    if s != [] {
      SubsequenceOfItself(s[1..]);
    }
  }

  /** `Array.prototype.filter` with a side-effect-free test: the elements that pass, in their order. */
  function Select<T(==)>(s: seq<T>, keep: T -> bool): (r: seq<T>)
    ensures |r| <= |s|
    ensures forall x :: x in r ==> x in s && keep(x)
    ensures IsSubsequence(r, s)
  {
    if s == [] then []
    else
      var rest := Select(s[1..], keep);
      if keep(s[0]) then
        assert ([s[0]] + rest)[1..] == rest;
        [s[0]] + rest
      else rest
  }

  /** Nothing that passes is dropped. */
  lemma {:induction false} SelectKeeps<T>(s: seq<T>, keep: T -> bool, x: T)
    requires x in s && keep(x)
    ensures x in Select(s, keep)
  {
    if s[0] != x {
      SelectKeeps(s[1..], keep, x);
    }
  }

  /** When everything passes, the filter returns the sequence itself. */
  lemma {:induction false} SelectAll<T>(s: seq<T>, keep: T -> bool)
    requires forall i :: 0 <= i < |s| ==> keep(s[i])
    ensures Select(s, keep) == s
  {
    if s != [] {
      SelectAll(s[1..], keep);
    }
  }

  /** Filtering a sequence one element longer extends the result by that element, if it passes. */
  lemma {:induction false} SelectAppend<T>(s: seq<T>, x: T, keep: T -> bool)
    ensures Select(s + [x], keep) == Select(s, keep) + (if keep(x) then [x] else [])
  {
    if s == [] {
      assert [x][1..] == [];
    } else {
      assert (s + [x])[1..] == s[1..] + [x];
      SelectAppend(s[1..], x, keep);
    }
  }
}
