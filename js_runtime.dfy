/**
 * The JavaScript built-ins the application's handlers rely on, stated over
 * Dafny's unbounded `int` and exact `real`:
 *  - `Math.floor`, `Math.round`, `Math.min`/`Math.max` clamping,
 *  - `parseFloat` and `parseInt` (longest-prefix decimal parsers; `NaN` is `None`),
 *  - the truthiness default `x || d` on a parsed number,
 *  - `String.prototype.trim` and the upper-casing of a first character,
 *  - `Number.prototype.toString` on a non-negative integer.
 */
module JsRuntime {

  datatype Option<+T> = None | Some(value: T) {
    function GetOr(default: T): T {
      match this
      case Some(v) => v
      case None => default
    }
  }

  /** A browser `File` chosen in a file input; only its name is modelled. */
  datatype File = File(name: string)

  // ---------------------------------------------------------------------------
  // Math

  /** `Math.floor` */
  function Floor(x: real): (r: int)
    ensures r as real <= x < r as real + 1.0
  {
    x.Floor
  }

  /** `Math.round`: the nearest integer, halves rounded towards +infinity. */
  function Round(x: real): (r: int)
    ensures r as real - 0.5 <= x < r as real + 0.5
  {
    (x + 0.5).Floor
  }

  /** `Math.min(hi, Math.max(lo, x))` */
  function Clamp(lo: real, hi: real, x: real): (r: real)
    requires lo <= hi
    ensures lo <= r <= hi
    ensures lo <= x <= hi ==> r == x
    ensures x < lo ==> r == lo
    ensures hi < x ==> r == hi
  {
    if hi < (if lo < x then x else lo) then hi else if lo < x then x else lo
  }

  /** Rounding an integer changes nothing. */
  lemma RoundOfInt(n: int)
    ensures Round(n as real) == n
  {
  }

  /** `Math.round` is monotone. */
  lemma RoundMonotone(x: real, y: real)
    requires x <= y
    ensures Round(x) <= Round(y)
  {
  }

  // ---------------------------------------------------------------------------
  // Whitespace and `trim`

  /**
   * The characters `String.prototype.trim` and `parseFloat`/`parseInt` skip:
   * ECMAScript's WhiteSpace (TAB, VT, FF, SP, NBSP, ZWNBSP and the Zs category)
   * and LineTerminator (LF, CR, LS, PS).
   */
  predicate IsJsWhitespace(c: char) {
    || c == '\t' || c == '\n' || c == '\U{B}' || c == '\U{C}' || c == '\r' || c == ' '
    || c == '\U{A0}' || c == '\U{1680}' || ('\U{2000}' <= c <= '\U{200A}')
    || c == '\U{2028}' || c == '\U{2029}' || c == '\U{202F}' || c == '\U{205F}'
    || c == '\U{3000}' || c == '\U{FEFF}'
  }

  predicate IsBlank(s: string) {
    forall i :: 0 <= i < |s| ==> IsJsWhitespace(s[i])
  }

  /** `trimStart`: drops the leading whitespace and nothing else. */
  function TrimStart(s: string): (r: string)
    ensures |r| <= |s| && r == s[|s| - |r|..]
    ensures IsBlank(s[..|s| - |r|])
    ensures r != [] ==> !IsJsWhitespace(r[0])
  {
    if s != [] && IsJsWhitespace(s[0]) then
      var r := TrimStart(s[1..]);
      assert s[1..][..|s[1..]| - |r|] == s[1..|s| - |r|];
      r
    else
      s
  }

  /** `trimEnd`: drops the trailing whitespace and nothing else. */
  function TrimEnd(s: string): (r: string)
    ensures |r| <= |s| && r == s[..|r|]
    ensures IsBlank(s[|r|..])
    ensures r != [] ==> !IsJsWhitespace(r[|r| - 1])
  {
    if s != [] && IsJsWhitespace(s[|s| - 1]) then
      var r := TrimEnd(s[..|s| - 1]);
      assert s[..|s| - 1][..|r|] == s[..|r|];
      assert s[|r|..] == s[..|s| - 1][|r|..] + [s[|s| - 1]];
      r
    else
      s
  }

  /** `String.prototype.trim` */
  function Trim(s: string): string {
    TrimEnd(TrimStart(s))
  }

  /** `s.trim()` is falsy (the empty string) exactly when `s` is all whitespace. */
  lemma {:induction false} TrimEmptyIffBlank(s: string)
    ensures Trim(s) == [] <==> IsBlank(s)
  {
    var t := TrimStart(s);
    if t == [] {
      assert s[..|s| - |t|] == s;
    } else {
      assert s[|s| - |t|] == t[0];
      var u := TrimEnd(t);
      assert forall x: string :: IsBlank(x) && x != [] ==> IsJsWhitespace(x[0]);
    }
  }

  // ---------------------------------------------------------------------------
  // Characters

  /** `toUpperCase` on one character, for the Latin letters a-z. */
  function ToUpper(c: char): (r: char)
    ensures 'a' <= c <= 'z' ==> 'A' <= r <= 'Z'
    ensures !('a' <= c <= 'z') ==> r == c
  {
    if 'a' <= c <= 'z' then (c as int - 32) as char else c
  }

  /** `s.charAt(0).toUpperCase() + s.slice(1)` */
  function Capitalize(s: string): (r: string)
    ensures |r| == |s|
  {
    if s == [] then [] else [ToUpper(s[0])] + s[1..]
  }

  /** Capitalizing keeps every character after the first and upper-cases only the first. */
  lemma CapitalizeKeepsTail(s: string)
    requires s != []
    ensures Capitalize(s)[1..] == s[1..]
    ensures Capitalize(s)[0] == ToUpper(s[0])
  {
  }

  /** Capitalizing twice is capitalizing once. */
  lemma CapitalizeIdempotent(s: string)
    ensures Capitalize(Capitalize(s)) == Capitalize(s)
  {
  }

  // ---------------------------------------------------------------------------
  // Decimal digits, `toString` and `parseFloat`/`parseInt`

  predicate IsDigit(c: char) {
    '0' <= c <= '9'
  }

  predicate AllDigits(s: string) {
    forall i :: 0 <= i < |s| ==> IsDigit(s[i])
  }

  /** The length of the run of decimal digits that starts `s`. */
  function DigitRun(s: string): (n: nat)
    ensures n <= |s| && AllDigits(s[..n])
    ensures n < |s| ==> !IsDigit(s[n])
  {
    if s == [] || !IsDigit(s[0]) then 0
    else
      var n := 1 + DigitRun(s[1..]);
      assert forall i :: 1 <= i < n ==> s[..n][i] == s[1..][..n - 1][i - 1];
      n
  }

  /** The value of a string of decimal digits, most significant first. */
  function DigitsValue(ds: string): nat
    requires AllDigits(ds)
  {
    if ds == [] then 0
    else 10 * DigitsValue(ds[..|ds| - 1]) + (ds[|ds| - 1] as int - '0' as int)
  }

  function Pow10(n: nat): (r: nat)
    ensures r >= 1
  {
    if n == 0 then 1 else 10 * Pow10(n - 1)
  }

  /** `n.toString()` for a non-negative integer: its decimal digits, without leading zeros. */
  function NatToString(n: nat): (s: string)
    ensures s != [] && AllDigits(s)
    ensures |s| > 1 ==> s[0] != '0'
  {
    if n < 10 then ['0' + n as char]
    else
      var s := NatToString(n / 10) + ['0' + (n % 10) as char];
      assert forall i :: 0 <= i < |s| - 1 ==> s[i] == NatToString(n / 10)[i];
      s
  }

  /** Reading back the digits `toString` wrote gives the number. */
  lemma {:induction false} DigitsValueOfNatToString(n: nat)
    ensures DigitsValue(NatToString(n)) == n
  {
    if n >= 10 {
      var s := NatToString(n);
      assert s[..|s| - 1] == NatToString(n / 10);
      DigitsValueOfNatToString(n / 10);
    }
  }

  /**
   * The scale factor an exponent part `e[+-]digits` at the head of `s` applies;
   * 1 when `s` does not start with a complete exponent part (the longest
   * literal prefix then ends before the `e`).
   */
  function ExponentScale(s: string): (r: real)
    ensures r > 0.0
  {
    if |s| >= 2 && (s[0] == 'e' || s[0] == 'E') then
      var k := if s[1] == '+' || s[1] == '-' then 2 else 1;
      var m := DigitRun(s[k..]);
      if m == 0 then 1.0
      else
        var e := Pow10(DigitsValue(s[k..][..m]));
        if s[1] == '-' then 1.0 / e as real else e as real
    else 1.0
  }

  /**
   * The longest prefix of `t` that is an unsigned decimal literal
   * (`digits [. digits] [exponent]` or `. digits [exponent]`), as a value;
   * `None` (NaN) when no prefix is one.
   */
  function ParseUnsignedDecimal(t: string): Option<real>
  {
    var n1 := DigitRun(t);
    var rest := t[n1..];
    var n2 := if rest != [] && rest[0] == '.' then DigitRun(rest[1..]) else 0;
    if n1 + n2 == 0 then None
    else
      var after := if rest != [] && rest[0] == '.' then rest[1 + n2..] else rest;
      var frac := if n2 == 0 then [] else rest[1..][..n2];
      var mantissa := DigitsValue(t[..n1]) as real + DigitsValue(frac) as real / Pow10(n2) as real;
      Some(mantissa * ExponentScale(after))
  }

  /** `parseFloat(s)`: leading whitespace, an optional sign, then the longest decimal literal prefix. */
  function ParseFloat(s: string): Option<real> {
    var t := TrimStart(s);
    if t != [] && t[0] == '-' then
      match ParseUnsignedDecimal(t[1..])
      case Some(v) => Some(-v)
      case None => None
    else if t != [] && t[0] == '+' then ParseUnsignedDecimal(t[1..])
    else ParseUnsignedDecimal(t)
  }

  /** `parseInt(s)` in base 10: leading whitespace, an optional sign, then a run of digits. */
  function ParseInt(s: string): (r: Option<int>)
    ensures r.Some? <==> var t := TrimStart(s);
                        var u := if t != [] && (t[0] == '-' || t[0] == '+') then t[1..] else t;
                        DigitRun(u) > 0
  {
    var t := TrimStart(s);
    var negative := t != [] && t[0] == '-';
    var u := if t != [] && (t[0] == '-' || t[0] == '+') then t[1..] else t;
    var n := DigitRun(u);
    if n == 0 then None
    else if negative then Some(-(DigitsValue(u[..n]) as int))
    else Some(DigitsValue(u[..n]))
  }

  /** A string of digits alone parses to its value. */
  lemma {:induction false} ParseUnsignedOfDigits(ds: string)
    requires ds != [] && AllDigits(ds)
    ensures ParseUnsignedDecimal(ds) == Some(DigitsValue(ds) as real)
  {
    var n1 := DigitRun(ds);
    assert ds[..n1] == ds;
    assert ds[n1..] == [];
  }

  /** `parseFloat(String(n)) === n` for every non-negative integer `n`. */
  lemma {:induction false} ParseFloatOfNatToString(n: nat)
    ensures ParseFloat(NatToString(n)) == Some(n as real)
  {
    var s := NatToString(n);
    assert TrimStart(s) == s by {
      assert !IsJsWhitespace(s[0]);
    }
    assert s[0] != '-' && s[0] != '+';
    assert ParseFloat(s) == ParseUnsignedDecimal(s);
    ParseUnsignedOfDigits(s);
    DigitsValueOfNatToString(n);
  }

  /** A string of digits alone is read by `parseInt` as its value. */
  lemma ParseIntOfDigits(ds: string)
    requires ds != [] && AllDigits(ds)
    ensures ParseInt(ds) == Some(DigitsValue(ds))
  {
    assert TrimStart(ds) == ds by {
      assert !IsJsWhitespace(ds[0]);
    }
    assert ds[0] != '-' && ds[0] != '+';
    assert ds[..DigitRun(ds)] == ds;
  }

  /** `parseInt(String(n)) === n` for every non-negative integer `n`. */
  lemma {:induction false} ParseIntOfNatToString(n: nat)
    ensures ParseInt(NatToString(n)) == Some(n)
  {
    ParseIntOfDigits(NatToString(n));
    DigitsValueOfNatToString(n);
  }

  /** Different non-negative integers print differently. */
  lemma NatToStringInjective(m: nat, n: nat)
    requires m != n
    ensures NatToString(m) != NatToString(n)
  {
    DigitsValueOfNatToString(m);
    DigitsValueOfNatToString(n);
  }

  /** A string with no digit at all (after whitespace and sign) is `NaN`, e.g. the empty field. */
  lemma ParseFloatOfEmpty()
    ensures ParseFloat("") == None
    ensures ParseInt("") == None
  {
  }

  /**
   * `x || d` where `x` is a parsed number: `NaN` and `0` are falsy, so both
   * fall back to `d`.
   */
  function OrDefault(x: Option<real>, d: real): (r: real)
    ensures r == d <== x.None? || x.value == 0.0
    ensures x.Some? && x.value != 0.0 ==> r == x.value
  {
    if x.Some? && x.value != 0.0 then x.value else d
  }

  /** The same default for an integer parse result. */
  function IntOrDefault(x: Option<int>, d: int): (r: int)
    ensures r == d <== x.None? || x.value == 0
    ensures x.Some? && x.value != 0 ==> r == x.value
  {
    if x.Some? && x.value != 0 then x.value else d
  }

  // ---------------------------------------------------------------------------
  // Arrays: `filter`, `reduce` (a running sum) and `find`

  /** `xs.filter(p)` */
  function Filter<T>(xs: seq<T>, p: T -> bool): (r: seq<T>)
    ensures |r| <= |xs|
    ensures forall i :: 0 <= i < |r| ==> p(r[i])
  {
    if xs == [] then []
    else (if p(xs[0]) then [xs[0]] else []) + Filter(xs[1..], p)
  }

  /** `r` is `xs` with some elements left out and the rest in their original order. */
  predicate IsSubsequence<T(==)>(r: seq<T>, xs: seq<T>)
    decreases |xs|
  {
    if r == [] then true
    else if xs == [] then false
    else (r[0] == xs[0] && IsSubsequence(r[1..], xs[1..])) || IsSubsequence(r, xs[1..])
  }

  /** Every list is a subsequence of itself. */
  lemma {:induction false} IsSubsequenceRefl<T>(xs: seq<T>)
    ensures IsSubsequence(xs, xs)
  {
    if xs != [] {
      IsSubsequenceRefl(xs[1..]);
    }
  }

  /** `filter` keeps every element that passes, drops every one that fails, and keeps the order. */
  lemma {:induction false} FilterExact<T>(xs: seq<T>, p: T -> bool)
    ensures IsSubsequence(Filter(xs, p), xs)
    ensures forall x :: multiset(Filter(xs, p))[x] == if p(x) then multiset(xs)[x] else 0
  {
    if xs != [] {
      FilterExact(xs[1..], p);
      assert xs == [xs[0]] + xs[1..];
      var r, rest := Filter(xs, p), Filter(xs[1..], p);
      if p(xs[0]) {
        assert r == [xs[0]] + rest;
        assert r[0] == xs[0] && r[1..] == rest;
        assert IsSubsequence(r, xs);
      } else {
        assert r == rest;
      }
    }
  }

  /** Filtering twice by the same test is filtering once. */
  lemma {:induction false} FilterIdempotent<T>(xs: seq<T>, p: T -> bool)
    ensures Filter(Filter(xs, p), p) == Filter(xs, p)
  {
    if xs != [] {
      FilterIdempotent(xs[1..], p);
      var r := Filter(xs, p);
      if p(xs[0]) {
        assert r == [xs[0]] + Filter(xs[1..], p);
        assert r[0] == xs[0] && r[1..] == Filter(xs[1..], p);
        assert Filter(r, p) == [r[0]] + Filter(r[1..], p);
      } else {
        assert r == Filter(xs[1..], p);
      }
    }
  }

  /** Two tests that agree everywhere filter alike. */
  lemma {:induction false} FilterSameTest<T>(xs: seq<T>, p: T -> bool, q: T -> bool)
    requires forall x :: p(x) == q(x)
    ensures Filter(xs, p) == Filter(xs, q)
  {
    if xs != [] {
      FilterSameTest(xs[1..], p, q);
    }
  }

  /** A test every element passes keeps the whole list. */
  lemma {:induction false} FilterAll<T>(xs: seq<T>, p: T -> bool)
    requires forall i :: 0 <= i < |xs| ==> p(xs[i])
    ensures Filter(xs, p) == xs
  {
    if xs != [] {
      FilterAll(xs[1..], p);
      assert xs == [xs[0]] + xs[1..];
    }
  }

  /** An element passes and a complementary test fails: the two filters share out the list. */
  lemma {:induction false} FilterComplementLength<T>(xs: seq<T>, p: T -> bool, q: T -> bool)
    requires forall x :: q(x) == !p(x)
    ensures |Filter(xs, p)| + |Filter(xs, q)| == |xs|
  {
    if xs != [] {
      FilterComplementLength(xs[1..], p, q);
    }
  }

  /** `xs.reduce((sum, x) => sum + f(x), 0)`: a left-to-right running sum. */
  function SumBy<T>(xs: seq<T>, f: T -> real): real {
    if xs == [] then 0.0 else SumBy(xs[..|xs| - 1], f) + f(xs[|xs| - 1])
  }

  /** The running sum splits at the first element. */
  lemma {:induction false} SumByCons<T>(xs: seq<T>, f: T -> real)
    requires xs != []
    ensures SumBy(xs, f) == f(xs[0]) + SumBy(xs[1..], f)
  {
    if |xs| > 1 {
      SumByCons(xs[..|xs| - 1], f);
      assert xs[..|xs| - 1][1..] == xs[1..][..|xs[1..]| - 1];
    }
  }

  /** Summing over the elements that pass plus those that fail sums over all. */
  lemma {:induction false} SumBySplit<T>(xs: seq<T>, f: T -> real, p: T -> bool, q: T -> bool)
    requires forall x :: q(x) == !p(x)
    ensures SumBy(Filter(xs, p), f) + SumBy(Filter(xs, q), f) == SumBy(xs, f)
  {
    if xs != [] {
      SumBySplit(xs[1..], f, p, q);
      SumByCons(xs, f);
      if p(xs[0]) {
        SumByCons(Filter(xs, p), f);
        assert Filter(xs, p)[1..] == Filter(xs[1..], p);
        assert Filter(xs, q) == Filter(xs[1..], q);
      } else {
        SumByCons(Filter(xs, q), f);
        assert Filter(xs, q)[1..] == Filter(xs[1..], q);
        assert Filter(xs, p) == Filter(xs[1..], p);
      }
    }
  }

  /** Two lists that agree on `f` elementwise have the same running sum. */
  lemma {:induction false} SumByPointwise<T>(xs: seq<T>, ys: seq<T>, f: T -> real)
    requires |xs| == |ys|
    requires forall i :: 0 <= i < |xs| ==> f(xs[i]) == f(ys[i])
    ensures SumBy(xs, f) == SumBy(ys, f)
  {
    if xs != [] {
      SumByPointwise(xs[..|xs| - 1], ys[..|ys| - 1], f);
    }
  }

  /**
   * Changing one element changes the filtered length by what the old element
   * took out and what the new one brings in.
   */
  lemma {:induction false} FilterUpdateLength<T>(xs: seq<T>, k: nat, y: T, p: T -> bool)
    requires k < |xs|
    ensures |Filter(xs[k := y], p)| + (if p(xs[k]) then 1 else 0)
            == |Filter(xs, p)| + (if p(y) then 1 else 0)
  {
    var ys := xs[k := y];
    assert ys[0] == (if k == 0 then y else xs[0]);
    if k == 0 {
      assert ys[1..] == xs[1..];
    } else {
      assert ys[1..] == xs[1..][k - 1 := y];
      FilterUpdateLength(xs[1..], k - 1, y, p);
    }
  }

  /** The same for a running sum over the elements that pass. */
  lemma {:induction false} SumByFilterUpdate<T>(xs: seq<T>, k: nat, y: T, p: T -> bool, f: T -> real)
    requires k < |xs|
    ensures SumBy(Filter(xs[k := y], p), f) + (if p(xs[k]) then f(xs[k]) else 0.0)
            == SumBy(Filter(xs, p), f) + (if p(y) then f(y) else 0.0)
  {
    var ys := xs[k := y];
    if k == 0 {
      assert ys[1..] == xs[1..];
    } else {
      assert ys[1..] == xs[1..][k - 1 := y];
      SumByFilterUpdate(xs[1..], k - 1, y, p, f);
    }
    FilterUnfold(ys, p, f);
    FilterUnfold(xs, p, f);
  }

  /** The running sum over a filter, split at the first element. */
  lemma FilterUnfold<T>(xs: seq<T>, p: T -> bool, f: T -> real)
    requires xs != []
    ensures SumBy(Filter(xs, p), f) == (if p(xs[0]) then f(xs[0]) else 0.0) + SumBy(Filter(xs[1..], p), f)
  {
    if p(xs[0]) {
      SumByCons(Filter(xs, p), f);
      assert Filter(xs, p)[1..] == Filter(xs[1..], p);
    } else {
      assert Filter(xs, p) == Filter(xs[1..], p);
    }
  }

  /** A sum of non-negative terms is non-negative and grows when terms are added. */
  lemma {:induction false} SumByFilterBounds<T>(xs: seq<T>, p: T -> bool, f: T -> real)
    requires forall i :: 0 <= i < |xs| ==> f(xs[i]) >= 0.0
    ensures 0.0 <= SumBy(Filter(xs, p), f) <= SumBy(xs, f)
  {
    if xs != [] {
      SumByFilterBounds(xs[1..], p, f);
      SumByCons(xs, f);
      FilterUnfold(xs, p, f);
    }
  }

  /** A running sum of terms in [lo, hi] lies between |xs| times lo and |xs| times hi. */
  lemma {:induction false} SumByBounds<T>(xs: seq<T>, f: T -> real, lo: real, hi: real)
    requires forall i :: 0 <= i < |xs| ==> lo <= f(xs[i]) <= hi
    ensures |xs| as real * lo <= SumBy(xs, f) <= |xs| as real * hi
  {
    if xs != [] {
      var init := xs[..|xs| - 1];
      assert forall i :: 0 <= i < |init| ==> init[i] == xs[i];
      SumByBounds(init, f, lo, hi);
      assert |xs| as real * lo == |init| as real * lo + lo;
      assert |xs| as real * hi == |init| as real * hi + hi;
    }
  }

  /** `xs.findIndex(p)`, with `None` for -1. */
  function FindIndex<T>(xs: seq<T>, p: T -> bool): (r: Option<nat>)
    ensures r.Some? ==> r.value < |xs| && p(xs[r.value])
    ensures r.Some? ==> forall j :: 0 <= j < r.value ==> !p(xs[j])
    ensures r.None? ==> forall j :: 0 <= j < |xs| ==> !p(xs[j])
  {
    if xs == [] then None
    else if p(xs[0]) then Some(0)
    else match FindIndex(xs[1..], p)
      case Some(k) => Some(k + 1)
      case None => None
  }
}
