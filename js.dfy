/** The pieces of JavaScript number and string semantics that the stores rely on,
    written out: `Number(x) || 0`, `Math.floor`, `Math.round`, the truncating `%`,
    `Array.prototype.slice`, `String.prototype.trim`, `toLowerCase`, `includes`,
    `startsWith` and `String(n)` for integers. */
module Js {

  /** A JavaScript number as the model sees it: NaN (what `Number(...)` yields for
      `undefined` or non-numeric text) or a finite value. */
  datatype Num = NaN | Finite(value: real)

  /** `Number(x) || 0`: NaN becomes 0, every finite value is kept. */
  function OrZero(n: Num): real {
    if n.NaN? then 0.0 else n.value
  }

  function Max(a: int, b: int): int { if a < b then b else a }
  function Min(a: int, b: int): int { if a < b then a else b }

  /** `Math.max(lo, Math.floor(Number(x) || 0))`: the clamp every store applies to
      goal targets, session minutes and the daily goal. */
  function FloorAtLeast(lo: int, n: Num): (r: int)
    ensures r >= lo
    ensures r == lo || (r as real <= OrZero(n) < r as real + 1.0)
    ensures OrZero(n) >= lo as real ==> r as real <= OrZero(n) < r as real + 1.0
  {
    Max(lo, OrZero(n).Floor)
  }

  /** `Math.round(a / b)` for a positive divisor: the integer nearest to a/b, halves
      rounded up (towards +infinity), as JavaScript does. */
  function RoundDiv(a: int, b: int): (r: int)
    requires b > 0
    ensures b * (2 * r - 1) <= 2 * a < b * (2 * r + 1)
  {
    var q := (2 * a + b) / (2 * b);
    assert 2 * a + b == (2 * b) * q + (2 * a + b) % (2 * b);
    q
  }

  /** Multiplying by a positive number keeps the order of two integers. */
  lemma MulCancel(b: int, x: int, y: int)
    requires b > 0
    ensures b * x <= b * y <==> x <= y
    ensures b * x < b * y <==> x < y
  {
    assert b * y - b * x == b * (y - x);
  }

  /** `Math.round(x)`: the nearest integer, halves rounded up. */
  function Round(x: real): (r: int)
    ensures r as real - 0.5 <= x < r as real + 0.5
  {
    (x + 0.5).Floor
  }

  /** Rounding preserves order: a larger numerator never rounds to a smaller result. */
  lemma {:induction false} RoundDivMonotone(a1: int, a2: int, b: int)
    requires b > 0 && a1 <= a2
    ensures RoundDiv(a1, b) <= RoundDiv(a2, b)
  {
    var r1, r2 := RoundDiv(a1, b), RoundDiv(a2, b);
    MulCancel(b, 2 * r1 - 1, 2 * r2 + 1);
  }

  /** Dividing an exact multiple rounds to the quotient. */
  lemma {:induction false} RoundDivExact(k: int, b: int)
    requires b > 0
    ensures RoundDiv(k * b, b) == k
  {
    var r := RoundDiv(k * b, b);
    assert 2 * (k * b) == b * (2 * k);
    MulCancel(b, 2 * r - 1, 2 * k);
    MulCancel(b, 2 * k, 2 * r + 1);
  }

  /** `Math.round(value / whole * 100)` for a positive `whole`. */
  function Percent(value: int, whole: int): (r: int)
    requires whole > 0
    ensures 0 <= value <= whole ==> 0 <= r <= 100
    ensures value == whole ==> r == 100
    ensures value == 0 ==> r == 0
  {
    PercentBounds(value, whole);
    RoundDiv(100 * value, whole)
  }

  lemma {:induction false} PercentBounds(value: int, whole: int)
    requires whole > 0
    ensures 0 <= value <= whole ==> 0 <= RoundDiv(100 * value, whole) <= 100
    ensures value == whole ==> RoundDiv(100 * value, whole) == 100
    ensures value == 0 ==> RoundDiv(100 * value, whole) == 0
  {
    RoundDivExact(0, whole);
    RoundDivExact(100, whole);
    if 0 <= value <= whole {
      RoundDivMonotone(0, 100 * value, whole);
      RoundDivMonotone(100 * value, 100 * whole, whole);
    }
  }

  /** JavaScript's `a % b`: the remainder takes the sign of the dividend (truncating
      division), unlike Dafny's Euclidean `%`. */
  function Rem(a: int, b: int): (r: int)
    requires b != 0
    ensures a >= 0 ==> 0 <= r < (if b > 0 then b else -b)
    ensures a < 0 ==> -(if b > 0 then b else -b) < r <= 0
    ensures a >= 0 && b > 0 ==> r == a % b
  {
    var m := if b > 0 then b else -b;
    if a >= 0 then a % m else -((-a) % m)
  }

  /** `Array.prototype.slice(start, end)`: negative positions count from the end and
      every position is clamped into the array. */
  function Slice<T>(s: seq<T>, start: int, end: int): (r: seq<T>)
    ensures |r| <= |s|
    ensures 0 <= start <= end <= |s| ==> r == s[start..end]
    ensures 0 <= end <= start ==> r == []
  {
    var lo := if start < 0 then Max(|s| + start, 0) else Min(start, |s|);
    var hi := if end < 0 then Max(|s| + end, 0) else Min(end, |s|);
    if hi <= lo then [] else s[lo..hi]
  }

  /** The characters `String.prototype.trim` removes: white space and line terminators. */
  predicate IsSpace(c: char) {
    var u := c as int;
    (9 <= u <= 13) || u == 0x20 || u == 0xA0 || u == 0x1680 || (0x2000 <= u <= 0x200A)
    || u == 0x2028 || u == 0x2029 || u == 0x202F || u == 0x205F || u == 0x3000 || u == 0xFEFF
  }

  function TrimStart(s: string): (r: string)
    ensures |r| <= |s| && r == s[|s| - |r|..]
    ensures r == [] || !IsSpace(r[0])
    ensures forall i :: 0 <= i < |s| - |r| ==> IsSpace(s[i])
  {
    if s != [] && IsSpace(s[0]) then TrimStart(s[1..]) else s
  }

  function TrimEnd(s: string): (r: string)
    ensures |r| <= |s| && r == s[..|r|]
    ensures r == [] || !IsSpace(r[|r| - 1])
    ensures forall i :: |r| <= i < |s| ==> IsSpace(s[i])
  {
    if s != [] && IsSpace(s[|s| - 1]) then TrimEnd(s[..|s| - 1]) else s
  }

  /** `r` occurs in `s` starting at position `k`. */
  ghost predicate PieceAt(s: string, r: string, k: int) {
    0 <= k && k + |r| <= |s| && s[k..k + |r|] == r
  }

  /** `s.trim()`: the longest middle piece of `s` that neither starts nor ends with
      white space. */
  function Trim(s: string): (r: string)
    ensures |r| <= |s|
    ensures r == [] || (!IsSpace(r[0]) && !IsSpace(r[|r| - 1]))
    ensures exists k :: PieceAt(s, r, k)
  {
    var a := TrimStart(s);
    var r := TrimEnd(a);
    assert PieceAt(s, r, |s| - |a|);
    r
  }

  /** A string with nothing to trim is its own trim. */
  lemma {:induction false} TrimOfTrimmed(s: string)
    requires s == [] || (!IsSpace(s[0]) && !IsSpace(s[|s| - 1]))
    ensures Trim(s) == s
  {
  }

  /** Trimming twice is trimming once. */
  lemma TrimIdempotent(s: string)
    ensures Trim(Trim(s)) == Trim(s)
  {
    TrimOfTrimmed(Trim(s));
  }

  lemma {:induction false} TrimStartEmpty(s: string)
    ensures TrimStart(s) == [] <==> forall i :: 0 <= i < |s| ==> IsSpace(s[i])
  {
    if s != [] && IsSpace(s[0]) {
      TrimStartEmpty(s[1..]);
      assert forall i :: 0 < i < |s| ==> s[i] == s[1..][i - 1];
    }
  }

  /** A string whose trim is empty consists of white space only. */
  lemma {:induction false} TrimEmptyMeansBlank(s: string)
    ensures Trim(s) == [] <==> forall i :: 0 <= i < |s| ==> IsSpace(s[i])
  {
    var a := TrimStart(s);
    TrimStartEmpty(s);
    if a != [] {
      assert !IsSpace(a[0]);
      assert TrimEnd(a) != [];
    }
  }

  /** `toLowerCase` on the ASCII letters; every other character is kept. */
  function LowerChar(c: char): (r: char)
    ensures 'A' <= c <= 'Z' ==> 'a' <= r <= 'z'
    ensures !('A' <= c <= 'Z') ==> r == c
  {
    if 'A' <= c <= 'Z' then (c as int + 32) as char else c
  }

  function ToLower(s: string): (r: string)
    ensures |r| == |s|
    ensures forall i :: 0 <= i < |s| ==> r[i] == LowerChar(s[i])
  {
    seq(|s|, i requires 0 <= i < |s| => LowerChar(s[i]))
  }

  predicate StartsWith(s: string, prefix: string) {
    |prefix| <= |s| && s[..|prefix|] == prefix
  }

  /** Code-unit order of strings, which is how `localeCompare` orders the ISO
      timestamps and generated ids it is used on here. */
  predicate LexLe(a: string, b: string)
    decreases |a|
  {
    a == [] || (b != [] && (a[0] < b[0] || (a[0] == b[0] && LexLe(a[1..], b[1..]))))
  }

  lemma {:induction false} LexLeTotal(a: string, b: string)
    ensures LexLe(a, b) || LexLe(b, a)
    decreases |a|
  {
    if a != [] && b != [] && a[0] == b[0] {
      LexLeTotal(a[1..], b[1..]);
    }
  }

  lemma {:induction false} LexLeTrans(a: string, b: string, c: string)
    requires LexLe(a, b) && LexLe(b, c)
    ensures LexLe(a, c)
    decreases |a|
  {
    if a != [] && a[0] == b[0] && b[0] == c[0] {
      LexLeTrans(a[1..], b[1..], c[1..]);
    }
  }

  lemma {:induction false} LexLeAntisym(a: string, b: string)
    requires LexLe(a, b) && LexLe(b, a)
    ensures a == b
    decreases |a|
  {
    if a != [] {
      LexLeAntisym(a[1..], b[1..]);
      assert a == [a[0]] + a[1..] && b == [b[0]] + b[1..];
    }
  }

  /** `s.includes(part)`: `part` occurs somewhere in `s` as a contiguous piece. */
  predicate Includes(s: string, part: string)
    decreases |s|
  {
    StartsWith(s, part) || (s != [] && Includes(s[1..], part))
  }

  /** `Includes` holds exactly when the piece occurs at some position. */
  lemma {:induction false} IncludesAt(s: string, part: string, k: int)
    requires PieceAt(s, part, k)
    ensures Includes(s, part)
  {
    if k > 0 {
      assert PieceAt(s[1..], part, k - 1) by {
        assert s[1..][k - 1..k - 1 + |part|] == s[k..k + |part|];
      }
      IncludesAt(s[1..], part, k - 1);
    }
  }

  /** `parts.join(sep)`. */
  function Join(parts: seq<string>, sep: string): (r: string)
    ensures parts == [] ==> r == ""
    ensures |parts| == 1 ==> r == parts[0]
  {
    if parts == [] then ""
    else if |parts| == 1 then parts[0]
    else parts[0] + sep + Join(parts[1..], sep)
  }

  /** A character that `String(n)` can produce for an integer. */
  predicate IsDigit(c: char) { '0' <= c <= '9' }

  function DigitChar(d: int): (c: char)
    requires 0 <= d <= 9
    ensures IsDigit(c) && c as int - '0' as int == d
  {
    ('0' as int + d) as char
  }

  /** `String(n)` for a natural number: its decimal digits, no leading zero. */
  function NatToString(n: nat): (r: string)
    ensures r != [] && forall i :: 0 <= i < |r| ==> IsDigit(r[i])
    ensures |r| > 1 ==> r[0] != '0'
  {
    if n < 10 then [DigitChar(n)] else NatToString(n / 10) + [DigitChar(n % 10)]
  }

  /** The value a string of decimal digits denotes. */
  function DigitsValue(s: string): int
    requires forall i :: 0 <= i < |s| ==> IsDigit(s[i])
  {
    if s == [] then 0 else DigitsValue(s[..|s| - 1]) * 10 + (s[|s| - 1] as int - '0' as int)
  }

  /** Reading back the digits `String(n)` produced gives `n` again. */
  lemma {:induction false} NatToStringRoundTrip(n: nat)
    ensures DigitsValue(NatToString(n)) == n
  {
    if n >= 10 {
      NatToStringRoundTrip(n / 10);
      var s := NatToString(n);
      assert s[..|s| - 1] == NatToString(n / 10);
    }
  }

  /** `String(n)` for any integer: a minus sign before the digits of a negative one. */
  function IntToString(n: int): (r: string)
    ensures r != []
    ensures r[0] == '-' <==> n < 0
    ensures n >= 0 ==> r == NatToString(n)
    ensures n < 0 ==> r == "-" + NatToString(-n)
  {
    if n >= 0 then NatToString(n) else "-" + NatToString(-n)
  }

  /** Two different integers never print the same. */
  lemma {:induction false} IntToStringInjective(a: int, b: int)
    requires IntToString(a) == IntToString(b)
    ensures a == b
  {
    var s := IntToString(a);
    if a >= 0 {
      NatToStringRoundTrip(a);
      NatToStringRoundTrip(b);
    } else {
      assert NatToString(-a) == s[1..] == NatToString(-b);
      NatToStringRoundTrip(-a);
      NatToStringRoundTrip(-b);
    }
  }
}
