// Shared vocabulary for the whole model: optional values, the few pieces of
// JavaScript number semantics the application relies on, and string helpers
// (trimming, prefixes and the identifier formats the controllers accept).

module Wrappers {
  datatype Option<T> = None | Some(value: T)
  {
    function GetOr(default: T): (r: T)
      ensures this.Some? ==> r == value
      ensures this.None? ==> r == default
    {
      match this
      case None => default
      case Some(v) => v
    }
  }
}

module JsMath {
  import opened Wrappers

  function Max(a: real, b: real): real { if a < b then b else a }
  function Min(a: real, b: real): real { if a < b then a else b }

  /** `Math.max(lo, Math.min(hi, x))`, the clamp used by every staking formula. */
  function Clamp(x: real, lo: real, hi: real): (r: real)
    ensures lo <= r
    ensures lo <= hi ==> r <= hi
    ensures lo <= x <= hi ==> r == x
    ensures x <= lo ==> r == lo
    ensures lo <= hi && hi <= x ==> r == hi
  {
    Max(lo, Min(hi, x))
  }

  lemma ClampMonotone(x: real, y: real, lo: real, hi: real)
    requires x <= y
    ensures Clamp(x, lo, hi) <= Clamp(y, lo, hi)
  {
  }

  /** Multiplying non-negative bounds. */
  lemma MulLe(a: real, b: real, c: real, d: real)
    requires 0.0 <= a <= b && 0.0 <= c <= d
    ensures a * c <= b * d
  {
    calc {
      a * c;
    <= { assert 0.0 <= (b - a) * c; }
      b * c;
    <= { assert 0.0 <= b * (d - c); }
      b * d;
    }
  }

  /** `Math.round(x)`: the nearest integer, halves rounded towards +infinity. */
  function RoundHalfUp(x: real): (r: int)
    ensures x - 0.5 < r as real <= x + 0.5
  {
    (x + 0.5).Floor
  }

  /** `Math.round(x * 100) / 100`: rounding to whole cents. */
  function Round2(x: real): (r: real)
    ensures x - 0.005 < r <= x + 0.005
  {
    RoundHalfUp(100.0 * x) as real / 100.0
  }

  const Micro: real := 1000000.0

  /** `Number(x.toFixed(6))`: six decimals, halves rounded away from zero. */
  function ToFixed6(x: real): (r: real)
    ensures x - 0.0000005 <= r <= x + 0.0000005
    ensures 0.0 <= x ==> 0.0 <= r
    ensures x <= 0.0 ==> r <= 0.0
  {
    if 0.0 <= x then (x * Micro + 0.5).Floor as real / Micro
    else -((-x * Micro + 0.5).Floor as real / Micro)
  }

  /** A value with at most six decimals. */
  predicate SixDecimals(v: real) {
    (v * Micro).Floor as real == v * Micro
  }

  /** Rounding to six decimals never leaves an interval whose ends have six decimals. */
  lemma ToFixed6Within(x: real, lo: real, hi: real)
    requires 0.0 <= lo <= x <= hi
    requires SixDecimals(lo) && SixDecimals(hi)
    ensures lo <= ToFixed6(x) <= hi
  {
    var n := (x * Micro + 0.5).Floor;
    assert lo * Micro <= x * Micro <= hi * Micro;
    assert (lo * Micro).Floor <= n;
    assert n <= (hi * Micro).Floor;
  }

  lemma ToFixed6Monotone(x: real, y: real)
    requires x <= y
    ensures ToFixed6(x) <= ToFixed6(y)
  {
    if 0.0 <= x {
      assert (x * Micro + 0.5).Floor <= (y * Micro + 0.5).Floor;
    } else if y < 0.0 {
      assert (-y * Micro + 0.5).Floor <= (-x * Micro + 0.5).Floor;
    }
  }

  /** Values with six decimals are left alone by `toFixed(6)`. */
  lemma ToFixed6Exact(x: real)
    requires SixDecimals(x)
    ensures ToFixed6(x) == x
  {
    var n := (x * Micro).Floor;
    if 0.0 <= x {
      assert (x * Micro + 0.5).Floor == n;
    } else {
      assert (-x * Micro) == -(n as real);
      assert (-x * Micro + 0.5).Floor == -n;
    }
  }

  /** Sums of six-decimal values have six decimals. */
  lemma SixDecimalsAdd(a: real, b: real)
    requires SixDecimals(a) && SixDecimals(b)
    ensures SixDecimals(a + b)
  {
    var na, nb := (a * Micro).Floor, (b * Micro).Floor;
    assert (a + b) * Micro == (na + nb) as real;
  }

  /** A JavaScript number after `Number(...)`: finite, or NaN/Infinity. */
  datatype JsNum = Finite(value: real) | NonFinite

  /**
   * `Number.isFinite(n) ? n : null` (`safeNum` in the terminal API slice,
   * `num` in the chart helpers).
   */
  function FiniteOrNull(x: JsNum): (r: Option<real>)
    ensures r.Some? <==> x.Finite?
    ensures r.Some? ==> r.value == x.value
  {
    match x
    case Finite(v) => Some(v)
    case NonFinite => None
  }
}

module Text {
  /**
   * The white space `String.prototype.trim` removes: tab, vertical tab, form
   * feed, the byte-order mark, the space separators of Unicode 15 and the four
   * line terminators.
   */
  predicate IsSpace(c: char) {
    || c == '\t' || c == '\U{0B}' || c == '\U{0C}' || c == '\U{FEFF}'
    || c == ' ' || c == '\U{A0}' || c == '\U{1680}' || ('\U{2000}' <= c <= '\U{200A}')
    || c == '\U{202F}' || c == '\U{205F}' || c == '\U{3000}'
    || c == '\n' || c == '\r' || c == '\U{2028}' || c == '\U{2029}'
  }

  function TrimStart(s: string): (r: string)
    ensures |r| <= |s| && r == s[|s| - |r|..]
    ensures forall i :: 0 <= i < |s| - |r| ==> IsSpace(s[i])
    ensures r == [] || !IsSpace(r[0])
  {
    if |s| > 0 && IsSpace(s[0]) then TrimStart(s[1..]) else s
  }

  function TrimEnd(s: string): (r: string)
    ensures |r| <= |s| && r == s[..|r|]
    ensures forall i :: |r| <= i < |s| ==> IsSpace(s[i])
    ensures r == [] || !IsSpace(r[|r| - 1])
  {
    if |s| > 0 && IsSpace(s[|s| - 1]) then TrimEnd(s[..|s| - 1]) else s
  }

  /** `String.prototype.trim`: the longest infix with no white space at either end. */
  function Trim(s: string): (r: string)
    ensures |r| <= |s|
    ensures r == [] || (!IsSpace(r[0]) && !IsSpace(r[|r| - 1]))
    ensures r == [] <==> forall i :: 0 <= i < |s| ==> IsSpace(s[i])
  {
    var t := TrimStart(s);
    var r := TrimEnd(t);
    assert r == [] ==> t == [];
    r
  }

  /** `s.startsWith(p)`. */
  predicate StartsWith(s: string, p: string) {
    |p| <= |s| && s[..|p|] == p
  }

  /** One differing character within both strings rules a prefix out. */
  lemma NotPrefixAt(s: string, p: string, k: nat)
    requires k < |p| && k < |s| && s[k] != p[k]
    ensures !StartsWith(s, p)
  {
    if |p| <= |s| {
      assert s[..|p|][k] == s[k];
    }
  }

  /** A string starts with each of its own leading parts. */
  lemma PrefixOfConcat(p: string, q: string)
    ensures StartsWith(p + q, p)
  {
    assert (p + q)[..|p|] == p;
  }

  predicate IsHexDigit(c: char) {
    ('0' <= c <= '9') || ('a' <= c <= 'f') || ('A' <= c <= 'F')
  }

  function ToLowerChar(c: char): (d: char)
    ensures 'A' <= c <= 'Z' ==> d as int == c as int + 32
    ensures !('A' <= c <= 'Z') ==> d == c
  {
    if 'A' <= c <= 'Z' then (c as int + 32) as char else c
  }

  function ToLower(s: string): (r: string)
    ensures |r| == |s|
    ensures forall i :: 0 <= i < |s| ==> r[i] == ToLowerChar(s[i])
  {
    seq(|s|, i requires 0 <= i < |s| => ToLowerChar(s[i]))
  }

  /** The character expected at position `i` of a UUID in the 8-4-4-4-12 layout. */
  predicate UuidCharOk(s: string, i: int)
    requires 0 <= i < |s|
  {
    if i == 8 || i == 13 || i == 18 || i == 23 then s[i] == '-'
    else if i == 14 then '1' <= s[i] <= '5'
    else if i == 19 then s[i] in "89abAB"
    else IsHexDigit(s[i])
  }

  /**
   * The `isUuid` regular expression of the controllers: hexadecimal groups of
   * 8-4-4-4-12 characters, version digit 1 to 5 (section 4.1.3 of RFC 4122),
   * variant digit 8, 9, a or b (section 4.1.1), letters in either case.
   */
  predicate IsUuid(s: string) {
    |s| == 36 && forall i :: 0 <= i < 36 ==> UuidCharOk(s, i)
  }

  /** The `i` flag of the expression: upper and lower case spellings are equivalent. */
  lemma IsUuidCaseInsensitive(s: string)
    ensures IsUuid(ToLower(s)) <==> IsUuid(s)
  {
    var t := ToLower(s);
    if |s| == 36 {
      forall i | 0 <= i < 36 ensures UuidCharOk(t, i) <==> UuidCharOk(s, i) {
        assert t[i] == ToLowerChar(s[i]);
      }
    }
  }

  /** A character of the URL-safe base64 alphabet (section 5 of RFC 4648). */
  predicate IsBase64UrlChar(c: char) {
    ('A' <= c <= 'Z') || ('a' <= c <= 'z') || ('0' <= c <= '9') || c == '_' || c == '-'
  }

  /** `isPublicId`: 8 to 16 characters of the URL-safe base64 alphabet. */
  predicate IsPublicId(s: string) {
    8 <= |s| <= 16 && forall i :: 0 <= i < |s| ==> IsBase64UrlChar(s[i])
  }

  /** Any prefix of at least eight characters of an accepted id is accepted too. */
  lemma PublicIdPrefix(s: string, n: nat)
    requires IsPublicId(s) && 8 <= n <= |s|
    ensures IsPublicId(s[..n])
  {
  }
}

module Seqs {
  /** No element occurs twice. */
  predicate Distinct<T(==)>(s: seq<T>) {
    forall i, j :: 0 <= i < j < |s| ==> s[i] != s[j]
  }

  /** The sequence without any occurrence of `x`, the rest in order. */
  function Without<T(==,!new)>(s: seq<T>, x: T): (r: seq<T>)
    ensures forall y :: y in r <==> y in s && y != x
    ensures |r| <= |s|
    decreases |s|
  {
    if s == [] then []
    else if s[0] == x then Without(s[1..], x)
    else [s[0]] + Without(s[1..], x)
  }

  /** Removing an element keeps a sequence free of repeats, and removing an absent one changes nothing. */
  lemma {:induction false} WithoutDistinct<T(!new)>(s: seq<T>, x: T)
    requires Distinct(s)
    ensures Distinct(Without(s, x))
    ensures x !in s ==> Without(s, x) == s
    decreases |s|
  {
    if s != [] {
      var rest := s[1..];
      assert Distinct(rest) by {
        forall i, j | 0 <= i < j < |rest| ensures rest[i] != rest[j] {
          assert rest[i] == s[i + 1] && rest[j] == s[j + 1];
        }
      }
      WithoutDistinct(rest, x);
      if s[0] != x {
        assert s[0] !in rest by {
          forall k | 0 <= k < |rest| ensures rest[k] != s[0] {
            assert rest[k] == s[k + 1];
          }
        }
        var r := [s[0]] + Without(rest, x);
        assert Without(s, x) == r;
        forall i, j | 0 <= i < j < |r| ensures r[i] != r[j] {
          if i == 0 {
            assert r[j] in Without(rest, x);
          } else {
            assert r[i] == Without(rest, x)[i - 1] && r[j] == Without(rest, x)[j - 1];
          }
        }
        if x !in s {
          assert [s[0]] + rest == s;
        }
      }
    }
  }
}
