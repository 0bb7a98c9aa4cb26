/** Small value types and helpers shared by every module of the apron editor model:
    optional values, results, the real-number helpers that stand in for JavaScript's
    `Math.min`/`Math.max`/`Math.round`, and the string operations the source relies on
    (`includes`, `toLowerCase`, `lastIndexOf`). */
module Base {

  datatype Option<+T> = None | Some(value: T)

  datatype Result<+T, +E> = Ok(value: T) | Err(error: E)

  function Min(a: real, b: real): real { if a <= b then a else b }

  function Max(a: real, b: real): real { if a >= b then a else b }

  function Abs(x: real): real { if x < 0.0 then -x else x }

  /** True when `x` has at most one decimal place. */
  predicate IsTenth(x: real) {
    (10.0 * x).Floor as real == 10.0 * x
  }

  /** `Math.round(x * 10) / 10`: JavaScript's `Math.round` rounds half-way cases up
      (towards +infinity), so this is floor(10x + 1/2) / 10. */
  function Round1(x: real): (r: real)
    ensures x - 0.05 < r <= x + 0.05
    ensures IsTenth(r)
  {
    var n := (10.0 * x + 0.5).Floor;
    assert (10.0 * (n as real / 10.0)) == n as real;
    n as real / 10.0
  }

  /** Rounding a value that already has one decimal place leaves it unchanged. */
  lemma Round1OfTenth(x: real)
    requires IsTenth(x)
    ensures Round1(x) == x
  {
    var k := (10.0 * x).Floor;
    assert 10.0 * x == k as real;
    assert (10.0 * x + 0.5).Floor == k;
  }

  /** Rounding is idempotent. */
  lemma Round1Idempotent(x: real)
    ensures Round1(Round1(x)) == Round1(x)
  {
    Round1OfTenth(Round1(x));
  }

  /** Multiplying by a non-negative factor preserves order. */
  lemma MulMonotone(a: real, b: real, c: real)
    requires 0.0 <= a && b <= c
    ensures a * b <= a * c
  {
    assert a * c - a * b == a * (c - b);
  }

  /** Centimetres to inches, with the factor the source uses. */
  function CmToInch(cm: real): real { cm * 0.393701 }

  /** JavaScript's `value || fallback` on a number: a missing value (undefined, or NaN,
      which has no real counterpart here) and 0 are falsy and select the fallback. */
  function OrDefault(value: Option<real>, fallback: real): (r: real)
    ensures value.Some? && value.value != 0.0 ==> r == value.value
    ensures value.None? || value.value == 0.0 ==> r == fallback
  {
    if value.Some? && value.value != 0.0 then value.value else fallback
  }

  /** The fallback of `value || fallback` is never 0 when the fallback is not: the
      result is always truthy. */
  lemma OrDefaultNonZero(value: Option<real>, fallback: real)
    requires fallback != 0.0
    ensures OrDefault(value, fallback) != 0.0
  {
  }

  // ---------------------------------------------------------------------------
  // Strings

  /** JavaScript truthiness of an optional string: present and not empty. */
  predicate Present(s: Option<string>) { s.Some? && s.value != "" }

  /** `haystack.includes(needle)`, by scanning start positions left to right. */
  function Contains(haystack: string, needle: string): bool
    decreases |haystack|
  {
    if |haystack| < |needle| then false
    else haystack[..|needle|] == needle || Contains(haystack[1..], needle)
  }

  /** The reference meaning of `includes`: some window of the haystack equals the needle. */
  ghost predicate OccursAt(haystack: string, needle: string, i: int) {
    0 <= i && i + |needle| <= |haystack| && haystack[i..i + |needle|] == needle
  }

  /** The scanning search agrees with the reference meaning, in both directions. */
  lemma {:induction false} ContainsIffOccurs(haystack: string, needle: string)
    ensures Contains(haystack, needle) <==> exists i :: OccursAt(haystack, needle, i)
    decreases |haystack|
  {
    if |haystack| < |needle| {
    } else if haystack[..|needle|] == needle {
      assert OccursAt(haystack, needle, 0);
    } else {
      ContainsIffOccurs(haystack[1..], needle);
      if Contains(haystack[1..], needle) {
        var i :| OccursAt(haystack[1..], needle, i);
        assert haystack[i + 1..i + 1 + |needle|] == haystack[1..][i..i + |needle|];
        assert OccursAt(haystack, needle, i + 1);
      }
      if exists i :: OccursAt(haystack, needle, i) {
        var i :| OccursAt(haystack, needle, i);
        assert i != 0;
        assert haystack[1..][i - 1..i - 1 + |needle|] == haystack[i..i + |needle|];
        assert OccursAt(haystack[1..], needle, i - 1);
      }
    }
  }

  /** A needle found at a known position is contained. */
  lemma ContainsAt(haystack: string, needle: string, i: int)
    requires OccursAt(haystack, needle, i)
    ensures Contains(haystack, needle)
  {
    ContainsIffOccurs(haystack, needle);
  }

  function LowerChar(c: char): char {
    if 'A' <= c <= 'Z' then (c as int + 32) as char else c
  }

  /** `toLowerCase()` restricted to ASCII letters (MIME types are ASCII). */
  function ToLowerAscii(s: string): (r: string)
    ensures |r| == |s|
    ensures forall i :: 0 <= i < |s| ==> r[i] == LowerChar(s[i])
  {
    seq(|s|, i requires 0 <= i < |s| => LowerChar(s[i]))
  }

  /** A string without upper-case ASCII letters is its own lower-case form. */
  lemma LowerOfLower(s: string)
    requires forall i :: 0 <= i < |s| ==> !('A' <= s[i] <= 'Z')
    ensures ToLowerAscii(s) == s
  {
  }

  /** `s.lastIndexOf(c)`, as an optional index. */
  function LastIndexOf(s: string, c: char): (r: Option<nat>)
    ensures r.Some? ==> r.value < |s| && s[r.value] == c && c !in s[r.value + 1..]
    ensures r.None? ==> c !in s
  {
    if |s| == 0 then None
    else if s[|s| - 1] == c then Some(|s| - 1)
    else
      var r := LastIndexOf(s[..|s| - 1], c);
      assert r.Some? ==> s[r.value + 1..] == s[..|s| - 1][r.value + 1..] + [s[|s| - 1]];
      assert s == s[..|s| - 1] + [s[|s| - 1]];
      r
  }
}
