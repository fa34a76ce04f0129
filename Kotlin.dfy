/**
 * The few Kotlin and JVM library semantics the browser's logic relies on:
 * nullable values, the 32-bit `Int` with its wrap-around, `Int.toString()`,
 * `String.replace(target, replacement)` and `TextUtils.isEmpty`.
 */
module Kotlin {

  /** A Kotlin nullable value: `None` is `null`. */
  datatype Option<+T> = None | Some(value: T) {
    /** Kotlin's `x ?: default`. */
    function GetOr(default: T): T {
      match this
      case Some(v) => v
      case None => default
    }
  }

  const INT_MIN: int := -0x8000_0000
  const INT_MAX: int := 0x7fff_ffff
  const TWO_32: int := 0x1_0000_0000

  /** Kotlin's `Int`: a signed 32-bit integer. */
  type Int = x: int | INT_MIN <= x <= INT_MAX

  /** Two's-complement wrap-around of a mathematical result into an `Int`. */
  function Wrap(x: int): (r: Int)
    ensures INT_MIN <= x <= INT_MAX ==> r == x
    ensures (x - r) % TWO_32 == 0
  {
    var m := (x - INT_MIN) % TWO_32;
    assert x - (m + INT_MIN) == ((x - INT_MIN) / TWO_32) * TWO_32;
    m + INT_MIN
  }

  /** `TextUtils.isEmpty(s)`: null or of length zero. */
  predicate IsEmpty(s: Option<string>) {
    s.None? || |s.value| == 0
  }

  // ---------------------------------------------------------------------------
  // Int.toString()

  predicate IsDigit(c: char) {
    '0' <= c <= '9'
  }

  predicate IsDigits(s: string) {
    |s| > 0 && forall i :: 0 <= i < |s| ==> IsDigit(s[i])
  }

  function DigitChar(d: nat): (c: char)
    requires d < 10
    ensures IsDigit(c) && c as int - '0' as int == d
  {
    (d + '0' as int) as char
  }

  /** The decimal digits of `n`, most significant first, without leading zeros. */
  function Digits(n: nat): (s: string)
    ensures IsDigits(s)
    ensures |s| > 1 ==> s[0] != '0'
    decreases n
  {
    if n < 10 then [DigitChar(n)] else Digits(n / 10) + [DigitChar(n % 10)]
  }

  /** Kotlin's `Int.toString()`: decimal, with a leading '-' for a negative value. */
  function IntToString(x: int): (s: string)
    ensures |s| > 0
    ensures forall c :: c in s ==> IsDigit(c) || c == '-'
  {
    if x < 0 then "-" + Digits(-x) else Digits(x)
  }

  /** The value of a string of decimal digits, read left to right. */
  function DigitsValue(s: string): nat
    requires forall i :: 0 <= i < |s| ==> IsDigit(s[i])
  {
    if |s| == 0 then 0
    else
      var d := s[|s| - 1] as int - '0' as int;
      assert IsDigit(s[|s| - 1]);
      DigitsValue(s[..|s| - 1]) * 10 + d
  }

  /** A reader of decimal integers: an optional '-' followed by one or more digits. */
  function ParseInt(s: string): Option<int> {
    if |s| > 0 && s[0] == '-' && IsDigits(s[1..]) then Some(0 - DigitsValue(s[1..]))
    else if IsDigits(s) then Some(DigitsValue(s))
    else None
  }

  lemma {:induction false} DigitsValueOfDigits(n: nat)
    ensures DigitsValue(Digits(n)) == n
    decreases n
  {
    if n >= 10 {
      var a := Digits(n / 10);
      var s := a + [DigitChar(n % 10)];
      assert s[..|s| - 1] == a;
      DigitsValueOfDigits(n / 10);
    }
  }

  /** `Int.toString()` loses nothing: reading its output back gives the number. */
  lemma ParseIntToString(x: int)
    ensures ParseInt(IntToString(x)) == Some(x)
  {
    if x < 0 {
      var s := IntToString(x);
      assert s[1..] == Digits(-x);
      DigitsValueOfDigits(-x);
    } else {
      DigitsValueOfDigits(x);
    }
  }

  // ---------------------------------------------------------------------------
  // String.indexOf(Char, Int)

  /**
   * `s.indexOf(c, from)`, except that "not found" is `|s|` rather than -1:
   * the index of the first `c` at or after `from`.
   */
  function FindChar(s: string, c: char, from: nat): (k: nat)
    requires from <= |s|
    ensures from <= k <= |s|
    ensures k < |s| ==> s[k] == c
    ensures forall j :: from <= j < k ==> s[j] != c
    decreases |s| - from
  {
    if from == |s| || s[from] == c then from else FindChar(s, c, from + 1)
  }

  // ---------------------------------------------------------------------------
  // String.replace(oldValue, newValue)

  /**
   * Kotlin's `s.replace(target, replacement)` with `ignoreCase = false`: every occurrence of `target`,
   * scanning left to right without overlap, is replaced. The browser only
   * ever passes non-empty literal targets.
   */
  function Replace(s: string, target: string, replacement: string): (r: string)
    requires |target| > 0
    ensures forall c :: c in r ==> c in s || c in replacement
    decreases |s|
  {
    if |s| < |target| then s
    else if s[..|target|] == target then replacement + Replace(s[|target|..], target, replacement)
    else [s[0]] + Replace(s[1..], target, replacement)
  }

  /** `target` occurs in `s` at position `i`. */
  predicate OccursAt(s: string, target: string, i: nat) {
    i + |target| <= |s| && s[i..i + |target|] == target
  }

  /** Where `target` does not occur, `replace` returns the string unchanged. */
  lemma {:induction false} ReplaceWithoutOccurrence(s: string, target: string, replacement: string)
    requires |target| > 0
    requires forall i: nat :: !OccursAt(s, target, i)
    ensures Replace(s, target, replacement) == s
    decreases |s|
  {
    if |s| >= |target| {
      assert !OccursAt(s, target, 0);
      forall i: nat ensures !OccursAt(s[1..], target, i) {
        assert !OccursAt(s, target, i + 1);
        if i + |target| <= |s[1..]| {
          assert s[1..][i..i + |target|] == s[i + 1..i + 1 + |target|];
        }
      }
      ReplaceWithoutOccurrence(s[1..], target, replacement);
    }
  }
}
