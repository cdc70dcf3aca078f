/**
 * The string operations the player front end relies on: Python's `str.strip()`,
 * `str.lower()`, `startswith`/`endswith`, the `in` substring test and `str()` of
 * an integer. Characters are treated as in the ASCII range (see README).
 */
module Text {

  /** Python's `str.isspace()` restricted to ASCII: the six C whitespace
      characters and the four separators U+001C..U+001F. */
  predicate IsSpace(c: char) {
    c == ' ' || c == '\t' || c == '\n' || c == '\r' ||
    c == '\U{000B}' || c == '\U{000C}' || ('\U{001C}' <= c <= '\U{001F}')
  }

  predicate AllSpace(s: string) {
    forall k :: 0 <= k < |s| ==> IsSpace(s[k])
  }

  /** The reference meaning of `t in s`: `t` occurs in `s` at some position. */
  ghost predicate OccursAt(s: string, t: string, i: int) {
    0 <= i <= |s| - |t| && s[i..i + |t|] == t
  }

  /** `s.lstrip()`: drops the leading whitespace of `s`. */
  function TrimStart(s: string): string {
    if |s| > 0 && IsSpace(s[0]) then TrimStart(s[1..]) else s
  }

  /** What `lstrip` leaves is the longest suffix of `s` that does not start
      with whitespace: everything before it is whitespace. */
  lemma {:induction false} TrimStartShape(s: string)
    ensures var r := TrimStart(s);
      |r| <= |s| && r == s[|s| - |r|..] && AllSpace(s[..|s| - |r|]) && (r == [] || !IsSpace(r[0]))
    decreases |s|
  {
    if |s| > 0 && IsSpace(s[0]) {
      TrimStartShape(s[1..]);
      var r := TrimStart(s[1..]);
      assert s[1..][..|s| - 1 - |r|] == s[1..|s| - |r|];
      var dropped := s[..|s| - |r|];
      forall k | 0 <= k < |dropped| ensures IsSpace(dropped[k]) {
        if k > 0 {
          assert dropped[k] == s[1..|s| - |r|][k - 1];
        }
      }
    }
  }

  /** `s.rstrip()`: drops the trailing whitespace of `s`. */
  function TrimEnd(s: string): string {
    if |s| > 0 && IsSpace(s[|s| - 1]) then TrimEnd(s[..|s| - 1]) else s
  }

  /** What `rstrip` leaves is the longest prefix of `s` that does not end
      with whitespace: everything after it is whitespace. */
  lemma {:induction false} TrimEndShape(s: string)
    ensures var r := TrimEnd(s);
      |r| <= |s| && r == s[..|r|] && AllSpace(s[|r|..]) && (r == [] || !IsSpace(r[|r| - 1]))
    decreases |s|
  {
    if |s| > 0 && IsSpace(s[|s| - 1]) {
      TrimEndShape(s[..|s| - 1]);
      var r := TrimEnd(s[..|s| - 1]);
      assert s[..|s| - 1][|r|..] == s[|r|..|s| - 1];
      var dropped := s[|r|..];
      forall k | 0 <= k < |dropped| ensures IsSpace(dropped[k]) {
        if k < |s| - 1 - |r| {
          assert dropped[k] == s[|r|..|s| - 1][k];
        }
      }
    }
  }

  /** `s.strip()`: `s` without its leading and trailing whitespace. */
  function Strip(s: string): string {
    TrimEnd(TrimStart(s))
  }

  /** What `strip` leaves occurs in `s`, has no whitespace at either end, and
      is empty exactly when `s` is blank (Python's `not line.strip()`). */
  lemma StripShape(s: string)
    ensures var r := Strip(s);
      && (r == [] <==> AllSpace(s))
      && (r != [] ==> !IsSpace(r[0]) && !IsSpace(r[|r| - 1]))
      && exists i :: OccursAt(s, r, i)
  {
    var t := TrimStart(s);
    var r := TrimEnd(t);
    TrimStartShape(s);
    TrimEndShape(t);
    assert OccursAt(s, r, |s| - |t|) by {
      assert r == t[..|r|];
    }
    if r == [] {
      assert t == [];
      assert s[..|s| - |t|] == s;
    } else {
      assert !IsSpace(r[0]) by {
        if |r| == |t| {
          assert r == t;
        } else {
          assert r[0] == t[0];
        }
      }
      assert !AllSpace(s) by {
        assert s[|s| - |t|] == t[0] == r[0];
      }
    }
  }

  /** A string with no whitespace at either end is its own `strip()`. */
  lemma StripUntouched(s: string)
    requires s != [] ==> !IsSpace(s[0]) && !IsSpace(s[|s| - 1])
    ensures Strip(s) == s
  {
    assert TrimStart(s) == s;
    assert TrimEnd(s) == s;
  }

  /** ASCII case folding of one character. */
  function LowerChar(c: char): char {
    if 'A' <= c <= 'Z' then (c as int + 32) as char else c
  }

  /** `s.lower()`, character by character. */
  function Lower(s: string): string {
    if s == [] then [] else [LowerChar(s[0])] + Lower(s[1..])
  }

  /** `lower` folds each character on its own, so no upper-case ASCII letter
      is left and the length is kept. */
  lemma {:induction false} LowerShape(s: string)
    ensures var r := Lower(s);
      && |r| == |s|
      && (forall i :: 0 <= i < |s| ==> r[i] == LowerChar(s[i]))
      && (forall i :: 0 <= i < |r| ==> !('A' <= r[i] <= 'Z'))
    decreases |s|
  {
    if s != [] {
      LowerShape(s[1..]);
      var r := Lower(s);
      forall i | 0 < i < |s| ensures r[i] == LowerChar(s[i]) {
        assert r[i] == Lower(s[1..])[i - 1];
      }
    }
  }

  /** Case folding keeps an occurrence of a word written in lower case. */
  lemma LowerKeepsOccurrence(s: string, w: string, i: int)
    requires OccursAt(s, w, i)
    requires forall k :: 0 <= k < |w| ==> !('A' <= w[k] <= 'Z')
    ensures OccursAt(Lower(s), w, i)
  {
    var low := Lower(s);
    LowerShape(s);
    forall k | 0 <= k < |w| ensures low[i..i + |w|][k] == w[k] {
      assert s[i..i + |w|][k] == s[i + k];
    }
  }

  predicate StartsWith(s: string, prefix: string) {
    |prefix| <= |s| && s[..|prefix|] == prefix
  }

  predicate EndsWith(s: string, suffix: string) {
    |suffix| <= |s| && s[|s| - |suffix|..] == suffix
  }

  /** Python's `t in s`, computed by trying every start position in turn. */
  predicate Contains(s: string, t: string)
    decreases |s|
  {
    StartsWith(s, t) || (|s| > 0 && Contains(s[1..], t))
  }

  lemma {:induction false} ContainsIffOccurs(s: string, t: string)
    ensures Contains(s, t) <==> exists i :: OccursAt(s, t, i)
    decreases |s|
  {
    if StartsWith(s, t) {
      assert OccursAt(s, t, 0);
    } else if |s| == 0 {
    } else {
      ContainsIffOccurs(s[1..], t);
      forall i | OccursAt(s, t, i) ensures OccursAt(s[1..], t, i - 1) {
        assert i != 0 by { assert s[..|t|] == s[0..0 + |t|]; }
        assert s[1..][i - 1..i - 1 + |t|] == s[i..i + |t|];
      }
      forall i | OccursAt(s[1..], t, i) ensures OccursAt(s, t, i + 1) {
        assert s[1..][i..i + |t|] == s[i + 1..i + 1 + |t|];
      }
    }
  }

  function DigitChar(d: nat): char
    requires d < 10
  {
    (('0' as int) + d) as char
  }

  predicate IsDigits(s: string) {
    forall k :: 0 <= k < |s| ==> '0' <= s[k] <= '9'
  }

  /** Decimal rendering of a natural number, as Python's `str(n)`. */
  function NatToString(n: nat): (r: string)
    ensures |r| >= 1 && IsDigits(r)
    ensures r[0] == '0' ==> n == 0
    decreases n
  {
    if n < 10 then [DigitChar(n)] else NatToString(n / 10) + [DigitChar(n % 10)]
  }

  /** The value of a string of decimal digits: the inverse of NatToString. */
  function DigitsValue(s: string): nat
    requires IsDigits(s)
  {
    if s == [] then 0 else 10 * DigitsValue(s[..|s| - 1]) + ((s[|s| - 1] as int) - ('0' as int))
  }

  lemma {:induction false} NatToStringRoundTrip(n: nat)
    ensures DigitsValue(NatToString(n)) == n
    decreases n
  {
    if n >= 10 {
      var r := NatToString(n);
      assert r[..|r| - 1] == NatToString(n / 10);
      NatToStringRoundTrip(n / 10);
    }
  }

  /** Python's `str(i)` for an integer that may be negative (an exit code). */
  function IntToString(i: int): string {
    if i < 0 then "-" + NatToString(-i) else NatToString(i)
  }

  /** Strings that `int()` reads back: decimal digits with an optional leading '-'. */
  predicate IsSignedDigits(s: string) {
    IsDigits(s) || (|s| >= 1 && s[0] == '-' && IsDigits(s[1..]))
  }

  /** The value of a signed decimal string: the inverse of IntToString. */
  function SignedValue(s: string): int
    requires IsSignedDigits(s)
  {
    if |s| >= 1 && s[0] == '-' then 0 - (DigitsValue(s[1..]) as int) else DigitsValue(s)
  }

  /** The exit code can be read back from its text, negative codes included. */
  lemma IntToStringRoundTrip(i: int)
    ensures IsSignedDigits(IntToString(i)) && SignedValue(IntToString(i)) == i
  {
    if i < 0 {
      NatToStringRoundTrip(-i);
    } else {
      NatToStringRoundTrip(i);
    }
  }

  /** The pieces of a formatted message, one after another (an f-string). */
  function Concat(parts: seq<string>): string {
    if parts == [] then "" else parts[0] + Concat(parts[1..])
  }

  /** Python's rendering of a bool in an f-string. */
  function BoolText(b: bool): string {
    if b then "True" else "False"
  }
}
