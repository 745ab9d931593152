/**
  The few pieces of ECMAScript string behaviour the checkout form relies on:
  the `\s`, `\d` and `\D` regular-expression classes, `replace(/\s/g, "")`,
  `replace(/\D/g, "")` and `trim()`. Strings are sequences of UTF-16 code
  units in the page and sequences of `char` here; every class involved only
  contains code points of the Basic Multilingual Plane, so the two agree.
 */
module JsText {

  /** The clamp `slice` applies to an end index. */
  function Min(a: int, b: int): int {
    if a <= b then a else b
  }

  /** A member of `\s`: the ECMAScript WhiteSpace and LineTerminator code
      points. `trim()` removes exactly the same set from both ends. */
  predicate IsSpace(c: char) {
    var n := c as int;
    || n == 0x09 || n == 0x0A || n == 0x0B || n == 0x0C || n == 0x0D
    || n == 0x20 || n == 0xA0 || n == 0x1680
    || (0x2000 <= n <= 0x200A)
    || n == 0x2028 || n == 0x2029 || n == 0x202F || n == 0x205F
    || n == 0x3000 || n == 0xFEFF
  }

  /** A member of `\d` (no `u` flag): the ASCII digits only. */
  predicate IsDigit(c: char) {
    '0' <= c <= '9'
  }

  predicate AllDigits(s: string) {
    forall i :: 0 <= i < |s| ==> IsDigit(s[i])
  }

  predicate NoSpaces(s: string) {
    forall i :: 0 <= i < |s| ==> !IsSpace(s[i])
  }

  /** `s.replace(/\s/g, "")`: a single character is dropped exactly when it
      is whitespace; with `StripSpacesAppend` this fixes the result of every
      text, character by character and in order. */
  function StripSpaces(s: string): (r: string)
    ensures NoSpaces(r)
    ensures |r| <= |s|
    ensures |s| == 1 ==> r == (if IsSpace(s[0]) then "" else s)
  {
    if |s| == 0 then ""
    else (if IsSpace(s[0]) then "" else [s[0]]) + StripSpaces(s[1..])
  }

  /** `s.replace(/\D/g, "")`: a single character is kept exactly when it is
      a digit; with `KeepDigitsAppend` this fixes the result of every text,
      character by character and in order. */
  function KeepDigits(s: string): (r: string)
    ensures AllDigits(r)
    ensures |r| <= |s|
    ensures |s| == 1 ==> r == (if IsDigit(s[0]) then s else "")
  {
    if |s| == 0 then ""
    else (if IsDigit(s[0]) then [s[0]] else "") + KeepDigits(s[1..])
  }

  /** `!s.trim()`: nothing but whitespace is left once both ends are
      trimmed, which is exactly when removing every `\s` leaves nothing. */
  function IsBlank(s: string): (b: bool)
    ensures b <==> StripSpaces(s) == ""
  {
    AllSpacesIffStripsToEmpty(s);
    forall i :: 0 <= i < |s| ==> IsSpace(s[i])
  }

  /** The numeric value of a `\d` character. */
  function DigitValue(c: char): (n: int)
    requires IsDigit(c)
    ensures 0 <= n <= 9
    ensures c == "0123456789"[n]
  {
    c as int - '0' as int
  }

  /** The two-digit decimal text of `n`, with a leading zero below 10. */
  function TwoDigits(n: int): (s: string)
    requires 0 <= n <= 99
    ensures |s| == 2 && AllDigits(s)
    ensures DigitValue(s[0]) * 10 + DigitValue(s[1]) == n
  {
    ["0123456789"[n / 10], "0123456789"[n % 10]]
  }

  /** Text made of digits is left alone by both `replace` calls. */
  lemma {:induction false} DigitsNoOp(s: string)
    requires AllDigits(s)
    ensures StripSpaces(s) == s
    ensures KeepDigits(s) == s
    decreases |s|
  {
    if |s| > 0 {
      DigitsNoOp(s[1..]);
    }
  }

  /** Whitespace removal distributes over joining. */
  lemma {:induction false} StripSpacesAppend(a: string, b: string)
    ensures StripSpaces(a + b) == StripSpaces(a) + StripSpaces(b)
    decreases |a|
  {
    if |a| == 0 {
      assert a + b == b;
    } else {
      var head := if IsSpace(a[0]) then "" else [a[0]];
      assert (a + b)[0] == a[0];
      assert (a + b)[1..] == a[1..] + b;
      StripSpacesAppend(a[1..], b);
      calc {
        StripSpaces(a + b);
        head + StripSpaces(a[1..] + b);
        head + (StripSpaces(a[1..]) + StripSpaces(b));
        (head + StripSpaces(a[1..])) + StripSpaces(b);
      }
    }
  }

  /** Keeping the digits distributes over joining. */
  lemma {:induction false} KeepDigitsAppend(a: string, b: string)
    ensures KeepDigits(a + b) == KeepDigits(a) + KeepDigits(b)
    decreases |a|
  {
    if |a| == 0 {
      assert a + b == b;
    } else {
      var head := if IsDigit(a[0]) then [a[0]] else "";
      assert (a + b)[0] == a[0];
      assert (a + b)[1..] == a[1..] + b;
      KeepDigitsAppend(a[1..], b);
      calc {
        KeepDigits(a + b);
        head + KeepDigits(a[1..] + b);
        head + (KeepDigits(a[1..]) + KeepDigits(b));
        (head + KeepDigits(a[1..])) + KeepDigits(b);
      }
    }
  }

  /** Joining two texts with one non-digit: keeping the digits drops it. */
  lemma KeepDigitsJoin(a: string, c: char, b: string)
    requires !IsDigit(c)
    ensures KeepDigits(a + [c] + b) == KeepDigits(a) + KeepDigits(b)
  {
    assert KeepDigits([c]) == "" by {
      assert [c][1..] == "";
    }
    KeepDigitsAppend(a + [c], b);
    KeepDigitsAppend(a, [c]);
  }

  /** Joining two texts with one whitespace character: removing the
      whitespace drops it. */
  lemma StripSpacesJoin(a: string, c: char, b: string)
    requires IsSpace(c)
    ensures StripSpaces(a + [c] + b) == StripSpaces(a) + StripSpaces(b)
  {
    assert StripSpaces([c]) == "" by {
      assert [c][1..] == "";
    }
    StripSpacesAppend(a + [c], b);
    StripSpacesAppend(a, [c]);
  }

  /** Text made only of whitespace is exactly text that whitespace removal
      empties. */
  lemma {:induction false} AllSpacesIffStripsToEmpty(s: string)
    ensures (forall i :: 0 <= i < |s| ==> IsSpace(s[i])) <==> StripSpaces(s) == ""
    decreases |s|
  {
    if |s| > 0 {
      AllSpacesIffStripsToEmpty(s[1..]);
      assert (forall i :: 0 <= i < |s| ==> IsSpace(s[i]))
        <==> IsSpace(s[0]) && (forall i :: 0 <= i < |s[1..]| ==> IsSpace(s[1..][i]));
    }
  }

}
