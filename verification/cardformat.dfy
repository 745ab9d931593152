/**
  Live formatting of the card-number field: on every change the field keeps
  only the digits, cuts them to the detected brand's maximum (15 for amex, 16
  otherwise) and shows them in groups of 4-6-5 (amex) or 4-4-4-4 (every other
  brand, and no brand at all).
 */
module CardFormat {
  import opened Options
  import opened JsText
  import opened Cards

  /** The most digits the field keeps for a brand. */
  function MaxDigits(brand: Option<Brand>): nat {
    if brand == Some(Amex) then 15 else 16
  }

  /** The brand the field formats for: the one detected on all typed digits. */
  function TypedBrand(raw: string): Option<Brand> {
    DetectCardType(KeepDigits(raw))
  }

  /** The digits the field keeps: the typed digits, cut to the brand's maximum. */
  function CardDigits(raw: string): string {
    var v := KeepDigits(raw);
    v[..Min(|v|, MaxDigits(DetectCardType(v)))]
  }

  /** The 4-4-4-4 grouping: runs of four separated by one space, the last
      run possibly shorter. */
  function QuadGroups(v: string): string
    decreases |v|
  {
    if |v| <= 4 then v else v[..4] + " " + QuadGroups(v[4..])
  }

  /** The 4-6-5 grouping, written as the page writes it: the first four
      characters, then a space and characters 4 to 10 when there are more
      than four, then a space and the rest when there are more than ten. */
  function AmexGroups(v: string): string {
    (if |v| > 0 then v[..Min(4, |v|)] else "")
    + (if |v| > 4 then " " + v[4..Min(10, |v|)] else "")
    + (if |v| > 10 then " " + v[10..] else "")
  }

  /** What the card-number field shows after the user types `raw`: at most
      19 characters (16 digits and 3 spaces), and at most 17 for amex (15
      digits and 2 spaces). */
  function FormatCardNumber(raw: string): (r: string)
    ensures |r| <= 19
    ensures TypedBrand(raw) == Some(Amex) ==> |r| <= 17
  {
    var d := CardDigits(raw);
    if TypedBrand(raw) == Some(Amex) then
      AmexGroupsShape(d);
      AmexGroups(d)
    else
      QuadGroupsShape(d);
      QuadGroups(d)
  }

  /** The output positions that hold a group separator. */
  predicate IsGroupBoundary(brand: Option<Brand>, k: int) {
    if brand == Some(Amex) then k == 4 || k == 11 else k % 5 == 4
  }

  /** The number of separators the grouping puts between `n` digits. */
  function Separators(brand: Option<Brand>, n: nat): nat {
    if brand == Some(Amex) then (if n > 4 then 1 else 0) + (if n > 10 then 1 else 0)
    else if n == 0 then 0 else (n - 1) / 4
  }

  /** The digit shown at a non-separator output position `k`: `k` less the
      separators that come before it. */
  function DigitIndex(brand: Option<Brand>, k: int): int {
    if brand == Some(Amex) then (if k < 4 then k else if k < 11 then k - 1 else k - 2)
    else k - k / 5
  }

  /** The group shape of a formatted text: its length is the digits plus the
      separators, a separator sits exactly at every group boundary, and every
      other position holds the next digit in order. */
  predicate GroupedAs(brand: Option<Brand>, d: string, r: string) {
    && |r| == |d| + Separators(brand, |d|)
    && forall k :: 0 <= k < |r| ==>
         if IsGroupBoundary(brand, k) then r[k] == ' '
         else 0 <= DigitIndex(brand, k) < |d| && r[k] == d[DigitIndex(brand, k)]
  }

  lemma {:induction false} QuadGroupsShape(v: string)
    ensures GroupedAs(None, v, QuadGroups(v))
    decreases |v|
  {
    var r := QuadGroups(v);
    if |v| > 4 {
      var rest := QuadGroups(v[4..]);
      QuadGroupsShape(v[4..]);
      assert r == v[..4] + " " + rest;
      assert Separators(None, |v|) == Separators(None, |v| - 4) + 1;
      forall k | 0 <= k < |r|
        ensures if IsGroupBoundary(None, k) then r[k] == ' '
                else 0 <= DigitIndex(None, k) < |v| && r[k] == v[DigitIndex(None, k)]
      {
        if k >= 5 {
          var j := k - 5;
          assert r[k] == rest[j];
          assert j % 5 == k % 5 && j / 5 == k / 5 - 1;
          if j % 5 != 4 {
            assert rest[j] == v[4..][DigitIndex(None, j)];
          }
        }
      }
    }
  }

  lemma AmexGroupsShape(v: string)
    ensures GroupedAs(Some(Amex), v, AmexGroups(v))
  {
  }

  lemma {:induction false} QuadGroupsDigits(v: string)
    requires AllDigits(v)
    ensures StripSpaces(QuadGroups(v)) == v
    ensures KeepDigits(QuadGroups(v)) == v
    decreases |v|
  {
    if |v| <= 4 {
      DigitsNoOp(v);
    } else {
      QuadGroupsDigits(v[4..]);
      DigitsNoOp(v[..4]);
      SpaceJoin(v[..4], QuadGroups(v[4..]));
      assert v[..4] + v[4..] == v;
    }
  }

  /** A separating space disappears both when the whitespace is removed and
      when only the digits are kept. */
  lemma SpaceJoin(a: string, b: string)
    ensures StripSpaces(a + " " + b) == StripSpaces(a) + StripSpaces(b)
    ensures KeepDigits(a + " " + b) == KeepDigits(a) + KeepDigits(b)
  {
    assert " " == [' '];
    StripSpacesJoin(a, ' ', b);
    KeepDigitsJoin(a, ' ', b);
  }

  lemma AmexGroupsDigits(v: string)
    requires AllDigits(v)
    ensures StripSpaces(AmexGroups(v)) == v
    ensures KeepDigits(AmexGroups(v)) == v
  {
    if |v| <= 4 {
      assert AmexGroups(v) == v;
      DigitsNoOp(v);
    } else if |v| <= 10 {
      assert AmexGroups(v) == v[..4] + " " + v[4..];
      DigitsNoOp(v[..4]);
      DigitsNoOp(v[4..]);
      SpaceJoin(v[..4], v[4..]);
      assert v[..4] + v[4..] == v;
    } else {
      var a, b, c := v[..4], v[4..10], v[10..];
      assert AmexGroups(v) == (a + " " + b) + " " + c;
      DigitsNoOp(a);
      DigitsNoOp(b);
      DigitsNoOp(c);
      SpaceJoin(a, b);
      SpaceJoin(a + " " + b, c);
      assert a + b + c == v;
    }
  }

  /** Truncating to the brand's maximum never changes the detected brand:
      the cut keeps at least two digits whenever there were two. */
  lemma CardDigitsKeepBrand(raw: string)
    ensures DetectCardType(CardDigits(raw)) == TypedBrand(raw)
    ensures |CardDigits(raw)| <= MaxDigits(TypedBrand(raw))
  {
    var v := KeepDigits(raw);
    var d := CardDigits(raw);
    if |d| < |v| {
      assert d[..2] == v[..2];
    }
    DetectLooksAtTwoCharacters(d, v);
  }

  /** Removing the spaces from the formatted field (or keeping its digits)
      gives back exactly the kept digits. */
  lemma FormatRoundTrip(raw: string)
    ensures StripSpaces(FormatCardNumber(raw)) == CardDigits(raw)
    ensures KeepDigits(FormatCardNumber(raw)) == CardDigits(raw)
    ensures CardDigits(raw) == KeepDigits(raw)[..|CardDigits(raw)|]
    ensures |CardDigits(raw)| == Min(|KeepDigits(raw)|, MaxDigits(TypedBrand(raw)))
  {
    if TypedBrand(raw) == Some(Amex) {
      AmexGroupsDigits(CardDigits(raw));
    } else {
      QuadGroupsDigits(CardDigits(raw));
    }
  }

  /** Spaces appear exactly at the 4-6-5 (amex) or 4-4-4-4 group boundaries,
      and the digits in between are the kept digits in order. */
  lemma FormatGroups(raw: string)
    ensures GroupedAs(TypedBrand(raw), CardDigits(raw), FormatCardNumber(raw))
    ensures forall k :: 0 <= k < |FormatCardNumber(raw)| ==>
      (FormatCardNumber(raw)[k] == ' ' <==> IsGroupBoundary(TypedBrand(raw), k))
  {
    var d := CardDigits(raw);
    var r := FormatCardNumber(raw);
    var t := TypedBrand(raw);
    if t == Some(Amex) {
      AmexGroupsShape(d);
    } else {
      QuadGroupsShape(d);
      assert GroupedAs(None, d, r);
      assert forall k :: IsGroupBoundary(t, k) == IsGroupBoundary(None, k);
      assert forall k :: DigitIndex(t, k) == DigitIndex(None, k);
      assert Separators(t, |d|) == Separators(None, |d|);
    }
    forall k | 0 <= k < |r|
      ensures r[k] == ' ' <==> IsGroupBoundary(t, k)
    {
      if !IsGroupBoundary(t, k) {
        assert IsDigit(d[DigitIndex(t, k)]);
      }
    }
  }

  /** Re-detecting the brand on the formatted text, as the page's effect on
      the number field does, gives the brand the change handler already set. */
  lemma FormatKeepsBrand(raw: string)
    ensures DetectCardType(FormatCardNumber(raw)) == TypedBrand(raw)
  {
    FormatRoundTrip(raw);
    CardDigitsKeepBrand(raw);
    DigitsNoOp(CardDigits(raw));
    assert StripSpaces(FormatCardNumber(raw)) == StripSpaces(CardDigits(raw));
    DetectLooksAtTwoCharacters(FormatCardNumber(raw), CardDigits(raw));
  }

  /** Typing the formatted text back into the field leaves it unchanged. */
  lemma FormatIdempotent(raw: string)
    ensures FormatCardNumber(FormatCardNumber(raw)) == FormatCardNumber(raw)
  {
    var r := FormatCardNumber(raw);
    var d := CardDigits(raw);
    FormatRoundTrip(raw);
    CardDigitsKeepBrand(raw);
    assert KeepDigits(r) == d;
    assert TypedBrand(r) == TypedBrand(raw);
    assert CardDigits(r) == d;
  }

  /** The part of the 4-4-4-4 text the loop below still has to append once it
      has consumed the first `i` characters. */
  ghost function QuadsFrom(value: string, i: nat): string {
    if i >= |value| then ""
    else if i == 0 then QuadGroups(value)
    else " " + QuadGroups(value[i..])
  }

  /** One turn of the loop: what is left from index `i` is the separator
      (none before the first run), the run at `i`, and what is left from
      `i + 4`. */
  lemma QuadsStep(value: string, i: nat)
    requires i < |value|
    ensures QuadsFrom(value, i)
         == (if i > 0 then " " else "") + value[i..Min(i + 4, |value|)] + QuadsFrom(value, i + 4)
  {
    var v := value[i..];
    var sep := if i > 0 then " " else "";
    assert QuadsFrom(value, i) == sep + QuadGroups(v) by {
      if i == 0 {
        assert v == value;
      }
    }
    if |v| <= 4 {
      assert value[i..Min(i + 4, |value|)] == v;
      assert QuadsFrom(value, i + 4) == "";
      assert sep + QuadGroups(v) == sep + v + "";
    } else {
      var run, rest := v[..4], QuadGroups(v[4..]);
      assert run == value[i..i + 4];
      assert v[4..] == value[i + 4..];
      assert QuadsFrom(value, i + 4) == " " + rest;
      assert QuadGroups(v) == run + " " + rest;
      assert sep + (run + " " + rest) == sep + run + (" " + rest);
    }
  }

  /** The loop invariant survives one turn. */
  lemma QuadsInvariantStep(value: string, i: nat, formatted: string)
    requires i < |value|
    requires formatted + QuadsFrom(value, i) == QuadGroups(value)
    ensures formatted + ((if i > 0 then " " else "") + value[i..Min(i + 4, |value|)]) + QuadsFrom(value, i + 4)
         == QuadGroups(value)
  {
    QuadsStep(value, i);
    var sep, run, rest := (if i > 0 then " " else ""), value[i..Min(i + 4, |value|)], QuadsFrom(value, i + 4);
    assert QuadsFrom(value, i) == sep + run + rest;
    assert formatted + (sep + run + rest) == (formatted + (sep + run)) + rest;
  }

  /** The page's 4-4-4-4 loop: from index 0 in steps of four, a space before
      every run but the first, then the run (the last one possibly shorter). */
  method QuadGroupsLoop(value: string) returns (formatted: string)
    ensures formatted == QuadGroups(value)
  {
    formatted := "";
    var i := 0;
    while i < |value|
      invariant formatted + QuadsFrom(value, i) == QuadGroups(value)
      decreases |value| - i
    {
      QuadsInvariantStep(value, i, formatted);
      formatted := formatted + ((if i > 0 then " " else "") + value[i..Min(i + 4, |value|)]);
      i := i + 4;
    }
  }

  /** `handleCardNumberChange`: keep the digits, detect the brand, cut to the
      brand's maximum and group. */
  method CardNumberChange(raw: string) returns (formatted: string, brand: Option<Brand>)
    ensures formatted == FormatCardNumber(raw)
    ensures brand == DetectCardType(formatted)
    ensures StripSpaces(formatted) == CardDigits(raw)
  {
    var value := KeepDigits(raw);
    brand := DetectCardType(value);
    var maxLength := if brand == Some(Amex) then 15 else 16;
    value := value[..Min(|value|, maxLength)];
    if brand == Some(Amex) {
      formatted := "";
      if |value| > 0 { formatted := formatted + value[..Min(4, |value|)]; }
      if |value| > 4 { formatted := formatted + " " + value[4..Min(10, |value|)]; }
      if |value| > 10 { formatted := formatted + " " + value[10..]; }
    } else {
      formatted := QuadGroupsLoop(value);
    }
    FormatRoundTrip(raw);
    FormatKeepsBrand(raw);
  }

}
