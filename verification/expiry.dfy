/**
  The expiry field: the input mask that turns whatever is typed into `MM/YY`
  text, and `validateDate`, which accepts a well-shaped month that is not
  before the current one. The current two-digit year and month are
  parameters (the page reads them from the clock).
 */
module Expiry {
  import opened JsText

  /** The shape `^\d{2}\/\d{2}$`. */
  predicate IsExpiryShape(s: string) {
    |s| == 5 && IsDigit(s[0]) && IsDigit(s[1]) && s[2] == '/' && IsDigit(s[3]) && IsDigit(s[4])
  }

  /** The two numbers `date.split('/').map(Number)` reads from a well-shaped
      expiry. */
  function MonthOf(s: string): int
    requires IsExpiryShape(s)
  {
    DigitValue(s[0]) * 10 + DigitValue(s[1])
  }

  function YearOf(s: string): int
    requires IsExpiryShape(s)
  {
    DigitValue(s[3]) * 10 + DigitValue(s[4])
  }

  /** (year, month) is not before (y0, m0) in calendar order. */
  predicate NotBefore(year: int, month: int, y0: int, m0: int) {
    year > y0 || (year == y0 && month >= m0)
  }

  /** The mask on the expiry field's change: keep the digits; from two digits
      on, write the first two, a slash and at most two more. */
  function MaskExpiry(raw: string): (r: string)
    ensures var n := |KeepDigits(raw)|;
      |r| == Min(n, 4) + (if n >= 2 then 1 else 0) && |r| <= 5
  {
    var v := KeepDigits(raw);
    if |v| >= 2 then v[..2] + "/" + v[2..Min(4, |v|)] else v
  }

  /** With `n` typed digits, the masked text carries the first min(n, 4) of
      them in order, a slash appears (at index 2, and only there) exactly when
      n >= 2, and from four digits on the text has the shape the validator
      asks for. */
  lemma MaskExpiryShape(raw: string)
    ensures var v, r := KeepDigits(raw), MaskExpiry(raw);
      && KeepDigits(r) == v[..Min(|v|, 4)]
      && ('/' in r <==> |v| >= 2)
      && (forall k :: 0 <= k < |r| ==> (r[k] == '/' <==> k == 2))
      && (|v| >= 4 ==> IsExpiryShape(r))
  {
    MaskExpiryDigits(raw);
    MaskExpirySlash(raw);
  }

  /** The digits of the masked text are the first four typed ones. */
  lemma MaskExpiryDigits(raw: string)
    ensures var v := KeepDigits(raw);
      KeepDigits(MaskExpiry(raw)) == v[..Min(|v|, 4)]
  {
    var v := KeepDigits(raw);
    if |v| >= 2 {
      var a, b := v[..2], v[2..Min(4, |v|)];
      assert MaskExpiry(raw) == a + ['/'] + b;
      calc {
        KeepDigits(a + ['/'] + b);
        { KeepDigitsJoin(a, '/', b); }
        KeepDigits(a) + KeepDigits(b);
        { DigitsNoOp(a); DigitsNoOp(b); }
        a + b;
        v[..Min(|v|, 4)];
      }
    } else {
      DigitsNoOp(v);
      assert v[..Min(|v|, 4)] == v;
    }
  }

  /** The only slash of the masked text is at index 2, present from two
      typed digits on. */
  lemma MaskExpirySlash(raw: string)
    ensures var v, r := KeepDigits(raw), MaskExpiry(raw);
      && ('/' in r <==> |v| >= 2)
      && (forall k :: 0 <= k < |r| ==> (r[k] == '/' <==> k == 2))
      && (|v| >= 4 ==> IsExpiryShape(r))
  {
    var v, r := KeepDigits(raw), MaskExpiry(raw);
    if |v| >= 2 {
      assert r == v[..2] + ['/'] + v[2..Min(4, |v|)];
      assert r[2] == '/';
      forall k | 0 <= k < |r| && k != 2
        ensures r[k] != '/'
      {
        assert IsDigit(r[k]);
      }
    } else {
      forall k | 0 <= k < |r|
        ensures r[k] != '/'
      {
        assert IsDigit(r[k]);
      }
    }
  }

  /** Masking already-masked text changes nothing. */
  lemma MaskExpiryIdempotent(raw: string)
    ensures MaskExpiry(MaskExpiry(raw)) == MaskExpiry(raw)
  {
    var v := KeepDigits(raw);
    MaskExpiryShape(raw);
    var w := KeepDigits(MaskExpiry(raw));
    assert w == v[..Min(|v|, 4)];
    if |v| >= 2 {
      assert w[..2] == v[..2];
      assert w[2..Min(4, |w|)] == v[2..Min(4, |v|)];
    }
  }

  /** `validateDate`, with the current two-digit year and month passed in. */
  function ValidateDate(date: string, currentYear: int, currentMonth: int): (ok: bool)
    ensures ok <==>
      && IsExpiryShape(date)
      && 1 <= MonthOf(date) <= 12
      && NotBefore(YearOf(date), MonthOf(date), currentYear, currentMonth)
  {
    if !IsExpiryShape(date) then false
    else
      var month, year := MonthOf(date), YearOf(date);
      if month < 1 || month > 12 then false
      else if year < currentYear then false
      else if year == currentYear && month < currentMonth then false
      else true
  }

  /** The expiry text of a given month and two-digit year. */
  function ExpiryText(month: int, year: int): (s: string)
    requires 1 <= month <= 12 && 0 <= year <= 99
    ensures IsExpiryShape(s) && MonthOf(s) == month && YearOf(s) == year
  {
    TwoDigits(month) + "/" + TwoDigits(year)
  }

  /** A card expiring in the current month is still accepted. */
  lemma CurrentMonthAccepted(currentYear: int, currentMonth: int)
    requires 0 <= currentYear <= 99 && 1 <= currentMonth <= 12
    ensures ValidateDate(ExpiryText(currentMonth, currentYear), currentYear, currentMonth)
  {
  }

  /** Acceptance is monotone in the expiry: any valid month not before an
      accepted expiry is accepted too. */
  lemma ValidateDateMonotone(s: string, t: string, currentYear: int, currentMonth: int)
    requires ValidateDate(s, currentYear, currentMonth)
    requires IsExpiryShape(t) && 1 <= MonthOf(t) <= 12
    requires NotBefore(YearOf(t), MonthOf(t), YearOf(s), MonthOf(s))
    ensures ValidateDate(t, currentYear, currentMonth)
  {
  }

  /** An expiry accepted now was accepted at every earlier month too. */
  lemma ValidateDateEarlierNow(s: string, y0: int, m0: int, y1: int, m1: int)
    requires ValidateDate(s, y1, m1)
    requires NotBefore(y1, m1, y0, m0)
    ensures ValidateDate(s, y0, m0)
  {
  }

  /** Example: month 13 is refused whatever the date. */
  lemma SampleMonthThirteen(currentYear: int, currentMonth: int)
    ensures !ValidateDate("13/25", currentYear, currentMonth)
  {
    var s := "13/25";
    assert IsExpiryShape(s) && s[0] == '1' && s[1] == '3';
    assert MonthOf(s) == 13;
  }

  /** Example: January 2020 is refused once that month is over. */
  lemma SampleExpired(currentYear: int, currentMonth: int)
    requires NotBefore(currentYear, currentMonth, 20, 2)
    ensures !ValidateDate("01/20", currentYear, currentMonth)
  {
    var s := "01/20";
    assert IsExpiryShape(s) && s[0] == '0' && s[1] == '1' && s[3] == '2' && s[4] == '0';
    assert MonthOf(s) == 1 && YearOf(s) == 20;
  }

}
