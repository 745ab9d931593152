/**
  Card brand detection and the two card-field validators of the checkout
  page: the loose prefix classifier that drives the brand icon and the
  submit-time number check, the strict prefix-and-length validator, and the
  brand-dependent CVV check.
 */
module Cards {
  import opened Options
  import opened JsText

  datatype Brand = Visa | Mastercard | Amex

  /** The number of digits each brand's strict pattern admits. */
  function StrictLengths(b: Brand): set<nat> {
    match b
    case Visa => {13, 16}
    case Mastercard => {16}
    case Amex => {15}
  }

  /** The prefix tests `/^4/`, `/^5[1-5]/` and `/^3[47]/`, on text with the
      whitespace already removed. */
  predicate VisaPrefix(c: string) {
    |c| >= 1 && c[0] == '4'
  }

  predicate MastercardPrefix(c: string) {
    |c| >= 2 && c[0] == '5' && '1' <= c[1] <= '5'
  }

  predicate AmexPrefix(c: string) {
    |c| >= 2 && c[0] == '3' && (c[1] == '4' || c[1] == '7')
  }

  predicate HasPrefix(b: Brand, c: string) {
    match b
    case Visa => VisaPrefix(c)
    case Mastercard => MastercardPrefix(c)
    case Amex => AmexPrefix(c)
  }

  /** The prefix tests in the page's order, first match wins. */
  function Classify(c: string): Option<Brand> {
    if VisaPrefix(c) then Some(Visa)
    else if MastercardPrefix(c) then Some(Mastercard)
    else if AmexPrefix(c) then Some(Amex)
    else None
  }

  /** `detectCardType`: strips whitespace and looks at the leading one or two
      characters only. There is no length check and no check that the rest
      is made of digits. */
  function DetectCardType(number: string): (r: Option<Brand>)
    ensures forall b :: r == Some(b) <==> HasPrefix(b, StripSpaces(number))
    ensures r == None <==> forall b :: !HasPrefix(b, StripSpaces(number))
  {
    Classify(StripSpaces(number))
  }

  /** Only the first two characters left after whitespace removal decide the
      brand: any two texts that agree on them (or are both that short and
      equal) get the same answer. */
  lemma DetectLooksAtTwoCharacters(x: string, y: string)
    requires var cx, cy := StripSpaces(x), StripSpaces(y);
      (|cx| >= 2 && |cy| >= 2 && cx[..2] == cy[..2]) || cx == cy
    ensures DetectCardType(x) == DetectCardType(y)
  {
    var cx, cy := StripSpaces(x), StripSpaces(y);
    if |cx| >= 2 && |cy| >= 2 && cx[..2] == cy[..2] {
      assert cx[0] == cx[..2][0] && cx[1] == cx[..2][1];
      assert cy[0] == cy[..2][0] && cy[1] == cy[..2][1];
    }
  }

  /** `validateCardNumber`: the strict regular expressions
      `^4[0-9]{12}(?:[0-9]{3})?$`, `^5[1-5][0-9]{14}$` and `^3[47][0-9]{13}$`,
      tried in that order on the text with whitespace removed. */
  function ValidateCardNumber(number: string): (r: Option<Brand>)
    ensures forall b :: r == Some(b) <==>
      var c := StripSpaces(number);
      AllDigits(c) && HasPrefix(b, c) && |c| in StrictLengths(b)
  {
    var c := StripSpaces(number);
    if AllDigits(c) && |c| >= 1 && c[0] == '4' && (|c| == 13 || |c| == 16) then Some(Visa)
    else if AllDigits(c) && |c| == 16 && c[0] == '5' && '1' <= c[1] <= '5' then Some(Mastercard)
    else if AllDigits(c) && |c| == 15 && c[0] == '3' && (c[1] == '4' || c[1] == '7') then Some(Amex)
    else None
  }

  /** The strict validator is the loose classifier plus an all-digits and a
      per-brand length check: whenever it names a brand, `detectCardType`
      names the same one, and it names one exactly when the detected brand's
      length fits. */
  lemma StrictRefinesDetect(number: string)
    ensures ValidateCardNumber(number).Some? ==> ValidateCardNumber(number) == DetectCardType(number)
    ensures ValidateCardNumber(number).Some? <==>
      var c := StripSpaces(number);
      AllDigits(c) && DetectCardType(number).Some? && |c| in StrictLengths(DetectCardType(number).value)
  {
    var r := ValidateCardNumber(number);
    if r.Some? {
      assert HasPrefix(r.value, StripSpaces(number));
    }
    var d := DetectCardType(number);
    if d.Some? && AllDigits(StripSpaces(number)) && |StripSpaces(number)| in StrictLengths(d.value) {
      assert HasPrefix(d.value, StripSpaces(number));
    }
  }

  /** `validateCVV`: after whitespace removal the code must be exactly four
      digits for amex and exactly three for every other brand, including an
      undetected one. */
  function ValidateCvv(cvv: string, brand: Option<Brand>): (ok: bool)
    ensures ok <==> AllDigits(StripSpaces(cvv)) && |StripSpaces(cvv)| == CvvLength(brand)
  {
    var c := StripSpaces(cvv);
    if brand == Some(Amex) then |c| == 4 && AllDigits(c)
    else |c| == 3 && AllDigits(c)
  }

  function CvvLength(brand: Option<Brand>): nat {
    if brand == Some(Amex) then 4 else 3
  }

  /** An undetected brand is held to the same three-digit rule as visa and
      mastercard, and no code passes both the amex rule and that one. */
  lemma CvvBrandClasses(cvv: string)
    ensures ValidateCvv(cvv, None) == ValidateCvv(cvv, Some(Visa)) == ValidateCvv(cvv, Some(Mastercard))
    ensures !(ValidateCvv(cvv, Some(Amex)) && ValidateCvv(cvv, None))
  {
  }

  /** Example: a sixteen-digit visa number passes. */
  lemma SampleVisa()
    ensures ValidateCardNumber("4111111111111111") == Some(Visa)
  {
    var s := "4111111111111111";
    assert |s| == 16 && s[0] == '4' && s[1] == '1';
    assert AllDigits(s);
    DigitsNoOp(s);
  }

  /** Example: twelve digits are too few for visa. */
  lemma SampleShortVisa()
    ensures ValidateCardNumber("411111111111") == None
  {
    var s := "411111111111";
    assert |s| == 12 && s[0] == '4' && s[1] == '1';
    assert AllDigits(s);
    DigitsNoOp(s);
  }

  /** Example: a sixteen-digit mastercard number passes. */
  lemma SampleMastercard()
    ensures ValidateCardNumber("5500005555555559") == Some(Mastercard)
  {
    var s := "5500005555555559";
    assert |s| == 16 && s[0] == '5' && s[1] == '5';
    assert AllDigits(s);
    DigitsNoOp(s);
  }

  /** Example: a fifteen-digit amex number passes. */
  lemma SampleAmex()
    ensures ValidateCardNumber("340000000000009") == Some(Amex)
  {
    var s := "340000000000009";
    assert |s| == 15 && s[0] == '3' && s[1] == '4';
    assert AllDigits(s);
    DigitsNoOp(s);
  }

  /** Example: a prefix no brand owns fails. */
  lemma SampleUnknownPrefix()
    ensures ValidateCardNumber("6011000000000004") == None
  {
    var s := "6011000000000004";
    assert |s| == 16 && s[0] == '6' && s[1] == '0';
    assert AllDigits(s);
    DigitsNoOp(s);
  }

  /** Examples: "123" suits mastercard but not amex, "1234" suits amex. */
  lemma SampleCvvs()
    ensures ValidateCvv("123", Some(Mastercard))
    ensures !ValidateCvv("123", Some(Amex))
    ensures ValidateCvv("1234", Some(Amex))
  {
    assert AllDigits("123") && AllDigits("1234");
    DigitsNoOp("123");
    DigitsNoOp("1234");
  }

}
