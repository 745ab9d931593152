/**
  The checkout page as a reducer: each user action or timer expiry is an
  event, and each handler a pure update of the page state.

  Pressing Pay runs the synchronous start of `handlePayment` (errors
  cleared, processing on) and fixes the form values its closure sees; the
  event `PaymentDue` is the rest of it, after the simulated delay:
  validation of those values (PayPal skips it) and, when nothing failed,
  the order placement, whose result comes in with the event.
 */
module Checkout {
  import opened Options
  import opened JsText
  import opened Cards
  import opened CardFormat
  import opened Expiry
  import opened Pricing

  datatype PaymentMethod = Card | PayPal

  datatype Field = NumberField | ExpiryField | CvcField | NameField

  datatype PaymentResult = Succeeded | Failed

  /** How the awaited `createOrder` call ends: it resolves with success, it
      resolves with an error (only logged), or its promise rejects, which
      nothing on the page catches. */
  datatype PlaceResult = Placed | Rejected(reason: string) | Threw

  /** The arguments of one `createOrder` call (the shipping address is a
      constant and left out). */
  datatype OrderRequest = OrderRequest(items: seq<CartItem>, total: real, discount: real, paymentMethod: PaymentMethod)

  /** What the page is given: the cart and the active coupon catalog. */
  datatype Props = Props(cart: seq<CartItem>, coupons: seq<Coupon>)

  datatype CardDetails = CardDetails(number: string, expiry: string, cvc: string, name: string)

  /** The values the form holds. */
  datatype Form = Form(
    card: CardDetails,
    cardType: Option<Brand>,
    selected: string,
    custom: string,
    paymentMethod: PaymentMethod)

  /** The page state. `pending` is present exactly while a payment is in
      flight, and holds the form values that payment works on. `stalled`
      says that a payment ended with a rejected `createOrder` promise: the
      handler stopped before it could end processing, so the page stays
      processing with no payment in flight. `orders` records every
      `createOrder` call. */
  datatype State = State(
    form: Form,
    errors: map<Field, string>,
    pending: Option<Form>,
    stalled: bool,
    result: Option<PaymentResult>,
    orders: seq<OrderRequest>)

  datatype Event =
    | NumberChanged(raw: string)
    | ExpiryChanged(raw: string)
    | CvcChanged(raw: string)
    | NameChanged(raw: string)
    | CouponPicked(code: string)
    | CouponTyped(code: string)
    | MethodPicked(paymentMethod: PaymentMethod)
    | PayPressed
    | PaymentDue(currentYear: int, currentMonth: int, placed: PlaceResult)
    | TryAgainPressed

  /** `isProcessing`, which disables the Pay button. */
  predicate IsProcessing(s: State) {
    s.pending.Some? || s.stalled
  }

  const NumberMessage := "Invalid card number or unsupported card type (Visa, Mastercard, Amex)"
  const ExpiryMessage := "Invalid expiry date (MM/YY) or expired"
  const CvcMessage := "Invalid CVV"
  const NameMessage := "Cardholder name is required"

  function Message(f: Field): string {
    match f
    case NumberField => NumberMessage
    case ExpiryField => ExpiryMessage
    case CvcField => CvcMessage
    case NameField => NameMessage
  }

  const InitialState := State(
    Form(CardDetails("", "", "", ""), None, "", "", Card), map[], None, false, None, [])

  /** The field errors of the card method, built one check after the other.
      The number check is the loose brand detection held in `cardType`, not
      the strict validator. */
  function CardErrors(f: Form, currentYear: int, currentMonth: int): (errs: map<Field, string>)
    ensures NumberField in errs <==> f.cardType.None?
    ensures ExpiryField in errs <==> !ValidateDate(f.card.expiry, currentYear, currentMonth)
    ensures CvcField in errs <==> !ValidateCvv(f.card.cvc, f.cardType)
    ensures NameField in errs <==> IsBlank(f.card.name)
    ensures forall k :: k in errs ==> errs[k] == Message(k)
  {
    var e0: map<Field, string> := map[];
    var e1 := if f.cardType.None? then e0[NumberField := NumberMessage] else e0;
    var e2 := if !ValidateDate(f.card.expiry, currentYear, currentMonth) then e1[ExpiryField := ExpiryMessage] else e1;
    var e3 := if !ValidateCvv(f.card.cvc, f.cardType) then e2[CvcField := CvcMessage] else e2;
    if IsBlank(f.card.name) then e3[NameField := NameMessage] else e3
  }

  /** `processOrder`: one `createOrder` call with the page's cart and the
      totals of the form the payment works on. A resolved call decides the
      page's result and ends processing; a rejected one leaves both as they
      were, so the page stays processing with no result. */
  function PlaceOrder(s: State, props: Props, f: Form, placed: PlaceResult): (r: State)
    ensures var t := CheckoutTotals(props.cart, props.coupons, f.selected, f.custom);
      r.orders == s.orders + [OrderRequest(props.cart, t.total, t.discount, f.paymentMethod)]
    ensures r.pending.None? && r.form == s.form && r.errors == s.errors
    ensures placed.Placed? ==> r.result == Some(Succeeded) && r.stalled == s.stalled
    ensures placed.Rejected? ==> r.result == Some(Failed) && r.stalled == s.stalled
    ensures placed.Threw? ==> r.result == s.result && IsProcessing(r)
  {
    var t := CheckoutTotals(props.cart, props.coupons, f.selected, f.custom);
    var logged := s.orders + [OrderRequest(props.cart, t.total, t.discount, f.paymentMethod)];
    match placed
    case Placed => s.(orders := logged, result := Some(Succeeded), pending := None)
    case Rejected(_) => s.(orders := logged, result := Some(Failed), pending := None)
    case Threw => s.(orders := logged, pending := None, stalled := true)
  }

  /** The part of `handlePayment` after the delay: PayPal, or a card form
      that passes every check, places one order; a card form with a failing
      field shows exactly the failed checks and places none. Either way the
      payment is no longer in flight and the form is untouched. */
  function Settle(s: State, props: Props, f: Form, currentYear: int, currentMonth: int, placed: PlaceResult): (r: State)
    ensures r.pending.None? && r.form == s.form
    ensures s.orders <= r.orders
    ensures |r.orders| == |s.orders| + 1 <==>
      f.paymentMethod == PayPal || CardErrors(f, currentYear, currentMonth) == map[]
    ensures |r.orders| <= |s.orders| + 1
    ensures f.paymentMethod == Card && CardErrors(f, currentYear, currentMonth) != map[] ==>
      && r.errors == CardErrors(f, currentYear, currentMonth)
      && r.result == s.result && r.stalled == s.stalled
  {
    if f.paymentMethod == PayPal then PlaceOrder(s, props, f, placed)
    else
      var errs := CardErrors(f, currentYear, currentMonth);
      if errs != map[] then s.(errors := errs, pending := None)
      else PlaceOrder(s, props, f, placed)
  }

  /** The form handlers. With the card method the number handler writes
      the formatted digits (whose spaces removed give the kept digits) and
      the brand detected on them, the expiry handler the masked text, and
      the CVV and name handlers the typed text; picking or typing a coupon
      fills one input and empties the other. Each field changes only
      through its own handler, and with PayPal the card inputs are not on
      the page. */
  function Edit(f: Form, e: Event): (r: Form)
    ensures r.paymentMethod == (if e.MethodPicked? then e.paymentMethod else f.paymentMethod)
    ensures f.paymentMethod == PayPal ==> r.card == f.card && r.cardType == f.cardType
    ensures r.card.number != f.card.number || r.cardType != f.cardType ==> e.NumberChanged?
    ensures r.card.expiry != f.card.expiry ==> e.ExpiryChanged?
    ensures r.card.cvc != f.card.cvc ==> e.CvcChanged?
    ensures r.card.name != f.card.name ==> e.NameChanged?
    ensures r.selected != f.selected || r.custom != f.custom ==> e.CouponPicked? || e.CouponTyped?
    ensures e.NumberChanged? && f.paymentMethod == Card ==>
      && r.card.number == FormatCardNumber(e.raw)
      && StripSpaces(r.card.number) == CardDigits(e.raw)
      && r.cardType == DetectCardType(r.card.number)
    ensures e.ExpiryChanged? && f.paymentMethod == Card ==> r.card.expiry == MaskExpiry(e.raw)
    ensures e.CvcChanged? && f.paymentMethod == Card ==> r.card.cvc == e.raw
    ensures e.NameChanged? && f.paymentMethod == Card ==> r.card.name == e.raw
    ensures e.CouponPicked? ==> r.selected == e.code && r.custom == ""
    ensures e.CouponTyped? ==> r.custom == e.code && r.selected == ""
  {
    match e
    case NumberChanged(raw) =>
      FormatKeepsBrand(raw);
      FormatRoundTrip(raw);
      if f.paymentMethod == Card then f.(card := f.card.(number := FormatCardNumber(raw)), cardType := TypedBrand(raw)) else f
    case ExpiryChanged(raw) =>
      if f.paymentMethod == Card then f.(card := f.card.(expiry := MaskExpiry(raw))) else f
    case CvcChanged(raw) =>
      if f.paymentMethod == Card then f.(card := f.card.(cvc := raw)) else f
    case NameChanged(raw) =>
      if f.paymentMethod == Card then f.(card := f.card.(name := raw)) else f
    case CouponPicked(code) => f.(selected := code, custom := "")
    case CouponTyped(code) => f.(custom := code, selected := "")
    case MethodPicked(m) => f.(paymentMethod := m)
    case _ => f
  }

  /** One event. While a result is shown the form is not on the page, so only
      Try Again (on the failure page) does anything; card fields exist only
      with the card method; Pay is disabled while processing. Orders are only
      ever appended, a stalled page stays stalled, and the form changes only
      through its handlers. */
  function Step(s: State, props: Props, e: Event): (r: State)
    ensures s.orders <= r.orders
    ensures s.stalled ==> r.stalled
    ensures s.result.Some? ==> r == s.(result := r.result)
    ensures r.result != s.result ==>
      || (s.result == Some(Failed) && e.TryAgainPressed? && r.result.None?)
      || (s.result.None? && e.PaymentDue? && s.pending.Some?)
    ensures r.form != s.form ==>
      s.result.None? && !(e.PayPressed? || e.PaymentDue? || e.TryAgainPressed?)
  {
    if s.result.Some? then
      if e.TryAgainPressed? && s.result == Some(Failed) then s.(result := None) else s
    else
      match e
      case PayPressed =>
        if IsProcessing(s) then s else s.(errors := map[], pending := Some(s.form))
      case PaymentDue(y, m, placed) =>
        if s.pending.None? then s else Settle(s, props, s.pending.value, y, m, placed)
      case TryAgainPressed => s
      case _ => s.(form := Edit(s.form, e))
  }

  /** Every event in turn. */
  function Run(s: State, props: Props, events: seq<Event>): State
    decreases |events|
  {
    if |events| == 0 then s else Run(Step(s, props, events[0]), props, events[1..])
  }

  /** A form whose number and expiry fields hold text their handlers leave
      as it is (formatted digits, masked expiry), whose brand is the one
      detected on its number, and whose two coupon inputs are never both
      filled. */
  predicate FormOk(f: Form) {
    && FormatCardNumber(f.card.number) == f.card.number
    && MaskExpiry(f.card.expiry) == f.card.expiry
    && f.cardType == DetectCardType(f.card.number)
    && (f.selected == "" || f.custom == "")
  }

  /** What the page keeps true between events. */
  predicate Inv(s: State) {
    && FormOk(s.form)
    && (s.pending.Some? ==> FormOk(s.pending.value) && s.errors == map[] && s.result.None? && !s.stalled)
    && (s.stalled ==> s.result.None? && s.errors == map[])
  }

  lemma InitialStateOk()
    ensures Inv(InitialState)
  {
    assert StripSpaces("") == "";
    assert KeepDigits("") == "";
    assert CardDigits("") == "";
  }

  /** Every handler leaves a consistent form: the number handler writes
      text its formatter leaves as it is, and the expiry handler text its
      mask leaves as it is. */
  lemma EditKeepsFormOk(f: Form, e: Event)
    requires FormOk(f)
    ensures FormOk(Edit(f, e))
  {
    match e
    case NumberChanged(raw) => FormatIdempotent(raw);
    case ExpiryChanged(raw) => MaskExpiryIdempotent(raw);
    case _ =>
  }

  /** Every event keeps the invariant: in particular the brand the change
      handler sets is always the one the number effect would re-detect. */
  lemma StepKeepsInv(s: State, props: Props, e: Event)
    requires Inv(s)
    ensures Inv(Step(s, props, e))
  {
    EditKeepsFormOk(s.form, e);
  }

  lemma {:induction false} RunKeepsInv(s: State, props: Props, events: seq<Event>)
    requires Inv(s)
    ensures Inv(Run(s, props, events))
    decreases |events|
  {
    if |events| > 0 {
      StepKeepsInv(s, props, events[0]);
      RunKeepsInv(Step(s, props, events[0]), props, events[1..]);
    }
  }

  /** Every state the page can reach keeps the invariant. */
  lemma ReachableOk(props: Props, events: seq<Event>)
    ensures Inv(Run(InitialState, props, events))
  {
    InitialStateOk();
    RunKeepsInv(InitialState, props, events);
  }

  /** Pressing Pay clears the errors and starts processing on the current
      form; pressing it again while processing does nothing. */
  lemma PayStartsProcessing(s: State, props: Props)
    requires s.result.None?
    ensures !IsProcessing(s) ==>
      Step(s, props, PayPressed) == s.(errors := map[], pending := Some(s.form))
    ensures IsProcessing(s) ==> Step(s, props, PayPressed) == s
  {
  }

  /** Card method with a field error: the errors are exactly the failed
      checks, processing ends, no order is created and the result stays
      empty. */
  lemma InvalidCardStops(s: State, props: Props, y: int, m: int, placed: PlaceResult)
    requires Inv(s)
    requires s.result.None? && s.pending.Some? && s.pending.value.paymentMethod == Card
    requires CardErrors(s.pending.value, y, m) != map[]
    ensures var s' := Step(s, props, PaymentDue(y, m, placed));
      && s'.errors == CardErrors(s.pending.value, y, m)
      && !IsProcessing(s')
      && s'.orders == s.orders
      && s'.result == None
      && s'.form == s.form
  {
  }

  /** PayPal, or the card method with no field error: exactly one order is
      created, for the page's cart with the totals of the form being paid.
      A resolved call becomes the page's result and ends processing; a
      rejected one shows no result and leaves the page processing. */
  lemma ValidPaymentPlacesOrder(s: State, props: Props, y: int, m: int, placed: PlaceResult)
    requires Inv(s)
    requires s.result.None? && s.pending.Some?
    requires s.pending.value.paymentMethod == PayPal || CardErrors(s.pending.value, y, m) == map[]
    ensures var s' := Step(s, props, PaymentDue(y, m, placed));
      var f := s.pending.value;
      var t := CheckoutTotals(props.cart, props.coupons, f.selected, f.custom);
      && s'.orders == s.orders + [OrderRequest(props.cart, t.total, t.discount, f.paymentMethod)]
      && s'.result == (match placed
                       case Placed => Some(Succeeded)
                       case Rejected(_) => Some(Failed)
                       case Threw => None)
      && (IsProcessing(s') <==> placed.Threw?)
      && s'.pending.None?
      && s'.errors == s.errors
  {
  }

  /** After a rejected `createOrder` call nothing brings the page back: it
      stays processing (so Pay stays disabled), never shows a result and
      creates no further order, whatever happens next. */
  lemma {:induction false} StalledStaysStuck(s: State, props: Props, events: seq<Event>)
    requires Inv(s) && s.stalled
    ensures var s' := Run(s, props, events);
      && IsProcessing(s') && s'.pending.None? && s'.result.None? && s'.orders == s.orders
    decreases |events|
  {
    if |events| > 0 {
      var s1 := Step(s, props, events[0]);
      StepKeepsInv(s, props, events[0]);
      assert s1.orders == s.orders;
      StalledStaysStuck(s1, props, events[1..]);
    }
  }

  /** An order is created by an event exactly when a payment is due and
      either PayPal is used or the card fields all pass; no event creates
      more than one, and none removes or changes an earlier one. */
  lemma OrderCreatedExactly(s: State, props: Props, e: Event)
    ensures var s' := Step(s, props, e);
      && s.orders <= s'.orders
      && |s'.orders| <= |s.orders| + 1
      && (|s'.orders| == |s.orders| + 1 <==>
            && e.PaymentDue? && s.result.None? && s.pending.Some?
            && (s.pending.value.paymentMethod == PayPal
                || CardErrors(s.pending.value, e.currentYear, e.currentMonth) == map[]))
  {
  }

  /** A successful payment is final: no event changes the state again. */
  lemma SuccessIsFinal(s: State, props: Props, e: Event)
    requires s.result == Some(Succeeded)
    ensures Step(s, props, e) == s
  {
  }

  /** Try Again on the failure page brings the form back as it was. */
  lemma TryAgainResets(s: State, props: Props)
    requires s.result == Some(Failed)
    ensures Step(s, props, TryAgainPressed) == s.(result := None)
  {
  }

  /** Picking a coupon empties the typed code and typing one clears the
      pick, so the applied coupon is the first one carrying that code. */
  lemma CouponInputsExclusive(s: State, props: Props, code: string)
    requires s.result.None?
    requires forall j :: 0 <= j < |props.coupons| ==> props.coupons[j].code != ""
    ensures var f := Step(s, props, CouponPicked(code)).form;
      f.selected == code && f.custom == ""
      && AppliedCoupon(props.coupons, f.selected, f.custom) == AppliedCoupon(props.coupons, code, code)
    ensures var f := Step(s, props, CouponTyped(code)).form;
      f.custom == code && f.selected == ""
      && AppliedCoupon(props.coupons, f.selected, f.custom) == AppliedCoupon(props.coupons, code, code)
  {
    PickedCouponApplies(props.coupons, code);
  }

  /** The submit-time number check is the loose one: a lone "4" passes it
      although the strict validator refuses it. */
  lemma LooseNumberCheckAtSubmit()
    ensures var f := Edit(InitialState.form, NumberChanged("4"));
      && NumberField !in CardErrors(f, 0, 1)
      && ValidateCardNumber(f.card.number).None?
  {
    var f := Edit(InitialState.form, NumberChanged("4"));
    assert KeepDigits("4") == "4" by {
      DigitsNoOp("4");
    }
    assert TypedBrand("4") == Some(Visa) by {
      DigitsNoOp("4");
    }
    assert CardDigits("4") == "4";
    assert f.card.number == "4";
    DigitsNoOp("4");
  }

  /** Example: from an idle card form with bad details, Pay and the delay
      leave the page idle with field errors and no order. */
  lemma InvalidCardScenario(s: State, props: Props, y: int, m: int, placed: PlaceResult)
    requires Inv(s)
    requires s.result.None? && !IsProcessing(s) && s.form.paymentMethod == Card
    requires CardErrors(s.form, y, m) != map[]
    ensures var s' := Run(s, props, [PayPressed, PaymentDue(y, m, placed)]);
      && s'.errors != map[]
      && !IsProcessing(s')
      && s'.result.None?
      && s'.orders == s.orders
  {
    var events := [PayPressed, PaymentDue(y, m, placed)];
    var s1 := Step(s, props, PayPressed);
    var s2 := Step(s1, props, PaymentDue(y, m, placed));
    assert events[1..] == [PaymentDue(y, m, placed)];
    assert events[1..][1..] == [];
    assert Run(s, props, events) == Run(s1, props, events[1..]);
    assert Run(s1, props, events[1..]) == Run(s2, props, []) == s2;
    InvalidCardStops(s1, props, y, m, placed);
  }

}
