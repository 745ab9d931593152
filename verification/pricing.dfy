/**
  The order summary of the checkout page: subtotal over the cart, 8% tax on
  the subtotal, flat shipping unless the subtotal is over 50, and at most
  one coupon, looked up by exact code in the catalog the page was given.
  Amounts are exact reals.
 */
module Pricing {
  import opened Options

  datatype CartItem = CartItem(
    id: string,
    variantId: string,
    name: string,
    price: real,
    size: string,
    color: string,
    quantity: int,
    image: string)

  datatype DiscountKind = Percentage | Fixed | FreeShipping

  datatype Coupon = Coupon(
    id: string,
    code: string,
    kind: DiscountKind,
    value: real,
    description: Option<string>)

  datatype OrderTotals = OrderTotals(
    subtotal: real,
    discount: real,
    tax: real,
    shipping: real,
    total: real)

  const TaxRate: real := 0.08
  const FlatShipping: real := 9.99
  const FreeShippingAbove: real := 50.0

  function LineAmount(item: CartItem): real {
    item.price * item.quantity as real
  }

  /** The sum of price times quantity over the cart; never negative when no
      price or quantity is. */
  function Subtotal(items: seq<CartItem>): (r: real)
    ensures (forall i :: 0 <= i < |items| ==> items[i].price >= 0.0 && items[i].quantity >= 0) ==> r >= 0.0
    decreases |items|
  {
    if |items| == 0 then 0.0 else LineAmount(items[0]) + Subtotal(items[1..])
  }

  lemma {:induction false} SubtotalAppend(a: seq<CartItem>, b: seq<CartItem>)
    ensures Subtotal(a + b) == Subtotal(a) + Subtotal(b)
    decreases |a|
  {
    if |a| > 0 {
      assert (a + b)[0] == a[0];
      assert (a + b)[1..] == a[1..] + b;
      SubtotalAppend(a[1..], b);
      assert Subtotal(a + b) == LineAmount(a[0]) + Subtotal(a[1..] + b);
    } else {
      assert a + b == b;
    }
  }

  /** `cartItems.reduce((sum, item) => sum + item.price * item.quantity, 0)`:
      the page's left-to-right fold gives the subtotal. */
  method SumLines(items: seq<CartItem>) returns (sum: real)
    ensures sum == Subtotal(items)
  {
    sum := 0.0;
    var i := 0;
    while i < |items|
      invariant i <= |items|
      invariant sum == Subtotal(items[..i])
    {
      assert items[..i + 1] == items[..i] + [items[i]];
      SubtotalAppend(items[..i], [items[i]]);
      sum := sum + LineAmount(items[i]);
      i := i + 1;
    }
    assert items[..i] == items;
  }

  /** Shipping before any coupon: free strictly above the threshold, the flat
      fee otherwise. */
  function BaseShipping(subtotal: real): (s: real)
    ensures s == 0.0 <==> subtotal > FreeShippingAbove
    ensures s == 0.0 || s == FlatShipping
  {
    if subtotal > FreeShippingAbove then 0.0 else FlatShipping
  }

  /** The test `.find` applies: the code equals, case for case, the radio
      choice or the typed code. */
  predicate CodeMatches(c: Coupon, selected: string, custom: string) {
    c.code == selected || c.code == custom
  }

  /** The index of the first catalog entry from `from` on that matches. */
  function FindFrom(catalog: seq<Coupon>, selected: string, custom: string, from: nat): (r: Option<nat>)
    requires from <= |catalog|
    ensures r.Some? ==>
      && from <= r.value < |catalog|
      && CodeMatches(catalog[r.value], selected, custom)
      && forall j :: from <= j < r.value ==> !CodeMatches(catalog[j], selected, custom)
    ensures r.None? ==> forall j :: from <= j < |catalog| ==> !CodeMatches(catalog[j], selected, custom)
    decreases |catalog| - from
  {
    if from == |catalog| then None
    else if CodeMatches(catalog[from], selected, custom) then Some(from)
    else FindFrom(catalog, selected, custom, from + 1)
  }

  /** `initialCoupons.find(...)`: the first catalog entry whose code is the
      selected or the typed one, if any. */
  function AppliedCoupon(catalog: seq<Coupon>, selected: string, custom: string): (r: Option<Coupon>)
    ensures r.Some? <==> exists j :: 0 <= j < |catalog| && CodeMatches(catalog[j], selected, custom)
    ensures r.Some? ==> exists j ::
      && 0 <= j < |catalog| && r.value == catalog[j]
      && CodeMatches(catalog[j], selected, custom)
      && forall k :: 0 <= k < j ==> !CodeMatches(catalog[k], selected, custom)
  {
    match FindFrom(catalog, selected, custom, 0)
    case Some(j) => Some(catalog[j])
    case None => None
  }

  /** The page's totals for a cart and the coupon it applies. */
  function ComputeTotals(items: seq<CartItem>, applied: Option<Coupon>): (t: OrderTotals)
    ensures t.subtotal == Subtotal(items)
    ensures t.tax == t.subtotal * TaxRate
    ensures t.total == t.subtotal - t.discount + t.tax + t.shipping
    ensures applied.None? ==> t.discount == 0.0 && t.shipping == BaseShipping(t.subtotal)
    ensures applied.Some? && applied.value.kind == Percentage ==>
      t.discount == t.subtotal * applied.value.value / 100.0 && t.shipping == BaseShipping(t.subtotal)
    ensures applied.Some? && applied.value.kind == Fixed ==>
      t.discount == applied.value.value && t.shipping == BaseShipping(t.subtotal)
    ensures applied.Some? && applied.value.kind == FreeShipping ==>
      t.discount == 0.0 && t.shipping == 0.0
  {
    var subtotal := Subtotal(items);
    var tax := subtotal * TaxRate;
    var baseShipping := BaseShipping(subtotal);
    var (discount, shipping) :=
      match applied
      case None => (0.0, baseShipping)
      case Some(c) =>
        match c.kind
        case Percentage => (subtotal * (c.value / 100.0), baseShipping)
        case Fixed => (c.value, baseShipping)
        case FreeShipping => (0.0, 0.0);
    OrderTotals(subtotal, discount, tax, shipping, subtotal - discount + tax + shipping)
  }

  /** The totals the page shows for its cart, catalog and coupon inputs: when
      no catalog code equals either input, no discount and base shipping. */
  function CheckoutTotals(items: seq<CartItem>, catalog: seq<Coupon>, selected: string, custom: string): (t: OrderTotals)
    ensures t.subtotal == Subtotal(items) && t.tax == t.subtotal * TaxRate
    ensures t.total == t.subtotal - t.discount + t.tax + t.shipping
    ensures (forall j :: 0 <= j < |catalog| ==> !CodeMatches(catalog[j], selected, custom)) ==>
      t.discount == 0.0 && t.shipping == BaseShipping(t.subtotal)
    ensures (exists j :: 0 <= j < |catalog| && CodeMatches(catalog[j], selected, custom)
                          && catalog[j].kind == FreeShipping
                          && forall k :: 0 <= k < j ==> !CodeMatches(catalog[k], selected, custom)) ==>
      t.shipping == 0.0
  {
    ComputeTotals(items, AppliedCoupon(catalog, selected, custom))
  }

  /** What a coupon takes off the coupon-free total. */
  function Saving(c: Coupon, subtotal: real): real {
    match c.kind
    case Percentage => subtotal * c.value / 100.0
    case Fixed => c.value
    case FreeShipping => BaseShipping(subtotal)
  }

  /** Every coupon lowers the coupon-free total by exactly its saving, and
      leaves subtotal and tax as they are. */
  lemma CouponSaving(items: seq<CartItem>, c: Coupon)
    ensures var with, without := ComputeTotals(items, Some(c)), ComputeTotals(items, None);
      && with.total == without.total - Saving(c, without.subtotal)
      && with.subtotal == without.subtotal
      && with.tax == without.tax
  {
  }

  /** A shipping coupon makes shipping free, and nothing else does so below
      the threshold. */
  lemma FreeShippingExactly(items: seq<CartItem>, applied: Option<Coupon>)
    ensures ComputeTotals(items, applied).shipping == 0.0 <==>
      Subtotal(items) > FreeShippingAbove || (applied.Some? && applied.value.kind == FreeShipping)
  {
  }

  /** The coupon the page applies after the radio choice of `code` (which
      empties the typed code): the first entry with that code, provided no
      entry has the empty code. */
  lemma PickedCouponApplies(catalog: seq<Coupon>, code: string)
    requires forall j :: 0 <= j < |catalog| ==> catalog[j].code != ""
    ensures AppliedCoupon(catalog, code, "") == AppliedCoupon(catalog, code, code)
    ensures AppliedCoupon(catalog, "", code) == AppliedCoupon(catalog, code, code)
  {
    FindSameMatches(catalog, code, "", code, code, 0);
    FindSameMatches(catalog, "", code, code, code, 0);
  }

  /** Two pairs of codes that match the same entries find the same one. */
  lemma {:induction false} FindSameMatches(catalog: seq<Coupon>, s1: string, c1: string, s2: string, c2: string, from: nat)
    requires from <= |catalog|
    requires forall j :: from <= j < |catalog| ==> (CodeMatches(catalog[j], s1, c1) <==> CodeMatches(catalog[j], s2, c2))
    ensures FindFrom(catalog, s1, c1, from) == FindFrom(catalog, s2, c2, from)
    decreases |catalog| - from
  {
    if from < |catalog| {
      FindSameMatches(catalog, s1, c1, s2, c2, from + 1);
    }
  }

  /** Examples: a 100 cart with no coupon and with a 10% coupon, and a 20
      cart with a shipping coupon. */
  lemma SampleTotals()
    ensures var cart := [Item(30.0, 2), Item(40.0, 1)];
      ComputeTotals(cart, None) == OrderTotals(100.0, 0.0, 8.0, 0.0, 108.0)
      && ComputeTotals(cart, Some(Coupon("c1", "TEN", Percentage, 10.0, None)))
         == OrderTotals(100.0, 10.0, 8.0, 0.0, 98.0)
    ensures ComputeTotals([Item(20.0, 1)], Some(Coupon("c2", "SHIP", FreeShipping, 0.0, None)))
      == OrderTotals(20.0, 0.0, 1.6, 0.0, 21.6)
  {
    var cart := [Item(30.0, 2), Item(40.0, 1)];
    assert Subtotal(cart) == 100.0 by {
      assert cart[1..] == [Item(40.0, 1)];
      assert cart[1..][1..] == [];
    }
    assert Subtotal([Item(20.0, 1)]) == 20.0 by {
      assert [Item(20.0, 1)][1..] == [];
    }
  }

  /** A fixed coupon is not capped at the subtotal: a 25 coupon on a 10 cart
      gives a negative total. */
  lemma FixedDiscountUncapped()
    ensures ComputeTotals([Item(10.0, 1)], Some(Coupon("c3", "BIG", Fixed, 25.0, None))).total < 0.0
  {
    assert Subtotal([Item(10.0, 1)]) == 10.0 by {
      assert [Item(10.0, 1)][1..] == [];
    }
  }

  /** A cart line with only a price and a quantity, for the samples. */
  function Item(price: real, quantity: int): CartItem {
    CartItem("", "", "", price, "", "", quantity, "")
  }

}
