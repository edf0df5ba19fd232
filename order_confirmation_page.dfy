/**
 * The order-confirmation screen as a view of the stored order: the not-found state, the
 * per-line totals and "was" notes, the tax label, the shipping line, the stored amounts and
 * the payment label.
 */
module OrderConfirmationPage {
  import opened Wrappers
  import opened Text
  import opened Seqs
  import opened Money
  import opened Pricing
  import opened Orders
  import opened TaxRules

  /** One line of the items list. */
  datatype LineView = LineView(title: string, brand: string, quantity: int, total: real, was: Option<real>)

  /** The shipping line: the word FREE, or an amount. */
  datatype ShippingView = Free | Charged(amount: real)

  /** What the screen shows: the not-found state, or the order's details. */
  datatype ConfirmationView =
    | NotFound
    | Confirmed(orderId: string, lines: seq<LineView>, subtotal: real, taxLabel: string,
                tax: real, shipping: ShippingView, total: real, payment: string)

  /** The `paymentMethodLabels` lookup, falling back to the stored value; an order without
      a payment method (from the older checkout) shows nothing. */
  function PaymentLabel(paymentMethod: Option<string>): string {
    match paymentMethod
    case None => ""
    case Some(m) =>
      if m == "credit-card" then "\U{1F4B3} Credit Card"
      else if m == "paypal" then "\U{1F17F}\U{FE0F} PayPal"
      else if m == "bank-transfer" then "\U{1F3E6} Bank Transfer"
      else m
  }

  /** The three known methods have their own labels; every other stored value is shown
      unchanged, and a present method never shows an empty label unless it is itself empty. */
  lemma PaymentLabelSpec(m: string)
    ensures PaymentLabel(Some("credit-card")) == "\U{1F4B3} Credit Card"
    ensures PaymentLabel(Some("paypal")) == "\U{1F17F}\U{FE0F} PayPal"
    ensures PaymentLabel(Some("bank-transfer")) == "\U{1F3E6} Bank Transfer"
    ensures m != "credit-card" && m != "paypal" && m != "bank-transfer" ==> PaymentLabel(Some(m)) == m
    ensures PaymentLabel(Some(m)) == "" <==> m == ""
    ensures PaymentLabel(None) == ""
  {
  }

  /** `isQC`: the upper-cased province field is QC or QUEBEC, without trimming. */
  predicate IsQC(state: string) {
    ToUpper(state) == "QC" || ToUpper(state) == "QUEBEC"
  }

  /** The label after "Tax" in the summary. */
  function TaxLabel(state: string): string {
    if IsQC(state) then "(GST + QST)" else "(GST)"
  }

  /** A value that upper-cases to a string starting and ending with a letter starts and ends
      with a non-blank character. */
  lemma UpperLettersUnpadded(state: string)
    requires |ToUpper(state)| > 0
    requires 'A' <= ToUpper(state)[0] <= 'Z' && 'A' <= ToUpper(state)[|state| - 1] <= 'Z'
    ensures !IsWhitespace(state[0]) && !IsWhitespace(state[|state| - 1])
  {
  }

  /** Whenever the screen labels the tax as GST + QST, the current checkout did charge both:
      a value that upper-cases to QC or QUEBEC is also QC or QUEBEC after trimming. */
  lemma IsQCImpliesQuebecTax(state: string)
    ensures IsQC(state) ==> NamesQuebec(NormalizedState(state))
  {
    if IsQC(state) {
      UpperLettersUnpadded(state);
      TrimUnpadded(state);
    }
  }

  /** The converse fails: " QC" pays both taxes at checkout, since checkout trims, yet the
      confirmation labels its tax "(GST)". */
  lemma PaddedQuebecMislabelled()
    ensures NamesQuebec(NormalizedState(" QC")) && !IsQC(" QC") && TaxLabel(" QC") == "(GST)"
  {
    assert LeadingWhitespace(" QC") == 1;
    assert TrailingWhitespace("QC") == 0;
    assert Trim(" QC") == "QC";
    assert ToUpper("QC") == "QC";
    assert ToUpper(" QC")[0] == ' ';
  }

  /** `itemTotal`: the line's discounted price times its quantity, unrounded. */
  function ItemTotal(item: CartItem): real {
    var discountedPrice := item.price * (1.0 - item.discountPercentage / 100.0);
    discountedPrice * item.quantity as real
  }

  /** The "was" note: the undiscounted line amount, for a discount of at least 1%. */
  function WasNote(item: CartItem): (r: Option<real>)
    ensures r.Some? <==> item.discountPercentage >= 1.0
    ensures r.Some? ==> r.value == ToFixed2(LineOriginal(item))
  {
    if item.discountPercentage >= 1.0 then
      var was := item.price * item.quantity as real;
      assert was == LineOriginal(item);
      Some(ToFixed2(was))
    else None
  }

  function LineOf(item: CartItem): LineView {
    LineView(item.title, item.brand, item.quantity, ToFixed2(ItemTotal(item)), WasNote(item))
  }

  /** The shipping line shows FREE exactly for a stored shipping of 0. */
  function ShippingOf(shipping: real): (r: ShippingView)
    ensures r == Free <==> shipping == 0.0
    ensures r.Charged? ==> r.amount == ToFixed2(shipping)
  {
    if shipping == 0.0 then Free else Charged(ToFixed2(shipping))
  }

  /** The screen for an optional order. The amounts are the stored ones, rounded for
      display, never recomputed from the items. */
  function View(order: Option<Order>): (v: ConfirmationView)
    ensures v.NotFound? <==> order.None?
    ensures order.Some? ==>
      (|v.lines| == |order.value.items|
       && (forall i :: 0 <= i < |v.lines| ==> v.lines[i] == LineOf(order.value.items[i]))
       && v.total == ToFixed2(order.value.total))
  {
    match order
    case None => NotFound
    case Some(o) =>
      Confirmed(o.orderId, seq(|o.items|, i requires 0 <= i < |o.items| => LineOf(o.items[i])),
                ToFixed2(o.subtotal), TaxLabel(o.customer.state), ToFixed2(o.tax),
                ShippingOf(o.shipping), ToFixed2(o.total), PaymentLabel(o.paymentMethod))
  }

  /** Each line's total uses the same formula as the checkout and cart subtotal, so the
      unrounded line totals of an order add up to its cart subtotal. */
  lemma ItemTotalsAreLineTotals(items: seq<CartItem>)
    ensures forall item :: ItemTotal(item) == LineTotal(item)
    ensures SumOf(items, ItemTotal) == Subtotal(items)
  {
    SumOfCongruent(items, ItemTotal, LineTotal);
  }

  /** For an order built by either checkout, the screen shows the stored subtotal, tax and
      total exactly (they are already whole cents), the subtotal is the rounded sum of the
      unrounded line totals, and shipping shows FREE exactly when the subtotal exceeded 100
      and 10.00 otherwise. */
  lemma PlacedOrderView(orderId: string, date: string, form: map<FormRules.Field, string>,
                        cart: seq<CartItem>, tax: real, paymentMethod: Option<string>)
    ensures var o := BuildOrder(orderId, date, form, cart, tax, paymentMethod);
      var v := View(Some(o));
      && v.subtotal == o.subtotal == ToFixed2(SumOf(o.items, ItemTotal))
      && v.tax == o.tax && v.total == o.total
      && (v.shipping == Free <==> Subtotal(cart) > 100.0)
      && (v.shipping != Free ==> v.shipping == Charged(10.0))
      && v.payment == PaymentLabel(paymentMethod)
  {
    var subtotal := Subtotal(cart);
    ToFixed2Idempotent(subtotal);
    ToFixed2Idempotent(tax);
    ToFixed2Idempotent(subtotal + tax + Shipping(subtotal));
    ItemTotalsAreLineTotals(cart);
    ToFixed2OfCents(10.0);
  }

  /** A line of 2 at 40.00 with 25% off shows 60.00, "was 80.00". */
  lemma DiscountedLineExample()
    ensures LineOf(CartItem(1, "Item", "Brand", "", 40.0, 25.0, 2))
      == LineView("Item", "Brand", 2, 60.0, Some(80.0))
  {
    RoundOfInteger(6000);
    RoundOfInteger(8000);
  }
}
