/**
 * The cart screen's arithmetic: the discounted total, the undiscounted total, the savings
 * (counted only for discounts of at least 1%), the item count and its label, the per-line
 * display amounts, and the quantity each button asks for.
 */
module CartPage {
  import opened Seqs
  import opened Money
  import opened Pricing

  /** `calculateTotal`: the cart's discounted sum, rounded to cents. */
  function CalculateTotal(cart: seq<CartItem>): real {
    ToFixed2(Subtotal(cart))
  }

  /** `calculateOriginalTotal`: the sum before discounts, rounded to cents. */
  function CalculateOriginalTotal(cart: seq<CartItem>): real {
    ToFixed2(OriginalSubtotal(cart))
  }

  /** A discount the screen counts and labels: at least one percent. */
  predicate SignificantDiscount(item: CartItem) {
    item.discountPercentage >= 1.0
  }

  /** The unrounded savings: the line discounts of the lines with a significant discount. */
  function SignificantSavings(cart: seq<CartItem>): real {
    SumOf(Filter(cart, SignificantDiscount), LineSavings)
  }

  /** `calculateSavings`, rounded to cents. */
  function CalculateSavings(cart: seq<CartItem>): real {
    ToFixed2(SignificantSavings(cart))
  }

  /** `totalItems`: the sum of the quantities. */
  function TotalItems(cart: seq<CartItem>): int {
    if cart == [] then 0 else cart[0].quantity + TotalItems(cart[1..])
  }

  /** The word after the item count. */
  function ItemsLabel(totalItems: int): string {
    if totalItems == 1 then "item" else "items"
  }

  /** The unit price a line shows: the discounted price rounded to cents. */
  function DisplayedUnitPrice(item: CartItem): real {
    ToFixed2(DiscountedPrice(item.price, item.discountPercentage))
  }

  /** The line total a line shows: the ROUNDED unit price times the quantity, rounded again. */
  function DisplayedLineTotal(item: CartItem): real {
    ToFixed2(DisplayedUnitPrice(item) * item.quantity as real)
  }

  /** Whether the summary shows a savings row. */
  predicate ShowsSavingsRow(cart: seq<CartItem>) {
    CalculateSavings(cart) > 0.0
  }

  /** Whether a line shows its original price and its "% OFF" label. */
  predicate ShowsDiscountLabel(item: CartItem) {
    SignificantDiscount(item)
  }

  /** The quantity the minus button asks for. */
  function DecrementRequest(item: CartItem): int {
    item.quantity - 1
  }

  /** The quantity the plus button asks for. */
  function IncrementRequest(item: CartItem): int {
    item.quantity + 1
  }

  /** The savings are the sum of the line discounts with every line under 1% counted as 0. */
  lemma SavingsIgnoresSmallDiscounts(cart: seq<CartItem>)
    ensures SignificantSavings(cart)
      == SumOf(cart, (item: CartItem) => if SignificantDiscount(item) then LineSavings(item) else 0.0)
  {
    SumOfFilter(cart, SignificantDiscount, LineSavings,
                (item: CartItem) => if SignificantDiscount(item) then LineSavings(item) else 0.0);
  }

  /** When every line is either undiscounted or discounted by at least 1 percent, the savings
      are exactly the difference between the undiscounted and the discounted totals (before
      rounding). */
  lemma SavingsIsTotalDiscount(cart: seq<CartItem>)
    requires forall i :: 0 <= i < |cart| ==>
      cart[i].discountPercentage == 0.0 || cart[i].discountPercentage >= 1.0
    ensures SignificantSavings(cart) == OriginalSubtotal(cart) - Subtotal(cart)
    ensures CalculateSavings(cart) == ToFixed2(OriginalSubtotal(cart) - Subtotal(cart))
  {
    var counted := (item: CartItem) => if SignificantDiscount(item) then LineSavings(item) else 0.0;
    SavingsIgnoresSmallDiscounts(cart);
    forall item | item in cart ensures counted(item) == LineSavings(item) {
      var i :| 0 <= i < |cart| && cart[i] == item;
      if !SignificantDiscount(item) {
        assert item.discountPercentage == 0.0;
      }
    }
    SumOfCongruent(cart, counted, LineSavings);
    TotalDiscount(cart);
  }

  /** A line at 0.5% off is ignored: a 100.00 item shows a total of 99.50 against an original
      100.00, yet no savings row. */
  lemma SmallDiscountNotSaved()
    ensures var cart := [CartItem(1, "Item", "Brand", "", 100.0, 0.5, 1)];
      CalculateOriginalTotal(cart) == 100.0 && CalculateTotal(cart) == 99.5
      && CalculateSavings(cart) == 0.0 && !ShowsSavingsRow(cart)
  {
    var cart := [CartItem(1, "Item", "Brand", "", 100.0, 0.5, 1)];
    assert Filter(cart, SignificantDiscount) == [];
    assert Subtotal(cart) == 99.5;
    assert OriginalSubtotal(cart) == 100.0;
    assert RoundHalfAwayFromZero(9950.0) == 9950;
    assert RoundHalfAwayFromZero(10000.0) == 10000;
  }

  /** Without any line discounted by at least 1% there is no savings row. */
  lemma NoSignificantDiscountNoSavingsRow(cart: seq<CartItem>)
    requires forall i :: 0 <= i < |cart| ==> !SignificantDiscount(cart[i])
    ensures CalculateSavings(cart) == 0.0 && !ShowsSavingsRow(cart)
  {
    FilterKeepsNone(cart, SignificantDiscount);
    RoundOfInteger(0);
  }

  /** On a cart of well-formed lines the rounded total lies between 0 and the rounded
      original total, and the empty cart shows zeros everywhere. */
  lemma TotalsBounds(cart: seq<CartItem>)
    requires forall i :: 0 <= i < |cart| ==> WellFormed(cart[i])
    ensures 0.0 <= CalculateTotal(cart) <= CalculateOriginalTotal(cart)
    ensures cart == [] ==> CalculateTotal(cart) == 0.0 && CalculateOriginalTotal(cart) == 0.0
                           && CalculateSavings(cart) == 0.0 && TotalItems(cart) == 0
  {
    SubtotalBounds(cart);
    ToFixed2Monotone(0.0, Subtotal(cart));
    ToFixed2Monotone(Subtotal(cart), OriginalSubtotal(cart));
    RoundOfInteger(0);
  }

  /** Every well-formed line holds at least one unit, so the item count is at least the
      number of lines, and is positive for a non-empty cart. */
  lemma {:induction false} TotalItemsAtLeastLines(cart: seq<CartItem>)
    requires forall i :: 0 <= i < |cart| ==> WellFormed(cart[i])
    ensures TotalItems(cart) >= |cart|
  {
    if cart != [] {
      TotalItemsAtLeastLines(cart[1..]);
    }
  }

  /** The item count of two carts put together is the sum of their counts. */
  lemma {:induction false} TotalItemsAppend(a: seq<CartItem>, b: seq<CartItem>)
    ensures TotalItems(a + b) == TotalItems(a) + TotalItems(b)
  {
    if a == [] {
      assert a + b == b;
    } else {
      assert (a + b)[1..] == a[1..] + b;
      TotalItemsAppend(a[1..], b);
    }
  }

  /** The label is singular exactly for a count of one. */
  lemma ItemsLabelSingularIffOne(n: int)
    ensures ItemsLabel(n) == "item" <==> n == 1
  {
  }

  /** The displayed line total need not be the rounded exact line total: an item at 0.125
      shows 0.13 each and 0.26 for two, where the exact line total rounds to 0.25. */
  lemma DisplayedLineTotalRoundsTwice()
    ensures var item := CartItem(1, "Item", "Brand", "", 0.125, 0.0, 2);
      DisplayedUnitPrice(item) == 0.13 && DisplayedLineTotal(item) == 0.26
      && ToFixed2(LineTotal(item)) == 0.25
  {
    var item := CartItem(1, "Item", "Brand", "", 0.125, 0.0, 2);
    assert DiscountedPrice(0.125, 0.0) == 0.125;
    assert RoundHalfAwayFromZero(12.5) == 13;
    assert RoundHalfAwayFromZero(26.0) == 26;
    assert RoundHalfAwayFromZero(25.0) == 25;
  }

  /** Rounding a unit amount to within half a cent, multiplying by a non-negative count and
      rounding again to within half a cent is off by at most half a cent per unit plus one. */
  lemma TwoRoundingsError(exact: real, unit: real, shown: real, q: real)
    requires -0.005 <= unit - exact <= 0.005 && q >= 0.0
    requires -0.005 <= shown - unit * q <= 0.005
    ensures -(q + 1.0) * 0.005 <= shown - exact * q <= (q + 1.0) * 0.005
  {
    var e := unit - exact;
    assert unit * q - exact * q == e * q;
    NonNegativeProduct(0.005 - e, q);
    NonNegativeProduct(e + 0.005, q);
  }

  lemma NonNegativeProduct(a: real, b: real)
    requires a >= 0.0 && b >= 0.0
    ensures a * b >= 0.0
  {
  }

  /** The displayed line total strays from the exact line total by at most half a cent per
      unit (from rounding the unit price first) plus half a cent (from rounding the
      product), and is always a whole number of cents. */
  lemma DisplayedLineTotalNearLineTotal(item: CartItem)
    requires item.quantity >= 0
    ensures var slack := (item.quantity as real + 1.0) * 0.005;
      -slack <= DisplayedLineTotal(item) - LineTotal(item) <= slack
    ensures (DisplayedLineTotal(item) * 100.0).Floor as real == DisplayedLineTotal(item) * 100.0
  {
    var q := item.quantity as real;
    var exact := DiscountedPrice(item.price, item.discountPercentage);
    TwoRoundingsError(exact, DisplayedUnitPrice(item), DisplayedLineTotal(item), q);
  }

  /** The two buttons ask for one less and one more than the current quantity; nothing stops
      the minus button at 1, which asks for 0. */
  lemma QuantityButtons(item: CartItem)
    ensures DecrementRequest(item) < item.quantity < IncrementRequest(item)
    ensures IncrementRequest(item) - DecrementRequest(item) == 2
    ensures item.quantity == 1 ==> DecrementRequest(item) == 0
  {
  }
}
