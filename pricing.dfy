/**
 * The line and cart arithmetic every screen repeats: the discounted unit price, the line
 * total, the cart subtotal (a `reduce` over the cart) and the shipping rule.
 */
module Pricing {
  import opened Seqs

  /** A cart entry: the product fields the screens read, and the chosen quantity. */
  datatype CartItem = CartItem(
    id: int,
    title: string,
    brand: string,
    thumbnail: string,
    price: real,
    discountPercentage: real,
    quantity: int)

  /** The catalog's promise about a line: a non-negative price, a percentage, a positive quantity. */
  predicate WellFormed(item: CartItem) {
    item.price >= 0.0 && 0.0 <= item.discountPercentage <= 100.0 && item.quantity >= 1
  }

  /** `price * (1 - discountPercentage / 100)`. */
  function DiscountedPrice(price: real, discountPercentage: real): (r: real)
    ensures price >= 0.0 && 0.0 <= discountPercentage <= 100.0 ==> 0.0 <= r <= price
    ensures discountPercentage == 0.0 ==> r == price
  {
    price * (1.0 - discountPercentage / 100.0)
  }

  /** `discountedPrice * item.quantity`. */
  function LineTotal(item: CartItem): real {
    DiscountedPrice(item.price, item.discountPercentage) * item.quantity as real
  }

  /** `item.price * item.quantity`: the line before its discount. */
  function LineOriginal(item: CartItem): real {
    item.price * item.quantity as real
  }

  /** `item.price * (item.discountPercentage / 100) * item.quantity`: what the discount takes off. */
  function LineSavings(item: CartItem): real {
    item.price * (item.discountPercentage / 100.0) * item.quantity as real
  }

  /** `cart.reduce((sum, item) => sum + discountedPrice * item.quantity, 0)`. */
  function Subtotal(cart: seq<CartItem>): real {
    SumOf(cart, LineTotal)
  }

  /** `cart.reduce((total, item) => total + item.price * item.quantity, 0)`. */
  function OriginalSubtotal(cart: seq<CartItem>): real {
    SumOf(cart, LineOriginal)
  }

  /** `subtotal > 100 ? 0 : 10`: free shipping strictly above 100, a flat 10 otherwise. */
  function Shipping(subtotal: real): (r: real)
    ensures r == 0.0 <==> subtotal > 100.0
    ensures r == 0.0 || r == 10.0
  {
    if subtotal > 100.0 then 0.0 else 10.0
  }

  /** A line's discount is exactly the difference between its undiscounted and discounted totals. */
  lemma LineDifference(item: CartItem)
    ensures LineOriginal(item) - LineTotal(item) == LineSavings(item)
  {
    var q := item.quantity as real;
    calc {
      LineOriginal(item) - LineTotal(item);
      item.price * q - item.price * (1.0 - item.discountPercentage / 100.0) * q;
      { assert item.price * (1.0 - item.discountPercentage / 100.0) * q
          == item.price * q - item.price * (item.discountPercentage / 100.0) * q; }
      LineSavings(item);
    }
  }

  lemma {:induction false} LineTotalBounds(item: CartItem)
    requires WellFormed(item)
    ensures 0.0 <= LineTotal(item) <= LineOriginal(item)
  {
    var p := DiscountedPrice(item.price, item.discountPercentage);
    var q := item.quantity as real;
    assert 0.0 <= p <= item.price;
    assert p * q <= item.price * q;
  }

  /** Over a cart of well-formed lines: the empty cart costs 0, and the subtotal lies between
      0 and the undiscounted total. */
  lemma {:induction false} SubtotalBounds(cart: seq<CartItem>)
    requires forall i :: 0 <= i < |cart| ==> WellFormed(cart[i])
    ensures cart == [] ==> Subtotal(cart) == 0.0
    ensures 0.0 <= Subtotal(cart) <= OriginalSubtotal(cart)
  {
    if cart != [] {
      LineTotalBounds(cart[0]);
      SubtotalBounds(cart[1..]);
    }
  }

  /** The subtotal does not depend on the order of the cart's lines. */
  lemma SubtotalOrderInvariant(a: seq<CartItem>, b: seq<CartItem>)
    requires multiset(a) == multiset(b)
    ensures Subtotal(a) == Subtotal(b)
  {
    SumOfPermutation(a, b, LineTotal);
  }

  /** Before any rounding, the undiscounted total minus the subtotal is the sum of all line discounts. */
  lemma TotalDiscount(cart: seq<CartItem>)
    ensures OriginalSubtotal(cart) - Subtotal(cart) == SumOf(cart, LineSavings)
  {
    forall item | item in cart
      ensures LineOriginal(item) - LineTotal(item) == LineSavings(item)
    {
      LineDifference(item);
    }
    SumOfDifference(cart, LineOriginal, LineTotal, LineSavings);
  }
}
