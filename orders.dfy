/**
 * The order record both checkout screens hand to their caller on a successful submit,
 * and the rounding it applies to the amounts it stores.
 */
module Orders {
  import opened Wrappers
  import opened FormRules
  import opened Money
  import opened Pricing

  /** The `customer` object: the address fields of the form, copied verbatim. */
  datatype Customer = Customer(
    firstName: string,
    lastName: string,
    email: string,
    phone: string,
    address: string,
    city: string,
    state: string,
    zipCode: string)

  /** The `orderData` object. The older checkout screen stores no payment method (`None`). */
  datatype Order = Order(
    orderId: string,
    date: string,
    customer: Customer,
    items: seq<CartItem>,
    subtotal: real,
    tax: real,
    shipping: real,
    total: real,
    paymentMethod: Option<string>)

  function CustomerOf(form: map<Field, string>): Customer {
    Customer(Get(form, FirstName), Get(form, LastName), Get(form, Email), Get(form, Phone),
             Get(form, Address), Get(form, City), Get(form, State), Get(form, ZipCode))
  }

  /** The order built on a successful submit. Subtotal and tax are stored rounded to cents,
      shipping as computed, and the total is the rounded UNROUNDED sum. The order id and the
      timestamp come from the clock and a random number, so they are parameters. */
  function BuildOrder(orderId: string, date: string, form: map<Field, string>, cart: seq<CartItem>,
                      tax: real, paymentMethod: Option<string>): Order
  {
    var subtotal := Subtotal(cart);
    var shipping := Shipping(subtotal);
    Order(orderId, date, CustomerOf(form), cart,
          ToFixed2(subtotal), ToFixed2(tax), shipping, ToFixed2(subtotal + tax + shipping),
          paymentMethod)
  }

  /** The stored amounts are all whole cents, the stored total is the cart's exact total to
      within half a cent, and it differs from the sum of the stored parts by at most one cent. */
  lemma StoredTotalsReconcile(orderId: string, date: string, form: map<Field, string>,
                              cart: seq<CartItem>, tax: real, paymentMethod: Option<string>)
    ensures var o := BuildOrder(orderId, date, form, cart, tax, paymentMethod);
      && -0.005 <= o.total - (Subtotal(cart) + tax + Shipping(Subtotal(cart))) <= 0.005
      && -0.01 <= o.total - (o.subtotal + o.tax + o.shipping) <= 0.01
      && o.items == cart && o.customer == CustomerOf(form)
  {
    var subtotal := Subtotal(cart);
    var shipping := Shipping(subtotal);
    CentsWithinOneCent(ToFixed2(subtotal + tax + shipping), ToFixed2(subtotal), ToFixed2(tax), shipping,
                       subtotal, tax);
  }

  /** Four whole-cent amounts, the first within half a cent of the exact sum the next two
      round to within half a cent each: the first differs from the sum of the others by at
      most one cent. */
  lemma CentsWithinOneCent(t: real, s: real, x: real, h: real, exactS: real, exactX: real)
    requires (t * 100.0).Floor as real == t * 100.0 && (s * 100.0).Floor as real == s * 100.0
    requires (x * 100.0).Floor as real == x * 100.0 && (h * 100.0).Floor as real == h * 100.0
    requires -0.005 <= t - (exactS + exactX + h) <= 0.005
    requires -0.005 <= s - exactS <= 0.005 && -0.005 <= x - exactX <= 0.005
    ensures -0.01 <= t - (s + x + h) <= 0.01
  {
    var n := (t * 100.0).Floor - (s * 100.0).Floor - (x * 100.0).Floor - (h * 100.0).Floor;
    assert n as real == (t - (s + x + h)) * 100.0;
    assert -1 <= n <= 1;
  }
}
