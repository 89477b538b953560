/** The checkout page (src/components/CheckoutPage.tsx): the amounts it
    shows and the order it hands to the store. The page's form, the payment
    method and the clock value `Date.now()` are inputs here. */
module Checkout {
  import opened Wrappers
  import opened Text
  import opened Catalog
  import opened Seqs

  /** The amount of one cart line. */
  function LineTotal(item: CartItem): int {
    item.perfume.price * item.quantity
  }

  /** `cart.reduce((acc, item) => acc + item.perfume.price * item.quantity, 0)`. */
  function Subtotal(cart: seq<CartItem>): int {
    Sum(cart, LineTotal)
  }

  /** The subtotal adds up line by line. */
  lemma SubtotalAppend(a: seq<CartItem>, b: seq<CartItem>)
    ensures Subtotal(a + b) == Subtotal(a) + Subtotal(b)
  {
    SumAppend(a, b, LineTotal);
  }

  /** Prices and quantities that are not negative give a subtotal that is
      not negative either. */
  lemma {:induction false} SubtotalNonNegative(cart: seq<CartItem>)
    requires forall i :: 0 <= i < |cart| ==> cart[i].perfume.price >= 0 && cart[i].quantity >= 0
    ensures Subtotal(cart) >= 0
  {
    if |cart| > 0 {
      var init := cart[..|cart| - 1];
      assert forall i :: 0 <= i < |init| ==> init[i] == cart[i];
      SubtotalNonNegative(init);
      var last := cart[|cart| - 1];
      assert LineTotal(last) >= 0 by {
        assert last.perfume.price >= 0 && last.quantity >= 0;
      }
    }
  }

  const FreeShippingCity: string := "santa marta"
  const ShippingFee: int := 10000

  /** shippingCost (src/components/CheckoutPage.tsx:44): free for Santa
      Marta, after trimming and lowering the city the shopper typed, and the
      flat fee anywhere else. */
  function ShippingCost(city: string): (r: int)
    ensures r == 0 || r == ShippingFee
  {
    if Lower(Trim(city)) == FreeShippingCity then 0 else ShippingFee
  }

  /** Case does not matter to the shipping rule. */
  lemma ShippingIgnoresCase(city: string)
    ensures ShippingCost(Lower(city)) == ShippingCost(city)
  {
    LowerTrim(city);
    LowerIdempotent(Trim(city));
  }

  /** Neither does whitespace around the city. */
  lemma ShippingIgnoresPadding(pad1: string, city: string, pad2: string)
    requires AllWhitespace(pad1) && AllWhitespace(pad2)
    requires |city| > 0 && !IsWhitespace(city[0]) && !IsWhitespace(city[|city| - 1])
    ensures ShippingCost(pad1 + city + pad2) == ShippingCost(city)
  {
    TrimAround(pad1, city, pad2);
    TrimUnchanged(city);
  }

  /** Any spelling of Santa Marta in any case, padded with any whitespace,
      ships free. */
  lemma SantaMartaShipsFree(pad1: string, city: string, pad2: string)
    requires AllWhitespace(pad1) && AllWhitespace(pad2)
    requires Lower(city) == FreeShippingCity
    ensures ShippingCost(pad1 + city + pad2) == 0
  {
    var n := |city|;
    LowerIndex(city, 0);
    LowerIndex(city, n - 1);
    LowerCharWhitespace(city[0]);
    LowerCharWhitespace(city[n - 1]);
    assert Lower(city)[0] == 's' && Lower(city)[n - 1] == 'a';
    assert !IsWhitespace('s') && !IsWhitespace('a');
    ShippingIgnoresPadding(pad1, city, pad2);
    TrimUnchanged(city);
  }

  /** total (src/components/CheckoutPage.tsx:45). */
  function OrderTotal(cart: seq<CartItem>, city: string): int {
    Subtotal(cart) + ShippingCost(city)
  }

  /** The total lies between the subtotal and the subtotal plus the fee. */
  lemma OrderTotalBounds(cart: seq<CartItem>, city: string)
    ensures Subtotal(cart) <= OrderTotal(cart, city) <= Subtotal(cart) + ShippingFee
  {
  }

  const OrderPrefix: string := "SM-"

  /** The order handleSubmit builds (src/components/CheckoutPage.tsx:47-59),
      stamped with the clock value `now`. */
  function AssembleOrder(cart: seq<CartItem>, customer: Customer, payment: PaymentMethod, now: int): Order {
    Order(customer, cart, Subtotal(cart), ShippingCost(customer.city),
          OrderTotal(cart, customer.city), payment, OrderPrefix + IntToString(now))
  }

  /** The order carries the cart and the form as they are, amounts that agree
      with each other, and a number made of `SM-` and the clock value. */
  lemma AssembleOrderMeaning(cart: seq<CartItem>, customer: Customer, payment: PaymentMethod, now: int)
    ensures var o := AssembleOrder(cart, customer, payment, now);
      o.items == cart && o.customer == customer && o.paymentMethod == payment
      && o.subtotal == Subtotal(o.items)
      && o.shipping == ShippingCost(customer.city)
      && o.total == o.subtotal + o.shipping
      && StartsWith(o.orderNumber, OrderPrefix)
      && o.orderNumber[|OrderPrefix|..] == IntToString(now)
  {
    var o := AssembleOrder(cart, customer, payment, now);
    assert o.orderNumber[..|OrderPrefix|] == OrderPrefix;
  }

  /** The browser's gate on the form (src/components/CheckoutPage.tsx:83-88):
      it fires `onSubmit` only when the name, address, city, WhatsApp and
      e-mail inputs, all `required`, are non-empty and the `type="email"`
      input holds an address the browser accepts, which `emailValid` decides.
      The address details are optional. */
  predicate FormFilled(c: Customer, emailValid: string -> bool) {
    c.name != "" && c.address != "" && c.city != "" && c.whatsapp != ""
    && c.email != "" && emailValid(c.email)
  }

  /** What submitting the page gives the store: nothing for an empty cart,
      where the page shows a notice instead of the form
      (src/components/CheckoutPage.tsx:61-69), nothing when paying by card,
      which disables the submit button (src/components/CheckoutPage.tsx:160),
      nothing while the browser holds the form back, and otherwise the
      assembled order (src/components/CheckoutPage.tsx:47-59). */
  function Submit(cart: seq<CartItem>, customer: Customer, payment: PaymentMethod,
                  emailValid: string -> bool, now: int): Option<Order> {
    if |cart| == 0 || payment == Card || !FormFilled(customer, emailValid) then None
    else Some(AssembleOrder(cart, customer, payment, now))
  }

  /** An order is placed exactly from a non-empty cart paid cash on delivery
      with the required fields filled in; it holds that cart and that
      customer. */
  lemma SubmitMeaning(cart: seq<CartItem>, customer: Customer, payment: PaymentMethod,
                      emailValid: string -> bool, now: int)
    ensures Submit(cart, customer, payment, emailValid, now).Some? <==>
      |cart| > 0 && payment == Cod && FormFilled(customer, emailValid)
    ensures Submit(cart, customer, payment, emailValid, now).Some? ==>
      var o := Submit(cart, customer, payment, emailValid, now).value;
      && |o.items| > 0 && o.paymentMethod == Cod && o == AssembleOrder(cart, customer, payment, now)
      && o.customer.name != "" && o.customer.address != "" && o.customer.city != ""
      && o.customer.whatsapp != "" && emailValid(o.customer.email)
  {
  }
}
