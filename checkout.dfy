/**
 * Checkout: the form's validation patterns, the error messages
 * `validateForm` shows, the submit guard and the order payload.
 */
module Checkout {
  import opened Chars
  import opened Lessons
  import opened Cart

  /** The character class inside one of the two form patterns. */
  datatype CharClass =
    | NameChars   // [A-Za-z\s]
    | DigitChars  // \d

  predicate InClass(k: CharClass, c: char) {
    match k
    case NameChars => IsLetter(c) || IsSpace(c)
    case DigitChars => IsDigit(c)
  }

  /**
   * `/^[k]+$/.test(s)`: at least one character of the class, then the rest
   * of the input matched the same way, with nothing left over.
   */
  predicate MatchesPlus(k: CharClass, s: string)
    decreases |s|
  {
    |s| >= 1 && InClass(k, s[0]) && (|s| == 1 || MatchesPlus(k, s[1..]))
  }

  /** The anchored one-or-more pattern accepts exactly the non-empty strings drawn from its class. */
  lemma {:induction false} MatchesPlusIff(k: CharClass, s: string)
    ensures MatchesPlus(k, s) <==> s != "" && forall i :: 0 <= i < |s| ==> InClass(k, s[i])
    decreases |s|
  {
    if |s| > 1 {
      MatchesPlusIff(k, s[1..]);
      assert forall i :: 1 <= i < |s| ==> s[i] == s[1..][i - 1];
    }
  }

  /** `/^[A-Za-z\s]+$/.test(name)` */
  predicate NameValid(name: string) {
    MatchesPlus(NameChars, name)
  }

  /** `/^\d+$/.test(phone)` */
  predicate PhoneValid(phone: string) {
    MatchesPlus(DigitChars, phone)
  }

  /** `checkoutData`: what the customer typed. The email is sent but never checked. */
  datatype CheckoutData = CheckoutData(name: string, phone: string, email: string)

  /** The form as it starts and as a successful order leaves it. */
  const EmptyCheckout := CheckoutData("", "", "")

  /** `isCheckoutValid`: both patterns match and the cart has at least one line. */
  predicate CheckoutValid(data: CheckoutData, cart: seq<CartLine>) {
    NameValid(data.name) && PhoneValid(data.phone) && |cart| > 0
  }

  /** The submit guard, spelled out character by character. */
  lemma CheckoutValidIff(data: CheckoutData, cart: seq<CartLine>)
    ensures CheckoutValid(data, cart) <==>
      && data.name != ""
      && (forall i :: 0 <= i < |data.name| ==> IsLetter(data.name[i]) || IsSpace(data.name[i]))
      && data.phone != ""
      && (forall i :: 0 <= i < |data.phone| ==> IsDigit(data.phone[i]))
      && cart != []
  {
    MatchesPlusIff(NameChars, data.name);
    MatchesPlusIff(DigitChars, data.phone);
  }

  /** `formErrors`: one message per checked field, '' when the field is fine. */
  datatype FormErrors = FormErrors(name: string, phone: string)

  const NameMessage := "Name must contain only letters"
  const PhoneMessage := "Phone must contain only numbers"

  /** The message `validateForm` puts in `formErrors.name`. */
  function NameError(name: string): (r: string)
    ensures r == "" <==> NameValid(name)
    ensures r != "" ==> r == NameMessage
  {
    if NameValid(name) then "" else NameMessage
  }

  /** The message `validateForm` puts in `formErrors.phone`. */
  function PhoneError(phone: string): (r: string)
    ensures r == "" <==> PhoneValid(phone)
    ensures r != "" ==> r == PhoneMessage
  {
    if PhoneValid(phone) then "" else PhoneMessage
  }

  /** When the form shows no errors and the cart is not empty, the order can be placed. */
  lemma NoErrorsMeansValid(data: CheckoutData, cart: seq<CartLine>)
    ensures CheckoutValid(data, cart) <==>
      NameError(data.name) == "" && PhoneError(data.phone) == "" && cart != []
  {
  }

  /** One entry of the order's `lessons`: `{lessonId, subject, price}`. */
  datatype OrderItem = OrderItem(lessonId: string, subject: string, price: int)

  /** The body POSTed to the orders endpoint. */
  datatype Order = Order(
    name: string,
    phone: string,
    email: string,
    lessons: seq<OrderItem>,
    total: int,
    orderDate: string)

  /** `cart.map(item => ({lessonId: item.id, subject: item.subject, price: item.price}))` */
  function Items(cart: seq<CartLine>): (r: seq<OrderItem>)
    ensures |r| == |cart|
    ensures forall i :: 0 <= i < |cart| ==>
      r[i].lessonId == cart[i].item.id && r[i].subject == cart[i].item.subject && r[i].price == cart[i].item.price
  {
    if cart == [] then [] else [OrderItem(cart[0].item.id, cart[0].item.subject, cart[0].item.price)] + Items(cart[1..])
  }

  /** The sum of the prices listed in an order. */
  function ItemsPrice(items: seq<OrderItem>): int {
    if items == [] then 0 else items[0].price + ItemsPrice(items[1..])
  }

  lemma {:induction false} ItemsPriceConcat(a: seq<OrderItem>, b: seq<OrderItem>)
    ensures ItemsPrice(a + b) == ItemsPrice(a) + ItemsPrice(b)
  {
    if a == [] {
      assert a + b == b;
    } else {
      assert (a + b)[1..] == a[1..] + b;
      ItemsPriceConcat(a[1..], b);
    }
  }

  /** The prices listed for the cart's lines add up to the cart total. */
  lemma {:induction false} ItemsPriceIsTotal(cart: seq<CartLine>)
    ensures ItemsPrice(Items(cart)) == Total(cart)
    decreases |cart|
  {
    if cart != [] {
      var pre, last := cart[..|cart| - 1], cart[|cart| - 1];
      assert cart == pre + [last];
      ItemsConcat(pre, [last]);
      ItemsPriceConcat(Items(pre), Items([last]));
      ItemsPriceIsTotal(pre);
    }
  }

  lemma ItemsConcat(a: seq<CartLine>, b: seq<CartLine>)
    ensures Items(a + b) == Items(a) + Items(b)
  {
  }

  /**
   * The order `submitOrder` sends: the customer's fields, one entry per cart
   * line in cart order, `total` = `cartTotal`, and the timestamp it is given.
   */
  function BuildOrder(data: CheckoutData, cart: seq<CartLine>, orderDate: string): (r: Order)
    ensures r.name == data.name && r.phone == data.phone && r.email == data.email
    ensures |r.lessons| == |cart|
    ensures forall i :: 0 <= i < |cart| ==>
      r.lessons[i] == OrderItem(cart[i].item.id, cart[i].item.subject, cart[i].item.price)
    ensures r.total == Total(cart)
    ensures r.total == ItemsPrice(r.lessons)
    ensures r.orderDate == orderDate
  {
    ItemsPriceIsTotal(cart);
    Order(data.name, data.phone, data.email, Items(cart), Total(cart), orderDate)
  }
}
