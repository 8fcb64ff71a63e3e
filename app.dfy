/**
 * The app's state (the Vue instance's `data`) and the methods that change
 * it: adding to and removing from the cart, placing an order, validating the
 * form, toggling the sort order, loading lessons and searching. Network calls
 * are not made here: what a call returned is an argument.
 */
module AppState {
  import opened Wrappers
  import opened Lessons
  import opened Cart
  import opened Checkout
  import opened Sorting
  import opened Search

  /** How the POST to the orders endpoint ended. */
  datatype OrderResponse =
    | Accepted      // a response with `ok` set
    | Refused       // a response without `ok`
    | NetworkError  // `fetch` threw

  class App {
    var lessons: seq<Lesson>
    var cart: seq<CartLine>
    var searchQuery: string
    var searchResults: seq<Lesson>
    var sortBy: SortKey
    var sortOrder: SortOrder
    var checkoutData: CheckoutData
    var formErrors: FormErrors
    var orderSubmitted: bool
    var isLoading: bool

    /** The initial `data`. */
    constructor ()
      ensures lessons == [] && cart == [] && searchQuery == "" && searchResults == []
      ensures sortBy == Subject && sortOrder == Asc
      ensures checkoutData == EmptyCheckout && formErrors == FormErrors("", "") && !orderSubmitted
      ensures isLoading
    {
      lessons, cart, searchQuery, searchResults := [], [], "", [];
      sortBy, sortOrder := Subject, Asc;
      checkoutData, formErrors, orderSubmitted := EmptyCheckout, FormErrors("", ""), false;
      isLoading := true;
    }

    /** `cartTotal` */
    function CartTotal(): (r: int)
      reads this
      ensures cart == [] ==> r == 0
    {
      Total(cart)
    }

    /** `isCheckoutValid`: exactly when `validateForm` would show no error and the cart is not empty. */
    predicate IsCheckoutValid(): (ok: bool)
      reads this
      ensures ok <==> NameError(checkoutData.name) == "" && PhoneError(checkoutData.phone) == "" && cart != []
    {
      CheckoutValid(checkoutData, cart)
    }

    /** `sortedLessons`: the search results while a query is typed, else all lessons, sorted. */
    function SortedLessons(): (r: seq<Lesson>)
      reads this, lessons, searchResults
      ensures searchQuery != "" ==> multiset(r) == multiset(searchResults)
      ensures searchQuery == "" ==> multiset(r) == multiset(lessons)
    {
      Sort(if searchQuery != "" then searchResults else lessons, sortBy, sortOrder)
    }

    /** A lesson's remaining spaces plus the cart lines booked on it: what add and remove conserve. */
    function Held(l: Lesson): int
      reads this, l
    {
      l.spaces + Booked(cart, l.id)
    }

    /**
     * `addToCart(lesson)`: when the lesson has a space left, push a copy of it
     * (with its spaces before the decrement) under the new line id, then take
     * one space off the object that was passed in. Only that object changes,
     * whether or not it is the one stored in `lessons`.
     */
    method AddToCart(lesson: Lesson, cartId: int)
      modifies this`cart, lesson`spaces
      ensures old(lesson.spaces) > 0 ==>
        cart == old(cart) + [CartLine(old(lesson.Snapshot()), cartId)] &&
        lesson.spaces == old(lesson.spaces) - 1
      ensures old(lesson.spaces) <= 0 ==> cart == old(cart) && lesson.spaces == old(lesson.spaces)
      ensures old(lesson.spaces) >= 0 ==> lesson.spaces >= 0
      ensures CartTotal() == old(CartTotal()) + (if old(lesson.spaces) > 0 then lesson.price else 0)
      ensures lesson in lessons && IdsUnique(lessons) ==>
        forall l :: l in lessons ==> Held(l) == old(Held(l))
      ensures old(lesson.spaces) > 0 ==>
        forall l :: l in lessons && l != lesson && l.id == lesson.id ==> Held(l) == old(Held(l)) + 1
      ensures CartIdsUnique(old(cart)) && LineIndex(old(cart), cartId) == -1 ==> CartIdsUnique(cart)
    {
      if lesson.spaces > 0 {
        var line := CartLine(lesson.Snapshot(), cartId);
        cart := cart + [line];
        lesson.spaces := lesson.spaces - 1;
        TotalPush(old(cart), line);
        forall l | l in lessons
          ensures Booked(cart, l.id) == Booked(old(cart), l.id) + (if lesson.id == l.id then 1 else 0)
        {
          BookedPush(old(cart), line, l.id);
        }
        if lesson in lessons && IdsUnique(lessons) {
          forall l | l in lessons && l != lesson
            ensures l.id != lesson.id
          {
            var i, j :| 0 <= i < |lessons| && 0 <= j < |lessons| && lessons[i] == l && lessons[j] == lesson;
            assert i != j;
          }
        }
        if CartIdsUnique(old(cart)) && LineIndex(old(cart), cartId) == -1 {
          PushKeepsIdsUnique(old(cart), line);
        }
      }
    }

    /**
     * `removeFromCart(cartId)`: find the first line with that id; if there is
     * one, give one space back to the first stored lesson with the line's
     * lesson id (if any) and splice the line out.
     */
    method RemoveFromCart(cartId: int)
      modifies this`cart, lessons
      ensures LineIndex(old(cart), cartId) == -1 ==>
        cart == old(cart) && forall l :: l in lessons ==> l.spaces == old(l.spaces)
      ensures var i := LineIndex(old(cart), cartId);
        i >= 0 ==> cart == old(cart)[..i] + old(cart)[i + 1..]
      ensures var i := LineIndex(old(cart), cartId);
        i >= 0 ==>
          var j := LessonIndex(lessons, old(cart)[i].item.id);
          forall l :: l in lessons ==> l.spaces == old(l.spaces) + (if j >= 0 && l == lessons[j] then 1 else 0)
      ensures var i := LineIndex(old(cart), cartId);
        CartTotal() == old(CartTotal()) - (if i >= 0 then old(cart)[i].item.price else 0)
      ensures IdsUnique(lessons) ==> forall l :: l in lessons ==> Held(l) == old(Held(l))
      ensures CartIdsUnique(old(cart)) ==> CartIdsUnique(cart) && LineIndex(cart, cartId) == -1
    {
      var index := FindLine(cart, cartId);
      if index != -1 {
        ghost var before := cart;
        var cartItem := cart[index];
        var lesson := FindLesson(lessons, cartItem.item.id);
        if lesson != null {
          lesson.spaces := lesson.spaces + 1;
        }
        cart := cart[..index] + cart[index + 1..];
        TotalSplice(before, index);
        if IdsUnique(lessons) {
          forall l | l in lessons
            ensures Held(l) == old(Held(l))
          {
            BookedSplice(before, index, l.id);
            if l.id == cartItem.item.id {
              var k :| 0 <= k < |lessons| && lessons[k] == l;
              assert LessonIndex(lessons, cartItem.item.id) == k;
            }
          }
        }
        if CartIdsUnique(before) {
          SpliceRemovesId(before, cartId);
        }
      }
    }

    /**
     * `submitOrder`: refused without a request when the form or cart is not
     * valid; otherwise the order is sent, and only an accepted response clears
     * the cart and the form.
     */
    method SubmitOrder(response: OrderResponse, orderDate: string) returns (sent: Option<Order>)
      modifies this`cart, this`checkoutData, this`orderSubmitted
      ensures !old(IsCheckoutValid()) ==> sent == None
      ensures old(IsCheckoutValid()) ==> sent == Some(BuildOrder(old(checkoutData), old(cart), orderDate))
      ensures old(IsCheckoutValid()) && response == Accepted ==>
        cart == [] && checkoutData == EmptyCheckout && orderSubmitted
      ensures !old(IsCheckoutValid()) || response != Accepted ==>
        cart == old(cart) && checkoutData == old(checkoutData) && orderSubmitted == old(orderSubmitted)
    {
      if !IsCheckoutValid() {
        return None;
      }
      var order := BuildOrder(checkoutData, cart, orderDate);
      sent := Some(order);
      if response == Accepted {
        orderSubmitted := true;
        cart := [];
        checkoutData := EmptyCheckout;
      }
    }

    /** `validateForm`: one message per field, '' where the field's pattern matches. */
    method ValidateForm()
      modifies this`formErrors
      ensures formErrors == FormErrors(NameError(checkoutData.name), PhoneError(checkoutData.phone))
      ensures formErrors.name == "" <==> NameValid(checkoutData.name)
      ensures formErrors.phone == "" <==> PhoneValid(checkoutData.phone)
    {
      formErrors := FormErrors(NameError(checkoutData.name), PhoneError(checkoutData.phone));
    }

    /** `toggleSortOrder` */
    method ToggleSortOrder()
      modifies this`sortOrder
      ensures sortOrder == Toggled(old(sortOrder))
      ensures sortOrder != old(sortOrder)
    {
      sortOrder := if sortOrder == Asc then Desc else Asc;
    }

    /**
     * The local effect of `fetchLessons`: the fetched records, normalised,
     * become fresh lesson objects; if the request or the `map` threw, the demo
     * lessons do. Either way loading is over.
     */
    method FetchLessons(response: Option<seq<LessonData>>)
      modifies this`lessons, this`isLoading
      ensures !isLoading
      ensures var data := if response.Some? then Normalize(response.value) else DemoLessons();
        |lessons| == |data| &&
        forall i :: 0 <= i < |data| ==> fresh(lessons[i]) && lessons[i].Snapshot() == data[i]
    {
      var data := if response.Some? then Normalize(response.value) else DemoLessons();
      lessons := Materialize(data);
      isLoading := false;
    }

    /**
     * The local effect of `handleSearch`: a blank query empties the results;
     * otherwise the backend's records become fresh objects (their ids are not
     * normalised), and if the request threw the front-end filter picks the
     * matching objects out of `lessons` itself.
     */
    method HandleSearch(response: Option<seq<LessonData>>)
      modifies this`searchResults
      ensures IsBlank(searchQuery) ==> searchResults == []
      ensures !IsBlank(searchQuery) && response.Some? ==>
        |searchResults| == |response.value| &&
        forall i :: 0 <= i < |response.value| ==>
          fresh(searchResults[i]) && searchResults[i].Snapshot() == response.value[i]
      ensures !IsBlank(searchQuery) && response.None? ==> searchResults == old(FallbackSearch(lessons, searchQuery))
      ensures searchQuery != "" && IsBlank(searchQuery) ==> SortedLessons() == []
    {
      if IsBlank(searchQuery) {
        searchResults := [];
        SortEmpty(sortBy, sortOrder);
      } else if response.Some? {
        searchResults := Materialize(response.value);
      } else {
        searchResults := FallbackSearch(lessons, searchQuery);
      }
    }
  }

  /** `cartTotal` is the sum of the prices an order for this cart would list. */
  lemma CartTotalIsListedPrices(app: App)
    ensures app.CartTotal() == ItemsPrice(Items(app.cart))
  {
    ItemsPriceIsTotal(app.cart);
  }

  /** Builds one fresh lesson object per record, in order (what `response.json()` yields). */
  method Materialize(ds: seq<LessonData>) returns (objs: seq<Lesson>)
    ensures |objs| == |ds|
    ensures forall i :: 0 <= i < |ds| ==> fresh(objs[i]) && objs[i].Snapshot() == ds[i]
  {
    objs := [];
    var i := 0;
    while i < |ds|
      invariant 0 <= i <= |ds| && |objs| == i
      invariant forall k :: 0 <= k < i ==> fresh(objs[k]) && objs[k].Snapshot() == ds[k]
    {
      var l := new Lesson(ds[i]);
      objs := objs + [l];
      i := i + 1;
    }
  }

  /**
   * The demo catalogue: booking the piano lesson twice gives two lines and
   * leaves 3 spaces; removing one line gives one space back and leaves one
   * line and a total of 50.
   */
  method DemoBookingScenario() returns (spacesAfterAdds: int, linesAfterAdds: nat, spacesAfterRemove: int, linesAfterRemove: nat, total: int)
    ensures spacesAfterAdds == 3 && linesAfterAdds == 2
    ensures spacesAfterRemove == 4 && linesAfterRemove == 1 && total == 50
  {
    var app := new App();
    app.FetchLessons(None);
    var piano := app.lessons[0];
    app.AddToCart(piano, 1);
    app.AddToCart(piano, 2);
    spacesAfterAdds, linesAfterAdds := piano.spaces, |app.cart|;
    app.RemoveFromCart(1);
    spacesAfterRemove, linesAfterRemove := piano.spaces, |app.cart|;
    total := app.CartTotal();
  }

  /**
   * Booking a copy of a stored lesson (a search result the backend sent)
   * books a line against the stored lesson's id without taking a space from
   * the stored lesson: its spaces plus its booked lines go up by one.
   */
  method DetachedCopyScenario() returns (heldBefore: int, heldAfter: int, storedSpaces: int)
    ensures heldAfter == heldBefore + 1 && storedSpaces == 5
  {
    var app := new App();
    app.FetchLessons(None);
    var stored := app.lessons[0];
    var copy := new Lesson(stored.Snapshot());
    heldBefore := app.Held(stored);
    app.AddToCart(copy, 1);
    heldAfter, storedSpaces := app.Held(stored), stored.spaces;
  }
}
