/**
 * The shopping cart: a sequence of lines, each a copy of a lesson record
 * taken when it was added, plus a line id (`cartId`). There is no quantity:
 * adding the same lesson twice gives two lines.
 */
module Cart {
  import opened Lessons

  /** `{...lesson, cartId}`: the lesson's properties at add time and the line's own id. */
  datatype CartLine = CartLine(item: LessonData, cartId: int)

  /** `cart.reduce((total, item) => total + item.price, 0)`, folding from the left. */
  function Total(cart: seq<CartLine>): (r: int)
    ensures cart == [] ==> r == 0
  {
    if cart == [] then 0 else Total(cart[..|cart| - 1]) + cart[|cart| - 1].item.price
  }

  /** With non-negative prices the total is never negative. */
  lemma {:induction false} TotalNonNegative(cart: seq<CartLine>)
    requires forall k :: 0 <= k < |cart| ==> cart[k].item.price >= 0
    ensures Total(cart) >= 0
  {
    if cart != [] {
      TotalNonNegative(cart[..|cart| - 1]);
    }
  }

  /** The total of two carts put end to end is the sum of their totals. */
  lemma {:induction false} TotalConcat(a: seq<CartLine>, b: seq<CartLine>)
    ensures Total(a + b) == Total(a) + Total(b)
    decreases |b|
  {
    if b == [] {
      assert a + b == a;
    } else {
      var b' := b[..|b| - 1];
      assert (a + b)[..|a + b| - 1] == a + b';
      assert (a + b)[|a + b| - 1] == b[|b| - 1];
      TotalConcat(a, b');
    }
  }

  /** Pushing a line raises the total by that line's price. */
  lemma TotalPush(cart: seq<CartLine>, line: CartLine)
    ensures Total(cart + [line]) == Total(cart) + line.item.price
  {
  }

  /** A line in the middle of a cart contributes its price to the total. */
  lemma TotalMiddle(pre: seq<CartLine>, line: CartLine, post: seq<CartLine>)
    ensures Total(pre + [line] + post) == Total(pre + post) + line.item.price
  {
    TotalConcat(pre + [line], post);
    TotalPush(pre, line);
    TotalConcat(pre, post);
  }

  /** Splicing out line i lowers the total by that line's price. */
  lemma {:induction false} TotalSplice(cart: seq<CartLine>, i: nat)
    requires i < |cart|
    ensures Total(cart[..i] + cart[i + 1..]) == Total(cart) - cart[i].item.price
  {
    var rest := cart[..i] + cart[i + 1..];
    if i < |cart| - 1 {
      var init := cart[..|cart| - 1];
      assert rest[..|rest| - 1] == init[..i] + init[i + 1..];
      assert rest[|rest| - 1] == cart[|cart| - 1];
      TotalSplice(init, i);
    } else {
      assert rest == cart[..|cart| - 1];
    }
  }

  /** The number of lines in the cart that were taken from the lesson with this id. */
  function Booked(cart: seq<CartLine>, id: string): (r: nat)
    ensures r <= |cart|
    ensures r == 0 <==> forall k :: 0 <= k < |cart| ==> cart[k].item.id != id
  {
    if cart == [] then 0 else (if cart[0].item.id == id then 1 else 0) + Booked(cart[1..], id)
  }

  /** Lines booked against a lesson in two carts put end to end add up. */
  lemma {:induction false} BookedConcat(a: seq<CartLine>, b: seq<CartLine>, id: string)
    ensures Booked(a + b, id) == Booked(a, id) + Booked(b, id)
  {
    if a == [] {
      assert a + b == b;
    } else {
      assert (a + b)[0] == a[0];
      assert (a + b)[1..] == a[1..] + b;
      BookedConcat(a[1..], b, id);
    }
  }

  /** Pushing a line books one more place on its own lesson and none on any other. */
  lemma BookedPush(cart: seq<CartLine>, line: CartLine, id: string)
    ensures Booked(cart + [line], id) == Booked(cart, id) + (if line.item.id == id then 1 else 0)
  {
    BookedConcat(cart, [line], id);
  }

  /** Splicing out line i releases one place on that line's lesson and none on any other. */
  lemma BookedSplice(cart: seq<CartLine>, i: nat, id: string)
    requires i < |cart|
    ensures Booked(cart[..i] + cart[i + 1..], id) == Booked(cart, id) - (if cart[i].item.id == id then 1 else 0)
  {
    assert cart == cart[..i] + ([cart[i]] + cart[i + 1..]);
    BookedConcat(cart[..i], [cart[i]] + cart[i + 1..], id);
    BookedConcat([cart[i]], cart[i + 1..], id);
    BookedConcat(cart[..i], cart[i + 1..], id);
  }

  /** `cart.findIndex(item => item.cartId === cartId)`: the first line with that id, or -1. */
  function LineIndex(cart: seq<CartLine>, cartId: int): (r: int)
    ensures -1 <= r < |cart|
    ensures r >= 0 ==> cart[r].cartId == cartId && forall k :: 0 <= k < r ==> cart[k].cartId != cartId
    ensures r == -1 ==> forall k :: 0 <= k < |cart| ==> cart[k].cartId != cartId
  {
    if cart == [] then -1
    else if cart[0].cartId == cartId then 0
    else
      var r := LineIndex(cart[1..], cartId);
      if r == -1 then -1 else r + 1
  }

  /** The search `removeFromCart` runs: a scan for the first line with the given id. */
  method FindLine(cart: seq<CartLine>, cartId: int) returns (index: int)
    ensures index == LineIndex(cart, cartId)
  {
    index := 0;
    while index < |cart| && cart[index].cartId != cartId
      invariant 0 <= index <= |cart|
      invariant forall k :: 0 <= k < index ==> cart[k].cartId != cartId
    {
      index := index + 1;
    }
    if index == |cart| {
      index := -1;
    }
  }

  /** No two lines share a `cartId`. */
  predicate CartIdsUnique(cart: seq<CartLine>) {
    forall i, j :: 0 <= i < j < |cart| ==> cart[i].cartId != cart[j].cartId
  }

  /** Pushing a line whose id is not yet in the cart keeps line ids unique. */
  lemma PushKeepsIdsUnique(cart: seq<CartLine>, line: CartLine)
    requires CartIdsUnique(cart) && LineIndex(cart, line.cartId) == -1
    ensures CartIdsUnique(cart + [line])
  {
  }

  /**
   * With unique line ids, once the line with `cartId` is spliced out no line
   * carries that id any more: a second removal finds nothing and is a no-op.
   */
  lemma SpliceRemovesId(cart: seq<CartLine>, cartId: int)
    requires CartIdsUnique(cart)
    requires LineIndex(cart, cartId) >= 0
    ensures var i := LineIndex(cart, cartId);
      CartIdsUnique(cart[..i] + cart[i + 1..]) && LineIndex(cart[..i] + cart[i + 1..], cartId) == -1
  {
  }
}
