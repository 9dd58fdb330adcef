/**
 * The cart state manager (js/modules/cart.js). The cart lives in the store
 * under the `cart` key; every operation reads it, computes the new cart and
 * writes it straight back.
 */
module Cart {
  import opened Wrappers
  import opened Storage
  import Api

  // ---------------------------------------------------------------------
  // CartService: reading the store and the two folds
  // ---------------------------------------------------------------------

  /** CartService.getCart: the stored lines, the empty cart when the key is absent. */
  function GetCart(store: Store): (cart: seq<Line>)
    reads store
    ensures store.cart.None? ==> cart == []
    ensures store.cart.Some? ==> cart == store.cart.value
  {
    match store.cart
    case None => []
    case Some(lines) => lines
  }

  /** `s.reduce((sum, x) => sum + f(x), 0)`: a left fold, the last element added last. */
  function SumOf<T>(s: seq<T>, f: T -> int): (sum: int)
    ensures |s| == 0 ==> sum == 0
  {
    if |s| == 0 then 0 else SumOf(s[..|s| - 1], f) + f(s[|s| - 1])
  }

  function Subtotal(line: Line): int
  {
    line.price * line.quantity
  }

  function Quantity(line: Line): int
  {
    line.quantity
  }

  /** CartService.getTotal: the sum of price × quantity over the lines. */
  function Total(cart: seq<Line>): (total: int)
    ensures cart == [] ==> total == 0
  {
    SumOf(cart, Subtotal)
  }

  /** CartService.getItemCount: the sum of the quantities. */
  function ItemCount(cart: seq<Line>): (count: int)
    ensures cart == [] ==> count == 0
  {
    SumOf(cart, Quantity)
  }

  /** The cart invariant: at most one line per product id, and every quantity at least 1. */
  ghost predicate Wellformed(cart: seq<Line>)
  {
    && (forall i, j :: 0 <= i < j < |cart| ==> cart[i].id != cart[j].id)
    && (forall i :: 0 <= i < |cart| ==> cart[i].quantity >= 1)
  }

  /** A sum of non-negative terms is non-negative; a sum of terms of at least 1 is at least the length. */
  lemma {:induction false} SumOfBounds<T>(s: seq<T>, f: T -> int)
    ensures (forall i :: 0 <= i < |s| ==> f(s[i]) >= 0) ==> SumOf(s, f) >= 0
    ensures (forall i :: 0 <= i < |s| ==> f(s[i]) >= 1) ==> SumOf(s, f) >= |s|
  {
    if |s| > 0 {
      var front := s[..|s| - 1];
      SumOfBounds(front, f);
      assert forall i :: 0 <= i < |front| ==> front[i] == s[i];
    }
  }

  /** A well-formed cart counts at least one unit per line, and with
    * non-negative prices its total is never negative. */
  lemma CountBounds(cart: seq<Line>)
    requires Wellformed(cart)
    ensures ItemCount(cart) >= |cart|
    ensures (forall i :: 0 <= i < |cart| ==> cart[i].price >= 0) ==> Total(cart) >= 0
  {
    SumOfBounds(cart, Quantity);
    SumOfBounds(cart, Subtotal);
    assert forall i :: 0 <= i < |cart| ==> Quantity(cart[i]) >= 1;
    if forall i :: 0 <= i < |cart| ==> cart[i].price >= 0 {
      forall i | 0 <= i < |cart| ensures Subtotal(cart[i]) >= 0 {
        assert cart[i].price >= 0 && cart[i].quantity >= 1;
      }
    }
  }

  lemma {:induction false} SumOfAppend<T>(a: seq<T>, b: seq<T>, f: T -> int)
    ensures SumOf(a + b, f) == SumOf(a, f) + SumOf(b, f)
    decreases |b|
  {
    if |b| == 0 {
      assert a + b == a;
    } else {
      assert (a + b)[..|a + b| - 1] == a + b[..|b| - 1];
      SumOfAppend(a, b[..|b| - 1], f);
    }
  }

  lemma SumOfSingleton<T>(x: T, f: T -> int)
    ensures SumOf([x], f) == f(x)
  {
    assert [x][..0] == [];
  }

  /** Replacing one element changes the sum by exactly the difference of the two terms. */
  lemma SumOfUpdate<T>(s: seq<T>, k: int, x: T, f: T -> int)
    requires 0 <= k < |s|
    ensures SumOf(s[k := x], f) == SumOf(s, f) - f(s[k]) + f(x)
  {
    var pre, post := s[..k], s[k + 1..];
    assert s == pre + [s[k]] + post;
    assert s[k := x] == pre + [x] + post;
    SumOfAppend(pre + [s[k]], post, f);
    SumOfAppend(pre, [s[k]], f);
    SumOfAppend(pre + [x], post, f);
    SumOfAppend(pre, [x], f);
    SumOfSingleton(s[k], f);
    SumOfSingleton(x, f);
  }

  // ---------------------------------------------------------------------
  // addToCart
  // ---------------------------------------------------------------------

  /** `cart.find(product => product.id === id)`, as the index of the first line with that id. */
  function FindIndex(cart: seq<Line>, id: int): (r: Option<nat>)
    ensures r.Some? ==> r.value < |cart| && cart[r.value].id == id
    ensures r.Some? ==> forall j :: 0 <= j < r.value ==> cart[j].id != id
    ensures r.None? ==> forall j :: 0 <= j < |cart| ==> cart[j].id != id
  {
    if |cart| == 0 then None
    else if cart[0].id == id then Some(0)
    else match FindIndex(cart[1..], id)
      case None => None
      case Some(k) => Some(k + 1)
  }

  /** The cart addToCart writes: the line for `id` gets one more unit, or a
    * new line with quantity 1 is appended. */
  function AddLine(cart: seq<Line>, id: int, image: string, title: string, price: int): seq<Line>
  {
    match FindIndex(cart, id)
    case Some(k) => cart[k := cart[k].(quantity := cart[k].quantity + 1)]
    case None => cart + [Line(id, image, title, price, 1)]
  }

  /** addToCart: load, bump or append in place, write back. */
  method AddToCart(store: Store, id: int, image: string, title: string, price: int)
    modifies store`cart
    ensures store.cart == Some(AddLine(old(GetCart(store)), id, image, title, price))
  {
    var cart := GetCart(store);
    var existing := FindIndex(cart, id);
    if existing.Some? {
      var k := existing.value;
      cart := cart[k := cart[k].(quantity := cart[k].quantity + 1)];
    } else {
      cart := cart + [Line(id, image, title, price, 1)];
    }
    store.cart := Some(cart);
  }

  /** Adding an id the cart already holds keeps the length, adds one unit
    * to the first line with that id and leaves its image, title and price
    * and every other line as they were. */
  lemma AddExisting(cart: seq<Line>, id: int, image: string, title: string, price: int, k: int)
    requires 0 <= k < |cart| && cart[k].id == id
    requires forall j :: 0 <= j < k ==> cart[j].id != id
    ensures var r := AddLine(cart, id, image, title, price);
      && |r| == |cart|
      && r[k] == Line(id, cart[k].image, cart[k].title, cart[k].price, cart[k].quantity + 1)
      && forall j :: 0 <= j < |cart| && j != k ==> r[j] == cart[j]
  {
  }

  /** Adding a new id appends one line with quantity 1 behind the existing lines. */
  lemma AddNew(cart: seq<Line>, id: int, image: string, title: string, price: int)
    requires forall j :: 0 <= j < |cart| ==> cart[j].id != id
    ensures AddLine(cart, id, image, title, price) == cart + [Line(id, image, title, price, 1)]
  {
  }

  /** addToCart keeps the cart invariant. */
  lemma AddPreservesWellformed(cart: seq<Line>, id: int, image: string, title: string, price: int)
    requires Wellformed(cart)
    ensures Wellformed(AddLine(cart, id, image, title, price))
  {
  }

  /** After addToCart the line for `id` is found where it was bumped, or at the end when it was appended. */
  lemma AddFinds(cart: seq<Line>, id: int, image: string, title: string, price: int)
    ensures FindIndex(AddLine(cart, id, image, title, price), id)
      == if FindIndex(cart, id).Some? then FindIndex(cart, id) else Some(|cart|)
  {
    var r := AddLine(cart, id, image, title, price);
    var k := if FindIndex(cart, id).Some? then FindIndex(cart, id).value else |cart|;
    assert k < |r| && r[k].id == id;
    assert forall j :: 0 <= j < k ==> r[j] == cart[j];
    var v := FindIndex(r, id);
    assert v.Some? && v.value <= k;
  }

  /** Bumping line k adds one unit and its stored unit price. */
  lemma BumpCounts(cart: seq<Line>, k: int)
    requires 0 <= k < |cart|
    ensures var r := cart[k := cart[k].(quantity := cart[k].quantity + 1)];
      ItemCount(r) == ItemCount(cart) + 1 && Total(r) == Total(cart) + cart[k].price
  {
    var line := cart[k].(quantity := cart[k].quantity + 1);
    SumOfUpdate(cart, k, line, Quantity);
    SumOfUpdate(cart, k, line, Subtotal);
    assert Subtotal(line) == Subtotal(cart[k]) + cart[k].price by {
      assert line.price * (cart[k].quantity + 1) == line.price * cart[k].quantity + line.price;
    }
  }

  /** Appending a line adds its quantity and its subtotal. */
  lemma AppendCounts(cart: seq<Line>, line: Line)
    ensures ItemCount(cart + [line]) == ItemCount(cart) + line.quantity
    ensures Total(cart + [line]) == Total(cart) + line.price * line.quantity
  {
    SumOfAppend(cart, [line], Quantity);
    SumOfAppend(cart, [line], Subtotal);
    SumOfSingleton(line, Quantity);
    SumOfSingleton(line, Subtotal);
  }

  /** After addToCart the cart holds exactly one more unit, and its total
    * has grown by the unit price stored on the line for `id` (for a line
    * that existed, its stored price, not the one passed in). */
  lemma AddCounts(cart: seq<Line>, id: int, image: string, title: string, price: int)
    ensures var r := AddLine(cart, id, image, title, price);
      && ItemCount(r) == ItemCount(cart) + 1
      && FindIndex(r, id).Some?
      && Total(r) == Total(cart) + r[FindIndex(r, id).value].price
  {
    AddFinds(cart, id, image, title, price);
    var found := FindIndex(cart, id);
    if found.Some? {
      BumpCounts(cart, found.value);
    } else {
      AppendCounts(cart, Line(id, image, title, price, 1));
    }
  }

  // ---------------------------------------------------------------------
  // removeFromCart
  // ---------------------------------------------------------------------

  /** `cart.filter(item => item.id !== id)`. */
  function Without(cart: seq<Line>, id: int): seq<Line>
  {
    if |cart| == 0 then []
    else Without(cart[..|cart| - 1], id) + (if cart[|cart| - 1].id == id then [] else [cart[|cart| - 1]])
  }

  /** removeFromCart: filter, write back. */
  method RemoveFromCart(store: Store, id: int)
    modifies store`cart
    ensures store.cart == Some(Without(old(GetCart(store)), id))
  {
    var cart := GetCart(store);
    var filtered := Without(cart, id);
    store.cart := Some(filtered);
  }

  /** The lines left are exactly the lines whose id differs, whatever the quantity of the removed ones. */
  lemma {:induction false} WithoutMembers(cart: seq<Line>, id: int)
    ensures forall l :: l in Without(cart, id) <==> l in cart && l.id != id
  {
    if |cart| > 0 {
      var front := cart[..|cart| - 1];
      WithoutMembers(front, id);
      assert cart == front + [cart[|cart| - 1]];
    }
  }

  /** Filtering distributes over concatenation, so the lines kept keep their order. */
  lemma {:induction false} WithoutAppend(a: seq<Line>, b: seq<Line>, id: int)
    ensures Without(a + b, id) == Without(a, id) + Without(b, id)
    decreases |b|
  {
    if |b| == 0 {
      assert a + b == a;
    } else {
      assert (a + b)[..|a + b| - 1] == a + b[..|b| - 1];
      WithoutAppend(a, b[..|b| - 1], id);
    }
  }

  /** Removing an id no line has leaves the cart as it was. */
  lemma {:induction false} WithoutAbsent(cart: seq<Line>, id: int)
    requires forall j :: 0 <= j < |cart| ==> cart[j].id != id
    ensures Without(cart, id) == cart
  {
    if |cart| > 0 {
      WithoutAbsent(cart[..|cart| - 1], id);
    }
  }

  /** When line k is the only line with `id`, removing `id` drops line k and nothing else. */
  lemma WithoutOnly(cart: seq<Line>, id: int, k: int)
    requires 0 <= k < |cart| && cart[k].id == id
    requires forall j :: 0 <= j < |cart| && j != k ==> cart[j].id != id
    ensures Without(cart, id) == cart[..k] + cart[k + 1..]
  {
    var pre, x, post := cart[..k], cart[k], cart[k + 1..];
    assert Without(pre, id) == pre by {
      assert forall j :: 0 <= j < |pre| ==> pre[j] == cart[j];
      WithoutAbsent(pre, id);
    }
    assert Without(post, id) == post by {
      assert forall j :: 0 <= j < |post| ==> post[j] == cart[k + 1 + j];
      WithoutAbsent(post, id);
    }
    assert Without(pre + [x], id) == pre by {
      assert [x][..0] == [];
      WithoutAppend(pre, [x], id);
    }
    assert Without(pre + [x] + post, id) == pre + post by {
      WithoutAppend(pre + [x], post, id);
    }
    assert cart == pre + [x] + post;
  }

  /** In a well-formed cart, removing the id of line k drops that line and nothing else. */
  lemma WithoutLine(cart: seq<Line>, id: int, k: int)
    requires Wellformed(cart)
    requires 0 <= k < |cart| && cart[k].id == id
    ensures Without(cart, id) == cart[..k] + cart[k + 1..]
  {
    forall j | 0 <= j < |cart| && j != k
      ensures cart[j].id != id
    {
      if j < k {
        assert cart[j].id != cart[k].id;
      } else {
        assert cart[k].id != cart[j].id;
      }
    }
    WithoutOnly(cart, id, k);
  }

  /** Removing a line takes its whole quantity and its whole subtotal off the cart's totals. */
  lemma RemoveCounts(cart: seq<Line>, id: int, k: int)
    requires Wellformed(cart)
    requires 0 <= k < |cart| && cart[k].id == id
    ensures ItemCount(Without(cart, id)) == ItemCount(cart) - cart[k].quantity
    ensures Total(Without(cart, id)) == Total(cart) - cart[k].price * cart[k].quantity
  {
    WithoutLine(cart, id, k);
    var pre, post := cart[..k], cart[k + 1..];
    assert cart == pre + [cart[k]] + post;
    SumOfAppend(pre + [cart[k]], post, Quantity);
    SumOfAppend(pre, [cart[k]], Quantity);
    SumOfAppend(pre, post, Quantity);
    SumOfAppend(pre + [cart[k]], post, Subtotal);
    SumOfAppend(pre, [cart[k]], Subtotal);
    SumOfAppend(pre, post, Subtotal);
    SumOfSingleton(cart[k], Quantity);
    SumOfSingleton(cart[k], Subtotal);
  }

  /** removeFromCart keeps the cart invariant. */
  lemma {:induction false} RemovePreservesWellformed(cart: seq<Line>, id: int)
    requires Wellformed(cart)
    ensures Wellformed(Without(cart, id))
  {
    if |cart| > 0 {
      var front, last := cart[..|cart| - 1], cart[|cart| - 1];
      RemovePreservesWellformed(front, id);
      WithoutMembers(front, id);
      var w := Without(front, id);
      forall i | 0 <= i < |w|
        ensures w[i].id != last.id && w[i].quantity >= 1
      {
        assert w[i] in front;
      }
    }
  }

  // ---------------------------------------------------------------------
  // clearCart and updateCartUI
  // ---------------------------------------------------------------------

  /** clearCart: the key is removed, and reading the cart then gives no lines. */
  method ClearCart(store: Store)
    modifies store`cart
    ensures store.cart == None
    ensures GetCart(store) == []
  {
    store.cart := None;
  }

  /** The state part of updateCartUI: the checkout button is enabled exactly
    * when the cart has lines, the total is accumulated line by line, the
    * counters show getItemCount. */
  method UpdateCartUI(store: Store) returns (checkoutEnabled: bool, total: int, count: int)
    ensures checkoutEnabled <==> GetCart(store) != []
    ensures total == Total(GetCart(store))
    ensures count == ItemCount(GetCart(store))
  {
    var cart := GetCart(store);
    total := 0;
    if |cart| == 0 {
      checkoutEnabled := false;
    } else {
      checkoutEnabled := true;
      for i := 0 to |cart|
        invariant total == Total(cart[..i])
      {
        assert cart[..i + 1][..i] == cart[..i];
        total := total + cart[i].price * cart[i].quantity;
      }
      assert cart[..|cart|] == cart;
    }
    count := ItemCount(cart);
  }

  // ---------------------------------------------------------------------
  // handleCheckout
  // ---------------------------------------------------------------------

  /** `cart.map(item => ({productId: item.id, quantity: item.quantity}))`. */
  function OrderItems(cart: seq<Line>): seq<Api.OrderItem>
  {
    seq(|cart|, i requires 0 <= i < |cart| => Api.OrderItem(cart[i].id, cart[i].quantity))
  }

  function OrderedQuantity(item: Api.OrderItem): int
  {
    item.quantity
  }

  /** The order asks for the same lines, in the same order, with the same
    * quantities: one entry per line, and as many units as the cart counts. */
  lemma {:induction false} OrderMatchesCart(cart: seq<Line>)
    ensures |OrderItems(cart)| == |cart|
    ensures forall i :: 0 <= i < |cart| ==> OrderItems(cart)[i] == Api.OrderItem(cart[i].id, cart[i].quantity)
    ensures SumOf(OrderItems(cart), OrderedQuantity) == ItemCount(cart)
  {
    if |cart| > 0 {
      var front := cart[..|cart| - 1];
      OrderMatchesCart(front);
      assert OrderItems(cart)[..|cart| - 1] == OrderItems(front);
    }
  }

  /** An order built from a well-formed cart names each product once, each with at least one unit. */
  lemma OrderOfWellformedCart(cart: seq<Line>)
    requires Wellformed(cart)
    ensures forall i, j :: 0 <= i < j < |cart| ==> OrderItems(cart)[i].productId != OrderItems(cart)[j].productId
    ensures forall i :: 0 <= i < |cart| ==> OrderItems(cart)[i].quantity >= 1
  {
  }

  /** The outcome of one press of the checkout button. */
  datatype CheckoutOutcome =
    | EmptyCart                                           // rejected locally, no order call
    | Confirmed(items: seq<Api.OrderItem>, total: int)    // the order went through; total shown
    | Failed(items: seq<Api.OrderItem>, message: string)  // the order call threw this message

  /** handleCheckout; `response` is what the order call answers when it is made. */
  method Checkout<T>(store: Store, response: Api.Response<T>) returns (outcome: CheckoutOutcome)
    modifies store`cart
    ensures old(GetCart(store)) == [] ==> outcome == EmptyCart && store.cart == old(store.cart)
    ensures old(GetCart(store)) != [] && response.Success? ==>
      outcome == Confirmed(OrderItems(old(GetCart(store))), Total(old(GetCart(store)))) && store.cart == None
    ensures old(GetCart(store)) != [] && !response.Success? ==>
      outcome == Failed(OrderItems(old(GetCart(store))), Api.CreateOrder(response).error)
      && store.cart == old(store.cart)
  {
    var cart := GetCart(store);
    if |cart| == 0 {
      return EmptyCart;
    }
    var items := OrderItems(cart);
    var result := Api.CreateOrder(response);
    if result.Ok? {
      var total := Total(cart);
      ClearCart(store);
      outcome := Confirmed(items, total);
    } else {
      outcome := Failed(items, result.error);
    }
  }
}
