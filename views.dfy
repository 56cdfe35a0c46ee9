/**
 * The cart and checkout views over one store: the product table, each user's
 * cart and the cart-line table. Each method is one request handler; it returns
 * what the handler reports and changes the tables the way the handler does.
 */
module Views {
  import opened Wrappers
  import opened Models
  import opened CartTable

  /** `Http404` raised by a lookup, and `Cart.DoesNotExist` raised by checkout's cart lookup. */
  datatype Error = NotFound | CartDoesNotExist

  /** The flat shipping fee the cart and checkout pages charge: 10.00. */
  const ShippingFee: Money := 10_000

  /** The totals the cart and checkout pages show. */
  datatype Totals = Totals(subtotal: Money, tax: Money, shipping: Money, total: Money)

  /**
   * The totals of the cart and checkout views: the line totals summed, 10% tax,
   * shipping charged only on a positive subtotal. Unlike the model's cart total,
   * these include shipping.
   */
  function ViewTotals(lines: seq<PricedLine>): (t: Totals)
    ensures t.subtotal == Subtotal(lines) && t.tax == Tax(t.subtotal)
    ensures t.total == t.subtotal + t.tax + t.shipping
    ensures AllValid(lines) ==> 10 * t.tax == t.subtotal
    ensures AllValid(lines) ==> t.shipping == if lines == [] then 0 else ShippingFee
    ensures AllValid(lines) ==> t.total == CartTotal(lines) + t.shipping
    ensures lines == [] ==> t == Totals(0, 0, 0, 0)
  {
    var subtotal := Subtotal(lines);
    var tax := Tax(subtotal);
    var shipping := if subtotal > 0 then ShippingFee else 0;
    Totals(subtotal, tax, shipping, subtotal + tax + shipping)
  }

  /** Two units at 10.00 and one at 5.00: 25.00, 2.50 tax, 10.00 shipping, 37.50 in all. */
  lemma TwoLineViewTotals()
    ensures ViewTotals([PricedLine(10_000, 2), PricedLine(5_000, 1)]) == Totals(25_000, 2_500, 10_000, 37_500)
  {
    TwoLineCartTotals();
  }

  /** The product table's constraints: valid products with distinct primary keys. */
  predicate CatalogValid(products: seq<Product>)
  {
    && (forall p :: p in products ==> ValidProduct(p))
    && (forall i, j :: 0 <= i < j < |products| ==> products[i].id != products[j].id)
  }

  /** What `add_to_cart` reports: a new line, or the line's new quantity. */
  datatype AddOutcome = LineCreated | QuantityIncreased(quantity: int)

  /** What `quick_add_to_cart` answers: a refusal for a non-POST request, or the number of lines in the cart. */
  datatype QuickAddResponse = InvalidRequest | AddedToCart(cartCount: nat)

  /** What `checkout` ends in: a placed order, or the checkout page with the current totals. */
  datatype CheckoutOutcome = Placed(order: Order) | CheckoutPage(totals: Totals)

  class Store {
    /** The product table; no operation modelled here changes it. */
    const products: seq<Product>
    /** Each user's cart, created on first use. */
    var carts: map<nat, nat>
    /** The cart-line table, in the order lines were added. */
    var items: seq<CartItem>
    /** The next free cart key and cart-line key. */
    var nextCartId: nat
    var nextItemId: nat

    ghost predicate Valid()
      reads this
    {
      && CatalogValid(products)
      && (forall u, v :: u in carts && v in carts && u != v ==> carts[u] != carts[v])
      && (forall u :: u in carts ==> carts[u] < nextCartId)
      && WellFormed(items, nextItemId)
      && (forall i :: 0 <= i < |items| ==> items[i].cart < nextCartId && FindProduct(products, items[i].product).Some?)
    }

    constructor (products: seq<Product>)
      requires CatalogValid(products)
      ensures Valid()
      ensures this.products == products && carts == map[] && items == []
    {
      this.products := products;
      carts := map[];
      items := [];
      nextCartId := 0;
      nextItemId := 0;
    }

    /** The lines of cart `c` as the totals read them. */
    function Lines(c: nat): seq<PricedLine>
      reads this
    {
      CartLines(items, products, c)
    }

    /** Every line of every cart has a valid price and a quantity of at least 1, so the totals' properties apply. */
    lemma LinesValid(c: nat)
      requires Valid()
      ensures AllValid(Lines(c))
      ensures |Lines(c)| == LinesIn(items, c)
    {
      CartLinesValid(items, nextItemId, products, c);
    }

    /** A line that belongs to another user's cart cannot be reached through this user's cart. */
    lemma OtherUsersLineHidden(u: nat, v: nat, i: nat)
      requires Valid() && u in carts && v in carts && u != v
      requires i < |items| && items[i].cart == carts[v]
      ensures FindItem(items, items[i].id, carts[u]).None?
    {
      ForeignLineNotFound(items, nextItemId, i, carts[u]);
    }

    /** `Cart.objects.get_or_create(user=u)`: the user's cart, created empty when there is none. */
    method GetOrCreateCart(u: nat) returns (c: nat)
      requires Valid()
      modifies this
      ensures Valid()
      ensures items == old(items) && nextItemId == old(nextItemId)
      ensures u in carts && c == carts[u]
      ensures old(u in carts) ==> carts == old(carts) && nextCartId == old(nextCartId)
      ensures old(u !in carts) ==> carts == old(carts)[u := c] && LinesIn(items, c) == 0 && Lines(c) == []
    {
      if u in carts {
        c := carts[u];
      } else {
        c := nextCartId;
        NoRowsOf(items, products, c, 0);
        carts := carts[u := c];
        nextCartId := nextCartId + 1;
      }
    }

    /**
     * Get-or-create the line for `pid` in cart `c`, then merge by one: a new line
     * has quantity 1, an existing line's quantity goes up by exactly 1.
     */
    method AddOne(c: nat, pid: nat) returns (created: bool, quantity: int)
      requires Valid() && c < nextCartId && FindProduct(products, pid).Some?
      modifies this`items, this`nextItemId
      ensures Valid()
      ensures created <==> old(LineCount(items, c, pid)) == 0
      ensures created ==> items == old(items) + [CartItem(old(nextItemId), c, pid, 1)]
      ensures items == AddUnit(old(items), old(nextItemId), c, pid)
      ensures quantity == QuantityOf(items, c, pid) == old(QuantityOf(items, c, pid)) + 1
      ensures LineCount(items, c, pid) == 1
      ensures LinesIn(items, c) == old(LinesIn(items, c)) + (if created then 1 else 0)
      ensures OthersUnchanged(old(items), items, CartItem(0, c, pid, 0))
      ensures Subtotal(Lines(c)) == old(Subtotal(Lines(c))) + FindProduct(products, pid).value.price
    {
      var found := FindLine(items, c, pid);
      AtMostOneLine(items, nextItemId, c, pid);
      if found.None? {
        AppendLine(c, pid);
        created, quantity := true, 1;
      } else {
        quantity := IncrementLine(found.value);
        created := false;
      }
    }

    /** Creates the line for `pid` in cart `c`, which has none, with quantity 1. */
    method AppendLine(c: nat, pid: nat)
      requires Valid() && c < nextCartId && FindProduct(products, pid).Some?
      requires FindLine(items, c, pid).None?
      modifies this`items, this`nextItemId
      ensures Valid()
      ensures items == old(items) + [CartItem(old(nextItemId), c, pid, 1)] && nextItemId == old(nextItemId) + 1
      ensures QuantityOf(items, c, pid) == old(QuantityOf(items, c, pid)) + 1
      ensures LineCount(items, c, pid) == old(LineCount(items, c, pid)) + 1
      ensures LinesIn(items, c) == old(LinesIn(items, c)) + 1
      ensures OthersUnchanged(old(items), items, CartItem(0, c, pid, 0))
      ensures Subtotal(Lines(c)) == old(Subtotal(Lines(c))) + FindProduct(products, pid).value.price
    {
      var x := CartItem(nextItemId, c, pid, 1);
      AppendWellFormed(items, nextItemId, x);
      AppendOthers(items, x);
      Append(items, x, products, c, pid);
      SubtotalAppend(CartLines(items, products, c), [Priced(products, x)]);
      assert Subtotal([Priced(products, x)]) == FindProduct(products, pid).value.price;
      items := items + [x];
      nextItemId := nextItemId + 1;
    }

    /** Raises the quantity of line `i` by exactly 1. */
    method IncrementLine(i: nat) returns (quantity: int)
      requires Valid() && i < |items|
      modifies this`items
      ensures Valid()
      ensures items == old(items)[i := old(items)[i].(quantity := old(items)[i].quantity + 1)]
      ensures var x := old(items)[i];
        && quantity == x.quantity + 1
        && QuantityOf(items, x.cart, x.product) == old(QuantityOf(items, x.cart, x.product)) + 1
        && LineCount(items, x.cart, x.product) == old(LineCount(items, x.cart, x.product))
        && LinesIn(items, x.cart) == old(LinesIn(items, x.cart))
        && Subtotal(Lines(x.cart)) == old(Subtotal(Lines(x.cart))) + Priced(products, x).price
      ensures OthersUnchanged(old(items), items, old(items)[i])
    {
      var x := items[i];
      quantity := x.quantity + 1;
      var after := items[i := x.(quantity := quantity)];
      UpdateWellFormed(items, nextItemId, i, quantity);
      UpdateOthers(items, i, quantity);
      Update(items, i, quantity, products, x.cart, x.product);
      LineTotalStep(Priced(products, x).price, x.quantity);
      assert Priced(products, after[i]).price == Priced(products, x).price;
      assert forall j :: 0 <= j < |after| ==> after[j].cart == items[j].cart && after[j].product == items[j].product;
      items := after;
    }

    /**
     * The step `add_to_cart` and `quick_add_to_cart` share: get or create the
     * user's cart `c`, then get or create its line for `pid` and add one unit.
     */
    method AddForUser(u: nat, pid: nat) returns (c: nat, created: bool, quantity: int)
      requires Valid() && FindProduct(products, pid).Some?
      modifies this
      ensures Valid()
      ensures u in carts && c == carts[u] && carts == old(carts)[u := c]
      ensures old(u in carts) ==> carts == old(carts)
      ensures items == AddUnit(old(items), old(nextItemId), c, pid)
      ensures created <==> old(LineCount(items, c, pid)) == 0
      ensures created ==> items == old(items) + [CartItem(old(nextItemId), c, pid, 1)]
      ensures quantity == QuantityOf(items, c, pid) == old(QuantityOf(items, c, pid)) + 1
      ensures LineCount(items, c, pid) == 1
      ensures Subtotal(Lines(c)) == old(Subtotal(Lines(c))) + FindProduct(products, pid).value.price
      ensures LinesIn(items, c) == old(LinesIn(items, c)) + (if created then 1 else 0)
      ensures OthersUnchanged(old(items), items, CartItem(0, c, pid, 0))
      ensures old(u !in carts) ==> created && LinesIn(items, c) == 1
    {
      c := GetOrCreateCart(u);
      if old(u !in carts) {
        LinesInCounts(items, c);
        NoRowsOf(items, products, c, pid);
      }
      created, quantity := AddOne(c, pid);
    }

    /**
     * `add_to_cart`: an unknown product is not found and nothing changes;
     * otherwise the user's cart gets one more unit of the product.
     */
    method AddToCart(u: nat, pid: nat) returns (r: Result<AddOutcome, Error>)
      requires Valid()
      modifies this
      ensures Valid()
      ensures r.Failure? <==> FindProduct(products, pid).None?
      ensures r.Failure? ==> r.error == NotFound && carts == old(carts) && items == old(items)
      ensures r.Success? ==> u in carts && carts == old(carts)[u := carts[u]] && (old(u in carts) ==> carts == old(carts))
      ensures r.Success? ==> var c := carts[u];
        && (r.value == LineCreated <==> old(LineCount(items, c, pid)) == 0)
        && (r.value == LineCreated ==> items == old(items) + [CartItem(old(nextItemId), c, pid, 1)])
        && (r.value.QuantityIncreased? ==> r.value.quantity == QuantityOf(items, c, pid))
        && QuantityOf(items, c, pid) == old(QuantityOf(items, c, pid)) + 1
        && LineCount(items, c, pid) == 1
        && Subtotal(Lines(c)) == old(Subtotal(Lines(c))) + FindProduct(products, pid).value.price
      ensures r.Success? ==> items == AddUnit(old(items), old(nextItemId), carts[u], pid)
      ensures r.Success? ==> OthersUnchanged(old(items), items, CartItem(0, carts[u], pid, 0))
      ensures r.Success? && old(u !in carts) ==> r.value == LineCreated && LinesIn(items, carts[u]) == 1
    {
      if FindProduct(products, pid).None? {
        return Failure(NotFound);
      }
      var c, created, quantity := AddForUser(u, pid);
      r := Success(if created then LineCreated else QuantityIncreased(quantity));
    }

    /**
     * `quick_add_to_cart`: a non-POST request is refused and changes nothing;
     * otherwise it adds like `add_to_cart` and answers the number of lines in the cart.
     */
    method QuickAddToCart(u: nat, pid: nat, isPost: bool) returns (r: Result<QuickAddResponse, Error>)
      requires Valid()
      modifies this
      ensures Valid()
      ensures !isPost ==> r == Success(InvalidRequest) && carts == old(carts) && items == old(items)
      ensures isPost && FindProduct(products, pid).None? ==> r == Failure(NotFound) && carts == old(carts) && items == old(items)
      ensures isPost && FindProduct(products, pid).Some? ==>
        r.Success? && r.value.AddedToCart? && u in carts && carts == old(carts)[u := carts[u]]
      ensures r.Success? && r.value.AddedToCart? ==> var c := carts[u];
        && (old(u in carts) ==> carts == old(carts))
        && r.value.cartCount == LinesIn(items, c)
        && QuantityOf(items, c, pid) == old(QuantityOf(items, c, pid)) + 1
        && LineCount(items, c, pid) == 1
        && (old(LineCount(items, c, pid)) == 0 ==> items == old(items) + [CartItem(old(nextItemId), c, pid, 1)])
      ensures r.Success? && r.value.AddedToCart? ==> items == AddUnit(old(items), old(nextItemId), carts[u], pid)
      ensures r.Success? && r.value.AddedToCart? ==> OthersUnchanged(old(items), items, CartItem(0, carts[u], pid, 0))
      ensures r.Success? && r.value.AddedToCart? && old(u !in carts) ==>
        r.value.cartCount == 1 && items == old(items) + [CartItem(old(nextItemId), carts[u], pid, 1)]
    {
      if !isPost {
        return Success(InvalidRequest);
      }
      if FindProduct(products, pid).None? {
        return Failure(NotFound);
      }
      var c, created, quantity := AddForUser(u, pid);
      r := Success(AddedToCart(LinesIn(items, c)));
    }

    /**
     * `remove_from_cart`: deletes the line with key `itemId` if it is in the
     * user's own cart; a line of another cart is not found and nothing changes.
     */
    method RemoveFromCart(u: nat, itemId: nat) returns (r: Outcome<Error>)
      requires Valid()
      modifies this`items
      ensures Valid()
      ensures r.Fail? <==> u !in carts || FindItem(old(items), itemId, carts[u]).None?
      ensures r.Fail? ==> r.error == NotFound && items == old(items)
      ensures r.Pass? ==>
        var i := FindItem(old(items), itemId, carts[u]).value;
        var x := old(items)[i];
        && items == RemoveAt(old(items), i)
        && QuantityOf(items, x.cart, x.product) == 0 && LineCount(items, x.cart, x.product) == 0
        && LinesIn(items, x.cart) == old(LinesIn(items, x.cart)) - 1
        && OthersUnchanged(old(items), items, x)
    {
      if u !in carts {
        return Fail(NotFound);
      }
      var found := FindItem(items, itemId, carts[u]);
      if found.None? {
        return Fail(NotFound);
      }
      DeleteLine(found.value);
      r := Pass;
    }

    /** Deletes line `i`; the readings of every other (cart, product) pair stay as they were. */
    method DeleteLine(i: nat)
      requires Valid() && i < |items|
      modifies this`items
      ensures Valid()
      ensures items == RemoveAt(old(items), i)
      ensures var x := old(items)[i];
        && QuantityOf(items, x.cart, x.product) == 0 && LineCount(items, x.cart, x.product) == 0
        && LinesIn(items, x.cart) == old(LinesIn(items, x.cart)) - 1
        && OthersUnchanged(old(items), items, x)
    {
      var x := items[i];
      TheLine(items, nextItemId, i);
      RemoveWellFormed(items, nextItemId, i);
      RemoveOthers(items, i);
      Remove(items, i, products, x.cart, x.product);
      items := RemoveAt(items, i);
    }

    /**
     * `update_cart_item`: on POST, a positive quantity replaces the line's
     * quantity and any other quantity deletes the line; a line outside the
     * user's cart is not found. A request that is not a POST changes nothing.
     */
    method UpdateCartItem(u: nat, itemId: nat, isPost: bool, quantity: int) returns (r: Outcome<Error>)
      requires Valid()
      modifies this`items
      ensures Valid()
      ensures !isPost ==> r == Pass && items == old(items)
      ensures isPost ==> (r.Fail? <==> u !in carts || FindItem(old(items), itemId, carts[u]).None?)
      ensures r.Fail? ==> r.error == NotFound && items == old(items)
      ensures isPost && r.Pass? ==>
        var i := FindItem(old(items), itemId, carts[u]).value;
        var x := old(items)[i];
        && (quantity > 0 ==> items == old(items)[i := x.(quantity := quantity)])
        && (quantity <= 0 ==> items == RemoveAt(old(items), i))
        && QuantityOf(items, x.cart, x.product) == (if quantity > 0 then quantity else 0)
        && LineCount(items, x.cart, x.product) == (if quantity > 0 then 1 else 0)
        && OthersUnchanged(old(items), items, x)
    {
      if !isPost {
        return Pass;
      }
      if u !in carts {
        return Fail(NotFound);
      }
      var found := FindItem(items, itemId, carts[u]);
      if found.None? {
        return Fail(NotFound);
      }
      var i := found.value;
      if quantity > 0 {
        var x := items[i];
        TheLine(items, nextItemId, i);
        UpdateWellFormed(items, nextItemId, i, quantity);
        UpdateOthers(items, i, quantity);
        Update(items, i, quantity, products, x.cart, x.product);
        items := items[i := x.(quantity := quantity)];
      } else {
        DeleteLine(i);
      }
      r := Pass;
    }

    /**
     * `clear_cart`: on POST, deletes every line of the user's cart and no other;
     * a user without a cart is not found. A request that is not a POST changes nothing.
     */
    method ClearCart(u: nat, isPost: bool) returns (r: Outcome<Error>)
      requires Valid()
      modifies this`items
      ensures Valid()
      ensures !isPost ==> r == Pass && items == old(items)
      ensures isPost && u !in carts ==> r == Fail(NotFound) && items == old(items)
      ensures isPost && u in carts ==> r == Pass && ClearedOnly(old(items), items, products, carts[u])
    {
      if !isPost {
        return Pass;
      }
      if u !in carts {
        return Fail(NotFound);
      }
      EmptyCart(carts[u]);
      r := Pass;
    }

    /** `cart.items.all().delete()`. */
    method EmptyCart(c: nat)
      requires Valid()
      modifies this`items
      ensures Valid()
      ensures ClearedOnly(old(items), items, products, c)
    {
      WithoutCartWellFormed(items, nextItemId, c);
      ClearEffects(items, products, c);
      var before := items;
      items := WithoutCart(items, c);
      assert forall j :: 0 <= j < |items| ==> items[j] in before;
    }

    /**
     * The cart count `product_list` and `product_detail` show an authenticated
     * user: the user's cart is created if need be, so a later `clear_cart` or
     * `checkout` finds it.
     */
    method CartCount(u: nat) returns (n: nat)
      requires Valid()
      modifies this
      ensures Valid()
      ensures items == old(items) && u in carts
      ensures carts == old(carts)[u := carts[u]]
      ensures old(u in carts) ==> carts == old(carts)
      ensures n == LinesIn(items, carts[u])
      ensures old(u !in carts) ==> n == 0
    {
      var c := GetOrCreateCart(u);
      n := LinesIn(items, c);
    }

    /** `cart_view`: the user's cart, created if need be, and the totals of its lines. */
    method CartView(u: nat) returns (t: Totals)
      requires Valid()
      modifies this
      ensures Valid()
      ensures items == old(items) && u in carts
      ensures carts == old(carts)[u := carts[u]]
      ensures old(u in carts) ==> carts == old(carts)
      ensures t == ViewTotals(Lines(carts[u]))
      ensures 10 * t.tax == t.subtotal
      ensures t.shipping == if LinesIn(items, carts[u]) == 0 then 0 else ShippingFee
      ensures old(u !in carts) ==> t == Totals(0, 0, 0, 0)
    {
      var c := GetOrCreateCart(u);
      LinesValid(c);
      t := ViewTotals(Lines(c));
    }

    /**
     * `checkout`: the user's cart must exist. The totals are computed once from
     * its lines; a valid POST freezes them onto a new, numbered, pending order and
     * then deletes the cart's lines. Any other request shows the totals and
     * changes nothing.
     */
    method Checkout(u: nat, isPost: bool, formValid: bool) returns (r: Result<CheckoutOutcome, Error>)
      requires Valid()
      modifies this`items
      ensures Valid()
      ensures u !in carts ==> r == Failure(CartDoesNotExist) && items == old(items)
      ensures u in carts && !(isPost && formValid) ==>
        r == Success(CheckoutPage(ViewTotals(old(Lines(carts[u]))))) && items == old(items)
      ensures u in carts && isPost && formValid ==> r.Success? && r.value.Placed?
      ensures r.Success? && r.value.Placed? ==>
        var t := ViewTotals(old(Lines(carts[u])));
        var o := r.value.order;
        && fresh(o) && o.user == u
        && o.subtotal == t.subtotal && o.tax == t.tax && o.total == t.total
        && o.status == Pending && ValidOrderNumber(o.orderNumber)
        && ClearedOnly(old(items), items, products, carts[u])
    {
      if u !in carts {
        return Failure(CartDoesNotExist);
      }
      var c := carts[u];
      var t := ViewTotals(Lines(c));
      if isPost && formValid {
        var order := new Order(u, t.subtotal, t.tax, t.total);
        order.Save();
        EmptyCart(c);
        r := Success(Placed(order));
      } else {
        r := Success(CheckoutPage(t));
      }
    }
  }
}
