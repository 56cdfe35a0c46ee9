/**
 * The cart-line table: one row per (cart, product) pair with its quantity, kept
 * in the order the rows were added. The functions here read the table the way
 * the views and the model properties do; the lemmas say how each kind of row
 * change (append, update, delete, bulk delete) moves those readings.
 */
module CartTable {
  import opened Wrappers
  import opened Models

  /** A cart line: its primary key, its cart, its product and its quantity. */
  datatype CartItem = CartItem(id: nat, cart: nat, product: nat, quantity: int)

  predicate IsLine(x: CartItem, cart: nat, product: nat)
  {
    x.cart == cart && x.product == product
  }

  /**
   * The table's declared constraints: every quantity is at least 1, primary keys
   * are distinct and below `nextId`, and each (cart, product) pair has at most one row.
   */
  predicate WellFormed(s: seq<CartItem>, nextId: nat)
  {
    && (forall i :: 0 <= i < |s| ==> s[i].quantity >= 1 && s[i].id < nextId)
    && (forall i, j :: 0 <= i < j < |s| ==> s[i].id != s[j].id)
    && (forall i, j :: 0 <= i < j < |s| ==> !IsLine(s[j], s[i].cart, s[i].product))
  }

  /** The row for `product` in `cart`, if there is one. */
  function FindLine(s: seq<CartItem>, cart: nat, product: nat): (r: Option<nat>)
    ensures r.Some? ==> r.value < |s| && IsLine(s[r.value], cart, product)
    ensures r.None? ==> forall i :: 0 <= i < |s| ==> !IsLine(s[i], cart, product)
  {
    if s == [] then None
    else if IsLine(s[|s| - 1], cart, product) then Some(|s| - 1)
    else FindLine(s[..|s| - 1], cart, product)
  }

  /** The row with primary key `id`, provided it belongs to `cart`. */
  function FindItem(s: seq<CartItem>, id: nat, cart: nat): (r: Option<nat>)
    ensures r.Some? ==> r.value < |s| && s[r.value].id == id && s[r.value].cart == cart
    ensures r.None? ==> forall i :: 0 <= i < |s| ==> !(s[i].id == id && s[i].cart == cart)
  {
    if s == [] then None
    else if s[|s| - 1].id == id && s[|s| - 1].cart == cart then Some(|s| - 1)
    else FindItem(s[..|s| - 1], id, cart)
  }

  /** The quantity of `product` in `cart`: 0 when it has no row. */
  function QuantityOf(s: seq<CartItem>, cart: nat, product: nat): int
  {
    if s == [] then 0
    else (if IsLine(s[0], cart, product) then s[0].quantity else 0) + QuantityOf(s[1..], cart, product)
  }

  /** The number of rows for `product` in `cart`. */
  function LineCount(s: seq<CartItem>, cart: nat, product: nat): nat
  {
    if s == [] then 0
    else (if IsLine(s[0], cart, product) then 1 else 0) + LineCount(s[1..], cart, product)
  }

  /** `cart.items.count()`: the number of rows of `cart`. */
  function LinesIn(s: seq<CartItem>, cart: nat): nat
  {
    if s == [] then 0
    else (if s[0].cart == cart then 1 else 0) + LinesIn(s[1..], cart)
  }

  /** A row as the totals read it: the current price of its product and its quantity. */
  function Priced(products: seq<Product>, x: CartItem): PricedLine
  {
    var p := FindProduct(products, x.product);
    PricedLine(if p.Some? then p.value.price else 0, x.quantity)
  }

  /** `cart.items.all()`, priced: the rows of `cart` in table order. */
  function CartLines(s: seq<CartItem>, products: seq<Product>, cart: nat): (r: seq<PricedLine>)
    ensures |r| == LinesIn(s, cart)
  {
    if s == [] then []
    else (if s[0].cart == cart then [Priced(products, s[0])] else []) + CartLines(s[1..], products, cart)
  }

  /**
   * `get_or_create` of the line for (`cart`, `product`) followed by `quantity += 1`:
   * a missing line is appended with key `nextId` and quantity 1, an existing one
   * is updated in place, keeping its key.
   */
  function AddUnit(s: seq<CartItem>, nextId: nat, cart: nat, product: nat): seq<CartItem>
  {
    match FindLine(s, cart, product)
    case None => s + [CartItem(nextId, cart, product, 1)]
    case Some(i) => s[i := s[i].(quantity := s[i].quantity + 1)]
  }

  /**
   * Adding a unit keeps every existing row's key, cart and product, so a line
   * can still be found by the key it had; a new row is added only when the
   * pair had none.
   */
  lemma AddUnitKeepsKeys(s: seq<CartItem>, nextId: nat, cart: nat, product: nat)
    ensures var r := AddUnit(s, nextId, cart, product);
      && |r| == |s| + (if FindLine(s, cart, product).None? then 1 else 0)
      && (forall j :: 0 <= j < |s| ==> r[j].id == s[j].id && r[j].cart == s[j].cart && r[j].product == s[j].product)
      && (forall j :: 0 <= j < |s| && !IsLine(s[j], cart, product) ==> r[j] == s[j])
    ensures forall id, c :: FindItem(s, id, c).Some? ==> FindItem(AddUnit(s, nextId, cart, product), id, c).Some?
  {
    var r := AddUnit(s, nextId, cart, product);
    forall id, c | FindItem(s, id, c).Some?
      ensures FindItem(r, id, c).Some?
    {
      var k := FindItem(s, id, c).value;
      assert r[k].id == id && r[k].cart == c;
    }
  }

  /** Deleting one row. */
  function RemoveAt(s: seq<CartItem>, i: nat): (r: seq<CartItem>)
    requires i < |s|
    ensures |r| == |s| - 1
  {
    s[..i] + s[i + 1..]
  }

  /** `cart.items.all().delete()`: the table without the rows of `cart`. */
  function WithoutCart(s: seq<CartItem>, cart: nat): (r: seq<CartItem>)
    ensures forall x :: x in r <==> x in s && x.cart != cart
    ensures |r| <= |s|
  {
    if s == [] then []
    else (if s[0].cart == cart then [] else [s[0]]) + WithoutCart(s[1..], cart)
  }

  // ----- How the readings split over a concatenation -----

  lemma {:induction false} Split(a: seq<CartItem>, b: seq<CartItem>, products: seq<Product>, cart: nat, product: nat)
    ensures QuantityOf(a + b, cart, product) == QuantityOf(a, cart, product) + QuantityOf(b, cart, product)
    ensures LineCount(a + b, cart, product) == LineCount(a, cart, product) + LineCount(b, cart, product)
    ensures LinesIn(a + b, cart) == LinesIn(a, cart) + LinesIn(b, cart)
    ensures CartLines(a + b, products, cart) == CartLines(a, products, cart) + CartLines(b, products, cart)
  {
    if a == [] {
      assert a + b == b;
    } else {
      assert (a + b)[1..] == a[1..] + b;
      Split(a[1..], b, products, cart, product);
    }
  }

  lemma Single(x: CartItem, products: seq<Product>, cart: nat, product: nat)
    ensures QuantityOf([x], cart, product) == if IsLine(x, cart, product) then x.quantity else 0
    ensures LineCount([x], cart, product) == if IsLine(x, cart, product) then 1 else 0
    ensures LinesIn([x], cart) == if x.cart == cart then 1 else 0
    ensures CartLines([x], products, cart) == if x.cart == cart then [Priced(products, x)] else []
  {
    assert [x][1..] == [];
  }

  /** The readings of the table split around row `i`. */
  lemma SplitAround(s: seq<CartItem>, i: nat, products: seq<Product>, cart: nat, product: nat)
    requires i < |s|
    ensures QuantityOf(s, cart, product)
      == QuantityOf(s[..i], cart, product) + QuantityOf([s[i]], cart, product) + QuantityOf(s[i + 1..], cart, product)
    ensures LineCount(s, cart, product)
      == LineCount(s[..i], cart, product) + LineCount([s[i]], cart, product) + LineCount(s[i + 1..], cart, product)
    ensures LinesIn(s, cart) == LinesIn(s[..i], cart) + LinesIn([s[i]], cart) + LinesIn(s[i + 1..], cart)
    ensures CartLines(s, products, cart)
      == CartLines(s[..i], products, cart) + CartLines([s[i]], products, cart) + CartLines(s[i + 1..], products, cart)
  {
    assert s == s[..i] + [s[i]] + s[i + 1..];
    Split(s[..i] + [s[i]], s[i + 1..], products, cart, product);
    Split(s[..i], [s[i]], products, cart, product);
  }

  // ----- Uniqueness -----

  lemma {:induction false} NoLine(s: seq<CartItem>, cart: nat, product: nat)
    requires forall i :: 0 <= i < |s| ==> !IsLine(s[i], cart, product)
    ensures QuantityOf(s, cart, product) == 0 && LineCount(s, cart, product) == 0
  {
    if s != [] {
      NoLine(s[1..], cart, product);
    }
  }

  /** With unique (cart, product) pairs, the quantity of a row's pair is that row's quantity. */
  lemma TheLine(s: seq<CartItem>, n: nat, i: nat)
    requires WellFormed(s, n) && i < |s|
    ensures QuantityOf(s, s[i].cart, s[i].product) == s[i].quantity
    ensures LineCount(s, s[i].cart, s[i].product) == 1
  {
    var c, p := s[i].cart, s[i].product;
    SplitAround(s, i, [], c, p);
    Single(s[i], [], c, p);
    NoLine(s[..i], c, p);
    var after := s[i + 1..];
    assert forall j :: 0 <= j < |after| ==> after[j] == s[i + 1 + j];
    NoLine(after, c, p);
  }

  /** unique_together: a well-formed table holds at most one row per (cart, product). */
  lemma AtMostOneLine(s: seq<CartItem>, n: nat, cart: nat, product: nat)
    requires WellFormed(s, n)
    ensures LineCount(s, cart, product) <= 1
    ensures LineCount(s, cart, product) == 1 <==> FindLine(s, cart, product).Some?
    ensures FindLine(s, cart, product).None? ==> QuantityOf(s, cart, product) == 0
    ensures FindLine(s, cart, product).Some? ==> QuantityOf(s, cart, product) == s[FindLine(s, cart, product).value].quantity
  {
    var r := FindLine(s, cart, product);
    if r.Some? {
      TheLine(s, n, r.value);
    } else {
      NoLine(s, cart, product);
    }
  }

  /**
   * A row of another user's cart is not found through this user's cart: primary
   * keys are unique, so the only row with that key belongs to the other cart.
   */
  lemma ForeignLineNotFound(s: seq<CartItem>, n: nat, i: nat, cart: nat)
    requires WellFormed(s, n) && i < |s| && s[i].cart != cart
    ensures FindItem(s, s[i].id, cart).None?
  {
  }

  /** A cart with no rows has no quantity, no lines and no priced lines. */
  lemma {:induction false} NoRowsOf(s: seq<CartItem>, products: seq<Product>, cart: nat, product: nat)
    requires forall i :: 0 <= i < |s| ==> s[i].cart != cart
    ensures LinesIn(s, cart) == 0 && CartLines(s, products, cart) == []
    ensures QuantityOf(s, cart, product) == 0 && LineCount(s, cart, product) == 0
  {
    if s != [] {
      NoRowsOf(s[1..], products, cart, product);
    }
  }

  /** A row is identified by its primary key, and by its (cart, product) pair. */
  lemma WellFormedKeys(s: seq<CartItem>, n: nat)
    requires WellFormed(s, n)
    ensures forall i, j :: 0 <= i < |s| && 0 <= j < |s| && s[i].id == s[j].id ==> i == j
    ensures forall i, j :: 0 <= i < |s| && 0 <= j < |s| && IsLine(s[j], s[i].cart, s[i].product) ==> i == j
  {
  }

  /** The cart's rows and the other carts' rows make up the table; a cart has no rows iff no row names it. */
  lemma {:induction false} LinesInCounts(s: seq<CartItem>, cart: nat)
    ensures LinesIn(s, cart) + |WithoutCart(s, cart)| == |s|
    ensures LinesIn(s, cart) == 0 <==> forall i :: 0 <= i < |s| ==> s[i].cart != cart
  {
    if s != [] {
      LinesInCounts(s[1..], cart);
      assert forall i :: 1 <= i < |s| ==> s[i] == s[1..][i - 1];
    }
  }

  /** Every priced line of a cart comes from one of that cart's rows. */
  lemma {:induction false} CartLinesRows(s: seq<CartItem>, products: seq<Product>, cart: nat)
    ensures forall l :: l in CartLines(s, products, cart) ==>
      exists i :: 0 <= i < |s| && s[i].cart == cart && l == Priced(products, s[i])
  {
    if s != [] {
      CartLinesRows(s[1..], products, cart);
      forall l | l in CartLines(s, products, cart)
        ensures exists i :: 0 <= i < |s| && s[i].cart == cart && l == Priced(products, s[i])
      {
        if s[0].cart == cart && l == Priced(products, s[0]) {
          assert 0 < |s|;
        } else {
          assert l in CartLines(s[1..], products, cart);
          var i :| 0 <= i < |s[1..]| && s[1..][i].cart == cart && l == Priced(products, s[1..][i]);
          assert s[i + 1] == s[1..][i];
        }
      }
    }
  }

  // ----- The effect of each kind of row change -----

  lemma Append(s: seq<CartItem>, x: CartItem, products: seq<Product>, cart: nat, product: nat)
    ensures QuantityOf(s + [x], cart, product) == QuantityOf(s, cart, product) + (if IsLine(x, cart, product) then x.quantity else 0)
    ensures LineCount(s + [x], cart, product) == LineCount(s, cart, product) + (if IsLine(x, cart, product) then 1 else 0)
    ensures LinesIn(s + [x], cart) == LinesIn(s, cart) + (if x.cart == cart then 1 else 0)
    ensures CartLines(s + [x], products, cart) == CartLines(s, products, cart) + (if x.cart == cart then [Priced(products, x)] else [])
  {
    Split(s, [x], products, cart, product);
    Single(x, products, cart, product);
  }

  /** Changing the quantity of row `i` moves only the readings of that row's pair. */
  lemma Update(s: seq<CartItem>, i: nat, q: int, products: seq<Product>, cart: nat, product: nat)
    requires i < |s|
    ensures var x := s[i].(quantity := q);
      && QuantityOf(s[i := x], cart, product)
         == QuantityOf(s, cart, product) + (if IsLine(x, cart, product) then q - s[i].quantity else 0)
      && LineCount(s[i := x], cart, product) == LineCount(s, cart, product)
      && LinesIn(s[i := x], cart) == LinesIn(s, cart)
      && Subtotal(CartLines(s[i := x], products, cart))
         == Subtotal(CartLines(s, products, cart))
            + (if x.cart == cart then LineTotal(Priced(products, x).price, q) - LineTotal(Priced(products, s[i]).price, s[i].quantity) else 0)
  {
    var x := s[i].(quantity := q);
    var t := s[i := x];
    assert t[..i] == s[..i] && t[i + 1..] == s[i + 1..] && t[i] == x;
    SplitAround(s, i, products, cart, product);
    SplitAround(t, i, products, cart, product);
    Single(s[i], products, cart, product);
    Single(x, products, cart, product);
    var a, b := CartLines(s[..i], products, cart), CartLines(s[i + 1..], products, cart);
    SubtotalAppend(a + CartLines([s[i]], products, cart), b);
    SubtotalAppend(a, CartLines([s[i]], products, cart));
    SubtotalAppend(a + CartLines([x], products, cart), b);
    SubtotalAppend(a, CartLines([x], products, cart));
    assert Subtotal([Priced(products, x)]) == LineTotal(Priced(products, x).price, q);
    assert Subtotal([Priced(products, s[i])]) == LineTotal(Priced(products, s[i]).price, s[i].quantity);
  }

  /** Deleting row `i` removes exactly that row's contribution from every reading. */
  lemma Remove(s: seq<CartItem>, i: nat, products: seq<Product>, cart: nat, product: nat)
    requires i < |s|
    ensures QuantityOf(RemoveAt(s, i), cart, product)
      == QuantityOf(s, cart, product) - (if IsLine(s[i], cart, product) then s[i].quantity else 0)
    ensures LineCount(RemoveAt(s, i), cart, product)
      == LineCount(s, cart, product) - (if IsLine(s[i], cart, product) then 1 else 0)
    ensures LinesIn(RemoveAt(s, i), cart) == LinesIn(s, cart) - (if s[i].cart == cart then 1 else 0)
  {
    SplitAround(s, i, products, cart, product);
    Split(s[..i], s[i + 1..], products, cart, product);
    Single(s[i], products, cart, product);
  }

  /** Deleting the rows of one cart empties that cart and leaves every other cart as it was. */
  lemma {:induction false} Clear(s: seq<CartItem>, cart: nat, products: seq<Product>, other: nat, product: nat)
    ensures LinesIn(WithoutCart(s, cart), cart) == 0
    ensures CartLines(WithoutCart(s, cart), products, cart) == []
    ensures QuantityOf(WithoutCart(s, cart), other, product) == if other == cart then 0 else QuantityOf(s, other, product)
    ensures other != cart ==> LinesIn(WithoutCart(s, cart), other) == LinesIn(s, other)
    ensures other != cart ==> CartLines(WithoutCart(s, cart), products, other) == CartLines(s, products, other)
  {
    if s != [] {
      Clear(s[1..], cart, products, other, product);
      var head := if s[0].cart == cart then [] else [s[0]];
      Split(head, WithoutCart(s[1..], cart), products, cart, product);
      Split(head, WithoutCart(s[1..], cart), products, other, product);
      if head != [] {
        Single(s[0], products, cart, product);
        Single(s[0], products, other, product);
      } else {
        assert head + WithoutCart(s[1..], cart) == WithoutCart(s[1..], cart);
      }
    }
  }

  // ----- The same effects, for every other (cart, product) pair at once -----

  /** The readings of `after` and `before` agree on every pair other than `x`'s. */
  ghost predicate OthersUnchanged(before: seq<CartItem>, after: seq<CartItem>, x: CartItem)
  {
    forall c, p :: !IsLine(x, c, p) ==>
      QuantityOf(after, c, p) == QuantityOf(before, c, p) && LineCount(after, c, p) == LineCount(before, c, p)
  }

  lemma AppendOthers(s: seq<CartItem>, x: CartItem)
    ensures OthersUnchanged(s, s + [x], x)
  {
    forall c, p | !IsLine(x, c, p)
      ensures QuantityOf(s + [x], c, p) == QuantityOf(s, c, p) && LineCount(s + [x], c, p) == LineCount(s, c, p)
    {
      Append(s, x, [], c, p);
    }
  }

  lemma UpdateOthers(s: seq<CartItem>, i: nat, q: int)
    requires i < |s|
    ensures OthersUnchanged(s, s[i := s[i].(quantity := q)], s[i])
  {
    forall c, p | !IsLine(s[i], c, p)
      ensures QuantityOf(s[i := s[i].(quantity := q)], c, p) == QuantityOf(s, c, p)
      ensures LineCount(s[i := s[i].(quantity := q)], c, p) == LineCount(s, c, p)
    {
      Update(s, i, q, [], c, p);
    }
  }

  lemma RemoveOthers(s: seq<CartItem>, i: nat)
    requires i < |s|
    ensures OthersUnchanged(s, RemoveAt(s, i), s[i])
  {
    forall c, p | !IsLine(s[i], c, p)
      ensures QuantityOf(RemoveAt(s, i), c, p) == QuantityOf(s, c, p)
      ensures LineCount(RemoveAt(s, i), c, p) == LineCount(s, c, p)
    {
      Remove(s, i, [], c, p);
    }
  }

  /** `after` is `before` without the lines of cart `c`: that cart is empty, every other cart is untouched. */
  ghost predicate ClearedOnly(before: seq<CartItem>, after: seq<CartItem>, products: seq<Product>, c: nat)
  {
    && after == WithoutCart(before, c)
    && LinesIn(after, c) == 0 && CartLines(after, products, c) == []
    && (forall p :: QuantityOf(after, c, p) == 0)
    && (forall c', p :: c' != c ==> QuantityOf(after, c', p) == QuantityOf(before, c', p))
    && (forall c' :: c' != c ==> CartLines(after, products, c') == CartLines(before, products, c'))
    && (forall c' :: c' != c ==> LinesIn(after, c') == LinesIn(before, c'))
  }

  lemma ClearEffects(s: seq<CartItem>, products: seq<Product>, c: nat)
    ensures ClearedOnly(s, WithoutCart(s, c), products, c)
  {
    Clear(s, c, products, c, 0);
    forall c', p
      ensures QuantityOf(WithoutCart(s, c), c', p) == (if c' == c then 0 else QuantityOf(s, c', p))
    {
      Clear(s, c, products, c', p);
    }
    forall c' | c' != c
      ensures CartLines(WithoutCart(s, c), products, c') == CartLines(s, products, c')
      ensures LinesIn(WithoutCart(s, c), c') == LinesIn(s, c')
    {
      Clear(s, c, products, c', 0);
    }
  }

  // ----- The constraints survive every change -----

  lemma AppendWellFormed(s: seq<CartItem>, n: nat, x: CartItem)
    requires WellFormed(s, n) && x.id == n && x.quantity >= 1
    requires FindLine(s, x.cart, x.product).None?
    ensures WellFormed(s + [x], n + 1)
  {
  }

  lemma UpdateWellFormed(s: seq<CartItem>, n: nat, i: nat, q: int)
    requires WellFormed(s, n) && i < |s| && q >= 1
    ensures WellFormed(s[i := s[i].(quantity := q)], n)
  {
  }

  lemma RemoveWellFormed(s: seq<CartItem>, n: nat, i: nat)
    requires WellFormed(s, n) && i < |s|
    ensures WellFormed(RemoveAt(s, i), n)
    ensures forall x :: x in RemoveAt(s, i) ==> x in s
  {
    var r := RemoveAt(s, i);
    assert forall j :: 0 <= j < |r| ==> r[j] == if j < i then s[j] else s[j + 1];
  }

  /** A row distinct in key and in pair from every row of a well-formed table can stand before it. */
  lemma PrependWellFormed(x: CartItem, t: seq<CartItem>, n: nat)
    requires WellFormed(t, n) && x.quantity >= 1 && x.id < n
    requires forall y :: y in t ==> y.id != x.id && !IsLine(y, x.cart, x.product)
    ensures WellFormed([x] + t, n)
  {
    var r := [x] + t;
    assert forall j :: 0 < j < |r| ==> r[j] == t[j - 1];
    forall i, j | 0 <= i < j < |r|
      ensures r[i].id != r[j].id && !IsLine(r[j], r[i].cart, r[i].product)
    {
      assert r[j] in t;
    }
  }

  lemma TailWellFormed(s: seq<CartItem>, n: nat)
    requires WellFormed(s, n) && s != []
    ensures WellFormed(s[1..], n)
    ensures forall y :: y in s[1..] ==> y.id != s[0].id && !IsLine(y, s[0].cart, s[0].product)
  {
    var t := s[1..];
    assert forall j :: 0 <= j < |t| ==> t[j] == s[j + 1];
  }

  lemma {:induction false} WithoutCartWellFormed(s: seq<CartItem>, n: nat, cart: nat)
    requires WellFormed(s, n)
    ensures WellFormed(WithoutCart(s, cart), n)
  {
    if s != [] {
      TailWellFormed(s, n);
      WithoutCartWellFormed(s[1..], n, cart);
      if s[0].cart != cart {
        PrependWellFormed(s[0], WithoutCart(s[1..], cart), n);
      }
    }
  }

  /** Every row of a cart, priced against a valid catalog, is a valid line. */
  lemma {:induction false} CartLinesValid(s: seq<CartItem>, n: nat, products: seq<Product>, cart: nat)
    requires WellFormed(s, n)
    requires forall p :: p in products ==> ValidProduct(p)
    requires forall i :: 0 <= i < |s| ==> FindProduct(products, s[i].product).Some?
    ensures AllValid(CartLines(s, products, cart))
  {
    if s != [] {
      CartLinesValid(s[1..], n, products, cart);
      var head := if s[0].cart == cart then [Priced(products, s[0])] else [];
      var rest := CartLines(s[1..], products, cart);
      assert CartLines(s, products, cart) == head + rest;
      assert AllValid(head);
    }
  }
}
