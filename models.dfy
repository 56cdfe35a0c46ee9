/**
 * The entities of the storefront and the arithmetic that the model layer derives
 * from them: a product's availability, a line's total price, a cart's item count,
 * subtotal, tax and total, an order's status codes and its order number.
 */
module Models {
  import opened Wrappers

  /** An exact decimal amount of money, counted in thousandths of a currency unit. */
  type Money = int

  /** One cent, the granularity of a stored price (two decimal places). */
  const Cent: Money := 10
  /** The least price a product may have: 0.01. */
  const MinPrice: Money := 10
  /** The largest price ten digits with two decimals can hold: 99999999.99. */
  const MaxPrice: Money := 99_999_999_990

  /**
   * A product row. `category` is the category the catalog listing filters on; the
   * product table as written declares no such column (see the README's findings).
   */
  datatype Product = Product(
    id: nat,
    name: string,
    description: string,
    price: Money,
    stock: int,
    category: Option<nat>,
    isActive: bool,
    createdAt: int)

  /** The price validator: at least 0.01, two decimal places, ten digits. */
  predicate ValidPrice(price: Money): (r: bool)
    ensures r <==> price % Cent == 0 && 1 <= price / Cent <= 9_999_999_999
  {
    MinPrice <= price <= MaxPrice && price % Cent == 0
  }

  /** The declared validators of a product: a valid price and a stock that is never negative. */
  predicate ValidProduct(p: Product): (r: bool)
    ensures r ==> p.price > 0 && p.price % Cent == 0 && p.stock >= 0
  {
    ValidPrice(p.price) && p.stock >= 0
  }

  /** `get_object_or_404(Product, pk=id)`: the product with that key, if there is one. */
  function FindProduct(table: seq<Product>, id: nat): (r: Option<Product>)
    ensures r.Some? ==> r.value in table && r.value.id == id
    ensures r.None? ==> forall i :: 0 <= i < |table| ==> table[i].id != id
  {
    if table == [] then None
    else if table[0].id == id then Some(table[0])
    else FindProduct(table[1..], id)
  }

  /** Whether a product is available. */
  function InStock(p: Product): (r: bool)
    ensures r <==> p.stock >= 1
    ensures ValidProduct(p) && !r ==> p.stock == 0
  {
    p.stock > 0
  }

  /** The total price of `quantity` units at `price`. */
  function LineTotal(price: Money, quantity: int): (r: Money)
    ensures ValidPrice(price) && quantity >= 1 ==> r >= price && r % Cent == 0
    ensures quantity == 0 ==> r == 0
  {
    if ValidPrice(price) && quantity >= 1 then
      assert price * quantity == price + price * (quantity - 1);
      assert price * quantity == Cent * ((price / Cent) * quantity);
      price * quantity
    else
      price * quantity
  }

  /** One more unit adds exactly one price to a line's total. */
  lemma LineTotalStep(price: Money, quantity: int)
    ensures LineTotal(price, quantity + 1) == LineTotal(price, quantity) + price
  {
    assert price * (quantity + 1) == price * quantity + price;
  }

  /** A cart line as the totals see it: the current price of its product and its quantity. */
  datatype PricedLine = PricedLine(price: Money, quantity: int)

  /** A line whose price passed the price validator and whose quantity the quantity validator accepts. */
  predicate ValidLine(l: PricedLine)
  {
    ValidPrice(l.price) && l.quantity >= 1
  }

  predicate AllValid(lines: seq<PricedLine>)
  {
    forall i :: 0 <= i < |lines| ==> ValidLine(lines[i])
  }

  /** The number of units in a cart: the sum of its lines' quantities. */
  function TotalItems(lines: seq<PricedLine>): (n: int)
    ensures AllValid(lines) ==> n >= |lines|
  {
    if lines == [] then 0 else lines[0].quantity + TotalItems(lines[1..])
  }

  /** The cart subtotal: the sum of its lines' total prices. */
  function Subtotal(lines: seq<PricedLine>): (r: Money)
    ensures lines == [] ==> r == 0
    ensures AllValid(lines) ==> r % Cent == 0 && r >= MinPrice * |lines|
    ensures AllValid(lines) ==> (r > 0 <==> lines != [])
  {
    if lines == [] then 0
    else
      var head := LineTotal(lines[0].price, lines[0].quantity);
      var rest := Subtotal(lines[1..]);
      assert AllValid(lines) ==> AllValid(lines[1..]) && ValidLine(lines[0]);
      assert AllValid(lines) ==> head % Cent == 0 && rest % Cent == 0;
      assert AllValid(lines) ==> (head + rest) % Cent == 0 by {
        if AllValid(lines) {
          var h, t := head / Cent, rest / Cent;
          assert head == Cent * h && rest == Cent * t;
          assert head + rest == Cent * (h + t);
        }
      }
      head + rest
  }

  /** The tax rate is 10%; on a whole number of cents the tax is exact. */
  function Tax(subtotal: Money): (r: Money)
    ensures subtotal % Cent == 0 ==> 10 * r == subtotal
    ensures subtotal >= 0 ==> 0 <= r <= subtotal
  {
    subtotal / 10
  }

  /** The cart total of the model layer: subtotal plus tax, no shipping. */
  function CartTotal(lines: seq<PricedLine>): (r: Money)
    ensures AllValid(lines) ==> 10 * r == 11 * Subtotal(lines)
    ensures AllValid(lines) ==> (r == 0 <==> lines == [])
  {
    Subtotal(lines) + Tax(Subtotal(lines))
  }

  lemma {:induction false} SubtotalAppend(a: seq<PricedLine>, b: seq<PricedLine>)
    ensures Subtotal(a + b) == Subtotal(a) + Subtotal(b)
  {
    if a != [] {
      assert (a + b)[1..] == a[1..] + b;
      SubtotalAppend(a[1..], b);
    } else {
      assert a + b == b;
    }
  }

  lemma {:induction false} TotalItemsAppend(a: seq<PricedLine>, b: seq<PricedLine>)
    ensures TotalItems(a + b) == TotalItems(a) + TotalItems(b)
  {
    if a != [] {
      assert (a + b)[1..] == a[1..] + b;
      TotalItemsAppend(a[1..], b);
    } else {
      assert a + b == b;
    }
  }

  /**
   * The cart of two units at 10.00 and one at 5.00 has subtotal 25.00, tax 2.50
   * and total 27.50.
   */
  lemma TwoLineCartTotals()
    ensures var lines := [PricedLine(10_000, 2), PricedLine(5_000, 1)];
      Subtotal(lines) == 25_000 && Tax(Subtotal(lines)) == 2_500 && CartTotal(lines) == 27_500
      && TotalItems(lines) == 3
  {
    var lines := [PricedLine(10_000, 2), PricedLine(5_000, 1)];
    assert lines[1..] == [PricedLine(5_000, 1)];
    assert lines[1..][1..] == [];
  }

  // ----- Orders -----

  /** The five order states; a new order is pending. */
  datatype Status = Pending | Processing | Shipped | Delivered | Cancelled

  /** The value stored in the status column for each state. */
  function StatusCode(s: Status): (code: string)
    ensures 0 < |code| <= 20
  {
    match s
    case Pending => "pending"
    case Processing => "processing"
    case Shipped => "shipped"
    case Delivered => "delivered"
    case Cancelled => "cancelled"
  }

  /** The state a stored status value stands for, when it is one of the five choices. */
  function StatusFromCode(code: string): (r: Option<Status>)
    ensures r.Some? ==> StatusCode(r.value) == code
  {
    if code == "pending" then Some(Pending)
    else if code == "processing" then Some(Processing)
    else if code == "shipped" then Some(Shipped)
    else if code == "delivered" then Some(Delivered)
    else if code == "cancelled" then Some(Cancelled)
    else None
  }

  lemma StatusCodeRoundTrip(s: Status)
    ensures StatusFromCode(StatusCode(s)) == Some(s)
  {
    match s
    case Pending =>
    case Processing =>
    case Shipped =>
    case Delivered =>
    case Cancelled =>
  }

  predicate UpperOrDigit(c: char)
  {
    'A' <= c <= 'Z' || '0' <= c <= '9'
  }

  /** An order number as `Order.save` draws it: ten upper-case letters or digits. */
  predicate ValidOrderNumber(s: string)
  {
    |s| == 10 && forall i :: 0 <= i < |s| ==> UpperOrDigit(s[i])
  }

  /** An order: its owner, number, status and the totals frozen at checkout. */
  class Order {
    const user: nat
    var orderNumber: string
    var status: Status
    const subtotal: Money
    const tax: Money
    const total: Money

    /** A new, unsaved order: no number yet, status pending. */
    constructor (user: nat, subtotal: Money, tax: Money, total: Money)
      ensures this.user == user && orderNumber == "" && status == Pending
      ensures this.subtotal == subtotal && this.tax == tax && this.total == total
    {
      this.user := user;
      orderNumber := "";
      status := Pending;
      this.subtotal := subtotal;
      this.tax := tax;
      this.total := total;
    }

    /**
     * Saving draws an order number only when the order has none; the draw is any
     * valid number. An order that already has a number keeps it.
     */
    method Save()
      modifies this`orderNumber
      ensures old(orderNumber) == "" ==> ValidOrderNumber(orderNumber)
      ensures old(orderNumber) != "" ==> orderNumber == old(orderNumber)
    {
      if orderNumber == "" {
        assert ValidOrderNumber("AAAAAAAAAA");
        var drawn :| ValidOrderNumber(drawn);
        orderNumber := drawn;
      }
    }
  }

  /** An order line: a snapshot of the product's name and price, and a quantity. */
  datatype OrderItem = OrderItem(productId: nat, productName: string, productPrice: Money, quantity: int)

  /**
   * The total price of an order line. It reads only the snapshot, so a later
   * change to the product's price does not change it.
   */
  function OrderItemTotal(item: OrderItem): (r: Money)
    ensures r == LineTotal(item.productPrice, item.quantity)
    ensures ValidPrice(item.productPrice) && item.quantity >= 1 ==> r >= item.productPrice && r % Cent == 0
  {
    item.productPrice * item.quantity
  }
}
