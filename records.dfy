/**
 * The records of the shop (users, products, cart lines) and the pure
 * computations over them: the cart total, how often a product occurs in a
 * cart, and the product-id counter recomputed after the catalogue is loaded.
 *
 * Money (cash, prices) is a `real`: the model uses exact arithmetic where the
 * program uses IEEE doubles. Integers are unbounded.
 */
module Records {

  datatype Option<T> = None | Some(value: T)

  /** An account. `cash` is kept for admins too; registration stores 0 there. */
  datatype User = User(username: string, password: string, isAdmin: bool, cash: real)

  /** A catalogue entry. Only `stock` ever changes after creation. */
  datatype Product = Product(id: int, name: string, price: real, stock: int)

  /**
   * One line of a cart: the product as it was when it was added. Since a
   * product's id, name and price never change and ids are never reused while
   * the program runs, this snapshot shows exactly what the program's shared
   * product reference would show.
   */
  datatype CartEntry = CartEntry(id: int, name: string, price: real)

  /** The cart line for a product as it is listed now. */
  function EntryOf(p: Product): CartEntry
  {
    CartEntry(p.id, p.name, p.price)
  }

  /** The cart stored under `name`, or the empty cart when there is none. */
  function CartOf(carts: map<string, seq<CartEntry>>, name: string): seq<CartEntry>
  {
    if name in carts then carts[name] else []
  }

  // ---------------------------------------------------------------------------
  // Cart total (the sum of the entries' prices)

  function Total(cart: seq<CartEntry>): real
  {
    if cart == [] then 0.0 else cart[0].price + Total(cart[1..])
  }

  /** The total of a concatenation is the sum of the totals. */
  lemma {:induction false} TotalAppend(a: seq<CartEntry>, b: seq<CartEntry>)
    ensures Total(a + b) == Total(a) + Total(b)
  {
    if a == [] {
      assert a + b == b;
    } else {
      assert (a + b)[1..] == a[1..] + b;
      TotalAppend(a[1..], b);
    }
  }

  /** Adding one line to a cart raises its total by exactly that line's price. */
  lemma TotalSnoc(cart: seq<CartEntry>, e: CartEntry)
    ensures Total(cart + [e]) == Total(cart) + e.price
  {
    TotalAppend(cart, [e]);
    assert Total([e]) == e.price + Total([e][1..]);
    assert [e][1..] == [];
  }

  // ---------------------------------------------------------------------------
  // How many lines of a cart refer to a product

  function Occurrences(cart: seq<CartEntry>, id: int): (n: nat)
    ensures n <= |cart|
    ensures n == 0 <==> forall i :: 0 <= i < |cart| ==> cart[i].id != id
    ensures n == |cart| <==> forall i :: 0 <= i < |cart| ==> cart[i].id == id
  {
    if cart == [] then 0
    else
      assert forall i :: 0 < i < |cart| ==> cart[i] == cart[1..][i - 1];
      (if cart[0].id == id then 1 else 0) + Occurrences(cart[1..], id)
  }

  /** Appending a line adds one occurrence of its own product and none of any other. */
  lemma {:induction false} OccurrencesSnoc(cart: seq<CartEntry>, e: CartEntry, id: int)
    ensures Occurrences(cart + [e], id) == Occurrences(cart, id) + (if e.id == id then 1 else 0)
  {
    if cart != [] {
      assert (cart + [e])[1..] == cart[1..] + [e];
      OccurrencesSnoc(cart[1..], e, id);
    }
  }

  // ---------------------------------------------------------------------------
  // The product-id counter after loading the catalogue

  /** Every finite non-empty set of integers has a largest element. */
  lemma {:induction false} MaxExists(s: set<int>)
    requires s != {}
    ensures exists m :: m in s && forall k :: k in s ==> k <= m
  {
    if forall y :: y !in s {
      assert false;
    }
    var x :| x in s;
    if !(forall k :: k in s ==> k <= x) {
      var y :| y in s && y > x;
      var rest := s - {x};
      assert y in rest;
      MaxExists(rest);
      var m :| m in rest && forall k :: k in rest ==> k <= m;
      assert x < y <= m;
      assert forall k :: k in s ==> k == x || k in rest;
      assert m in s && forall k :: k in s ==> k <= m;
    }
  }

  /** The largest key of a non-empty key set. */
  function MaxKey(keys: set<int>): (m: int)
    requires keys != {}
    ensures m in keys
    ensures forall k :: k in keys ==> k <= m
  {
    MaxExists(keys);
    var m :| m in keys && forall k :: k in keys ==> k <= m;
    m
  }

  /**
   * The counter value after the catalogue is loaded: one past the largest
   * stored id, or 1 when the catalogue is empty. Being above every stored id
   * while one below it is stored, it is the least value above all of them.
   */
  function NextProductId(keys: set<int>): (c: int)
    ensures forall k :: k in keys ==> k < c
    ensures keys == {} ==> c == 1
    ensures keys != {} ==> c - 1 in keys
  {
    if keys == {} then 1 else MaxKey(keys) + 1
  }

  // ---------------------------------------------------------------------------
  // Setting a product's stock

  /** The catalogue with the stock of `id` set to `n`; unchanged when `id` is unknown. */
  function SetStock(products: map<int, Product>, id: int, n: int): (r: map<int, Product>)
    ensures r.Keys == products.Keys
    ensures id in products ==> r[id].stock == n
  {
    if id in products then products[id := products[id].(stock := n)] else products
  }

  /** Setting the same stock twice is the same as setting it once. */
  lemma SetStockIdempotent(products: map<int, Product>, id: int, n: int)
    ensures SetStock(SetStock(products, id, n), id, n) == SetStock(products, id, n)
  {
  }

  /** Setting one product's stock leaves every other product, and that product's other fields, alone. */
  lemma SetStockFrame(products: map<int, Product>, id: int, n: int, k: int)
    requires k in products
    ensures SetStock(products, id, n)[k].id == products[k].id
    ensures SetStock(products, id, n)[k].name == products[k].name
    ensures SetStock(products, id, n)[k].price == products[k].price
    ensures k != id ==> SetStock(products, id, n)[k] == products[k]
  {
  }
}
