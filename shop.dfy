/**
 * The in-memory state machine of the e-commerce console: the user table, the
 * product catalogue, the per-user carts, the current session and the
 * product-id counter, with one method per menu action. Console reads become
 * parameters and console messages become the methods' results.
 */
module Shop {
  import opened Records

  /** What a checkout attempt ends in. */
  datatype CheckoutOutcome =
    | EmptyCart
    | InsufficientCash(total: real)
    | Cancelled(total: real)
    | Purchased(total: real)

  class ECommerceApp {
    var users: map<string, User>
    var products: map<int, Product>
    var carts: map<string, seq<CartEntry>>
    var loggedInUser: Option<string>
    var productIdCounter: int
    /** Every product id that was loaded or assigned while the program runs. */
    ghost var issued: set<int>

    /**
     * The consistency of the tables:
     *  - each user is stored under its own name and each product under its own id;
     *  - every id ever issued, stored or in a cart, is below the counter;
     *  - the session names a stored user;
     *  - a cart line whose product is still in the catalogue shows that
     *    product's name and price (cart lines share the catalogue's records).
     */
    ghost predicate Valid()
      reads this
    {
      && (forall name :: name in users ==> users[name].username == name)
      && (forall id :: id in products ==> products[id].id == id)
      && products.Keys <= issued
      && (forall id :: id in issued ==> id < productIdCounter)
      && (loggedInUser.Some? ==> loggedInUser.value in users)
      && (forall name, i :: name in carts && 0 <= i < |carts[name]| ==>
            && carts[name][i].id in issued
            && (carts[name][i].id in products ==>
                  carts[name][i] == EntryOf(products[carts[name][i].id])))
    }

    /** The state before anything is loaded: empty tables, nobody logged in, counter 1. */
    constructor ()
      ensures Valid()
      ensures users == map[] && products == map[] && carts == map[]
      ensures loggedInUser == None && productIdCounter == 1
    {
      users := map[];
      products := map[];
      carts := map[];
      loggedInUser := None;
      productIdCounter := 1;
      issued := {};
    }

    /**
     * Startup loading. `None` stands for a table whose file could not be
     * read: that table keeps its current value. A loaded catalogue resets the
     * counter to one past its largest id.
     */
    method LoadData(storedUsers: Option<map<string, User>>, storedProducts: Option<map<int, Product>>)
      requires Valid()
      requires loggedInUser == None && carts == map[]
      requires storedUsers.Some? ==>
        forall name :: name in storedUsers.value ==> storedUsers.value[name].username == name
      requires storedProducts.Some? ==>
        forall id :: id in storedProducts.value ==> storedProducts.value[id].id == id
      modifies this
      ensures Valid()
      ensures users == (if storedUsers.Some? then storedUsers.value else old(users))
      ensures products == (if storedProducts.Some? then storedProducts.value else old(products))
      ensures productIdCounter ==
        (if storedProducts.Some? then NextProductId(storedProducts.value.Keys) else old(productIdCounter))
      ensures forall id :: id in products ==> id < productIdCounter
      ensures issued == (if storedProducts.Some? then storedProducts.value.Keys else old(issued))
      ensures carts == old(carts) && loggedInUser == old(loggedInUser)
    {
      if storedUsers.Some? {
        users := storedUsers.value;
      }
      if storedProducts.Some? {
        products := storedProducts.value;
        productIdCounter := NextProductId(products.Keys);
        issued := products.Keys;
      }
    }

    /** Logs in when the name is stored with exactly that password; otherwise nothing changes. */
    method Login(username: string, password: string) returns (ok: bool)
      requires Valid()
      modifies this
      ensures Valid()
      ensures ok <==> username in users && users[username].password == password
      ensures loggedInUser == (if ok then Some(username) else old(loggedInUser))
      ensures users == old(users) && products == old(products) && carts == old(carts)
      ensures productIdCounter == old(productIdCounter) && issued == old(issued)
    {
      ok := username in users && users[username].password == password;
      if ok {
        loggedInUser := Some(username);
      }
    }

    /** Ends the session (both menus' logout entries). */
    method Logout()
      requires Valid()
      modifies this
      ensures Valid()
      ensures loggedInUser == None
      ensures users == old(users) && products == old(products) && carts == old(carts)
      ensures productIdCounter == old(productIdCounter) && issued == old(issued)
    {
      loggedInUser := None;
    }

    /**
     * Adds a new account unless the name is taken. An admin's cash is stored
     * as 0 whatever `cash` is; the amount is not checked for sign.
     */
    method Register(username: string, password: string, isAdmin: bool, cash: real) returns (ok: bool)
      requires Valid()
      modifies this
      ensures Valid()
      ensures ok <==> username !in old(users)
      ensures !ok ==> users == old(users)
      ensures ok ==> users == old(users)[username := User(username, password, isAdmin, if isAdmin then 0.0 else cash)]
      ensures ok ==> |users| == |old(users)| + 1
      ensures products == old(products) && carts == old(carts) && loggedInUser == old(loggedInUser)
      ensures productIdCounter == old(productIdCounter) && issued == old(issued)
    {
      var initialCash := 0.0;
      if !isAdmin {
        initialCash := cash;
      }
      if username in users {
        ok := false;
      } else {
        users := users[username := User(username, password, isAdmin, initialCash)];
        ok := true;
      }
    }

    /**
     * Appends the product to the end of the current user's cart when it is in
     * the catalogue with positive stock; stock is not reserved.
     */
    method AddToCart(productId: int) returns (ok: bool)
      requires Valid() && loggedInUser.Some?
      modifies this
      ensures Valid()
      ensures ok <==> productId in products && products[productId].stock > 0
      ensures !ok ==> carts == old(carts)
      ensures ok ==> carts == old(carts)[old(loggedInUser).value :=
                                CartOf(old(carts), old(loggedInUser).value) + [EntryOf(products[productId])]]
      ensures ok ==> Total(carts[old(loggedInUser).value]) ==
                     Total(CartOf(old(carts), old(loggedInUser).value)) + products[productId].price
      ensures users == old(users) && products == old(products) && loggedInUser == old(loggedInUser)
      ensures productIdCounter == old(productIdCounter) && issued == old(issued)
    {
      ok := productId in products && products[productId].stock > 0;
      if ok {
        var name := loggedInUser.value;
        var cart := CartOf(carts, name);
        carts := carts[name := cart + [EntryOf(products[productId])]];
        TotalSnoc(cart, EntryOf(products[productId]));
      }
    }

    /**
     * The current user's cart, empty when there is none. Every line shows
     * an issued id, and a line whose product is still listed shows that
     * product's current name and price.
     */
    method ViewCart() returns (entries: seq<CartEntry>)
      requires Valid() && loggedInUser.Some?
      ensures entries == CartOf(carts, loggedInUser.value)
      ensures forall i :: 0 <= i < |entries| ==> entries[i].id < productIdCounter
      ensures forall i :: 0 <= i < |entries| && entries[i].id in products ==>
                entries[i].name == products[entries[i].id].name &&
                entries[i].price == products[entries[i].id].price
    {
      entries := CartOf(carts, loggedInUser.value);
    }

    /**
     * Buys the current user's cart. Rejected, with nothing changed, when the
     * cart is absent or empty, when the cash is below the total, or when the
     * purchase is not confirmed. On success the cash drops by the total, the
     * cart is removed, and every listed product loses one unit of stock per
     * cart line that refers to it. Stock is not checked, so it may become
     * negative.
     */
    method Checkout(confirm: bool) returns (outcome: CheckoutOutcome)
      requires Valid() && loggedInUser.Some?
      modifies this
      ensures Valid()
      ensures var name := old(loggedInUser).value;
              var cart := CartOf(old(carts), name);
              outcome ==
                if cart == [] then EmptyCart
                else if old(users)[name].cash < Total(cart) then InsufficientCash(Total(cart))
                else if !confirm then Cancelled(Total(cart))
                else Purchased(Total(cart))
      ensures !outcome.Purchased? ==>
                users == old(users) && products == old(products) && carts == old(carts)
      ensures outcome.Purchased? ==>
                var name := old(loggedInUser).value;
                var cart := old(carts)[name];
                && users == old(users)[name := old(users)[name].(cash := old(users)[name].cash - Total(cart))]
                && users[name].cash >= 0.0
                && carts == old(carts) - {name}
                && products.Keys == old(products).Keys
                && (forall id :: id in products ==>
                      products[id] == old(products)[id].(stock := old(products)[id].stock - Occurrences(cart, id)))
      ensures loggedInUser == old(loggedInUser)
      ensures productIdCounter == old(productIdCounter) && issued == old(issued)
    {
      var name := loggedInUser.value;
      if name !in carts || carts[name] == [] {
        return EmptyCart;
      }
      var cart := carts[name];
      var total := Total(cart);
      if users[name].cash < total {
        return InsufficientCash(total);
      }
      if !confirm {
        return Cancelled(total);
      }
      DecrementStock(cart);
      carts := carts - {name};
      users := users[name := users[name].(cash := users[name].cash - total)];
      outcome := Purchased(total);
    }

    /**
     * The checkout loop: one unit of stock off the listed product of each
     * cart line, in cart order. A line whose product was delisted changes
     * nothing in the catalogue.
     */
    method DecrementStock(cart: seq<CartEntry>)
      modifies this`products
      ensures products.Keys == old(products).Keys
      ensures forall id :: id in products ==>
                products[id] == old(products)[id].(stock := old(products)[id].stock - Occurrences(cart, id))
    {
      var i := 0;
      while i < |cart|
        invariant 0 <= i <= |cart|
        invariant products.Keys == old(products).Keys
        invariant forall id :: id in products ==>
                    products[id] == old(products)[id].(stock := old(products)[id].stock - Occurrences(cart[..i], id))
      {
        var e := cart[i];
        assert cart[..i + 1] == cart[..i] + [e];
        forall id | id in products
          ensures Occurrences(cart[..i + 1], id) == Occurrences(cart[..i], id) + (if e.id == id then 1 else 0)
        {
          OccurrencesSnoc(cart[..i], e, id);
        }
        if e.id in products {
          products := products[e.id := products[e.id].(stock := products[e.id].stock - 1)];
        }
        i := i + 1;
      }
      assert cart[..i] == cart;
    }

    /** Adds `amount` to the current user's cash when it is positive. */
    method DepositCash(amount: real) returns (ok: bool)
      requires Valid() && loggedInUser.Some?
      modifies this
      ensures Valid()
      ensures ok <==> amount > 0.0
      ensures var name := old(loggedInUser).value;
              users == if ok then old(users)[name := old(users)[name].(cash := old(users)[name].cash + amount)]
                       else old(users)
      ensures ok ==> users[old(loggedInUser).value].cash > old(users)[old(loggedInUser).value].cash
      ensures products == old(products) && carts == old(carts) && loggedInUser == old(loggedInUser)
      ensures productIdCounter == old(productIdCounter) && issued == old(issued)
    {
      var name := loggedInUser.value;
      ok := amount > 0.0;
      if ok {
        users := users[name := users[name].(cash := users[name].cash + amount)];
      }
    }

    /**
     * Takes `amount` from the current user's cash when it is positive and not
     * above the balance; a withdrawal therefore never leaves the cash negative.
     */
    method WithdrawCash(amount: real) returns (ok: bool)
      requires Valid() && loggedInUser.Some?
      modifies this
      ensures Valid()
      ensures ok <==> 0.0 < amount <= old(users)[old(loggedInUser).value].cash
      ensures var name := old(loggedInUser).value;
              users == if ok then old(users)[name := old(users)[name].(cash := old(users)[name].cash - amount)]
                       else old(users)
      ensures ok ==> 0.0 <= users[old(loggedInUser).value].cash < old(users)[old(loggedInUser).value].cash
      ensures products == old(products) && carts == old(carts) && loggedInUser == old(loggedInUser)
      ensures productIdCounter == old(productIdCounter) && issued == old(issued)
    {
      var name := loggedInUser.value;
      ok := 0.0 < amount <= users[name].cash;
      if ok {
        users := users[name := users[name].(cash := users[name].cash - amount)];
      }
    }

    /**
     * Lists a new product under the counter's value and advances the counter.
     * The id is fresh: it was never issued before in this run, so it neither
     * collides with a listed product nor revives a removed one. Price and
     * stock are not checked.
     */
    method AddProduct(name: string, price: real, stock: int) returns (id: int)
      requires Valid()
      modifies this
      ensures Valid()
      ensures id == old(productIdCounter) && productIdCounter == id + 1
      ensures id !in old(issued) && id !in old(products)
      ensures products == old(products)[id := Product(id, name, price, stock)]
      ensures issued == old(issued) + {id}
      ensures users == old(users) && carts == old(carts) && loggedInUser == old(loggedInUser)
    {
      id := productIdCounter;
      productIdCounter := productIdCounter + 1;
      products := products[id := Product(id, name, price, stock)];
      issued := issued + {id};
    }

    /** Delists a product, reporting whether it was listed; carts keep their lines. */
    method RemoveProduct(productId: int) returns (removed: bool)
      requires Valid()
      modifies this
      ensures Valid()
      ensures removed <==> productId in old(products)
      ensures products == old(products) - {productId}
      ensures forall id :: id in old(products) && id != productId ==> id in products && products[id] == old(products)[id]
      ensures users == old(users) && carts == old(carts) && loggedInUser == old(loggedInUser)
      ensures productIdCounter == old(productIdCounter) && issued == old(issued)
    {
      removed := productId in products;
      products := products - {productId};
    }

    /** Overwrites a listed product's stock with `newStock` (not added, not checked for sign). */
    method ManageStock(productId: int, newStock: int) returns (found: bool)
      requires Valid()
      modifies this
      ensures Valid()
      ensures found <==> productId in old(products)
      ensures products == SetStock(old(products), productId, newStock)
      ensures found ==> products[productId].stock == newStock
      ensures users == old(users) && carts == old(carts) && loggedInUser == old(loggedInUser)
      ensures productIdCounter == old(productIdCounter) && issued == old(issued)
    {
      found := productId in products;
      if found {
        products := products[productId := products[productId].(stock := newStock)];
      }
    }
  }
}
