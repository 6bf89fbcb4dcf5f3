/**
 * Client runs of the shop, checked from the methods' contracts alone: each
 * method below drives one sequence of menu actions and asserts what the
 * program's user would see afterwards.
 */
module Scenarios {
  import opened Records
  import opened Shop

  /** A customer with 100 puts three units of a 10-priced product with stock 5 in the cart. */
  method FillCartWithThreeWidgets() returns (app: ECommerceApp)
    ensures fresh(app) && app.Valid()
    ensures app.loggedInUser == Some("alice") && "alice" in app.users && app.users["alice"].cash == 100.0
    ensures 1 in app.products && app.products[1].stock == 5
    ensures var widget := EntryOf(Product(1, "Widget", 10.0, 5));
            "alice" in app.carts && app.carts["alice"] == [widget, widget, widget]
  {
    app := new ECommerceApp();
    var ok := app.Register("alice", "secret", false, 100.0);
    assert ok;
    var id := app.AddProduct("Widget", 10.0, 5);
    assert id == 1;
    ok := app.Login("alice", "secret");
    assert ok;
    var widget := EntryOf(Product(1, "Widget", 10.0, 5));
    ok := app.AddToCart(1);
    assert app.carts["alice"] == [widget];
    ok := app.AddToCart(1);
    assert app.carts["alice"] == [widget, widget];
    ok := app.AddToCart(1);
    assert app.carts["alice"] == [widget, widget, widget];
  }

  /** Buying those three units leaves 70 in cash, 2 in stock and no cart. */
  method PurchaseThreeWidgets() {
    var app := FillCartWithThreeWidgets();
    var widget := EntryOf(Product(1, "Widget", 10.0, 5));
    assert [widget][1..] == [] && Total([widget]) == 10.0;
    assert [widget, widget][1..] == [widget] && Total([widget, widget]) == 20.0;
    assert [widget, widget, widget][1..] == [widget, widget] && Total([widget, widget, widget]) == 30.0;
    assert Occurrences([widget, widget, widget], 1) == 3;
    var outcome := app.Checkout(true);
    assert outcome == Purchased(30.0);
    assert app.users["alice"].cash == 70.0;
    assert app.products[1].stock == 2;
    assert "alice" !in app.carts;
  }

  /** A product with no stock cannot be added, and the cart stays as it was. */
  method OutOfStockIsRejected() {
    var app := new ECommerceApp();
    var ok := app.Register("carol", "pw", false, 5.0);
    ok := app.Login("carol", "pw");
    assert ok;
    var id := app.AddProduct("Gadget", 3.0, 0);
    ok := app.AddToCart(id);
    assert !ok;
    assert app.carts == map[];
  }

  /** Withdrawing 50 from a balance of 30 is refused and the balance stays 30. */
  method OverdrawIsRejected() {
    var app := new ECommerceApp();
    var ok := app.Register("dave", "pw", false, 30.0);
    ok := app.Login("dave", "pw");
    assert ok;
    ok := app.WithdrawCash(50.0);
    assert !ok;
    assert app.users["dave"].cash == 30.0;
  }

  /** A second registration under the same name fails and keeps the first record. */
  method DuplicateRegistrationIsRejected() {
    var app := new ECommerceApp();
    var ok := app.Register("bob", "first", false, 10.0);
    assert ok;
    ok := app.Register("bob", "second", true, 99.0);
    assert !ok;
    assert app.users["bob"] == User("bob", "first", false, 10.0);
  }

  /**
   * Availability is checked when a line is added, not at checkout: two lines
   * of a product with one unit in stock both pass.
   */
  method FillCartBeyondStock() returns (app: ECommerceApp)
    ensures fresh(app) && app.Valid()
    ensures app.loggedInUser == Some("erin") && "erin" in app.users && app.users["erin"].cash == 10.0
    ensures 1 in app.products && app.products[1].stock == 1
    ensures var line := EntryOf(Product(1, "Last one", 2.0, 1));
            "erin" in app.carts && app.carts["erin"] == [line, line]
  {
    app := new ECommerceApp();
    var ok := app.Register("erin", "pw", false, 10.0);
    var id := app.AddProduct("Last one", 2.0, 1);
    assert id == 1;
    ok := app.Login("erin", "pw");
    assert ok;
    var line := EntryOf(Product(1, "Last one", 2.0, 1));
    ok := app.AddToCart(1);
    assert ok && app.carts["erin"] == [line];
    ok := app.AddToCart(1);
    assert ok && app.carts["erin"] == [line, line];
  }

  /** Buying that cart is accepted and leaves the stock at -1. */
  method CheckoutCanOversell() {
    var app := FillCartBeyondStock();
    var line := EntryOf(Product(1, "Last one", 2.0, 1));
    assert [line][1..] == [] && Total([line]) == 2.0;
    assert [line, line][1..] == [line] && Total([line, line]) == 4.0;
    assert Occurrences([line, line], 1) == 2;
    var outcome := app.Checkout(true);
    assert outcome == Purchased(4.0);
    assert app.products[1].stock == -1;
  }

  /** Setting the stock twice to the same value leaves that value, not its double. */
  method RestockTwice() {
    var app := new ECommerceApp();
    var id := app.AddProduct("Bolt", 1.0, 7);
    var found := app.ManageStock(id, 4);
    found := app.ManageStock(id, 4);
    assert found;
    assert app.products[id].stock == 4;
  }

  /** A removed product's id is not handed out again. */
  method RemovedIdsAreNotReused() {
    var app := new ECommerceApp();
    var first := app.AddProduct("Old", 5.0, 3);
    var removed := app.RemoveProduct(first);
    assert removed;
    var second := app.AddProduct("New", 8.0, 3);
    assert second != first;
    assert first !in app.products;
  }

  /**
   * A cart holding one line of product 1, which has since been delisted,
   * while product 2 is listed.
   */
  method CartWithDelistedLine() returns (app: ECommerceApp)
    ensures fresh(app) && app.Valid()
    ensures app.loggedInUser == Some("fay") && "fay" in app.users && app.users["fay"].cash == 50.0
    ensures 1 !in app.products && 2 in app.products && app.products[2].stock == 3
    ensures "fay" in app.carts && app.carts["fay"] == [EntryOf(Product(1, "Old", 5.0, 3))]
  {
    app := new ECommerceApp();
    var ok := app.Register("fay", "pw", false, 50.0);
    ok := app.Login("fay", "pw");
    assert ok;
    var first := app.AddProduct("Old", 5.0, 3);
    var second := app.AddProduct("New", 8.0, 3);
    assert first == 1 && second == 2;
    ok := app.AddToCart(1);
    assert ok;
    assert app.carts["fay"] == [EntryOf(Product(1, "Old", 5.0, 3))];
    var removed := app.RemoveProduct(1);
    assert removed;
  }

  /** The line of the delisted product is still shown. */
  method DelistedLineIsStillShown() {
    var app := CartWithDelistedLine();
    var entries := app.ViewCart();
    assert entries == [EntryOf(Product(1, "Old", 5.0, 3))];
  }

  /**
   * The line of the delisted product is still charged at checkout, and its
   * stock decrement touches no listed product.
   */
  method DelistedLineIsStillBought() {
    var app := CartWithDelistedLine();
    var line := EntryOf(Product(1, "Old", 5.0, 3));
    assert [line][1..] == [] && Total([line]) == 5.0;
    assert Occurrences([line], 2) == 0;
    var outcome := app.Checkout(true);
    assert outcome == Purchased(5.0);
    assert app.users["fay"].cash == 45.0;
    assert app.products[2].stock == 3;
  }
}
