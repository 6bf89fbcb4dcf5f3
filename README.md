# E-commerce console: verified model of its state machine

This project models, in Dafny, the in-memory core of a single-user,
terminal-driven shop (`ECommerceApp` in `src/Main.java`). The application
keeps five pieces of state:

- a user table keyed by username;
- a product catalogue keyed by integer id;
- per-user carts, each an ordered list of products in which duplicates are allowed;
- the optional logged-in user;
- a product-id counter.

Every menu action is a guarded update of this state. The model is the class
`Shop.ECommerceApp`, with those five fields and one method per action. Each
method states its accept/reject condition, its exact new state, and that
nothing else changes. A class invariant, `Valid()`, holds between actions:

- every user is stored under its own name, and every product under its own id;
- every product id ever issued in the run is below the counter, so a new id is
  always fresh and a removed id is never handed out again;
- the session names a stored user;
- a cart line whose product is still listed shows that product's name and price.

Files:

- `records.dfy` (module `Records`): the `User`, `Product` and `CartEntry` records.
  It also holds the pure computations and their lemmas: the cart total, the
  number of cart lines naming a product, the counter recomputed after loading,
  and setting a product's stock.
- `shop.dfy` (module `Shop`): the class `ECommerceApp` and its actions.
- `scenarios.dfy` (module `Scenarios`): client runs checked against the
  methods' contracts alone. They cover:
  - a purchase of three units;
  - an out-of-stock add;
  - an overdraft;
  - a duplicate registration;
  - a checkout that drives stock to -1;
  - setting the stock twice;
  - an id that is not reused after removal;
  - a cart line bought after its product was delisted.

Modelling decisions:

- **Cart lines.** In the program a cart holds references to the catalogue's
  `Product` objects, and checkout decrements `stock` through them. A product's
  id, name and price never change, and ids are not reused within a run. So a
  cart line is modelled as a snapshot `CartEntry(id, name, price)`, and
  checkout's decrement is applied to `products[id]` when that id is still
  listed. Decrementing an object that was already removed from the catalogue
  has no visible effect. `Valid()` states that the snapshot and the live record
  agree, and every verified method proves that it keeps this.
- **Records updated in place.** `loggedInUser.cash += …` and
  `product.stock = …` become map updates of `users` and `products`. The
  session is held as the username it refers to. This is the same thing,
  because a stored user is never replaced while the program runs.
- **Checkout does not check stock.** The only availability check happens when a
  line is added (stock > 0), and nothing is reserved. Checkout takes one unit
  per line and may leave stock negative, as the scenario `CheckoutCanOversell`
  shows. Checkout is not all-or-nothing: it takes stock below zero rather
  than refusing.
- **Other checks the code does not make, and the model follows the code in
  each case:**
  - registration does not reject a negative initial cash;
  - `addProduct` does not validate price or stock;
  - `manageStock` accepts a negative quantity;
  - a new id comes from the counter, not from the largest listed id, so
    removing the newest product does not make its id available again.
- **Money** is `real`, with exact arithmetic.

## Model

| member | source | states |
|---|---|---|
| `Records.TotalAppend` | src/Main.java:235 | The cart total (sum of line prices) of a concatenation is the sum of the two totals. |
| `Records.TotalSnoc` | src/Main.java:235 | Appending a line raises the cart total by exactly that line's price. |
| `Records.Occurrences` | src/Main.java:240-242 | The number of lines naming a product is at most the cart length; it is 0 exactly when no line names it, and equals the length exactly when every line names it. |
| `Records.OccurrencesSnoc` | src/Main.java:240-242 | Appending a line adds one occurrence of its own product and none of any other. |
| `Records.MaxExists` | src/Main.java:84 | A non-empty id set has a largest element (the stream's `max` is present). |
| `Records.MaxKey` | src/Main.java:84 | The result is a member of the id set and no id exceeds it. |
| `Records.NextProductId` | src/Main.java:84 | The counter after loading is above every stored id; it is 1 for an empty catalogue and otherwise one past a stored id. |
| `Records.SetStock` | src/Main.java:340-345 | Setting a stock keeps the key set and gives the listed product exactly the new stock. |
| `Records.SetStockIdempotent` | src/Main.java:345 | Setting the same stock twice equals setting it once (absolute, not additive). |
| `Records.SetStockFrame` | src/Main.java:340-345 | Setting one product's stock changes no other product and no id, name or price. |
| `Shop.ECommerceApp.constructor` | src/Main.java:43-48 | Empty tables, no session and counter 1 satisfy the invariant. |
| `Shop.ECommerceApp.LoadData` | src/Main.java:75-88 | A table that loads replaces the in-memory one and one that fails is kept; a loaded catalogue sets the counter to the recomputed value, above every listed id; the invariant holds after loading. |
| `Shop.ECommerceApp.Login` | src/Main.java:127-139 | The session becomes the user iff the name is stored with an equal password; otherwise every field is unchanged. |
| `Shop.ECommerceApp.Logout` | src/Main.java:193-196 | The session is cleared and nothing else changes; it stands for both menus' logout entries, the customer one here and the admin one at src/Main.java:300-303. |
| `Shop.ECommerceApp.Register` | src/Main.java:141-163 | An existing name leaves the users unchanged. Otherwise exactly one entry is added under that name, with the given password and role, and cash 0 for an admin or the supplied amount otherwise. |
| `Shop.ECommerceApp.AddToCart` | src/Main.java:202-214 | Accepted iff the product is listed with stock > 0. Then its line is appended to the end of the user's cart (created empty first if absent) and the cart total rises by its price. Otherwise the carts are unchanged. Stock never changes. |
| `Shop.ECommerceApp.ViewCart` | src/Main.java:216-226 | Returns the user's cart, or the empty cart if there is none. Every line's id was issued, and a line whose product is listed shows its current name and price. |
| `Shop.ECommerceApp.Checkout` | src/Main.java:228-253 | An absent or empty cart, cash below the total, or a declined confirmation each change nothing. On success the cash drops by exactly the total (so it stays ≥ 0), the user's cart is removed, and each listed product's stock drops by its number of lines. |
| `Shop.ECommerceApp.DecrementStock` | src/Main.java:240-242 | After the loop each listed product's stock is lower by its number of cart lines. Keys, names and prices are unchanged, and delisted lines touch nothing. |
| `Shop.ECommerceApp.DepositCash` | src/Main.java:255-267 | Cash changes iff amount > 0, and then rises by exactly amount. |
| `Shop.ECommerceApp.WithdrawCash` | src/Main.java:269-281 | Cash changes iff 0 < amount ≤ cash, and then drops by exactly amount, so it stays ≥ 0. |
| `Shop.ECommerceApp.AddProduct` | src/Main.java:309-321 | The new product is stored under the old counter value, which was never issued before in the run. The counter is incremented, and users, carts and session are unchanged. |
| `Shop.ECommerceApp.RemoveProduct` | src/Main.java:323-333 | Reports whether the id was listed and deletes exactly that key. Other products and the carts are untouched. |
| `Shop.ECommerceApp.ManageStock` | src/Main.java:335-350 | Reports whether the id was listed. A listed product's stock becomes exactly the given value; an unknown id changes nothing. |

## Left out

- Menu loops and console I/O (`run`, `showMainMenu`, `showUserMenu`, `showAdminMenu`, `System.exit`): user interface only. The role dispatch in `run` (src/Main.java:63-70), which offers the catalogue actions only to admins and the cart and cash actions only to customers, is left to the caller: `AddProduct`, `RemoveProduct` and `ManageStock` need no session, and the customer actions accept any logged-in user, so the model is only more permissive. Console reads are method parameters, the yes/no prompt of checkout is the `confirm` argument, and printed messages become the methods' results.
- `viewProducts`: it only prints the catalogue in `HashMap` iteration order, which is unspecified.
- `saveData` and the Java object serialisation of `users.dat`/`products.dat`: file I/O through a library. Loading is modelled only by its effect on the tables and the counter, and a failed read is an `Option.None`.
- `LoadData`: requires the stored maps to be keyed by their records' own username and id, which holds for files written by `saveData`. It also requires nobody logged in and no carts; the program loads only at startup.
- The ids in different runs: a catalogue reloaded after its newest product was removed and saved gets that id again. The model covers a single run.
- `toString` of `User` and `Product`: formatting that depends on Java's `double`-to-string conversion.
- IEEE `double` rounding of cash, prices and the compensated sum of `DoubleStream.sum`: money is `real`, so floating-point rounding, NaN and infinities are out of scope.
- 32-bit `int` wrap-around of `productIdCounter` and of `stock`: integers are unbounded.
