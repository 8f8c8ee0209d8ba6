# Inventory and point-of-sale store: a verified model

This project models the core of a small Flask/SQLAlchemy inventory and
point-of-sale application in Dafny. Cashiers ring up sales, managers keep the
product and category catalogue and its stock, suppliers answer purchase
orders, and an admin manages the user accounts. The model has three parts:

- **The stock ledger.** A manual stock adjustment (`add`, `remove`, `set`)
  decides a new quantity and the one stock movement that records it. A sale
  walks the cart line by line. It deducts stock, records a sale item and an
  `out` movement per known product, and rolls back entirely when a line finds
  too little stock.
- **The purchase-order status machine.**
  - The manager may set any of the five statuses.
  - The supplier may confirm a pending order (it becomes `approved`), report it
    `ordered` or `delivered`, or decline it (it becomes `cancelled`).
  - A one-off repair turns legacy `confirmed` rows into `approved`.
  - Each supplier action notifies the order's creator.
- **The guards and bulk updates.**
  - The unique username, email, SKU and category-name checks.
  - An admin cannot toggle their own account.
  - A product with sales history or stock movements cannot be deleted, and
    neither can a category with products.
  - "Mark all notifications read".
  - The backfill that gives every supplier login a supplier profile.

Files:

- `results.dfy`: `Option`, `Result` and the error each handler reports.
- `models.dfy`: the tables as datatypes, the column defaults, the low-stock
  rule and the declared unique constraints (models.py).
- `ledger.dfy`: the stock rules as pure functions. `PlanAdjustment` is
  adjust_stock's decision. `SaleRun` is process_sale's walk over the cart.
  The lemmas about both are here too.
- `stock.dfy`: class `Inventory` holds the product, category, sale, sale-item
  and movement tables. Its methods are the product, category, stock and sale
  handlers. `AdjustStock` and `ProcessSale` are proved against the functions
  of `ledger.dfy`; the product and category methods state their new tables
  directly.
- `orders.dfy`: the status transitions as functions, and class `OrderBook`
  (orders and notifications) whose methods are the purchase-order and
  notification handlers.
- `accounts.dfy`: class `Directory` (users and supplier profiles) with the
  user handlers, and the supplier-profile backfill together with its
  reference function `Backfill`.

Each request's net effect is all-or-nothing: either all its changes persist,
or, on a refusal or a commit the database rejects (a NOT NULL or unique
constraint), every table is as it was before. Intermediate states that the
source passes through are not modelled. These include the sale row flushed
and earlier lines deducted before a mid-cart refusal rolls them back, and
add_product's two commits.

Modelling conventions:

- Money is integer cents.
- Timestamps, sale numbers and order numbers are parameters supplied by the
  caller.
- The logged-in user is a parameter. For supplier handlers it is the supplier
  profile found for the login (`Accounts.SupplierProfile`).
- Purchase-order status is a string. Old rows may hold `confirmed`, and the
  manager's form can send any text.

Behaviours of the code that the model keeps, and proves, as they are:

- An `add` of a negative amount lowers the stock but logs an `in` movement
  (`Ledger.NegativeAddLoggedAsIn`). A `remove` of a negative amount raises the
  stock but logs an `out` movement (`Ledger.NegativeRemoveLoggedAsOut`).
- A product with any stock movement cannot be deleted, including the
  `initial_stock` movement logged when it was created with stock. The delete
  fails at the commit, because a movement's product column may not be null
  and nothing cascades the delete to the movements.
- The stock cannot be set to 0, because an adjustment of 0 is refused before
  its type is read (`Ledger.SetToZeroRefused`).
- A sale's total counts every cart line, including lines whose product does
  not exist. Those lines get no sale item and no movement.
- A supplier can report a cancelled order delivered
  (`Orders.SupplierUpdateIgnoresCurrentStatus`).
- Moving a delivered order to another status keeps its delivery date
  (`Orders.DeliveryDateOutlivesDelivery`).
- The "New Purchase Order" notification carries no related id. The order's id
  is read before the row is flushed, so it is still unset.
- The backfill copies the login's email into the new profile. Supplier emails
  are unique, so a collision with an existing profile's email makes the whole
  commit fail.

## Model

| member | source | states |
|---|---|---|
| Models.NewUser | app.py:231-236 | an account created by the admin is active and carries the given username, email and role |
| Models.NewProduct | models.py:80-86 | a new product row has quantity 0, reorder level 10 and is active |
| Models.NewPurchaseOrder | models.py:182 | a new purchase order is pending and has no delivery date |
| Models.NewNotification | models.py:233 | a new notification is unread |
| Models.IsLowStock | models.py:99-101 | definition: stock is low at or below the reorder level. Its properties are stated by Models.NewProductIsLowStock and Ledger.SaleKeepsLowStockLow |
| Models.NewProductIsLowStock | models.py:80-81 | a product created with the defaults (0 units, level 10) is low on stock |
| Ledger.Requested | app.py:1140-1147 | definition: the stock an `add`, `remove` or `set` asks for. Ledger.PlanAdjustment's contract states the decision in terms of it |
| Ledger.PlanAdjustment | app.py:1136-1165 | the refusals come in the source's order: a 0 adjustment, then an unknown type, then a negative result. The request is granted exactly when the requested stock is not negative. The new quantity is the requested one. The logged quantity is the size of the change. `add` logs in, `remove` logs out, and `set` logs in exactly when the stock rises |
| Ledger.RemoveUndoesAdd | app.py:1140-1145 | removing what was just added restores the former stock, and both movements log the same amount |
| Ledger.SetTwiceChangesNothing | app.py:1146-1151 | setting the stock to the value it already holds is accepted and logs an out movement of 0 units |
| Ledger.SetToZeroRefused | app.py:1136-1137 | "set to 0" is refused as "no stock change" |
| Ledger.MovementAccountsForChange | app.py:1140-1165 | for `set`, and for `add`/`remove` of a positive amount, the signed movement equals the change in stock |
| Ledger.NegativeAddLoggedAsIn | app.py:1140-1142 | every `add` of a negative amount that keeps the stock non-negative is accepted. The stock falls, the movement is `in` of the amount's size, and read with its sign it is the opposite of the change |
| Ledger.NegativeRemoveLoggedAsOut | app.py:1143-1145 | every `remove` of a negative amount that leaves the stock non-negative is accepted. The stock rises, the movement is `out` of the amount's size, and read with its sign it is the opposite of the change |
| Ledger.SaleStep | app.py:777-808 | definition of one pass of the sale loop, whose contract states its effect. An unknown product is skipped. The step is refused, naming the product, exactly when a known product has less stock than the line asks. Otherwise exactly that product's stock falls by the line's quantity (never below zero), every other product is untouched, and one item and one movement are appended |
| Ledger.SaleRun | app.py:776-808 | definition of the whole loop (the first refusal ends it). A refusal names a product of the table. A success keeps the product ids and extends the items and movements by the same number of records, at most one per line. The outcome is characterised by SaleRefusedIffOversold, SaleDeductsLineTotals and SaleRecordsKnownLines |
| Ledger.CartTotal | app.py:757 | definition of the amount charged, over every line including unknown products. Ledger.CartTotalMatchesItems relates it to the recorded items |
| Ledger.CartTotalMatchesItems | app.py:757-787 | when every line names a known product, the amount charged equals the sum of the recorded sale items' subtotals |
| Ledger.KnownLines | app.py:776-779 | the lines a sale records are exactly the cart lines of known products. Every kept line is such a cart line, and every such cart line is kept. At most as many lines as the cart, and the whole cart when every product is known |
| Ledger.SaleItemFor | app.py:782-788 | definition of the sale item built for a cart line: sale id, product, quantity, unit price and subtotal price times quantity. Ledger.SaleItemsFor states it field by field |
| Ledger.SaleMovementFor | app.py:796-804 | definition of the movement built for a cart line: `out` of the line's quantity, reason "sale", by the cashier, referring to the sale. Ledger.SaleMovementsFor states it field by field |
| Ledger.SaleItemsFor | app.py:781-789 | one sale item per recorded line, in order. Each carries the sale id and the line's product, quantity and unit price, with subtotal price times quantity |
| Ledger.SaleMovementsFor | app.py:794-805 | one movement per recorded line, in order. Each is `out` of the line's product and quantity, reason "sale", by the cashier, with reference id the sale and reference type "sale" |
| Ledger.SaleDeductsLineTotals | app.py:776-794 | a successful sale keeps the same products and lowers each one's stock by the total quantity of its cart lines; nothing else about a product changes |
| Ledger.SaleRecordsKnownLines | app.py:776-805 | a successful sale appends exactly one sale item and one `out` "sale" movement per cart line of a known product, in cart order |
| Ledger.SaleRefusedIffOversold | app.py:792-808 | for carts with no negative quantity, a sale is refused if and only if some known product's cart lines together ask for more than its stock; the refusal names such a product |
| Ledger.SaleKeepsStockNotNegative | app.py:792-794 | a successful sale never drives stock below zero |
| Ledger.SaleKeepsLowStockLow | app.py:792-794 | a product low on stock before a sale (with no negative line quantities) is still low after it |
| Stock.SaleKeepsTablesConsistent | app.py:776-805 | a successful sale keeps every product's id and SKU. Every sale item and stock movement, old or new, still names a product in the table |
| Stock.Inventory.AddProduct | app.py:1011-1047 | the refusals, in order: missing name or SKU, SKU in use, selling price below cost. On success the product gets the next id, the given stock and reorder level, and an `in` "initial_stock" movement exactly when the stock is positive; a refusal changes nothing |
| Stock.Inventory.EditProduct | app.py:1063-1093 | unknown id, a SKU held by another product, and selling below cost are refused. On success the descriptive fields are replaced and stock and the active flag are untouched |
| Stock.Inventory.DeleteProduct | app.py:1108-1121 | the refusals, in order: unknown id, then any sale item referring to the product, then any stock movement referring to it (the failed commit). The product is removed if and only if none of these holds, and afterwards no movement names it |
| Stock.Inventory.AdjustStock | app.py:1131-1171 | the new state is exactly PlanAdjustment's decision. A grant sets the quantity and logs one "manual_adjustment" movement; a refusal changes nothing |
| Stock.Inventory.ProcessSale | app.py:753-810 | an empty cart is refused. Otherwise the result and the new tables are exactly SaleRun's over the cart. The sale record carries the cart total. A refusal changes no table. The SKU and sale-item invariants are kept |
| Stock.Inventory.AddCategory | app.py:1210-1219 | a name is required and must be new; on success the category gets the next id |
| Stock.Inventory.EditCategory | app.py:1235-1246 | unknown id and a name held by another category are refused; otherwise the name and description are replaced |
| Stock.Inventory.DeleteCategory | app.py:1262-1272 | refused with the product count while any product is filed under the category. On success no product refers to the category |
| Orders.WithStatus | app.py:1396-1400 | the status is set; reaching `delivered` stamps the delivery date and any other status keeps it; nothing else changes |
| Orders.ManagerTransition | app.py:1392-1400 | accepted if and only if the status is one of the five valid ones, from any current status |
| Orders.ConfirmTransition | app.py:1659-1663 | accepted if and only if the order is pending, giving `approved` with nothing else changed |
| Orders.SupplierTransition | app.py:1745-1755 | accepted if and only if the status is `ordered` or `delivered`, from any current status |
| Orders.DeclineTransition | app.py:2103 | the order becomes `cancelled`, whatever its status, with nothing else changed |
| Orders.MigrateTransition | app.py:2412-2414 | a `confirmed` order becomes `approved`; every other order is unchanged |
| Orders.MigrateAll | app.py:2412-2414 | the same ids exist after the repair. Every `confirmed` order becomes `approved` with nothing else changed, and every other order is unchanged, so no order is `confirmed` |
| Orders.TransitionsKeepStatusValid | app.py:1392-1394 | from a valid status, every accepted handler transition leads to a valid status |
| Orders.MigrationRepairs | app.py:2412-2414 | on a table of valid or `confirmed` statuses, the repair leaves only valid statuses, is idempotent, and leaves no `confirmed` order |
| Orders.ConfirmIsOneShot | app.py:1659-1663 | a confirmed order cannot be confirmed again, and a declined one cannot be confirmed |
| Orders.SupplierUpdateIgnoresCurrentStatus | app.py:1745-1755 | a cancelled order can be reported delivered, and it gets a delivery date |
| Orders.DeliveryDateOutlivesDelivery | app.py:1396-1400 | moving a delivered order back to pending keeps its delivery date |
| Orders.Notified | app.py:1359-1367 | the inbox gains one unread notification with the given recipient, title, type and related row. Its id continues the numbering, and the earlier notifications are unchanged |
| Orders.StatusTitle | app.py:1765 | the status title-cased as `str.title` gives it: the same length and tail, with the first letter upper-cased |
| Orders.ReadAll | app.py:2369-2370 | every notification of the user is read afterwards; other users' notifications and all other fields are untouched |
| Orders.ReadAllClearsInbox | app.py:2369-2370 | after marking all read the user has no unread notification, and doing it again changes nothing |
| Orders.OrderBook.AddOrder | app.py:1340-1367 | an unknown supplier is refused. Otherwise a pending order with total quantity times unit price gets the next id. A supplier with a login gets a "New Purchase Order" notification with no related id |
| Orders.OrderBook.UpdateStatus | app.py:1389-1402 | the order's new state is exactly ManagerTransition's, and an unknown order or status changes nothing |
| Orders.OrderBook.ConfirmOrder | app.py:1650-1672 | missing profile, an order of another supplier, and a non-pending order are refused. Otherwise the order is approved and its creator gets "Order Accepted by Supplier" |
| Orders.OrderBook.UpdateShipping | app.py:1733-1771 | for the supplier's own order the new state is SupplierTransition's, and the creator gets "Order Ordered/Delivered by Supplier"; refusals change nothing |
| Orders.OrderBook.DeclineOrder | app.py:2091-2114 | the supplier's own order is cancelled whatever its status, and the creator gets "Order Declined by Supplier" |
| Orders.OrderBook.MigrateConfirmed | app.py:2412-2417 | the table becomes MigrateAll of the old table and the count returned is the number of `confirmed` orders |
| Orders.OrderBook.MarkRead | app.py:2348-2358 | only the user's own notification with that id is marked read; any other id is "not found" and changes nothing |
| Orders.OrderBook.MarkAllRead | app.py:2369-2371 | the inbox becomes ReadAll of the old inbox |
| Accounts.FindUser | app.py:276 | finds the position of the user with the id, or reports that no user has it |
| Accounts.SupplierProfile | app.py:1650-1652 | a profile is found if and only if some profile is linked to the login, and it is the first such profile |
| Accounts.ProfileFor | app.py:2231-2239 | the profile created for a supplier login carries its username as the company name ("'s Company") and contact, its email, a link to the login, no phone or address, and is active |
| Accounts.Backfill | app.py:2226-2241 | the profiles created number at most the users, with ids counting up from the next id |
| Accounts.BackfillCoversSupplierUsers | app.py:2223-2241 | after the backfill every supplier login has a profile |
| Accounts.BackfillNothingMissing | app.py:2228-2229 | when every supplier login already has a profile nothing is created |
| Accounts.BackfillIdempotent | app.py:2226-2241 | running the backfill a second time creates no profile |
| Accounts.Directory.AddUser | app.py:221-240 | the refusals, in order: a missing field, the username in use, the email in use. Otherwise an active user with the next id is added |
| Accounts.Directory.EditUser | app.py:298-319 | unknown id, a username or email held by another user are refused; otherwise username, email and role are replaced; uniqueness is kept |
| Accounts.Directory.ToggleUser | app.py:276-282 | unknown id is refused, then the admin's own account; otherwise exactly that user's active flag is flipped and returned |
| Accounts.Directory.FixSupplierProfiles | app.py:2223-2244 | the profiles added are exactly Backfill's and their number is returned. Afterwards every supplier login has a profile. An email collision fails the commit and nothing is kept |
| Accounts.ToggleTwiceRestores | app.py:276-282 | toggling the same account twice leaves every user as before |

## Left out

- Authorisation is not modelled: login, the role decorators and the role tests inside each handler. Callers are taken to be allowed.
- Password hashing, HTML templates, flash messages, JSON formatting, Cloudinary uploads and the report and dashboard pages are not modelled.
- Prices are floats in the source and integer cents here, so float rounding is not modelled. The "selling below cost" test compares cents.
- The clock and the generation of sale and order numbers (from the current time) are parameters. The unique constraint on those numbers is therefore not modelled.
- Notification message texts are left out; titles, types and related rows are kept.
- The product's description, unit and image URL, and the timestamps of every row, are not modelled.
- Supplier CRUD, delete_user, the update_purchase_order editor and the supplier-product catalogue are not part of this model.
- Stock.Inventory.DeleteCategory: supplier products are not modelled. A category that still has supplier products filed under it is NOT NULL on their side too, so the delete fails at the commit; the model still lets such a category be deleted.
- Form parsing errors (a non-numeric field raising an exception, which rolls back) are not modelled. Handlers take already-parsed values, and callers pass the form defaults themselves: adjustment type `add` and reason `stock_adjustment` for a stock adjustment, payment method `cash` for a sale, quantity 0 and reorder level 10 for a new product, and quantity 1 for a purchase order.
- The session is modelled as a local copy that is committed at the end. Flushing order inside a transaction is not modelled.
- `.first()` queries are taken in id order: users are kept sorted by id, and supplier profiles in insertion order.
- Accounts.Directory.FixSupplierProfiles: in the source an email collision is an uncaught exception (an error page). It is modelled as an `IntegrityError` result.
- The supplier handlers take the acting supplier's profile as a parameter, `Option<Supplier>`. `Accounts.SupplierProfile` gives it, so the two classes do not share state.
- Orders.OrderBook.AddOrder: the supplier looked up by id is passed in as an `Option<Supplier>` (None when no supplier has that id). The supplier table lives in `Accounts.Directory`, and the lookup itself is not modelled.
- Orders.OrderBook.MarkRead: it finds the notification by position. This relies on the invariant that notification ids count up from 1.
