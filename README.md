# Order accounting of the stationary store

A Dafny model of the order-accounting core of the `inventory` Django app of
CircleAZ/stationary_store. It covers three parts of the app:

- the order calculator of `inventory/models.py`. This is the order total (`calculate_total`), the payment status (`update_status`), the amount due, a product's stock test and the price an order item records when it is saved.
- the stock adjuster of `inventory/views.py`. This is what `order_create`, `order_update` and `OrderDeleteView.post` do to `Product.stock_quantity`, and the order rows they save.
- the deletion guards of `CategoryDeleteView`, `ProductDeleteView` and `CustomerDeleteView`.

Money is a whole number of cents, so sums and products are exact, as they are
with `Decimal`. An unset `price_at_order` is 0. The source tests it with
`not self.price_at_order`, and that is true of `None` and of a zero `Decimal`
alike.

The files:

- `models.dfy` (module `Models`): the entities. `Product` and `OrderItem` are rows. `Order` is a class whose `CalculateTotal` and `UpdateStatus` methods refresh its own fields, as the Django model's methods do.
- `stock.dfy` (module `Stock`): stock movements. A `Move` is one change of one product's stock. `Shift` is the product table after a sequence of read-modify-writes. `Overwrite` is the table after saves made through copies of the products loaded beforehand, where a later save of a product replaces an earlier one. The file also holds the closed form of order creation and deletion, and the proof that deleting an order undoes creating it.
- `update.dfy` (module `Update`): the item formset of `order_update` and what its validation guarantees. It holds both stock loops as written (`Restorations`, `ChangeStock`), the items the edit leaves (`EditedItems`), and a balanced alternative (`BalancedMoves`). A form's product is the copy its product field loaded while the formset was validated, so the loops check and save that copy's stock rather than the stock as it stands. The one exception is a deleted form whose product field failed: its instance keeps the stored product id, and the first loop loads that product when it reaches the form (`ItemForm.reloads`, `Restored`).
- `views.dfy` (module `Views`): the handlers. The module-level methods run each handler's loops over the product table and over the loaded `Order`, as the view functions do. `Store` is the database: its methods validate, call them and write the tables. Its invariant `Valid` says:
  - every product's category exists;
  - keys are below the next key handed out;
  - every stored order has a known customer, a non-negative payment, known products, positive quantities, one item per product, and a total and a status that are current.

Two behaviours of the code are easy to miss. The model follows the code in both:

- A deleted form that edits an existing item puts back the quantity bound in the form. When the form was also changed, that is not necessarily the stored quantity. Django builds the instance of a deleted form from its cleaned data, and `deleted_forms` hands that instance to `order_update`. That quantity can even be 0 or negative. `MinValueValidator(1)` belongs to the model field, not the form field, and the formset ignores the errors of forms marked for deletion.
- The product deletion guard ignores CANCELLED orders. A product held only by cancelled orders passes the guard. Even so, `on_delete=PROTECT` on `OrderItem.product` still refuses the deletion: Django raises `ProtectedError`, which the view does not catch, so the request ends in a server error and nothing is deleted. `Views.Store.DeleteProduct` returns `Protected` for that case.

## Model

| member | source | states |
|---|---|---|
| Models.NextStatus | inventory/models.py:91-100 | DELIVERED and CANCELLED are kept; otherwise PENDING iff no payment, PARTIAL iff paid below the total, PAID iff paid and the total is covered; never PROCESSING |
| Models.NextStatusIdempotent | inventory/models.py:91-100 | recomputing the status a second time changes nothing |
| Models.Order.UpdateStatus | inventory/models.py:91-100 | the status becomes `NextStatus` of the old status, payment and total; no other field changes |
| Models.Order.CalculateTotal | inventory/models.py:78-86 | the stored and returned total is the sum of quantity times price over the items; no other field changes; a total that is already right leaves the order untouched |
| Models.ItemsTotalPermutation | inventory/models.py:80 | `ItemsTotal`, the sum over the items, does not depend on the order of the items |
| Models.ItemsTotalAppend | inventory/models.py:80 | `ItemsTotal` of two item lists together is the sum of their totals |
| Models.ItemsTotalNonNegative | inventory/models.py:117-118 | `ItemTotal`, quantity times `price_at_order`, and so the order total, is never negative when quantities are at least 1 and prices non-negative |
| Models.Order.AmountDue | inventory/models.py:88-89 | amount due plus amount paid is the total; with a current status, PAID owes nothing, PARTIAL owes something, PENDING owes the whole total |
| Models.SavedPrice | inventory/models.py:120-124 | only a new item with no price takes the product's current price; any other item keeps its price |
| Models.SavedPriceIsHistorical | inventory/models.py:120-124 | once an item is saved with a price, later saves keep that price whatever the product's price becomes |
| Models.QuantityOfDistinct | inventory/models.py:111-112 | with one item per product, an item's quantity is its product's whole quantity in the order |
| Models.QuantityOfPositive | inventory/models.py:104-107 | a product with a positive quantity in the order has an item for it |
| Models.PriceFloorRefusesOneCent | inventory/models.py:23 | the price floor as written, a Decimal compared with the float 0.01, passes exactly the prices of at least two cents |
| Models.PriceFloorAcceptsOneCent | inventory/models.py:23 | the price floor with a Decimal limit passes exactly the prices of at least one cent |
| Models.Order.constructor | inventory/views.py:249 | the order the form builds has the form's customer, payment and status, no items and a total of 0 |
| Models.Order.Load | inventory/views.py:298 | the loaded order is the stored row |
| Stock.Shift | inventory/views.py:263-268 | stock moves change only stock: the same products, prices and categories |
| Stock.ShiftAt | inventory/views.py:263-268 | after any sequence of moves each product's stock has moved by the sum of the moves for it |
| Stock.ShiftAppend | inventory/views.py:297-363 | in the balanced edit, returning the old items and then taking the new ones is making `a + b` |
| Stock.WithdrawOne | inventory/views.py:261-268 | one more created item is one more product save, through the form's copy of its product, lowering that copy's stock by the item's quantity |
| Stock.WithdrawalAt | inventory/views.py:256-268 | creating an order lowers each product's stock by exactly the order's quantity of it, with no lower bound; other products are untouched |
| Stock.ReturnAt | inventory/views.py:394-397 | deleting an order raises each product's stock by exactly the order's quantity of it; other products are untouched |
| Stock.CreateThenDeleteRestores | inventory/views.py:256-268 | deleting an order puts every product's stock back to what it was before the order was created |
| Stock.CreateExhaustsStock | inventory/views.py:264-268 | a product the new order takes at least its whole stock of is no longer in stock |
| Stock.DeleteKeepsInStock | inventory/models.py:35-36 | a product that is in stock, with stock above zero, is still in stock after an order is deleted |
| Stock.WithdrawalsNet | inventory/views.py:264 | the moves `Withdrawals` gives for an order change each product's stock by minus the order's quantity of it |
| Stock.ReturnsNet | inventory/views.py:396 | the moves `Returns` gives for an order change each product's stock by plus the order's quantity of it |
| Stock.Overwrite | inventory/views.py:313-341 | saves through product copies still change only stock: the same products, prices and categories |
| Stock.OverwriteIsShift | inventory/views.py:261-268 | when no product is saved twice, saving through copies gives the same stock as reading it afresh before each save; creation relies on it, since no two new items share a product |
| Update.EditedItems | inventory/views.py:351-357 | the items a valid formset leaves are known products with quantities of at least 1 and one item per product |
| Update.EditedUpToSound | inventory/views.py:351-357 | every prefix of the edited items is sound, and each of its products comes from a kept form |
| Update.InitialIsQuantity | inventory/views.py:300 | with one item per product, `InitialQuantities` read as `initial_quantities.get(q, 0)` is the order's quantity of `q` before the edit |
| Update.StockChangeIsGrowth | inventory/views.py:326-327 | `StockChange` is the form's new quantity less the order's quantity of that product before the edit |
| Update.DeletedItemStillBlocks | inventory/views.py:306 | `FormsValid` refuses a formset that deletes a stored item and adds its product again, because the stored row still counts for uniqueness |
| Update.RestorationsCover | inventory/views.py:313-317 | the restoring loop only touches known products |
| Update.RestoredIsOverwrite | inventory/views.py:313-317 | when every deleted form saves through its validation-time copy, the first loop gives `Overwrite` by the restorations |
| Update.RestoredIsShift | inventory/views.py:313-317 | when every deleted form loads its product at the loop, the first loop gives `Shift` by the restorations |
| Update.RestoredAtLeast | inventory/views.py:313-317 | restorations of no negative quantity leave every product with at least its stock before the loop |
| Update.Step | inventory/views.py:322-341 | one change stops exactly when it is a rise above the stock of the form's product copy, and then leaves the stock alone; otherwise it saves the copy's stock less `stock_change`; prices and categories are kept; no product drops below what it had, what its copy had, or zero, whichever is least |
| Update.ChangeStock | inventory/views.py:321-347 | the second loop, saving through the forms' copies, keeps the products, prices and categories |
| Update.StoppedIsFinal | inventory/views.py:330-337 | once the loop has stopped, later forms change nothing |
| Update.ChangeStockNoNewShortage | inventory/views.py:330-341 | however the loop ends, every product ends with at least what it had, or what its copy had, or zero, whichever is least |
| Update.IdleFormsKeepStock | inventory/views.py:313-322 | forms that are neither changed nor deleted move no stock |
| Update.UpdateRun | inventory/views.py:313-347 | the whole stock effect of an edit, the first loop by `Restored` and the second by `ChangeStock`, keeps the products, prices and categories |
| Update.UpdateNoNewShortage | inventory/views.py:313-341 | a valid edit whose deleted existing forms carry no negative quantity, however it ends, leaves no product that had stock on hand with less than none |
| Update.NegativeRestoreExample | inventory/views.py:306-317 | a valid formset that deletes a stored item with its quantity field set to -2 takes a product from stock 0 to -2 and leaves no items, while the balanced edit puts the product at 3 |
| Update.CopiesOverwriteExample | inventory/views.py:313-341 | a deleted item switched to a product another item raises has its restoration overwritten by the later save through the other form's copy |
| Update.ReloadExample | inventory/views.py:313-317 | a deleted form whose product field failed loads its product after the earlier saves and builds on them, so two restorations of one unit each take product 1 from 5 to 7, where saves through copies alone would give 6 |
| Update.BalancedConserves | inventory/views.py:297-363 | in the balanced edit every product's stock plus what the order holds of it is unchanged, and a product that is not short ends no worse than before or at zero |
| Update.ShortAppears | inventory/views.py:329-331 | a short product is the product of some edited item |
| Update.PartialCommitExample | inventory/views.py:313-337 | an edit that is refused for lack of stock has already put back a deleted item's stock, though the order still holds that item |
| Update.SwitchedProductExample | inventory/views.py:300-327 | moving an existing item to another product takes the new product's stock and never restores the old one |
| Views.SavedIsSound | inventory/views.py:274-277 | a saved row from a valid form and sound items has a current total and status |
| Views.SoundWiden | inventory/views.py:264-268 | stock changes and new customers or products keep every stored order sound |
| Views.SoundWithoutCustomer | inventory/views.py:209-214 | deleting a customer with no orders keeps every order sound |
| Views.SoundWithoutProduct | inventory/views.py:122-130 | deleting a product no order holds keeps every order sound |
| Views.ConsistentRestock | inventory/views.py:264-268 | stock changes keep the database consistent |
| Views.ConsistentSave | inventory/views.py:274-277 | saving an order row built from valid fields and sound items keeps the database consistent |
| Views.ConsistentCreate | inventory/views.py:249-277 | creation keeps the database consistent: stock lowered by the withdrawals, the new row under the next key |
| Views.ConsistentUpdate | inventory/views.py:313-363 | a valid edit keeps the database consistent whether its stock loop stops or the order is saved |
| Views.FindShortage | inventory/views.py:329-331 | checking only the edited items finds a shortage exactly when some product is short, and names a short product |
| Views.ReturnStock | inventory/views.py:394-397 | one save per item raises stock as `Shift` by the items' returns |
| Views.TakeStock | inventory/views.py:263-268 | one save per item lowers stock as `Shift` by the items' withdrawals |
| Views.RestoreDeleted | inventory/views.py:313-317 | the first loop of the update leaves the stock `Restored` gives: each deleted existing form's quantity is saved through its copy of the product, or through the product loaded at that point when its product field failed |
| Views.AdjustChanged | inventory/views.py:321-347 | the second loop, checking and saving the forms' product copies, leaves the stock `ChangeStock` gives, and reports the product it stopped at, if any |
| Views.Commit | inventory/views.py:274-277 | refreshing the total and status of the loaded order with the new items yields the row `Saved` gives |
| Views.SaveNewItem | inventory/views.py:256-268 | one pass of the creation loop saves the form's item at its product copy's price and saves that copy's stock less the quantity |
| Views.SaveNewItems | inventory/views.py:255-268 | the items loop of creation saves the edited items and leaves the stock `Overwrite` gives for their withdrawals, which is `Shift` by them, with no check that the stock suffices |
| Views.CreateOrder | inventory/views.py:249-277 | creation saves the edited items and lowers stock by their withdrawals, with no check that the stock suffices |
| Views.UpdateStock | inventory/views.py:300-347 | the stock part of the edit leaves the stock of `UpdateRun` and passes exactly when that run completes |
| Views.UpdateOrder | inventory/views.py:308-363 | the edit as written leaves the stock of `UpdateRun`, the writes going through the forms' product copies; when it stops it saves nothing, otherwise it saves the edited items |
| Views.UpdateOrderBalanced | inventory/views.py:297-363 | the balanced edit fails exactly when some product is short and then changes nothing; otherwise it returns the old items and takes the new ones |
| Views.Store.AddCategory | inventory/views.py:40-48 | a new category under a fresh key; nothing else changes |
| Views.Store.AddCustomer | inventory/views.py:150-180 | a new customer under a fresh key; nothing else changes |
| Views.Store.AddProduct | inventory/views.py:97-105 | a product is added exactly when its category exists, its price passes `MinValueValidator(0.01)` as written, which means at least two cents, and its stock is at least 0; otherwise Invalid and nothing changes |
| Views.Store.OrderCreate | inventory/views.py:241-277 | exactly an invalid form or formset is refused with nothing changed; otherwise a new order under a fresh key holds the edited items, and stock drops by their quantities |
| Views.Store.OrderUpdate | inventory/views.py:297-363 | missing order: NotFound; invalid forms, including a kept item whose product another stored item holds: nothing changes; otherwise the stock becomes `UpdateRun`, and the order is saved only when the loop completes |
| Views.Store.OrderUpdateBalanced | inventory/views.py:297-363 | an edit is refused exactly when some product is short, and then nothing changes; otherwise stock moves by the balanced moves and the order is saved |
| Views.Store.OrderDelete | inventory/views.py:391-401 | missing order: NotFound; otherwise every item's quantity goes back to its product and the order is removed |
| Views.Store.DeleteCategory | inventory/views.py:65-74 | a category is deleted exactly when it exists and no product is in it |
| Views.Store.DeleteCustomer | inventory/views.py:206-214 | a customer is deleted exactly when they exist and have no order |
| Views.Store.DeleteProduct | inventory/views.py:122-130 | the guard refuses a product held by an order that is not CANCELLED; one held only by cancelled orders is refused by PROTECT; otherwise it is deleted |

## Left out

- HTML rendering, messages, redirects, URL routing and login are not modelled. They have no effect on the stored data.
- The admin is not modelled. It does write the stored data: `ProductAdmin.list_editable` sets `price` and `stock_quantity` directly (inventory/admin.py:14), and the order-item inline of `OrderAdmin` edits order items without any stock change (inventory/admin.py:21-35). `OrderAdmin.list_editable` also edits `status` and `amount_paid` (inventory/admin.py:35). The contracts of the modelled handlers and the `Valid` invariant do not cover those writes.
- The list and detail views of categories, products and customers are not modelled. They only read.
- The update views of categories, products and customers are not modelled. `ProductUpdateView` (inventory/views.py:107-115) saves a `ProductForm` that includes `stock_quantity` and `price` (inventory/forms.py:15), so it sets a product's stock and price directly. The contracts of the modelled handlers do not cover those writes.
- The descriptive fields (names, descriptions, addresses, notes, timestamps, `created_by`, `order_date`) are not modelled. They do not enter stock or totals.
- Form classes are represented by what their validation guarantees (`FieldsValid`, `FormsValid`, the checks in `AddProduct`). `inventory/forms.py` is not part of this model beyond that. The per-form `form.is_valid()` in the update loop holds for every form not marked for deletion once the formset has validated. Forms marked for deletion fail the DELETE test at inventory/views.py:322 either way.
- The database is in memory, and so are transactions. A handler's writes within one request appear together in the final state. Concurrent requests are not modelled. The order's item rows are held in its row and written when the order is saved.
- Views.CreateOrder: the initial `order.save()` before the items loop is not a separate state. It is overwritten inside the same request.
- Views.UpdateOrder: the `item_formset.save()` of deleted items is modelled as their absence from `EditedItems`. It is not a separate write.
- Decimal `max_digits` bounds are not modelled, because integers are unbounded. A total that would overflow twelve digits is not rejected. Neither is the 32-bit range of the `IntegerField` columns `Product.stock_quantity` and `OrderItem.quantity`, so a stock or a quantity outside that range is not rejected either.
- Views.Store.AddCategory: the category name is not modelled. A blank name, or one another category already has (the name is unique, inventory/models.py:7), is refused by `CategoryForm`, but the model adds the category anyway.
- Views.Store.AddCustomer: the customer's name and address are not modelled. A blank name or address is refused by `CustomerForm` and `QuickCustomerForm`, but the model adds the customer anyway.
- Views.Store.AddProduct: the product name is not modelled. A blank name is refused by `ProductForm`, but the model adds the product when its category, price and stock pass.
- Update.UpdateNoNewShortage: requires every deleted existing form to carry a quantity that is not negative. The source does not guarantee that, and `Update.NegativeRestoreExample` shows the bound failing without it (see "## Findings").
- The GET branches of `order_create` and `order_update` only render forms, so they are not modelled.

## Findings

| source | as written | input that shows it | evidently intended | confidence | as-written member | corrected member |
|---|---|---|---|---|---|---|
| inventory/views.py:313-337 | a rise the stock cannot cover ends the request with a normal return, so `transaction.atomic` commits the stock already put back by the first loop, while the order and its items are not saved | an order holds one unit each of products 0 and 1, both with stock 0; the edit deletes the first item and raises the second to 5; product 0 ends with stock 1 while the order still holds its unit | a refused edit changes nothing | not executed | Update.PartialCommitExample | Views.Store.OrderUpdateBalanced |
| inventory/views.py:300-327 | `stock_change` compares the new quantity with the initial quantity of the new product, so an existing item moved to another product never gives the old product its stock back | an order holds 2 of product 0 (stock 10); the edit switches the item to product 1; product 1 drops to 8, product 0 stays at 10 while the order no longer holds it | every product's stock plus what the order holds of it is kept by an edit | not executed | Update.SwitchedProductExample | Update.BalancedConserves |
| inventory/views.py:313-341 | both loops save `stock_quantity` from each form's own copy of its product, loaded during validation, so a later save of a product through another form's copy overwrites an earlier save of it | an order holds one unit each of products 0 and 1, with stocks 0 and 5; the edit switches the first item to product 1 and deletes it, and raises the second to 2; the first loop writes 6 for product 1, the second writes 5 - 1 from its own copy, and the unit put back is lost | every save builds on the stock as it stands, and every product's stock plus what the order holds of it is kept | not executed | Update.CopiesOverwriteExample | Update.BalancedConserves |
| inventory/views.py:306-317 | the formset ignores the validation errors of forms marked for deletion, so a deleted existing item's submitted quantity is restored as it stands, even when it is 0 or negative | an order holds 3 of product 0 (stock 0); the edit deletes the item with its quantity field set to -2; product 0 ends with stock -2 and the order holds nothing | a deleted item returns the quantity the order held | not executed | Update.NegativeRestoreExample | Update.BalancedConserves |
| inventory/models.py:23 | the price validator's limit is the float `0.01`, which is a little more than one cent, and Python compares the Decimal price with it exactly, so a price of 0.01 is refused | a product priced 0.01 | the cheapest valid price is 0.01 | not executed | Models.PriceFloorRefusesOneCent | Models.PriceFloorAcceptsOneCent |
