/**
 The request handlers of `inventory/views.py` that change data, over an
 in-memory store standing for the database: order creation, update and
 deletion with their stock adjustments, and the deletion guards for
 categories, products and customers.
 */
module Views {
  import opened Models
  import opened Stock
  import opened Update

  /** Why a handler changed nothing (or, for `InsufficientStock` in the
      as-written update, why it stopped). */
  datatype Failure =
    | NotFound                              // get_object_or_404 / get_object
    | Invalid                               // a form or formset did not validate
    | InsufficientStock(product: ProductId) // a quantity rise the stock cannot cover
    | HasDependents                         // a deletion guard refused
    | Protected                             // on_delete=PROTECT refused the deletion

  datatype Outcome = Pass | Fail(failure: Failure)

  datatype Result<T> = Ok(value: T) | Err(failure: Failure)

  /** The fields of the order form that the model keeps: customer, amount
      paid and status. */
  datatype OrderFields = OrderFields(customer: CustomerId, amountPaid: Cents, status: Status)

  /** The order form validates: the customer exists and the payment is not
      negative (`MinValueValidator(0.00)`). */
  predicate FieldsValid(fields: OrderFields, customers: set<CustomerId>) {
    fields.customer in customers && fields.amountPaid >= 0
  }

  /** The row an order handler saves: the form's fields, the items, and the
      total and status the calculator derives from them. */
  function Saved(fields: OrderFields, items: seq<OrderItem>): OrderRow {
    var total := ItemsTotal(items);
    OrderRow(fields.customer, total, fields.amountPaid, NextStatus(fields.status, fields.amountPaid, total), items)
  }

  /** Some item of `items` is for product `p`. */
  predicate Holds(items: seq<OrderItem>, p: ProductId) {
    exists k :: 0 <= k < |items| && items[k].product == p
  }

  /** Some product of `ps` is in category `c`. */
  predicate HasProducts(ps: Catalog, c: CategoryId) {
    exists p :: p in ps && ps[p].category == c
  }

  /** Some order is for customer `c`. */
  predicate HasOrders(rows: map<OrderId, OrderRow>, c: CustomerId) {
    exists i :: i in rows && rows[i].customer == c
  }

  /** Some order that is not CANCELLED holds product `p`. */
  predicate OpenHold(rows: map<OrderId, OrderRow>, p: ProductId) {
    exists i :: i in rows && rows[i].status != Cancelled && Holds(rows[i].items, p)
  }

  /** Some order, whatever its status, holds product `p`. */
  predicate AnyHold(rows: map<OrderId, OrderRow>, p: ProductId) {
    exists i :: i in rows && Holds(rows[i].items, p)
  }

  /** What every stored order keeps true: known customer, non-negative
      payment, known products with positive quantities, one item per product,
      and a total and a status that are current. */
  predicate RowSound(row: OrderRow, customers: set<CustomerId>, products: Catalog) {
    && row.customer in customers
    && row.amountPaid >= 0
    && ItemsIn(products, row.items)
    && (forall k :: 0 <= k < |row.items| ==> row.items[k].quantity >= 1)
    && DistinctProducts(row.items)
    && row.totalAmount == ItemsTotal(row.items)
    && row.status == NextStatus(row.status, row.amountPaid, row.totalAmount)
  }

  /** Every row of `rows` is sound. */
  ghost predicate AllSound(rows: map<OrderId, OrderRow>, customers: set<CustomerId>, products: Catalog) {
    forall i :: i in rows ==> RowSound(rows[i], customers, products)
  }

  /** Soundness survives new customers, new products and any change of stock. */
  lemma SoundWiden(rows: map<OrderId, OrderRow>, customers: set<CustomerId>, products: Catalog,
                   customers': set<CustomerId>, products': Catalog)
    requires AllSound(rows, customers, products)
    requires customers <= customers' && products.Keys <= products'.Keys
    ensures AllSound(rows, customers', products')
  {
    forall i | i in rows
      ensures RowSound(rows[i], customers', products')
    {
      assert ItemsIn(products, rows[i].items);
    }
  }

  lemma SoundInsert(rows: map<OrderId, OrderRow>, customers: set<CustomerId>, products: Catalog, id: OrderId, row: OrderRow)
    requires AllSound(rows, customers, products) && RowSound(row, customers, products)
    ensures AllSound(rows[id := row], customers, products)
  {
  }

  lemma SoundRemove(rows: map<OrderId, OrderRow>, customers: set<CustomerId>, products: Catalog, id: OrderId)
    requires AllSound(rows, customers, products)
    ensures AllSound(rows - {id}, customers, products)
  {
  }

  lemma SoundWithoutCustomer(rows: map<OrderId, OrderRow>, customers: set<CustomerId>, products: Catalog, c: CustomerId)
    requires AllSound(rows, customers, products)
    requires !HasOrders(rows, c)
    ensures AllSound(rows, customers - {c}, products)
  {
  }

  lemma SoundWithoutProduct(rows: map<OrderId, OrderRow>, customers: set<CustomerId>, products: Catalog, p: ProductId)
    requires AllSound(rows, customers, products)
    requires !AnyHold(rows, p)
    ensures AllSound(rows, customers, products - {p})
  {
    forall i | i in rows
      ensures RowSound(rows[i], customers, products - {p})
    {
      var items := rows[i].items;
      forall k | 0 <= k < |items|
        ensures items[k].product in products - {p}
      {
        assert items[k].product in products;
        assert !Holds(items, p);
      }
    }
  }

  /** A saved row is sound. */
  lemma SavedIsSound(fields: OrderFields, items: seq<OrderItem>, customers: set<CustomerId>, products: Catalog)
    requires FieldsValid(fields, customers) && ItemsIn(products, items) && DistinctProducts(items)
    requires forall k :: 0 <= k < |items| ==> items[k].quantity >= 1
    ensures RowSound(Saved(fields, items), customers, products)
  {
    NextStatusIdempotent(fields.status, fields.amountPaid, ItemsTotal(items));
  }

  /** What the database keeps true between requests: every product's
      category exists, each key is below the next one handed out, and every
      order row is sound. */
  ghost predicate Consistent(categories: set<CategoryId>, customers: set<CustomerId>, products: Catalog,
                             orders: map<OrderId, OrderRow>, nextId: nat) {
    && (forall p :: p in products ==> products[p].category in categories && p < nextId)
    && (forall c :: c in categories ==> c < nextId)
    && (forall c :: c in customers ==> c < nextId)
    && (forall i :: i in orders ==> i < nextId)
    && AllSound(orders, customers, products)
  }

  /** Stock changes keep the database consistent. */
  lemma ConsistentRestock(categories: set<CategoryId>, customers: set<CustomerId>, products: Catalog, products': Catalog,
                          orders: map<OrderId, OrderRow>, nextId: nat)
    requires Consistent(categories, customers, products, orders, nextId)
    requires products'.Keys == products.Keys
    requires forall q :: q in products ==> products'[q].category == products[q].category
    ensures Consistent(categories, customers, products', orders, nextId)
  {
    SoundWiden(orders, customers, products, customers, products');
  }

  /** Saving a row built from valid fields and sound items keeps the
      database consistent. */
  lemma ConsistentSave(categories: set<CategoryId>, customers: set<CustomerId>, products: Catalog,
                       orders: map<OrderId, OrderRow>, nextId: nat, id: OrderId, fields: OrderFields, items: seq<OrderItem>)
    requires Consistent(categories, customers, products, orders, nextId) && id < nextId
    requires FieldsValid(fields, customers) && ItemsIn(products, items) && DistinctProducts(items)
    requires forall k :: 0 <= k < |items| ==> items[k].quantity >= 1
    ensures Consistent(categories, customers, products, orders[id := Saved(fields, items)], nextId)
  {
    SavedIsSound(fields, items, customers, products);
    SoundInsert(orders, customers, products, id, Saved(fields, items));
  }

  /** `order_create` keeps the database consistent: the stock drops by the
      withdrawals and the new order's row is saved under a fresh key. */
  lemma ConsistentCreate(categories: set<CategoryId>, customers: set<CustomerId>, products: Catalog,
                         orders: map<OrderId, OrderRow>, nextId: nat, fields: OrderFields, forms: seq<ItemForm>)
    requires Consistent(categories, customers, products, orders, nextId)
    requires FieldsValid(fields, customers) && FormsValid(forms, [], products)
    ensures var items := EditedItems([], forms, products);
      && Covers(products, Withdrawals(items))
      && Consistent(categories, customers, Shift(products, Withdrawals(items)), orders[nextId := Saved(fields, items)], nextId + 1)
  {
    var items := EditedItems([], forms, products);
    ItemsInCover(products, items);
    var after := Shift(products, Withdrawals(items));
    ConsistentRestock(categories, customers, products, after, orders, nextId);
    assert Consistent(categories, customers, after, orders, nextId + 1);
    assert ItemsIn(after, items);
    ConsistentSave(categories, customers, after, orders, nextId + 1, nextId, fields, items);
  }

  /** `order_update` as written keeps the database consistent, however its
      stock loop ends. */
  lemma ConsistentUpdate(categories: set<CategoryId>, customers: set<CustomerId>, products: Catalog,
                         orders: map<OrderId, OrderRow>, nextId: nat, id: OrderId, fields: OrderFields, forms: seq<ItemForm>)
    requires Consistent(categories, customers, products, orders, nextId) && id in orders
    requires FieldsValid(fields, customers) && FormsValid(forms, orders[id].items, products)
    ensures var run := UpdateRun(products, orders[id].items, forms);
      && Consistent(categories, customers, run.catalog, orders, nextId)
      && Consistent(categories, customers, run.catalog, orders[id := Saved(fields, EditedItems(orders[id].items, forms, products))], nextId)
  {
    var run := UpdateRun(products, orders[id].items, forms);
    ConsistentRestock(categories, customers, products, run.catalog, orders, nextId);
    var edited := EditedItems(orders[id].items, forms, products);
    assert ItemsIn(run.catalog, edited);
    ConsistentSave(categories, customers, run.catalog, orders, nextId, id, fields, edited);
  }

  /** The check of an all-or-nothing edit: every edited item's rise over the
      quantity held before is compared with the stock, before anything is
      written. It finds a shortage exactly when some product is short. */
  method FindShortage(ps: Catalog, items: seq<OrderItem>, edited: seq<OrderItem>) returns (r: Outcome)
    requires DistinctProducts(items) && DistinctProducts(edited) && ItemsIn(ps, edited)
    requires forall i :: 0 <= i < |items| ==> items[i].quantity >= 1
    ensures r.Pass? <==> forall q :: !Short(ps, items, edited, q)
    ensures r.Fail? ==> r.failure.InsufficientStock? && Short(ps, items, edited, r.failure.product)
  {
    var initial := InitialQuantities(items);
    for k := 0 to |edited|
      invariant forall j :: 0 <= j < k ==> !Short(ps, items, edited, edited[j].product)
    {
      var e := edited[k];
      var change := e.quantity - Original(initial, e.product);
      InitialIsQuantity(items, e.product);
      QuantityOfDistinct(edited, k);
      if change > 0 && ps[e.product].stock < change {
        assert Short(ps, items, edited, e.product);
        return Fail(InsufficientStock(e.product));
      }
    }
    forall q
      ensures !Short(ps, items, edited, q)
    {
      if Short(ps, items, edited, q) {
        ShortAppears(ps, items, edited, q);
      }
    }
    r := Pass;
  }

  /** One product save per item, putting the item's quantity back. */
  method ReturnStock(ps: Catalog, items: seq<OrderItem>) returns (r: Catalog)
    requires ItemsIn(ps, items)
    ensures Covers(ps, Returns(items)) && r == Shift(ps, Returns(items))
  {
    ItemsInCover(ps, items);
    r := ps;
    for i := 0 to |items|
      invariant r == Shift(ps, Returns(items[..i]))
    {
      var p := items[i].product;
      assert items[..i + 1][..i] == items[..i];
      assert Returns(items[..i + 1])[..i] == Returns(items[..i]);
      r := r[p := r[p].(stock := r[p].stock + items[i].quantity)];
    }
    assert items[..|items|] == items;
  }

  /** One product save per item, taking the item's quantity out. */
  method TakeStock(ps: Catalog, items: seq<OrderItem>) returns (r: Catalog)
    requires ItemsIn(ps, items)
    ensures Covers(ps, Withdrawals(items)) && r == Shift(ps, Withdrawals(items))
  {
    ItemsInCover(ps, items);
    r := ps;
    for i := 0 to |items|
      invariant r == Shift(ps, Withdrawals(items[..i]))
    {
      var p := items[i].product;
      assert items[..i + 1][..i] == items[..i];
      assert Withdrawals(items[..i + 1])[..i] == Withdrawals(items[..i]);
      r := r[p := r[p].(stock := r[p].stock - items[i].quantity)];
    }
    assert items[..|items|] == items;
  }

  /** The first loop of `order_update`: each deleted existing item's
      quantity goes back to its product, saved through the form's own copy
      of the product as it was before the loop, or, for a form whose product
      field failed, through the product loaded at that point. */
  method RestoreDeleted(ps: Catalog, forms: seq<ItemForm>) returns (r: Catalog)
    requires FormsIn(ps, forms)
    ensures r == Restored(ps, forms)
  {
    r := ps;
    for i := 0 to |forms|
      invariant FormsIn(ps, forms[..i])
      invariant r == Restored(ps, forms[..i])
    {
      var f := forms[i];
      RestoredNext(ps, forms, i);
      if f.existing && f.delete {
        var product := if f.reloads then r[f.product] else ps[f.product];
        r := r[f.product := product.(stock := product.stock + f.quantity)];
      }
    }
    assert forms[..|forms|] == forms;
  }

  /** The second loop of `order_update`, from catalogue `ps`: each changed,
      undeleted form moves stock by `stock_change`, checked against and saved
      through the form's own copy of its product in `snap`; a rise the copy
      cannot cover returns at once, keeping the saves made so far. */
  method AdjustChanged(ps: Catalog, snap: Catalog, forms: seq<ItemForm>, initial: map<ProductId, int>)
      returns (r: Outcome, after: Catalog)
    requires SameGoods(snap, ps) && AdjustedIn(snap, forms)
    ensures var run := ChangeStock(ps, snap, forms, initial);
              && after == run.catalog
              && (run.Completed? ==> r == Pass)
              && (run.Stopped? ==> r == Fail(InsufficientStock(run.at)))
  {
    after := ps;
    for i := 0 to |forms|
      invariant ChangeStock(ps, snap, forms[..i], initial) == Completed(after)
    {
      var f := forms[i];
      assert forms[..i + 1][..i] == forms[..i];
      assert ChangeStock(ps, snap, forms[..i + 1], initial) == Step(after, snap, f, initial);
      if f.changed && !f.delete {
        var product := snap[f.product];
        var change := f.quantity - (if f.product in initial then initial[f.product] else 0);
        assert change == StockChange(f, initial);
        if change > 0 {
          if product.stock < change {
            StoppedIsFinal(ps, snap, forms, initial, i + 1);
            return Fail(InsufficientStock(f.product)), after;
          }
        }
        assert Step(after, snap, f, initial) == Completed(after[f.product := product.(stock := product.stock - change)]);
        after := after[f.product := product.(stock := product.stock - change)];
      }
    }
    assert forms[..|forms|] == forms;
    r := Pass;
  }

  /** The end of each order handler: the loaded order takes its items, then
      `calculate_total`, `update_status` and `save`; the row saved holds the
      form's fields and the derived total and status. */
  method Commit(order: Order, fields: OrderFields, items: seq<OrderItem>) returns (row: OrderRow)
    requires order.customer == fields.customer && order.amountPaid == fields.amountPaid && order.status == fields.status
    modifies order
    ensures row == order.Row() == Saved(fields, items)
  {
    order.items := items;
    var total := order.CalculateTotal();
    order.UpdateStatus();
    row := order.Row();
  }

  /** One pass of the item loop of `order_create`: a changed, undeleted form
      saves its item at its product's price and takes the quantity out of
      its product's stock, both read from the copy of the product in `ps`
      that the form loaded during validation; any other form is skipped. */
  method SaveNewItem(ps: Catalog, forms: seq<ItemForm>, i: nat, items: seq<OrderItem>, stock: Catalog)
      returns (items': seq<OrderItem>, stock': Catalog)
    requires FormsValid(forms, [], ps) && i < |forms|
    requires items == EditedUpTo([], forms, ps, i) && ItemsIn(ps, items)
    requires stock == Overwrite(ps, Withdrawals(items))
    ensures items' == EditedUpTo([], forms, ps, i + 1) && ItemsIn(ps, items')
    ensures Covers(ps, Withdrawals(items')) && stock' == Overwrite(ps, Withdrawals(items'))
  {
    var f := forms[i];
    assert EditedUpTo([], forms, ps, i + 1) == items + EditedRow([], forms, ps, i);
    if f.changed && !f.delete {
      var p := f.product;
      var product := ps[p];
      var item := OrderItem(p, f.quantity, 0);
      if item.priceAtOrder == 0 {
        item := item.(priceAtOrder := product.price);
      }
      item := item.(priceAtOrder := SavedPrice(true, item.priceAtOrder, product.price));
      assert EditedRow([], forms, ps, i) == [item];
      WithdrawOne(ps, items, item);
      items' := items + [item];
      stock' := stock[p := product.(stock := product.stock - item.quantity)];
    } else {
      assert EditedRow([], forms, ps, i) == [];
      assert items + [] == items;
      items', stock' := items, stock;
    }
  }

  /** The item loop of `order_create`: every changed, undeleted form saves
      its item at the product's current price and takes its quantity out of
      stock, with no check that the stock suffices. The saves go through the
      forms' copies of their products, and since no two items share a
      product that is the same as reading each product afresh. */
  method SaveNewItems(ps: Catalog, forms: seq<ItemForm>) returns (items: seq<OrderItem>, after: Catalog)
    requires FormsValid(forms, [], ps)
    ensures items == EditedItems([], forms, ps) && Covers(ps, Withdrawals(items))
    ensures after == Overwrite(ps, Withdrawals(items)) && after == Shift(ps, Withdrawals(items))
  {
    items := [];
    after := ps;
    for i := 0 to |forms|
      invariant items == EditedUpTo([], forms, ps, i)
      invariant ItemsIn(ps, items)
      invariant Covers(ps, Withdrawals(items)) && after == Overwrite(ps, Withdrawals(items))
    {
      items, after := SaveNewItem(ps, forms, i, items, after);
    }
    assert items == EditedUpTo([], forms, ps, |forms|) == EditedItems([], forms, ps);
    assert DistinctProducts(items);
    var moves := Withdrawals(items);
    assert forall a, b :: 0 <= a < b < |moves| ==> moves[a].product != moves[b].product by {
      forall a, b | 0 <= a < b < |moves|
        ensures moves[a].product != moves[b].product
      {
        assert moves[a].product == items[a].product && moves[b].product == items[b].product;
      }
    }
    OverwriteIsShift(ps, moves);
  }

  /**
   `order_create` from the validated order form on: the order is built from
   the form's fields, its items are saved, then the total and the status are
   refreshed and the order saved again.
   */
  method CreateOrder(ps: Catalog, fields: OrderFields, forms: seq<ItemForm>) returns (after: Catalog, saved: OrderRow)
    requires FormsValid(forms, [], ps)
    ensures var items := EditedItems([], forms, ps);
              after == Shift(ps, Withdrawals(items)) && saved == Saved(fields, items)
  {
    var order := new Order(fields.customer, fields.amountPaid, fields.status);
    var items;
    items, after := SaveNewItems(ps, forms);
    saved := Commit(order, fields, items);
  }

  /**
   `order_update` as written, from the validated forms on. The form's fields
   go onto the loaded order; each deleted existing item's quantity goes back
   to stock; then each changed or new item moves stock by its
   `stock_change`, and a rise the stock cannot cover ends the request at
   once: the stock written so far stays written, the order is not saved.
   Otherwise the order is saved with the edited items and a refreshed total
   and status.
   */
  method UpdateOrder(ps: Catalog, row: OrderRow, fields: OrderFields, forms: seq<ItemForm>)
      returns (r: Outcome, after: Catalog, saved: OrderRow)
    requires FormsValid(forms, row.items, ps)
    ensures var run := UpdateRun(ps, row.items, forms);
              && after == run.catalog
              && (run.Stopped? ==> r == Fail(InsufficientStock(run.at)) && saved == row)
              && (run.Completed? ==> r == Pass && saved == Saved(fields, EditedItems(row.items, forms, ps)))
  {
    var order := new Order.Load(row);
    var items := order.items;
    order.customer := fields.customer;
    order.amountPaid := fields.amountPaid;
    order.status := fields.status;
    r, after := UpdateStock(ps, items, forms);
    saved := row;
    if r.Fail? {
      return;
    }
    var edited := EditedItems(items, forms, ps);
    saved := Commit(order, fields, edited);
  }

  /** The stock part of `order_update`: `initial_quantities` over the stored
      items, then the restore loop and the stock loop. */
  method UpdateStock(ps: Catalog, items: seq<OrderItem>, forms: seq<ItemForm>) returns (r: Outcome, after: Catalog)
    requires FormsIn(ps, forms)
    ensures var run := UpdateRun(ps, items, forms);
              && after == run.catalog
              && (run.Completed? ==> r == Pass)
              && (run.Stopped? ==> r == Fail(InsufficientStock(run.at)))
  {
    var initial := InitialQuantities(items);
    after := RestoreDeleted(ps, forms);
    r, after := AdjustChanged(after, ps, forms, initial);
  }

  /**
   An all-or-nothing `order_update`: every rise in quantity is checked
   against the stock before anything is written, and a shortage refuses the
   whole edit. Otherwise the stock takes back what the order held and gives
   what it now holds, and the order is saved with the edited items.
   */
  method UpdateOrderBalanced(ps: Catalog, row: OrderRow, fields: OrderFields, forms: seq<ItemForm>)
      returns (r: Outcome, after: Catalog, saved: OrderRow)
    requires FormsValid(forms, row.items, ps) && ItemsIn(ps, row.items)
    requires DistinctProducts(row.items) && forall k :: 0 <= k < |row.items| ==> row.items[k].quantity >= 1
    ensures var edited := EditedItems(row.items, forms, ps);
              && (r.Fail? <==> exists q :: Short(ps, row.items, edited, q))
              && (r.Fail? ==> r.failure.InsufficientStock? && Short(ps, row.items, edited, r.failure.product)
                              && after == ps && saved == row)
              && (r.Pass? ==> after == Shift(ps, BalancedMoves(row.items, edited)) && saved == Saved(fields, edited))
  {
    var order := new Order.Load(row);
    var items := order.items;
    var edited := EditedItems(items, forms, ps);
    after, saved := ps, row;
    r := FindShortage(ps, items, edited);
    if r.Fail? {
      return;
    }
    var restored := ReturnStock(ps, items);
    assert ItemsIn(restored, edited);
    after := TakeStock(restored, edited);
    ItemsInCover(ps, edited);
    ShiftAppend(ps, Returns(items), Withdrawals(edited));
    order.customer := fields.customer;
    order.amountPaid := fields.amountPaid;
    order.status := fields.status;
    saved := Commit(order, fields, edited);
  }

  /** The database: tables of categories, customers, products and orders.
      An order's row carries its items, standing for the order item rows
      that point at it. */
  class Store {
    var categories: set<CategoryId>
    var customers: set<CustomerId>
    var products: Catalog
    var orders: map<OrderId, OrderRow>
    /** The next primary key the database hands out. */
    var nextId: nat

    ghost predicate Valid()
      reads this
    {
      Consistent(categories, customers, products, orders, nextId)
    }

    constructor ()
      ensures Valid()
      ensures categories == {} && customers == {} && products == map[] && orders == map[]
    {
      categories, customers, products, orders := {}, {}, map[], map[];
      nextId := 0;
    }

    /** `CategoryCreateView`: a new category. */
    method AddCategory() returns (c: CategoryId)
      requires Valid()
      modifies this
      ensures Valid()
      ensures c !in old(categories) && categories == old(categories) + {c}
      ensures customers == old(customers) && products == old(products) && orders == old(orders)
    {
      c := nextId;
      nextId := nextId + 1;
      categories := categories + {c};
    }

    /** `CustomerCreateView` and `quick_customer_create`: a new customer. */
    method AddCustomer() returns (c: CustomerId)
      requires Valid()
      modifies this
      ensures Valid()
      ensures c !in old(customers) && customers == old(customers) + {c}
      ensures categories == old(categories) && products == old(products) && orders == old(orders)
    {
      c := nextId;
      nextId := nextId + 1;
      customers := customers + {c};
      SoundWiden(orders, old(customers), products, customers, products);
    }

    /** `ProductCreateView`: a new product, if the product form validates: a
        known category, a price that `MinValueValidator(0.01)` passes, which is
        more than 0.01, and a stock of at least 0. */
    method AddProduct(category: CategoryId, price: Cents, stock: int) returns (r: Result<ProductId>)
      requires Valid()
      modifies this
      ensures Valid()
      ensures categories == old(categories) && customers == old(customers) && orders == old(orders)
      ensures r.Err? <==> !(category in old(categories) && PriceFloorAsWritten(price) && stock >= 0)
      ensures r.Err? ==> r.failure == Invalid && products == old(products)
      ensures r.Ok? ==> r.value !in old(products) && products == old(products)[r.value := Product(category, price, stock)]
    {
      if !(category in categories && PriceFloorAsWritten(price) && stock >= 0) {
        return Err(Invalid);
      }
      var p := nextId;
      nextId := nextId + 1;
      products := products[p := Product(category, price, stock)];
      SoundWiden(orders, customers, old(products), customers, products);
      r := Ok(p);
    }

    /** `order_create`: a new order, if the order form and the item formset
        validate. */
    method OrderCreate(fields: OrderFields, forms: seq<ItemForm>) returns (r: Result<OrderId>)
      requires Valid()
      modifies this
      ensures Valid()
      ensures categories == old(categories) && customers == old(customers)
      ensures r.Err? <==> !(FieldsValid(fields, old(customers)) && FormsValid(forms, [], old(products)))
      ensures r.Err? ==> r.failure == Invalid && products == old(products) && orders == old(orders)
      ensures r.Ok? ==>
                var items := EditedItems([], forms, old(products));
                && r.value !in old(orders)
                && products == Shift(old(products), Withdrawals(items))
                && orders == old(orders)[r.value := Saved(fields, items)]
    {
      if !(FieldsValid(fields, customers) && FormsValid(forms, [], products)) {
        return Err(Invalid);
      }
      var id := nextId;
      nextId := nextId + 1;
      var row;
      products, row := CreateOrder(products, fields, forms);
      orders := orders[id := row];
      ConsistentCreate(categories, customers, old(products), old(orders), id, fields, forms);
      r := Ok(id);
    }

    /** `order_update` as written, on the stored order `id`. */
    method OrderUpdate(id: OrderId, fields: OrderFields, forms: seq<ItemForm>) returns (r: Outcome)
      requires Valid()
      modifies this
      ensures Valid()
      ensures categories == old(categories) && customers == old(customers) && orders.Keys == old(orders).Keys
      ensures id !in old(orders) ==> r == Fail(NotFound) && products == old(products) && orders == old(orders)
      ensures id in old(orders) && !(FieldsValid(fields, old(customers)) && FormsValid(forms, old(orders)[id].items, old(products))) ==>
                r == Fail(Invalid) && products == old(products) && orders == old(orders)
      ensures id in old(orders) && FieldsValid(fields, old(customers)) && FormsValid(forms, old(orders)[id].items, old(products)) ==>
                var run := UpdateRun(old(products), old(orders)[id].items, forms);
                && products == run.catalog
                && (run.Stopped? ==> r == Fail(InsufficientStock(run.at)) && orders == old(orders))
                && (run.Completed? ==> r == Pass && orders == old(orders)[id := Saved(fields, EditedItems(old(orders)[id].items, forms, old(products)))])
    {
      if id !in orders {
        return Fail(NotFound);
      }
      var row := orders[id];
      if !(FieldsValid(fields, customers) && FormsValid(forms, row.items, products)) {
        return Fail(Invalid);
      }
      ConsistentUpdate(categories, customers, products, orders, nextId, id, fields, forms);
      var saved;
      r, products, saved := UpdateOrder(products, row, fields, forms);
      if r.Pass? {
        orders := orders[id := saved];
      }
    }

    /** The all-or-nothing `order_update` on the stored order `id`. */
    method OrderUpdateBalanced(id: OrderId, fields: OrderFields, forms: seq<ItemForm>) returns (r: Outcome)
      requires Valid()
      modifies this
      ensures Valid()
      ensures categories == old(categories) && customers == old(customers) && orders.Keys == old(orders).Keys
      ensures id !in old(orders) ==> r == Fail(NotFound) && products == old(products) && orders == old(orders)
      ensures id in old(orders) && !(FieldsValid(fields, old(customers)) && FormsValid(forms, old(orders)[id].items, old(products))) ==>
                r == Fail(Invalid) && products == old(products) && orders == old(orders)
      ensures id in old(orders) && FieldsValid(fields, old(customers)) && FormsValid(forms, old(orders)[id].items, old(products)) ==>
                var items := old(orders)[id].items;
                var edited := EditedItems(items, forms, old(products));
                && (r.Fail? <==> exists q :: Short(old(products), items, edited, q))
                && (r.Fail? ==> r.failure.InsufficientStock? && Short(old(products), items, edited, r.failure.product)
                                && products == old(products) && orders == old(orders))
                && (r.Pass? ==> products == Shift(old(products), BalancedMoves(items, edited))
                                && orders == old(orders)[id := Saved(fields, edited)])
    {
      if id !in orders {
        return Fail(NotFound);
      }
      var row := orders[id];
      if !(FieldsValid(fields, customers) && FormsValid(forms, row.items, products)) {
        return Fail(Invalid);
      }
      assert RowSound(row, customers, products);
      var saved;
      r, products, saved := UpdateOrderBalanced(products, row, fields, forms);
      ConsistentRestock(categories, customers, old(products), products, orders, nextId);
      if r.Pass? {
        orders := orders[id := saved];
        ConsistentSave(categories, customers, products, old(orders), nextId, id, fields, EditedItems(row.items, forms, old(products)));
      }
    }

    /**
     `OrderDeleteView.post`: every item's quantity goes back to its product,
     then the order and its items are deleted.
     */
    method OrderDelete(id: OrderId) returns (r: Outcome)
      requires Valid()
      modifies this
      ensures Valid()
      ensures categories == old(categories) && customers == old(customers)
      ensures id !in old(orders) ==> r == Fail(NotFound) && products == old(products) && orders == old(orders)
      ensures id in old(orders) ==>
                && r == Pass
                && products == Shift(old(products), Returns(old(orders)[id].items))
                && orders == old(orders) - {id}
    {
      if id !in orders {
        return Fail(NotFound);
      }
      var items := orders[id].items;
      products := ReturnStock(products, items);
      orders := orders - {id};
      SoundRemove(old(orders), customers, old(products), id);
      SoundWiden(orders, customers, old(products), customers, products);
      r := Pass;
    }

    /** `CategoryDeleteView.post`: a category that still has products is not
        deleted. */
    method DeleteCategory(c: CategoryId) returns (r: Outcome)
      requires Valid()
      modifies this
      ensures Valid()
      ensures customers == old(customers) && products == old(products) && orders == old(orders)
      ensures c !in old(categories) ==> r == Fail(NotFound) && categories == old(categories)
      ensures c in old(categories) && HasProducts(old(products), c) ==>
                r == Fail(HasDependents) && categories == old(categories)
      ensures c in old(categories) && !HasProducts(old(products), c) ==>
                r == Pass && categories == old(categories) - {c}
    {
      if c !in categories {
        return Fail(NotFound);
      }
      if HasProducts(products, c) {
        return Fail(HasDependents);
      }
      categories := categories - {c};
      r := Pass;
    }

    /** `CustomerDeleteView.post`: a customer that still has orders is not
        deleted. */
    method DeleteCustomer(c: CustomerId) returns (r: Outcome)
      requires Valid()
      modifies this
      ensures Valid()
      ensures categories == old(categories) && products == old(products) && orders == old(orders)
      ensures c !in old(customers) ==> r == Fail(NotFound) && customers == old(customers)
      ensures c in old(customers) && HasOrders(old(orders), c) ==>
                r == Fail(HasDependents) && customers == old(customers)
      ensures c in old(customers) && !HasOrders(old(orders), c) ==>
                r == Pass && customers == old(customers) - {c}
    {
      if c !in customers {
        return Fail(NotFound);
      }
      if HasOrders(orders, c) {
        return Fail(HasDependents);
      }
      SoundWithoutCustomer(orders, customers, products, c);
      customers := customers - {c};
      r := Pass;
    }

    /**
     `ProductDeleteView.post`: a product in an order that is not CANCELLED is
     not deleted. One that only cancelled orders still hold passes the guard,
     but `on_delete=PROTECT` on the order item then refuses the deletion.
     */
    method DeleteProduct(p: ProductId) returns (r: Outcome)
      requires Valid()
      modifies this
      ensures Valid()
      ensures categories == old(categories) && customers == old(customers) && orders == old(orders)
      ensures p !in old(products) ==> r == Fail(NotFound) && products == old(products)
      ensures p in old(products) && OpenHold(old(orders), p) ==>
                r == Fail(HasDependents) && products == old(products)
      ensures p in old(products) && !OpenHold(old(orders), p) && AnyHold(old(orders), p) ==>
                r == Fail(Protected) && products == old(products)
      ensures p in old(products) && !AnyHold(old(orders), p) ==>
                r == Pass && products == old(products) - {p}
    {
      if p !in products {
        return Fail(NotFound);
      }
      if OpenHold(orders, p) {
        return Fail(HasDependents);
      }
      if AnyHold(orders, p) {
        return Fail(Protected);
      }
      SoundWithoutProduct(orders, customers, products, p);
      products := products - {p};
      r := Pass;
    }
  }
}
