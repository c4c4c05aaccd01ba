/**
 The order edit of `order_update` in `inventory/views.py`: the submitted item
 formset, what Django's validation guarantees of it, the two stock loops as
 written, the item set the edit leaves, and a balanced alternative.
 */
module Update {
  import opened Models
  import opened Stock

  /**
   One form of the inline item formset, as bound to the request: whether it
   edits an existing item (`instance.pk` is set), the product and quantity its
   instance carries once the formset is validated, whether its data differs
   from its initial data (`has_changed`), and its DELETE box. Existing forms
   come first, form `i` editing item `i`. A deleted form's instance takes the
   submitted values that pass their field checks and keeps the stored ones
   otherwise. The form field takes any integer: `MinValueValidator(1)` is a
   model validator, it runs only in the instance's `full_clean`, and the
   formset ignores the errors of forms marked for deletion. So a deleted
   form's quantity may be 0 or negative. The product is the object the
   product field fetched during validation, a copy of the row as it was
   then; `reloads` marks a form whose product field failed, so that its
   instance keeps the stored product id and the product row is only loaded
   when the handler first reads it.
   */
  datatype ItemForm = ItemForm(existing: bool, product: ProductId, quantity: int, changed: bool, delete: bool, reloads: bool)

  /** A form of `deleted_forms` whose instance has a primary key. */
  predicate Restores(f: ItemForm) {
    f.existing && f.delete
  }

  /** A form the second loop adjusts stock for: changed and not deleted. */
  predicate Adjusts(f: ItemForm) {
    f.changed && !f.delete
  }

  /** A form whose item the order holds once the formset is saved. */
  predicate Kept(f: ItemForm) {
    (f.existing || f.changed) && !f.delete
  }

  /** Every form whose product the handlers look at names a product of `ps`. */
  predicate FormsIn(ps: Catalog, forms: seq<ItemForm>) {
    forall i :: 0 <= i < |forms| && (forms[i].existing || Adjusts(forms[i])) ==> forms[i].product in ps
  }

  /**
   What `item_formset.is_valid()` guarantees of a formset over the order
   items `items`: one form per item, in front; an unchanged form carries its
   item's data; products exist; kept items have a quantity of at least 1
   (`MinValueValidator(1)`, whose errors count only for forms not marked for
   deletion); a form whose product field failed is marked for deletion,
   differs from its initial data and keeps its stored product; no two kept
   items share a product, and no kept item shares a product with another
   stored item, deleted or not, since the deletions are only written after
   validation (`unique_together`).
   */
  predicate FormsValid(forms: seq<ItemForm>, items: seq<OrderItem>, ps: Catalog) {
    && |items| <= |forms|
    && (forall i :: 0 <= i < |forms| ==> (forms[i].existing <==> i < |items|))
    && (forall i :: 0 <= i < |items| && !forms[i].changed ==>
          forms[i].product == items[i].product && forms[i].quantity == items[i].quantity)
    && FormsIn(ps, forms)
    && (forall i :: 0 <= i < |forms| && Kept(forms[i]) ==> forms[i].quantity >= 1)
    && (forall i :: 0 <= i < |forms| && forms[i].reloads ==> forms[i].delete && forms[i].changed)
    && (forall i :: 0 <= i < |items| && forms[i].reloads ==> forms[i].product == items[i].product)
    && (forall i, j :: 0 <= i < j < |forms| && Kept(forms[i]) && Kept(forms[j]) ==>
          forms[i].product != forms[j].product)
    && (forall i, j :: 0 <= i < |forms| && 0 <= j < |items| && i != j && Kept(forms[i]) ==>
          forms[i].product != items[j].product)
  }

  /** The stock moves of the first loop of `order_update`, in order: each
      deleted existing form puts its quantity back to its product. */
  function Restorations(forms: seq<ItemForm>): seq<Move> {
    if forms == [] then []
    else
      var f := forms[|forms| - 1];
      Restorations(forms[..|forms| - 1]) + (if Restores(f) then [Move(f.product, f.quantity)] else [])
  }

  lemma {:induction false} RestorationsCover(ps: Catalog, forms: seq<ItemForm>)
    requires FormsIn(ps, forms)
    ensures Covers(ps, Restorations(forms))
    decreases |forms|
  {
    if forms != [] {
      RestorationsCover(ps, forms[..|forms| - 1]);
    }
  }

  /**
   The first loop of `order_update` from catalogue `snap`: each deleted
   existing form saves its product's stock plus its quantity. The stock it
   starts from is its copy's, taken from `snap` during validation, or, for a
   form that reloads its product, the stock as the earlier saves left it.
   */
  function Restored(snap: Catalog, forms: seq<ItemForm>): (r: Catalog)
    requires FormsIn(snap, forms)
    ensures SameGoods(snap, r)
    decreases |forms|
  {
    if forms == [] then snap
    else
      var before := Restored(snap, forms[..|forms| - 1]);
      var f := forms[|forms| - 1];
      if !Restores(f) then before
      else
        var product := if f.reloads then before[f.product] else snap[f.product];
        before[f.product := product.(stock := product.stock + f.quantity)]
  }

  /** The first loop one form further on. */
  lemma RestoredNext(snap: Catalog, forms: seq<ItemForm>, i: nat)
    requires FormsIn(snap, forms) && i < |forms|
    ensures FormsIn(snap, forms[..i]) && FormsIn(snap, forms[..i + 1])
    ensures var before := Restored(snap, forms[..i]);
      var f := forms[i];
      Restored(snap, forms[..i + 1]) ==
        if !Restores(f) then before
        else
          var product := if f.reloads then before[f.product] else snap[f.product];
          before[f.product := product.(stock := product.stock + f.quantity)]
  {
    assert forms[..i + 1][..i] == forms[..i];
  }

  /** When every deleted form saves through its validation-time copy, the
      first loop is `Overwrite` by the restorations. */
  lemma {:induction false} RestoredIsOverwrite(snap: Catalog, forms: seq<ItemForm>)
    requires FormsIn(snap, forms)
    requires forall i :: 0 <= i < |forms| && Restores(forms[i]) ==> !forms[i].reloads
    ensures Covers(snap, Restorations(forms))
    ensures Restored(snap, forms) == Overwrite(snap, Restorations(forms))
    decreases |forms|
  {
    RestorationsCover(snap, forms);
    if forms != [] {
      var n := |forms| - 1;
      RestoredIsOverwrite(snap, forms[..n]);
      var f := forms[n];
      if Restores(f) {
        var moves := Restorations(forms);
        assert moves[..|moves| - 1] == Restorations(forms[..n]);
      } else {
        assert Restorations(forms) == Restorations(forms[..n]) + [] == Restorations(forms[..n]);
      }
    }
  }

  /** When every deleted form reloads its product, each save reads the stock
      as it stands, and the first loop is `Shift` by the restorations. */
  lemma {:induction false} RestoredIsShift(snap: Catalog, forms: seq<ItemForm>)
    requires FormsIn(snap, forms)
    requires forall i :: 0 <= i < |forms| && Restores(forms[i]) ==> forms[i].reloads
    ensures Covers(snap, Restorations(forms))
    ensures Restored(snap, forms) == Shift(snap, Restorations(forms))
    decreases |forms|
  {
    RestorationsCover(snap, forms);
    if forms != [] {
      var n := |forms| - 1;
      RestoredIsShift(snap, forms[..n]);
      var f := forms[n];
      if Restores(f) {
        var moves := Restorations(forms);
        assert moves[..|moves| - 1] == Restorations(forms[..n]);
      } else {
        assert Restorations(forms) == Restorations(forms[..n]) + [] == Restorations(forms[..n]);
      }
    }
  }

  /** Restorations of no negative quantity leave every product with at least
      the stock it had before the loop. */
  lemma {:induction false} RestoredAtLeast(snap: Catalog, forms: seq<ItemForm>, q: ProductId)
    requires FormsIn(snap, forms) && q in snap
    requires forall i :: 0 <= i < |forms| && Restores(forms[i]) ==> forms[i].quantity >= 0
    ensures Restored(snap, forms)[q].stock >= snap[q].stock
    decreases |forms|
  {
    if forms != [] {
      RestoredAtLeast(snap, forms[..|forms| - 1], q);
    }
  }

  /** `initial_quantities`: product to quantity over the items before the edit. */
  function InitialQuantities(items: seq<OrderItem>): map<ProductId, int> {
    if items == [] then map[]
    else InitialQuantities(items[..|items| - 1])[items[|items| - 1].product := items[|items| - 1].quantity]
  }

  /** `initial_quantities.get(q, 0)`. */
  function Original(initial: map<ProductId, int>, q: ProductId): int {
    if q in initial then initial[q] else 0
  }

  /** With one item per product, the initial map gives each product's quantity
      in the order, and 0 for products the order does not hold. */
  lemma {:induction false} InitialIsQuantity(items: seq<OrderItem>, q: ProductId)
    requires DistinctProducts(items)
    ensures Original(InitialQuantities(items), q) == QuantityOf(items, q)
    decreases |items|
  {
    if items != [] {
      var n := |items| - 1;
      InitialIsQuantity(items[..n], q);
      if items[n].product == q {
        QuantityOfAbsent(items[..n], q);
      }
    }
  }

  /** `stock_change`: the new quantity less the quantity held before the edit. */
  function StockChange(f: ItemForm, initial: map<ProductId, int>): int {
    f.quantity - Original(initial, f.product)
  }

  function Min(a: int, b: int): int {
    if a <= b then a else b
  }

  /** The stock loop either goes through every form or returns early, leaving
      the catalogue as it is at that point. */
  datatype Run = Completed(catalog: Catalog) | Stopped(at: ProductId, catalog: Catalog)

  /**
   One iteration of the second loop of `order_update`, from the catalogue
   `ps`. The form's product is the copy `snap` holds, loaded when the formset
   was validated. A rise the copy's stock cannot cover stops the request and
   leaves the catalogue alone; an accepted change saves the copy's stock less
   `stock_change`, so an accepted rise never writes a stock below zero and a
   drop writes more than the copy had.
   */
  function Step(ps: Catalog, snap: Catalog, f: ItemForm, initial: map<ProductId, int>): (r: Run)
    requires SameGoods(snap, ps) && (Adjusts(f) ==> f.product in snap)
    ensures SameGoods(snap, r.catalog)
    ensures !Adjusts(f) ==> r == Completed(ps)
    ensures r.Stopped? <==> Adjusts(f) && 0 < StockChange(f, initial) && snap[f.product].stock < StockChange(f, initial)
    ensures r.Stopped? ==> r.at == f.product && r.catalog == ps
    ensures r.Completed? && Adjusts(f) ==>
              r.catalog == ps[f.product := snap[f.product].(stock := snap[f.product].stock - StockChange(f, initial))]
    ensures forall q :: q in ps ==> r.catalog[q].stock >= Min(ps[q].stock, Min(snap[q].stock, 0))
  {
    if !Adjusts(f) then Completed(ps)
    else
      var product := snap[f.product];
      var change := StockChange(f, initial);
      if change > 0 && product.stock < change then Stopped(f.product, ps)
      else Completed(ps[f.product := product.(stock := product.stock - change)])
  }

  predicate AdjustedIn(ps: Catalog, forms: seq<ItemForm>) {
    forall i :: 0 <= i < |forms| && Adjusts(forms[i]) ==> forms[i].product in ps
  }

  /** The second loop of `order_update` over `forms`, from catalogue `ps`,
      with the product copies of `snap`. */
  function ChangeStock(ps: Catalog, snap: Catalog, forms: seq<ItemForm>, initial: map<ProductId, int>): (r: Run)
    requires SameGoods(snap, ps) && AdjustedIn(snap, forms)
    ensures SameGoods(snap, r.catalog)
    decreases |forms|
  {
    if forms == [] then Completed(ps)
    else
      match ChangeStock(ps, snap, forms[..|forms| - 1], initial)
      case Stopped(p, c) => Stopped(p, c)
      case Completed(c) => Step(c, snap, forms[|forms| - 1], initial)
  }

  /** Once the loop has stopped, the later forms are never looked at. */
  lemma {:induction false} StoppedIsFinal(ps: Catalog, snap: Catalog, forms: seq<ItemForm>, initial: map<ProductId, int>, n: nat)
    requires SameGoods(snap, ps) && AdjustedIn(snap, forms) && n <= |forms|
    requires AdjustedIn(snap, forms[..n]) && ChangeStock(ps, snap, forms[..n], initial).Stopped?
    ensures ChangeStock(ps, snap, forms, initial) == ChangeStock(ps, snap, forms[..n], initial)
    decreases |forms|
  {
    if n == |forms| {
      assert forms[..n] == forms;
    } else {
      var m := |forms| - 1;
      assert forms[..m][..n] == forms[..n];
      StoppedIsFinal(ps, snap, forms[..m], initial, n);
    }
  }

  /** However the loop ends, every product ends with at least what it had
      or what its copy had, or at zero. */
  lemma {:induction false} ChangeStockNoNewShortage(ps: Catalog, snap: Catalog, forms: seq<ItemForm>, initial: map<ProductId, int>, q: ProductId)
    requires SameGoods(snap, ps) && AdjustedIn(snap, forms) && q in ps
    ensures ChangeStock(ps, snap, forms, initial).catalog[q].stock >= Min(ps[q].stock, Min(snap[q].stock, 0))
    decreases |forms|
  {
    if forms != [] {
      ChangeStockNoNewShortage(ps, snap, forms[..|forms| - 1], initial, q);
    }
  }

  /** Forms that are neither changed nor deleted move no stock. */
  lemma {:induction false} IdleFormsKeepStock(ps: Catalog, snap: Catalog, forms: seq<ItemForm>, initial: map<ProductId, int>)
    requires SameGoods(snap, ps) && FormsIn(ps, forms)
    requires forall i :: 0 <= i < |forms| ==> !forms[i].changed && !forms[i].delete
    ensures Restored(ps, forms) == ps
    ensures ChangeStock(ps, snap, forms, initial) == Completed(ps)
    decreases |forms|
  {
    if forms != [] {
      IdleFormsKeepStock(ps, snap, forms[..|forms| - 1], initial);
    }
  }

  /** The stock effect of `order_update` as written: the deleted items'
      quantities come back, then the stock loop runs, every save of the
      stock loop going through the form's own copy of its product taken
      from `ps`. */
  function UpdateRun(ps: Catalog, items: seq<OrderItem>, forms: seq<ItemForm>): (r: Run)
    requires FormsIn(ps, forms)
    ensures SameGoods(ps, r.catalog)
  {
    ChangeStock(Restored(ps, forms), ps, forms, InitialQuantities(items))
  }

  /** A valid edit whose deleted existing rows carry no negative quantity,
      however it ends, never leaves a product with less than none when it
      had stock on hand. `NegativeRestoreExample` shows the bound fails
      without that condition. */
  lemma UpdateNoNewShortage(ps: Catalog, items: seq<OrderItem>, forms: seq<ItemForm>, q: ProductId)
    requires FormsValid(forms, items, ps) && q in ps
    requires forall i :: 0 <= i < |forms| && Restores(forms[i]) ==> forms[i].quantity >= 0
    ensures UpdateRun(ps, items, forms).catalog[q].stock >= Min(ps[q].stock, 0)
  {
    var restored := Restored(ps, forms);
    RestoredAtLeast(ps, forms, q);
    ChangeStockNoNewShortage(restored, ps, forms, InitialQuantities(items), q);
  }

  /** With one item per product, `stock_change` is exactly the growth of the
      order's quantity of the form's product. */
  lemma StockChangeIsGrowth(items: seq<OrderItem>, f: ItemForm)
    requires DistinctProducts(items)
    ensures StockChange(f, InitialQuantities(items)) == f.quantity - QuantityOf(items, f.product)
  {
    InitialIsQuantity(items, f.product);
  }

  /** The item form `i` leaves in the order: a kept existing item with the
      form's product and quantity and its historical price; a kept new item
      at the product's current price; nothing for a deleted or blank form. */
  function EditedRow(items: seq<OrderItem>, forms: seq<ItemForm>, ps: Catalog, i: nat): seq<OrderItem>
    requires FormsValid(forms, items, ps) && i < |forms|
  {
    var f := forms[i];
    if !Kept(f) then []
    else if f.existing then [OrderItem(f.product, f.quantity, items[i].priceAtOrder)]
    else [OrderItem(f.product, f.quantity, ps[f.product].price)]
  }

  /** Some kept form among the first `n` carries product `q`. */
  predicate Traced(forms: seq<ItemForm>, n: nat, q: ProductId) {
    exists i :: 0 <= i < n && i < |forms| && Kept(forms[i]) && forms[i].product == q
  }

  function EditedUpTo(items: seq<OrderItem>, forms: seq<ItemForm>, ps: Catalog, n: nat): seq<OrderItem>
    requires FormsValid(forms, items, ps) && n <= |forms|
  {
    if n == 0 then [] else EditedUpTo(items, forms, ps, n - 1) + EditedRow(items, forms, ps, n - 1)
  }

  /** The order's items once the formset is saved. A valid formset leaves
      sound order items: known products, positive quantities, one item per
      product. */
  function EditedItems(items: seq<OrderItem>, forms: seq<ItemForm>, ps: Catalog): (r: seq<OrderItem>)
    requires FormsValid(forms, items, ps)
    ensures ItemsIn(ps, r) && DistinctProducts(r)
    ensures forall k :: 0 <= k < |r| ==> r[k].quantity >= 1
  {
    EditedUpToSound(items, forms, ps, |forms|);
    EditedUpTo(items, forms, ps, |forms|)
  }

  lemma {:induction false} EditedUpToSound(items: seq<OrderItem>, forms: seq<ItemForm>, ps: Catalog, n: nat)
    requires FormsValid(forms, items, ps) && n <= |forms|
    ensures var e := EditedUpTo(items, forms, ps, n);
      && ItemsIn(ps, e)
      && (forall k :: 0 <= k < |e| ==> e[k].quantity >= 1)
      && DistinctProducts(e)
      && (forall k :: 0 <= k < |e| ==> Traced(forms, n, e[k].product))
    decreases n
  {
    if n > 0 {
      EditedUpToSound(items, forms, ps, n - 1);
      var e := EditedUpTo(items, forms, ps, n - 1);
      var row := EditedRow(items, forms, ps, n - 1);
      var all := e + row;
      assert all == EditedUpTo(items, forms, ps, n);
      forall k | 0 <= k < |all|
        ensures Traced(forms, n, all[k].product)
      {
        if k < |e| {
          assert all[k] == e[k];
          assert Traced(forms, n - 1, e[k].product);
          var i :| 0 <= i < n - 1 && Kept(forms[i]) && forms[i].product == e[k].product;
        } else {
          assert all[k].product == forms[n - 1].product && Kept(forms[n - 1]);
        }
      }
      forall a, b | 0 <= a < b < |all|
        ensures all[a].product != all[b].product
      {
        if b < |e| {
          assert all[a] == e[a] && all[b] == e[b];
        } else {
          assert all[a] == e[a];
          assert Traced(forms, n - 1, e[a].product);
          var i :| 0 <= i < n - 1 && Kept(forms[i]) && forms[i].product == e[a].product;
        }
      }
    }
  }

  // ---------------------------------------------------------------------
  // A balanced edit: the stock takes back what the order held and gives
  // what it now holds, and the whole edit is refused if a product whose
  // demand grew cannot cover the growth.
  // ---------------------------------------------------------------------

  /** Product `q`'s demand grows by more than its stock on hand. */
  predicate Short(ps: Catalog, before: seq<OrderItem>, after: seq<OrderItem>, q: ProductId) {
    q in ps && QuantityOf(before, q) < QuantityOf(after, q) &&
    ps[q].stock < QuantityOf(after, q) - QuantityOf(before, q)
  }

  function BalancedMoves(before: seq<OrderItem>, after: seq<OrderItem>): (r: seq<Move>)
    ensures forall ps: Catalog :: ItemsIn(ps, before) && ItemsIn(ps, after) ==> Covers(ps, r)
  {
    Returns(before) + Withdrawals(after)
  }

  /** Every product ends with its stock plus what the order holds of it as
      before the edit, and one that is not short ends no worse than it was
      or at zero. */
  lemma BalancedConserves(ps: Catalog, before: seq<OrderItem>, after: seq<OrderItem>, q: ProductId)
    requires ItemsIn(ps, before) && ItemsIn(ps, after) && q in ps
    ensures Shift(ps, BalancedMoves(before, after))[q].stock + QuantityOf(after, q) == ps[q].stock + QuantityOf(before, q)
    ensures Shift(ps, BalancedMoves(before, after))[q].price == ps[q].price
    ensures !Short(ps, before, after, q) ==> Shift(ps, BalancedMoves(before, after))[q].stock >= Min(ps[q].stock, 0)
  {
    ShiftAt(ps, BalancedMoves(before, after), q);
    NetChangeAppend(Returns(before), Withdrawals(after), q);
    ReturnsNet(before, q);
    WithdrawalsNet(after, q);
  }

  /** A short product is one of the new items' products, so checking those
      finds every shortage. */
  lemma ShortAppears(ps: Catalog, before: seq<OrderItem>, after: seq<OrderItem>, q: ProductId)
    requires forall i :: 0 <= i < |before| ==> before[i].quantity >= 1
    requires Short(ps, before, after, q)
    ensures exists k :: 0 <= k < |after| && after[k].product == q
  {
    QuantityOfNonNegative(before, q);
    QuantityOfPositive(after, q);
  }

  // ---------------------------------------------------------------------
  // Two inputs on which `order_update` as written loses track of stock.
  // ---------------------------------------------------------------------

  /** An order holds one unit each of products 0 and 1, both out of stock.
      The edit deletes the first item and raises the second to 5. The loop
      stops at product 1, yet product 0 has already had its unit put back,
      while the order, still holding that item, is not saved. */
  lemma PartialCommitExample()
    ensures var ps := map[0 := Product(0, 100, 0), 1 := Product(0, 100, 0)];
      var items := [OrderItem(0, 1, 100), OrderItem(1, 1, 100)];
      var forms := [ItemForm(true, 0, 1, true, true, false), ItemForm(true, 1, 5, true, false, false)];
      && FormsValid(forms, items, ps)
      && UpdateRun(ps, items, forms) == Stopped(1, ps[0 := Product(0, 100, 1)])
  {
    var ps := map[0 := Product(0, 100, 0), 1 := Product(0, 100, 0)];
    var i0, i1 := OrderItem(0, 1, 100), OrderItem(1, 1, 100);
    var f0, f1 := ItemForm(true, 0, 1, true, true, false), ItemForm(true, 1, 5, true, false, false);
    var restored := ps[0 := Product(0, 100, 1)];
    var initial := map[0 := 1, 1 := 1];
    assert FormsValid([f0, f1], [i0, i1], ps);
    assert Restored(ps, [f0, f1]) == restored by {
      assert [f0, f1][..1] == [f0] && [f0][..0] == [];
      assert Restored(ps, [f0]) == restored;
    }
    assert InitialQuantities([i0, i1]) == initial by {
      assert [i0, i1][..1] == [i0] && [i0][..0] == [];
      assert InitialQuantities([i0]) == map[0 := 1];
    }
    assert ChangeStock(restored, ps, [f0, f1], initial) == Stopped(1, restored) by {
      assert [f0, f1][..1] == [f0] && [f0][..0] == [];
      assert ChangeStock(restored, ps, [f0], initial) == Completed(restored);
      assert StockChange(f1, initial) == 4;
    }
  }

  /** An order holds 2 of product 0; the edit switches that item to product 1.
      Product 1 gives 2 units, but product 0 never gets its 2 back: product 0's
      stock plus what the order holds of it drops by 2. */
  lemma SwitchedProductExample()
    ensures var ps := map[0 := Product(0, 100, 10), 1 := Product(0, 100, 10)];
      var items := [OrderItem(0, 2, 100)];
      var forms := [ItemForm(true, 1, 2, true, false, false)];
      && FormsValid(forms, items, ps)
      && UpdateRun(ps, items, forms) == Completed(ps[1 := Product(0, 100, 8)])
      && UpdateRun(ps, items, forms).catalog[0].stock + QuantityOf(EditedItems(items, forms, ps), 0)
         == ps[0].stock + QuantityOf(items, 0) - 2
  {
    var ps := map[0 := Product(0, 100, 10), 1 := Product(0, 100, 10)];
    var items := [OrderItem(0, 2, 100)];
    var f := ItemForm(true, 1, 2, true, false, false);
    var forms := [f];
    assert forms[..0] == [] && items[..0] == [];
    assert Restored(ps, forms) == ps;
    assert InitialQuantities(items) == map[0 := 2];
    assert ChangeStock(ps, ps, forms, InitialQuantities(items)) == Step(ps, ps, f, InitialQuantities(items));
    var e := EditedItems(items, forms, ps);
    assert EditedUpTo(items, forms, ps, 0) == [];
    assert EditedRow(items, forms, ps, 0) == [OrderItem(1, 2, 100)];
    assert e == [OrderItem(1, 2, 100)];
    assert e[..0] == [];
  }

  /** An order holds 3 of product 0, which is out of stock. The edit deletes
      the item with its quantity field set to -2, which the formset accepts
      because the form is marked for deletion. The restore loop adds -2, so
      product 0 ends below zero, while the balanced edit returns the 3 units
      the order held. */
  lemma NegativeRestoreExample()
    ensures var ps := map[0 := Product(0, 100, 0)];
      var items := [OrderItem(0, 3, 100)];
      var forms := [ItemForm(true, 0, -2, true, true, false)];
      && FormsValid(forms, items, ps)
      && UpdateRun(ps, items, forms) == Completed(map[0 := Product(0, 100, -2)])
      && EditedItems(items, forms, ps) == []
      && Shift(ps, BalancedMoves(items, [])) == map[0 := Product(0, 100, 3)]
  {
    var ps := map[0 := Product(0, 100, 0)];
    var items := [OrderItem(0, 3, 100)];
    var forms := [ItemForm(true, 0, -2, true, true, false)];
    assert FormsValid(forms, items, ps);
    assert EditedItems(items, forms, ps) == [] by {
      assert EditedUpTo(items, forms, ps, 0) == [];
      assert EditedRow(items, forms, ps, 0) == [];
    }
    NegativeRestoreRun();
    NegativeRestoreBalanced();
  }

  /** The two stock loops of the example above end with product 0 at -2. */
  lemma NegativeRestoreRun()
    ensures var ps := map[0 := Product(0, 100, 0)];
      var forms := [ItemForm(true, 0, -2, true, true, false)];
      && FormsIn(ps, forms)
      && UpdateRun(ps, [OrderItem(0, 3, 100)], forms) == Completed(map[0 := Product(0, 100, -2)])
  {
    var ps := map[0 := Product(0, 100, 0)];
    var f := ItemForm(true, 0, -2, true, true, false);
    var forms := [f];
    assert forms[..0] == [];
    var restored := Restored(ps, forms);
    assert restored == map[0 := Product(0, 100, -2)];
    assert ChangeStock(restored, ps, forms, InitialQuantities([OrderItem(0, 3, 100)])) ==
      Step(restored, ps, f, InitialQuantities([OrderItem(0, 3, 100)]));
  }

  /** The balanced edit of the example above puts product 0 back to 3. */
  lemma NegativeRestoreBalanced()
    ensures Shift(map[0 := Product(0, 100, 0)], BalancedMoves([OrderItem(0, 3, 100)], [])) == map[0 := Product(0, 100, 3)]
  {
    var ps := map[0 := Product(0, 100, 0)];
    var items := [OrderItem(0, 3, 100)];
    var balanced := Shift(ps, BalancedMoves(items, []));
    BalancedConserves(ps, items, [], 0);
    assert items[..0] == [];
    assert QuantityOf(items, 0) == 3 && QuantityOf([], 0) == 0;
    assert balanced.Keys == {0};
    assert balanced[0] == Product(0, 100, 3);
    assert balanced == map[0 := Product(0, 100, 3)];
  }

  /** An order holds one unit of product 0 and one of product 1, which has 5
      in stock. The edit switches the first item to product 1 and deletes it,
      and raises the second to 2. The restore loop saves 6 through the first
      form's copy of product 1, then the stock loop saves 5 - 1 through the
      second form's copy: the returned unit is lost. */
  lemma CopiesOverwriteExample()
    ensures var ps := map[0 := Product(0, 100, 0), 1 := Product(0, 100, 5)];
      var items := [OrderItem(0, 1, 100), OrderItem(1, 1, 100)];
      var forms := [ItemForm(true, 1, 1, true, true, false), ItemForm(true, 1, 2, true, false, false)];
      && FormsValid(forms, items, ps)
      && UpdateRun(ps, items, forms) == Completed(ps[1 := Product(0, 100, 4)])
  {
    var ps := map[0 := Product(0, 100, 0), 1 := Product(0, 100, 5)];
    var items := [OrderItem(0, 1, 100), OrderItem(1, 1, 100)];
    var forms := [ItemForm(true, 1, 1, true, true, false), ItemForm(true, 1, 2, true, false, false)];
    assert FormsValid(forms, items, ps);
    CopiesRestoreLoop();
    CopiesStockLoop();
  }

  /** The restore loop of the example above saves 5 + 1 for product 1. */
  lemma CopiesRestoreLoop()
    ensures var ps := map[0 := Product(0, 100, 0), 1 := Product(0, 100, 5)];
      var forms := [ItemForm(true, 1, 1, true, true, false), ItemForm(true, 1, 2, true, false, false)];
      && FormsIn(ps, forms)
      && Restored(ps, forms) == ps[1 := Product(0, 100, 6)]
  {
    var ps := map[0 := Product(0, 100, 0), 1 := Product(0, 100, 5)];
    var f0, f1 := ItemForm(true, 1, 1, true, true, false), ItemForm(true, 1, 2, true, false, false);
    assert [f0, f1][..1] == [f0] && [f0][..0] == [];
    assert Restored(ps, [f0]) == ps[1 := Product(0, 100, 6)];
  }

  /** The stock loop of the example above, from the restored catalogue, saves
      5 - 1 for product 1 through the second form's copy. */
  lemma CopiesStockLoop()
    ensures var ps := map[0 := Product(0, 100, 0), 1 := Product(0, 100, 5)];
      var restored := ps[1 := Product(0, 100, 6)];
      var forms := [ItemForm(true, 1, 1, true, true, false), ItemForm(true, 1, 2, true, false, false)];
      var initial := InitialQuantities([OrderItem(0, 1, 100), OrderItem(1, 1, 100)]);
      && SameGoods(ps, restored) && AdjustedIn(ps, forms)
      && ChangeStock(restored, ps, forms, initial) == Completed(ps[1 := Product(0, 100, 4)])
  {
    var ps := map[0 := Product(0, 100, 0), 1 := Product(0, 100, 5)];
    var restored := ps[1 := Product(0, 100, 6)];
    var i0, i1 := OrderItem(0, 1, 100), OrderItem(1, 1, 100);
    var f0, f1 := ItemForm(true, 1, 1, true, true, false), ItemForm(true, 1, 2, true, false, false);
    var initial := map[0 := 1, 1 := 1];
    assert InitialQuantities([i0, i1]) == initial by {
      assert [i0, i1][..1] == [i0] && [i0][..0] == [];
      assert InitialQuantities([i0]) == map[0 := 1];
    }
    var final := ps[1 := Product(0, 100, 4)];
    assert Step(restored, ps, f1, initial) == Completed(final) by {
      assert StockChange(f1, initial) == 1;
      assert restored[1 := Product(0, 100, 4)] == final;
    }
    assert ChangeStock(restored, ps, [f0, f1], initial) == Step(restored, ps, f1, initial) by {
      assert [f0, f1][..1] == [f0] && [f0][..0] == [];
      assert ChangeStock(restored, ps, [f0], initial) == Completed(restored);
    }
  }

  /** An order holds one unit each of products 0 and 1, with stocks 0 and 5.
      Both items are deleted: the first switched to product 1, the second
      with its product field left blank. The first form saves 5 + 1 through
      its copy of product 1; the second loads product 1 only then, reads 6
      and saves 7. Had it saved through a copy taken during validation, as
      the first form does, product 1 would end at 6. */
  lemma ReloadExample()
    ensures var ps := map[0 := Product(0, 100, 0), 1 := Product(0, 100, 5)];
      var items := [OrderItem(0, 1, 100), OrderItem(1, 1, 100)];
      var forms := [ItemForm(true, 1, 1, true, true, false), ItemForm(true, 1, 1, true, true, true)];
      && FormsValid(forms, items, ps)
      && UpdateRun(ps, items, forms) == Completed(ps[1 := Product(0, 100, 7)])
      && Covers(ps, Restorations(forms))
      && Overwrite(ps, Restorations(forms)) == ps[1 := Product(0, 100, 6)]
  {
    var ps := map[0 := Product(0, 100, 0), 1 := Product(0, 100, 5)];
    var items := [OrderItem(0, 1, 100), OrderItem(1, 1, 100)];
    var f0, f1 := ItemForm(true, 1, 1, true, true, false), ItemForm(true, 1, 1, true, true, true);
    var forms := [f0, f1];
    assert FormsValid(forms, items, ps);
    ReloadRestoreLoop();
    ReloadCopiesOnly();
    assert UpdateRun(ps, items, forms) == Completed(ps[1 := Product(0, 100, 7)]) by {
      var restored := ps[1 := Product(0, 100, 7)];
      var initial := InitialQuantities(items);
      assert forms[..1] == [f0] && [f0][..0] == [];
      assert ChangeStock(restored, ps, [f0], initial) == Completed(restored);
      assert ChangeStock(restored, ps, forms, initial) == Completed(restored);
    }
  }

  /** The restore loop of the example above, the second form reloading. */
  lemma ReloadRestoreLoop()
    ensures var ps := map[0 := Product(0, 100, 0), 1 := Product(0, 100, 5)];
      var forms := [ItemForm(true, 1, 1, true, true, false), ItemForm(true, 1, 1, true, true, true)];
      && FormsIn(ps, forms)
      && Restored(ps, forms) == ps[1 := Product(0, 100, 7)]
  {
    var ps := map[0 := Product(0, 100, 0), 1 := Product(0, 100, 5)];
    var f0, f1 := ItemForm(true, 1, 1, true, true, false), ItemForm(true, 1, 1, true, true, true);
    assert [f0, f1][..1] == [f0] && [f0][..0] == [];
    assert Restored(ps, [f0]) == ps[1 := Product(0, 100, 6)];
  }

  /** The same restorations saved through copies alone. */
  lemma ReloadCopiesOnly()
    ensures var ps := map[0 := Product(0, 100, 0), 1 := Product(0, 100, 5)];
      var forms := [ItemForm(true, 1, 1, true, true, false), ItemForm(true, 1, 1, true, true, true)];
      && Restorations(forms) == [Move(1, 1), Move(1, 1)]
      && Overwrite(ps, [Move(1, 1), Move(1, 1)]) == ps[1 := Product(0, 100, 6)]
  {
    var f0, f1 := ItemForm(true, 1, 1, true, true, false), ItemForm(true, 1, 1, true, true, true);
    assert Restorations([f0, f1]) == [Move(1, 1), Move(1, 1)] by {
      assert [f0, f1][..1] == [f0] && [f0][..0] == [];
      assert Restorations([f0]) == [Move(1, 1)];
    }
    ReloadCopiesOverwrite();
  }

  /** Two saves of one unit through the same copy of product 1 leave 6. */
  lemma ReloadCopiesOverwrite()
    ensures var ps := map[0 := Product(0, 100, 0), 1 := Product(0, 100, 5)];
      Overwrite(ps, [Move(1, 1), Move(1, 1)]) == ps[1 := Product(0, 100, 6)]
  {
    var ps := map[0 := Product(0, 100, 0), 1 := Product(0, 100, 5)];
    var m := [Move(1, 1), Move(1, 1)];
    assert m[..1] == [Move(1, 1)] && [Move(1, 1)][..0] == [];
    assert Overwrite(ps, [Move(1, 1)]) == ps[1 := Product(0, 100, 6)];
  }

  /** Marking a stored item for deletion does not free its product for a new
      item in the same submission: the uniqueness check still sees the stored
      row, so the formset is invalid. */
  lemma DeletedItemStillBlocks()
    ensures var ps := map[0 := Product(0, 100, 10)];
      var items := [OrderItem(0, 3, 100)];
      var forms := [ItemForm(true, 0, 3, true, true, false), ItemForm(false, 0, 5, true, false, false)];
      !FormsValid(forms, items, ps)
  {
    var items := [OrderItem(0, 3, 100)];
    var forms := [ItemForm(true, 0, 3, true, true, false), ItemForm(false, 0, 5, true, false, false)];
    assert Kept(forms[1]) && forms[1].product == items[0].product;
  }
}
