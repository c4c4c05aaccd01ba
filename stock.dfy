/**
 Stock movements. Each order handler of `inventory/views.py` changes
 `Product.stock_quantity` by a read-modify-write per item; a `Move` is one such
 write and `Shift` is the catalogue after a sequence of them.
 */
module Stock {
  import opened Models

  /** The product table. */
  type Catalog = map<ProductId, Product>

  /** One change of one product's stock by `delta` units. */
  datatype Move = Move(product: ProductId, delta: int)

  predicate Covers(ps: Catalog, moves: seq<Move>) {
    forall i :: 0 <= i < |moves| ==> moves[i].product in ps
  }

  predicate ItemsIn(ps: Catalog, items: seq<OrderItem>) {
    forall i :: 0 <= i < |items| ==> items[i].product in ps
  }

  /** The catalogue after `moves`, applied in order. Only stock changes. */
  function Shift(ps: Catalog, moves: seq<Move>): (r: Catalog)
    requires Covers(ps, moves)
    ensures r.Keys == ps.Keys
    ensures forall q :: q in ps ==> r[q].price == ps[q].price && r[q].category == ps[q].category
    decreases |moves|
  {
    if moves == [] then ps
    else
      var before := Shift(ps, moves[..|moves| - 1]);
      var m := moves[|moves| - 1];
      before[m.product := before[m.product].(stock := before[m.product].stock + m.delta)]
  }

  /** `b` holds the products of `a` with the same prices and categories;
      only stock may differ. */
  predicate SameGoods(a: Catalog, b: Catalog) {
    a.Keys == b.Keys && forall q :: q in a ==> b[q].price == a[q].price && b[q].category == a[q].category
  }

  /**
   The catalogue after `moves` made through copies of the products taken
   from `snap` before any of them: each save writes its copy's stock moved by
   its delta, so a later save of a product replaces an earlier one.
   */
  function Overwrite(snap: Catalog, moves: seq<Move>): (r: Catalog)
    requires Covers(snap, moves)
    ensures SameGoods(snap, r)
    decreases |moves|
  {
    if moves == [] then snap
    else
      var m := moves[|moves| - 1];
      Overwrite(snap, moves[..|moves| - 1])[m.product := snap[m.product].(stock := snap[m.product].stock + m.delta)]
  }

  /** The sum of the deltas of `moves` for product `q`. */
  function NetChange(moves: seq<Move>, q: ProductId): int {
    if moves == [] then 0
    else NetChange(moves[..|moves| - 1], q) + (if moves[|moves| - 1].product == q then moves[|moves| - 1].delta else 0)
  }

  lemma {:induction false} NetChangeAbsent(moves: seq<Move>, q: ProductId)
    requires forall k :: 0 <= k < |moves| ==> moves[k].product != q
    ensures NetChange(moves, q) == 0
    decreases |moves|
  {
    if moves != [] {
      NetChangeAbsent(moves[..|moves| - 1], q);
    }
  }

  /** Order creation takes each item's quantity out of stock. */
  function Withdrawals(items: seq<OrderItem>): (r: seq<Move>)
    ensures |r| == |items|
    ensures forall i {:trigger r[i]} :: 0 <= i < |items| ==> r[i].product == items[i].product
  {
    if items == [] then []
    else Withdrawals(items[..|items| - 1]) + [Move(items[|items| - 1].product, -items[|items| - 1].quantity)]
  }

  /** Order deletion puts each item's quantity back. */
  function Returns(items: seq<OrderItem>): (r: seq<Move>)
    ensures |r| == |items|
    ensures forall i {:trigger r[i]} :: 0 <= i < |items| ==> r[i].product == items[i].product
  {
    if items == [] then []
    else Returns(items[..|items| - 1]) + [Move(items[|items| - 1].product, items[|items| - 1].quantity)]
  }

  lemma ItemsInCover(ps: Catalog, items: seq<OrderItem>)
    requires ItemsIn(ps, items)
    ensures Covers(ps, Withdrawals(items)) && Covers(ps, Returns(items))
  {
  }

  /** The closed form of `Shift`: each product's stock moves by its net change. */
  lemma {:induction false} ShiftAt(ps: Catalog, moves: seq<Move>, q: ProductId)
    requires Covers(ps, moves) && q in ps
    ensures Shift(ps, moves)[q] == ps[q].(stock := ps[q].stock + NetChange(moves, q))
    decreases |moves|
  {
    if moves != [] {
      ShiftAt(ps, moves[..|moves| - 1], q);
    }
  }

  lemma {:induction false} NetChangeAppend(a: seq<Move>, b: seq<Move>, q: ProductId)
    ensures NetChange(a + b, q) == NetChange(a, q) + NetChange(b, q)
    decreases |b|
  {
    if b == [] {
      assert a + b == a;
    } else {
      var c := b[..|b| - 1];
      assert (a + b)[..|a + b| - 1] == a + c;
      assert (a + b)[|a + b| - 1] == b[|b| - 1];
      NetChangeAppend(a, c, q);
    }
  }

  lemma WithdrawalsSnoc(items: seq<OrderItem>, item: OrderItem)
    ensures Withdrawals(items + [item]) == Withdrawals(items) + [Move(item.product, -item.quantity)]
  {
    var all := items + [item];
    assert all[..|all| - 1] == items && all[|all| - 1] == item;
  }

  /** One more item taken out of stock is one more product save, made
      through the item's copy of its product taken from `ps`. */
  lemma WithdrawOne(ps: Catalog, items: seq<OrderItem>, item: OrderItem)
    requires ItemsIn(ps, items) && item.product in ps
    ensures ItemsIn(ps, items + [item]) && Covers(ps, Withdrawals(items)) && Covers(ps, Withdrawals(items + [item]))
    ensures Overwrite(ps, Withdrawals(items + [item])) ==
      Overwrite(ps, Withdrawals(items))[item.product := ps[item.product].(stock := ps[item.product].stock - item.quantity)]
  {
    var all := items + [item];
    forall i | 0 <= i < |all|
      ensures all[i].product in ps
    {
      if i < |items| {
        assert all[i] == items[i];
      }
    }
    WithdrawalsSnoc(items, item);
    ItemsInCover(ps, items);
    ItemsInCover(ps, all);
    var moves := Withdrawals(all);
    assert moves[..|moves| - 1] == Withdrawals(items);
  }

  /** Applying `a` and then `b` is applying `a + b`. */
  lemma ShiftAppend(ps: Catalog, a: seq<Move>, b: seq<Move>)
    requires Covers(ps, a) && Covers(ps, b)
    ensures Covers(ps, a + b) && Covers(Shift(ps, a), b)
    ensures Shift(ps, a + b) == Shift(Shift(ps, a), b)
  {
    assert Covers(ps, a + b) by {
      forall i | 0 <= i < |a + b|
        ensures (a + b)[i].product in ps
      {
        if i >= |a| {
          assert (a + b)[i] == b[i - |a|];
        }
      }
    }
    var mid := Shift(ps, a);
    forall q | q in ps
      ensures Shift(ps, a + b)[q] == Shift(mid, b)[q]
    {
      ShiftAt(ps, a + b, q);
      ShiftAt(ps, a, q);
      ShiftAt(mid, b, q);
      NetChangeAppend(a, b, q);
    }
  }

  /** Copies taken before the saves differ from fresh reads only when two
      saves touch the same product. */
  lemma {:induction false} OverwriteIsShift(snap: Catalog, moves: seq<Move>)
    requires Covers(snap, moves)
    requires forall i, j :: 0 <= i < j < |moves| ==> moves[i].product != moves[j].product
    ensures Overwrite(snap, moves) == Shift(snap, moves)
    decreases |moves|
  {
    if moves != [] {
      var n := |moves| - 1;
      var m := moves[n];
      OverwriteIsShift(snap, moves[..n]);
      NetChangeAbsent(moves[..n], m.product);
      ShiftAt(snap, moves[..n], m.product);
    }
  }

  lemma {:induction false} WithdrawalsNet(items: seq<OrderItem>, q: ProductId)
    ensures NetChange(Withdrawals(items), q) == -QuantityOf(items, q)
    decreases |items|
  {
    if items != [] {
      var n := |items| - 1;
      WithdrawalsNet(items[..n], q);
      NetChangeAppend(Withdrawals(items[..n]), [Move(items[n].product, -items[n].quantity)], q);
      assert [Move(items[n].product, -items[n].quantity)][..0] == [];
    }
  }

  lemma {:induction false} ReturnsNet(items: seq<OrderItem>, q: ProductId)
    ensures NetChange(Returns(items), q) == QuantityOf(items, q)
    decreases |items|
  {
    if items != [] {
      var n := |items| - 1;
      ReturnsNet(items[..n], q);
      NetChangeAppend(Returns(items[..n]), [Move(items[n].product, items[n].quantity)], q);
      assert [Move(items[n].product, items[n].quantity)][..0] == [];
    }
  }

  /** Creating an order lowers each product's stock by exactly the quantity the
      order takes of it, with no lower bound; other products are untouched. */
  lemma WithdrawalAt(ps: Catalog, items: seq<OrderItem>, q: ProductId)
    requires ItemsIn(ps, items) && q in ps
    ensures Shift(ps, Withdrawals(items))[q].stock == ps[q].stock - QuantityOf(items, q)
    ensures QuantityOf(items, q) == 0 ==> Shift(ps, Withdrawals(items))[q] == ps[q]
  {
    ItemsInCover(ps, items);
    ShiftAt(ps, Withdrawals(items), q);
    WithdrawalsNet(items, q);
  }

  /** Deleting an order raises each product's stock by exactly the quantity
      the order held of it; other products are untouched. */
  lemma ReturnAt(ps: Catalog, items: seq<OrderItem>, q: ProductId)
    requires ItemsIn(ps, items) && q in ps
    ensures Shift(ps, Returns(items))[q].stock == ps[q].stock + QuantityOf(items, q)
    ensures QuantityOf(items, q) == 0 ==> Shift(ps, Returns(items))[q] == ps[q]
  {
    ItemsInCover(ps, items);
    ShiftAt(ps, Returns(items), q);
    ReturnsNet(items, q);
  }

  /** Deleting an order exactly undoes the stock changes of creating it. */
  lemma CreateThenDeleteRestores(ps: Catalog, items: seq<OrderItem>)
    requires ItemsIn(ps, items)
    ensures ItemsIn(Shift(ps, Withdrawals(items)), items)
    ensures Shift(Shift(ps, Withdrawals(items)), Returns(items)) == ps
  {
    ItemsInCover(ps, items);
    var mid := Shift(ps, Withdrawals(items));
    ItemsInCover(mid, items);
    var after := Shift(mid, Returns(items));
    forall q | q in ps
      ensures after[q] == ps[q]
    {
      WithdrawalAt(ps, items, q);
      ReturnAt(mid, items, q);
    }
  }

  /** A product that an order takes at least its whole stock of is out of
      stock once the order is created. */
  lemma CreateExhaustsStock(ps: Catalog, items: seq<OrderItem>, q: ProductId)
    requires ItemsIn(ps, items) && q in ps
    requires ps[q].stock <= QuantityOf(items, q)
    ensures !IsInStock(Shift(ps, Withdrawals(items))[q])
  {
    WithdrawalAt(ps, items, q);
  }

  /** Deleting an order never takes a product out of stock. */
  lemma DeleteKeepsInStock(ps: Catalog, items: seq<OrderItem>, q: ProductId)
    requires ItemsIn(ps, items) && q in ps
    requires forall i :: 0 <= i < |items| ==> items[i].quantity >= 1
    requires IsInStock(ps[q])
    ensures IsInStock(Shift(ps, Returns(items))[q])
  {
    ReturnAt(ps, items, q);
    QuantityOfNonNegative(items, q);
  }
}
