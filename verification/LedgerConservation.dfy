/** What every run of the handlers keeps: stock is conserved per product, every stock row
    is explained by its movements, stored totals agree with the items, and an order's
    statuses follow the transition table. */
module LedgerConservation {
  import opened Wrappers
  import opened Money
  import opened OrderStatus
  import opened StockLedger

  // ---------------------------------------------------------------- sums

  function OnHand(stocks: seq<StockRow>, p: ProductId): int
  {
    if stocks == [] then 0
    else
      var last := stocks[|stocks| - 1];
      OnHand(stocks[..|stocks| - 1], p) + if last.product == p then last.quantity else 0
  }

  function Opening(stocks: seq<StockRow>, p: ProductId): int
  {
    if stocks == [] then 0
    else
      var last := stocks[|stocks| - 1];
      Opening(stocks[..|stocks| - 1], p) + if last.product == p then last.opening else 0
  }

  function Sold(items: seq<Item>, p: ProductId): nat
  {
    if items == [] then 0
    else Sold(items[..|items| - 1], p) + if items[|items| - 1].product == p then items[|items| - 1].quantity else 0
  }

  function Held(order: Order, p: ProductId): nat
  {
    if order.status == Cancelled then 0 else Sold(order.items, p)
  }

  /** The quantities of the items of all orders that are not cancelled. */
  function Committed(orders: seq<Order>, p: ProductId): nat
  {
    if orders == [] then 0 else Committed(orders[..|orders| - 1], p) + Held(orders[|orders| - 1], p)
  }

  function BoughtIn(receipts: seq<Line>, p: ProductId): nat
  {
    if receipts == [] then 0
    else BoughtIn(receipts[..|receipts| - 1], p)
         + if receipts[|receipts| - 1].product == p then receipts[|receipts| - 1].quantity else 0
  }

  /** The returned quantities that went back on the shelf. */
  function BroughtBack(rows: seq<ReturnRow>, p: ProductId): nat
  {
    if rows == [] then 0
    else
      var last := rows[|rows| - 1];
      BroughtBack(rows[..|rows| - 1], p) + if last.product == p && last.reentered then last.quantity else 0
  }

  /** The net quantity the movements record for one stock row. */
  function Net(movements: seq<Movement>, i: nat): int
  {
    if movements == [] then 0
    else
      var m := movements[|movements| - 1];
      Net(movements[..|movements| - 1], i) + if m.stock == i then Signed(m) else 0
  }

  lemma {:induction false} OnHandUpdate(stocks: seq<StockRow>, i: nat, row: StockRow, p: ProductId)
    requires i < |stocks| && row.product == stocks[i].product && row.opening == stocks[i].opening
    ensures OnHand(stocks[i := row], p)
         == OnHand(stocks, p) + if row.product == p then row.quantity - stocks[i].quantity else 0
    ensures Opening(stocks[i := row], p) == Opening(stocks, p)
    decreases |stocks|
  {
    var n := |stocks| - 1;
    if i == n {
      assert stocks[i := row][..n] == stocks[..n];
    } else {
      assert stocks[i := row][..n] == stocks[..n][i := row];
      OnHandUpdate(stocks[..n], i, row, p);
    }
  }

  lemma {:induction false} CommittedUpdate(orders: seq<Order>, o: nat, order: Order, p: ProductId)
    requires o < |orders|
    ensures Committed(orders[o := order], p) == Committed(orders, p) + Held(order, p) - Held(orders[o], p)
    decreases |orders|
  {
    var n := |orders| - 1;
    if o == n {
      assert orders[o := order][..n] == orders[..n];
    } else {
      assert orders[o := order][..n] == orders[..n][o := order];
      CommittedUpdate(orders[..n], o, order, p);
    }
  }

  lemma {:induction false} SoldUpdate(items: seq<Item>, k: nat, item: Item, p: ProductId)
    requires k < |items| && item.product == items[k].product
    ensures Sold(items[k := item], p)
         == Sold(items, p) + if item.product == p then item.quantity - items[k].quantity else 0
    decreases |items|
  {
    var n := |items| - 1;
    if k == n {
      assert items[k := item][..n] == items[..n];
    } else {
      assert items[k := item][..n] == items[..n][k := item];
      SoldUpdate(items[..n], k, item, p);
    }
  }

  lemma {:induction false} SoldConcat(a: seq<Item>, b: seq<Item>, p: ProductId)
    ensures Sold(a + b, p) == Sold(a, p) + Sold(b, p)
    decreases |b|
  {
    if b == [] {
      assert a + b == a;
    } else {
      assert (a + b)[..|a + b| - 1] == a + b[..|b| - 1];
      SoldConcat(a, b[..|b| - 1], p);
    }
  }

  lemma SoldRemove(items: seq<Item>, k: nat, p: ProductId)
    requires k < |items|
    ensures Sold(items, p)
         == Sold(items[..k] + items[k + 1..], p) + if items[k].product == p then items[k].quantity else 0
  {
    assert items == (items[..k] + [items[k]]) + items[k + 1..];
    SoldConcat(items[..k] + [items[k]], items[k + 1..], p);
    SoldConcat(items[..k], [items[k]], p);
    SoldConcat(items[..k], items[k + 1..], p);
    assert [items[k]][..0] == [];
  }

  // ---------------------------------------------------------------- the law

  /** What is on hand, less what the law predicts; the law is that it is zero. */
  function Surplus(l: Ledger, p: ProductId): int
  {
    OnHand(l.stocks, p) - Opening(l.stocks, p) - BoughtIn(l.receipts, p) - BroughtBack(l.returnRows, p)
    + Committed(l.orders, p)
  }

  /** A stock row's quantity, explained by its movements and its restorations. */
  predicate RowExplained(l: Ledger, i: nat)
    requires i < |l.stocks|
  {
    l.stocks[i].quantity == l.stocks[i].opening + Net(l.movements, i) + l.stocks[i].restored
  }

  ghost predicate Explained(l: Ledger)
  {
    && (forall i: nat :: i < |l.stocks| ==> RowExplained(l, i))
    && (forall m :: 0 <= m < |l.movements| ==> l.movements[m].stock < |l.stocks|)
  }

  predicate HasRow(stocks: seq<StockRow>, p: ProductId)
  {
    exists i :: 0 <= i < |stocks| && stocks[i].product == p
  }

  /** Every ordered product has a stock row, so no handler skips its stock write. */
  ghost predicate ItemsAreStocked(l: Ledger)
  {
    forall o, k :: 0 <= o < |l.orders| && 0 <= k < |l.orders[o].items| ==>
      HasRow(l.stocks, l.orders[o].items[k].product)
  }

  predicate TotalsAgree(order: Order)
  {
    || (order.subtotal == Subtotal(ItemsTotal(order.items)) && order.tax == Tax(ItemsTotal(order.items))
        && order.total == ItemsTotal(order.items) + order.shipping)
    || (order.status == Cancelled && order.items == [] && order.subtotal == 0 && order.tax == 0 && order.total == 0)
  }

  ghost predicate OrderInv(order: Order)
  {
    var trail := order.audit.trail;
    && trail != [] && IsTrail(trail) && trail[|trail| - 1] == order.status
    && order.audit.restocks <= (if order.status == Cancelled then 1 else 0)
    && (order.audit.priced ==> TotalsAgree(order))
  }

  ghost predicate LedgerInv(l: Ledger)
  {
    && (forall p :: Surplus(l, p) == 0)
    && Explained(l)
    && ItemsAreStocked(l)
    && (forall o :: 0 <= o < |l.orders| ==> OrderInv(l.orders[o]))
  }

  // ---------------------------------------------------------------- single writes

  /** `r` has the stock rows of `l`, with their products, and possibly more. */
  predicate KeepsRows(l: Ledger, r: Ledger)
  {
    |l.stocks| <= |r.stocks| && forall i :: 0 <= i < |l.stocks| ==> r.stocks[i].product == l.stocks[i].product
  }

  lemma RowsKept(l: Ledger, r: Ledger, p: ProductId)
    requires KeepsRows(l, r) && HasRow(l.stocks, p)
    ensures HasRow(r.stocks, p)
  {
  }

  lemma ItemsStayStocked(l: Ledger, r: Ledger)
    requires ItemsAreStocked(l) && KeepsRows(l, r) && r.orders == l.orders
    ensures ItemsAreStocked(r)
  {
  }

  lemma SameRowsExplained(l: Ledger, r: Ledger)
    requires Explained(l) && r.stocks == l.stocks && r.movements == l.movements
    ensures Explained(r)
  {
    forall i: nat | i < |r.stocks| ensures RowExplained(r, i) {
      assert RowExplained(l, i);
    }
  }

  /** The product-level effect of a stock write of `delta` units of `q`. */
  ghost predicate Shifts(l: Ledger, r: Ledger, q: ProductId, delta: int)
  {
    forall p :: Surplus(r, p) == Surplus(l, p) + if p == q then delta else 0
  }

  lemma MovedShifts(l: Ledger, i: nat, quantity: nat, kind: MovementType)
    requires i < |l.stocks|
    ensures var r := Moved(l, i, quantity, kind);
            && KeepsRows(l, r)
            && Shifts(l, r, l.stocks[i].product, Signed(Movement(i, quantity, kind)))
            && (Explained(l) ==> Explained(r))
  {
    var r := Moved(l, i, quantity, kind);
    var m := Movement(i, quantity, kind);
    assert r.movements[..|r.movements| - 1] == l.movements;
    assert r.stocks == l.stocks[i := r.stocks[i]] && r.stocks[i].quantity == l.stocks[i].quantity + Signed(m);
    forall p ensures Surplus(r, p) == Surplus(l, p) + if p == l.stocks[i].product then Signed(m) else 0 {
      OnHandUpdate(l.stocks, i, r.stocks[i], p);
    }
    if Explained(l) {
      forall j: nat | j < |r.stocks| ensures RowExplained(r, j) {
        assert RowExplained(l, j);
      }
    }
  }

  lemma MovedFirstShifts(l: Ledger, p: ProductId, quantity: nat, kind: MovementType)
    requires HasRow(l.stocks, p)
    ensures var r := MovedFirst(l, p, quantity, kind);
            && KeepsRows(l, r)
            && Shifts(l, r, p, if kind == Output then 0 - quantity else quantity)
            && (Explained(l) ==> Explained(r))
  {
    MovedShifts(l, FirstRow(l.stocks, p, None).value, quantity, kind);
  }

  lemma RestoredFirstShifts(l: Ledger, p: ProductId, quantity: nat)
    requires HasRow(l.stocks, p)
    ensures var r := RestoredFirst(l, p, quantity);
            && KeepsRows(l, r) && Shifts(l, r, p, quantity) && (Explained(l) ==> Explained(r))
  {
    var r := RestoredFirst(l, p, quantity);
    var i := FirstRow(l.stocks, p, None).value;
    forall q ensures Surplus(r, q) == Surplus(l, q) + if q == p then quantity else 0 {
      OnHandUpdate(l.stocks, i, r.stocks[i], q);
    }
    if Explained(l) {
      forall j: nat | j < |r.stocks| ensures RowExplained(r, j) {
        assert RowExplained(l, j);
      }
    }
  }

  lemma SoldHead(items: seq<Item>, p: ProductId)
    requires items != []
    ensures Sold(items, p) == Sold(items[1..], p) + if items[0].product == p then items[0].quantity else 0
  {
    assert items[..0] + items[1..] == items[1..];
    SoldRemove(items, 0, p);
  }

  lemma {:induction false} RestoredItemsShift(l: Ledger, items: seq<Item>)
    requires forall k :: 0 <= k < |items| ==> HasRow(l.stocks, items[k].product)
    ensures KeepsRows(l, RestoredItems(l, items))
    ensures Explained(l) ==> Explained(RestoredItems(l, items))
    ensures forall p :: Surplus(RestoredItems(l, items), p) == Surplus(l, p) + Sold(items, p)
    decreases |items|
  {
    if items != [] {
      var next := RestoredFirst(l, items[0].product, items[0].quantity);
      RestoredFirstShifts(l, items[0].product, items[0].quantity);
      forall k | 0 <= k < |items[1..]| ensures HasRow(next.stocks, items[1..][k].product) {
        RowsKept(l, next, items[k + 1].product);
      }
      RestoredItemsShift(next, items[1..]);
      var r := RestoredItems(l, items);
      assert r == RestoredItems(next, items[1..]);
      forall p ensures Surplus(r, p) == Surplus(l, p) + Sold(items, p) {
        assert Surplus(r, p) == Surplus(next, p) + Sold(items[1..], p);
        SoldHead(items, p);
      }
    }
  }

  lemma WithOrderShifts(l: Ledger, o: nat, order: Order, p: ProductId)
    requires o < |l.orders|
    ensures Surplus(WithOrder(l, o, order), p) == Surplus(l, p) + Held(order, p) - Held(l.orders[o], p)
  {
    CommittedUpdate(l.orders, o, order, p);
  }

  /** A handler's last write: the order is replaced after the stock writes that balance it. */
  lemma OrderReplaced(l: Ledger, mid: Ledger, o: nat, order: Order)
    requires LedgerInv(l) && o < |l.orders|
    requires mid.orders == l.orders && KeepsRows(l, mid) && Explained(mid)
    requires forall p :: Surplus(mid, p) == Held(l.orders[o], p) - Held(order, p)
    requires forall k :: 0 <= k < |order.items| ==> HasRow(l.stocks, order.items[k].product)
    requires OrderInv(order)
    ensures LedgerInv(WithOrder(mid, o, order))
  {
    var r := WithOrder(mid, o, order);
    forall p ensures Surplus(r, p) == 0 {
      WithOrderShifts(mid, o, order, p);
    }
    ItemsStayStocked(l, mid);
    forall k | 0 <= k < |order.items| ensures HasRow(r.stocks, order.items[k].product) {
      RowsKept(l, mid, order.items[k].product);
    }
    SameRowsExplained(mid, r);
  }

  // ---------------------------------------------------------------- creation

  lemma NewOrderKeeps(l: Ledger, status: Status, shipping: nat)
    requires LedgerInv(l) && status != Cancelled
    ensures LedgerInv(NewOrder(l, status, shipping))
    ensures !NewOrder(l, status, shipping).orders[|l.orders|].audit.priced
  {
    var r := NewOrder(l, status, shipping);
    forall p ensures Surplus(r, p) == 0 {
      assert r.orders[..|r.orders| - 1] == l.orders;
      assert Surplus(l, p) == 0;
    }
    SameRowsExplained(l, r);
  }

  predicate BeingFilled(l: Ledger, o: nat)
  {
    o < |l.orders| && !l.orders[o].audit.priced && l.orders[o].status != Cancelled
  }

  lemma WithItemKeeps(l: Ledger, o: nat, p: ProductId, quantity: nat, price: nat)
    requires LedgerInv(l) && BeingFilled(l, o) && HasRow(l.stocks, p)
    ensures var r := WithItem(l, o, p, quantity, price);
            LedgerInv(r) && BeingFilled(r, o) && KeepsRows(l, r)
  {
    var order := l.orders[o];
    var item := Item(l.nextItem, p, quantity, price);
    var grown := order.(items := order.items + [item]);
    var mid := MovedFirst(l, p, quantity, Output);
    MovedFirstShifts(l, p, quantity, Output);
    forall q ensures Surplus(mid, q) == Held(order, q) - Held(grown, q) {
      SoldConcat(order.items, [item], q);
      assert [item][..0] == [];
      assert Surplus(l, q) == 0;
    }
    OrderReplaced(l, mid, o, grown);
    var r := WithItem(l, o, p, quantity, price);
    var w := WithOrder(mid, o, grown);
    assert r == w.(nextItem := r.nextItem);
    forall q ensures Surplus(r, q) == 0 { assert Surplus(w, q) == 0; }
    SameRowsExplained(w, r);
  }

  ghost predicate Filling(l: Ledger, o: nat, sum: nat)
  {
    LedgerInv(l) && BeingFilled(l, o) && sum == ItemsTotal(l.orders[o].items)
  }

  lemma FillStep(l: Ledger, o: nat, p: ProductId, quantity: nat, price: nat, sum: nat)
    requires Filling(l, o, sum) && HasRow(l.stocks, p)
    ensures Filling(WithItem(l, o, p, quantity, price), o, sum + price * quantity)
  {
    WithItemKeeps(l, o, p, quantity, price);
    ItemsTotalGrows(l.orders[o].items, Item(l.nextItem, p, quantity, price));
  }

  lemma FoundRow(stocks: seq<StockRow>, p: ProductId, floor: Option<int>)
    requires FirstRow(stocks, p, floor).Some?
    ensures HasRow(stocks, p)
  {
  }

  lemma {:induction false} FormFilledKeeps(l: Ledger, o: nat, lines: seq<FormLine>, sum: nat)
    requires o < |l.orders| && Filling(l, o, sum)
    ensures var f := FormFilled(l, o, lines, sum);
            Filling(f.ledger, o, if f.outcome.Ok? then f.outcome.value else ItemsTotal(f.ledger.orders[o].items))
    decreases |lines|
  {
    hide LedgerInv;
    if lines == [] {
    } else if lines[0].quantity == None {
    } else if lines[0].quantity.value <= 0 {
      FormFilledKeeps(l, o, lines[1..], sum);
    } else if lines[0].product !in l.prices {
    } else if FirstRow(l.stocks, lines[0].product, lines[0].quantity) == None {
    } else {
      var p, q, price := lines[0].product, lines[0].quantity.value, l.prices[lines[0].product];
      FoundRow(l.stocks, p, lines[0].quantity);
      FillStep(l, o, p, q, price, sum);
      FormFilledKeeps(WithItem(l, o, p, q, price), o, lines[1..], sum + price * q);
    }
  }

  lemma ItemsTotalGrows(items: seq<Item>, item: Item)
    ensures ItemsTotal(items + [item]) == ItemsTotal(items) + item.price * item.quantity
  {
  }

  /** A write that touches only an order's totals and history. */
  lemma Finished(l: Ledger, o: nat, order: Order)
    requires LedgerInv(l) && o < |l.orders|
    requires order.status == l.orders[o].status && order.items == l.orders[o].items && OrderInv(order)
    ensures LedgerInv(WithOrder(l, o, order))
  {
    forall p ensures Surplus(l, p) == Held(l.orders[o], p) - Held(order, p) {}
    OrderReplaced(l, l, o, order);
  }

  lemma WebCreateKeeps(l: Ledger, form: Form, shipping: nat)
    requires LedgerInv(l)
    ensures LedgerInv(WebCreated(l, form, shipping).ledger)
  {
    if form.products != [] && form.hasClient {
      var o := |l.orders|;
      var start := NewOrder(l, Draft, shipping);
      NewOrderKeeps(l, Draft, shipping);
      FormFilledKeeps(start, o, FormLines(form), 0);
      var f := FormFilled(start, o, FormLines(form), 0);
      if f.outcome.Ok? {
        Finished(f.ledger, o, Priced(f.ledger.orders[o], f.outcome.value));
      }
    }
  }

  lemma {:induction false} LinesFilledKeeps(l: Ledger, o: nat, lines: seq<Line>, sum: nat)
    requires LedgerInv(l) && BeingFilled(l, o)
    ensures var f := LinesFilled(l, o, lines, sum);
            f.Ok? ==> LedgerInv(f.value.0) && BeingFilled(f.value.0, o)
    decreases |lines|
  {
    if lines != [] {
      var line := lines[0];
      if line.product in l.prices && FirstRow(l.stocks, line.product, None).Some? {
        var price := l.prices[line.product];
        WithItemKeeps(l, o, line.product, line.quantity, price);
        var next := WithItem(l, o, line.product, line.quantity, price);
        LinesFilledKeeps(next, o, lines[1..], sum + price * line.quantity);
      }
    }
  }

  lemma ServiceCreateKeeps(l: Ledger, lines: seq<Line>, taxRate: nat)
    requires LedgerInv(l)
    ensures ServiceCreated(l, lines, taxRate).Ok? ==> LedgerInv(ServiceCreated(l, lines, taxRate).value)
  {
    var o := |l.orders|;
    var start := NewOrder(l, Pending, 0);
    NewOrderKeeps(l, Pending, 0);
    LinesFilledKeeps(start, o, lines, 0);
    var f := LinesFilled(start, o, lines, 0);
    if f.Ok? {
      var (filled, sum) := f.value;
      var tax := RoundHalfEven(sum * taxRate, FULL_RATE);
      assert OrderInv(filled.orders[o]);
      hide LedgerInv;
      hide LinesFilled;
      Finished(filled, o, filled.orders[o].(subtotal := sum, tax := tax, total := sum + tax));
    }
  }

  // ---------------------------------------------------------------- edits

  lemma RebalancedShifts(l: Ledger, p: ProductId, diff: int)
    requires HasRow(l.stocks, p)
    ensures var r := Rebalanced(l, p, diff);
            r.Ok? ==> KeepsRows(l, r.value) && Shifts(l, r.value, p, -diff) && (Explained(l) ==> Explained(r.value))
  {
    if diff > 0 {
      var row := FirstRow(l.stocks, p, Some(diff));
      if row.Some? {
        MovedShifts(l, row.value, diff, Output);
      }
    } else if diff < 0 {
      MovedFirstShifts(l, p, -diff, Return);
    }
  }

  lemma EditKeeps(l: Ledger, o: nat, id: nat, quantity: Option<int>)
    requires LedgerInv(l)
    ensures ItemEdited(l, o, id, quantity).Ok? ==> LedgerInv(ItemEdited(l, o, id, quantity).value)
  {
    if ItemEdited(l, o, id, quantity).Ok? {
      var order := l.orders[o];
      var k := ItemIndex(order.items, id).value;
      var item := order.items[k];
      var changed := item.(quantity := quantity.value);
      var edited := Repriced(order.(items := order.items[k := changed]));
      var mid := Rebalanced(l, item.product, quantity.value - item.quantity).value;
      RebalancedShifts(l, item.product, quantity.value - item.quantity);
      forall p ensures Surplus(mid, p) == Held(order, p) - Held(edited, p) {
        SoldUpdate(order.items, k, changed, p);
        assert Surplus(l, p) == 0;
      }
      OrderReplaced(l, mid, o, edited);
    }
  }

  /** An item's stock goes back before the item leaves the order. */
  lemma RemovedItemShifts(l: Ledger, o: nat, k: nat, after: Order)
    requires LedgerInv(l) && o < |l.orders| && l.orders[o].status in EDITABLE && k < |l.orders[o].items|
    requires after.items == l.orders[o].items[..k] + l.orders[o].items[k + 1..]
    requires after.status != Cancelled || after.items == []
    requires OrderInv(after)
    ensures var item := l.orders[o].items[k];
            LedgerInv(WithOrder(MovedFirst(l, item.product, item.quantity, Return), o, after))
  {
    var order := l.orders[o];
    var item := order.items[k];
    var mid := MovedFirst(l, item.product, item.quantity, Return);
    MovedFirstShifts(l, item.product, item.quantity, Return);
    forall p ensures Surplus(mid, p) == Held(order, p) - Held(after, p) {
      SoldRemove(order.items, k, p);
      assert Surplus(l, p) == 0;
    }
    OrderReplaced(l, mid, o, after);
  }

  lemma DeleteKeeps(l: Ledger, o: nat, id: nat, hasNote: bool)
    requires LedgerInv(l)
    ensures ItemDeleted(l, o, id, hasNote).Ok? ==> LedgerInv(ItemDeleted(l, o, id, hasNote).value)
  {
    if ItemDeleted(l, o, id, hasNote).Ok? {
      var order := l.orders[o];
      var k := ItemIndex(order.items, id).value;
      var rest := order.(items := order.items[..k] + order.items[k + 1..]);
      assert OrderInv(order);
      if |order.items| == 1 {
        RemovedItemShifts(l, o, k, Moving(rest, Cancelled).(subtotal := 0, tax := 0, total := 0));
      } else {
        RemovedItemShifts(l, o, k, Repriced(rest));
      }
    }
  }

  lemma StatusKeeps(l: Ledger, o: nat, status: Status)
    requires LedgerInv(l)
    ensures StatusChanged(l, o, status).Ok? ==> LedgerInv(StatusChanged(l, o, status).value)
  {
    if StatusChanged(l, o, status).Ok? {
      var order := l.orders[o];
      var after := StatusChanged(l, o, status).value.orders[o];
      var mid := if status == Cancelled then RestoredItems(l, order.items) else l;
      RestoredItemsShift(l, order.items);
      forall p ensures Surplus(mid, p) == Held(order, p) - Held(after, p) {
        assert Surplus(l, p) == 0;
      }
      OrderReplaced(l, mid, o, after);
    }
  }

  // ---------------------------------------------------------------- returns and purchases

  lemma ReturnKeeps(l: Ledger, o: nat, p: ProductId, quantity: int)
    requires LedgerInv(l)
    ensures GoodsReturned(l, o, p, quantity).Ok? ==> LedgerInv(GoodsReturned(l, o, p, quantity).value)
  {
    if GoodsReturned(l, o, p, quantity).Ok? {
      var noted := l.(returnRows := l.returnRows + [ReturnRow(o, p, quantity, true)]);
      var r := GoodsReturned(l, o, p, quantity).value;
      assert noted.returnRows[..|noted.returnRows| - 1] == l.returnRows;
      assert HasRow(l.stocks, l.orders[o].items[FirstItemOf(l.orders[o].items, p).value].product);
      SameRowsExplained(l, noted);
      MovedFirstShifts(noted, p, quantity, Return);
      forall q ensures Surplus(r, q) == 0 {
        assert Surplus(l, q) == 0;
        assert Surplus(noted, q) == Surplus(l, q) - if q == p then quantity else 0;
      }
      ItemsStayStocked(l, r);
    }
  }

  lemma WithRowKeeps(l: Ledger, p: ProductId, w: WarehouseId, quantity: int)
    requires LedgerInv(l)
    ensures LedgerInv(WithRow(l, p, w, quantity)) && KeepsRows(l, WithRow(l, p, w, quantity))
  {
    var r := WithRow(l, p, w, quantity);
    forall q ensures Surplus(r, q) == 0 {
      assert r.stocks[..|r.stocks| - 1] == l.stocks;
      assert Surplus(l, q) == 0;
    }
    forall i: nat | i < |r.stocks| ensures RowExplained(r, i) {
      if i < |l.stocks| {
        assert RowExplained(l, i);
      } else {
        NoMovements(l.movements, i);
      }
    }
    ItemsStayStocked(l, r);
  }

  lemma {:induction false} NoMovements(movements: seq<Movement>, i: nat)
    requires forall m :: 0 <= m < |movements| ==> movements[m].stock != i
    ensures Net(movements, i) == 0
    decreases |movements|
  {
    if movements != [] {
      NoMovements(movements[..|movements| - 1], i);
    }
  }

  lemma LineReceivedKeeps(l: Ledger, w: WarehouseId, line: Line)
    requires LedgerInv(l)
    ensures LedgerInv(LineReceived(l, w, line))
  {
    var row := RowOf(l.stocks, line.product, w);
    var ready := if row == None then WithRow(l, line.product, w, 0) else l;
    WithRowKeeps(l, line.product, w, 0);
    var i := if row == None then |l.stocks| else row.value;
    var arrived := Moved(ready, i, line.quantity, Input);
    MovedShifts(ready, i, line.quantity, Input);
    var r := LineReceived(l, w, line);
    assert r == arrived.(receipts := l.receipts + [line]);
    assert r.receipts[..|r.receipts| - 1] == l.receipts;
    forall p ensures Surplus(r, p) == 0 {
      assert Surplus(ready, p) == 0;
    }
    SameRowsExplained(arrived, r);
    ItemsStayStocked(ready, r);
  }

  lemma {:induction false} ReceiveKeeps(l: Ledger, w: WarehouseId, lines: seq<Line>)
    requires LedgerInv(l)
    ensures LedgerInv(PurchaseReceived(l, w, lines))
    decreases |lines|
  {
    if lines != [] {
      LineReceivedKeeps(l, w, lines[0]);
      ReceiveKeeps(LineReceived(l, w, lines[0]), w, lines[1..]);
    }
  }

  lemma PriceKeeps(l: Ledger, p: ProductId, price: nat)
    requires LedgerInv(l)
    ensures LedgerInv(l.(prices := l.prices[p := price]))
  {
    var r := l.(prices := l.prices[p := price]);
    forall q ensures Surplus(r, q) == 0 { assert Surplus(l, q) == 0; }
    SameRowsExplained(l, r);
  }

  // ---------------------------------------------------------------- every run

  lemma LedgerStep(l: Ledger, step: Step)
    requires LedgerInv(l)
    ensures LedgerInv(Apply(l, step))
  {
    match step {
      case SetPrice(p, price) => PriceKeeps(l, p, price);
      case OpenStock(p, w, quantity) => WithRowKeeps(l, p, w, if quantity < 0 then 0 else quantity);
      case WebCreate(form, shipping) => WebCreateKeeps(l, form, shipping);
      case ServiceCreate(lines, taxRate) => ServiceCreateKeeps(l, lines, taxRate);
      case EditItem(o, item, quantity) => EditKeeps(l, o, item, quantity);
      case DeleteItem(o, item, hasNote) => DeleteKeeps(l, o, item, hasNote);
      case ChangeStatus(o, status) => StatusKeeps(l, o, status);
      case ReturnGoods(o, p, quantity) => ReturnKeeps(l, o, p, quantity);
      case Receive(w, lines) => ReceiveKeeps(l, w, lines);
    }
  }

  lemma {:induction false} LedgerRun(l: Ledger, steps: seq<Step>)
    requires LedgerInv(l)
    ensures LedgerInv(Run(l, steps))
    decreases |steps|
  {
    if steps != [] {
      LedgerStep(l, steps[0]);
      LedgerRun(Apply(l, steps[0]), steps[1..]);
    }
  }
}
