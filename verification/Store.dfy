/** The handlers themselves, updating the tables in place: the stock signals, order
    creation, item edits, cancellations, returns and purchase receipts. Each is proved
    against the value-level account in `StockLedger`. */
module Store {
  import opened Wrappers
  import opened Money
  import opened OrderStatus
  import opened StockLedger

  /** The next line of the form, and the end of it. */
  lemma FormFilledFrom(l: Ledger, o: nat, lines: seq<FormLine>, i: nat, sum: nat)
    requires o < |l.orders| && i <= |lines|
    ensures i == |lines| ==> FormFilled(l, o, lines[i..], sum) == Filled(l, Ok(sum))
    ensures i < |lines| ==>
              FormFilled(l, o, lines[i..], sum) ==
              var line := lines[i];
              if line.quantity == None then Filled(l, Err(BadQuantity))
              else if line.quantity.value <= 0 then FormFilled(l, o, lines[i + 1..], sum)
              else if line.product !in l.prices then Filled(l, Err(UnknownProduct))
              else if FirstRow(l.stocks, line.product, line.quantity) == None then Filled(l, Err(OutOfStock))
              else
                var price := l.prices[line.product];
                FormFilled(WithItem(l, o, line.product, line.quantity.value, price), o, lines[i + 1..],
                           sum + price * line.quantity.value)
  {
    if i < |lines| {
      assert lines[i..][0] == lines[i] && lines[i..][1..] == lines[i + 1..];
    }
  }

  class Database {
    var stocks: seq<StockRow>
    var movements: seq<Movement>
    var orders: seq<Order>
    var returnRows: seq<ReturnRow>
    var prices: map<ProductId, nat>
    var nextItem: nat
    var receipts: seq<Line>

    function Tables(): Ledger
      reads this
    {
      Ledger(stocks, movements, orders, returnRows, prices, nextItem, receipts)
    }

    constructor ()
      ensures Tables() == EMPTY
    {
      stocks, movements, orders, returnRows := [], [], [], [];
      prices, nextItem, receipts := map[], 0, [];
    }

    /** The rollback of a failed transaction. */
    method Rollback(saved: Ledger)
      modifies this
      ensures Tables() == saved
    {
      stocks, movements, orders, returnRows := saved.stocks, saved.movements, saved.orders, saved.returnRows;
      prices, nextItem, receipts := saved.prices, saved.nextItem, saved.receipts;
    }

    // -------------------------------------------------------------- signals

    /** A stock row is written back together with its movement record. */
    method MoveStock(row: nat, quantity: nat, kind: MovementType)
      requires row < |stocks|
      modifies this`stocks, this`movements
      ensures Tables() == Moved(old(Tables()), row, quantity, kind)
    {
      var stock := stocks[row];
      if kind == Output {
        stock := stock.(quantity := stock.quantity - quantity);
      } else {
        stock := stock.(quantity := stock.quantity + quantity);
      }
      stocks := stocks[row := stock];
      movements := movements + [Movement(row, quantity, kind)];
    }

    /** Units given back to a product's first row, with their movement record. */
    method GiveBack(product: ProductId, quantity: nat)
      modifies this`stocks, this`movements
      ensures Tables() == MovedFirst(old(Tables()), product, quantity, Return)
    {
      var stock := FirstRow(stocks, product, None);
      if stock.Some? {
        MoveStock(stock.value, quantity, Return);
      }
    }

    method AdjustStockOnSale(item: Item)
      modifies this`stocks, this`movements
      ensures Tables() == MovedFirst(old(Tables()), item.product, item.quantity, Output)
    {
      var stock := FirstRow(stocks, item.product, None);
      if stock.Some? {
        MoveStock(stock.value, item.quantity, Output);
      }
    }

    method UpdateStockOnReceived(warehouse: WarehouseId, lines: seq<Line>)
      modifies this`stocks, this`movements, this`receipts
      ensures Tables() == PurchaseReceived(old(Tables()), warehouse, lines)
    {
      for i := 0 to |lines|
        invariant PurchaseReceived(Tables(), warehouse, lines[i..]) == PurchaseReceived(old(Tables()), warehouse, lines)
      {
        assert lines[i..][1..] == lines[i + 1..];
        ghost var before := Tables();
        var line := lines[i];
        var row := RowOf(stocks, line.product, warehouse);
        if row == None {
          stocks := stocks + [StockRow(line.product, warehouse, 0, 0, 0)];
          row := Some(|stocks| - 1);
        }
        MoveStock(row.value, line.quantity, Input);
        receipts := receipts + [line];
        assert Tables() == LineReceived(before, warehouse, line);
      }
    }

    method HandleStockOnReturn(row: ReturnRow)
      modifies this`stocks, this`movements
      ensures Tables() ==
        if row.reentered then MovedFirst(old(Tables()), row.product, row.quantity, Return) else old(Tables())
    {
      if row.reentered {
        GiveBack(row.product, row.quantity);
      }
    }

    // -------------------------------------------------------------- creation

    method CreateOrderRow(status: Status, shipping: nat) returns (o: nat)
      modifies this`orders
      ensures o == |old(orders)| && Tables() == NewOrder(old(Tables()), status, shipping)
    {
      o := |orders|;
      orders := orders + [Order(status, [], shipping, 0, 0, 0, Audit([status], false, 0))];
    }

    method CreateItemRow(o: nat, product: ProductId, quantity: nat, price: nat)
      requires o < |orders|
      modifies this`stocks, this`movements, this`orders, this`nextItem
      ensures Tables() == WithItem(old(Tables()), o, product, quantity, price)
    {
      var item := Item(nextItem, product, quantity, price);
      nextItem := nextItem + 1;
      orders := orders[o := orders[o].(items := orders[o].items + [item])];
      AdjustStockOnSale(item);
    }

    /** The items of the web form, up to the first line that fails. */
    method ProcessItems(o: nat, form: Form) returns (outcome: Result<nat, Failure>)
      requires o < |orders|
      modifies this
      ensures Filled(Tables(), outcome) == FormFilled(old(Tables()), o, FormLines(form), 0)
    {
      hide WithItem;
      hide FormFilled;
      var totalSubtotal: nat := 0;
      ghost var lines := FormLines(form);
      assert lines[0..] == lines;
      var i := 0;
      while i < |form.products| && i < |form.quantities|
        invariant 0 <= i <= |lines| && o < |orders|
        invariant FormFilled(Tables(), o, lines[i..], totalSubtotal) == FormFilled(old(Tables()), o, lines, 0)
      {
        var line := FormLine(form.products[i], form.quantities[i]);
        FormFilledFrom(Tables(), o, lines, i, totalSubtotal);
        i := i + 1;
        if line.quantity == None {
          return Err(BadQuantity);
        }
        var qty := line.quantity.value;
        if qty <= 0 {
          continue;
        }
        if line.product !in prices {
          return Err(UnknownProduct);
        }
        var stockRecord := FirstRow(stocks, line.product, Some(qty));
        if stockRecord == None {
          return Err(OutOfStock);
        }
        var price := prices[line.product];
        CreateItemRow(o, line.product, qty, price);
        totalSubtotal := totalSubtotal + price * qty;
      }
      FormFilledFrom(Tables(), o, lines, i, totalSubtotal);
      return Ok(totalSubtotal);
    }

    method OrderCreateView(form: Form, shipping: nat) returns (outcome: Result<nat, Failure>)
      modifies this
      ensures Filled(Tables(), outcome) == WebCreated(old(Tables()), form, shipping)
    {
      if form.products == [] {
        return Err(NoProducts);
      }
      if !form.hasClient {
        return Err(NoClient);
      }
      var o := CreateOrderRow(Draft, shipping);
      outcome := ProcessItems(o, form);
      if outcome.Ok? {
        orders := orders[o := Priced(orders[o], outcome.value)];
      }
    }

    method CreateOrder(lines: seq<Line>, taxRate: nat) returns (outcome: Result<nat, Failure>)
      modifies this
      ensures var created := ServiceCreated(old(Tables()), lines, taxRate);
              && (outcome.Ok? <==> created.Ok?)
              && (outcome.Err? ==> created == Err(outcome.error) && Tables() == old(Tables()))
              && (outcome.Ok? ==> outcome.value == |old(orders)| && Tables() == created.value)
    {
      var saved := Tables();
      var o := CreateOrderRow(Pending, 0);
      var runningSubtotal: nat := 0;
      ghost var start := Tables();
      assert lines[0..] == lines;
      for i := 0 to |lines|
        invariant o < |orders|
        invariant LinesFilled(Tables(), o, lines[i..], runningSubtotal) == LinesFilled(start, o, lines, 0)
      {
        assert lines[i..][1..] == lines[i + 1..];
        var line := lines[i];
        if line.product !in prices {
          Rollback(saved);
          return Err(UnknownProduct);
        }
        var stockRecord := FirstRow(stocks, line.product, None);
        if stockRecord == None || stocks[stockRecord.value].quantity < line.quantity {
          Rollback(saved);
          return Err(OutOfStock);
        }
        var currentPrice := prices[line.product];
        CreateItemRow(o, line.product, line.quantity, currentPrice);
        runningSubtotal := runningSubtotal + currentPrice * line.quantity;
      }
      var tax := RoundHalfEven(runningSubtotal * taxRate, FULL_RATE);
      orders := orders[o := orders[o].(subtotal := runningSubtotal, tax := tax, total := runningSubtotal + tax)];
      return Ok(o);
    }

    // -------------------------------------------------------------- edits

    method RecalculateOrderTotals(o: nat)
      requires o < |orders|
      modifies this`orders
      ensures orders == old(orders)[o := Repriced(old(orders)[o])]
    {
      var items := orders[o].items;
      var totalWithTax := 0;
      for i := 0 to |items|
        invariant totalWithTax == ItemsTotal(items[..i])
      {
        assert items[..i + 1][..i] == items[..i];
        totalWithTax := totalWithTax + items[i].price * items[i].quantity;
      }
      assert items[..|items|] == items;
      var subtotal := Subtotal(totalWithTax);
      var order := orders[o].(subtotal := subtotal, tax := totalWithTax - subtotal);
      order := order.(total := totalWithTax + order.shipping);
      orders := orders[o := order.(audit := order.audit.(priced := true))];
    }

    method RestoreOrderStock(o: nat)
      requires o < |orders|
      modifies this`stocks
      ensures Tables() == RestoredItems(old(Tables()), old(orders)[o].items)
    {
      var items := orders[o].items;
      for i := 0 to |items|
        invariant RestoredItems(Tables(), items[i..]) == RestoredItems(old(Tables()), items)
      {
        assert items[i..][1..] == items[i + 1..];
        var stock := FirstRow(stocks, items[i].product, None);
        if stock.Some? {
          var row := stocks[stock.value];
          row := row.(quantity := row.quantity + items[i].quantity);
          stocks := stocks[stock.value := row.(restored := row.restored + items[i].quantity)];
        }
      }
    }

    /** The stock side of a changed quantity. */
    method Rebalance(product: ProductId, diff: int) returns (covered: bool)
      modifies this`stocks, this`movements
      ensures var r := Rebalanced(old(Tables()), product, diff);
              && (covered <==> r.Ok?)
              && (!covered ==> r == Err(OutOfStock))
              && Tables() == OrElse(r, old(Tables()))
    {
      if diff > 0 {
        var stock := FirstRow(stocks, product, Some(diff));
        if stock == None {
          return false;
        }
        MoveStock(stock.value, diff, Output);
      } else if diff < 0 {
        GiveBack(product, -diff);
      }
      return true;
    }

    method OrderItemEditView(o: nat, id: nat, quantity: Option<int>) returns (outcome: Result<(), Failure>)
      modifies this
      ensures var edited := ItemEdited(old(Tables()), o, id, quantity);
              && (outcome.Ok? <==> edited.Ok?)
              && (outcome.Err? ==> edited == Err(outcome.error))
              && Tables() == OrElse(edited, old(Tables()))
    {
      if o >= |orders| || ItemIndex(orders[o].items, id) == None {
        return Err(NotFound);
      }
      if orders[o].status != Draft && orders[o].status != Pending {
        return Err(NotEditable);
      }
      if quantity == None || quantity.value <= 0 {
        return Err(BadQuantity);
      }
      hide Repriced;
      hide MovedFirst;
      hide Rebalanced;
      var k := ItemIndex(orders[o].items, id).value;
      var item := orders[o].items[k];
      var newQty := quantity.value;
      var covered := Rebalance(item.product, newQty - item.quantity);
      if !covered {
        return Err(OutOfStock);
      }
      item := item.(quantity := newQty);
      orders := orders[o := orders[o].(items := orders[o].items[k := item])];
      RecalculateOrderTotals(o);
      return Ok(());
    }

    method OrderItemDeleteView(o: nat, id: nat, hasNote: bool) returns (outcome: Result<(), Failure>)
      modifies this
      ensures var deleted := ItemDeleted(old(Tables()), o, id, hasNote);
              && (outcome.Ok? <==> deleted.Ok?)
              && (outcome.Err? ==> deleted == Err(outcome.error))
              && Tables() == OrElse(deleted, old(Tables()))
    {
      if o >= |orders| || ItemIndex(orders[o].items, id) == None {
        return Err(NotFound);
      }
      if orders[o].status != Draft && orders[o].status != Pending {
        return Err(NotEditable);
      }
      var isLastItem := |orders[o].items| == 1;
      if isLastItem && !hasNote {
        return Err(NoteMissing);
      }
      hide Repriced;
      hide MovedFirst;
      var items := orders[o].items;
      var k := ItemIndex(items, id).value;
      var item := items[k];
      GiveBack(item.product, item.quantity);
      orders := orders[o := orders[o].(items := items[..k] + items[k + 1..])];
      if isLastItem {
        var order := Moving(orders[o], Cancelled);
        orders := orders[o := order.(subtotal := 0, tax := 0, total := 0)];
      } else {
        RecalculateOrderTotals(o);
      }
      return Ok(());
    }

    method OrderCancelView(o: nat) returns (found: bool)
      modifies this
      ensures found <==> o < |old(orders)|
      ensures Tables() == OrElse(StatusChanged(old(Tables()), o, Cancelled), old(Tables()))
    {
      if o >= |orders| {
        return false;
      }
      if Cancelled in ValidTransitions(orders[o].status) {
        RestoreOrderStock(o);
        var order := Moving(orders[o], Cancelled);
        orders := orders[o := order.(audit := order.audit.(restocks := order.audit.restocks + 1))];
      }
      return true;
    }

    /** The change-status page and the status modal, which take the same steps. */
    method OrderChangeStatusView(o: nat, status: Status) returns (outcome: Result<(), Failure>)
      modifies this
      ensures var changed := StatusChanged(old(Tables()), o, status);
              && (outcome.Ok? <==> changed.Ok?)
              && (outcome.Err? ==> changed == Err(outcome.error))
              && Tables() == OrElse(changed, old(Tables()))
    {
      if o >= |orders| {
        return Err(NotFound);
      }
      if status !in ValidTransitions(orders[o].status) {
        return Err(InvalidTransition);
      }
      if status == Cancelled {
        RestoreOrderStock(o);
        var order := Moving(orders[o], Cancelled);
        orders := orders[o := order.(audit := order.audit.(restocks := order.audit.restocks + 1))];
      } else {
        orders := orders[o := Moving(orders[o], status)];
      }
      return Ok(());
    }

    // -------------------------------------------------------------- returns

    method ProcessReturn(o: nat, product: ProductId, quantity: int) returns (outcome: Result<(), Failure>)
      modifies this
      ensures var done := GoodsReturned(old(Tables()), o, product, quantity);
              && (outcome.Ok? <==> done.Ok?)
              && (outcome.Err? ==> done == Err(outcome.error))
              && Tables() == OrElse(done, old(Tables()))
    {
      if quantity <= 0 {
        return Err(BadQuantity);
      }
      if o >= |orders| {
        return Err(NotFound);
      }
      var orderItem := FirstItemOf(orders[o].items, product);
      if orderItem == None {
        return Err(NotInOrder);
      }
      var alreadyReturned := AlreadyReturned(returnRows, o, product);
      if quantity > orders[o].items[orderItem.value].quantity - alreadyReturned {
        return Err(ExceedsSale);
      }
      var row := ReturnRow(o, product, quantity, true);
      returnRows := returnRows + [row];
      HandleStockOnReturn(row);
      return Ok(());
    }
  }
}
