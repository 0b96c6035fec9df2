/** The main results about stock and orders, over every run of the handlers. */
module LedgerLaws {
  import opened Wrappers
  import opened Money
  import opened OrderStatus
  import opened StockLedger
  import opened LedgerConservation

  lemma EmptyInv()
    ensures LedgerInv(EMPTY)
  {
  }

  /** Stock is conserved: per product, the stock rows hold what they opened with, plus what
      was received and returned, less the items of the orders that are not cancelled. */
  lemma StockConservation(steps: seq<Step>, p: ProductId)
    ensures var l := Run(EMPTY, steps);
            OnHand(l.stocks, p) ==
            Opening(l.stocks, p) + BoughtIn(l.receipts, p) + BroughtBack(l.returnRows, p) - Committed(l.orders, p)
  {
    EmptyInv();
    LedgerRun(EMPTY, steps);
    assert Surplus(Run(EMPTY, steps), p) == 0;
  }

  /** Every stock row is explained by its own movements, except for what cancellations put back. */
  lemma RowHistory(steps: seq<Step>, i: nat)
    requires i < |Run(EMPTY, steps).stocks|
    ensures var l := Run(EMPTY, steps);
            l.stocks[i].quantity == l.stocks[i].opening + Net(l.movements, i) + l.stocks[i].restored
  {
    EmptyInv();
    LedgerRun(EMPTY, steps);
    assert RowExplained(Run(EMPTY, steps), i);
  }

  /** Once the web pages have computed an order's totals, they agree with its items after
      every later step, or the order is cancelled and empty. */
  lemma StoredTotalsAgree(steps: seq<Step>, o: nat)
    requires o < |Run(EMPTY, steps).orders|
    ensures var order := Run(EMPTY, steps).orders[o];
            order.audit.priced ==>
              || (&& order.status == Cancelled && order.items == []
                  && order.subtotal == 0 && order.tax == 0 && order.total == 0)
              || (&& order.subtotal == RoundHalfUp(100 * ItemsTotal(order.items), 118)
                  && order.subtotal + order.tax == ItemsTotal(order.items)
                  && order.total == ItemsTotal(order.items) + order.shipping)
  {
    EmptyInv();
    LedgerRun(EMPTY, steps);
    TaxSplit(ItemsTotal(Run(EMPTY, steps).orders[o].items));
  }

  lemma {:induction false} FormFilledKeepsOrders(l: Ledger, o: nat, lines: seq<FormLine>, sum: nat)
    requires o < |l.orders|
    ensures var r := FormFilled(l, o, lines, sum).ledger;
            && |r.orders| == |l.orders| && r.returnRows == l.returnRows
            && forall k :: 0 <= k < |l.orders| && k != o ==> r.orders[k] == l.orders[k]
    decreases |lines|
  {
    if lines != [] {
      var line := lines[0];
      if line.quantity.Some? && line.quantity.value <= 0 {
        FormFilledKeepsOrders(l, o, lines[1..], sum);
      } else if line.quantity.Some? && line.product in l.prices
                && FirstRow(l.stocks, line.product, line.quantity).Some? {
        var price := l.prices[line.product];
        FormFilledKeepsOrders(WithItem(l, o, line.product, line.quantity.value, price), o, lines[1..],
                              sum + price * line.quantity.value);
      }
    }
  }

  lemma {:induction false} LinesFilledKeepsOrders(l: Ledger, o: nat, lines: seq<Line>, sum: nat)
    requires o < |l.orders|
    ensures var f := LinesFilled(l, o, lines, sum);
            f.Ok? ==> && |f.value.0.orders| == |l.orders| && f.value.0.returnRows == l.returnRows
                      && f.value.0.orders[o].status == l.orders[o].status
                      && forall k :: 0 <= k < |l.orders| && k != o ==> f.value.0.orders[k] == l.orders[k]
    decreases |lines|
  {
    if lines != [] {
      var line := lines[0];
      if line.product in l.prices && FirstRow(l.stocks, line.product, None).Some? {
        var price := l.prices[line.product];
        var next := WithItem(l, o, line.product, line.quantity, price);
        LinesFilledKeepsOrders(next, o, lines[1..], sum + price * line.quantity);
      }
    }
  }

  lemma {:induction false} ReceiveKeepsOrders(l: Ledger, w: WarehouseId, lines: seq<Line>)
    ensures PurchaseReceived(l, w, lines).orders == l.orders
    ensures PurchaseReceived(l, w, lines).returnRows == l.returnRows
    decreases |lines|
  {
    if lines != [] {
      ReceiveKeepsOrders(LineReceived(l, w, lines[0]), w, lines[1..]);
    }
  }

  /** Creations, prices, stock and returns leave the existing orders alone. */
  lemma ExistingOrdersKept(l: Ledger, step: Step)
    requires !step.EditItem? && !step.DeleteItem? && !step.ChangeStatus?
    ensures var r := Apply(l, step);
            && |l.orders| <= |r.orders|
            && (forall k :: 0 <= k < |l.orders| ==> r.orders[k] == l.orders[k])
            && (!step.ReturnGoods? ==> r.returnRows == l.returnRows)
  {
    match step {
      case WebCreate(form, shipping) =>
        FormFilledKeepsOrders(NewOrder(l, Draft, shipping), |l.orders|, FormLines(form), 0);
      case ServiceCreate(lines, taxRate) => LinesFilledKeepsOrders(NewOrder(l, Pending, 0), |l.orders|, lines, 0);
      case Receive(w, lines) => ReceiveKeepsOrders(l, w, lines);
      case _ =>
    }
  }

  /** What counts as computing the totals: a successful web creation, and any edit or
      delete that succeeds, except that deleting the last item cancels the order with zero
      totals instead; and no step forgets it. */
  lemma PricedByTheWeb(l: Ledger, step: Step)
    ensures forall o :: 0 <= o < |l.orders| && l.orders[o].audit.priced ==>
              o < |Apply(l, step).orders| && Apply(l, step).orders[o].audit.priced
    ensures step.WebCreate? && WebCreated(l, step.form, step.shipping).outcome.Ok? ==>
              |Apply(l, step).orders| == |l.orders| + 1 && Apply(l, step).orders[|l.orders|].audit.priced
    ensures step.EditItem? && ItemEdited(l, step.order, step.item, step.newQuantity).Ok? ==>
              Apply(l, step).orders[step.order].audit.priced
    ensures step.DeleteItem? && ItemDeleted(l, step.order, step.item, step.hasNote).Ok? ==>
              var after := Apply(l, step).orders[step.order];
              if |l.orders[step.order].items| > 1 then after.audit.priced
              else after.status == Cancelled && after.items == [] && after.total == 0
  {
    if !step.EditItem? && !step.DeleteItem? && !step.ChangeStatus? {
      ExistingOrdersKept(l, step);
    }
  }

  /** Every handler changes an existing order's status along an edge of the transition
      table, or not at all, and removes no order. */
  lemma StatusStepsAreEdges(l: Ledger, step: Step, o: nat)
    requires o < |l.orders|
    ensures o < |Apply(l, step).orders|
    ensures var before, after := l.orders[o].status, Apply(l, step).orders[o].status;
            after == before || after in ValidTransitions(before)
    ensures var before, after := l.orders[o], Apply(l, step).orders[o];
            after.audit.trail == before.audit.trail + if after.status == before.status then [] else [after.status]
  {
    match step {
      case EditItem(e, item, quantity) => EditIsNoChange(l, e, item, quantity, o);
      case DeleteItem(e, item, hasNote) => DeleteIsAnEdge(l, e, item, hasNote, o);
      case ChangeStatus(e, status) => ChangeIsAnEdge(l, e, status, o);
      case _ => ExistingOrdersKept(l, step);
    }
  }

  lemma EditIsNoChange(l: Ledger, e: nat, item: nat, quantity: Option<int>, o: nat)
    requires o < |l.orders|
    ensures var r := OrElse(ItemEdited(l, e, item, quantity), l);
            |r.orders| == |l.orders| && r.orders[o].status == l.orders[o].status
            && r.orders[o].audit.trail == l.orders[o].audit.trail
  {
  }

  lemma ChangeIsAnEdge(l: Ledger, e: nat, status: Status, o: nat)
    requires o < |l.orders|
    ensures var r := OrElse(StatusChanged(l, e, status), l);
            && |r.orders| == |l.orders|
            && (r.orders[o].status == l.orders[o].status ==> r.orders[o].audit.trail == l.orders[o].audit.trail)
            && (r.orders[o].status != l.orders[o].status ==>
                  && r.orders[o].status in ValidTransitions(l.orders[o].status)
                  && r.orders[o].audit.trail == l.orders[o].audit.trail + [r.orders[o].status])
  {
  }

  lemma DeleteIsAnEdge(l: Ledger, e: nat, item: nat, hasNote: bool, o: nat)
    requires o < |l.orders|
    ensures var r := OrElse(ItemDeleted(l, e, item, hasNote), l);
            && |r.orders| == |l.orders|
            && (r.orders[o].status == l.orders[o].status ==> r.orders[o].audit.trail == l.orders[o].audit.trail)
            && (r.orders[o].status != l.orders[o].status ==>
                  && r.orders[o].status in ValidTransitions(l.orders[o].status)
                  && r.orders[o].audit.trail == l.orders[o].audit.trail + [r.orders[o].status])
  {
  }

  /** Over every run, an order changes status at most five times, never returns to a
      status it left, and a cancellation puts its stock back at most once. */
  lemma OrderHistories(steps: seq<Step>, o: nat)
    requires o < |Run(EMPTY, steps).orders|
    ensures var order := Run(EMPTY, steps).orders[o];
            var trail := order.audit.trail;
            && 1 <= |trail| <= 6 && trail[|trail| - 1] == order.status && IsTrail(trail)
            && (forall i, j :: 0 <= i < j < |trail| ==> trail[i] != trail[j])
            && order.audit.restocks <= 1
            && (order.audit.restocks == 1 ==> order.status == Cancelled)
  {
    EmptyInv();
    LedgerRun(EMPTY, steps);
    TrailsAreShort(Run(EMPTY, steps).orders[o].audit.trail);
  }

  // ---------------------------------------------------------------- all-or-nothing creation

  function Asked(lines: seq<Line>, p: ProductId): nat
    decreases |lines|
  {
    if lines == [] then 0 else (if lines[0].product == p then lines[0].quantity else 0) + Asked(lines[1..], p)
  }

  /** The first stock row of the product holds all that the lines ask of it. */
  predicate Covers(stocks: seq<StockRow>, lines: seq<Line>, p: ProductId)
  {
    var row := FirstRow(stocks, p, None);
    row.Some? && Asked(lines, p) <= stocks[row.value].quantity
  }

  predicate CanFill(l: Ledger, lines: seq<Line>)
  {
    forall k :: 0 <= k < |lines| ==> lines[k].product in l.prices && Covers(l.stocks, lines, lines[k].product)
  }

  /** What the lines draw on a row: everything asked of its product if it is the first. */
  function Draw(stocks: seq<StockRow>, i: nat, lines: seq<Line>): nat
    requires i < |stocks|
  {
    if FirstRow(stocks, stocks[i].product, None) == Some(i) then Asked(lines, stocks[i].product) else 0
  }

  /** Each product's first row drops by what was asked; every other row keeps its quantity. */
  predicate Drawn(before: seq<StockRow>, after: seq<StockRow>, lines: seq<Line>)
  {
    && |after| == |before|
    && forall i :: 0 <= i < |before| ==>
         after[i] == before[i].(quantity := before[i].quantity - Draw(before, i, lines))
  }

  lemma {:induction false} FirstRowDependsOnProducts(a: seq<StockRow>, b: seq<StockRow>, p: ProductId)
    requires |a| == |b| && forall i :: 0 <= i < |a| ==> a[i].product == b[i].product
    ensures FirstRow(a, p, None) == FirstRow(b, p, None)
    decreases |a|
  {
    if a != [] && a[0].product != p {
      FirstRowDependsOnProducts(a[1..], b[1..], p);
    }
  }

  lemma {:induction false} NothingAsked(lines: seq<Line>, p: ProductId)
    requires forall k :: 0 <= k < |lines| ==> lines[k].product != p
    ensures Asked(lines, p) == 0
    decreases |lines|
  {
    if lines != [] {
      NothingAsked(lines[1..], p);
    }
  }

  lemma OneLineDrawn(l: Ledger, o: nat, line: Line, price: nat)
    requires o < |l.orders| && FirstRow(l.stocks, line.product, None).Some?
    ensures var next := WithItem(l, o, line.product, line.quantity, price);
            Drawn(l.stocks, next.stocks, [line]) && next.prices == l.prices
  {
    var row := FirstRow(l.stocks, line.product, None).value;
    assert forall x :: Asked([line], x) == if x == line.product then line.quantity else 0 by {
      assert [line][1..] == [];
    }
    assert Draw(l.stocks, row, [line]) == line.quantity;
  }

  /** After one line is drawn, a product is covered for the rest exactly when it was
      covered for all of them. */
  lemma CoverAfterOne(before: seq<StockRow>, after: seq<StockRow>, lines: seq<Line>, p: ProductId)
    requires lines != [] && Drawn(before, after, [lines[0]])
    ensures Covers(before, lines, p) <==> Covers(after, lines[1..], p)
  {
    FirstRowDependsOnProducts(before, after, p);
    AskedHead(lines, p);
  }

  lemma FillableAfterOne(l: Ledger, next: Ledger, lines: seq<Line>)
    requires lines != [] && lines[0].product in l.prices && next.prices == l.prices
    requires FirstRow(l.stocks, lines[0].product, None).Some?
    requires lines[0].quantity <= l.stocks[FirstRow(l.stocks, lines[0].product, None).value].quantity
    requires Drawn(l.stocks, next.stocks, [lines[0]])
    ensures CanFill(l, lines) <==> CanFill(next, lines[1..])
  {
    if CanFill(l, lines) {
      forall k | 0 <= k < |lines[1..]|
        ensures lines[1..][k].product in next.prices && Covers(next.stocks, lines[1..], lines[1..][k].product)
      {
        assert Covers(l.stocks, lines, lines[k + 1].product);
        CoverAfterOne(l.stocks, next.stocks, lines, lines[k + 1].product);
      }
    }
    if CanFill(next, lines[1..]) {
      forall k | 0 <= k < |lines| ensures lines[k].product in l.prices && Covers(l.stocks, lines, lines[k].product) {
        CoverAfterOne(l.stocks, next.stocks, lines, lines[k].product);
        if k > 0 {
          assert lines[1..][k - 1] == lines[k];
        } else {
          HeadIsCovered(l, next, lines);
        }
      }
    }
  }

  lemma HeadIsCovered(l: Ledger, next: Ledger, lines: seq<Line>)
    requires lines != [] && CanFill(next, lines[1..]) && Drawn(l.stocks, next.stocks, [lines[0]])
    requires FirstRow(l.stocks, lines[0].product, None).Some?
    requires lines[0].quantity <= l.stocks[FirstRow(l.stocks, lines[0].product, None).value].quantity
    ensures Covers(l.stocks, lines, lines[0].product)
  {
    var p := lines[0].product;
    CoverAfterOne(l.stocks, next.stocks, lines, p);
    if j :| 0 <= j < |lines[1..]| && lines[1..][j].product == p {
      assert Covers(next.stocks, lines[1..], lines[1..][j].product);
    } else {
      NothingAsked(lines[1..], p);
    }
  }

  lemma DrawnTwice(a: seq<StockRow>, b: seq<StockRow>, c: seq<StockRow>, lines: seq<Line>)
    requires lines != [] && Drawn(a, b, [lines[0]]) && Drawn(b, c, lines[1..])
    ensures Drawn(a, c, lines)
  {
    forall i | 0 <= i < |a| ensures Draw(a, i, [lines[0]]) + Draw(b, i, lines[1..]) == Draw(a, i, lines) {
      FirstRowDependsOnProducts(a, b, a[i].product);
      AskedHead(lines, a[i].product);
    }
  }

  lemma AskedHead(lines: seq<Line>, p: ProductId)
    requires lines != []
    ensures Asked(lines, p) == Asked([lines[0]], p) + Asked(lines[1..], p)
  {
  }

  lemma AskedAlone(line: Line)
    ensures Asked([line], line.product) == line.quantity
  {
  }

  lemma WithItemSells(l: Ledger, o: nat, p: ProductId, quantity: nat, price: nat, x: ProductId)
    requires o < |l.orders|
    ensures Sold(WithItem(l, o, p, quantity, price).orders[o].items, x)
         == Sold(l.orders[o].items, x) + if p == x then quantity else 0
  {
  }

  lemma HeadCannotFill(l: Ledger, lines: seq<Line>)
    requires lines != [] && !(lines[0].product in l.prices && Covers(l.stocks, [lines[0]], lines[0].product))
    ensures !CanFill(l, lines)
  {
    AskedHead(lines, lines[0].product);
    assert lines[0].product in l.prices ==> !Covers(l.stocks, lines, lines[0].product);
  }

  lemma NothingToFill(l: Ledger)
    ensures CanFill(l, []) && Drawn(l.stocks, l.stocks, [])
  {
  }

  lemma {:induction false} LinesFilledExactly(l: Ledger, o: nat, lines: seq<Line>, sum: nat)
    requires o < |l.orders|
    ensures var f := LinesFilled(l, o, lines, sum);
            && (f.Ok? <==> CanFill(l, lines))
            && (f.Ok? ==> Drawn(l.stocks, f.value.0.stocks, lines))
            && (f.Ok? ==>
                  forall p :: Sold(f.value.0.orders[o].items, p) == Sold(l.orders[o].items, p) + Asked(lines, p))
    decreases |lines|
  {
    hide Drawn;
    hide CanFill;
    if lines == [] {
      NothingToFill(l);
    } else {
      var line := lines[0];
      var row := FirstRow(l.stocks, line.product, None);
      if line.product !in l.prices || row == None || l.stocks[row.value].quantity < line.quantity {
        AskedAlone(line);
        HeadCannotFill(l, lines);
      } else {
        var price := l.prices[line.product];
        var next := WithItem(l, o, line.product, line.quantity, price);
        OneLineDrawn(l, o, line, price);
        FillableAfterOne(l, next, lines);
        LinesFilledExactly(next, o, lines[1..], sum + price * line.quantity);
        var f := LinesFilled(next, o, lines[1..], sum + price * line.quantity);
        if f.Ok? {
          DrawnTwice(l.stocks, next.stocks, f.value.0.stocks, lines);
          forall p ensures Sold(f.value.0.orders[o].items, p) == Sold(l.orders[o].items, p) + Asked(lines, p) {
            WithItemSells(l, o, line.product, line.quantity, price, p);
          }
        }
      }
    }
  }

  /** The service's order creation is all or nothing, for any list of lines, repeats
      included: it succeeds exactly when the first row of each product holds all that the
      lines ask of it together, and then draws exactly that; on failure nothing changes. */
  lemma ServiceCreateIsAllOrNothing(l: Ledger, lines: seq<Line>, taxRate: nat)
    ensures var created := ServiceCreated(l, lines, taxRate);
            && (created.Ok? <==> CanFill(l, lines))
            && (created.Ok? ==> Drawn(l.stocks, created.value.stocks, lines))
            && (created.Ok? ==> |created.value.orders| == |l.orders| + 1
                                && forall p :: Sold(created.value.orders[|l.orders|].items, p) == Asked(lines, p))
            && (created.Err? ==> Apply(l, ServiceCreate(lines, taxRate)) == l)
  {
    LinesFilledExactly(NewOrder(l, Pending, 0), |l.orders|, lines, 0);
  }

  // ---------------------------------------------------------------- cancellation undoes creation

  /** What putting items back adds to a row: all of its product if it is the first. */
  function PutBack(stocks: seq<StockRow>, i: nat, items: seq<Item>): nat
    requires i < |stocks|
  {
    if FirstRow(stocks, stocks[i].product, None) == Some(i) then Sold(items, stocks[i].product) else 0
  }

  lemma {:induction false} RestoredExactly(l: Ledger, items: seq<Item>)
    ensures var r := RestoredItems(l, items);
            && |r.stocks| == |l.stocks|
            && forall i :: 0 <= i < |l.stocks| ==>
                 && r.stocks[i].product == l.stocks[i].product
                 && r.stocks[i].quantity == l.stocks[i].quantity + PutBack(l.stocks, i, items)
    decreases |items|
  {
    if items != [] {
      var next := RestoredFirst(l, items[0].product, items[0].quantity);
      RestoredExactly(next, items[1..]);
      forall x
        ensures FirstRow(next.stocks, x, None) == FirstRow(l.stocks, x, None)
        ensures Sold(items, x) == Sold(items[1..], x) + if items[0].product == x then items[0].quantity else 0
      {
        FirstRowDependsOnProducts(next.stocks, l.stocks, x);
        SoldHead(items, x);
      }
    }
  }

  /** Cancelling an order right after the service created it gives every stock row, not
      just every product, its quantity back. */
  lemma CancelUndoesCreate(l: Ledger, lines: seq<Line>, taxRate: nat)
    requires ServiceCreated(l, lines, taxRate).Ok?
    ensures var created := ServiceCreated(l, lines, taxRate).value;
            var cancelled := StatusChanged(created, |l.orders|, Cancelled);
            && cancelled.Ok?
            && |cancelled.value.stocks| == |l.stocks|
            && forall i :: 0 <= i < |l.stocks| ==> cancelled.value.stocks[i].quantity == l.stocks[i].quantity
  {
    ServiceCreateIsAllOrNothing(l, lines, taxRate);
    var o := |l.orders|;
    var created := ServiceCreated(l, lines, taxRate).value;
    LinesFilledKeepsOrders(NewOrder(l, Pending, 0), o, lines, 0);
    assert created.orders[o].status == Pending;
    RestoredExactly(created, created.orders[o].items);
    forall x ensures FirstRow(created.stocks, x, None) == FirstRow(l.stocks, x, None) {
      FirstRowDependsOnProducts(created.stocks, l.stocks, x);
    }
  }
}
