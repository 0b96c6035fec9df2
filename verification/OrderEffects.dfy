/** What each order page and the order service leave in the tables: when they accept a
    request, why they refuse it, and every row that an accepted one changes. */
module OrderEffects {
  import opened Wrappers
  import opened Money
  import opened OrderStatus
  import opened StockLedger
  import opened LedgerLaws
  import opened WebOrders

  // ---------------------------------------------------------------- sums of lines

  function LineTotal(lines: seq<Line>, prices: map<ProductId, nat>): nat
    requires AllPriced(lines, prices)
    decreases |lines|
  {
    if lines == [] then 0 else prices[lines[0].product] * lines[0].quantity + LineTotal(lines[1..], prices)
  }

  lemma {:induction false} ItemsTotalOfConcat(a: seq<Item>, b: seq<Item>)
    ensures ItemsTotal(a + b) == ItemsTotal(a) + ItemsTotal(b)
    decreases |b|
  {
    if b == [] {
      assert a + b == a;
    } else {
      assert (a + b)[..|a + b| - 1] == a + b[..|b| - 1];
      ItemsTotalOfConcat(a, b[..|b| - 1]);
    }
  }

  lemma {:induction false} ItemsCostTheLines(lines: seq<Line>, prices: map<ProductId, nat>, nextItem: nat)
    requires AllPriced(lines, prices)
    ensures ItemsTotal(ItemsFor(lines, prices, nextItem)) == LineTotal(lines, prices)
    decreases |lines|
  {
    if lines != [] {
      var first := Item(nextItem, lines[0].product, lines[0].quantity, prices[lines[0].product]);
      assert AllPriced(lines[1..], prices);
      ItemsTotalOfConcat([first], ItemsFor(lines[1..], prices, nextItem + 1));
      ItemsCostTheLines(lines[1..], prices, nextItem + 1);
      assert [first][..0] == [];
    }
  }

  // ---------------------------------------------------------------- the service

  lemma {:induction false} ServiceSells(l: Ledger, o: nat, lines: seq<Line>, sum: nat)
    requires o < |l.orders| && LinesFilled(l, o, lines, sum).Ok?
    ensures Fills(l, o, lines, LinesFilled(l, o, lines, sum).value.0)
    ensures LinesFilled(l, o, lines, sum).value.1 == sum + LineTotal(lines, l.prices)
    decreases |lines|
  {
    hide Fills;
    if lines == [] {
      FillsNothing(l, o);
    } else {
      var price := l.prices[lines[0].product];
      var next := WithItem(l, o, lines[0].product, lines[0].quantity, price);
      FillsOne(l, o, lines[0]);
      ServiceSells(next, o, lines[1..], sum + price * lines[0].quantity);
      FillsMore(l, next, o, lines[0], lines[1..], LinesFilled(l, o, lines, sum).value.0);
      assert lines == [lines[0]] + lines[1..];
      assert Fills(l, o, [lines[0]], next);
      SamePrices(l, o, [lines[0]], next);
      SamePrices(l, o, lines, LinesFilled(l, o, lines, sum).value.0);
    }
  }

  lemma SamePrices(l: Ledger, o: nat, sold: seq<Line>, r: Ledger)
    requires Fills(l, o, sold, r)
    ensures r.prices == l.prices && AllPriced(sold, l.prices)
  {
  }

  /** An order the service accepts: pending, with one item for each line in order at the
      listed prices; its subtotal is what the items cost, its tax the nearest cent to the
      rate of that, even on a tie, and its total the sum of both. The stock rows and the
      movements are those of the sales, and nothing else changes. */
  lemma ServiceOrderExactly(l: Ledger, lines: seq<Line>, taxRate: nat)
    requires ServiceCreated(l, lines, taxRate).Ok?
    ensures AllPriced(lines, l.prices) && HaveRows(l.stocks, lines)
    ensures var r := ServiceCreated(l, lines, taxRate).value;
            && |r.orders| == |l.orders| + 1
            && (forall k :: 0 <= k < |l.orders| ==> r.orders[k] == l.orders[k])
            && var order := r.orders[|l.orders|];
               && order.status == Pending && order.shipping == 0 && order.audit == Audit([Pending], false, 0)
               && order.items == ItemsFor(lines, l.prices, l.nextItem)
               && order.subtotal == ItemsTotal(order.items)
               && order.tax >= 0 && IsNearest(order.tax, order.subtotal * taxRate, 10_000)
               && (IsTie(order.subtotal * taxRate, 10_000) ==> order.tax % 2 == 0)
               && order.total == order.subtotal + order.tax
    ensures var r := ServiceCreated(l, lines, taxRate).value;
            && Drawn(l.stocks, r.stocks, lines) && r.movements == l.movements + Sales(l.stocks, lines)
            && r.returnRows == l.returnRows && r.receipts == l.receipts && r.prices == l.prices
            && r.nextItem == l.nextItem + |lines|
  {
    var o, start := |l.orders|, NewOrder(l, Pending, 0);
    var f := LinesFilled(start, o, lines, 0);
    var r := ServiceCreated(l, lines, taxRate).value;
    var (filled, sum) := f.value;
    var tax := RoundHalfEven(sum * taxRate, FULL_RATE);
    assert r == WithOrder(filled, o, filled.orders[o].(subtotal := sum, tax := tax, total := sum + tax));
    hide ServiceCreated;
    hide LinesFilled;
    hide ItemsFor;
    hide Sales;
    hide Drawn;
    hide FirstRow;
    hide RoundHalfEven;
    ServiceSells(start, o, lines, 0);
    assert [] + ItemsFor(lines, l.prices, l.nextItem) == ItemsFor(lines, l.prices, l.nextItem);
    ItemsCostTheLines(lines, l.prices, l.nextItem);
    HalfEvenIsNearest(sum * taxRate, FULL_RATE);
  }

  // ---------------------------------------------------------------- the web form

  lemma {:induction false} FormSum(l: Ledger, o: nat, lines: seq<FormLine>, sum: nat)
    requires o < |l.orders| && FormFilled(l, o, lines, sum).outcome.Ok?
    ensures AllPriced(Positive(lines), l.prices)
    ensures FormFilled(l, o, lines, sum).outcome.value == sum + LineTotal(Positive(lines), l.prices)
    decreases |lines|
  {
    if lines == [] {
    } else if lines[0].quantity.value <= 0 {
      FormSum(l, o, lines[1..], sum);
    } else {
      var line := Line(lines[0].product, lines[0].quantity.value);
      var price := l.prices[line.product];
      var next := WithItem(l, o, line.product, line.quantity, price);
      assert next.prices == l.prices && FirstRow(l.stocks, line.product, lines[0].quantity).Some?;
      hide WithItem;
      hide FirstRow;
      FormSum(next, o, lines[1..], sum + price * line.quantity);
      LineTotalOfMore(line, Positive(lines[1..]), l.prices);
    }
  }

  lemma LineTotalOfMore(line: Line, rest: seq<Line>, prices: map<ProductId, nat>)
    requires line.product in prices && AllPriced(rest, prices)
    ensures AllPriced([line] + rest, prices)
    ensures LineTotal([line] + rest, prices) == prices[line.product] * line.quantity + LineTotal(rest, prices)
  {
    assert ([line] + rest)[0] == line && ([line] + rest)[1..] == rest;
  }

  /** The totals the web computes: the net part of the tax-inclusive items is the nearest
      cent, the tax is the rest, and shipping comes on top. */
  predicate WebTotals(order: Order)
  {
    var sum := ItemsTotal(order.items);
    && IsNearest(order.subtotal, 100 * sum, 118)
    && order.subtotal + order.tax == sum
    && order.total == sum + order.shipping
  }

  lemma PricedTotals(order: Order)
    requires order.subtotal == Subtotal(ItemsTotal(order.items)) && order.tax == Tax(ItemsTotal(order.items))
    requires order.total == ItemsTotal(order.items) + order.shipping
    ensures WebTotals(order)
  {
    HalfEvenIsNearest(100 * ItemsTotal(order.items), 118);
  }

  /** An order the web form creates: a draft, with one item for each positive line in order
      at the listed prices, and its totals. The stock rows and the movements are those of
      the sales, and nothing else changes. */
  lemma WebOrderExactly(l: Ledger, form: Form, shipping: nat)
    requires WebCreated(l, form, shipping).outcome.Ok?
    ensures var sold := Positive(FormLines(form));
            AllPriced(sold, l.prices) && HaveRows(l.stocks, sold)
    ensures var sold := Positive(FormLines(form));
            var r := WebCreated(l, form, shipping).ledger;
            && |r.orders| == |l.orders| + 1
            && (forall k :: 0 <= k < |l.orders| ==> r.orders[k] == l.orders[k])
            && var order := r.orders[|l.orders|];
               && order.status == Draft && order.shipping == shipping && order.audit == Audit([Draft], true, 0)
               && order.items == ItemsFor(sold, l.prices, l.nextItem)
               && WebTotals(order)
    ensures var sold := Positive(FormLines(form));
            var r := WebCreated(l, form, shipping).ledger;
            && Drawn(l.stocks, r.stocks, sold) && r.movements == l.movements + Sales(l.stocks, sold)
            && r.returnRows == l.returnRows && r.receipts == l.receipts && r.prices == l.prices
            && r.nextItem == l.nextItem + |sold|
  {
    var o, lines, start := |l.orders|, FormLines(form), NewOrder(l, Draft, shipping);
    var sold := Positive(lines);
    var f := FormFilled(start, o, lines, 0);
    var r := WebCreated(l, form, shipping).ledger;
    assert f.outcome.Ok? && r == WithOrder(f.ledger, o, Priced(f.ledger.orders[o], f.outcome.value));
    hide WebCreated;
    hide FormFilled;
    hide Positive;
    hide ItemsFor;
    hide Sales;
    hide Drawn;
    hide FirstRow;
    hide WebTotals;
    FilledExactly(start, o, lines, 0);
    FormSum(start, o, lines, 0);
    assert [] + ItemsFor(sold, l.prices, l.nextItem) == ItemsFor(sold, l.prices, l.nextItem);
    ItemsCostTheLines(sold, l.prices, l.nextItem);
    PricedTotals(r.orders[o]);
  }

  // ---------------------------------------------------------------- stock writes

  /** Row `i` alone moves, by `quantity` out or in, and the movement is recorded. */
  predicate OneMove(l: Ledger, r: Ledger, i: nat, quantity: nat, kind: MovementType)
  {
    && i < |l.stocks|
    && r.stocks == l.stocks[i := l.stocks[i].(quantity :=
         if kind == Output then l.stocks[i].quantity - quantity else l.stocks[i].quantity + quantity)]
    && r.movements == l.movements + [Movement(i, quantity, kind)]
  }

  predicate SameStock(l: Ledger, r: Ledger)
  {
    r.stocks == l.stocks && r.movements == l.movements
  }

  /** Units of a product given back: on its first row, if it has any. */
  predicate GivenBack(l: Ledger, r: Ledger, p: ProductId, quantity: nat)
  {
    var row := FirstRow(l.stocks, p, None);
    if row == None then SameStock(l, r) else OneMove(l, r, row.value, quantity, Return)
  }

  /** The tables but for one order and the stock. */
  predicate OnlyOrderChanges(l: Ledger, r: Ledger, o: nat)
  {
    && o < |l.orders| == |r.orders|
    && (forall k :: 0 <= k < |l.orders| && k != o ==> r.orders[k] == l.orders[k])
    && r.returnRows == l.returnRows && r.receipts == l.receipts
    && r.prices == l.prices && r.nextItem == l.nextItem
  }

  lemma MovedFirstGivesBack(l: Ledger, p: ProductId, quantity: nat)
    ensures GivenBack(l, MovedFirst(l, p, quantity, Return), p, quantity)
  {
  }

  // ---------------------------------------------------------------- item edits

  predicate FoundItem(l: Ledger, o: nat, id: nat)
  {
    o < |l.orders| && ItemIndex(l.orders[o].items, id).Some?
  }

  predicate Editable(order: Order)
  {
    order.status == Draft || order.status == Pending
  }

  /** Some row of the product holds at least that much. */
  predicate SomeRowHolds(stocks: seq<StockRow>, p: ProductId, quantity: int)
  {
    exists i :: 0 <= i < |stocks| && stocks[i].product == p && stocks[i].quantity >= quantity
  }

  /** The stock side of an edit: an increase is taken off the first row that holds it, a
      decrease is given back. */
  ghost predicate Rebalances(l: Ledger, r: Ledger, p: ProductId, was: nat, now: nat)
  {
    if now == was then SameStock(l, r)
    else if now < was then GivenBack(l, r, p, was - now)
    else TakesFromSome(l, r, p, now - was)
  }

  ghost predicate TakesFromSome(l: Ledger, r: Ledger, p: ProductId, quantity: nat)
  {
    exists i: nat :: TakesFrom(l, r, i, p, quantity)
  }

  /** Row `i` is the first that holds the units, and gives them. */
  predicate TakesFrom(l: Ledger, r: Ledger, i: nat, p: ProductId, quantity: nat)
  {
    i < |l.stocks| && FirstHolding(l.stocks, i, p, quantity) && OneMove(l, r, i, quantity, Output)
  }

  predicate FirstHolding(stocks: seq<StockRow>, i: nat, p: ProductId, quantity: nat)
    requires i < |stocks|
  {
    && stocks[i].product == p && stocks[i].quantity >= quantity
    && forall j :: 0 <= j < i ==> stocks[j].product != p || stocks[j].quantity < quantity
  }

  lemma RebalancedExactly(l: Ledger, p: ProductId, was: nat, now: nat)
    ensures var r := Rebalanced(l, p, now - was);
            && (r.Ok? <==> now <= was || SomeRowHolds(l.stocks, p, now - was))
            && (r.Err? ==> r.error == OutOfStock)
            && (r.Ok? ==> Rebalances(l, r.value, p, was, now))
  {
    if now < was {
      MovedFirstGivesBack(l, p, was - now);
    } else if now > was {
      var row := FirstRow(l.stocks, p, Some(now - was));
      if row.Some? {
        assert Matches(l.stocks[row.value], p, Some(now - was));
        assert FirstHolding(l.stocks, row.value, p, now - was) by {
          forall j | 0 <= j < row.value ensures l.stocks[j].product != p || l.stocks[j].quantity < now - was {
            assert !Matches(l.stocks[j], p, Some(now - was));
          }
        }
        assert TakesFrom(l, Rebalanced(l, p, now - was).value, row.value, p, now - was);
      } else {
        forall i | 0 <= i < |l.stocks| && l.stocks[i].product == p ensures l.stocks[i].quantity < now - was {
          assert !Matches(l.stocks[i], p, Some(now - was));
        }
      }
    }
  }

  /** Why an edit is refused: the item, the order's status, the quantity, or an increase that
      no row holds. */
  lemma EditRefusals(l: Ledger, o: nat, id: nat, quantity: Option<int>)
    ensures var r := ItemEdited(l, o, id, quantity);
            && (r == Err(NotFound) <==> !FoundItem(l, o, id))
            && (r == Err(NotEditable) <==> FoundItem(l, o, id) && !Editable(l.orders[o]))
            && (r == Err(BadQuantity) <==>
                  FoundItem(l, o, id) && Editable(l.orders[o]) && (quantity == None || quantity.value <= 0))
            && (r == Err(OutOfStock) <==>
                  && FoundItem(l, o, id) && Editable(l.orders[o]) && quantity.Some? && quantity.value > 0
                  && var item := l.orders[o].items[ItemIndex(l.orders[o].items, id).value];
                     quantity.value > item.quantity
                     && !SomeRowHolds(l.stocks, item.product, quantity.value - item.quantity))
            && (r.Err? ==> r.error in {NotFound, NotEditable, BadQuantity, OutOfStock})
  {
    if FoundItem(l, o, id) && Editable(l.orders[o]) && quantity.Some? && quantity.value > 0 {
      var item := l.orders[o].items[ItemIndex(l.orders[o].items, id).value];
      RebalancedExactly(l, item.product, item.quantity, quantity.value);
    }
    hide Rebalanced;
    hide Rebalances;
    hide SomeRowHolds;
    hide Repriced;
  }

  /** An accepted edit sets that item's quantity, recomputes the totals, rebalances the stock
      by the difference, and touches nothing else. */
  lemma EditExactly(l: Ledger, o: nat, id: nat, quantity: Option<int>)
    requires ItemEdited(l, o, id, quantity).Ok?
    ensures var r := ItemEdited(l, o, id, quantity).value;
            && FoundItem(l, o, id) && quantity.Some? && quantity.value > 0
            && OnlyOrderChanges(l, r, o)
            && var order, after := l.orders[o], r.orders[o];
               var k := ItemIndex(order.items, id).value;
               && after.items == order.items[k := order.items[k].(quantity := quantity.value)]
               && after.status == order.status && after.shipping == order.shipping
               && after.audit == order.audit.(priced := true)
               && WebTotals(after)
               && Rebalances(l, r, order.items[k].product, order.items[k].quantity, quantity.value)
  {
    var items := l.orders[o].items;
    var item := items[ItemIndex(items, id).value];
    var r := ItemEdited(l, o, id, quantity).value;
    var mid := Rebalanced(l, item.product, quantity.value - item.quantity).value;
    RebalancedExactly(l, item.product, item.quantity, quantity.value);
    RebalancedKeepsTheRest(l, item.product, quantity.value - item.quantity);
    hide Rebalanced;
    hide Rebalances;
    hide WebTotals;
    PricedTotals(r.orders[o]);
    RebalancesStocks(l, mid, r, item.product, item.quantity, quantity.value);
  }

  lemma RebalancedKeepsTheRest(l: Ledger, p: ProductId, diff: int)
    ensures var r := Rebalanced(l, p, diff);
            r.Ok? ==> r.value == l.(stocks := r.value.stocks, movements := r.value.movements)
  {
  }

  lemma RebalancesStocks(l: Ledger, mid: Ledger, r: Ledger, p: ProductId, was: nat, now: nat)
    requires Rebalances(l, mid, p, was, now) && r.stocks == mid.stocks && r.movements == mid.movements
    ensures Rebalances(l, r, p, was, now)
  {
    if now > was {
      var i: nat :| TakesFrom(l, mid, i, p, now - was);
      assert TakesFrom(l, r, i, p, now - was);
    }
  }

  // ---------------------------------------------------------------- item deletes

  /** Why a delete is refused: the item, the order's status, or a missing note for the last. */
  lemma DeleteRefusals(l: Ledger, o: nat, id: nat, hasNote: bool)
    ensures var r := ItemDeleted(l, o, id, hasNote);
            && (r == Err(NotFound) <==> !FoundItem(l, o, id))
            && (r == Err(NotEditable) <==> FoundItem(l, o, id) && !Editable(l.orders[o]))
            && (r == Err(NoteMissing) <==>
                  FoundItem(l, o, id) && Editable(l.orders[o]) && |l.orders[o].items| == 1 && !hasNote)
            && (r.Err? ==> r.error in {NotFound, NotEditable, NoteMissing})
  {
    hide MovedFirst;
    hide Repriced;
  }

  /** An accepted delete gives the item's units back and removes it; deleting the last one
      cancels the order with zero totals, any other recomputes them. */
  lemma DeleteExactly(l: Ledger, o: nat, id: nat, hasNote: bool)
    requires ItemDeleted(l, o, id, hasNote).Ok?
    ensures var r := ItemDeleted(l, o, id, hasNote).value;
            && FoundItem(l, o, id) && OnlyOrderChanges(l, r, o)
            && var order, after := l.orders[o], r.orders[o];
               var k := ItemIndex(order.items, id).value;
               && after.items == order.items[..k] + order.items[k + 1..]
               && after.shipping == order.shipping
               && GivenBack(l, r, order.items[k].product, order.items[k].quantity)
               && if |order.items| == 1 then
                    && after.status == Cancelled && after.subtotal == 0 && after.tax == 0 && after.total == 0
                    && after.audit == order.audit.(trail := order.audit.trail + [Cancelled])
                  else
                    && after.status == order.status && WebTotals(after)
                    && after.audit == order.audit.(priced := true)
  {
    var items := l.orders[o].items;
    var item := items[ItemIndex(items, id).value];
    var r := ItemDeleted(l, o, id, hasNote).value;
    var mid := MovedFirst(l, item.product, item.quantity, Return);
    MovedFirstGivesBack(l, item.product, item.quantity);
    MovedFirstKeepsTheRest(l, item.product, item.quantity);
    hide MovedFirst;
    hide WebTotals;
    if |items| > 1 {
      PricedTotals(r.orders[o]);
    }
  }

  lemma MovedFirstKeepsTheRest(l: Ledger, p: ProductId, quantity: nat)
    ensures var r := MovedFirst(l, p, quantity, Return);
            r == l.(stocks := r.stocks, movements := r.movements)
  {
  }

  // ---------------------------------------------------------------- status changes

  /** A status change is accepted exactly when the table allows it. It sets the status asked
      for; a cancellation also puts every item back on its product's first row, without a
      movement. */
  lemma StatusExactly(l: Ledger, o: nat, status: Status)
    ensures var r := StatusChanged(l, o, status);
            && (r == Err(NotFound) <==> o >= |l.orders|)
            && (r == Err(InvalidTransition) <==> o < |l.orders| && status !in ValidTransitions(l.orders[o].status))
            && (r.Err? ==> r.error in {NotFound, InvalidTransition})
    ensures var r := StatusChanged(l, o, status);
            r.Ok? ==>
              && OnlyOrderChanges(l, r.value, o) && r.value.movements == l.movements
              && var order, after := l.orders[o], r.value.orders[o];
                 && after == order.(status := status, audit := after.audit)
                 && after.audit.trail == order.audit.trail + [status] && after.audit.priced == order.audit.priced
                 && after.audit.restocks == order.audit.restocks + (if status == Cancelled then 1 else 0)
                 && |r.value.stocks| == |l.stocks|
                 && forall i :: 0 <= i < |l.stocks| ==>
                      && r.value.stocks[i].product == l.stocks[i].product
                      && r.value.stocks[i].warehouse == l.stocks[i].warehouse
                      && r.value.stocks[i].quantity ==
                         l.stocks[i].quantity + (if status == Cancelled then PutBack(l.stocks, i, order.items) else 0)
  {
    if o < |l.orders| && status in ValidTransitions(l.orders[o].status) && status == Cancelled {
      RestoredExactly(l, l.orders[o].items);
      RestoredKeepsTheRest(l, l.orders[o].items);
    }
  }

  lemma {:induction false} RestoredKeepsTheRest(l: Ledger, items: seq<Item>)
    ensures var r := RestoredItems(l, items);
            && |r.stocks| == |l.stocks|
            && (forall i :: 0 <= i < |l.stocks| ==> r.stocks[i].warehouse == l.stocks[i].warehouse)
            && r == l.(stocks := r.stocks)
    decreases |items|
  {
    if items != [] {
      RestoredKeepsTheRest(RestoredFirst(l, items[0].product, items[0].quantity), items[1..]);
    }
  }

  // ---------------------------------------------------------------- returns

  /** A return is accepted exactly for a positive quantity of a product of the order, within
      what its first item has left. It is recorded as re-entered, and its units go back. */
  lemma ReturnExactly(l: Ledger, o: nat, p: ProductId, quantity: int)
    ensures var r := GoodsReturned(l, o, p, quantity);
            && (r == Err(BadQuantity) <==> quantity <= 0)
            && (r == Err(NotFound) <==> quantity > 0 && o >= |l.orders|)
            && (r == Err(NotInOrder) <==>
                  && quantity > 0 && o < |l.orders|
                  && forall k :: 0 <= k < |l.orders[o].items| ==> l.orders[o].items[k].product != p)
            && (r == Err(ExceedsSale) <==>
                  && quantity > 0 && o < |l.orders|
                  && var items := l.orders[o].items;
                     var first := FirstItemOf(items, p);
                     first.Some? && AlreadyReturned(l.returnRows, o, p) + quantity > items[first.value].quantity)
            && (r.Err? ==> r.error in {BadQuantity, NotFound, NotInOrder, ExceedsSale})
    ensures var r := GoodsReturned(l, o, p, quantity);
            r.Ok? ==>
              && r.value.orders == l.orders && r.value.prices == l.prices && r.value.receipts == l.receipts
              && r.value.nextItem == l.nextItem
              && r.value.returnRows == l.returnRows + [ReturnRow(o, p, quantity, true)]
              && GivenBack(l, r.value, p, quantity)
  {
    if quantity > 0 {
      MovedFirstGivesBack(l.(returnRows := l.returnRows + [ReturnRow(o, p, quantity, true)]), p, quantity);
    }
  }

  // ---------------------------------------------------------------- item ids

  predicate IsItem(l: Ledger, o: nat, k: nat)
  {
    o < |l.orders| && k < |l.orders[o].items|
  }

  function IdOf(l: Ledger, o: nat, k: nat): nat
    requires IsItem(l, o, k)
  {
    l.orders[o].items[k].id
  }

  /** No two items share an id, so an edit or a delete finds the one item it names. */
  ghost predicate DistinctItems(l: Ledger)
  {
    && (forall o, k :: IsItem(l, o, k) ==> IdOf(l, o, k) < l.nextItem)
    && (forall o, k, o', k' :: IsItem(l, o, k) && IsItem(l, o', k') && (o, k) != (o', k') ==>
          IdOf(l, o, k) != IdOf(l, o', k'))
  }

  lemma {:induction false} IdsAreFresh(lines: seq<Line>, prices: map<ProductId, nat>, nextItem: nat)
    requires AllPriced(lines, prices)
    ensures var items := ItemsFor(lines, prices, nextItem);
            |items| == |lines| && forall k :: 0 <= k < |items| ==> items[k].id == nextItem + k
    decreases |lines|
  {
    if lines != [] {
      assert AllPriced(lines[1..], prices);
      IdsAreFresh(lines[1..], prices, nextItem + 1);
    }
  }

  /** A new order with fresh items after the old ones. */
  lemma {:induction false} NewItemsAreDistinct(l: Ledger, r: Ledger, sold: seq<Line>)
    requires DistinctItems(l) && AllPriced(sold, l.prices)
    requires |r.orders| == |l.orders| + 1 && r.nextItem == l.nextItem + |sold|
    requires forall k :: 0 <= k < |l.orders| ==> r.orders[k] == l.orders[k]
    requires r.orders[|l.orders|].items == ItemsFor(sold, l.prices, l.nextItem)
    ensures DistinctItems(r)
  {
    IdsAreFresh(sold, l.prices, l.nextItem);
    var n := |l.orders|;
    forall o: nat, k: nat | IsItem(r, o, k)
      ensures if o < n then IsItem(l, o, k) && IdOf(r, o, k) == IdOf(l, o, k) else IdOf(r, o, k) == l.nextItem + k
    {
    }
  }

  lemma FormItemsAreDistinct(l: Ledger, form: Form, shipping: nat)
    requires DistinctItems(l)
    ensures DistinctItems(WebCreated(l, form, shipping).ledger)
  {
    if form.products != [] && form.hasClient {
      var o, lines, start := |l.orders|, FormLines(form), NewOrder(l, Draft, shipping);
      var r := WebCreated(l, form, shipping).ledger;
      var n := EveryFormStops(l, lines, 0);
      SameTables(l, start, lines, n);
      StoppedForm(start, o, lines, 0, n);
      FilledExactly(start, o, lines[..n], 0);
      var sold := Positive(lines[..n]);
      assert [] + ItemsFor(sold, l.prices, l.nextItem) == ItemsFor(sold, l.prices, l.nextItem);
      hide DistinctItems;
      NewItemsAreDistinct(l, r, sold);
    }
  }

  /** The same items, or fewer, or with other quantities. */
  lemma {:induction false} KeptItemsAreDistinct(l: Ledger, r: Ledger, o: nat)
    requires DistinctItems(l) && OnlyOrderChanges(l, r, o)
    requires |r.orders[o].items| <= |l.orders[o].items|
    requires forall k :: 0 <= k < |r.orders[o].items| ==> r.orders[o].items[k].id == l.orders[o].items[k].id
    ensures DistinctItems(r)
  {
    forall x: nat, k: nat | IsItem(r, x, k) ensures IsItem(l, x, k) && IdOf(r, x, k) == IdOf(l, x, k) {}
  }

  lemma {:induction false} RemovedItemsAreDistinct(l: Ledger, r: Ledger, o: nat, at: nat)
    requires DistinctItems(l) && OnlyOrderChanges(l, r, o) && at < |l.orders[o].items|
    requires r.orders[o].items == l.orders[o].items[..at] + l.orders[o].items[at + 1..]
    ensures DistinctItems(r)
  {
    forall x: nat, k: nat | IsItem(r, x, k)
      ensures var j := if x == o && k >= at then k + 1 else k; IsItem(l, x, j) && IdOf(r, x, k) == IdOf(l, x, j)
    {
    }
  }

  lemma {:induction false} SameItemsAreDistinct(l: Ledger, r: Ledger)
    requires DistinctItems(l) && r.orders == l.orders && r.nextItem == l.nextItem
    ensures DistinctItems(r)
  {
    forall x: nat, k: nat | IsItem(r, x, k) ensures IsItem(l, x, k) && IdOf(r, x, k) == IdOf(l, x, k) {}
  }

  lemma {:induction false} ReceiveKeepsIds(l: Ledger, w: WarehouseId, lines: seq<Line>)
    ensures PurchaseReceived(l, w, lines).nextItem == l.nextItem
    decreases |lines|
  {
    if lines != [] {
      ReceiveKeepsIds(LineReceived(l, w, lines[0]), w, lines[1..]);
    }
  }

  lemma {:induction false} DistinctItemsStep(l: Ledger, step: Step)
    requires DistinctItems(l)
    ensures DistinctItems(Apply(l, step))
  {
    var r := Apply(l, step);
    hide DistinctItems;
    match step {
      case WebCreate(form, shipping) => FormItemsAreDistinct(l, form, shipping);
      case ServiceCreate(lines, taxRate) =>
        if ServiceCreated(l, lines, taxRate).Ok? {
          ServiceOrderExactly(l, lines, taxRate);
          NewItemsAreDistinct(l, r, lines);
        }
      case EditItem(o, id, quantity) =>
        if ItemEdited(l, o, id, quantity).Ok? {
          EditExactly(l, o, id, quantity);
          KeptItemsAreDistinct(l, r, o);
        }
      case DeleteItem(o, id, hasNote) =>
        if ItemDeleted(l, o, id, hasNote).Ok? {
          DeleteExactly(l, o, id, hasNote);
          RemovedItemsAreDistinct(l, r, o, ItemIndex(l.orders[o].items, id).value);
        }
      case ChangeStatus(o, status) =>
        if StatusChanged(l, o, status).Ok? {
          StatusExactly(l, o, status);
          KeptItemsAreDistinct(l, r, o);
        }
      case ReturnGoods(o, p, quantity) =>
        ReturnExactly(l, o, p, quantity);
        SameItemsAreDistinct(l, r);
      case Receive(w, lines) =>
        ReceiveKeepsOrders(l, w, lines);
        ReceiveKeepsIds(l, w, lines);
        SameItemsAreDistinct(l, r);
      case _ => SameItemsAreDistinct(l, r);
    }
  }

  lemma {:induction false} DistinctItemsRun(l: Ledger, steps: seq<Step>)
    requires DistinctItems(l)
    ensures DistinctItems(Run(l, steps))
    decreases |steps|
  {
    if steps != [] {
      DistinctItemsStep(l, steps[0]);
      DistinctItemsRun(Apply(l, steps[0]), steps[1..]);
    }
  }

  lemma NoItemsYet()
    ensures DistinctItems(EMPTY)
  {
  }

  /** Over every run, an item's id names it alone: no other item of any order has it. */
  lemma ItemIdsAreUnique(steps: seq<Step>, o: nat, k: nat, o': nat, k': nat)
    requires IsItem(Run(EMPTY, steps), o, k) && IsItem(Run(EMPTY, steps), o', k')
    requires IdOf(Run(EMPTY, steps), o, k) == IdOf(Run(EMPTY, steps), o', k')
    ensures o == o' && k == k'
  {
    NoItemsYet();
    DistinctItemsRun(EMPTY, steps);
  }
}
