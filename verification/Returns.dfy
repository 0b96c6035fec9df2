/** Returns against what was sold: no more of a product comes back than its first item in
    the order holds, except by a later edit or delete of that item. */
module Returns {
  import opened Wrappers
  import opened OrderStatus
  import opened StockLedger
  import opened LedgerLaws

  /** The quantity of the first item of a product. */
  function FirstQuantity(items: seq<Item>, p: ProductId): nat
  {
    var k := FirstItemOf(items, p);
    if k == None then 0 else items[k.value].quantity
  }

  function Returnable(l: Ledger, o: nat, p: ProductId): nat
  {
    if o < |l.orders| then FirstQuantity(l.orders[o].items, p) else 0
  }

  /** No order has had more of a product returned than its first item of it holds. */
  ghost predicate WithinSales(l: Ledger)
  {
    forall o: nat, p: ProductId :: AlreadyReturned(l.returnRows, o, p) <= Returnable(l, o, p)
  }

  predicate MayEdit(l: Ledger, o: nat, id: nat)
  {
    o < |l.orders| && l.orders[o].status in EDITABLE && ItemIndex(l.orders[o].items, id).Some?
  }

  /** On an editable order, a positive quantity for a product's first item that is less than
      what has been returned, or a delete that leaves less than that as the first. */
  predicate Undercuts(l: Ledger, step: Step)
  {
    match step
    case EditItem(o, id, quantity) =>
      && MayEdit(l, o, id) && quantity.Some? && quantity.value > 0
      && var items := l.orders[o].items;
         var k := ItemIndex(items, id);
         var p := items[k.value].product;
         FirstItemOf(items, p) == k && quantity.value < AlreadyReturned(l.returnRows, o, p)
    case DeleteItem(o, id, hasNote) =>
      && MayEdit(l, o, id) && (|l.orders[o].items| > 1 || hasNote)
      && var items := l.orders[o].items;
         var k := ItemIndex(items, id).value;
         var p := items[k].product;
         FirstQuantity(items[..k] + items[k + 1..], p) < AlreadyReturned(l.returnRows, o, p)
    case _ => false
  }

  // ---------------------------------------------------------------- first items

  lemma {:induction false} FirstAfterUpdate(items: seq<Item>, k: nat, item: Item, p: ProductId)
    requires k < |items| && item.product == items[k].product
    ensures FirstItemOf(items[k := item], p) == FirstItemOf(items, p)
    decreases |items|
  {
    if items[0].product != p {
      if k == 0 {
        assert items[k := item][1..] == items[1..];
      } else {
        assert items[k := item][1..] == items[1..][k - 1 := item];
        FirstAfterUpdate(items[1..], k - 1, item, p);
      }
    }
  }

  /** Removing an item of another product changes no product's first item. */
  lemma {:induction false} FirstAfterRemoval(items: seq<Item>, k: nat, p: ProductId)
    requires k < |items| && items[k].product != p
    ensures FirstQuantity(items[..k] + items[k + 1..], p) == FirstQuantity(items, p)
    decreases |items|
  {
    if k == 0 {
      assert items[..k] + items[k + 1..] == items[1..];
    } else {
      assert (items[..k] + items[k + 1..])[1..] == items[1..][..k - 1] + items[1..][k..];
      FirstAfterRemoval(items[1..], k - 1, p);
    }
  }

  // ---------------------------------------------------------------- one step

  lemma ReturnsCounted(rows: seq<ReturnRow>, row: ReturnRow, o: nat, p: ProductId)
    ensures AlreadyReturned(rows + [row], o, p)
         == AlreadyReturned(rows, o, p) + if row.order == o && row.product == p then row.quantity else 0
  {
    assert (rows + [row])[..|rows + [row]| - 1] == rows;
  }

  lemma ReturnStep(l: Ledger, o: nat, p: ProductId, quantity: int)
    requires WithinSales(l)
    ensures WithinSales(Apply(l, ReturnGoods(o, p, quantity)))
  {
    var r := Apply(l, ReturnGoods(o, p, quantity));
    if r.returnRows != l.returnRows {
      hide AlreadyReturned;
      forall x: nat, q: ProductId ensures AlreadyReturned(r.returnRows, x, q) <= Returnable(r, x, q) {
        ReturnsCounted(l.returnRows, ReturnRow(o, p, quantity, true), x, q);
        assert AlreadyReturned(l.returnRows, x, q) <= Returnable(l, x, q);
      }
    } else {
      SameSales(l, r);
    }
  }

  /** Orders that only grow in number, with the same returns. */
  lemma SameSales(l: Ledger, r: Ledger)
    requires WithinSales(l) && r.returnRows == l.returnRows && |l.orders| <= |r.orders|
    requires forall o :: 0 <= o < |l.orders| ==> r.orders[o].items == l.orders[o].items
    ensures WithinSales(r)
  {
    forall o: nat, p: ProductId ensures AlreadyReturned(r.returnRows, o, p) <= Returnable(r, o, p) {
      assert AlreadyReturned(l.returnRows, o, p) <= Returnable(l, o, p);
    }
  }

  /** An undercutting edit lowers a quantity, so no stock is needed and it is accepted. */
  lemma UndercutsAreAccepted(l: Ledger, o: nat, id: nat, quantity: Option<int>)
    requires WithinSales(l) && Undercuts(l, EditItem(o, id, quantity))
    ensures ItemEdited(l, o, id, quantity).Ok?
  {
    var items := l.orders[o].items;
    var p := items[ItemIndex(items, id).value].product;
    assert AlreadyReturned(l.returnRows, o, p) <= Returnable(l, o, p);
  }

  lemma EditStep(l: Ledger, o: nat, id: nat, quantity: Option<int>)
    requires WithinSales(l) && ItemEdited(l, o, id, quantity).Ok?
    ensures WithinSales(ItemEdited(l, o, id, quantity).value) <==> !Undercuts(l, EditItem(o, id, quantity))
  {
    var r := ItemEdited(l, o, id, quantity).value;
    var items := l.orders[o].items;
    var k := ItemIndex(items, id).value;
    var p := items[k].product;
    assert r.orders[o].items == items[k := items[k].(quantity := quantity.value)];
    forall x: nat, q: ProductId
      ensures Returnable(r, x, q) ==
              if x == o && FirstItemOf(items, q) == Some(k) then quantity.value else Returnable(l, x, q)
    {
      FirstAfterUpdate(items, k, items[k].(quantity := quantity.value), q);
    }
    WithinSalesMeans(l, r, o, p);
  }

  /** If the returns are the same and one product's first item alone may have changed, all
      depends on that one. */
  lemma WithinSalesMeans(l: Ledger, r: Ledger, o: nat, p: ProductId)
    requires WithinSales(l) && r.returnRows == l.returnRows
    requires forall x: nat, q: ProductId :: x != o || q != p ==> Returnable(r, x, q) == Returnable(l, x, q)
    ensures WithinSales(r) <==> AlreadyReturned(l.returnRows, o, p) <= Returnable(r, o, p)
  {
    forall x: nat, q: ProductId | x != o || q != p
      ensures AlreadyReturned(r.returnRows, x, q) <= Returnable(r, x, q)
    {
      assert AlreadyReturned(l.returnRows, x, q) <= Returnable(l, x, q);
    }
  }

  lemma DeleteStep(l: Ledger, o: nat, id: nat, hasNote: bool)
    requires WithinSales(l) && ItemDeleted(l, o, id, hasNote).Ok?
    ensures WithinSales(ItemDeleted(l, o, id, hasNote).value) <==> !Undercuts(l, DeleteItem(o, id, hasNote))
  {
    var r := ItemDeleted(l, o, id, hasNote).value;
    var items := l.orders[o].items;
    var k := ItemIndex(items, id).value;
    var p := items[k].product;
    assert r.orders[o].items == items[..k] + items[k + 1..];
    forall x: nat, q: ProductId | x != o || q != p ensures Returnable(r, x, q) == Returnable(l, x, q) {
      if x == o {
        FirstAfterRemoval(items, k, q);
      }
    }
    WithinSalesMeans(l, r, o, p);
  }

  lemma StatusStep(l: Ledger, o: nat, status: Status)
    requires WithinSales(l)
    ensures WithinSales(Apply(l, ChangeStatus(o, status)))
  {
    SameSales(l, Apply(l, ChangeStatus(o, status)));
  }

  /** A step breaks the limit exactly when it undercuts what has been returned. */
  lemma ReturnLimitStep(l: Ledger, step: Step)
    requires WithinSales(l)
    ensures WithinSales(Apply(l, step)) <==> !Undercuts(l, step)
  {
    hide WithinSales;
    match step {
      case EditItem(o, id, quantity) =>
        if ItemEdited(l, o, id, quantity).Ok? {
          EditStep(l, o, id, quantity);
        } else if Undercuts(l, step) {
          UndercutsAreAccepted(l, o, id, quantity);
        }
      case DeleteItem(o, id, hasNote) => if ItemDeleted(l, o, id, hasNote).Ok? { DeleteStep(l, o, id, hasNote); }
      case ChangeStatus(o, status) => StatusStep(l, o, status);
      case ReturnGoods(o, p, quantity) => ReturnStep(l, o, p, quantity);
      case _ =>
        ExistingOrdersKept(l, step);
        SameSales(l, Apply(l, step));
    }
  }

  // ---------------------------------------------------------------- every run

  ghost predicate AlwaysWithinSales(l: Ledger, steps: seq<Step>)
    decreases |steps|
  {
    && WithinSales(l)
    && (steps != [] ==> AlwaysWithinSales(Apply(l, steps[0]), steps[1..]))
  }

  predicate NeverUndercut(l: Ledger, steps: seq<Step>)
    decreases |steps|
  {
    steps != [] ==> !Undercuts(l, steps[0]) && NeverUndercut(Apply(l, steps[0]), steps[1..])
  }

  lemma {:induction false} ReturnLimitRun(l: Ledger, steps: seq<Step>)
    requires WithinSales(l)
    ensures AlwaysWithinSales(l, steps) <==> NeverUndercut(l, steps)
    decreases |steps|
  {
    hide WithinSales;
    if steps != [] {
      ReturnLimitStep(l, steps[0]);
      if !Undercuts(l, steps[0]) {
        ReturnLimitRun(Apply(l, steps[0]), steps[1..]);
      } else {
        assert !AlwaysWithinSales(Apply(l, steps[0]), steps[1..]);
      }
    }
  }

  lemma NothingReturnedYet()
    ensures WithinSales(EMPTY)
  {
  }

  /** Over every run, the returns of every order stay within its items throughout exactly
      when no edit and no delete ever undercuts what has been returned. */
  lemma ReturnLimitExactly(steps: seq<Step>)
    ensures AlwaysWithinSales(EMPTY, steps) <==> NeverUndercut(EMPTY, steps)
  {
    NothingReturnedYet();
    ReturnLimitRun(EMPTY, steps);
  }

  // ---------------------------------------------------------------- returns made late enough

  /** Every return is of an order that can no longer be edited. */
  predicate ReturnsAreLate(l: Ledger, steps: seq<Step>)
    decreases |steps|
  {
    steps != [] ==>
      && (steps[0].ReturnGoods? && steps[0].order < |l.orders| ==> l.orders[steps[0].order].status !in EDITABLE)
      && ReturnsAreLate(Apply(l, steps[0]), steps[1..])
  }

  /** Nothing has been returned of an order that can still be edited, or does not exist. */
  ghost predicate NoEarlyReturns(l: Ledger)
  {
    forall o: nat, p: ProductId ::
      (o < |l.orders| ==> l.orders[o].status in EDITABLE) ==> AlreadyReturned(l.returnRows, o, p) == 0
  }

  lemma LateReturn(l: Ledger, o: nat, p: ProductId, quantity: int)
    requires NoEarlyReturns(l) && (o < |l.orders| ==> l.orders[o].status !in EDITABLE)
    ensures NoEarlyReturns(Apply(l, ReturnGoods(o, p, quantity)))
  {
    var r := Apply(l, ReturnGoods(o, p, quantity));
    if r.returnRows != l.returnRows {
      hide AlreadyReturned;
      forall x: nat, q: ProductId | x < |r.orders| ==> r.orders[x].status in EDITABLE
        ensures AlreadyReturned(r.returnRows, x, q) == 0
      {
        ReturnsCounted(l.returnRows, ReturnRow(o, p, quantity, true), x, q);
      }
    }
  }

  lemma SameReturns(l: Ledger, step: Step)
    requires !step.ReturnGoods?
    ensures Apply(l, step).returnRows == l.returnRows
  {
    if !step.EditItem? && !step.DeleteItem? && !step.ChangeStatus? {
      ExistingOrdersKept(l, step);
    }
  }

  lemma NoEarlyReturnsStep(l: Ledger, step: Step)
    requires NoEarlyReturns(l)
    requires step.ReturnGoods? && step.order < |l.orders| ==> l.orders[step.order].status !in EDITABLE
    ensures NoEarlyReturns(Apply(l, step))
    ensures !Undercuts(l, step)
  {
    if step.ReturnGoods? {
      LateReturn(l, step.order, step.product, step.quantity);
    } else {
      var r := Apply(l, step);
      SameReturns(l, step);
      forall o: nat, p: ProductId | o < |r.orders| ==> r.orders[o].status in EDITABLE
        ensures AlreadyReturned(r.returnRows, o, p) == 0
      {
        if o < |l.orders| {
          StatusStepsAreEdges(l, step, o);
        }
      }
    }
  }

  lemma {:induction false} LateReturnsRun(l: Ledger, steps: seq<Step>)
    requires NoEarlyReturns(l) && ReturnsAreLate(l, steps)
    ensures NeverUndercut(l, steps)
    decreases |steps|
  {
    if steps != [] {
      NoEarlyReturnsStep(l, steps[0]);
      LateReturnsRun(Apply(l, steps[0]), steps[1..]);
    }
  }

  lemma {:induction false} AtTheEnd(l: Ledger, steps: seq<Step>)
    requires AlwaysWithinSales(l, steps)
    ensures WithinSales(Run(l, steps))
    decreases |steps|
  {
    if steps != [] {
      AtTheEnd(Apply(l, steps[0]), steps[1..]);
    }
  }

  /** If goods are returned only of orders past editing, then in every reachable state what
      has been returned of a product is at most the quantity of its first item. */
  lemma LateReturnsStayWithinSales(steps: seq<Step>, o: nat, p: ProductId)
    requires ReturnsAreLate(EMPTY, steps)
    ensures AlwaysWithinSales(EMPTY, steps)
    ensures var l := Run(EMPTY, steps);
            AlreadyReturned(l.returnRows, o, p) > 0 ==>
              && o < |l.orders|
              && var items := l.orders[o].items;
                 var first := FirstItemOf(items, p);
                 first.Some? && AlreadyReturned(l.returnRows, o, p) <= items[first.value].quantity
  {
    LateReturnsRun(EMPTY, steps);
    ReturnLimitExactly(steps);
    AtTheEnd(EMPTY, steps);
    var l := Run(EMPTY, steps);
    assert AlreadyReturned(l.returnRows, o, p) <= Returnable(l, o, p);
  }

  lemma SoldByTheService(l: Ledger)
    requires l == Ledger([StockRow(7, 1, 10, 10, 0)], [], [], [], map[7 := 100], 0, [])
    ensures var t := Apply(l, ServiceCreate([Line(7, 5)], 0));
            && |t.orders| == 1 && t.orders[0].status == Pending && t.orders[0].items == [Item(0, 7, 5, 100)]
            && t.returnRows == []
  {
    var start := NewOrder(l, Pending, 0);
    var sold := WithItem(start, 0, 7, 5, 100);
    assert sold.orders[0].items == [Item(0, 7, 5, 100)] && sold.returnRows == [];
    assert [Line(7, 5)][1..] == [];
    assert LinesFilled(start, 0, [Line(7, 5)], 0) == Ok((sold, 500));
  }

  predicate FiveSold(l: Ledger)
  {
    |l.orders| == 1 && l.orders[0].status == Pending && l.orders[0].items == [Item(0, 7, 5, 100)]
  }

  lemma AllComeBack(l: Ledger)
    requires FiveSold(l) && l.returnRows == []
    ensures var t := Apply(l, ReturnGoods(0, 7, 5));
            FiveSold(t) && t.returnRows == [ReturnRow(0, 7, 5, true)]
  {
  }

  lemma EditedDown(l: Ledger)
    requires FiveSold(l) && l.returnRows == [ReturnRow(0, 7, 5, true)]
    ensures var t := Apply(l, EditItem(0, 0, Some(1)));
            |t.orders| == 1 && AlreadyReturned(t.returnRows, 0, 7) == 5 && Returnable(t, 0, 7) == 1
  {
    ReturnsCounted([], ReturnRow(0, 7, 5, true), 0, 7);
    assert [] + [ReturnRow(0, 7, 5, true)] == [ReturnRow(0, 7, 5, true)];
    assert ItemIndex(l.orders[0].items, 0) == Some(0);
    assert Apply(l, EditItem(0, 0, Some(1))).orders[0].items == [Item(0, 7, 1, 100)];
  }

  lemma PricedAndStocked()
    ensures Apply(Apply(EMPTY, SetPrice(7, 100)), OpenStock(7, 1, 10))
         == Ledger([StockRow(7, 1, 10, 10, 0)], [], [], [], map[7 := 100], 0, [])
  {
  }

  /** An order that is edited down after its goods came back: more has been returned than
      it now holds. */
  lemma EarlyReturnEscapes() returns (steps: seq<Step>)
    ensures var l := Run(EMPTY, steps);
            |l.orders| == 1 && AlreadyReturned(l.returnRows, 0, 7) == 5 && Returnable(l, 0, 7) == 1
  {
    hide Apply;
    hide AlreadyReturned;
    hide Returnable;
    var price, stock, sale := SetPrice(7, 100), OpenStock(7, 1, 10), ServiceCreate([Line(7, 5)], 0);
    var back, edit := ReturnGoods(0, 7, 5), EditItem(0, 0, Some(1));
    steps := [price] + ([stock] + ([sale] + ([back] + ([edit] + []))));
    var l1 := Apply(EMPTY, price);
    var l2 := Apply(l1, stock);
    var l3 := Apply(l2, sale);
    var l4 := Apply(l3, back);
    RunNext(EMPTY, price, [stock] + ([sale] + ([back] + ([edit] + []))));
    RunNext(l1, stock, [sale] + ([back] + ([edit] + [])));
    RunNext(l2, sale, [back] + ([edit] + []));
    RunNext(l3, back, [edit] + []);
    RunNext(l4, edit, []);
    PricedAndStocked();
    SoldByTheService(l2);
    AllComeBack(l3);
    EditedDown(l4);
  }
}
