/** Where received goods go: every line of a receipt raises its warehouse's row of the
    product, and no two rows ever stand for one product in one warehouse. */
module Receipts {
  import opened Wrappers
  import opened OrderStatus
  import opened StockLedger
  import opened LedgerLaws
  import opened WebOrders
  import opened OrderEffects

  predicate IsRow(row: StockRow, p: ProductId, w: WarehouseId)
  {
    row.product == p && row.warehouse == w
  }

  predicate UniqueRows(stocks: seq<StockRow>)
  {
    forall i, j :: 0 <= i < j < |stocks| ==> !IsRow(stocks[j], stocks[i].product, stocks[i].warehouse)
  }

  /** The rows that were there keep everything but their quantity, and keep that too unless
      they are the receiving warehouse's rows of a received product; the rows that are new
      are that warehouse's, opened empty. All of them hold what the lines brought. */
  predicate Raised(before: seq<StockRow>, after: seq<StockRow>, w: WarehouseId, lines: seq<Line>)
  {
    && |before| <= |after|
    && (forall i :: 0 <= i < |before| ==>
          after[i] == before[i].(quantity :=
            before[i].quantity + if before[i].warehouse == w then Asked(lines, before[i].product) else 0))
    && (forall i :: |before| <= i < |after| ==>
          after[i] == StockRow(after[i].product, w, Asked(lines, after[i].product), 0, 0))
  }

  predicate HasRowIn(stocks: seq<StockRow>, p: ProductId, w: WarehouseId)
  {
    exists i :: 0 <= i < |stocks| && IsRow(stocks[i], p, w)
  }

  predicate Brings(lines: seq<Line>, p: ProductId)
  {
    exists k :: 0 <= k < |lines| && lines[k].product == p
  }

  /** Every received product has its row in the warehouse, and none that was not received
      got one. */
  predicate RowsForAll(before: seq<StockRow>, after: seq<StockRow>, w: WarehouseId, lines: seq<Line>)
  {
    && (forall k :: 0 <= k < |lines| ==> HasRowIn(after, lines[k].product, w))
    && (forall i :: |before| <= i < |after| ==> Brings(lines, after[i].product))
  }

  /** Movement `m` is the receipt of a line in the warehouse. */
  predicate IsReceipt(m: Movement, stocks: seq<StockRow>, line: Line, w: WarehouseId)
  {
    && m.kind == Input && m.quantity == line.quantity
    && m.stock < |stocks| && IsRow(stocks[m.stock], line.product, w)
  }

  /** The new movements: one input for each line, in order, on the warehouse's row. */
  predicate Recorded(l: Ledger, r: Ledger, w: WarehouseId, lines: seq<Line>)
  {
    && |r.movements| == |l.movements| + |lines|
    && r.movements[..|l.movements|] == l.movements
    && forall k :: 0 <= k < |lines| ==> IsReceipt(r.movements[|l.movements| + k], r.stocks, lines[k], w)
  }

  predicate TheRestStays(l: Ledger, r: Ledger, lines: seq<Line>)
  {
    && r.orders == l.orders && r.returnRows == l.returnRows && r.prices == l.prices && r.nextItem == l.nextItem
    && r.receipts == l.receipts + lines
  }

  // ---------------------------------------------------------------- one line

  lemma AskedOne(line: Line)
    ensures forall x :: Asked([line], x) == if x == line.product then line.quantity else 0
  {
    assert [line][1..] == [];
  }

  /** Where the line goes: the warehouse's row, or a new one after the others. */
  function RowFor(stocks: seq<StockRow>, w: WarehouseId, line: Line): nat
  {
    var row := RowOf(stocks, line.product, w);
    if row == None then |stocks| else row.value
  }

  lemma OnlyRowFor(stocks: seq<StockRow>, w: WarehouseId, line: Line)
    requires UniqueRows(stocks)
    ensures var i := RowFor(stocks, w, line);
            && i <= |stocks| && (i < |stocks| ==> IsRow(stocks[i], line.product, w))
            && forall j :: 0 <= j < |stocks| && j != i ==> !IsRow(stocks[j], line.product, w)
  {
    var i := RowFor(stocks, w, line);
    forall j | 0 <= j < |stocks| && j != i ensures !IsRow(stocks[j], line.product, w) {
      if i < j {
        assert !IsRow(stocks[j], stocks[i].product, stocks[i].warehouse);
      }
    }
  }

  /** The stock rows once the line's row has been raised, or opened. */
  predicate LineRaised(before: seq<StockRow>, after: seq<StockRow>, i: nat, w: WarehouseId, line: Line)
  {
    if i < |before| then
      after == before[i := before[i].(quantity := before[i].quantity + line.quantity)]
    else
      i == |before| && after == before + [StockRow(line.product, w, line.quantity, 0, 0)]
  }

  lemma LineWrites(l: Ledger, w: WarehouseId, line: Line)
    ensures var r := LineReceived(l, w, line);
            var i := RowFor(l.stocks, w, line);
            && LineRaised(l.stocks, r.stocks, i, w, line)
            && r.movements == l.movements + [Movement(i, line.quantity, Input)]
            && TheRestStays(l, r, [line])
  {
  }

  lemma RaisedOnce(before: seq<StockRow>, after: seq<StockRow>, w: WarehouseId, line: Line)
    requires UniqueRows(before) && LineRaised(before, after, RowFor(before, w, line), w, line)
    ensures Raised(before, after, w, [line]) && RowsForAll(before, after, w, [line])
  {
    OnlyRowFor(before, w, line);
    AskedOne(line);
    hide Asked;
    hide UniqueRows;
    var i := RowFor(before, w, line);
    assert IsRow(after[i], line.product, w) && [line][0] == line;
  }

  lemma UniqueOnce(before: seq<StockRow>, after: seq<StockRow>, w: WarehouseId, line: Line)
    requires UniqueRows(before) && LineRaised(before, after, RowFor(before, w, line), w, line)
    ensures UniqueRows(after)
  {
    OnlyRowFor(before, w, line);
  }

  lemma OneLineReceived(l: Ledger, w: WarehouseId, line: Line)
    requires UniqueRows(l.stocks)
    ensures var r := LineReceived(l, w, line);
            && UniqueRows(r.stocks) && Raised(l.stocks, r.stocks, w, [line])
            && RowsForAll(l.stocks, r.stocks, w, [line])
            && Recorded(l, r, w, [line]) && TheRestStays(l, r, [line])
  {
    var r := LineReceived(l, w, line);
    LineWrites(l, w, line);
    OnlyRowFor(l.stocks, w, line);
    UniqueOnce(l.stocks, r.stocks, w, line);
    RaisedOnce(l.stocks, r.stocks, w, line);
    hide LineReceived;
    hide UniqueRows;
    hide Raised;
    hide RowsForAll;
    hide RowFor;
    assert [line][0] == line;
    assert IsReceipt(r.movements[|l.movements|], r.stocks, line, w);
  }

  // ---------------------------------------------------------------- one receipt

  lemma NewRowsAreOthers(
      b: seq<StockRow>, c: seq<StockRow>, w: WarehouseId, line: Line, rest: seq<Line>, i: nat, a: seq<StockRow>)
    requires Raised(b, c, w, rest) && UniqueRows(c) && RowsForAll(a, b, w, [line]) && |b| <= i < |c|
    ensures c[i].product != line.product
  {
    assert HasRowIn(b, [line][0].product, w);
    var j :| 0 <= j < |b| && IsRow(b[j], line.product, w);
    assert !IsRow(c[i], c[j].product, c[j].warehouse);
  }

  lemma RaisedTwice(a: seq<StockRow>, b: seq<StockRow>, c: seq<StockRow>, w: WarehouseId, line: Line, rest: seq<Line>)
    requires Raised(a, b, w, [line]) && Raised(b, c, w, rest)
    requires RowsForAll(a, b, w, [line]) && UniqueRows(c)
    ensures Raised(a, c, w, [line] + rest)
  {
    forall x ensures Asked([line] + rest, x) == Asked([line], x) + Asked(rest, x) {
      AskedOfConcat([line], rest, x);
    }
    AskedOne(line);
    forall i | |b| <= i < |c| ensures c[i].product != line.product {
      NewRowsAreOthers(b, c, w, line, rest, i, a);
    }
    hide Asked;
    hide UniqueRows;
    hide RowsForAll;
  }

  lemma RowsForBoth(a: seq<StockRow>, b: seq<StockRow>, c: seq<StockRow>, w: WarehouseId, line: Line, rest: seq<Line>)
    requires Raised(b, c, w, rest) && |a| <= |b|
    requires RowsForAll(a, b, w, [line]) && RowsForAll(b, c, w, rest)
    ensures RowsForAll(a, c, w, [line] + rest)
  {
    var lines := [line] + rest;
    forall k | 0 <= k < |lines| ensures HasRowIn(c, lines[k].product, w) {
      if k == 0 {
        assert HasRowIn(b, [line][0].product, w);
        var j :| 0 <= j < |b| && IsRow(b[j], line.product, w);
        assert IsRow(c[j], lines[0].product, w);
      } else {
        assert lines[k] == rest[k - 1];
      }
    }
    forall i | |a| <= i < |c| ensures Brings(lines, c[i].product) {
      if i < |b| {
        assert Brings([line], b[i].product);
        assert lines[0].product == c[i].product;
      } else {
        assert Brings(rest, c[i].product);
        var k :| 0 <= k < |rest| && rest[k].product == c[i].product;
        assert lines[k + 1].product == c[i].product;
      }
    }
  }

  lemma RecordedBoth(l: Ledger, m: Ledger, r: Ledger, w: WarehouseId, line: Line, rest: seq<Line>)
    requires Recorded(l, m, w, [line]) && Recorded(m, r, w, rest) && Raised(m.stocks, r.stocks, w, rest)
    ensures Recorded(l, r, w, [line] + rest)
  {
    var lines, n := [line] + rest, |l.movements|;
    assert r.movements[..n] == m.movements[..n];
    forall k | 0 <= k < |lines| ensures IsReceipt(r.movements[n + k], r.stocks, lines[k], w) {
      if k == 0 {
        assert IsReceipt(m.movements[n], m.stocks, [line][0], w);
        assert r.movements[n] == r.movements[..|m.movements|][n];
      } else {
        assert lines[k] == rest[k - 1];
        assert IsReceipt(r.movements[|m.movements| + (k - 1)], r.stocks, rest[k - 1], w);
      }
    }
  }

  /** A receipt raises each row of its warehouse by exactly what its lines bring of the row's
      product, opens a row for each product that had none there, and records one input per
      line on those rows; every other row, and the rest of the tables, stays. */
  lemma {:induction false} ReceiptExactly(l: Ledger, w: WarehouseId, lines: seq<Line>)
    requires UniqueRows(l.stocks)
    ensures var r := PurchaseReceived(l, w, lines);
            && UniqueRows(r.stocks) && Raised(l.stocks, r.stocks, w, lines)
            && RowsForAll(l.stocks, r.stocks, w, lines)
            && Recorded(l, r, w, lines) && TheRestStays(l, r, lines)
    decreases |lines|
  {
    if lines == [] {
      assert l.receipts + [] == l.receipts && l.movements[..|l.movements|] == l.movements;
    } else {
      var next := LineReceived(l, w, lines[0]);
      var r := PurchaseReceived(l, w, lines);
      hide UniqueRows;
      hide Raised;
      hide RowsForAll;
      hide Recorded;
      hide LineReceived;
      OneLineReceived(l, w, lines[0]);
      ReceiptExactly(next, w, lines[1..]);
      assert r == PurchaseReceived(next, w, lines[1..]);
      ReceivedTwice(l, next, r, w, lines[0], lines[1..]);
      assert lines == [lines[0]] + lines[1..];
    }
  }

  lemma ReceivedTwice(l: Ledger, m: Ledger, r: Ledger, w: WarehouseId, line: Line, rest: seq<Line>)
    requires UniqueRows(m.stocks) && UniqueRows(r.stocks)
    requires Raised(l.stocks, m.stocks, w, [line]) && Raised(m.stocks, r.stocks, w, rest)
    requires RowsForAll(l.stocks, m.stocks, w, [line]) && RowsForAll(m.stocks, r.stocks, w, rest)
    requires Recorded(l, m, w, [line]) && Recorded(m, r, w, rest)
    requires TheRestStays(l, m, [line]) && TheRestStays(m, r, rest)
    ensures Raised(l.stocks, r.stocks, w, [line] + rest) && RowsForAll(l.stocks, r.stocks, w, [line] + rest)
    ensures Recorded(l, r, w, [line] + rest) && TheRestStays(l, r, [line] + rest)
  {
    hide UniqueRows;
    hide Raised;
    hide RowsForAll;
    hide Recorded;
    RaisedTwice(l.stocks, m.stocks, r.stocks, w, line, rest);
    RaisedIsLonger(l.stocks, m.stocks, w, [line]);
    RowsForBoth(l.stocks, m.stocks, r.stocks, w, line, rest);
    RecordedBoth(l, m, r, w, line, rest);
    assert l.receipts + ([line] + rest) == (l.receipts + [line]) + rest;
  }

  lemma RaisedIsLonger(a: seq<StockRow>, b: seq<StockRow>, w: WarehouseId, lines: seq<Line>)
    requires Raised(a, b, w, lines)
    ensures |a| <= |b|
  {
  }

  /** Initial stock opens a row at the given quantity, or at zero if that is negative, unless
      the warehouse has one of the product already. */
  lemma OpeningExactly(l: Ledger, p: ProductId, w: WarehouseId, quantity: int)
    ensures var r := Apply(l, OpenStock(p, w, quantity));
            if HasRowIn(l.stocks, p, w) then r == l
            else
              var held := if quantity < 0 then 0 else quantity;
              r == l.(stocks := l.stocks + [StockRow(p, w, held, held, 0)])
  {
  }

  // ---------------------------------------------------------------- every run

  /** The same rows, whatever they hold. */
  predicate SameRows(a: seq<StockRow>, b: seq<StockRow>)
  {
    |a| == |b| && forall i :: 0 <= i < |a| ==> b[i].product == a[i].product && b[i].warehouse == a[i].warehouse
  }

  lemma SameRowsAreUnique(a: seq<StockRow>, b: seq<StockRow>)
    requires UniqueRows(a) && SameRows(a, b)
    ensures UniqueRows(b)
  {
  }

  lemma FormKeepsRows(l: Ledger, form: Form, shipping: nat)
    ensures SameRows(l.stocks, WebCreated(l, form, shipping).ledger.stocks)
  {
    if form.products != [] && form.hasClient {
      var o, lines, start := |l.orders|, FormLines(form), NewOrder(l, Draft, shipping);
      var n := EveryFormStops(l, lines, 0);
      SameTables(l, start, lines, n);
      StoppedForm(start, o, lines, 0, n);
      FilledExactly(start, o, lines[..n], 0);
    }
  }

  lemma EditKeepsRows(l: Ledger, o: nat, id: nat, quantity: Option<int>)
    ensures SameRows(l.stocks, Apply(l, EditItem(o, id, quantity)).stocks)
  {
  }

  lemma DeleteKeepsRows(l: Ledger, o: nat, id: nat, hasNote: bool)
    ensures SameRows(l.stocks, Apply(l, DeleteItem(o, id, hasNote)).stocks)
  {
  }

  lemma UniqueRowsStep(l: Ledger, step: Step)
    requires UniqueRows(l.stocks)
    ensures UniqueRows(Apply(l, step).stocks)
  {
    var r := Apply(l, step);
    match step {
      case OpenStock(p, w, quantity) => OpeningExactly(l, p, w, quantity);
      case Receive(w, lines) => ReceiptExactly(l, w, lines);
      case WebCreate(form, shipping) =>
        FormKeepsRows(l, form, shipping);
        SameRowsAreUnique(l.stocks, r.stocks);
      case ServiceCreate(lines, taxRate) =>
        ServiceCreateIsAllOrNothing(l, lines, taxRate);
        SameRowsAreUnique(l.stocks, r.stocks);
      case EditItem(o, id, quantity) =>
        EditKeepsRows(l, o, id, quantity);
        SameRowsAreUnique(l.stocks, r.stocks);
      case DeleteItem(o, id, hasNote) =>
        DeleteKeepsRows(l, o, id, hasNote);
        SameRowsAreUnique(l.stocks, r.stocks);
      case ChangeStatus(o, status) =>
        StatusExactly(l, o, status);
        SameRowsAreUnique(l.stocks, r.stocks);
      case _ => SameRowsAreUnique(l.stocks, r.stocks);
    }
  }

  lemma {:induction false} UniqueRowsRun(l: Ledger, steps: seq<Step>)
    requires UniqueRows(l.stocks)
    ensures UniqueRows(Run(l, steps).stocks)
    decreases |steps|
  {
    if steps != [] {
      UniqueRowsStep(l, steps[0]);
      UniqueRowsRun(Apply(l, steps[0]), steps[1..]);
    }
  }

  /** Over every run, no two stock rows share their product and warehouse, so a receipt, at
      any point of it, finds or opens the one row its goods belong to. */
  lemma RowsAreUnique(steps: seq<Step>, w: WarehouseId, lines: seq<Line>)
    ensures UniqueRows(Run(EMPTY, steps).stocks)
    ensures var l := Run(EMPTY, steps);
            var r := Apply(l, Receive(w, lines));
            && Raised(l.stocks, r.stocks, w, lines) && RowsForAll(l.stocks, r.stocks, w, lines)
            && Recorded(l, r, w, lines) && TheRestStays(l, r, lines)
  {
    UniqueRowsRun(EMPTY, steps);
    ReceiptExactly(Run(EMPTY, steps), w, lines);
  }
}
