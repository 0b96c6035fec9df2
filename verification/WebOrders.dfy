/** Orders from the web form: what a form that fails leaves behind, what a form draws on the
    stock rows, and when that keeps every row from going negative. */
module WebOrders {
  import opened Wrappers
  import opened OrderStatus
  import opened StockLedger
  import opened LedgerLaws

  /** The lines that sell something. */
  function Positive(lines: seq<FormLine>): seq<Line>
    decreases |lines|
  {
    if lines == [] then []
    else
      var rest := Positive(lines[1..]);
      if lines[0].quantity.Some? && lines[0].quantity.value > 0
      then [Line(lines[0].product, lines[0].quantity.value)] + rest
      else rest
  }

  /** The order items of such lines, at the listed prices. */
  function ItemsFor(lines: seq<Line>, prices: map<ProductId, nat>, nextItem: nat): seq<Item>
    requires forall k :: 0 <= k < |lines| ==> lines[k].product in prices
    decreases |lines|
  {
    if lines == [] then []
    else
      [Item(nextItem, lines[0].product, lines[0].quantity, prices[lines[0].product])]
      + ItemsFor(lines[1..], prices, nextItem + 1)
  }

  predicate AllPriced(lines: seq<Line>, prices: map<ProductId, nat>)
  {
    forall k :: 0 <= k < |lines| ==> lines[k].product in prices
  }

  /** Every line's product has a stock row. */
  predicate HaveRows(stocks: seq<StockRow>, lines: seq<Line>)
  {
    forall k :: 0 <= k < |lines| ==> FirstRow(stocks, lines[k].product, None).Some?
  }

  /** The output movements of the lines, each on its product's first row. */
  function Sales(stocks: seq<StockRow>, lines: seq<Line>): seq<Movement>
    requires HaveRows(stocks, lines)
    decreases |lines|
  {
    if lines == [] then []
    else
      [Movement(FirstRow(stocks, lines[0].product, None).value, lines[0].quantity, Output)]
      + Sales(stocks, lines[1..])
  }

  /** Selling `sold` on order `o` leads from `l` to `r`: the items are those of the lines,
      their quantities come off the products' first rows, each with its movement, and
      nothing else changes. */
  predicate Fills(l: Ledger, o: nat, sold: seq<Line>, r: Ledger)
  {
    && o < |l.orders| == |r.orders|
    && AllPriced(sold, l.prices) && HaveRows(l.stocks, sold)
    && Drawn(l.stocks, r.stocks, sold)
    && r.movements == l.movements + Sales(l.stocks, sold)
    && r.orders[o] == l.orders[o].(items := l.orders[o].items + ItemsFor(sold, l.prices, l.nextItem))
    && (forall k :: 0 <= k < |l.orders| && k != o ==> r.orders[k] == l.orders[k])
    && r.nextItem == l.nextItem + |sold|
    && r.prices == l.prices && r.returnRows == l.returnRows && r.receipts == l.receipts
  }

  lemma FillsNothing(l: Ledger, o: nat)
    requires o < |l.orders|
    ensures Fills(l, o, [], l)
  {
    NothingToFill(l);
    assert l.orders[o].items + [] == l.orders[o].items && l.movements + [] == l.movements;
  }

  lemma FillsOne(l: Ledger, o: nat, line: Line)
    requires o < |l.orders| && line.product in l.prices && FirstRow(l.stocks, line.product, None).Some?
    ensures Fills(l, o, [line], WithItem(l, o, line.product, line.quantity, l.prices[line.product]))
  {
    OneLineDrawn(l, o, line, l.prices[line.product]);
    assert [line][1..] == [];
  }

  lemma {:induction false} SalesDependOnProducts(a: seq<StockRow>, b: seq<StockRow>, lines: seq<Line>)
    requires |a| == |b| && forall i :: 0 <= i < |a| ==> a[i].product == b[i].product
    requires HaveRows(a, lines)
    ensures HaveRows(b, lines) && Sales(a, lines) == Sales(b, lines)
    decreases |lines|
  {
    forall p ensures FirstRow(a, p, None) == FirstRow(b, p, None) {
      FirstRowDependsOnProducts(a, b, p);
    }
    if lines != [] {
      assert HaveRows(a, lines[1..]);
      SalesDependOnProducts(a, b, lines[1..]);
    }
  }

  lemma ItemsOfMore(line: Line, rest: seq<Line>, prices: map<ProductId, nat>, nextItem: nat)
    requires AllPriced([line], prices) && AllPriced(rest, prices)
    ensures AllPriced([line] + rest, prices)
    ensures ItemsFor([line] + rest, prices, nextItem)
         == ItemsFor([line], prices, nextItem) + ItemsFor(rest, prices, nextItem + 1)
  {
    assert [line][0] == line && [line][1..] == [] && ([line] + rest)[1..] == rest;
  }

  lemma SalesOfMore(stocks: seq<StockRow>, line: Line, rest: seq<Line>)
    requires HaveRows(stocks, [line]) && HaveRows(stocks, rest)
    ensures HaveRows(stocks, [line] + rest)
    ensures Sales(stocks, [line] + rest) == Sales(stocks, [line]) + Sales(stocks, rest)
  {
    hide FirstRow;
    assert [line][0] == line && [line][1..] == [] && ([line] + rest)[1..] == rest;
  }

  lemma FillsMore(l: Ledger, next: Ledger, o: nat, line: Line, rest: seq<Line>, r: Ledger)
    requires Fills(l, o, [line], next) && Fills(next, o, rest, r)
    ensures Fills(l, o, [line] + rest, r)
  {
    hide Sales;
    hide ItemsFor;
    hide AllPriced;
    var sold := [line] + rest;
    SalesDependOnProducts(next.stocks, l.stocks, rest);
    SalesOfMore(l.stocks, line, rest);
    ItemsOfMore(line, rest, l.prices, l.nextItem);
    assert sold[0] == line && sold[1..] == rest;
    DrawnTwice(l.stocks, next.stocks, r.stocks, sold);
    hide Drawn;
    hide HaveRows;
    assert r.orders[o].items == l.orders[o].items + ItemsFor(sold, l.prices, l.nextItem);
    assert r.movements == l.movements + Sales(l.stocks, sold);
  }

  /** A form that meets no failing line sells exactly its positive lines. */
  lemma {:induction false} FilledExactly(l: Ledger, o: nat, lines: seq<FormLine>, sum: nat)
    requires o < |l.orders| && FormFilled(l, o, lines, sum).outcome.Ok?
    ensures Fills(l, o, Positive(lines), FormFilled(l, o, lines, sum).ledger)
    decreases |lines|
  {
    hide Fills;
    if lines == [] {
      FillsNothing(l, o);
    } else if lines[0].quantity.value <= 0 {
      FilledExactly(l, o, lines[1..], sum);
    } else {
      var line := Line(lines[0].product, lines[0].quantity.value);
      var price := l.prices[line.product];
      var next := WithItem(l, o, line.product, line.quantity, price);
      RowForAny(l.stocks, line.product, lines[0].quantity);
      FillsOne(l, o, line);
      FilledExactly(next, o, lines[1..], sum + price * line.quantity);
      FillsMore(l, next, o, line, Positive(lines[1..]), FormFilled(l, o, lines, sum).ledger);
    }
  }

  lemma RowForAny(stocks: seq<StockRow>, p: ProductId, floor: Option<int>)
    requires FirstRow(stocks, p, floor).Some?
    ensures FirstRow(stocks, p, None).Some?
  {
    assert Matches(stocks[FirstRow(stocks, p, floor).value], p, None);
  }

  // ---------------------------------------------------------------- when a form succeeds

  /** Line `j` is taken, given that the lines before it were: its quantity parses, and if it
      sells anything, its product has a price and some row of it still holds that much. */
  predicate LineTaken(l: Ledger, lines: seq<FormLine>, j: nat)
    requires j < |lines|
  {
    && lines[j].quantity.Some?
    && (lines[j].quantity.value > 0 ==>
          && lines[j].product in l.prices
          && exists i :: 0 <= i < |l.stocks| && HoldsEnough(l.stocks, i, Positive(lines[..j]), lines[j]))
  }

  predicate HoldsEnough(stocks: seq<StockRow>, i: nat, drawn: seq<Line>, line: FormLine)
    requires i < |stocks| && line.quantity.Some?
  {
    stocks[i].product == line.product && stocks[i].quantity - Draw(stocks, i, drawn) >= line.quantity.value
  }

  predicate AllTaken(l: Ledger, lines: seq<FormLine>, n: nat)
    requires n <= |lines|
  {
    forall j :: 0 <= j < n ==> LineTaken(l, lines, j)
  }

  lemma {:induction false} FormFilledConcat(l: Ledger, o: nat, a: seq<FormLine>, b: seq<FormLine>, sum: nat)
    requires o < |l.orders|
    ensures var f := FormFilled(l, o, a, sum);
            FormFilled(l, o, a + b, sum) == if f.outcome.Ok? then FormFilled(f.ledger, o, b, f.outcome.value) else f
    decreases |a|
  {
    hide WithItem;
    hide FirstRow;
    if a == [] {
      assert a + b == b;
    } else {
      assert (a + b)[0] == a[0] && (a + b)[1..] == a[1..] + b;
      var line := a[0];
      if line.quantity.Some? && line.quantity.value <= 0 {
        FormFilledConcat(l, o, a[1..], b, sum);
      } else if line.quantity.Some? && line.product in l.prices
                && FirstRow(l.stocks, line.product, line.quantity).Some? {
        var price := l.prices[line.product];
        var next := WithItem(l, o, line.product, line.quantity.value, price);
        FormFilledConcat(next, o, a[1..], b, sum + price * line.quantity.value);
      }
    }
  }

  /** A line by itself, on tables that have already given what the lines before it asked. */
  lemma NextLineTaken(l: Ledger, now: Ledger, o: nat, lines: seq<FormLine>, j: nat, sum: nat)
    requires o < |now.orders| && j < |lines|
    requires now.prices == l.prices && Drawn(l.stocks, now.stocks, Positive(lines[..j]))
    ensures FormFilled(now, o, [lines[j]], sum).outcome.Ok? <==> LineTaken(l, lines, j)
  {
    var line := lines[j];
    assert [line][1..] == [];
    if line.quantity.Some? && line.quantity.value > 0 {
      var found := FirstRow(now.stocks, line.product, line.quantity);
      if found.Some? {
        assert HoldsEnough(l.stocks, found.value, Positive(lines[..j]), line);
      } else {
        forall i | 0 <= i < |l.stocks| ensures !HoldsEnough(l.stocks, i, Positive(lines[..j]), line) {
          assert !Matches(now.stocks[i], line.product, line.quantity);
        }
      }
    }
  }

  lemma {:induction false} TakenExactly(l: Ledger, o: nat, lines: seq<FormLine>, sum: nat, n: nat)
    requires o < |l.orders| && n <= |lines|
    ensures FormFilled(l, o, lines[..n], sum).outcome.Ok? <==> AllTaken(l, lines, n)
    decreases n
  {
    hide FormFilled;
    hide LineTaken;
    if n == 0 {
      NoLines(l, o, sum);
    } else {
      TakenExactly(l, o, lines, sum, n - 1);
      assert lines[..n] == lines[..n - 1] + [lines[n - 1]];
      FormFilledConcat(l, o, lines[..n - 1], [lines[n - 1]], sum);
      var f := FormFilled(l, o, lines[..n - 1], sum);
      if f.outcome.Ok? {
        FilledExactly(l, o, lines[..n - 1], sum);
        NextLineTaken(l, f.ledger, o, lines, n - 1, f.outcome.value);
      }
    }
  }

  lemma NoLines(l: Ledger, o: nat, sum: nat)
    requires o < |l.orders|
    ensures FormFilled(l, o, [], sum) == Filled(l, Ok(sum))
  {
  }

  /** The form is accepted exactly when it names products and a client and every line is
      taken, which the tables before it decide. */
  lemma WebFormSucceedsExactly(l: Ledger, form: Form, shipping: nat)
    ensures WebCreated(l, form, shipping).outcome.Ok? <==>
            form.products != [] && form.hasClient && AllTaken(l, FormLines(form), |FormLines(form)|)
  {
    var lines := FormLines(form);
    var start := NewOrder(l, Draft, shipping);
    TakenExactly(start, |l.orders|, lines, 0, |lines|);
    assert lines[..|lines|] == lines;
    SameTables(l, start, lines, |lines|);
  }

  lemma SameTables(l: Ledger, r: Ledger, lines: seq<FormLine>, n: nat)
    requires n <= |lines| && r.stocks == l.stocks && r.prices == l.prices
    ensures AllTaken(l, lines, n) <==> AllTaken(r, lines, n)
    ensures n < |lines| ==> (LineTaken(l, lines, n) <==> LineTaken(r, lines, n))
  {
    assert forall j :: 0 <= j < |lines| ==> (LineTaken(l, lines, j) <==> LineTaken(r, lines, j));
  }

  // ---------------------------------------------------------------- a failing form

  /** The first failing line: the lines before it fill the order, and nothing after it counts. */
  lemma {:induction false} FirstFailure(l: Ledger, o: nat, lines: seq<FormLine>, sum: nat) returns (n: nat)
    requires o < |l.orders| && FormFilled(l, o, lines, sum).outcome.Err?
    ensures n < |lines|
    ensures FormFilled(l, o, lines[..n], sum).outcome.Ok?
    ensures FormFilled(l, o, lines[..n], sum).ledger == FormFilled(l, o, lines, sum).ledger
    ensures FormFilled(l, o, lines[..n + 1], sum).outcome == FormFilled(l, o, lines, sum).outcome
    decreases |lines|
  {
    hide WithItem;
    hide FirstRow;
    var line := lines[0];
    var covered := line.quantity.Some? && FirstRow(l.stocks, line.product, line.quantity).Some?;
    if line.quantity.Some? && line.quantity.value <= 0 {
      n := FirstFailure(l, o, lines[1..], sum);
      n := n + 1;
      PrefixTail(lines, n);
    } else if covered && line.product in l.prices {
      var price := l.prices[line.product];
      var next := WithItem(l, o, line.product, line.quantity.value, price);
      n := FirstFailure(next, o, lines[1..], sum + price * line.quantity.value);
      n := n + 1;
      PrefixTail(lines, n);
    } else {
      n := 0;
      assert lines[..1][0] == line;
    }
  }

  lemma PrefixTail(lines: seq<FormLine>, n: nat)
    requires 0 < n < |lines|
    ensures lines[..n][1..] == lines[1..][..n - 1] && lines[..n + 1][1..] == lines[1..][..n]
    ensures lines[..n][0] == lines[0] && lines[..n + 1][0] == lines[0]
  {
  }

  /** The form cut after `n` lines. */
  function Cut(form: Form, n: nat): Form
    requires n <= |FormLines(form)|
  {
    form.(quantities := form.quantities[..n])
  }

  lemma CutLines(form: Form, n: nat)
    requires n <= |FormLines(form)|
    ensures FormLines(Cut(form, n)) == FormLines(form)[..n]
  {
  }

  /** A form that names products and fails on a line is not rolled back: its order stays, as
      an unpriced draft whose items are exactly those of the lines before, and the stock
      rows have given exactly those. The failing line is the first that is not taken; cut
      before it the form would have succeeded, and cut after it, it fails alike. */
  lemma FailedFormKeepsItsPrefix(l: Ledger, form: Form, shipping: nat) returns (n: nat)
    requires WebCreated(l, form, shipping).outcome.Err? && form.products != [] && form.hasClient
    ensures n < |FormLines(form)|
    ensures AllTaken(l, FormLines(form), n) && !LineTaken(l, FormLines(form), n)
    ensures var sold := Positive(FormLines(form)[..n]);
            && AllPriced(sold, l.prices)
            && var r := WebCreated(l, form, shipping).ledger;
               && |r.orders| == |l.orders| + 1
               && r.orders[..|l.orders|] == l.orders
               && r.orders[|l.orders|]
                  == Order(Draft, ItemsFor(sold, l.prices, l.nextItem), shipping, 0, 0, 0, Audit([Draft], false, 0))
               && Drawn(l.stocks, r.stocks, sold)
    ensures WebCreated(l, Cut(form, n), shipping).outcome.Ok?
    ensures WebCreated(l, Cut(form, n + 1), shipping).outcome == WebCreated(l, form, shipping).outcome
  {
    var o, lines := |l.orders|, FormLines(form);
    var start := NewOrder(l, Draft, shipping);
    n := FirstFailure(start, o, lines, 0);
    FilledExactly(start, o, lines[..n], 0);
    FormFilledKeepsOrders(start, o, lines, 0);
    CutLines(form, n);
    CutLines(form, n + 1);
    TakenExactly(start, o, lines, 0, n);
    TakenExactly(start, o, lines, 0, n + 1);
    SameTables(l, start, lines, n);
    var sold := Positive(lines[..n]);
    assert [] + ItemsFor(sold, l.prices, l.nextItem) == ItemsFor(sold, l.prices, l.nextItem);
  }

  /** A failing form leaves the tables as they were exactly when it names no product or no
      client: those are the failures that come before the first write. */
  lemma FormRollsBackExactly(l: Ledger, form: Form, shipping: nat)
    requires WebCreated(l, form, shipping).outcome.Err?
    ensures WebCreated(l, form, shipping).ledger == l <==> form.products == [] || !form.hasClient
  {
    if form.products != [] && form.hasClient {
      var _ := FailedFormKeepsItsPrefix(l, form, shipping);
    }
  }

  // ---------------------------------------------------------------- no negative stock

  predicate NonNegative(stocks: seq<StockRow>)
  {
    forall i :: 0 <= i < |stocks| ==> stocks[i].quantity >= 0
  }

  predicate OneRowEach(stocks: seq<StockRow>)
  {
    forall i, j :: 0 <= i < j < |stocks| ==> stocks[i].product != stocks[j].product
  }

  /** The web form is used only while no product has two stock rows. */
  ghost predicate WebOnSingleRows(l: Ledger, steps: seq<Step>)
    decreases |steps|
  {
    steps != [] ==>
      && (steps[0].WebCreate? ==> OneRowEach(l.stocks))
      && WebOnSingleRows(Apply(l, steps[0]), steps[1..])
  }

  /** An accepted line keeps stock non-negative exactly when the first row covers it. */
  lemma WebLineIsSafeExactly(l: Ledger, o: nat, p: ProductId, quantity: nat, price: nat)
    requires o < |l.orders| && NonNegative(l.stocks)
    requires FirstRow(l.stocks, p, Some(quantity)).Some?
    ensures FirstRow(l.stocks, p, None).Some?
    ensures NonNegative(WithItem(l, o, p, quantity, price).stocks)
       <==> quantity <= l.stocks[FirstRow(l.stocks, p, None).value].quantity
    ensures OneRowEach(l.stocks) ==> quantity <= l.stocks[FirstRow(l.stocks, p, None).value].quantity
  {
    var any := FirstRow(l.stocks, p, Some(quantity)).value;
    assert Matches(l.stocks[any], p, None);
    var row := FirstRow(l.stocks, p, None).value;
    var r := WithItem(l, o, p, quantity, price);
    assert r.stocks[row].quantity == l.stocks[row].quantity - quantity;
  }

  lemma {:induction false} FormStaysNonNegative(l: Ledger, o: nat, lines: seq<FormLine>, sum: nat)
    requires o < |l.orders| && NonNegative(l.stocks) && OneRowEach(l.stocks)
    ensures NonNegative(FormFilled(l, o, lines, sum).ledger.stocks)
    decreases |lines|
  {
    if lines != [] {
      var line := lines[0];
      if line.quantity.Some? && line.quantity.value <= 0 {
        FormStaysNonNegative(l, o, lines[1..], sum);
      } else if line.quantity.Some? && line.product in l.prices
                && FirstRow(l.stocks, line.product, line.quantity).Some? {
        var price := l.prices[line.product];
        WebLineIsSafeExactly(l, o, line.product, line.quantity.value, price);
        var next := WithItem(l, o, line.product, line.quantity.value, price);
        FormStaysNonNegative(next, o, lines[1..], sum + price * line.quantity.value);
      }
    }
  }

  predicate CoversAll(stocks: seq<StockRow>, lines: seq<Line>)
  {
    forall k :: 0 <= k < |lines| ==> Covers(stocks, lines, lines[k].product)
  }

  /** Drawing lines that have stock rows leaves no row negative exactly when each product's
      first row covers all that they ask of it. */
  lemma DrawnIsSafeExactly(before: seq<StockRow>, after: seq<StockRow>, lines: seq<Line>)
    requires NonNegative(before) && Drawn(before, after, lines)
    requires HaveRows(before, lines)
    ensures NonNegative(after) <==> CoversAll(before, lines)
  {
    if CoversAll(before, lines) {
      forall i | 0 <= i < |after| ensures after[i].quantity >= 0 {
        var p := before[i].product;
        if k :| 0 <= k < |lines| && lines[k].product == p {
          assert Covers(before, lines, lines[k].product);
        } else {
          NothingAsked(lines, p);
        }
      }
    }
    if NonNegative(after) {
      forall k | 0 <= k < |lines| ensures Covers(before, lines, lines[k].product) {
        var i := FirstRow(before, lines[k].product, None).value;
        assert after[i].quantity >= 0;
      }
    }
  }

  /** Line `n` is the first that is not taken, or the end of the form. */
  predicate StopsAt(l: Ledger, lines: seq<FormLine>, n: nat)
  {
    n <= |lines| && AllTaken(l, lines, n) && (n < |lines| ==> !LineTaken(l, lines, n))
  }

  lemma {:induction false} EveryFormStops(l: Ledger, lines: seq<FormLine>, from: nat) returns (n: nat)
    requires from <= |lines| && AllTaken(l, lines, from)
    ensures StopsAt(l, lines, n)
    decreases |lines| - from
  {
    hide LineTaken;
    if from < |lines| && LineTaken(l, lines, from) {
      n := EveryFormStops(l, lines, from + 1);
    } else {
      n := from;
    }
  }

  /** A line that fails writes nothing. */
  lemma FailingLineWritesNothing(l: Ledger, o: nat, line: FormLine, sum: nat)
    requires o < |l.orders| && FormFilled(l, o, [line], sum).outcome.Err?
    ensures FormFilled(l, o, [line], sum).ledger == l
  {
    assert [line][1..] == [];
  }

  /** Where a form stops is all that its writes depend on. */
  lemma StoppedForm(l: Ledger, o: nat, lines: seq<FormLine>, sum: nat, n: nat)
    requires o < |l.orders| && StopsAt(l, lines, n)
    ensures FormFilled(l, o, lines[..n], sum).outcome.Ok?
    ensures FormFilled(l, o, lines, sum).ledger == FormFilled(l, o, lines[..n], sum).ledger
  {
    TakenExactly(l, o, lines, sum, n);
    if n == |lines| {
      assert lines[..n] == lines;
    } else {
      TakenExactly(l, o, lines, sum, n + 1);
      var f := FormFilled(l, o, lines[..n], sum);
      assert lines[..n + 1] == lines[..n] + [lines[n]];
      FormFilledConcat(l, o, lines[..n], [lines[n]], sum);
      FailingLineWritesNothing(f.ledger, o, lines[n], f.outcome.value);
      assert lines == lines[..n + 1] + lines[n + 1..];
      FormFilledConcat(l, o, lines[..n + 1], lines[n + 1..], sum);
    }
  }

  /** As far as the lines of the form are taken, each product's first row covers all that
      they ask of it. */
  predicate FormCovered(l: Ledger, form: Form)
  {
    var lines := FormLines(form);
    || form.products == [] || !form.hasClient
    || forall n :: 0 <= n <= |lines| && AllTaken(l, lines, n) ==> CoversAll(l.stocks, Positive(lines[..n]))
  }

  lemma {:induction false} PositiveOfConcat(a: seq<FormLine>, b: seq<FormLine>)
    ensures Positive(a + b) == Positive(a) + Positive(b)
    decreases |a|
  {
    if a == [] {
      assert a + b == b;
    } else {
      assert (a + b)[0] == a[0] && (a + b)[1..] == a[1..] + b;
      PositiveOfConcat(a[1..], b);
    }
  }

  lemma {:induction false} AskedOfConcat(a: seq<Line>, b: seq<Line>, p: ProductId)
    ensures Asked(a + b, p) == Asked(a, p) + Asked(b, p)
    decreases |a|
  {
    if a == [] {
      assert a + b == b;
    } else {
      assert (a + b)[0] == a[0] && (a + b)[1..] == a[1..] + b;
      AskedOfConcat(a[1..], b, p);
    }
  }

  /** Covering more lines covers fewer. */
  lemma CoversPrefix(stocks: seq<StockRow>, lines: seq<FormLine>, n: nat, m: nat)
    requires n <= m <= |lines| && CoversAll(stocks, Positive(lines[..m]))
    ensures CoversAll(stocks, Positive(lines[..n]))
  {
    var some, more := Positive(lines[..n]), Positive(lines[n..m]);
    assert lines[..m] == lines[..n] + lines[n..m];
    PositiveOfConcat(lines[..n], lines[n..m]);
    forall k | 0 <= k < |some| ensures Covers(stocks, some, some[k].product) {
      assert Covers(stocks, some + more, (some + more)[k].product);
      AskedOfConcat(some, more, some[k].product);
    }
  }

  lemma CoveredToTheStop(l: Ledger, form: Form, n: nat)
    requires form.products != [] && form.hasClient && StopsAt(l, FormLines(form), n)
    ensures FormCovered(l, form) <==> CoversAll(l.stocks, Positive(FormLines(form)[..n]))
  {
    hide LineTaken;
    hide CoversAll;
    var lines := FormLines(form);
    if CoversAll(l.stocks, Positive(lines[..n])) {
      forall m | 0 <= m <= |lines| && AllTaken(l, lines, m) ensures CoversAll(l.stocks, Positive(lines[..m])) {
        CoversPrefix(l.stocks, lines, m, n);
      }
    }
  }

  /** The form checks each line against any row, but the sale draws on the first one. Stock
      stays non-negative exactly when, as far as the lines are taken, each product's first
      row covers all that they ask of it. One row per product is enough for that. */
  lemma WebFormIsSafeExactly(l: Ledger, form: Form, shipping: nat)
    requires NonNegative(l.stocks)
    ensures NonNegative(WebCreated(l, form, shipping).ledger.stocks) <==> FormCovered(l, form)
    ensures OneRowEach(l.stocks) ==> FormCovered(l, form)
  {
    if form.products != [] && form.hasClient {
      var o, lines, start := |l.orders|, FormLines(form), NewOrder(l, Draft, shipping);
      var n := EveryFormStops(l, lines, 0);
      SameTables(l, start, lines, n);
      StoppedForm(start, o, lines, 0, n);
      FilledExactly(start, o, lines[..n], 0);
      DrawnIsSafeExactly(l.stocks, FormFilled(start, o, lines, 0).ledger.stocks, Positive(lines[..n]));
      CoveredToTheStop(l, form, n);
      if OneRowEach(l.stocks) {
        FormStaysNonNegative(start, o, lines, 0);
      }
    }
  }

  lemma {:induction false} ReceiveStaysNonNegative(l: Ledger, w: WarehouseId, lines: seq<Line>)
    requires NonNegative(l.stocks)
    ensures NonNegative(PurchaseReceived(l, w, lines).stocks)
    decreases |lines|
  {
    if lines != [] {
      assert NonNegative(LineReceived(l, w, lines[0]).stocks);
      ReceiveStaysNonNegative(LineReceived(l, w, lines[0]), w, lines[1..]);
    }
  }

  lemma EditStaysNonNegative(l: Ledger, o: nat, id: nat, quantity: Option<int>)
    requires NonNegative(l.stocks)
    ensures ItemEdited(l, o, id, quantity).Ok? ==> NonNegative(ItemEdited(l, o, id, quantity).value.stocks)
  {
  }

  lemma DeleteStaysNonNegative(l: Ledger, o: nat, id: nat, hasNote: bool)
    requires NonNegative(l.stocks)
    ensures ItemDeleted(l, o, id, hasNote).Ok? ==> NonNegative(ItemDeleted(l, o, id, hasNote).value.stocks)
  {
  }

  lemma ServiceStaysNonNegative(l: Ledger, lines: seq<Line>, taxRate: nat)
    requires NonNegative(l.stocks)
    ensures ServiceCreated(l, lines, taxRate).Ok? ==> NonNegative(ServiceCreated(l, lines, taxRate).value.stocks)
  {
    ServiceCreateIsAllOrNothing(l, lines, taxRate);
    var created := ServiceCreated(l, lines, taxRate);
    if created.Ok? {
      forall i | 0 <= i < |l.stocks| ensures created.value.stocks[i].quantity >= 0 {
        var p := l.stocks[i].product;
        if k :| 0 <= k < |lines| && lines[k].product == p {
          assert Covers(l.stocks, lines, lines[k].product);
        } else {
          NothingAsked(lines, p);
        }
      }
    }
  }

  lemma {:induction false} RestoredStaysNonNegative(l: Ledger, items: seq<Item>)
    requires NonNegative(l.stocks)
    ensures NonNegative(RestoredItems(l, items).stocks)
  {
    RestoredExactly(l, items);
  }

  lemma NonNegativeStep(l: Ledger, step: Step)
    requires NonNegative(l.stocks)
    ensures NonNegative(Apply(l, step).stocks) <==> (step.WebCreate? ==> FormCovered(l, step.form))
  {
    hide ItemEdited;
    hide ItemDeleted;
    hide FormCovered;
    match step {
      case WebCreate(form, shipping) => WebFormIsSafeExactly(l, form, shipping);
      case ServiceCreate(lines, taxRate) => ServiceStaysNonNegative(l, lines, taxRate);
      case ChangeStatus(o, status) => if o < |l.orders| { RestoredStaysNonNegative(l, l.orders[o].items); }
      case Receive(w, lines) => ReceiveStaysNonNegative(l, w, lines);
      case EditItem(o, id, quantity) => EditStaysNonNegative(l, o, id, quantity);
      case DeleteItem(o, id, hasNote) => DeleteStaysNonNegative(l, o, id, hasNote);
      case _ =>
    }
  }

  /** No stock row is negative at any point of the run. */
  predicate NeverNegative(l: Ledger, steps: seq<Step>)
    decreases |steps|
  {
    NonNegative(l.stocks) && (steps != [] ==> NeverNegative(Apply(l, steps[0]), steps[1..]))
  }

  /** Every web form of the run is covered when it arrives. */
  predicate FormsCovered(l: Ledger, steps: seq<Step>)
    decreases |steps|
  {
    steps != [] ==>
      && (steps[0].WebCreate? ==> FormCovered(l, steps[0].form))
      && FormsCovered(Apply(l, steps[0]), steps[1..])
  }

  lemma {:induction false} NonNegativeRun(l: Ledger, steps: seq<Step>)
    requires NonNegative(l.stocks)
    ensures NeverNegative(l, steps) <==> FormsCovered(l, steps)
    ensures WebOnSingleRows(l, steps) ==> FormsCovered(l, steps)
    decreases |steps|
  {
    hide FormCovered;
    if steps != [] {
      var next := Apply(l, steps[0]);
      NonNegativeStep(l, steps[0]);
      if steps[0].WebCreate? {
        WebFormIsSafeExactly(l, steps[0].form, steps[0].shipping);
      }
      if NonNegative(next.stocks) {
        NonNegativeRun(next, steps[1..]);
      } else {
        assert !NeverNegative(next, steps[1..]);
      }
    }
  }

  /** Over every run, no stock row is ever negative exactly when the first rows cover every
      web form; so never in a run whose orders come from the service, or from the web form
      while each product has one stock row. */
  lemma StockNeverNegative(steps: seq<Step>)
    ensures NeverNegative(EMPTY, steps) <==> FormsCovered(EMPTY, steps)
    ensures WebOnSingleRows(EMPTY, steps) ==> NeverNegative(EMPTY, steps)
  {
    NonNegativeRun(EMPTY, steps);
  }

  /** The sale of the form on the two rows. */
  lemma FormDrawsOnTheFirst(l: Ledger)
    requires l == Ledger([StockRow(7, 1, 1, 1, 0), StockRow(7, 2, 5, 5, 0)], [], [], [], map[7 := 100], 0, [])
    ensures var t := Apply(l, WebCreate(Form([7], [Some(3)], true), 0));
            |t.stocks| == 2 && t.stocks[0].quantity == -2 && t.stocks[1].quantity == 5
  {
    var start := NewOrder(l, Draft, 0);
    var sold := WithItem(start, 0, 7, 3, 100);
    assert FormLines(Form([7], [Some(3)], true)) == [FormLine(7, Some(3))] && [FormLine(7, Some(3))][1..] == [];
    assert FirstRow(l.stocks, 7, Some(3)).Some? by { assert Matches(l.stocks[1], 7, Some(3)); }
    assert FormFilled(start, 0, [FormLine(7, Some(3))], 0).ledger == sold;
  }

  lemma TwoRowsOpened()
    ensures Apply(Apply(Apply(EMPTY, SetPrice(7, 100)), OpenStock(7, 1, 1)), OpenStock(7, 2, 5))
         == Ledger([StockRow(7, 1, 1, 1, 0), StockRow(7, 2, 5, 5, 0)], [], [], [], map[7 := 100], 0, [])
  {
    var l2 := Apply(Apply(EMPTY, SetPrice(7, 100)), OpenStock(7, 1, 1));
    assert l2.stocks == [StockRow(7, 1, 1, 1, 0)];
    assert Apply(l2, OpenStock(7, 2, 5)).stocks == [StockRow(7, 1, 1, 1, 0), StockRow(7, 2, 5, 5, 0)];
  }

  /** With two rows the web form can oversell: the check passes on the second row and the
      sale draws on the first. */
  lemma WebOversells() returns (steps: seq<Step>)
    ensures |steps| == 4 && steps[3] == WebCreate(Form([7], [Some(3)], true), 0)
    ensures var l := Run(EMPTY, steps);
            |l.stocks| == 2 && l.stocks[0].quantity == -2 && l.stocks[1].quantity == 5
  {
    hide Apply;
    var price, first, second := SetPrice(7, 100), OpenStock(7, 1, 1), OpenStock(7, 2, 5);
    var sale := WebCreate(Form([7], [Some(3)], true), 0);
    steps := [price] + ([first] + ([second] + ([sale] + [])));
    var l1 := Apply(EMPTY, price);
    var l2 := Apply(l1, first);
    var l3 := Apply(l2, second);
    RunNext(EMPTY, price, [first] + ([second] + ([sale] + [])));
    RunNext(l1, first, [second] + ([sale] + []));
    RunNext(l2, second, [sale] + []);
    RunNext(l3, sale, []);
    TwoRowsOpened();
    FormDrawsOnTheFirst(l3);
  }
}
