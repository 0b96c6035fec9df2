/** Stock, orders, purchases and returns of one tenant, as values: what each handler does
    to the tables. Rows are listed in primary-key order, so `.first()` is the lowest index. */
module StockLedger {
  import opened Wrappers
  import opened Money
  import opened OrderStatus

  type ProductId = nat
  type WarehouseId = nat

  /** A stock row. Its last two fields are histories that no handler reads: the quantity
      the row opened with, and the quantity that cancellations have put back on it. */
  datatype StockRow = StockRow(product: ProductId, warehouse: WarehouseId, quantity: int, opening: int, restored: int)
  datatype MovementType = Input | Output | Return
  /** A stock movement; `stock` is the index of its stock row. */
  datatype Movement = Movement(stock: nat, quantity: nat, kind: MovementType)
  datatype Item = Item(id: nat, product: ProductId, quantity: nat, price: nat)
  /** What has happened to an order: its statuses, whether the web pages have computed its
      totals, and how often its stock was put back by a cancellation. */
  datatype Audit = Audit(trail: seq<Status>, priced: bool, restocks: nat)
  /** An order; `audit` is a history that no handler reads. */
  datatype Order = Order(
    status: Status, items: seq<Item>, shipping: nat, subtotal: nat, tax: int, total: nat, audit: Audit)
  /** A return; `reentered` tells whether the goods go back on the shelf. */
  datatype ReturnRow = ReturnRow(order: nat, product: ProductId, quantity: nat, reentered: bool)
  datatype Line = Line(product: ProductId, quantity: nat)
  /** A line of the web form; the quantity is absent when it does not parse. */
  datatype FormLine = FormLine(product: ProductId, quantity: Option<int>)
  /** What the web form sends: two lists, which need not be equally long, and whether the
      client it names is found or can be created; a form without a document names none. */
  datatype Form = Form(products: seq<ProductId>, quantities: seq<Option<int>>, hasClient: bool)

  datatype Failure =
    | NoProducts | NoClient | BadQuantity | UnknownProduct | OutOfStock | NotFound | NotEditable | NoteMissing
    | NotInOrder | ExceedsSale | InvalidTransition

  /** The tables. `receipts` lists the received purchase lines. */
  datatype Ledger = Ledger(
    stocks: seq<StockRow>,
    movements: seq<Movement>,
    orders: seq<Order>,
    returnRows: seq<ReturnRow>,
    prices: map<ProductId, nat>,
    nextItem: nat,
    receipts: seq<Line>)

  const EDITABLE: set<Status> := {Draft, Pending}

  // ---------------------------------------------------------------- stock rows

  predicate Matches(row: StockRow, p: ProductId, floor: Option<int>)
  {
    row.product == p && (floor.Some? ==> row.quantity >= floor.value)
  }

  /** The first row of a product, or the first that holds at least `floor`. */
  function FirstRow(stocks: seq<StockRow>, p: ProductId, floor: Option<int>): (found: Option<nat>)
    ensures found.Some? ==> found.value < |stocks| && Matches(stocks[found.value], p, floor)
    ensures found.Some? ==> forall i :: 0 <= i < found.value ==> !Matches(stocks[i], p, floor)
    ensures found == None ==> forall i :: 0 <= i < |stocks| ==> !Matches(stocks[i], p, floor)
  {
    if stocks == [] then None
    else if Matches(stocks[0], p, floor) then Some(0)
    else match FirstRow(stocks[1..], p, floor)
      case None => None
      case Some(i) => Some(i + 1)
  }

  function RowOf(stocks: seq<StockRow>, p: ProductId, w: WarehouseId): (found: Option<nat>)
    ensures found.Some? ==>
              && found.value < |stocks| && stocks[found.value].product == p && stocks[found.value].warehouse == w
              && forall i :: 0 <= i < found.value ==> stocks[i].product != p || stocks[i].warehouse != w
    ensures found == None ==> forall i :: 0 <= i < |stocks| ==> stocks[i].product != p || stocks[i].warehouse != w
  {
    if stocks == [] then None
    else if stocks[0].product == p && stocks[0].warehouse == w then Some(0)
    else match RowOf(stocks[1..], p, w)
      case None => None
      case Some(i) => Some(i + 1)
  }

  function Adjust(stocks: seq<StockRow>, i: nat, delta: int): seq<StockRow>
    requires i < |stocks|
  {
    stocks[i := stocks[i].(quantity := stocks[i].quantity + delta)]
  }

  /** What a movement adds to its row. */
  function Signed(m: Movement): int
  {
    if m.kind == Output then 0 - m.quantity else m.quantity
  }

  /** A stock write with its movement record. */
  function Moved(l: Ledger, i: nat, quantity: nat, kind: MovementType): (r: Ledger)
    requires i < |l.stocks|
    ensures r.orders == l.orders && r.returnRows == l.returnRows
  {
    var m := Movement(i, quantity, kind);
    l.(stocks := Adjust(l.stocks, i, Signed(m)), movements := l.movements + [m])
  }

  /** Stock put back, or taken out, on the first row of a product, if it has any. */
  function MovedFirst(l: Ledger, p: ProductId, quantity: nat, kind: MovementType): (r: Ledger)
    ensures r.orders == l.orders && r.returnRows == l.returnRows
  {
    var row := FirstRow(l.stocks, p, None);
    if row == None then l else Moved(l, row.value, quantity, kind)
  }

  /** Stock put back by a cancellation: the one write without a movement record. */
  function RestoredFirst(l: Ledger, p: ProductId, quantity: nat): (r: Ledger)
    ensures r.orders == l.orders && r.returnRows == l.returnRows
  {
    var row := FirstRow(l.stocks, p, None);
    if row == None then l
    else
      var found := l.stocks[row.value];
      var refilled := found.(quantity := found.quantity + quantity, restored := found.restored + quantity);
      l.(stocks := l.stocks[row.value := refilled])
  }

  function RestoredItems(l: Ledger, items: seq<Item>): (r: Ledger)
    ensures r.orders == l.orders && r.returnRows == l.returnRows
    decreases |items|
  {
    if items == [] then l
    else RestoredItems(RestoredFirst(l, items[0].product, items[0].quantity), items[1..])
  }

  // ---------------------------------------------------------------- orders

  function WithOrder(l: Ledger, o: nat, order: Order): Ledger
    requires o < |l.orders|
  {
    l.(orders := l.orders[o := order])
  }

  function NewOrder(l: Ledger, status: Status, shipping: nat): Ledger
  {
    l.(orders := l.orders + [Order(status, [], shipping, 0, 0, 0, Audit([status], false, 0))])
  }

  /** The order after a status change, with the change on its trail. */
  function Moving(order: Order, status: Status): Order
  {
    order.(status := status, audit := order.audit.(trail := order.audit.trail + [status]))
  }

  /** A new item and the sale it triggers on the first stock row. */
  function WithItem(l: Ledger, o: nat, p: ProductId, quantity: nat, price: nat): (r: Ledger)
    requires o < |l.orders|
    ensures |r.orders| == |l.orders|
  {
    var order := l.orders[o];
    var sold := l.(orders := l.orders[o := order.(items := order.items + [Item(l.nextItem, p, quantity, price)])],
                   nextItem := l.nextItem + 1);
    MovedFirst(sold, p, quantity, Output)
  }

  function ItemsTotal(items: seq<Item>): nat
  {
    if items == [] then 0 else ItemsTotal(items[..|items| - 1]) + items[|items| - 1].price * items[|items| - 1].quantity
  }

  /** The order with the totals of tax-inclusive items plus shipping. */
  function Priced(order: Order, itemsTotal: nat): Order
  {
    order.(subtotal := Subtotal(itemsTotal), tax := Tax(itemsTotal), total := itemsTotal + order.shipping,
           audit := order.audit.(priced := true))
  }

  function Repriced(order: Order): Order
  {
    Priced(order, ItemsTotal(order.items))
  }

  // ---------------------------------------------------------------- creation

  /** The outcome of adding lines: the tables so far, and the sum of prices or the failure. */
  datatype Filled = Filled(ledger: Ledger, outcome: Result<nat, Failure>)

  function FormFilled(l: Ledger, o: nat, lines: seq<FormLine>, sum: nat): (f: Filled)
    requires o < |l.orders|
    ensures |f.ledger.orders| == |l.orders|
    decreases |lines|
  {
    if lines == [] then Filled(l, Ok(sum))
    else
      var line := lines[0];
      if line.quantity == None then Filled(l, Err(BadQuantity))
      else if line.quantity.value <= 0 then FormFilled(l, o, lines[1..], sum)
      else if line.product !in l.prices then Filled(l, Err(UnknownProduct))
      else if FirstRow(l.stocks, line.product, line.quantity) == None then Filled(l, Err(OutOfStock))
      else
        var price := l.prices[line.product];
        FormFilled(WithItem(l, o, line.product, line.quantity.value, price), o, lines[1..],
                   sum + price * line.quantity.value)
  }

  /** Products and quantities paired up to the end of the shorter list. */
  function FormLines(form: Form): (lines: seq<FormLine>)
    ensures |lines| == if |form.products| < |form.quantities| then |form.products| else |form.quantities|
    ensures forall i :: 0 <= i < |lines| ==> lines[i] == FormLine(form.products[i], form.quantities[i])
  {
    var n := if |form.products| < |form.quantities| then |form.products| else |form.quantities|;
    seq(n, i requires 0 <= i < n => FormLine(form.products[i], form.quantities[i]))
  }

  /** The web form. A failing line is caught inside the transaction: the order and the
      items before that line stay, in draft and without totals. */
  function WebCreated(l: Ledger, form: Form, shipping: nat): Filled
  {
    if form.products == [] then Filled(l, Err(NoProducts))
    else if !form.hasClient then Filled(l, Err(NoClient))
    else
      var o := |l.orders|;
      var f := FormFilled(NewOrder(l, Draft, shipping), o, FormLines(form), 0);
      if f.outcome.Err? then f
      else Filled(WithOrder(f.ledger, o, Priced(f.ledger.orders[o], f.outcome.value)), f.outcome)
  }

  function LinesFilled(l: Ledger, o: nat, lines: seq<Line>, sum: nat): (r: Result<(Ledger, nat), Failure>)
    requires o < |l.orders|
    ensures r.Ok? ==> |r.value.0.orders| == |l.orders|
    decreases |lines|
  {
    if lines == [] then Ok((l, sum))
    else
      var line := lines[0];
      var row := FirstRow(l.stocks, line.product, None);
      if line.product !in l.prices then Err(UnknownProduct)
      else if row == None || l.stocks[row.value].quantity < line.quantity then Err(OutOfStock)
      else
        var price := l.prices[line.product];
        LinesFilled(WithItem(l, o, line.product, line.quantity, price), o, lines[1..], sum + price * line.quantity)
  }

  /** The service used by the API: any failure rolls everything back. */
  function ServiceCreated(l: Ledger, lines: seq<Line>, taxRate: nat): Result<Ledger, Failure>
  {
    var o := |l.orders|;
    match LinesFilled(NewOrder(l, Pending, 0), o, lines, 0)
    case Err(e) => Err(e)
    case Ok((filled, sum)) =>
      var tax := RoundHalfEven(sum * taxRate, FULL_RATE);
      Ok(WithOrder(filled, o, filled.orders[o].(subtotal := sum, tax := tax, total := sum + tax)))
  }

  // ---------------------------------------------------------------- edits

  function ItemIndex(items: seq<Item>, id: nat): (found: Option<nat>)
    ensures found.Some? ==> found.value < |items| && items[found.value].id == id
    ensures found == None ==> forall k :: 0 <= k < |items| ==> items[k].id != id
  {
    if items == [] then None
    else if items[0].id == id then Some(0)
    else match ItemIndex(items[1..], id)
      case None => None
      case Some(k) => Some(k + 1)
  }

  /** The stock side of a quantity change; an increase needs a row that can cover it. */
  function Rebalanced(l: Ledger, p: ProductId, diff: int): (r: Result<Ledger, Failure>)
    ensures r.Ok? ==> r.value.orders == l.orders
  {
    if diff > 0 then
      var row := FirstRow(l.stocks, p, Some(diff));
      if row == None then Err(OutOfStock) else Ok(Moved(l, row.value, diff, Output))
    else if diff < 0 then Ok(MovedFirst(l, p, -diff, Return))
    else Ok(l)
  }

  function ItemEdited(l: Ledger, o: nat, id: nat, quantity: Option<int>): Result<Ledger, Failure>
  {
    if o >= |l.orders| || ItemIndex(l.orders[o].items, id) == None then Err(NotFound)
    else if l.orders[o].status !in EDITABLE then Err(NotEditable)
    else if quantity == None || quantity.value <= 0 then Err(BadQuantity)
    else
      var order := l.orders[o];
      var k := ItemIndex(order.items, id).value;
      var item := order.items[k];
      match Rebalanced(l, item.product, quantity.value - item.quantity)
      case Err(e) => Err(e)
      case Ok(moved) =>
        Ok(WithOrder(moved, o, Repriced(order.(items := order.items[k := item.(quantity := quantity.value)]))))
  }

  function ItemDeleted(l: Ledger, o: nat, id: nat, hasNote: bool): Result<Ledger, Failure>
  {
    if o >= |l.orders| || ItemIndex(l.orders[o].items, id) == None then Err(NotFound)
    else if l.orders[o].status !in EDITABLE then Err(NotEditable)
    else if |l.orders[o].items| == 1 && !hasNote then Err(NoteMissing)
    else
      var order := l.orders[o];
      var k := ItemIndex(order.items, id).value;
      var item := order.items[k];
      var moved := MovedFirst(l, item.product, item.quantity, Return);
      var rest := order.(items := order.items[..k] + order.items[k + 1..]);
      if |order.items| == 1 then
        Ok(WithOrder(moved, o, Moving(rest, Cancelled).(subtotal := 0, tax := 0, total := 0)))
      else
        Ok(WithOrder(moved, o, Repriced(rest)))
  }

  /** The guarded status change shared by the cancel, modal and change-status pages. */
  function StatusChanged(l: Ledger, o: nat, status: Status): Result<Ledger, Failure>
  {
    if o >= |l.orders| then Err(NotFound)
    else if status !in ValidTransitions(l.orders[o].status) then Err(InvalidTransition)
    else
      var order := l.orders[o];
      if status == Cancelled then
        var moved := Moving(order, Cancelled);
        Ok(WithOrder(RestoredItems(l, order.items), o,
                     moved.(audit := moved.audit.(restocks := moved.audit.restocks + 1))))
      else
        Ok(WithOrder(l, o, Moving(order, status)))
  }

  // ---------------------------------------------------------------- returns and purchases

  function FirstItemOf(items: seq<Item>, p: ProductId): (found: Option<nat>)
    ensures found.Some? ==> found.value < |items| && items[found.value].product == p
    ensures found.Some? ==> forall k :: 0 <= k < found.value ==> items[k].product != p
    ensures found == None ==> forall k :: 0 <= k < |items| ==> items[k].product != p
  {
    if items == [] then None
    else if items[0].product == p then Some(0)
    else match FirstItemOf(items[1..], p)
      case None => None
      case Some(k) => Some(k + 1)
  }

  function AlreadyReturned(rows: seq<ReturnRow>, o: nat, p: ProductId): nat
  {
    if rows == [] then 0
    else
      var last := rows[|rows| - 1];
      AlreadyReturned(rows[..|rows| - 1], o, p) + if last.order == o && last.product == p then last.quantity else 0
  }

  function GoodsReturned(l: Ledger, o: nat, p: ProductId, quantity: int): Result<Ledger, Failure>
  {
    if quantity <= 0 then Err(BadQuantity)
    else if o >= |l.orders| then Err(NotFound)
    else
      var item := FirstItemOf(l.orders[o].items, p);
      if item == None then Err(NotInOrder)
      else if quantity > l.orders[o].items[item.value].quantity - AlreadyReturned(l.returnRows, o, p)
      then Err(ExceedsSale)
      else Ok(MovedFirst(l.(returnRows := l.returnRows + [ReturnRow(o, p, quantity, true)]), p, quantity, Return))
  }

  /** A stock row on demand, opening at `quantity`. */
  function WithRow(l: Ledger, p: ProductId, w: WarehouseId, quantity: int): Ledger
  {
    l.(stocks := l.stocks + [StockRow(p, w, quantity, quantity, 0)])
  }

  /** One received line: its row is created empty if needed, and incremented. */
  function LineReceived(l: Ledger, w: WarehouseId, line: Line): Ledger
  {
    var row := RowOf(l.stocks, line.product, w);
    var arrived :=
      if row == None then Moved(WithRow(l, line.product, w, 0), |l.stocks|, line.quantity, Input)
      else Moved(l, row.value, line.quantity, Input);
    arrived.(receipts := l.receipts + [line])
  }

  function PurchaseReceived(l: Ledger, w: WarehouseId, lines: seq<Line>): Ledger
    decreases |lines|
  {
    if lines == [] then l else PurchaseReceived(LineReceived(l, w, lines[0]), w, lines[1..])
  }

  /** The initial stock of a product page: refused when the warehouse already holds the
      product, and never negative. */
  function StockOpened(l: Ledger, p: ProductId, w: WarehouseId, quantity: int): Ledger
  {
    if RowOf(l.stocks, p, w).Some? then l else WithRow(l, p, w, if quantity < 0 then 0 else quantity)
  }

  // ---------------------------------------------------------------- runs

  datatype Step =
    | SetPrice(product: ProductId, price: nat)
    | OpenStock(product: ProductId, warehouse: WarehouseId, quantity: int)
    | WebCreate(form: Form, shipping: nat)
    | ServiceCreate(lines: seq<Line>, taxRate: nat)
    | EditItem(order: nat, item: nat, newQuantity: Option<int>)
    | DeleteItem(order: nat, item: nat, hasNote: bool)
    | ChangeStatus(order: nat, status: Status)
    | ReturnGoods(order: nat, product: ProductId, quantity: int)
    | Receive(warehouse: WarehouseId, lines: seq<Line>)

  function OrElse(result: Result<Ledger, Failure>, l: Ledger): Ledger
  {
    if result.Ok? then result.value else l
  }

  function Apply(l: Ledger, step: Step): Ledger
  {
    match step
    case SetPrice(p, price) => l.(prices := l.prices[p := price])
    case OpenStock(p, w, quantity) => StockOpened(l, p, w, quantity)
    case WebCreate(form, shipping) => WebCreated(l, form, shipping).ledger
    case ServiceCreate(lines, taxRate) => OrElse(ServiceCreated(l, lines, taxRate), l)
    case EditItem(o, item, quantity) => OrElse(ItemEdited(l, o, item, quantity), l)
    case DeleteItem(o, item, hasNote) => OrElse(ItemDeleted(l, o, item, hasNote), l)
    case ChangeStatus(o, status) => OrElse(StatusChanged(l, o, status), l)
    case ReturnGoods(o, p, quantity) => OrElse(GoodsReturned(l, o, p, quantity), l)
    case Receive(w, lines) => PurchaseReceived(l, w, lines)
  }

  function Run(l: Ledger, steps: seq<Step>): Ledger
    decreases |steps|
  {
    if steps == [] then l else Run(Apply(l, steps[0]), steps[1..])
  }

  lemma RunNext(l: Ledger, step: Step, rest: seq<Step>)
    ensures Run(l, [step] + rest) == Run(Apply(l, step), rest)
  {
    assert ([step] + rest)[1..] == rest;
  }

  const EMPTY: Ledger := Ledger([], [], [], [], map[], 0, [])
}
