/** Purchase orders and goods receipts
    (src/procurement/purchase-orders/purchase-orders.service.ts,
     src/procurement/goods-receipt/goods-receipt.service.ts) on top of Stock. */
module Procurement {
  import opened Results
  import opened Rounding
  import S = Stock

  datatype OrderStatus = DRAFT | SENT | APPROVED | PARTIALLY_RECEIVED | RECEIVED | CANCELLED

  datatype ReceiptStatus = ReceiptDraft | ReceiptReceived | ReceiptCancelled

  datatype ItemInput = ItemInput(product: string, quantity: int, unitCost: int, taxRate: int)

  datatype OrderItem = OrderItem(id: nat, product: string, quantity: int, received: int, unitCost: int, taxRate: int)

  datatype Totals = Totals(subtotal: int, taxAmount: int, grandTotal: int)

  datatype Order = Order(vendor: string, warehouse: string, status: OrderStatus, items: seq<OrderItem>, totals: Totals)

  datatype LineInput = LineInput(orderItem: nat, product: string, quantity: int)

  datatype ReceiptLine = ReceiptLine(line: LineInput, unitCost: int)

  datatype Receipt = Receipt(order: string, warehouse: string, status: ReceiptStatus, lines: seq<ReceiptLine>)

  datatype World = World(stock: S.State, orders: map<string, Order>, receipts: seq<Receipt>, nextItem: nat,
                         vendors: set<string>, warehouses: set<string>)

  datatype Call =
    | CreateOrder(id: string, vendor: string, warehouse: string, inputs: seq<ItemInput>)
    | UpdateOrder(id: string, newVendor: Option<string>, newWarehouse: Option<string>,
      newInputs: Option<seq<ItemInput>>)
    | ApproveOrder(id: string)
    | CancelOrder(id: string)
    | DuplicateOrder(source: string, id: string)
    | Receive(id: string, warehouse: string, lines: seq<LineInput>)
    | CancelReceipt(receipt: nat)
    | Move(movement: S.Movement)

  datatype Answer = Answer(result: Result<()>, world: World)

  // ---------- Purchase orders ----------

  function SumLines(inputs: seq<ItemInput>): int {
    if inputs == [] then 0
    else
      var i := inputs[|inputs| - 1];
      SumLines(inputs[..|inputs| - 1]) + i.quantity * i.unitCost
  }

  function SumTax(inputs: seq<ItemInput>): int {
    if inputs == [] then 0
    else
      var i := inputs[|inputs| - 1];
      SumTax(inputs[..|inputs| - 1]) + RoundPercent(i.quantity * i.unitCost, i.taxRate)
  }

  function TotalsOf(inputs: seq<ItemInput>): Totals {
    Totals(SumLines(inputs), SumTax(inputs), SumLines(inputs) + SumTax(inputs))
  }

  /** Fresh order lines, nothing received yet. */
  function NewItems(inputs: seq<ItemInput>, nextItem: nat): seq<OrderItem> {
    seq(|inputs|, i requires 0 <= i < |inputs| =>
      OrderItem(nextItem + i, inputs[i].product, inputs[i].quantity, 0, inputs[i].unitCost, inputs[i].taxRate))
  }

  function CopiedItems(items: seq<OrderItem>, nextItem: nat): seq<OrderItem> {
    seq(|items|, i requires 0 <= i < |items| => items[i].(id := nextItem + i, received := 0))
  }

  predicate DistinctProducts(inputs: seq<ItemInput>) {
    forall i, j | 0 <= i < j < |inputs| :: inputs[i].product != inputs[j].product
  }

  // ---------- Goods receipts ----------

  function Find(items: seq<OrderItem>, id: nat): Option<OrderItem> {
    if items == [] then None
    else if items[0].id == id then Some(items[0])
    else Find(items[1..], id)
  }

  /** The validation loop; it compares each line with the remaining quantity on its own. */
  function Validate(items: seq<OrderItem>, lines: seq<LineInput>): Result<()> {
    if lines == [] then Success(())
    else
      match Find(items, lines[0].orderItem)
      case None => Failure(NotFound)
      case Some(it) =>
        if it.product != lines[0].product || lines[0].quantity > it.quantity - it.received then Failure(BadRequest)
        else Validate(items, lines[1..])
  }

  function AddReceived(items: seq<OrderItem>, id: nat, q: int): seq<OrderItem> {
    seq(|items|, i requires 0 <= i < |items| =>
      if items[i].id == id then items[i].(received := items[i].received + q) else items[i])
  }

  function OrderRef(order: string): S.Reference { S.Reference("PurchaseOrder", Some(order)) }

  function StockIn(stock: S.State, warehouse: string, line: LineInput, order: string): S.State {
    S.Apply(stock, S.IncreaseStock(S.Key(warehouse, line.product), line.quantity, OrderRef(order))).state
  }

  /** The receiving loop's effect on the order lines and on stock. */
  function ReceivedItems(items: seq<OrderItem>, lines: seq<LineInput>): seq<OrderItem>
    decreases |lines|
  {
    if lines == [] then items
    else ReceivedItems(AddReceived(items, lines[0].orderItem, lines[0].quantity), lines[1..])
  }

  function ReceivedStock(stock: S.State, warehouse: string, lines: seq<LineInput>, order: string): S.State
    decreases |lines|
  {
    if lines == [] then stock
    else ReceivedStock(StockIn(stock, warehouse, lines[0], order), warehouse, lines[1..], order)
  }

  /** The unit cost is written to the first receipt line of an order line only. */
  function CostOf(items: seq<OrderItem>, lines: seq<LineInput>, j: nat): int
    requires j < |lines|
  {
    if exists i | 0 <= i < j :: lines[i].orderItem == lines[j].orderItem then 0
    else
      match Find(items, lines[j].orderItem)
      case None => 0
      case Some(it) => it.unitCost
  }

  function CostedLines(items: seq<OrderItem>, lines: seq<LineInput>): seq<ReceiptLine> {
    seq(|lines|, j requires 0 <= j < |lines| => ReceiptLine(lines[j], CostOf(items, lines, j)))
  }

  predicate AllReceived(items: seq<OrderItem>) { forall it | it in items :: it.received >= it.quantity }

  predicate AnyReceived(items: seq<OrderItem>) { exists it | it in items :: it.received > 0 }

  function StatusAfter(items: seq<OrderItem>, status: OrderStatus): OrderStatus {
    if AllReceived(items) then RECEIVED else if AnyReceived(items) then PARTIALLY_RECEIVED else status
  }

  function ReceiveCall(w: World, id: string, warehouse: string, lines: seq<LineInput>): Answer {
    if id !in w.orders then Answer(Failure(NotFound), w)
    else
      var o := w.orders[id];
      if o.status == CANCELLED || o.status == DRAFT then Answer(Failure(BadRequest), w)
      else if warehouse !in w.warehouses then Answer(Failure(NotFound), w)
      else
        match Validate(o.items, lines)
        case Failure(e) => Answer(Failure(e), w)
        case Success(_) =>
          var items := ReceivedItems(o.items, lines);
          Answer(Success(()), w.(
            stock := ReceivedStock(w.stock, warehouse, lines, id),
            orders := w.orders[id := o.(items := items, status := StatusAfter(items, o.status))],
            receipts := w.receipts + [Receipt(id, warehouse, ReceiptReceived, CostedLines(o.items, lines))]))
  }

  /** The lines are deleted before the update that recreates them, so a product named
      twice (unique per order) is refused too late: the draft is left without lines. */
  function UpdateCall(w: World, id: string, vendor: Option<string>, warehouse: Option<string>,
                      inputs: Option<seq<ItemInput>>): Answer
  {
    if id !in w.orders then Answer(Failure(NotFound), w)
    else
      var o := w.orders[id];
      if o.status != DRAFT then Answer(Failure(BadRequest), w)
      else if vendor.Some? && vendor.value !in w.vendors then Answer(Failure(NotFound), w)
      else if warehouse.Some? && warehouse.value !in w.warehouses then Answer(Failure(NotFound), w)
      else
        var head := o.(vendor := if vendor.Some? then vendor.value else o.vendor,
                       warehouse := if warehouse.Some? then warehouse.value else o.warehouse);
        match inputs
        case None => Answer(Success(()), w.(orders := w.orders[id := head]))
        case Some(ins) =>
          if !DistinctProducts(ins) then Answer(Failure(UniqueViolation), w.(orders := w.orders[id := o.(items := [])]))
          else Answer(Success(()), w.(
            orders := w.orders[id := head.(items := NewItems(ins, w.nextItem), totals := TotalsOf(ins))],
            nextItem := w.nextItem + |ins|))
  }

  function Step(w: World, c: Call): Answer {
    match c
    case CreateOrder(id, vendor, warehouse, inputs) =>
      if vendor !in w.vendors || warehouse !in w.warehouses then Answer(Failure(NotFound), w)
      else if !DistinctProducts(inputs) then Answer(Failure(UniqueViolation), w)
      else Answer(Success(()), w.(
        orders := w.orders[id := Order(vendor, warehouse, DRAFT, NewItems(inputs, w.nextItem), TotalsOf(inputs))],
        nextItem := w.nextItem + |inputs|))
    case UpdateOrder(id, vendor, warehouse, inputs) => UpdateCall(w, id, vendor, warehouse, inputs)
    case ApproveOrder(id) =>
      if id !in w.orders then Answer(Failure(NotFound), w)
      else if w.orders[id].status !in {DRAFT, SENT} then Answer(Failure(BadRequest), w)
      else Answer(Success(()), w.(orders := w.orders[id := w.orders[id].(status := APPROVED)]))
    case CancelOrder(id) =>
      if id !in w.orders then Answer(Failure(NotFound), w)
      else if w.orders[id].status in {RECEIVED, CANCELLED} then Answer(Failure(BadRequest), w)
      else Answer(Success(()), w.(orders := w.orders[id := w.orders[id].(status := CANCELLED)]))
    case DuplicateOrder(source, id) =>
      if source !in w.orders then Answer(Failure(NotFound), w)
      else
        var o := w.orders[source];
        Answer(Success(()), w.(
          orders := w.orders[id := o.(status := DRAFT, items := CopiedItems(o.items, w.nextItem))],
          nextItem := w.nextItem + |o.items|))
    case Receive(id, warehouse, lines) => ReceiveCall(w, id, warehouse, lines)
    case CancelReceipt(i) =>
      if i >= |w.receipts| then Answer(Failure(NotFound), w)
      else if w.receipts[i].status != ReceiptDraft then Answer(Failure(BadRequest), w)
      else Answer(Success(()), w.(receipts := w.receipts[i := w.receipts[i].(status := ReceiptCancelled)]))
    case Move(m) =>
      var e := S.Apply(w.stock, m);
      Answer(if e.Done? then Success(()) else Failure(BadRequest), w.(stock := e.state))
  }

  /** The DTOs demand positive quantities, ids are fresh, and only goods receipts call increase. */
  predicate Legal(w: World, c: Call) {
    match c
    case CreateOrder(id, _, _, inputs) => id !in w.orders && forall i | i in inputs :: 1 <= i.quantity
    case UpdateOrder(_, _, _, inputs) => inputs.Some? ==> forall i | i in inputs.value :: 1 <= i.quantity
    case DuplicateOrder(_, id) => id !in w.orders
    case Receive(_, _, lines) => lines != [] && forall l | l in lines :: 1 <= l.quantity
    case Move(m) => S.Admissible(m) && !m.IncreaseStock?
    case _ => true
  }

  // ---------- Three records of what has arrived ----------

  /** What the receipts of an order say about one of its lines. */
  function LinesFor(lines: seq<LineInput>, id: nat): int {
    if lines == [] then 0
    else (if lines[0].orderItem == id then lines[0].quantity else 0) + LinesFor(lines[1..], id)
  }

  function Inputs(lines: seq<ReceiptLine>): seq<LineInput> {
    seq(|lines|, j requires 0 <= j < |lines| => lines[j].line)
  }

  function ReceiptSum(receipts: seq<Receipt>, order: string, id: nat): int {
    if receipts == [] then 0
    else
      var r := receipts[|receipts| - 1];
      ReceiptSum(receipts[..|receipts| - 1], order, id) + if r.order == order then LinesFor(Inputs(r.lines), id) else 0
  }

  /** What the order's lines of a product say has been received. */
  function ReceivedOf(items: seq<OrderItem>, p: string): int {
    if items == [] then 0
    else (if items[0].product == p then items[0].received else 0) + ReceivedOf(items[1..], p)
  }

  /** What the PURCHASE ledger entries that reference the order say has been received. */
  function Purchased(ledger: seq<S.Entry>, order: string, p: string): int {
    if ledger == [] then 0
    else
      var e := ledger[|ledger| - 1];
      Purchased(ledger[..|ledger| - 1], order, p)
      + if e.kind == S.Purchase && e.ref == OrderRef(order) && e.key.product == p then e.quantity else 0
  }

  function ProductSum(lines: seq<LineInput>, p: string): int {
    if lines == [] then 0
    else (if lines[0].product == p then lines[0].quantity else 0) + ProductSum(lines[1..], p)
  }

  predicate DistinctIds(items: seq<OrderItem>) {
    forall i, j | 0 <= i < j < |items| :: items[i].id != items[j].id
  }

  predicate SoundItems(items: seq<OrderItem>) {
    DistinctIds(items) && forall it | it in items :: 1 <= it.quantity && 0 <= it.received
  }

  /** The order status law. */
  predicate StatusFits(o: Order) {
    match o.status
    case CANCELLED => true
    case RECEIVED => o.items != [] && AllReceived(o.items)
    case PARTIALLY_RECEIVED => AnyReceived(o.items) && !AllReceived(o.items)
    case _ => !AnyReceived(o.items)
  }

  ghost predicate ThreeWay(w: World, id: string) {
    if id !in w.orders then
      && (forall r | r in w.receipts :: r.order != id)
      && forall p :: Purchased(w.stock.ledger, id, p) == 0
    else
      var o := w.orders[id];
      && SoundItems(o.items) && StatusFits(o)
      && (o.status == DRAFT ==> forall r | r in w.receipts :: r.order != id)
      && (forall it | it in o.items :: it.received == ReceiptSum(w.receipts, id, it.id))
      && (forall p :: ReceivedOf(o.items, p) == Purchased(w.stock.ledger, id, p))
  }

  ghost predicate Valid(w: World) {
    && S.Reconciled(w.stock)
    && (forall r | r in w.receipts :: r.status == ReceiptReceived)
    && forall id :: ThreeWay(w, id)
  }

  // ---------- Lemmas ----------

  lemma {:induction false} FindUnique(items: seq<OrderItem>, i: nat)
    requires DistinctIds(items) && i < |items|
    ensures Find(items, items[i].id) == Some(items[i])
  {
    if i > 0 {
      assert items[0].id != items[i].id;
      FindUnique(items[1..], i - 1);
    }
  }

  lemma {:induction false} FindSound(items: seq<OrderItem>, id: nat)
    ensures Find(items, id).Some? ==>
      exists i | 0 <= i < |items| :: items[i] == Find(items, id).value && items[i].id == id
  {
    if items != [] && items[0].id != id {
      FindSound(items[1..], id);
      if Find(items, id).Some? {
        var i :| 0 <= i < |items[1..]| && items[1..][i] == Find(items, id).value && items[1..][i].id == id;
        assert items[i + 1] == items[1..][i];
      }
    }
  }

  lemma {:induction false} ReceivedItemsAre(items: seq<OrderItem>, lines: seq<LineInput>)
    ensures var r := ReceivedItems(items, lines);
      |r| == |items| && forall i | 0 <= i < |items| ::
        r[i] == items[i].(received := items[i].received + LinesFor(lines, items[i].id))
    decreases |lines|
  {
    if lines != [] {
      ReceivedItemsAre(AddReceived(items, lines[0].orderItem, lines[0].quantity), lines[1..]);
    }
  }

  lemma {:induction false} ReceivedOfBumped(items: seq<OrderItem>, i: nat, q: int, p: string)
    requires i < |items|
    ensures ReceivedOf(items[i := items[i].(received := items[i].received + q)], p)
      == ReceivedOf(items, p) + if items[i].product == p then q else 0
  {
    var bumped := items[i := items[i].(received := items[i].received + q)];
    if i == 0 {
      assert bumped[1..] == items[1..];
    } else {
      assert bumped[1..] == items[1..][i - 1 := bumped[i]];
      ReceivedOfBumped(items[1..], i - 1, q, p);
    }
  }

  lemma AddReceivedIsBump(items: seq<OrderItem>, i: nat, q: int)
    requires DistinctIds(items) && i < |items|
    ensures AddReceived(items, items[i].id, q) == items[i := items[i].(received := items[i].received + q)]
  {
  }

  /** Every line names an order line of its own product. */
  predicate Named(items: seq<OrderItem>, lines: seq<LineInput>) {
    forall l | l in lines :: exists i | 0 <= i < |items| :: items[i].id == l.orderItem && items[i].product == l.product
  }

  /** What the guard compares a line with; 0 for an unknown order line. */
  function Remaining(items: seq<OrderItem>, id: nat): int {
    match Find(items, id)
    case None => 0
    case Some(it) => it.quantity - it.received
  }

  lemma {:induction false} ValidatedNamed(items: seq<OrderItem>, lines: seq<LineInput>)
    requires Validate(items, lines).Success?
    ensures Named(items, lines)
    ensures forall l | l in lines :: Remaining(items, l.orderItem) >= l.quantity
  {
    if lines != [] {
      FindSound(items, lines[0].orderItem);
      ValidatedNamed(items, lines[1..]);
      assert lines == [lines[0]] + lines[1..];
    }
  }

  lemma {:induction false} ReceivedOfLines(items: seq<OrderItem>, lines: seq<LineInput>, p: string)
    requires DistinctIds(items) && Named(items, lines)
    ensures ReceivedOf(ReceivedItems(items, lines), p) == ReceivedOf(items, p) + ProductSum(lines, p)
    decreases |lines|
  {
    if lines != [] {
      var l := lines[0];
      assert l in lines;
      var i :| 0 <= i < |items| && items[i].id == l.orderItem && items[i].product == l.product;
      AddReceivedIsBump(items, i, l.quantity);
      ReceivedOfBumped(items, i, l.quantity, p);
      var items' := AddReceived(items, l.orderItem, l.quantity);
      assert Named(items', lines[1..]) by {
        forall k | k in lines[1..]
          ensures exists j | 0 <= j < |items'| :: items'[j].id == k.orderItem && items'[j].product == k.product
        {
          assert k in lines;
          var j :| 0 <= j < |items| && items[j].id == k.orderItem && items[j].product == k.product;
          assert items'[j].id == k.orderItem && items'[j].product == k.product;
        }
      }
      ReceivedOfLines(items', lines[1..], p);
    }
  }

  lemma PurchasedAppended(ledger: seq<S.Entry>, e: S.Entry, order: string, p: string)
    ensures Purchased(ledger + [e], order, p) == Purchased(ledger, order, p)
      + if e.kind == S.Purchase && e.ref == OrderRef(order) && e.key.product == p then e.quantity else 0
  {
    assert (ledger + [e])[..|ledger|] == ledger;
  }

  lemma {:induction false} PurchasedByReceipt(stock: S.State, warehouse: string, lines: seq<LineInput>, order: string,
                                              other: string, p: string)
    ensures Purchased(ReceivedStock(stock, warehouse, lines, order).ledger, other, p)
      == Purchased(stock.ledger, other, p) + if other == order then ProductSum(lines, p) else 0
    decreases |lines|
  {
    if lines != [] {
      var s := StockIn(stock, warehouse, lines[0], order);
      PurchasedAppended(stock.ledger, s.ledger[|stock.ledger|], other, p);
      PurchasedByReceipt(s, warehouse, lines[1..], order, other, p);
    }
  }

  lemma PurchasedByMovement(s: S.State, m: S.Movement, order: string, p: string)
    requires !m.IncreaseStock?
    ensures Purchased(S.Apply(s, m).state.ledger, order, p) == Purchased(s.ledger, order, p)
  {
    var t := S.Apply(s, m).state;
    if S.Apply(s, m).Done? {
      var n := |s.ledger|;
      if m.TransferStock? {
        assert t.ledger == s.ledger + [t.ledger[n]] + [t.ledger[n + 1]];
        PurchasedAppended(s.ledger + [t.ledger[n]], t.ledger[n + 1], order, p);
      }
      PurchasedAppended(s.ledger, t.ledger[n], order, p);
    }
  }

  lemma {:induction false} ReceivedStockReconciled(stock: S.State, warehouse: string, lines: seq<LineInput>,
                                                   order: string)
    requires S.Reconciled(stock) && forall l | l in lines :: 1 <= l.quantity
    ensures S.Reconciled(ReceivedStock(stock, warehouse, lines, order))
    decreases |lines|
  {
    if lines != [] {
      S.ApplyReconciled(stock, S.IncreaseStock(S.Key(warehouse, lines[0].product), lines[0].quantity, OrderRef(order)));
      ReceivedStockReconciled(StockIn(stock, warehouse, lines[0], order), warehouse, lines[1..], order);
    }
  }

  lemma ReceiptSumAppended(receipts: seq<Receipt>, r: Receipt, order: string, id: nat)
    ensures ReceiptSum(receipts + [r], order, id)
      == ReceiptSum(receipts, order, id) + if r.order == order then LinesFor(Inputs(r.lines), id) else 0
  {
    assert (receipts + [r])[..|receipts|] == receipts;
  }

  lemma {:induction false} NoReceiptsNoSum(receipts: seq<Receipt>, order: string, id: nat)
    requires forall r | r in receipts :: r.order != order
    ensures ReceiptSum(receipts, order, id) == 0
  {
    if receipts != [] {
      assert receipts[|receipts| - 1] in receipts;
      NoReceiptsNoSum(receipts[..|receipts| - 1], order, id);
    }
  }

  lemma {:induction false} NothingReceivedOf(items: seq<OrderItem>, p: string)
    requires forall it | it in items :: it.received == 0
    ensures ReceivedOf(items, p) == 0
  {
    if items != [] {
      assert items[0] in items;
      NothingReceivedOf(items[1..], p);
    }
  }

  lemma {:induction false} LinesForNonNegative(lines: seq<LineInput>, id: nat)
    requires forall l | l in lines :: 1 <= l.quantity
    ensures 0 <= LinesFor(lines, id)
    ensures (exists l | l in lines :: l.orderItem == id) ==> 0 < LinesFor(lines, id)
  {
    if lines != [] {
      assert lines == [lines[0]] + lines[1..];
      LinesForNonNegative(lines[1..], id);
    }
  }

  // ---------- Every call keeps the agreement ----------

  lemma UntouchedOrder(w: World, id: string)
    requires ThreeWay(w, id) && id in w.orders && w.orders[id].status == DRAFT
    requires forall it | it in w.orders[id].items :: it.received == 0
    ensures forall p :: Purchased(w.stock.ledger, id, p) == 0
  {
    forall p ensures Purchased(w.stock.ledger, id, p) == 0 {
      NothingReceivedOf(w.orders[id].items, p);
    }
  }

  lemma DraftsHaveReceivedNothing(w: World, id: string)
    requires ThreeWay(w, id) && id in w.orders && w.orders[id].status == DRAFT
    ensures forall it | it in w.orders[id].items :: it.received == 0
    ensures forall p :: Purchased(w.stock.ledger, id, p) == 0
  {
    forall it | it in w.orders[id].items ensures it.received == 0 {
      NoReceiptsNoSum(w.receipts, id, it.id);
    }
    UntouchedOrder(w, id);
  }

  /** An order with only fresh lines agrees with an empty record. */
  lemma FreshLinesAgree(w: World, id: string)
    requires id in w.orders && w.orders[id].status == DRAFT && SoundItems(w.orders[id].items)
    requires forall it | it in w.orders[id].items :: it.received == 0
    requires forall r | r in w.receipts :: r.order != id
    requires forall p :: Purchased(w.stock.ledger, id, p) == 0
    ensures ThreeWay(w, id)
  {
    forall it | it in w.orders[id].items ensures it.received == ReceiptSum(w.receipts, id, it.id) {
      NoReceiptsNoSum(w.receipts, id, it.id);
    }
    forall p ensures ReceivedOf(w.orders[id].items, p) == 0 {
      NothingReceivedOf(w.orders[id].items, p);
    }
  }

  lemma OrderCallAgrees(w: World, c: Call, id: string)
    requires ThreeWay(w, id) && Legal(w, c)
    requires c.CreateOrder? || c.UpdateOrder? || c.ApproveOrder? || c.CancelOrder?
    ensures ThreeWay(Step(w, c).world, id)
  {
    var w' := Step(w, c).world;
    if id == c.id && id in w'.orders && w'.orders[id].status == DRAFT {
      if id in w.orders && w.orders[id].status == DRAFT { DraftsHaveReceivedNothing(w, id); }
      FreshLinesAgree(w', id);
    }
  }

  lemma DuplicateAgrees(w: World, source: string, copy: string, id: string)
    requires ThreeWay(w, id) && ThreeWay(w, source) && copy !in w.orders
    ensures ThreeWay(Step(w, DuplicateOrder(source, copy)).world, id)
  {
    var w' := Step(w, DuplicateOrder(source, copy)).world;
    if id == copy && id in w'.orders {
      var items := w.orders[source].items;
      forall it | it in w'.orders[id].items ensures 1 <= it.quantity && it.received == 0 {
        var i :| 0 <= i < |items| && it == CopiedItems(items, w.nextItem)[i];
        assert items[i] in items;
      }
      FreshLinesAgree(w', id);
    }
  }

  lemma ReceivedItemsSound(items: seq<OrderItem>, lines: seq<LineInput>)
    requires SoundItems(items) && Named(items, lines) && lines != []
    requires forall l | l in lines :: 1 <= l.quantity
    ensures var r := ReceivedItems(items, lines);
      SoundItems(r) && r != [] && AnyReceived(r)
  {
    var r := ReceivedItems(items, lines);
    ReceivedItemsAre(items, lines);
    forall it | it in r ensures 1 <= it.quantity && 0 <= it.received {
      var i :| 0 <= i < |items| && it == r[i];
      assert items[i] in items;
      LinesForNonNegative(lines, it.id);
    }
    assert lines[0] in lines;
    var i :| 0 <= i < |items| && items[i].id == lines[0].orderItem && items[i].product == lines[0].product;
    assert items[i] in items;
    LinesForNonNegative(lines, items[i].id);
    assert r[i] in r && r[i].received > 0;
  }

  /** The receipt line sums move with the order lines. */
  lemma ReceiptMatchesItems(receipts: seq<Receipt>, order: string, items: seq<OrderItem>, lines: seq<LineInput>,
                            receipt: Receipt)
    requires forall it | it in items :: it.received == ReceiptSum(receipts, order, it.id)
    requires receipt.order == order && Inputs(receipt.lines) == lines
    ensures forall it | it in ReceivedItems(items, lines) ::
      it.received == ReceiptSum(receipts + [receipt], order, it.id)
  {
    ReceivedItemsAre(items, lines);
    var r := ReceivedItems(items, lines);
    forall it | it in r ensures it.received == ReceiptSum(receipts + [receipt], order, it.id) {
      var i :| 0 <= i < |items| && it == r[i];
      assert items[i] in items;
      ReceiptSumAppended(receipts, receipt, order, it.id);
    }
  }

  lemma ReceiveAgreesHere(w: World, order: string, warehouse: string, lines: seq<LineInput>)
    requires ThreeWay(w, order) && Legal(w, Receive(order, warehouse, lines))
    requires ReceiveCall(w, order, warehouse, lines).result.Success?
    ensures ThreeWay(ReceiveCall(w, order, warehouse, lines).world, order)
  {
    var w' := ReceiveCall(w, order, warehouse, lines).world;
    var items := w.orders[order].items;
    ValidatedNamed(items, lines);
    assert Inputs(CostedLines(items, lines)) == lines;
    ReceiptMatchesItems(w.receipts, order, items, lines, w'.receipts[|w.receipts|]);
    forall p ensures ReceivedOf(w'.orders[order].items, p) == Purchased(w'.stock.ledger, order, p) {
      PurchasedByReceipt(w.stock, warehouse, lines, order, order, p);
      ReceivedOfLines(items, lines, p);
    }
    ReceivedItemsSound(items, lines);
  }

  lemma ReceiveAgreesElsewhere(w: World, order: string, warehouse: string, lines: seq<LineInput>, id: string)
    requires ThreeWay(w, id) && id != order
    requires ReceiveCall(w, order, warehouse, lines).result.Success?
    ensures ThreeWay(ReceiveCall(w, order, warehouse, lines).world, id)
  {
    var w' := ReceiveCall(w, order, warehouse, lines).world;
    forall p { PurchasedByReceipt(w.stock, warehouse, lines, order, id, p); }
    if id in w.orders {
      forall it | it in w.orders[id].items ensures it.received == ReceiptSum(w'.receipts, id, it.id) {
        ReceiptSumAppended(w.receipts, w'.receipts[|w.receipts|], id, it.id);
      }
    }
  }

  lemma ReceiveAgrees(w: World, order: string, warehouse: string, lines: seq<LineInput>, id: string)
    requires ThreeWay(w, id) && Legal(w, Receive(order, warehouse, lines))
    ensures ThreeWay(ReceiveCall(w, order, warehouse, lines).world, id)
  {
    if ReceiveCall(w, order, warehouse, lines).result.Success? {
      if id == order {
        ReceiveAgreesHere(w, order, warehouse, lines);
      } else {
        ReceiveAgreesElsewhere(w, order, warehouse, lines, id);
      }
    }
  }

  lemma StepValid(w: World, c: Call)
    requires Valid(w) && Legal(w, c)
    ensures Valid(Step(w, c).world)
  {
    var w' := Step(w, c).world;
    forall id ensures ThreeWay(w', id) {
      assert ThreeWay(w, id);
      match c
      case DuplicateOrder(source, copy) =>
        assert ThreeWay(w, source);
        DuplicateAgrees(w, source, copy, id);
      case Receive(order, warehouse, lines) => ReceiveAgrees(w, order, warehouse, lines, id);
      case CancelReceipt(i) => assert w' == w;
      case Move(m) => forall p { PurchasedByMovement(w.stock, m, id, p); }
      case _ => OrderCallAgrees(w, c, id);
    }
    match c
    case Receive(order, warehouse, lines) => ReceivedStockReconciled(w.stock, warehouse, lines, order);
    case Move(m) => S.ApplyReconciled(w.stock, m);
    case _ =>
  }

  function Run(w: World, calls: seq<Call>): World
    decreases |calls|
  {
    if calls == [] then w else Run(Step(w, calls[0]).world, calls[1..])
  }

  predicate LegalRun(w: World, calls: seq<Call>)
    decreases |calls|
  {
    calls == [] || (Legal(w, calls[0]) && LegalRun(Step(w, calls[0]).world, calls[1..]))
  }

  /** Over every run the order lines, the goods receipts and the stock ledger agree on
      what has arrived, and the order status tells how much that is. */
  lemma {:induction false} RunValid(w: World, calls: seq<Call>)
    requires Valid(w) && LegalRun(w, calls)
    ensures Valid(Run(w, calls))
    decreases |calls|
  {
    if calls != [] {
      StepValid(w, calls[0]);
      RunValid(Step(w, calls[0]).world, calls[1..]);
    }
  }

  lemma FreshWorldValid(vendors: set<string>, warehouses: set<string>)
    ensures Valid(World(S.State(map[], []), map[], [], 0, vendors, warehouses))
    ensures NothingOver(World(S.State(map[], []), map[], [], 0, vendors, warehouses))
  {
    S.FreshStateReconciled();
  }

  // ---------- Stored order totals ----------

  function AsInputs(items: seq<OrderItem>): seq<ItemInput> {
    seq(|items|, i requires 0 <= i < |items| =>
      ItemInput(items[i].product, items[i].quantity, items[i].unitCost, items[i].taxRate))
  }

  predicate TotalsAgree(w: World) {
    forall id | id in w.orders :: w.orders[id].totals == TotalsOf(AsInputs(w.orders[id].items))
  }

  lemma StepTotalsAgree(w: World, c: Call)
    requires TotalsAgree(w)
    requires c.UpdateOrder? && c.newInputs.Some? ==> DistinctProducts(c.newInputs.value)
    ensures TotalsAgree(Step(w, c).world)
  {
    match c
    case CreateOrder(_, _, _, inputs) => assert AsInputs(NewItems(inputs, w.nextItem)) == inputs;
    case UpdateOrder(_, _, _, inputs) =>
      if inputs.Some? { assert AsInputs(NewItems(inputs.value, w.nextItem)) == inputs.value; }
    case DuplicateOrder(source, _) =>
      if source in w.orders {
        var items := w.orders[source].items;
        assert AsInputs(CopiedItems(items, w.nextItem)) == AsInputs(items);
      }
    case Receive(id, _, lines) =>
      if id in w.orders {
        var items := w.orders[id].items;
        ReceivedItemsAre(items, lines);
        assert AsInputs(ReceivedItems(items, lines)) == AsInputs(items);
      }
    case _ =>
  }

  /** The stored order totals stay those of the order lines in every run whose draft edits
      name each product once. */
  lemma {:induction false} RunTotalsAgree(w: World, calls: seq<Call>)
    requires TotalsAgree(w)
    requires forall c | c in calls :: c.UpdateOrder? && c.newInputs.Some? ==> DistinctProducts(c.newInputs.value)
    ensures TotalsAgree(Run(w, calls))
    decreases |calls|
  {
    if calls != [] {
      assert calls[0] in calls;
      StepTotalsAgree(w, calls[0]);
      RunTotalsAgree(Step(w, calls[0]).world, calls[1..]);
    }
  }

  predicate Known(w: World, vendor: Option<string>, warehouse: Option<string>) {
    (vendor.Some? ==> vendor.value in w.vendors) && (warehouse.Some? ==> warehouse.value in w.warehouses)
  }

  /** A draft edit that names a product twice is refused. An unknown vendor or warehouse
      stops it before it writes anything; otherwise the lines are gone and the header is
      not changed, and the totals then agree exactly when they were all zero. */
  lemma RefusedEditAgreesIffTotalsZero(w: World, id: string, vendor: Option<string>, warehouse: Option<string>,
                                       inputs: seq<ItemInput>)
    requires id in w.orders && w.orders[id].status == DRAFT && !DistinctProducts(inputs)
    ensures var a := UpdateCall(w, id, vendor, warehouse, Some(inputs));
      if !Known(w, vendor, warehouse) then a == Answer(Failure(NotFound), w)
      else
        && a.result == Failure(UniqueViolation) && a.world.orders[id] == w.orders[id].(items := [])
        && (var o := a.world.orders[id];
            o.totals == TotalsOf(AsInputs(o.items)) <==> w.orders[id].totals == Totals(0, 0, 0))
  {
    assert AsInputs([]) == [];
  }

  // ---------- Over-receipt ----------

  predicate NotOver(o: Order) { forall it | it in o.items :: it.received <= it.quantity }

  predicate NothingOver(w: World) { forall id | id in w.orders :: NotOver(w.orders[id]) }

  predicate DistinctLines(lines: seq<LineInput>) {
    forall i, j | 0 <= i < j < |lines| :: lines[i].orderItem != lines[j].orderItem
  }

  /** An accepted receipt keeps an order from being over-received exactly when, line by
      line of the order, the receipt's quantities together fit what remains. */
  lemma StaysWithinIffSumsFit(w: World, id: string, warehouse: string, lines: seq<LineInput>)
    requires id in w.orders && ReceiveCall(w, id, warehouse, lines).result.Success?
    ensures NotOver(ReceiveCall(w, id, warehouse, lines).world.orders[id]) <==>
      forall it | it in w.orders[id].items :: LinesFor(lines, it.id) <= it.quantity - it.received
  {
    var items := w.orders[id].items;
    var r := ReceivedItems(items, lines);
    ReceivedItemsAre(items, lines);
    if NotOver(ReceiveCall(w, id, warehouse, lines).world.orders[id]) {
      forall it | it in items ensures LinesFor(lines, it.id) <= it.quantity - it.received {
        var i :| 0 <= i < |items| && it == items[i];
        assert r[i] in r;
      }
    } else {
      var it :| it in r && it.received > it.quantity;
      var i :| 0 <= i < |r| && it == r[i];
      assert items[i] in items;
    }
  }

  lemma {:induction false} DistinctLinesSum(lines: seq<LineInput>, id: nat)
    requires DistinctLines(lines)
    ensures LinesFor(lines, id) == 0 || exists l | l in lines :: l.orderItem == id && LinesFor(lines, id) == l.quantity
  {
    if lines != [] {
      assert lines == [lines[0]] + lines[1..];
      DistinctLinesSum(lines[1..], id);
      if lines[0].orderItem == id {
        forall l | l in lines[1..] ensures l.orderItem != id {
          var j :| 0 <= j < |lines[1..]| && lines[1..][j] == l;
          assert lines[j + 1] == l;
        }
        LinesForAbsent(lines[1..], id);
      }
    }
  }

  lemma {:induction false} LinesForAbsent(lines: seq<LineInput>, id: nat)
    requires forall l | l in lines :: l.orderItem != id
    ensures LinesFor(lines, id) == 0
  {
    if lines != [] { LinesForAbsent(lines[1..], id); }
  }

  lemma StepNothingOver(w: World, c: Call)
    requires Valid(w) && NothingOver(w) && Legal(w, c)
    requires c.Receive? ==> DistinctLines(c.lines)
    ensures NothingOver(Step(w, c).world)
  {
    if c.Receive? && Step(w, c).result.Success? {
      var items := w.orders[c.id].items;
      assert ThreeWay(w, c.id);
      ValidatedNamed(items, c.lines);
      forall it | it in items ensures LinesFor(c.lines, it.id) <= it.quantity - it.received {
        DistinctLinesSum(c.lines, it.id);
        var i :| 0 <= i < |items| && it == items[i];
        FindUnique(items, i);
        assert NotOver(w.orders[c.id]);
      }
      StaysWithinIffSumsFit(w, c.id, c.warehouse, c.lines);
    } else if c.DuplicateOrder? && c.source in w.orders {
      var items := w.orders[c.source].items;
      assert ThreeWay(w, c.source);
      forall it | it in CopiedItems(items, w.nextItem) ensures it.received <= it.quantity {
        var i :| 0 <= i < |items| && it == CopiedItems(items, w.nextItem)[i];
        assert items[i] in items;
      }
    }
  }

  /** If no receipt names an order line twice, nothing is ever over-received, and a
      non-cancelled order is RECEIVED iff it is exactly full, PARTIALLY_RECEIVED iff
      something but not everything has arrived, and untouched otherwise. */
  lemma {:induction false} RunNothingOver(w: World, calls: seq<Call>, id: string)
    requires Valid(w) && NothingOver(w) && LegalRun(w, calls)
    requires forall c | c in calls :: c.Receive? ==> DistinctLines(c.lines)
    ensures var w' := Run(w, calls);
      && NothingOver(w')
      && (id in w'.orders && w'.orders[id].status != CANCELLED ==>
            var o := w'.orders[id];
            && (o.status == RECEIVED <==> o.items != [] && forall it | it in o.items :: it.received == it.quantity)
            && (o.status == PARTIALLY_RECEIVED <==>
                  AnyReceived(o.items) && exists it | it in o.items :: it.received < it.quantity)
            && (o.status in {DRAFT, SENT, APPROVED} <==>
                  o.items == [] || forall it | it in o.items :: it.received == 0))
    decreases |calls|
  {
    if calls == [] {
      assert ThreeWay(w, id);
      if id in w.orders {
        var o := w.orders[id];
        assert NotOver(o);
        assert o.items != [] ==> o.items[0] in o.items;
      }
    } else {
      assert calls[0] in calls;
      StepValid(w, calls[0]);
      StepNothingOver(w, calls[0]);
      RunNothingOver(Step(w, calls[0]).world, calls[1..], id);
    }
  }

  /** The guard looks at each receipt line alone: naming a line of 10 twice with 6 each
      is accepted and receives 12. */
  lemma TwoMentionsCanOverReceive(w: World, id: string, warehouse: string, p: string)
    requires id in w.orders && w.orders[id].status == APPROVED && warehouse in w.warehouses
    requires w.orders[id].items == [OrderItem(0, p, 10, 0, 1, 0)]
    ensures var a := ReceiveCall(w, id, warehouse, [LineInput(0, p, 6), LineInput(0, p, 6)]);
      && a.result.Success?
      && a.world.orders[id].items == [OrderItem(0, p, 10, 12, 1, 0)]
      && a.world.orders[id].status == RECEIVED
  {
    var items := w.orders[id].items;
    var l := LineInput(0, p, 6);
    var lines := [l, l];
    assert lines[1..] == [l] && [l][1..] == [];
    assert Find(items, 0) == Some(items[0]);
    assert Validate(items, lines) == Validate(items, [l]) == Validate(items, []);
    var once := AddReceived(items, 0, 6);
    assert once == [OrderItem(0, p, 10, 6, 1, 0)];
    assert AddReceived(once, 0, 6) == [OrderItem(0, p, 10, 12, 1, 0)];
    assert ReceivedItems(items, lines) == ReceivedItems(once, [l]) == ReceivedItems(AddReceived(once, 0, 6), []);
    assert OrderItem(0, p, 10, 12, 1, 0) in [OrderItem(0, p, 10, 12, 1, 0)];
  }

  // ---------- What each call does ----------

  /** A stock movement of another service changes the stock only. */
  lemma MoveEffect(w: World, m: S.Movement)
    ensures var a, e := Step(w, Move(m)), S.Apply(w.stock, m);
      && a.world == w.(stock := e.state) && (a.result.Success? <==> e.Done?)
  {
  }

  /** Nothing but the order of the id has changed. */
  predicate OnlyOrder(w: World, t: World, id: string) {
    && t.stock == w.stock && t.receipts == w.receipts && t.vendors == w.vendors && t.warehouses == w.warehouses
    && t.orders.Keys == w.orders.Keys + {id}
    && forall other | other in w.orders && other != id :: t.orders[other] == w.orders[other]
  }

  /** No product is named by two inputs. */
  predicate NamedOnce(inputs: seq<ItemInput>) {
    forall i, j | 0 <= i < |inputs| && 0 <= j < |inputs| && inputs[i].product == inputs[j].product :: i == j
  }

  lemma NamedOnceIff(inputs: seq<ItemInput>)
    ensures NamedOnce(inputs) <==> DistinctProducts(inputs)
  {
  }

  /** Subtotals add quantity times cost, line by line. */
  lemma SubtotalAdds(inputs: seq<ItemInput>, i: ItemInput)
    ensures SumLines(inputs + [i]) == SumLines(inputs) + i.quantity * i.unitCost
    ensures SumLines([]) == 0
  {
    assert (inputs + [i])[..|inputs|] == inputs;
  }

  /** The lines that were asked for, numbered from n on, with nothing received. */
  predicate AsAsked(items: seq<OrderItem>, inputs: seq<ItemInput>, n: nat) {
    && |items| == |inputs|
    && forall i | 0 <= i < |items| ::
         && items[i].id == n + i && items[i].received == 0
         && items[i].product == inputs[i].product && items[i].quantity == inputs[i].quantity
         && items[i].unitCost == inputs[i].unitCost && items[i].taxRate == inputs[i].taxRate
  }

  /** A hundred times the exact tax. */
  function ExactTax(inputs: seq<ItemInput>): int {
    if inputs == [] then 0
    else
      var i := inputs[|inputs| - 1];
      ExactTax(inputs[..|inputs| - 1]) + i.quantity * i.unitCost * i.taxRate
  }

  /** The totals of an order: line totals, tax rounded half up line by line, and their sum. */
  predicate PricedAs(t: Totals, inputs: seq<ItemInput>) {
    && t.subtotal == SumLines(inputs) && t.grandTotal == t.subtotal + t.taxAmount
    && -50 * |inputs| <= 100 * t.taxAmount - ExactTax(inputs) <= 50 * |inputs|
  }

  lemma {:induction false} TaxWithinHalfPerLine(inputs: seq<ItemInput>)
    ensures PricedAs(TotalsOf(inputs), inputs)
  {
    if inputs != [] {
      var n := |inputs| - 1;
      TaxWithinHalfPerLine(inputs[..n]);
      LineTaxWithinHalf(inputs[n].quantity * inputs[n].unitCost, inputs[n].taxRate);
    }
  }

  lemma LineTaxWithinHalf(x: int, p: int)
    ensures -50 <= 100 * RoundPercent(x, p) - x * p <= 50
  {
  }

  lemma CreateOrderEffect(w: World, id: string, vendor: string, warehouse: string, inputs: seq<ItemInput>)
    ensures var a := Step(w, CreateOrder(id, vendor, warehouse, inputs));
      && (a.result.Success? <==> vendor in w.vendors && warehouse in w.warehouses && NamedOnce(inputs))
      && (a.result.Failure? ==>
            && a.world == w
            && a.result.error ==
                 if vendor in w.vendors && warehouse in w.warehouses then UniqueViolation else NotFound)
      && (a.result.Success? ==>
            && OnlyOrder(w, a.world, id) && a.world.nextItem == w.nextItem + |inputs|
            && a.world.orders[id].vendor == vendor && a.world.orders[id].warehouse == warehouse
            && a.world.orders[id].status == DRAFT && AsAsked(a.world.orders[id].items, inputs, w.nextItem)
            && PricedAs(a.world.orders[id].totals, inputs))
  {
    TaxWithinHalfPerLine(inputs);
    NamedOnceIff(inputs);
  }

  /** update of a draft changes what it was given and keeps the rest. */
  lemma UpdateOrderEffect(w: World, id: string, vendor: Option<string>, warehouse: Option<string>,
                          inputs: Option<seq<ItemInput>>)
    ensures var a := Step(w, UpdateOrder(id, vendor, warehouse, inputs));
      && (a.result.Success? <==>
            && id in w.orders && w.orders[id].status == DRAFT && Known(w, vendor, warehouse)
            && (inputs.Some? ==> NamedOnce(inputs.value)))
      && (a.result.Failure? ==>
            a.result.error ==
              if id !in w.orders then NotFound
              else if w.orders[id].status != DRAFT then BadRequest
              else if Known(w, vendor, warehouse) then UniqueViolation else NotFound)
      && (a.result.Success? ==>
            var before, after := w.orders[id], a.world.orders[id];
            && OnlyOrder(w, a.world, id) && after.status == DRAFT
            && after.vendor == (if vendor.Some? then vendor.value else before.vendor)
            && after.warehouse == (if warehouse.Some? then warehouse.value else before.warehouse)
            && (inputs.None? ==>
                  && after.items == before.items && after.totals == before.totals
                  && a.world.nextItem == w.nextItem)
            && (inputs.Some? ==>
                  && AsAsked(after.items, inputs.value, w.nextItem) && PricedAs(after.totals, inputs.value)
                  && a.world.nextItem == w.nextItem + |inputs.value|))
  {
    if inputs.Some? {
      TaxWithinHalfPerLine(inputs.value);
      NamedOnceIff(inputs.value);
    }
  }

  /** approve and cancel change the status only. */
  lemma ApproveOrCancelEffect(w: World, id: string)
    ensures var a := Step(w, ApproveOrder(id));
      && (a.result.Success? <==> id in w.orders && w.orders[id].status in {DRAFT, SENT})
      && (a.result.Failure? ==>
            && a.world == w
            && a.result.error == (if id in w.orders then BadRequest else NotFound))
      && (a.result.Success? ==>
            && OnlyOrder(w, a.world, id) && a.world.orders[id].status == APPROVED
            && a.world.orders[id].(status := w.orders[id].status) == w.orders[id])
    ensures var a := Step(w, CancelOrder(id));
      && (a.result.Success? <==>
            id in w.orders && w.orders[id].status in {DRAFT, SENT, APPROVED, PARTIALLY_RECEIVED})
      && (a.result.Failure? ==>
            && a.world == w
            && a.result.error == (if id in w.orders then BadRequest else NotFound))
      && (a.result.Success? ==>
            && OnlyOrder(w, a.world, id) && a.world.orders[id].status == CANCELLED
            && a.world.orders[id].(status := w.orders[id].status) == w.orders[id])
  {
    if id in w.orders {
      match w.orders[id].status
      case DRAFT =>
      case SENT =>
      case APPROVED =>
      case PARTIALLY_RECEIVED =>
      case RECEIVED =>
      case CANCELLED =>
    }
  }

  /** A duplicate is a draft of the same lines with nothing received. */
  lemma DuplicateOrderEffect(w: World, source: string, id: string)
    requires id !in w.orders
    ensures var a := Step(w, DuplicateOrder(source, id));
      && (a.result.Success? <==> source in w.orders)
      && (a.result.Failure? ==>
            && a.world == w
            && a.result.error == NotFound)
      && (a.result.Success? ==>
            var before, after := w.orders[source], a.world.orders[id];
            && OnlyOrder(w, a.world, id) && after.status == DRAFT
            && after.vendor == before.vendor && after.warehouse == before.warehouse && after.totals == before.totals
            && AsAsked(after.items, AsInputs(before.items), w.nextItem)
            && a.world.nextItem == w.nextItem + |before.items|)
  {
  }

  /** Only a draft receipt can be cancelled. */
  lemma CancelReceiptEffect(w: World, i: nat)
    ensures var a := Step(w, CancelReceipt(i));
      && (a.result.Success? <==> i < |w.receipts| && w.receipts[i].status == ReceiptDraft)
      && (a.result.Failure? ==>
            && a.world == w
            && a.result.error == (if i < |w.receipts| then BadRequest else NotFound))
      && (a.result.Success? ==>
            a.world == w.(receipts := w.receipts[i := w.receipts[i].(status := ReceiptCancelled)]))
  {
  }

  /** The line names an order line of its product and asks for no more than is open on it. */
  predicate LineFits(items: seq<OrderItem>, l: LineInput) {
    exists it | it in items ::
      it.id == l.orderItem && it.product == l.product && l.quantity <= it.quantity - it.received
  }

  lemma FindIsThe(items: seq<OrderItem>, it: OrderItem)
    requires DistinctIds(items) && it in items
    ensures Find(items, it.id) == Some(it)
  {
    var i: nat :| i < |items| && items[i] == it;
    FindUnique(items, i);
  }

  lemma LineFitsIff(items: seq<OrderItem>, l: LineInput)
    requires DistinctIds(items)
    ensures LineFits(items, l) <==>
      var found := Find(items, l.orderItem);
      found.Some? && found.value.product == l.product && l.quantity <= found.value.quantity - found.value.received
    ensures Find(items, l.orderItem).None? <==> forall it | it in items :: it.id != l.orderItem
  {
    FindSound(items, l.orderItem);
    forall it | it in items && it.id == l.orderItem ensures Find(items, l.orderItem) == Some(it) {
      FindIsThe(items, it);
    }
  }

  /** The validation accepts exactly the receipts all of whose lines fit. */
  lemma {:induction false} ValidateIff(items: seq<OrderItem>, lines: seq<LineInput>)
    requires DistinctIds(items)
    ensures Validate(items, lines).Success? <==> forall l | l in lines :: LineFits(items, l)
  {
    if lines != [] {
      LineFitsIff(items, lines[0]);
      ValidateIff(items, lines[1..]);
      assert lines == [lines[0]] + lines[1..];
    }
  }

  /** Otherwise the first line that does not fit decides the error. */
  lemma {:induction false} ValidateFirstError(items: seq<OrderItem>, lines: seq<LineInput>, j: nat)
    requires DistinctIds(items) && j < |lines| && !LineFits(items, lines[j])
    requires forall i | 0 <= i < j :: LineFits(items, lines[i])
    ensures Validate(items, lines) ==
      Failure(if forall it | it in items :: it.id != lines[j].orderItem then NotFound else BadRequest)
    decreases j
  {
    LineFitsIff(items, lines[0]);
    if j > 0 { ValidateFirstError(items, lines[1..], j - 1); }
  }

  /** The goods are in the warehouse of the receipt, and nowhere else. */
  lemma {:induction false} ReceivedStockAt(stock: S.State, warehouse: string, lines: seq<LineInput>,
                                           order: string, k: S.Key)
    ensures var t := ReceivedStock(stock, warehouse, lines, order);
      && S.RowAt(t.rows, k).reserved == S.RowAt(stock.rows, k).reserved
      && S.RowAt(t.rows, k).available == S.RowAt(stock.rows, k).available
           + if k.warehouse == warehouse then ProductSum(lines, k.product) else 0
    decreases |lines|
  {
    if lines != [] {
      S.IncreaseEffect(stock, S.Key(warehouse, lines[0].product), lines[0].quantity, OrderRef(order));
      ReceivedStockAt(StockIn(stock, warehouse, lines[0], order), warehouse, lines[1..], order, k);
    }
  }

  /** The unit cost of a receipt line: its order line's, on the first mention only. */
  predicate CostedAs(items: seq<OrderItem>, lines: seq<LineInput>, r: seq<ReceiptLine>) {
    && |r| == |lines|
    && forall j | 0 <= j < |r| ::
         && r[j].line == lines[j]
         && ((exists i | 0 <= i < j :: lines[i].orderItem == lines[j].orderItem) ==> r[j].unitCost == 0)
         && (forall it | it in items && it.id == lines[j].orderItem ::
               r[j].unitCost == it.unitCost || exists i | 0 <= i < j :: lines[i].orderItem == lines[j].orderItem)
  }

  lemma CostedLinesAre(items: seq<OrderItem>, lines: seq<LineInput>)
    requires DistinctIds(items)
    ensures CostedAs(items, lines, CostedLines(items, lines))
  {
    forall it | it in items ensures Find(items, it.id) == Some(it) { FindIsThe(items, it); }
  }

  /** When a receipt is accepted. */
  lemma ReceiveAcceptedIff(w: World, id: string, warehouse: string, lines: seq<LineInput>)
    requires id in w.orders ==> DistinctIds(w.orders[id].items)
    ensures var a := ReceiveCall(w, id, warehouse, lines);
      && (a.result.Success? <==>
            && id in w.orders && w.orders[id].status in {SENT, APPROVED, PARTIALLY_RECEIVED, RECEIVED}
            && warehouse in w.warehouses && forall l | l in lines :: LineFits(w.orders[id].items, l))
      && (a.result.Failure? ==>
            && a.world == w
            && (id !in w.orders ==> a.result.error == NotFound)
            && (id in w.orders ==>
                  var o := w.orders[id];
                  if o.status == DRAFT || o.status == CANCELLED then a.result.error == BadRequest
                  else if warehouse !in w.warehouses then a.result.error == NotFound
                  else a.result == Failure(Validate(o.items, lines).error)))
  {
    if id in w.orders {
      ValidateIff(w.orders[id].items, lines);
      match w.orders[id].status
      case DRAFT =>
      case SENT =>
      case APPROVED =>
      case PARTIALLY_RECEIVED =>
      case RECEIVED =>
      case CANCELLED =>
    }
  }

  /** What an accepted receipt does: goods into the warehouse it names, quantities onto the
      order lines it names, and one receipt with its lines. */
  lemma ReceiveEffect(w: World, id: string, warehouse: string, lines: seq<LineInput>, k: S.Key)
    requires ReceiveCall(w, id, warehouse, lines).result.Success? && DistinctIds(w.orders[id].items)
    ensures var t := ReceiveCall(w, id, warehouse, lines).world;
      var before, after := w.orders[id], t.orders[id];
      && S.RowAt(t.stock.rows, k).reserved == S.RowAt(w.stock.rows, k).reserved
      && S.RowAt(t.stock.rows, k).available == S.RowAt(w.stock.rows, k).available
           + (if k.warehouse == warehouse then ProductSum(lines, k.product) else 0)
      && t.orders == w.orders[id := before.(items := after.items, status := after.status)]
      && |after.items| == |before.items|
      && (forall i | 0 <= i < |before.items| ::
            var it := before.items[i];
            after.items[i] == it.(received := it.received + LinesFor(lines, it.id)))
      && after.status == (if forall it | it in after.items :: it.quantity <= it.received then RECEIVED
                          else if exists it | it in after.items :: 0 < it.received then PARTIALLY_RECEIVED
                          else before.status)
      && |t.receipts| == |w.receipts| + 1 && t.receipts[..|w.receipts|] == w.receipts
      && t.receipts[|w.receipts|].order == id && t.receipts[|w.receipts|].warehouse == warehouse
      && t.receipts[|w.receipts|].status == ReceiptReceived
      && CostedAs(before.items, lines, t.receipts[|w.receipts|].lines)
  {
    ReceivedStockAt(w.stock, warehouse, lines, id, k);
    ReceivedItemsAre(w.orders[id].items, lines);
    CostedLinesAre(w.orders[id].items, lines);
  }

  // ---------- The services ----------

  class ProcurementService {
    const stock: S.StockService
    var orders: map<string, Order>
    var receipts: seq<Receipt>
    var nextItem: nat
    const vendors: set<string>
    const warehouses: set<string>

    constructor (stock: S.StockService, vendors: set<string>, warehouses: set<string>)
      ensures this.stock == stock && orders == map[] && receipts == [] && nextItem == 0
      ensures this.vendors == vendors && this.warehouses == warehouses
    {
      this.stock, this.vendors, this.warehouses := stock, vendors, warehouses;
      orders, receipts, nextItem := map[], [], 0;
    }

    ghost function Snapshot(): World
      reads this, stock
    {
      World(stock.Snapshot(), orders, receipts, nextItem, vendors, warehouses)
    }

    method CalculateTotals(inputs: seq<ItemInput>) returns (t: Totals)
      ensures t == TotalsOf(inputs)
    {
      var subtotal, taxAmount := 0, 0;
      for i := 0 to |inputs|
        invariant subtotal == SumLines(inputs[..i]) && taxAmount == SumTax(inputs[..i])
      {
        var lineTotal := inputs[i].quantity * inputs[i].unitCost;
        assert inputs[..i + 1][..i] == inputs[..i];
        subtotal := subtotal + lineTotal;
        taxAmount := taxAmount + RoundPercent(lineTotal, inputs[i].taxRate);
      }
      assert inputs[..|inputs|] == inputs;
      t := Totals(subtotal, taxAmount, subtotal + taxAmount);
    }

    method Create(id: string, vendor: string, warehouse: string, inputs: seq<ItemInput>) returns (r: Result<()>)
      modifies this
      ensures Answer(r, Snapshot()) == Step(old(Snapshot()), CreateOrder(id, vendor, warehouse, inputs))
    {
      if vendor !in vendors || warehouse !in warehouses {
        return Failure(NotFound);
      }
      var totals := CalculateTotals(inputs);
      if !DistinctProducts(inputs) {
        return Failure(UniqueViolation);
      }
      orders := orders[id := Order(vendor, warehouse, DRAFT, NewItems(inputs, nextItem), totals)];
      nextItem := nextItem + |inputs|;
      r := Success(());
    }

    method Update(id: string, vendor: Option<string>, warehouse: Option<string>, inputs: Option<seq<ItemInput>>)
      returns (r: Result<()>)
      modifies this
      ensures Answer(r, Snapshot()) == Step(old(Snapshot()), UpdateOrder(id, vendor, warehouse, inputs))
    {
      if id !in orders {
        return Failure(NotFound);
      }
      var o := orders[id];
      if o.status != DRAFT {
        return Failure(BadRequest);
      }
      if vendor.Some? && vendor.value !in vendors {
        return Failure(NotFound);
      }
      if warehouse.Some? && warehouse.value !in warehouses {
        return Failure(NotFound);
      }
      var head := o.(vendor := if vendor.Some? then vendor.value else o.vendor,
                     warehouse := if warehouse.Some? then warehouse.value else o.warehouse);
      if inputs.Some? {
        var totals := CalculateTotals(inputs.value);
        orders := orders[id := o.(items := [])];
        if !DistinctProducts(inputs.value) {
          return Failure(UniqueViolation);
        }
        orders := orders[id := head.(items := NewItems(inputs.value, nextItem), totals := totals)];
        nextItem := nextItem + |inputs.value|;
      } else {
        orders := orders[id := head];
      }
      r := Success(());
    }

    method Approve(id: string) returns (r: Result<()>)
      modifies this
      ensures Answer(r, Snapshot()) == Step(old(Snapshot()), ApproveOrder(id))
    {
      if id !in orders {
        return Failure(NotFound);
      }
      if orders[id].status != DRAFT && orders[id].status != SENT {
        return Failure(BadRequest);
      }
      orders := orders[id := orders[id].(status := APPROVED)];
      r := Success(());
    }

    method Cancel(id: string) returns (r: Result<()>)
      modifies this
      ensures Answer(r, Snapshot()) == Step(old(Snapshot()), CancelOrder(id))
    {
      if id !in orders {
        return Failure(NotFound);
      }
      if orders[id].status == RECEIVED || orders[id].status == CANCELLED {
        return Failure(BadRequest);
      }
      orders := orders[id := orders[id].(status := CANCELLED)];
      r := Success(());
    }

    method Duplicate(source: string, id: string) returns (r: Result<()>)
      modifies this
      ensures Answer(r, Snapshot()) == Step(old(Snapshot()), DuplicateOrder(source, id))
    {
      if source !in orders {
        return Failure(NotFound);
      }
      var o := orders[source];
      orders := orders[id := o.(status := DRAFT, items := CopiedItems(o.items, nextItem))];
      nextItem := nextItem + |o.items|;
      r := Success(());
    }

    method ValidateLines(items: seq<OrderItem>, lines: seq<LineInput>) returns (r: Result<()>)
      ensures r == Validate(items, lines)
    {
      for i := 0 to |lines|
        invariant Validate(items, lines) == Validate(items, lines[i..])
      {
        assert lines[i..][1..] == lines[i + 1..];
        var found := Find(items, lines[i].orderItem);
        if found.None? {
          return Failure(NotFound);
        }
        if found.value.product != lines[i].product {
          return Failure(BadRequest);
        }
        if lines[i].quantity > found.value.quantity - found.value.received {
          return Failure(BadRequest);
        }
      }
      r := Success(());
    }

    /** Index of the receipt line the cost of this order line is written to. */
    method FirstMention(lines: seq<LineInput>, id: nat) returns (j: nat)
      requires exists i | 0 <= i < |lines| :: lines[i].orderItem == id
      ensures j < |lines| && lines[j].orderItem == id && forall i | 0 <= i < j :: lines[i].orderItem != id
    {
      j := 0;
      while lines[j].orderItem != id
        invariant j < |lines| && forall i | 0 <= i < j :: lines[i].orderItem != id
        decreases |lines| - j
      {
        j := j + 1;
      }
    }

    /** The body of the transaction: order lines, stock and receipt line costs, line by line. */
    method ReceiveLines(poItems: seq<OrderItem>, lines: seq<LineInput>, warehouse: string, id: string)
      returns (items: seq<OrderItem>, receiptLines: seq<ReceiptLine>)
      modifies stock
      ensures items == ReceivedItems(poItems, lines)
      ensures receiptLines == CostedLines(poItems, lines)
      ensures stock.Snapshot() == ReceivedStock(old(stock.Snapshot()), warehouse, lines, id)
    {
      items := poItems;
      receiptLines := seq(|lines|, j requires 0 <= j < |lines| => ReceiptLine(lines[j], 0));
      for i := 0 to |lines|
        invariant ReceivedItems(poItems, lines) == ReceivedItems(items, lines[i..])
        invariant ReceivedStock(old(stock.Snapshot()), warehouse, lines, id) ==
          ReceivedStock(stock.Snapshot(), warehouse, lines[i..], id)
        invariant |receiptLines| == |lines|
        invariant forall j | 0 <= j < |lines| ::
          receiptLines[j] == ReceiptLine(lines[j], if j < i then CostOf(poItems, lines, j) else 0)
      {
        assert lines[i..][1..] == lines[i + 1..];
        items := AddReceived(items, lines[i].orderItem, lines[i].quantity);
        var row := stock.Increase(S.Key(warehouse, lines[i].product), lines[i].quantity, OrderRef(id));
        var found := Find(poItems, lines[i].orderItem);
        var j := FirstMention(lines, lines[i].orderItem);
        var unitCost := match found case None => 0 case Some(it) => it.unitCost;
        receiptLines := receiptLines[j := receiptLines[j].(unitCost := unitCost)];
      }
    }

    method ReceiveGoods(id: string, warehouse: string, lines: seq<LineInput>) returns (r: Result<()>)
      modifies this, stock
      ensures Answer(r, Snapshot()) == ReceiveCall(old(Snapshot()), id, warehouse, lines)
    {
      if id !in orders {
        return Failure(NotFound);
      }
      var po := orders[id];
      if po.status == CANCELLED || po.status == DRAFT {
        return Failure(BadRequest);
      }
      if warehouse !in warehouses {
        return Failure(NotFound);
      }
      r := ValidateLines(po.items, lines);
      if r.Success? {
        var items, receiptLines := ReceiveLines(po.items, lines, warehouse, id);
        orders := orders[id := po.(items := items, status := StatusAfter(items, po.status))];
        receipts := receipts + [Receipt(id, warehouse, ReceiptReceived, receiptLines)];
        r := Success(());
      }
    }

    method CancelGoodsReceipt(i: nat) returns (r: Result<()>)
      modifies this
      ensures Answer(r, Snapshot()) == Step(old(Snapshot()), CancelReceipt(i))
    {
      if i >= |receipts| {
        return Failure(NotFound);
      }
      if receipts[i].status != ReceiptDraft {
        return Failure(BadRequest);
      }
      receipts := receipts[i := receipts[i].(status := ReceiptCancelled)];
      r := Success(());
    }
  }
}
