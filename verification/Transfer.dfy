/** Warehouse transfers (src/inventory/transfer/transfer.service.ts) on top of Stock. */
module Transfer {
  import opened Results
  import opened Stock

  datatype Status = DRAFT | IN_TRANSIT | COMPLETED | CANCELLED

  datatype Item = Item(product: string, quantity: int)

  datatype Document = Document(source: string, target: string, status: Status, items: seq<Item>)

  datatype World = World(stock: State, documents: map<string, Document>, warehouses: set<string>)

  /** How many items of the list were moved before the loop stopped. */
  datatype Trip = Trip(moved: nat, stock: State)

  datatype Call =
    | Create(id: string, source: string, target: string, items: seq<Item>)
    | Approve(id: string)
    | Complete(id: string)
    | Cancel(id: string)
    | Move(movement: Movement)

  datatype Answer = Answer(result: Result<()>, world: World)

  // ---------- The item loop of complete ----------

  function MoveAll(s: State, from: string, to: string, items: seq<Item>, id: string): (t: Trip)
    ensures t.moved <= |items|
    decreases |items|
  {
    if items == [] then Trip(0, s)
    else
      match Apply(s, TransferStock(items[0].product, from, to, items[0].quantity, id))
      case Refused(s') => Trip(0, s')
      case Done(s') =>
        var rest := MoveAll(s', from, to, items[1..], id);
        Trip(1 + rest.moved, rest.stock)
  }

  function SumFor(items: seq<Item>, p: string): int {
    if items == [] then 0
    else (if items[0].product == p then items[0].quantity else 0) + SumFor(items[1..], p)
  }

  predicate Positive(items: seq<Item>) {
    forall i | 0 <= i < |items| :: 1 <= items[i].quantity
  }

  function AvailableAt(s: State, warehouse: string, p: string): int {
    RowAt(s.rows, Key(warehouse, p)).available
  }

  /** The organisation's stock of a product over a list of its warehouses. */
  function TotalOver(s: State, warehouses: seq<string>, p: string): int {
    if warehouses == [] then 0
    else AvailableAt(s, warehouses[0], p) + TotalOver(s, warehouses[1..], p)
  }

  /** The effect of a transfer of the given amount on one warehouse. */
  function Delta(warehouse: string, from: string, to: string, amount: int): int {
    if warehouse == from then -amount else if warehouse == to then amount else 0
  }

  lemma {:induction false} SumForNonNegative(items: seq<Item>, p: string)
    requires Positive(items)
    ensures 0 <= SumFor(items, p)
  {
    if items != [] { SumForNonNegative(items[1..], p); }
  }

  lemma SumForPrefix(items: seq<Item>, n: nat, p: string)
    requires 1 + n <= |items|
    ensures SumFor(items[..1 + n], p) ==
      (if items[0].product == p then items[0].quantity else 0) + SumFor(items[1..][..n], p)
  {
    assert items[..1 + n][1..] == items[1..][..n];
  }

  /** One transferStock call, seen through availableQty and reservedQty. */
  lemma OneMove(s: State, from: string, to: string, item: Item, id: string)
    requires from != to
    ensures var e := Apply(s, TransferStock(item.product, from, to, item.quantity, id));
      && (e.Done? <==> item.quantity <= AvailableAt(s, from, item.product))
      && forall k :: RowAt(e.state.rows, k) ==
           if e.Refused? || k.product != item.product then RowAt(s.rows, k)
           else if k.warehouse == from then Row(RowAt(s.rows, k).available - item.quantity, RowAt(s.rows, k).reserved)
           else if k.warehouse == to then Row(RowAt(s.rows, k).available + item.quantity, RowAt(s.rows, k).reserved)
           else RowAt(s.rows, k)
  {
  }

  lemma {:induction false} SumForAbsent(items: seq<Item>, p: string)
    requires forall item | item in items :: item.product != p
    ensures SumFor(items, p) == 0
  {
    if items != [] { SumForAbsent(items[1..], p); }
  }

  /** Product by product, the source holds what all the items together ask for. */
  predicate Covers(s: State, from: string, items: seq<Item>) {
    forall item | item in items :: SumFor(items, item.product) <= AvailableAt(s, from, item.product)
  }

  lemma CoversTail(s: State, from: string, to: string, items: seq<Item>, id: string)
    requires from != to && Positive(items) && items != []
    requires items[0].quantity <= AvailableAt(s, from, items[0].product)
    ensures Covers(s, from, items) <==>
      Covers(Apply(s, TransferStock(items[0].product, from, to, items[0].quantity, id)).state, from, items[1..])
  {
    var first, rest := items[0], items[1..];
    var s' := Apply(s, TransferStock(first.product, from, to, first.quantity, id)).state;
    OneMove(s, from, to, first, id);
    assert items == [first] + rest;
    if Covers(s, from, items) {
      forall item | item in rest ensures SumFor(rest, item.product) <= AvailableAt(s', from, item.product) {
        assert item in items;
      }
    }
    if Covers(s', from, rest) {
      forall item | item in items ensures SumFor(items, item.product) <= AvailableAt(s, from, item.product) {
        if next :| next in rest && next.product == item.product {
        } else {
          SumForAbsent(rest, item.product);
        }
      }
    }
  }

  /** The loop gets through every item exactly when the source covers their sums. */
  lemma {:induction false} MovesAllIffCovered(s: State, from: string, to: string, items: seq<Item>, id: string)
    requires from != to && Positive(items)
    ensures MoveAll(s, from, to, items, id).moved == |items| <==> Covers(s, from, items)
    decreases |items|
  {
    if items != [] {
      var first, rest := items[0], items[1..];
      var e := Apply(s, TransferStock(first.product, from, to, first.quantity, id));
      OneMove(s, from, to, first, id);
      if e.Done? {
        CoversTail(s, from, to, items, id);
        MovesAllIffCovered(e.state, from, to, rest, id);
      } else {
        SumForNonNegative(rest, first.product);
        assert first in items;
      }
    }
  }

  /** Exactly the moved prefix has left the source and reached the target, whether
      the loop finished or was refused half-way. */
  lemma {:induction false} MovesExactlyPrefix(s: State, from: string, to: string, items: seq<Item>, id: string, k: Key)
    requires from != to
    ensures var t := MoveAll(s, from, to, items, id);
      var sum := SumFor(items[..t.moved], k.product);
      && RowAt(t.stock.rows, k).reserved == RowAt(s.rows, k).reserved
      && RowAt(t.stock.rows, k).available == RowAt(s.rows, k).available
           + Delta(k.warehouse, from, to, sum)
    decreases |items|
  {
    if items != [] {
      var e := Apply(s, TransferStock(items[0].product, from, to, items[0].quantity, id));
      OneMove(s, from, to, items[0], id);
      if e.Done? {
        MovesExactlyPrefix(e.state, from, to, items[1..], id, k);
        var n := MoveAll(e.state, from, to, items[1..], id).moved;
        SumForPrefix(items, n, k.product);
      }
    }
  }

  lemma {:induction false} TotalShift(s: State, t: State, ws: seq<string>, from: string, to: string, p: string,
                                      sum: int)
    requires forall i, j | 0 <= i < j < |ws| :: ws[i] != ws[j]
    requires from != to
    requires forall w :: AvailableAt(t, w, p) == AvailableAt(s, w, p) + Delta(w, from, to, sum)
    ensures TotalOver(t, ws, p) == TotalOver(s, ws, p)
      - (if from in ws then sum else 0) + (if to in ws then sum else 0)
  {
    if ws != [] {
      TotalShift(s, t, ws[1..], from, to, p, sum);
      assert ws == [ws[0]] + ws[1..];
    }
  }

  /** Finished or refused, the loop never changes the organisation's total of any product. */
  lemma MoveAllConserves(s: State, from: string, to: string, items: seq<Item>, id: string, ws: seq<string>, p: string)
    requires from != to && from in ws && to in ws
    requires forall i, j | 0 <= i < j < |ws| :: ws[i] != ws[j]
    ensures TotalOver(MoveAll(s, from, to, items, id).stock, ws, p) == TotalOver(s, ws, p)
  {
    var t := MoveAll(s, from, to, items, id);
    forall w
      ensures AvailableAt(t.stock, w, p) == AvailableAt(s, w, p) + Delta(w, from, to, SumFor(items[..t.moved], p))
    {
      MovesExactlyPrefix(s, from, to, items, id, Key(w, p));
    }
    TotalShift(s, t.stock, ws, from, to, p, SumFor(items[..t.moved], p));
  }

  lemma {:induction false} MoveAllReconciled(s: State, from: string, to: string, items: seq<Item>, id: string)
    requires Reconciled(s) && from != to && Positive(items)
    ensures Reconciled(MoveAll(s, from, to, items, id).stock)
    decreases |items|
  {
    if items != [] {
      var m := TransferStock(items[0].product, from, to, items[0].quantity, id);
      ApplyReconciled(s, m);
      if Apply(s, m).Done? {
        MoveAllReconciled(Apply(s, m).state, from, to, items[1..], id);
      }
    }
  }

  // ---------- The ledger's view of one transfer ----------

  /** What the TRANSFER_OUT entries of a transfer say has left its source. */
  function Shipped(ledger: seq<Entry>, id: string, p: string): int {
    if ledger == [] then 0
    else
      var e := ledger[|ledger| - 1];
      Shipped(ledger[..|ledger| - 1], id, p)
      - if e.kind == TransferOut && e.ref == TransferRef(id) && e.key.product == p then e.quantity else 0
  }

  lemma ShippedAppended(ledger: seq<Entry>, e: Entry, id: string, p: string)
    ensures Shipped(ledger + [e], id, p) == Shipped(ledger, id, p)
      - if e.kind == TransferOut && e.ref == TransferRef(id) && e.key.product == p then e.quantity else 0
  {
    assert (ledger + [e])[..|ledger|] == ledger;
  }

  lemma ShippedByTwo(ledger: seq<Entry>, out: Entry, back: Entry, id: string, p: string)
    requires out.kind == TransferOut && back.kind == TransferIn
    ensures Shipped(ledger + [out, back], id, p) == Shipped(ledger, id, p)
      - if out.ref == TransferRef(id) && out.key.product == p then out.quantity else 0
  {
    assert ledger + [out, back] == ledger + [out] + [back];
    ShippedAppended(ledger + [out], back, id, p);
    ShippedAppended(ledger, out, id, p);
  }

  lemma ShippedByTransfer(s: State, m: Movement, id: string, p: string)
    requires m.TransferStock? && Apply(s, m).Done?
    ensures Shipped(Apply(s, m).state.ledger, id, p) ==
      Shipped(s.ledger, id, p) + if m.transfer == id && m.product == p then m.quantity else 0
  {
    var t, n := Apply(s, m).state, |s.ledger|;
    assert t.ledger == s.ledger + [t.ledger[n], t.ledger[n + 1]];
    ShippedByTwo(s.ledger, t.ledger[n], t.ledger[n + 1], id, p);
  }

  lemma ShippedBySingle(s: State, m: Movement, id: string, p: string)
    requires !m.TransferStock?
    ensures Shipped(Apply(s, m).state.ledger, id, p) == Shipped(s.ledger, id, p)
  {
    ApplyByGuard(s, m);
    if Apply(s, m).Done? { ShippedAppended(s.ledger, Apply(s, m).state.ledger[|s.ledger|], id, p); }
  }

  lemma ShippedByMovement(s: State, m: Movement, id: string, p: string)
    ensures Shipped(Apply(s, m).state.ledger, id, p) == Shipped(s.ledger, id, p)
      + if m.TransferStock? && Apply(s, m).Done? && m.transfer == id && m.product == p then m.quantity else 0
  {
    if !m.TransferStock? {
      ShippedBySingle(s, m, id, p);
    } else if Apply(s, m).Done? {
      ShippedByTransfer(s, m, id, p);
    }
  }

  lemma {:induction false} ShippedByMoveAll(s: State, from: string, to: string, items: seq<Item>, id: string,
                                            other: string, p: string)
    ensures var t := MoveAll(s, from, to, items, id);
      Shipped(t.stock.ledger, other, p) ==
        Shipped(s.ledger, other, p) + if other == id then SumFor(items[..t.moved], p) else 0
    decreases |items|
  {
    if items != [] {
      var m := TransferStock(items[0].product, from, to, items[0].quantity, id);
      ShippedByMovement(s, m, other, p);
      if Apply(s, m).Done? {
        var s' := Apply(s, m).state;
        ShippedByMoveAll(s', from, to, items[1..], id, other, p);
        var n := MoveAll(s', from, to, items[1..], id).moved;
        SumForPrefix(items, n, p);
      }
    }
  }

  // ---------- Service calls and runs ----------

  predicate DistinctProducts(items: seq<Item>) {
    forall i, j | 0 <= i < j < |items| :: items[i].product != items[j].product
  }

  function Step(w: World, c: Call): Answer {
    match c
    case Create(id, source, target, items) =>
      if source == target then Answer(Failure(BadRequest), w)
      else if source !in w.warehouses || target !in w.warehouses then Answer(Failure(NotFound), w)
      else if !DistinctProducts(items) then Answer(Failure(UniqueViolation), w)
      else Answer(Success(()), w.(documents := w.documents[id := Document(source, target, DRAFT, items)]))
    case Approve(id) =>
      if id !in w.documents then Answer(Failure(NotFound), w)
      else if w.documents[id].status != DRAFT then Answer(Failure(BadRequest), w)
      else Answer(Success(()), w.(documents := w.documents[id := w.documents[id].(status := IN_TRANSIT)]))
    case Complete(id) =>
      if id !in w.documents then Answer(Failure(NotFound), w)
      else
        var d := w.documents[id];
        if d.status != IN_TRANSIT then Answer(Failure(BadRequest), w)
        else
          var t := MoveAll(w.stock, d.source, d.target, d.items, id);
          if t.moved < |d.items| then Answer(Failure(BadRequest), w.(stock := t.stock))
          else Answer(Success(()), w.(stock := t.stock, documents := w.documents[id := d.(status := COMPLETED)]))
    case Cancel(id) =>
      if id !in w.documents then Answer(Failure(NotFound), w)
      else if w.documents[id].status in {COMPLETED, CANCELLED} then Answer(Failure(BadRequest), w)
      else Answer(Success(()), w.(documents := w.documents[id := w.documents[id].(status := CANCELLED)]))
    case Move(m) =>
      var e := Apply(w.stock, m);
      Answer(if e.Done? then Success(()) else Failure(BadRequest), w.(stock := e.state))
  }

  /** Ids are fresh, the DTOs demand positive quantities, and only complete calls
      transferStock. */
  predicate Legal(w: World, c: Call) {
    match c
    case Create(id, _, _, items) => id !in w.documents && Positive(items)
    case Move(m) => Admissible(m) && !m.TransferStock?
    case _ => true
  }

  function Run(w: World, calls: seq<Call>): World
    decreases |calls|
  {
    if calls == [] then w else Run(Step(w, calls[0]).world, calls[1..])
  }

  predicate LegalRun(w: World, calls: seq<Call>)
    decreases |calls|
  {
    calls == [] || (Legal(w, calls[0]) && LegalRun(Step(w, calls[0]).world, calls[1..]))
  }

  ghost predicate DocumentAgrees(w: World, id: string, p: string) {
    var out := Shipped(w.stock.ledger, id, p);
    if id !in w.documents then out == 0
    else
      var d := w.documents[id];
      && d.source != d.target && Positive(d.items)
      && 0 <= out
      && (d.status == DRAFT ==> out == 0)
      && (d.status == COMPLETED ==> SumFor(d.items, p) <= out)
  }

  ghost predicate Valid(w: World) {
    Reconciled(w.stock) && forall id, p :: DocumentAgrees(w, id, p)
  }

  lemma StepValid(w: World, c: Call)
    requires Valid(w) && Legal(w, c)
    ensures Valid(Step(w, c).world)
  {
    var w' := Step(w, c).world;
    if c.Move? {
      ApplyReconciled(w.stock, c.movement);
    }
    if c.Complete? && c.id in w.documents {
      assert DocumentAgrees(w, c.id, "");
      var d := w.documents[c.id];
      MoveAllReconciled(w.stock, d.source, d.target, d.items, c.id);
    }
    forall id, p ensures DocumentAgrees(w', id, p) {
      StepAgrees(w, c, id, p);
    }
  }

  lemma StepAgrees(w: World, c: Call, id: string, p: string)
    requires DocumentAgrees(w, id, p) && Legal(w, c)
    ensures DocumentAgrees(Step(w, c).world, id, p)
  {
    match c
    case Move(m) => ShippedByMovement(w.stock, m, id, p);
    case Complete(cid) =>
      if cid in w.documents {
        var d := w.documents[cid];
        var t := MoveAll(w.stock, d.source, d.target, d.items, cid);
        ShippedByMoveAll(w.stock, d.source, d.target, d.items, cid, id, p);
        if id == cid {
          SumForNonNegative(d.items[..t.moved], p);
          assert t.moved == |d.items| ==> d.items[..t.moved] == d.items;
        }
      }
    case _ =>
  }

  /** Over every run the stock ledger stays reconciled; no draft has shipped anything,
      and a completed transfer has shipped at least what its items ask for. */
  lemma {:induction false} RunValid(w: World, calls: seq<Call>)
    requires Valid(w) && LegalRun(w, calls)
    ensures var t := Run(w, calls);
      && Valid(t)
      && forall id, p | id in t.documents ::
           var d, out := t.documents[id], Shipped(t.stock.ledger, id, p);
           (d.status == DRAFT ==> out == 0) && (d.status == COMPLETED ==> SumFor(d.items, p) <= out)
    decreases |calls|
  {
    if calls == [] {
      forall id, p | id in w.documents
        ensures var d, out := w.documents[id], Shipped(w.stock.ledger, id, p);
          (d.status == DRAFT ==> out == 0) && (d.status == COMPLETED ==> SumFor(d.items, p) <= out)
      {
        assert DocumentAgrees(w, id, p);
      }
    } else {
      StepValid(w, calls[0]);
      RunValid(Step(w, calls[0]).world, calls[1..]);
    }
  }

  lemma FreshWorldValid(warehouses: set<string>)
    ensures Valid(World(State(map[], []), map[], warehouses))
  {
    FreshStateReconciled();
  }

  /** One complete call on a transfer in transit: the exact success condition, and what
      has left the source in either case. A refused call leaves its prefix moved and the
      transfer still in transit. */
  lemma CompleteOutcome(w: World, id: string, p: string)
    requires Valid(w) && id in w.documents && w.documents[id].status == IN_TRANSIT
    ensures var d := w.documents[id];
      var a := Step(w, Complete(id));
      var n := MoveAll(w.stock, d.source, d.target, d.items, id).moved;
      && (a.result.Success? <==> Covers(w.stock, d.source, d.items))
      && a.world.documents == w.documents[id := d.(status := if a.result.Success? then COMPLETED else IN_TRANSIT)]
      && (a.result.Failure? ==> n < |d.items|)
      && Shipped(a.world.stock.ledger, id, p) == Shipped(w.stock.ledger, id, p)
           + SumFor(if a.result.Success? then d.items else d.items[..n], p)
  {
    assert DocumentAgrees(w, id, p);
    var d := w.documents[id];
    MovesAllIffCovered(w.stock, d.source, d.target, d.items, id);
    ShippedByMoveAll(w.stock, d.source, d.target, d.items, id, id, p);
    assert d.items[..|d.items|] == d.items;
    assert w.documents == w.documents[id := d];
  }

  /** What a refused complete call on the transfer has moved for nothing. */
  function Wasted(w: World, c: Call, id: string, p: string): int {
    if c.Complete? && c.id == id && id in w.documents && w.documents[id].status == IN_TRANSIT then
      var d := w.documents[id];
      var n := MoveAll(w.stock, d.source, d.target, d.items, id).moved;
      if n < |d.items| then SumFor(d.items[..n], p) else 0
    else 0
  }

  function WastedIn(w: World, calls: seq<Call>, id: string, p: string): int
    decreases |calls|
  {
    if calls == [] then 0 else Wasted(w, calls[0], id, p) + WastedIn(Step(w, calls[0]).world, calls[1..], id, p)
  }

  predicate IsCompleted(w: World, id: string) { id in w.documents && w.documents[id].status == COMPLETED }

  function ItemsOf(w: World, id: string): seq<Item> { if id in w.documents then w.documents[id].items else [] }

  lemma CompleteShips(w: World, cid: string, id: string, p: string)
    ensures var c := Complete(cid);
      var t := Step(w, c).world;
      Shipped(t.stock.ledger, id, p) - Shipped(w.stock.ledger, id, p) == Wasted(w, c, id, p)
        + if IsCompleted(t, id) && !IsCompleted(w, id) then SumFor(ItemsOf(t, id), p) else 0
  {
    if cid in w.documents && w.documents[cid].status == IN_TRANSIT {
      var d := w.documents[cid];
      ShippedByMoveAll(w.stock, d.source, d.target, d.items, cid, id, p);
      assert d.items[..|d.items|] == d.items;
    }
  }

  /** Documents keep their items, and completed ones stay completed. */
  lemma StepKeepsDocument(w: World, c: Call, id: string)
    requires Legal(w, c)
    ensures var t := Step(w, c).world;
      && (id in w.documents ==> id in t.documents && ItemsOf(t, id) == ItemsOf(w, id))
      && (IsCompleted(w, id) ==> IsCompleted(t, id))
      && (IsCompleted(t, id) && !c.Complete? ==> IsCompleted(w, id))
  {
  }

  lemma StepShips(w: World, c: Call, id: string, p: string)
    requires Legal(w, c)
    ensures var t := Step(w, c).world;
      Shipped(t.stock.ledger, id, p) - Shipped(w.stock.ledger, id, p) == Wasted(w, c, id, p)
        + if IsCompleted(t, id) && !IsCompleted(w, id) then SumFor(ItemsOf(t, id), p) else 0
  {
    match c
    case Move(m) => ShippedByMovement(w.stock, m, id, p);
    case Complete(cid) => CompleteShips(w, cid, id, p);
    case _ => StepKeepsDocument(w, c, id);
  }

  /** Over every run a transfer ships what its refused attempts moved, plus its items once
      when it is completed. */
  lemma {:induction false} RunShipsExactly(w: World, calls: seq<Call>, id: string, p: string)
    requires LegalRun(w, calls)
    ensures var t := Run(w, calls);
      && Shipped(t.stock.ledger, id, p) - Shipped(w.stock.ledger, id, p) == WastedIn(w, calls, id, p)
           + (if IsCompleted(t, id) && !IsCompleted(w, id) then SumFor(ItemsOf(t, id), p) else 0)
      && (id in w.documents ==> id in t.documents && ItemsOf(t, id) == ItemsOf(w, id))
      && (IsCompleted(w, id) ==> IsCompleted(t, id))
    decreases |calls|
  {
    if calls != [] {
      StepShips(w, calls[0], id, p);
      StepKeepsDocument(w, calls[0], id);
      RunShipsExactly(Step(w, calls[0]).world, calls[1..], id, p);
    }
  }

  /** A transfer that is new at the start and completed in the end has shipped exactly its
      items if and only if its refused attempts moved nothing. */
  lemma CompletedShipsItemsIffNothingWasted(w: World, calls: seq<Call>, id: string, p: string)
    requires Valid(w) && LegalRun(w, calls)
    requires id !in w.documents || w.documents[id].status == DRAFT
    requires IsCompleted(Run(w, calls), id)
    ensures var t := Run(w, calls);
      Shipped(t.stock.ledger, id, p) == SumFor(ItemsOf(t, id), p) <==> WastedIn(w, calls, id, p) == 0
  {
    assert DocumentAgrees(w, id, p);
    RunShipsExactly(w, calls, id, p);
  }

  /** A refused attempt moves nothing exactly when already the first item was short. */
  lemma NothingWastedIffFirstItemShort(w: World, id: string)
    requires Valid(w) && id in w.documents && w.documents[id].status == IN_TRANSIT
    requires Step(w, Complete(id)).result.Failure?
    ensures var d := w.documents[id];
      (forall p :: Wasted(w, Complete(id), id, p) == 0)
        <==> AvailableAt(w.stock, d.source, d.items[0].product) < d.items[0].quantity
  {
    var d := w.documents[id];
    var n := MoveAll(w.stock, d.source, d.target, d.items, id).moved;
    assert DocumentAgrees(w, id, "");
    OneMove(w.stock, d.source, d.target, d.items[0], id);
    if n > 0 {
      var first := d.items[0].product;
      assert d.items[..n][0] == d.items[0];
      SumForNonNegative(d.items[..n][1..], first);
      assert Wasted(w, Complete(id), id, first) > 0;
    } else {
      assert d.items[..0] == [];
    }
  }

  predicate ShortOfFirst(w: World, id: string) {
    var items := ItemsOf(w, id);
    items != [] && AvailableAt(w.stock, w.documents[id].source, items[0].product) < items[0].quantity
  }

  /** The call is a complete of the transfer, and the stock refuses it. */
  predicate IsRefusedAttempt(w: World, c: Call, id: string) {
    && c == Complete(id) && id in w.documents && w.documents[id].status == IN_TRANSIT
    && Step(w, c).result.Failure?
  }

  /** Every refused attempt of the run finds the source short of the first item already. */
  predicate RefusedAtFirstItem(w: World, calls: seq<Call>, id: string)
    decreases |calls|
  {
    calls == [] ||
    ((IsRefusedAttempt(w, calls[0], id) ==> ShortOfFirst(w, id))
     && RefusedAtFirstItem(Step(w, calls[0]).world, calls[1..], id))
  }

  lemma WastedNonNegative(w: World, c: Call, id: string, p: string)
    requires Valid(w)
    ensures 0 <= Wasted(w, c, id, p)
  {
    if id in w.documents && w.documents[id].status == IN_TRANSIT {
      var d := w.documents[id];
      assert DocumentAgrees(w, id, p);
      SumForNonNegative(d.items[..MoveAll(w.stock, d.source, d.target, d.items, id).moved], p);
    }
  }

  lemma {:induction false} WastedInNonNegative(w: World, calls: seq<Call>, id: string, p: string)
    requires Valid(w) && LegalRun(w, calls)
    ensures 0 <= WastedIn(w, calls, id, p)
    decreases |calls|
  {
    if calls != [] {
      WastedNonNegative(w, calls[0], id, p);
      StepValid(w, calls[0]);
      WastedInNonNegative(Step(w, calls[0]).world, calls[1..], id, p);
    }
  }

  ghost predicate WastesNothing(w: World, c: Call, id: string) { forall p :: Wasted(w, c, id, p) == 0 }

  ghost predicate RunWastesNothing(w: World, calls: seq<Call>, id: string) {
    forall p :: WastedIn(w, calls, id, p) == 0
  }

  lemma StepWastesNothingIff(w: World, c: Call, id: string)
    requires Valid(w) && Legal(w, c)
    ensures WastesNothing(w, c, id) <==> (IsRefusedAttempt(w, c, id) ==> ShortOfFirst(w, id))
  {
    if IsRefusedAttempt(w, c, id) { NothingWastedIffFirstItemShort(w, id); }
  }

  lemma RunWastesNothingIff(w: World, calls: seq<Call>, id: string)
    requires Valid(w) && LegalRun(w, calls) && calls != []
    ensures RunWastesNothing(w, calls, id) <==>
      WastesNothing(w, calls[0], id) && RunWastesNothing(Step(w, calls[0]).world, calls[1..], id)
  {
    var w', rest := Step(w, calls[0]).world, calls[1..];
    StepValid(w, calls[0]);
    forall p
      ensures WastedIn(w, calls, id, p) == Wasted(w, calls[0], id, p) + WastedIn(w', rest, id, p)
      ensures 0 <= Wasted(w, calls[0], id, p) && 0 <= WastedIn(w', rest, id, p)
    {
      WastedNonNegative(w, calls[0], id, p);
      WastedInNonNegative(w', rest, id, p);
    }
    if RunWastesNothing(w, calls, id) {
      forall p ensures Wasted(w, calls[0], id, p) == 0 && WastedIn(w', rest, id, p) == 0 {
        assert WastedIn(w, calls, id, p) == 0;
      }
    }
  }

  lemma {:induction false} NothingWastedIffRefusedAtFirstItem(w: World, calls: seq<Call>, id: string)
    requires Valid(w) && LegalRun(w, calls)
    ensures RunWastesNothing(w, calls, id) <==> RefusedAtFirstItem(w, calls, id)
    decreases |calls|
  {
    if calls != [] {
      StepValid(w, calls[0]);
      StepWastesNothingIff(w, calls[0], id);
      RunWastesNothingIff(w, calls, id);
      NothingWastedIffRefusedAtFirstItem(Step(w, calls[0]).world, calls[1..], id);
    }
  }

  ghost predicate ShipsItsItems(w: World, id: string) {
    forall p :: Shipped(w.stock.ledger, id, p) == SumFor(ItemsOf(w, id), p)
  }

  /** A transfer that is new at the start and completed in the end has shipped exactly its
      items, of every product, if and only if each refused attempt found the source short
      of the first item. */
  lemma CompletedShipsItemsIffRefusedAtFirstItem(w: World, calls: seq<Call>, id: string)
    requires Valid(w) && LegalRun(w, calls)
    requires id !in w.documents || w.documents[id].status == DRAFT
    requires IsCompleted(Run(w, calls), id)
    ensures ShipsItsItems(Run(w, calls), id) <==> RefusedAtFirstItem(w, calls, id)
  {
    var t := Run(w, calls);
    if RunWastesNothing(w, calls, id) {
      forall p ensures Shipped(t.stock.ledger, id, p) == SumFor(ItemsOf(t, id), p) {
        CompletedShipsItemsIffNothingWasted(w, calls, id, p);
      }
    } else {
      var p :| WastedIn(w, calls, id, p) != 0;
      CompletedShipsItemsIffNothingWasted(w, calls, id, p);
      assert Shipped(t.stock.ledger, id, p) != SumFor(ItemsOf(t, id), p);
    }
    NothingWastedIffRefusedAtFirstItem(w, calls, id);
  }

  lemma {:induction false} OtherMovementsShipNothing(w: World, ms: seq<Movement>, id: string, p: string)
    requires forall m | m in ms :: !m.TransferStock?
    ensures Shipped(Stock.Run(w.stock, ms).ledger, id, p) == Shipped(w.stock.ledger, id, p)
    decreases |ms|
  {
    if ms != [] {
      ShippedByMovement(w.stock, ms[0], id, p);
      OtherMovementsShipNothing(w.(stock := Apply(w.stock, ms[0]).state), ms[1..], id, p);
    }
  }

  /** complete is not idempotent across a failure: when a refused call is retried after
      any other stock movements and succeeds, the prefix of the first try is moved twice. */
  lemma RetryMovesPrefixAgain(w: World, id: string, ms: seq<Movement>, p: string)
    requires Valid(w) && id in w.documents && w.documents[id].status == IN_TRANSIT
    requires forall m | m in ms :: Admissible(m) && !m.TransferStock?
    requires var w1 := Step(w, Complete(id)).world;
      && Step(w, Complete(id)).result.Failure?
      && Step(w1.(stock := Stock.Run(w1.stock, ms)), Complete(id)).result.Success?
    ensures var d := w.documents[id];
      var w1 := Step(w, Complete(id)).world;
      var w2 := Step(w1.(stock := Stock.Run(w1.stock, ms)), Complete(id)).world;
      var n := MoveAll(w.stock, d.source, d.target, d.items, id).moved;
      && w2.documents[id].status == COMPLETED
      && Shipped(w2.stock.ledger, id, p) - Shipped(w.stock.ledger, id, p) ==
           SumFor(d.items[..n], p) + SumFor(d.items, p)
  {
    var w1 := Step(w, Complete(id)).world;
    var t := w1.(stock := Stock.Run(w1.stock, ms));
    CompleteOutcome(w, id, p);
    CompleteShips(w, id, id, p);
    OtherMovementsShipNothing(w1, ms, id, p);
    assert IsCompleted(Step(t, Complete(id)).world, id) && !IsCompleted(t, id);
    CompleteShips(t, id, id, p);
  }

  /** The loop over two items of different products. */
  lemma TwoItemTrip(s: State, from: string, to: string, items: seq<Item>, id: string)
    requires from != to && |items| == 2 && items[0].product != items[1].product
    ensures var t := MoveAll(s, from, to, items, id);
      && t.moved == (if AvailableAt(s, from, items[0].product) < items[0].quantity then 0
                     else if AvailableAt(s, from, items[1].product) < items[1].quantity then 1 else 2)
      && (t.moved == 1 ==>
            && AvailableAt(t.stock, from, items[0].product) ==
                 AvailableAt(s, from, items[0].product) - items[0].quantity
            && AvailableAt(t.stock, from, items[1].product) == AvailableAt(s, from, items[1].product))
  {
    OneMove(s, from, to, items[0], id);
    var e := Apply(s, TransferStock(items[0].product, from, to, items[0].quantity, id));
    if e.Done? {
      OneMove(e.state, from, to, items[1], id);
      assert items[1..][1..] == [];
    }
  }

  /** A transfer of one unit each of two products, with two units of the first at hand. */
  function HalfStocked(id: string, from: string, to: string, p: string, q: string, ref: Reference): World {
    World(Stocked(Key(from, p), ref, 2), map[id := Document(from, to, IN_TRANSIT, [Item(p, 1), Item(q, 1)])],
      {from, to})
  }

  lemma HalfStockedValid(id: string, from: string, to: string, p: string, q: string, ref: Reference)
    requires from != to
    ensures Valid(HalfStocked(id, from, to, p, q, ref))
  {
    var w := HalfStocked(id, from, to, p, q, ref);
    StockedReconciled(Key(from, p), ref, 2);
    forall i, x ensures DocumentAgrees(w, i, x) {
      assert w.stock.ledger == [] + [w.stock.ledger[0]];
      ShippedAppended([], w.stock.ledger[0], i, x);
    }
  }

  /** Two units of the first product leave for a transfer that asks for one. */
  lemma RetryCanShipTwice(id: string, from: string, to: string, p: string, q: string, ref: Reference)
    requires from != to && p != q
    ensures var w := HalfStocked(id, from, to, p, q, ref);
      var w1 := Step(w, Complete(id)).world;
      var w2 := w1.(stock := Stock.Run(w1.stock, [IncreaseStock(Key(from, q), 1, ref)]));
      var a := Step(w2, Complete(id));
      && Valid(w) && Step(w, Complete(id)).result.Failure? && a.result.Success?
      && Shipped(a.world.stock.ledger, id, p) == 2 && SumFor(w.documents[id].items, p) == 1
  {
    var w, items := HalfStocked(id, from, to, p, q, ref), [Item(p, 1), Item(q, 1)];
    var w1, m := Step(w, Complete(id)).world, IncreaseStock(Key(from, q), 1, ref);
    HalfStockedValid(id, from, to, p, q, ref);
    TwoItemTrip(w.stock, from, to, items, id);
    RunOfOne(w1.stock, m);
    var w2 := w1.(stock := Stock.Run(w1.stock, [m]));
    TwoItemTrip(w2.stock, from, to, items, id);
    RetryMovesPrefixAgain(w, id, [m], p);
    assert items[1..] == [Item(q, 1)] && items[1..][1..] == [];
    assert items[..1] == [Item(p, 1)] && items[..1][1..] == [];
    assert w.stock.ledger == [] + [w.stock.ledger[0]];
    ShippedAppended([], w.stock.ledger[0], id, p);
  }

  // ---------- What each call does ----------

  /** A stock movement of another service changes the stock only. */
  lemma MoveEffect(w: World, m: Movement)
    ensures var a, e := Step(w, Move(m)), Apply(w.stock, m);
      && a.world == w.(stock := e.state) && (a.result.Success? <==> e.Done?)
  {
  }

  /** Only the document of the id has changed. */
  predicate OnlyDocument(w: World, t: World, id: string) {
    && t.stock == w.stock && t.warehouses == w.warehouses
    && t.documents.Keys == w.documents.Keys + {id}
    && forall other | other in w.documents && other != id :: t.documents[other] == w.documents[other]
  }

  /** No product is named by two items. */
  predicate NamedOnce(items: seq<Item>) {
    forall i, j | 0 <= i < |items| && 0 <= j < |items| && items[i].product == items[j].product :: i == j
  }

  /** create stores exactly what was asked for, as a draft. */
  lemma CreateEffect(w: World, id: string, source: string, target: string, items: seq<Item>)
    ensures var a := Step(w, Create(id, source, target, items));
      && (a.result.Success? <==> source != target && {source, target} <= w.warehouses && NamedOnce(items))
      && (a.result.Failure? ==>
            && a.world == w
            && a.result.error == (if source == target then BadRequest
                 else if {source, target} <= w.warehouses then UniqueViolation else NotFound))
      && (a.result.Success? ==>
            && OnlyDocument(w, a.world, id)
            && a.world.documents[id].source == source && a.world.documents[id].target == target
            && a.world.documents[id].items == items && a.world.documents[id].status == DRAFT)
  {
  }

  lemma ApproveEffect(w: World, id: string)
    ensures var a := Step(w, Approve(id));
      && (a.result.Success? <==> id in w.documents && w.documents[id].status == DRAFT)
      && (a.result.Failure? ==>
            && a.world == w
            && a.result.error == (if id in w.documents then BadRequest else NotFound))
      && (a.result.Success? ==>
            && OnlyDocument(w, a.world, id) && a.world.documents[id].status == IN_TRANSIT
            && a.world.documents[id].(status := DRAFT) == w.documents[id])
  {
  }

  /** cancel is possible until completion and moves no stock. */
  lemma CancelEffect(w: World, id: string)
    ensures var a := Step(w, Cancel(id));
      && (a.result.Success? <==> id in w.documents && w.documents[id].status in {DRAFT, IN_TRANSIT})
      && (a.result.Failure? ==>
            && a.world == w
            && a.result.error == (if id in w.documents then BadRequest else NotFound))
      && (a.result.Success? ==>
            && OnlyDocument(w, a.world, id) && a.world.documents[id].status == CANCELLED
            && a.world.documents[id].(status := w.documents[id].status) == w.documents[id])
  {
    if id in w.documents {
      var status := w.documents[id].status;
      assert status.DRAFT? || status.IN_TRANSIT? || status.COMPLETED? || status.CANCELLED?;
    }
  }

  /** complete is for transfers in transit. */
  lemma CompleteRefusals(w: World, id: string)
    ensures var a := Step(w, Complete(id));
      && (id !in w.documents ==> a == Answer(Failure(NotFound), w))
      && (id in w.documents && w.documents[id].status != IN_TRANSIT ==> a == Answer(Failure(BadRequest), w))
      && (id in w.documents && a.result.Failure? ==>
            a.result.error == BadRequest && a.world.documents == w.documents)
  {
  }

  /** A completed transfer has taken each product's quantity from its source to its target
      and touched no other quantity. */
  lemma CompleteEffect(w: World, id: string, k: Key)
    requires id in w.documents && Step(w, Complete(id)).result.Success?
    requires w.documents[id].source != w.documents[id].target
    ensures var d, t := w.documents[id], Step(w, Complete(id)).world;
      var q := SumFor(d.items, k.product);
      && d.status == IN_TRANSIT && t.documents == w.documents[id := d.(status := COMPLETED)]
      && RowAt(t.stock.rows, k).reserved == RowAt(w.stock.rows, k).reserved
      && RowAt(t.stock.rows, k).available == RowAt(w.stock.rows, k).available
           + if k.warehouse == d.source then -q else if k.warehouse == d.target then q else 0
  {
    var d := w.documents[id];
    MovesExactlyPrefix(w.stock, d.source, d.target, d.items, id, k);
    assert d.items[..|d.items|] == d.items;
    assert MoveAll(w.stock, d.source, d.target, d.items, id).moved == |d.items|;
  }

  /** From the request to the shelves: creating, approving and completing a transfer takes
      what was asked for from the warehouse named as source to the one named as target. */
  lemma RequestIsDelivered(w: World, id: string, source: string, target: string, items: seq<Item>, k: Key)
    requires Legal(w, Create(id, source, target, items))
    requires var a := Step(w, Create(id, source, target, items));
      var b := Step(a.world, Approve(id));
      a.result.Success? && b.result.Success? && Step(b.world, Complete(id)).result.Success?
    ensures var b := Step(Step(w, Create(id, source, target, items)).world, Approve(id)).world;
      var t, q := Step(b, Complete(id)).world, SumFor(items, k.product);
      && RowAt(t.stock.rows, k).reserved == RowAt(w.stock.rows, k).reserved
      && RowAt(t.stock.rows, k).available == RowAt(w.stock.rows, k).available
           + if k.warehouse == source then -q else if k.warehouse == target then q else 0
  {
    var a := Step(w, Create(id, source, target, items)).world;
    CreateEffect(w, id, source, target, items);
    ApproveEffect(a, id);
    CompleteEffect(Step(a, Approve(id)).world, id, k);
  }

  // ---------- The service ----------

  class TransferService {
    const stock: StockService
    var documents: map<string, Document>
    const warehouses: set<string>

    constructor (stock: StockService, warehouses: set<string>)
      ensures this.stock == stock && this.warehouses == warehouses && documents == map[]
    {
      this.stock, this.warehouses, documents := stock, warehouses, map[];
    }

    ghost function Snapshot(): World
      reads this, stock
    {
      World(stock.Snapshot(), documents, warehouses)
    }

    method Create(id: string, source: string, target: string, items: seq<Item>) returns (r: Result<()>)
      modifies this
      ensures Answer(r, Snapshot()) == Step(old(Snapshot()), Call.Create(id, source, target, items))
    {
      if source == target {
        return Failure(BadRequest);
      }
      if source !in warehouses || target !in warehouses {
        return Failure(NotFound);
      }
      if !DistinctProducts(items) {
        return Failure(UniqueViolation);
      }
      documents := documents[id := Document(source, target, DRAFT, items)];
      r := Success(());
    }

    method Approve(id: string) returns (r: Result<()>)
      modifies this
      ensures Answer(r, Snapshot()) == Step(old(Snapshot()), Call.Approve(id))
    {
      if id !in documents {
        return Failure(NotFound);
      }
      if documents[id].status != DRAFT {
        return Failure(BadRequest);
      }
      documents := documents[id := documents[id].(status := IN_TRANSIT)];
      r := Success(());
    }

    method Complete(id: string) returns (r: Result<()>)
      modifies this, stock
      ensures Answer(r, Snapshot()) == Step(old(Snapshot()), Call.Complete(id))
    {
      if id !in documents {
        return Failure(NotFound);
      }
      var d := documents[id];
      if d.status != IN_TRANSIT {
        return Failure(BadRequest);
      }
      ghost var before := stock.Snapshot();
      var i := 0;
      while i < |d.items|
        invariant 0 <= i <= |d.items|
        invariant documents == old(documents)
        invariant MoveAll(before, d.source, d.target, d.items, id) ==
          var rest := MoveAll(stock.Snapshot(), d.source, d.target, d.items[i..], id);
          Trip(i + rest.moved, rest.stock)
      {
        assert d.items[i..][1..] == d.items[i + 1..];
        var ok := stock.Transfer(d.items[i].product, d.source, d.target, d.items[i].quantity, id);
        if !ok {
          return Failure(BadRequest);
        }
        i := i + 1;
      }
      documents := documents[id := d.(status := COMPLETED)];
      r := Success(());
    }

    method Cancel(id: string) returns (r: Result<()>)
      modifies this
      ensures Answer(r, Snapshot()) == Step(old(Snapshot()), Call.Cancel(id))
    {
      if id !in documents {
        return Failure(NotFound);
      }
      if documents[id].status == COMPLETED || documents[id].status == CANCELLED {
        return Failure(BadRequest);
      }
      documents := documents[id := documents[id].(status := CANCELLED)];
      r := Success(());
    }
  }
}
