/** Stock rows and the append-only stock ledger of one organisation
    (src/inventory/stock/stock.service.ts). Calls are atomic here; the step-by-step
    model is StockInterleaving. */
module Stock {
  import opened Results

  datatype Key = Key(warehouse: string, product: string)

  datatype TxType =
    | Purchase | Sale | TransferIn | TransferOut | Adjustment | Return | Reservation | Release

  datatype Row = Row(available: int, reserved: int)

  datatype Reference = Reference(kind: string, id: Option<string>)

  datatype Entry = Entry(key: Key, kind: TxType, ref: Reference,
                         quantity: int, previousQty: int, newQty: int)

  datatype State = State(rows: map<Key, Row>, ledger: seq<Entry>)

  datatype Movement =
    | ReserveStock(key: Key, quantity: int, ref: Reference)
    | ReleaseStock(key: Key, quantity: int, ref: Reference)
    | IncreaseStock(key: Key, quantity: int, ref: Reference)
    | DecreaseStock(key: Key, quantity: int, ref: Reference)
    | AdjustStock(key: Key, quantity: int)
    | TransferStock(product: string, source: string, target: string, quantity: int, transfer: string)

  /** A refused call still leaves behind the rows it opened. */
  datatype Effect = Done(state: State) | Refused(state: State)

  const MANUAL := Reference("Manual", None)

  function TransferRef(transfer: string): Reference { Reference("Transfer", Some(transfer)) }

  /** What getStock reports: zeroes when there is no row. */
  function RowAt(rows: map<Key, Row>, k: Key): Row {
    if k in rows then rows[k] else Row(0, 0)
  }

  /** getOrCreateStock. */
  function Opened(s: State, k: Key): State {
    if k in s.rows then s else s.(rows := s.rows[k := Row(0, 0)])
  }

  /** Change one row by the two deltas and log the change of availableQty. */
  function Booked(s: State, k: Key, kind: TxType, ref: Reference, available: int, reserved: int): State {
    var was := RowAt(s.rows, k);
    var now := Row(was.available + available, was.reserved + reserved);
    State(s.rows[k := now], s.ledger + [Entry(k, kind, ref, available, was.available, now.available)])
  }

  function Transferred(s: State, a: Key, b: Key, q: int, transfer: string): Effect {
    var o := Opened(Opened(s, a), b);
    var source, target := RowAt(o.rows, a), RowAt(o.rows, b);
    if source.available < q then
      Refused(o)
    else
      var rows := o.rows[a := Row(source.available - q, source.reserved)];
      var rows' := rows[b := Row(rows[b].available + q, rows[b].reserved)];
      Done(State(rows', o.ledger + [
        Entry(a, TransferOut, TransferRef(transfer), -q, source.available, source.available - q),
        Entry(b, TransferIn, TransferRef(transfer), q, target.available, rows'[b].available)]))
  }

  function Apply(s: State, m: Movement): Effect {
    match m
    case ReserveStock(k, q, ref) =>
      var o := Opened(s, k);
      if RowAt(o.rows, k).available < q then Refused(o) else Done(Booked(o, k, Reservation, ref, -q, q))
    case ReleaseStock(k, q, ref) =>
      var o := Opened(s, k);
      if RowAt(o.rows, k).reserved < q then Refused(o) else Done(Booked(o, k, Release, ref, q, -q))
    case IncreaseStock(k, q, ref) =>
      Done(Booked(Opened(s, k), k, Purchase, ref, q, 0))
    case DecreaseStock(k, q, ref) =>
      var o := Opened(s, k);
      if RowAt(o.rows, k).available < q then Refused(o) else Done(Booked(o, k, Sale, ref, -q, 0))
    case AdjustStock(k, q) =>
      var o := Opened(s, k);
      if RowAt(o.rows, k).available + q < 0 then Refused(o) else Done(Booked(o, k, Adjustment, MANUAL, q, 0))
    case TransferStock(p, from, to, q, id) =>
      Transferred(s, Key(from, p), Key(to, p), q, id)
  }

  /** The change of availableQty a call on one row makes to it. */
  function Change(m: Movement): int
    requires !m.TransferStock?
  {
    match m
    case ReserveStock(_, q, _) => -q
    case ReleaseStock(_, q, _) => q
    case IncreaseStock(_, q, _) => q
    case DecreaseStock(_, q, _) => -q
    case AdjustStock(_, q) => q
  }

  function HeldChange(m: Movement): int {
    if m.ReserveStock? then m.quantity else if m.ReleaseStock? then -m.quantity else 0
  }

  function KindOf(m: Movement): TxType
    requires !m.TransferStock?
  {
    match m
    case ReserveStock(_, _, _) => Reservation
    case ReleaseStock(_, _, _) => Release
    case IncreaseStock(_, _, _) => Purchase
    case DecreaseStock(_, _, _) => Sale
    case AdjustStock(_, _) => Adjustment
  }

  function RefOf(m: Movement): Reference {
    if m.AdjustStock? then MANUAL else if m.TransferStock? then TransferRef(m.transfer) else m.ref
  }

  /** The guard, evaluated on the row as it was read. */
  predicate Enough(m: Movement, row: Row)
    requires !m.TransferStock?
  {
    match m
    case ReserveStock(_, q, _) => q <= row.available
    case ReleaseStock(_, q, _) => q <= row.reserved
    case IncreaseStock(_, _, _) => true
    case DecreaseStock(_, q, _) => q <= row.available
    case AdjustStock(_, q) => 0 <= row.available + q
  }

  /** Apply in one line: open the row, check the guard, book the change. */
  lemma ApplyByGuard(s: State, m: Movement)
    requires !m.TransferStock?
    ensures var o := Opened(s, m.key);
      Apply(s, m) == if Enough(m, RowAt(o.rows, m.key))
        then Done(Booked(o, m.key, KindOf(m), RefOf(m), Change(m), HeldChange(m))) else Refused(o)
  {
  }

  // ---------- What the ledger says ----------

  /** newQty of the key's last ledger entry, 0 when it has none. */
  function LastQty(ledger: seq<Entry>, k: Key): int {
    if ledger == [] then 0
    else if ledger[|ledger| - 1].key == k then ledger[|ledger| - 1].newQty
    else LastQty(ledger[..|ledger| - 1], k)
  }

  function SumQty(ledger: seq<Entry>, k: Key): int {
    if ledger == [] then 0
    else
      var e := ledger[|ledger| - 1];
      SumQty(ledger[..|ledger| - 1], k) + if e.key == k then e.quantity else 0
  }

  /** Sum of the RESERVATION and RELEASE quantities of a key. */
  function SumHolds(ledger: seq<Entry>, k: Key): int {
    if ledger == [] then 0
    else
      var e := ledger[|ledger| - 1];
      SumHolds(ledger[..|ledger| - 1], k)
      + if e.key == k && (e.kind == Reservation || e.kind == Release) then e.quantity else 0
  }

  /** Every key's entries form a chain that starts at 0. */
  ghost predicate Chained(ledger: seq<Entry>) {
    ledger == [] ||
    (var e := ledger[|ledger| - 1];
     var rest := ledger[..|ledger| - 1];
     Chained(rest) && e.previousQty == LastQty(rest, e.key) && e.newQty == e.previousQty + e.quantity)
  }

  ghost predicate RowReconciled(s: State, k: Key) {
    var row := RowAt(s.rows, k);
    && 0 <= row.available == LastQty(s.ledger, k)
    && 0 <= row.reserved == -SumHolds(s.ledger, k)
  }

  ghost predicate Reconciled(s: State) {
    Chained(s.ledger) && forall k :: RowReconciled(s, k)
  }

  /** The DTOs demand positive quantities (adjust takes any integer), and a transfer
      is only created between two different warehouses. */
  predicate Admissible(m: Movement) {
    && (m.AdjustStock? || 1 <= m.quantity)
    && (m.TransferStock? ==> m.source != m.target)
  }

  // ---------- Theorems ----------

  lemma {:induction false} ChainTelescopes(ledger: seq<Entry>, k: Key)
    requires Chained(ledger)
    ensures LastQty(ledger, k) == SumQty(ledger, k)
  {
    if ledger != [] {
      ChainTelescopes(ledger[..|ledger| - 1], k);
    }
  }

  lemma Appended(ledger: seq<Entry>, e: Entry, k: Key)
    ensures LastQty(ledger + [e], k) == if e.key == k then e.newQty else LastQty(ledger, k)
    ensures SumQty(ledger + [e], k) == SumQty(ledger, k) + if e.key == k then e.quantity else 0
    ensures SumHolds(ledger + [e], k) == SumHolds(ledger, k)
      + if e.key == k && (e.kind == Reservation || e.kind == Release) then e.quantity else 0
    ensures Chained(ledger + [e]) <==>
      Chained(ledger) && e.previousQty == LastQty(ledger, e.key) && e.newQty == e.previousQty + e.quantity
  {
    assert (ledger + [e])[..|ledger|] == ledger;
  }

  lemma OpenedReconciled(s: State, k: Key)
    requires Reconciled(s)
    ensures Reconciled(Opened(s, k))
    ensures forall j :: RowAt(Opened(s, k).rows, j) == RowAt(s.rows, j)
  {
    forall j ensures RowReconciled(Opened(s, k), j) {
      assert RowReconciled(s, j);
    }
  }

  lemma BookedReconciled(s: State, k: Key, kind: TxType, ref: Reference, available: int, reserved: int)
    requires Reconciled(s)
    requires reserved == if kind == Reservation || kind == Release then -available else 0
    requires 0 <= RowAt(s.rows, k).available + available
    requires 0 <= RowAt(s.rows, k).reserved + reserved
    ensures Reconciled(Booked(s, k, kind, ref, available, reserved))
  {
    var t := Booked(s, k, kind, ref, available, reserved);
    assert RowReconciled(s, k);
    forall j ensures RowReconciled(t, j) {
      assert RowReconciled(s, j);
      Appended(s.ledger, t.ledger[|s.ledger|], j);
    }
    Appended(s.ledger, t.ledger[|s.ledger|], k);
  }

  /** One transfer is the booking of its two halves, unless both ends are the same row. */
  lemma TransferIsTwoBookings(s: State, a: Key, b: Key, q: int, id: string)
    requires a != b && Transferred(s, a, b, q, id).Done?
    ensures Transferred(s, a, b, q, id).state ==
      Booked(Booked(Opened(Opened(s, a), b), a, TransferOut, TransferRef(id), -q, 0),
             b, TransferIn, TransferRef(id), q, 0)
  {
  }

  lemma TransferredReconciled(s: State, a: Key, b: Key, q: int, id: string)
    requires Reconciled(s) && a != b && 1 <= q
    ensures Reconciled(Transferred(s, a, b, q, id).state)
  {
    OpenedReconciled(s, a);
    OpenedReconciled(Opened(s, a), b);
    var o := Opened(Opened(s, a), b);
    assert RowReconciled(o, a) && RowReconciled(o, b);
    if Transferred(s, a, b, q, id).Done? {
      TransferIsTwoBookings(s, a, b, q, id);
      BookedReconciled(o, a, TransferOut, TransferRef(id), -q, 0);
      var half := Booked(o, a, TransferOut, TransferRef(id), -q, 0);
      assert RowReconciled(half, b);
      BookedReconciled(half, b, TransferIn, TransferRef(id), q, 0);
    }
  }

  /** Opening a row and booking a movement that leaves neither quantity negative. */
  lemma MovementReconciled(s: State, k: Key, kind: TxType, ref: Reference, available: int, reserved: int)
    requires Reconciled(s)
    requires reserved == if kind == Reservation || kind == Release then -available else 0
    requires 0 <= RowAt(s.rows, k).available + available
    requires 0 <= RowAt(s.rows, k).reserved + reserved
    ensures Reconciled(Booked(Opened(s, k), k, kind, ref, available, reserved))
  {
    OpenedReconciled(s, k);
    BookedReconciled(Opened(s, k), k, kind, ref, available, reserved);
  }

  lemma ApplySingleReconciled(s: State, m: Movement)
    requires Reconciled(s) && Admissible(m) && !m.TransferStock? && Apply(s, m).Done?
    ensures Reconciled(Apply(s, m).state)
  {
    assert RowReconciled(s, m.key);
    ApplyByGuard(s, m);
    MovementReconciled(s, m.key, KindOf(m), RefOf(m), Change(m), HeldChange(m));
  }

  lemma ApplyReconciled(s: State, m: Movement)
    requires Reconciled(s) && Admissible(m)
    ensures Reconciled(Apply(s, m).state)
  {
    if m.TransferStock? {
      TransferredReconciled(s, Key(m.source, m.product), Key(m.target, m.product), m.quantity, m.transfer);
    } else if Apply(s, m).Done? {
      ApplySingleReconciled(s, m);
    } else {
      OpenedReconciled(s, m.key);
    }
  }

  function Run(s: State, ms: seq<Movement>): State
    decreases |ms|
  {
    if ms == [] then s else Run(Apply(s, ms[0]).state, ms[1..])
  }

  lemma RunOfOne(s: State, m: Movement)
    ensures Run(s, [m]) == Apply(s, m).state
  {
    var t := Apply(s, m).state;
    assert [m][1..] == [];
    assert Run(t, []) == t;
  }

  /** Every atomic run keeps the ledger a chain that ends in the stored quantities. */
  lemma {:induction false} RunReconciled(s: State, ms: seq<Movement>)
    requires Reconciled(s) && forall m | m in ms :: Admissible(m)
    ensures Reconciled(Run(s, ms))
    ensures forall k :: RowAt(Run(s, ms).rows, k).available == SumQty(Run(s, ms).ledger, k)
    decreases |ms|
  {
    if ms == [] {
      forall k ensures RowAt(s.rows, k).available == SumQty(s.ledger, k) {
        assert RowReconciled(s, k);
        ChainTelescopes(s.ledger, k);
      }
    } else {
      ApplyReconciled(s, ms[0]);
      RunReconciled(Apply(s, ms[0]).state, ms[1..]);
    }
  }

  lemma FreshStateReconciled()
    ensures Reconciled(State(map[], []))
  {
    assert forall k :: RowReconciled(State(map[], []), k);
  }

  /** A row that one purchase has filled. */
  function Stocked(k: Key, ref: Reference, q: int): State {
    State(map[k := Row(q, 0)], [Entry(k, Purchase, ref, q, 0, q)])
  }

  lemma StockedReconciled(k: Key, ref: Reference, q: int)
    requires 0 <= q
    ensures Reconciled(Stocked(k, ref, q))
  {
    var s, e := Stocked(k, ref, q), Entry(k, Purchase, ref, q, 0, q);
    assert s.ledger == [] + [e];
    forall j ensures RowReconciled(s, j) { Appended([], e, j); }
    Appended([], e, k);
  }

  /** transferStock does not itself refuse a transfer onto the same row; it keeps the
      chain exactly when the two warehouses differ. */
  lemma TransferKeepsChainIffDistinct(s: State, p: string, from: string, to: string, q: int, id: string)
    requires Reconciled(s) && 1 <= q
    requires Apply(s, TransferStock(p, from, to, q, id)).Done?
    ensures Reconciled(Apply(s, TransferStock(p, from, to, q, id)).state) <==> from != to
  {
    var m := TransferStock(p, from, to, q, id);
    if from != to {
      ApplyReconciled(s, m);
    } else {
      var a := Key(from, p);
      var o := Opened(s, a);
      var t := Apply(s, m).state;
      var out, back := t.ledger[|t.ledger| - 2], t.ledger[|t.ledger| - 1];
      assert t.ledger == o.ledger + [out] + [back];
      Appended(o.ledger + [out], back, a);
      Appended(o.ledger, out, a);
    }
  }

  // ---------- What each call does ----------

  /** Only the row of k has changed, and that is what it is now. */
  ghost predicate RowBecomes(s: State, t: State, k: Key, row: Row) {
    RowAt(t.rows, k) == row && forall j | j != k :: RowAt(t.rows, j) == RowAt(s.rows, j)
  }

  /** No quantity and no ledger entry has changed. */
  ghost predicate NothingMoved(s: State, t: State) {
    t.ledger == s.ledger && forall j :: RowAt(t.rows, j) == RowAt(s.rows, j)
  }

  /** reserve needs the quantity to be available and moves it to reservedQty. */
  lemma ReserveEffect(s: State, k: Key, q: int, ref: Reference)
    ensures var was, e := RowAt(s.rows, k), Apply(s, ReserveStock(k, q, ref));
      if q <= was.available then
        && e.Done? && RowBecomes(s, e.state, k, Row(was.available - q, was.reserved + q))
        && e.state.ledger == s.ledger + [Entry(k, Reservation, ref, -q, was.available, was.available - q)]
      else e.Refused? && NothingMoved(s, e.state)
  {
  }

  /** release needs the quantity to be reserved and moves it back. */
  lemma ReleaseEffect(s: State, k: Key, q: int, ref: Reference)
    ensures var was, e := RowAt(s.rows, k), Apply(s, ReleaseStock(k, q, ref));
      if q <= was.reserved then
        && e.Done? && RowBecomes(s, e.state, k, Row(was.available + q, was.reserved - q))
        && e.state.ledger == s.ledger + [Entry(k, Release, ref, q, was.available, was.available + q)]
      else e.Refused? && NothingMoved(s, e.state)
  {
  }

  lemma IncreaseEffect(s: State, k: Key, q: int, ref: Reference)
    ensures var was, e := RowAt(s.rows, k), Apply(s, IncreaseStock(k, q, ref));
      && e.Done? && RowBecomes(s, e.state, k, Row(was.available + q, was.reserved))
      && e.state.ledger == s.ledger + [Entry(k, Purchase, ref, q, was.available, was.available + q)]
  {
  }

  lemma DecreaseEffect(s: State, k: Key, q: int, ref: Reference)
    ensures var was, e := RowAt(s.rows, k), Apply(s, DecreaseStock(k, q, ref));
      if q <= was.available then
        && e.Done? && RowBecomes(s, e.state, k, Row(was.available - q, was.reserved))
        && e.state.ledger == s.ledger + [Entry(k, Sale, ref, -q, was.available, was.available - q)]
      else e.Refused? && NothingMoved(s, e.state)
  {
  }

  /** adjust, up or down, is refused only when it would leave a negative quantity. */
  lemma AdjustEffect(s: State, k: Key, q: int)
    ensures var was, e := RowAt(s.rows, k), Apply(s, AdjustStock(k, q));
      if 0 <= was.available + q then
        && e.Done? && RowBecomes(s, e.state, k, Row(was.available + q, was.reserved))
        && e.state.ledger == s.ledger + [Entry(k, Adjustment, MANUAL, q, was.available, was.available + q)]
      else e.Refused? && NothingMoved(s, e.state)
  {
  }

  /** transferStock between two warehouses needs the quantity at the source. */
  lemma TransferEffect(s: State, p: string, from: string, to: string, q: int, id: string)
    requires from != to
    ensures var a, b, e := Key(from, p), Key(to, p), Apply(s, TransferStock(p, from, to, q, id));
      var source, target := RowAt(s.rows, a), RowAt(s.rows, b);
      if q <= source.available then
        && e.Done?
        && RowAt(e.state.rows, a) == Row(source.available - q, source.reserved)
        && RowAt(e.state.rows, b) == Row(target.available + q, target.reserved)
        && (forall j | j != a && j != b :: RowAt(e.state.rows, j) == RowAt(s.rows, j))
        && e.state.ledger == s.ledger + [
             Entry(a, TransferOut, TransferRef(id), -q, source.available, source.available - q),
             Entry(b, TransferIn, TransferRef(id), q, target.available, target.available + q)]
      else e.Refused? && NothingMoved(s, e.state)
  {
  }

  // ---------- The service ----------

  class StockService {
    var rows: map<Key, Row>
    var ledger: seq<Entry>

    constructor ()
      ensures Snapshot() == State(map[], [])
    {
      rows, ledger := map[], [];
    }

    ghost function Snapshot(): State
      reads this
    {
      State(rows, ledger)
    }

    method GetOrCreateStock(k: Key) returns (row: Row)
      modifies this
      ensures Snapshot() == Opened(old(Snapshot()), k)
      ensures k in rows && row == rows[k]
    {
      if k !in rows {
        rows := rows[k := Row(0, 0)];
      }
      row := rows[k];
    }

    method CreateLedgerEntry(k: Key, kind: TxType, ref: Reference, quantity: int, previousQty: int, newQty: int)
      modifies this`ledger
      ensures ledger == old(ledger) + [Entry(k, kind, ref, quantity, previousQty, newQty)]
    {
      ledger := ledger + [Entry(k, kind, ref, quantity, previousQty, newQty)];
    }

    method Reserve(k: Key, quantity: int, ref: Reference) returns (r: Result<Row>)
      modifies this
      ensures var e := Apply(old(Snapshot()), ReserveStock(k, quantity, ref));
        Snapshot() == e.state && r == if e.Done? then Success(RowAt(rows, k)) else Failure(BadRequest)
    {
      var stock := GetOrCreateStock(k);
      if stock.available < quantity {
        return Failure(BadRequest);
      }
      rows := rows[k := Row(rows[k].available - quantity, rows[k].reserved + quantity)];
      CreateLedgerEntry(k, Reservation, ref, -quantity, stock.available, rows[k].available);
      r := Success(rows[k]);
    }

    method Release(k: Key, quantity: int, ref: Reference) returns (r: Result<Row>)
      modifies this
      ensures var e := Apply(old(Snapshot()), ReleaseStock(k, quantity, ref));
        Snapshot() == e.state && r == if e.Done? then Success(RowAt(rows, k)) else Failure(BadRequest)
    {
      var stock := GetOrCreateStock(k);
      if stock.reserved < quantity {
        return Failure(BadRequest);
      }
      rows := rows[k := Row(rows[k].available + quantity, rows[k].reserved - quantity)];
      CreateLedgerEntry(k, TxType.Release, ref, quantity, stock.available, rows[k].available);
      r := Success(rows[k]);
    }

    method Increase(k: Key, quantity: int, ref: Reference) returns (row: Row)
      modifies this
      ensures Snapshot() == Apply(old(Snapshot()), IncreaseStock(k, quantity, ref)).state
      ensures row == RowAt(rows, k)
    {
      var stock := GetOrCreateStock(k);
      rows := rows[k := Row(rows[k].available + quantity, rows[k].reserved)];
      CreateLedgerEntry(k, Purchase, ref, quantity, stock.available, rows[k].available);
      row := rows[k];
    }

    method Decrease(k: Key, quantity: int, ref: Reference) returns (r: Result<Row>)
      modifies this
      ensures var e := Apply(old(Snapshot()), DecreaseStock(k, quantity, ref));
        Snapshot() == e.state && r == if e.Done? then Success(RowAt(rows, k)) else Failure(BadRequest)
    {
      var stock := GetOrCreateStock(k);
      if stock.available < quantity {
        return Failure(BadRequest);
      }
      rows := rows[k := Row(rows[k].available - quantity, rows[k].reserved)];
      CreateLedgerEntry(k, Sale, ref, -quantity, stock.available, rows[k].available);
      r := Success(rows[k]);
    }

    method Adjust(k: Key, quantity: int) returns (r: Result<Row>)
      modifies this
      ensures var e := Apply(old(Snapshot()), AdjustStock(k, quantity));
        Snapshot() == e.state && r == if e.Done? then Success(RowAt(rows, k)) else Failure(BadRequest)
    {
      var stock := GetOrCreateStock(k);
      var newAvailable := stock.available + quantity;
      if newAvailable < 0 {
        return Failure(BadRequest);
      }
      rows := rows[k := Row(newAvailable, rows[k].reserved)];
      CreateLedgerEntry(k, Adjustment, MANUAL, quantity, stock.available, newAvailable);
      r := Success(rows[k]);
    }

    method Transfer(product: string, from: string, to: string, quantity: int, id: string) returns (ok: bool)
      modifies this
      ensures var e := Apply(old(Snapshot()), TransferStock(product, from, to, quantity, id));
        Snapshot() == e.state && ok == e.Done?
    {
      var a, b := Key(from, product), Key(to, product);
      var fromStock := GetOrCreateStock(a);
      var toStock := GetOrCreateStock(b);
      if fromStock.available < quantity {
        return false;
      }
      rows := rows[a := Row(rows[a].available - quantity, rows[a].reserved)];
      var updatedFrom := rows[a];
      rows := rows[b := Row(rows[b].available + quantity, rows[b].reserved)];
      CreateLedgerEntry(a, TransferOut, TransferRef(id), -quantity, fromStock.available, updatedFrom.available);
      CreateLedgerEntry(b, TransferIn, TransferRef(id), quantity, toStock.available, rows[b].available);
      ok := true;
    }
  }
}
