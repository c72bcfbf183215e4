/** The stock calls of src/inventory/stock/stock.service.ts broken into their separate
    database steps: read the row, update it, append the ledger entry. A schedule says
    which call takes its next step, so "every schedule" is every interleaving. */
module StockInterleaving {
  import opened Stock

  /** How far a call has got. A transfer reads both rows, updates both in either order,
      reads the target again, and logs twice. */
  datatype Pc =
    | Start | SawSource | Checked
    | WroteSource | WroteTarget | WroteBoth | Reread | LoggedOut
    | Wrote | Finished | Failed

  /** A call with the values it has read so far: availableQty of its row (or source) and
      target before the update, and after it. */
  datatype Process = Process(call: Movement, pc: Pc, seen: int, seenTarget: int, got: int, gotTarget: int)

  /** overwritten is a history variable: the net change that absolute writes of adjust
      have wiped out. */
  datatype System = System(stock: State, processes: seq<Process>, overwritten: map<Key, int>)

  datatype Turn = Turn(process: nat, targetFirst: bool)

  function SourceKey(m: Movement): Key {
    if m.TransferStock? then Key(m.source, m.product) else m.key
  }

  function TargetKey(m: Movement): Key
    requires m.TransferStock?
  {
    Key(m.target, m.product)
  }

  function Overwritten(y: System, k: Key): int {
    if k in y.overwritten then y.overwritten[k] else 0
  }

  /** An increment or decrement done by the database on the current row. */
  function Incremented(s: State, k: Key, available: int, reserved: int): State {
    var row := RowAt(s.rows, k);
    s.(rows := s.rows[k := Row(row.available + available, row.reserved + reserved)])
  }

  function Logged(s: State, e: Entry): State {
    s.(ledger := s.ledger + [e])
  }

  function With(y: System, i: nat, p: Process, s: State): System
    requires i < |y.processes|
  {
    y.(processes := y.processes[i := p], stock := s)
  }

  /** The next step of a call on a single row. */
  function StepSingle(y: System, i: nat): System
    requires i < |y.processes| && !y.processes[i].call.TransferStock?
  {
    var p := y.processes[i];
    var m := p.call;
    var k := m.key;
    match p.pc
    case Start =>
      var o := Opened(y.stock, k);
      var row := RowAt(o.rows, k);
      With(y, i, p.(pc := if Enough(m, row) then Checked else Failed, seen := row.available), o)
    case Checked =>
      var row := RowAt(y.stock.rows, k);
      if m.AdjustStock? then
        With(y, i, p.(pc := Wrote, got := p.seen + m.quantity),
             y.stock.(rows := y.stock.rows[k := Row(p.seen + m.quantity, row.reserved)]))
        .(overwritten := y.overwritten[k := Overwritten(y, k) + row.available - p.seen])
      else
        With(y, i, p.(pc := Wrote, got := row.available + Change(m)),
             Incremented(y.stock, k, Change(m), HeldChange(m)))
    case Wrote =>
      With(y, i, p.(pc := Finished), Logged(y.stock, Entry(k, KindOf(m), RefOf(m), Change(m), p.seen, p.got)))
    case _ => y
  }

  /** The next step of transferStock; the two updates run concurrently, so either may be first. */
  function StepTransfer(y: System, i: nat, targetFirst: bool): System
    requires i < |y.processes| && y.processes[i].call.TransferStock?
  {
    var p := y.processes[i];
    var m := p.call;
    var a, b, q := SourceKey(m), TargetKey(m), m.quantity;
    match p.pc
    case Start =>
      var o := Opened(y.stock, a);
      With(y, i, p.(pc := SawSource, seen := RowAt(o.rows, a).available), o)
    case SawSource =>
      var o := Opened(y.stock, b);
      With(y, i, p.(pc := if p.seen < q then Failed else Checked, seenTarget := RowAt(o.rows, b).available), o)
    case Checked =>
      if targetFirst then
        With(y, i, p.(pc := WroteTarget), Incremented(y.stock, b, q, 0))
      else
        With(y, i, p.(pc := WroteSource, got := RowAt(y.stock.rows, a).available - q), Incremented(y.stock, a, -q, 0))
    case WroteSource =>
      With(y, i, p.(pc := WroteBoth), Incremented(y.stock, b, q, 0))
    case WroteTarget =>
      With(y, i, p.(pc := WroteBoth, got := RowAt(y.stock.rows, a).available - q), Incremented(y.stock, a, -q, 0))
    case WroteBoth =>
      With(y, i, p.(pc := Reread, gotTarget := RowAt(y.stock.rows, b).available), y.stock)
    case Reread =>
      With(y, i, p.(pc := LoggedOut), Logged(y.stock, Entry(a, TransferOut, RefOf(m), -q, p.seen, p.got)))
    case LoggedOut =>
      With(y, i, p.(pc := Finished), Logged(y.stock, Entry(b, TransferIn, RefOf(m), q, p.seenTarget, p.gotTarget)))
    case _ => y
  }

  function Step(y: System, turn: Turn): (r: System)
    ensures |r.processes| == |y.processes|
  {
    if turn.process >= |y.processes| then y
    else if y.processes[turn.process].call.TransferStock? then StepTransfer(y, turn.process, turn.targetFirst)
    else StepSingle(y, turn.process)
  }

  function Scheduled(y: System, schedule: seq<Turn>): System
    decreases |schedule|
  {
    if schedule == [] then y else Scheduled(Step(y, schedule[0]), schedule[1..])
  }

  function Boot(s: State, calls: seq<Movement>): System {
    System(s, seq(|calls|, i requires 0 <= i < |calls| => Process(calls[i], Start, 0, 0, 0, 0)), map[])
  }

  // ---------- What each step does ----------

  /** Only the quantities of k have changed. */
  ghost predicate OnlyRow(s: State, t: State, k: Key) {
    t.ledger == s.ledger && forall j | j != k :: RowAt(t.rows, j) == RowAt(s.rows, j)
  }

  /** The read step notes the available quantity and evaluates the guard on the row. */
  lemma SingleReads(y: System, i: nat)
    requires i < |y.processes| && !y.processes[i].call.TransferStock? && y.processes[i].pc == Start
    ensures var y', m := StepSingle(y, i), y.processes[i].call;
      var row, p' := RowAt(y.stock.rows, m.key), y'.processes[i];
      && NothingMoved(y.stock, y'.stock) && p'.seen == row.available
      && p'.pc == if (match m
                      case ReserveStock(_, q, _) => q <= row.available
                      case ReleaseStock(_, q, _) => q <= row.reserved
                      case IncreaseStock(_, _, _) => true
                      case DecreaseStock(_, q, _) => q <= row.available
                      case AdjustStock(_, q) => 0 <= row.available + q)
                   then Checked else Failed
  {
  }

  /** The write step changes the row as it is then, but adjust writes what it has read
      plus its quantity; what is left in the row is noted. */
  lemma SingleWrites(y: System, i: nat)
    requires i < |y.processes| && !y.processes[i].call.TransferStock? && y.processes[i].pc == Checked
    ensures var y', p := StepSingle(y, i), y.processes[i];
      var m, p' := p.call, y'.processes[i];
      var was, now := RowAt(y.stock.rows, m.key), RowAt(y'.stock.rows, m.key);
      && OnlyRow(y.stock, y'.stock, m.key) && p'.pc == Wrote && p'.got == now.available && p'.seen == p.seen
      && match m
         case ReserveStock(_, q, _) => now == Row(was.available - q, was.reserved + q)
         case ReleaseStock(_, q, _) => now == Row(was.available + q, was.reserved - q)
         case IncreaseStock(_, q, _) => now == Row(was.available + q, was.reserved)
         case DecreaseStock(_, q, _) => now == Row(was.available - q, was.reserved)
         case AdjustStock(_, q) => now == Row(p.seen + q, was.reserved)
  {
  }

  /** The log step appends what was noted. */
  lemma SingleLogs(y: System, i: nat)
    requires i < |y.processes| && !y.processes[i].call.TransferStock? && y.processes[i].pc == Wrote
    ensures var y', p := StepSingle(y, i), y.processes[i];
      var e := y'.stock.ledger[|y.stock.ledger|];
      && y'.stock.rows == y.stock.rows && y'.stock.ledger == y.stock.ledger + [e] && y'.processes[i].pc == Finished
      && e.key == p.call.key && e.previousQty == p.seen && e.newQty == p.got
      && match p.call
         case ReserveStock(_, q, ref) => e.kind == Reservation && e.ref == ref && e.quantity == -q
         case ReleaseStock(_, q, ref) => e.kind == Release && e.ref == ref && e.quantity == q
         case IncreaseStock(_, q, ref) => e.kind == Purchase && e.ref == ref && e.quantity == q
         case DecreaseStock(_, q, ref) => e.kind == Sale && e.ref == ref && e.quantity == -q
         case AdjustStock(_, q) => e.kind == Adjustment && e.ref == MANUAL && e.quantity == q
  {
  }

  /** transferStock notes each quantity it reads, moves each row relative to what it is
      then, and logs what it has noted. */
  lemma TransferSteps(y: System, i: nat, targetFirst: bool)
    requires i < |y.processes| && y.processes[i].call.TransferStock?
    ensures var y', p := StepTransfer(y, i, targetFirst), y.processes[i];
      var m, p' := p.call, y'.processes[i];
      var a, b, q := Key(m.source, m.product), Key(m.target, m.product), m.quantity;
      var source, target := RowAt(y.stock.rows, a), RowAt(y.stock.rows, b);
      match p.pc
      case Start => NothingMoved(y.stock, y'.stock) && p'.seen == source.available && p'.pc == SawSource
      case SawSource =>
        && NothingMoved(y.stock, y'.stock) && p'.seenTarget == target.available
        && p'.pc == (if q <= p.seen then Checked else Failed)
      case WroteBoth => NothingMoved(y.stock, y'.stock) && p'.gotTarget == target.available && p'.pc == Reread
      case Reread =>
        && y'.stock.rows == y.stock.rows && p'.pc == LoggedOut
        && y'.stock.ledger == y.stock.ledger + [Entry(a, TransferOut, TransferRef(p.call.transfer), -q, p.seen, p.got)]
      case LoggedOut =>
        && y'.stock.rows == y.stock.rows && p'.pc == Finished
        && y'.stock.ledger == y.stock.ledger
             + [Entry(b, TransferIn, TransferRef(p.call.transfer), q, p.seenTarget, p.gotTarget)]
      case _ => true
  {
  }

  lemma TransferWriteSteps(y: System, i: nat, targetFirst: bool)
    requires i < |y.processes| && y.processes[i].call.TransferStock?
    ensures var y', p := StepTransfer(y, i, targetFirst), y.processes[i];
      var m, p' := p.call, y'.processes[i];
      var a, b, q := Key(m.source, m.product), Key(m.target, m.product), m.quantity;
      var source, target := RowAt(y.stock.rows, a), RowAt(y.stock.rows, b);
      && (p.pc == WroteTarget || (p.pc == Checked && !targetFirst) ==>
            && OnlyRow(y.stock, y'.stock, a) && p'.pc == (if p.pc == Checked then WroteSource else WroteBoth)
            && RowAt(y'.stock.rows, a) == Row(source.available - q, source.reserved)
            && p'.got == source.available - q)
      && (p.pc == WroteSource || (p.pc == Checked && targetFirst) ==>
            && OnlyRow(y.stock, y'.stock, b) && p'.pc == (if p.pc == Checked then WroteTarget else WroteBoth)
            && RowAt(y'.stock.rows, b) == Row(target.available + q, target.reserved))
  {
  }

  // ---------- Updates done but not yet logged ----------

  predicate SourceUnlogged(pc: Pc) { pc.WroteSource? || pc.WroteBoth? || pc.Reread? }

  predicate TargetUnlogged(pc: Pc) { pc.WroteTarget? || pc.WroteBoth? || pc.Reread? || pc.LoggedOut? }

  function Pending(p: Process, k: Key): int {
    if p.call.TransferStock? then
      (if SourceKey(p.call) == k && SourceUnlogged(p.pc) then -p.call.quantity else 0)
      + (if TargetKey(p.call) == k && TargetUnlogged(p.pc) then p.call.quantity else 0)
    else if p.call.key == k && p.pc == Wrote then Change(p.call)
    else 0
  }

  function PendingHeld(p: Process, k: Key): int {
    if !p.call.TransferStock? && p.call.key == k && p.pc == Wrote then HeldChange(p.call) else 0
  }

  function SumPending(ps: seq<Process>, k: Key): int {
    if ps == [] then 0 else Pending(ps[0], k) + SumPending(ps[1..], k)
  }

  function SumPendingHeld(ps: seq<Process>, k: Key): int {
    if ps == [] then 0 else PendingHeld(ps[0], k) + SumPendingHeld(ps[1..], k)
  }

  /** Stored quantities minus everything the ledger and the calls in flight account for. */
  function Unexplained(y: System, k: Key): int {
    RowAt(y.stock.rows, k).available + Overwritten(y, k) - SumQty(y.stock.ledger, k) - SumPending(y.processes, k)
  }

  function UnexplainedHeld(y: System, k: Key): int {
    RowAt(y.stock.rows, k).reserved + SumHolds(y.stock.ledger, k) - SumPendingHeld(y.processes, k)
  }

  lemma {:induction false} PendingReplaced(ps: seq<Process>, i: nat, p: Process, k: Key)
    requires i < |ps|
    ensures SumPending(ps[i := p], k) == SumPending(ps, k) - Pending(ps[i], k) + Pending(p, k)
    ensures SumPendingHeld(ps[i := p], k) == SumPendingHeld(ps, k) - PendingHeld(ps[i], k) + PendingHeld(p, k)
  {
    if i == 0 {
      assert ps[i := p][1..] == ps[1..];
    } else {
      assert ps[i := p][1..] == ps[1..][i - 1 := p];
      PendingReplaced(ps[1..], i - 1, p, k);
    }
  }

  lemma LoggedSums(s: State, e: Entry, k: Key)
    ensures SumQty(Logged(s, e).ledger, k) == SumQty(s.ledger, k) + if e.key == k then e.quantity else 0
    ensures SumHolds(Logged(s, e).ledger, k) == SumHolds(s.ledger, k)
      + if e.key == k && (e.kind == Reservation || e.kind == Release) then e.quantity else 0
  {
    Appended(s.ledger, e, k);
  }

  /** What one step does to the account of a key. */
  lemma WithExplained(y: System, i: nat, p: Process, s: State, k: Key)
    requires i < |y.processes|
    ensures Unexplained(With(y, i, p, s), k) == RowAt(s.rows, k).available + Overwritten(y, k) - SumQty(s.ledger, k)
      - SumPending(y.processes, k) + Pending(y.processes[i], k) - Pending(p, k)
    ensures UnexplainedHeld(With(y, i, p, s), k) == RowAt(s.rows, k).reserved + SumHolds(s.ledger, k)
      - SumPendingHeld(y.processes, k) + PendingHeld(y.processes[i], k) - PendingHeld(p, k)
  {
    PendingReplaced(y.processes, i, p, k);
  }

  lemma SingleStepExplained(y: System, i: nat, k: Key)
    requires i < |y.processes| && !y.processes[i].call.TransferStock?
    ensures Unexplained(StepSingle(y, i), k) == Unexplained(y, k)
    ensures UnexplainedHeld(StepSingle(y, i), k) == UnexplainedHeld(y, k)
  {
    var p := y.processes[i];
    var y' := StepSingle(y, i);
    PendingReplaced(y.processes, i, y'.processes[i], k);
    if p.pc == Wrote {
      var m := p.call;
      LoggedSums(y.stock, Entry(m.key, KindOf(m), RefOf(m), Change(m), p.seen, p.got), k);
    }
  }

  predicate Writes(pc: Pc) { pc.Checked? || pc.WroteSource? || pc.WroteTarget? }

  predicate Logs(pc: Pc) { pc.Reread? || pc.LoggedOut? }

  lemma TransferWriteExplained(y: System, i: nat, targetFirst: bool, k: Key)
    requires i < |y.processes| && y.processes[i].call.TransferStock? && Writes(y.processes[i].pc)
    ensures Unexplained(StepTransfer(y, i, targetFirst), k) == Unexplained(y, k)
    ensures UnexplainedHeld(StepTransfer(y, i, targetFirst), k) == UnexplainedHeld(y, k)
  {
    PendingReplaced(y.processes, i, StepTransfer(y, i, targetFirst).processes[i], k);
  }

  /** Logging an entry moves its quantity from pending to the ledger. */
  lemma LogExplained(y: System, i: nat, p: Process, e: Entry, k: Key)
    requires i < |y.processes| && e.kind != Reservation && e.kind != Release
    requires Pending(y.processes[i], k) - Pending(p, k) == if e.key == k then e.quantity else 0
    requires PendingHeld(y.processes[i], k) == PendingHeld(p, k)
    ensures Unexplained(With(y, i, p, Logged(y.stock, e)), k) == Unexplained(y, k)
    ensures UnexplainedHeld(With(y, i, p, Logged(y.stock, e)), k) == UnexplainedHeld(y, k)
  {
    WithExplained(y, i, p, Logged(y.stock, e), k);
    LoggedSums(y.stock, e, k);
  }

  lemma TransferLogExplained(y: System, i: nat, k: Key)
    requires i < |y.processes| && y.processes[i].call.TransferStock? && Logs(y.processes[i].pc)
    ensures Unexplained(StepTransfer(y, i, false), k) == Unexplained(y, k)
    ensures UnexplainedHeld(StepTransfer(y, i, false), k) == UnexplainedHeld(y, k)
  {
    var p := y.processes[i];
    var m := p.call;
    if p.pc == Reread {
      LogExplained(y, i, p.(pc := LoggedOut),
        Entry(SourceKey(m), TransferOut, RefOf(m), -m.quantity, p.seen, p.got), k);
    } else {
      LogExplained(y, i, p.(pc := Finished),
        Entry(TargetKey(m), TransferIn, RefOf(m), m.quantity, p.seenTarget, p.gotTarget), k);
    }
  }

  lemma TransferReadExplained(y: System, i: nat, targetFirst: bool, k: Key)
    requires i < |y.processes| && y.processes[i].call.TransferStock?
    requires !Writes(y.processes[i].pc) && !Logs(y.processes[i].pc)
    ensures Unexplained(StepTransfer(y, i, targetFirst), k) == Unexplained(y, k)
    ensures UnexplainedHeld(StepTransfer(y, i, targetFirst), k) == UnexplainedHeld(y, k)
  {
    var p := y.processes[i];
    var a, b := SourceKey(p.call), TargetKey(p.call);
    if p.pc == Start {
      var o := Opened(y.stock, a);
      WithExplained(y, i, p.(pc := SawSource, seen := RowAt(o.rows, a).available), o, k);
    } else if p.pc == SawSource {
      var o := Opened(y.stock, b);
      var pc := if p.seen < p.call.quantity then Failed else Checked;
      WithExplained(y, i, p.(pc := pc, seenTarget := RowAt(o.rows, b).available), o, k);
    } else if p.pc == WroteBoth {
      WithExplained(y, i, p.(pc := Reread, gotTarget := RowAt(y.stock.rows, b).available), y.stock, k);
    }
  }

  lemma TransferStepExplained(y: System, i: nat, targetFirst: bool, k: Key)
    requires i < |y.processes| && y.processes[i].call.TransferStock?
    ensures Unexplained(StepTransfer(y, i, targetFirst), k) == Unexplained(y, k)
    ensures UnexplainedHeld(StepTransfer(y, i, targetFirst), k) == UnexplainedHeld(y, k)
  {
    var pc := y.processes[i].pc;
    if Writes(pc) {
      TransferWriteExplained(y, i, targetFirst, k);
    } else if Logs(pc) {
      TransferLogExplained(y, i, k);
    } else {
      TransferReadExplained(y, i, targetFirst, k);
    }
  }

  lemma {:induction false} RunExplained(y: System, schedule: seq<Turn>, k: Key)
    ensures Unexplained(Scheduled(y, schedule), k) == Unexplained(y, k)
    ensures UnexplainedHeld(Scheduled(y, schedule), k) == UnexplainedHeld(y, k)
    decreases |schedule|
  {
    if schedule != [] {
      var turn := schedule[0];
      if turn.process < |y.processes| {
        if y.processes[turn.process].call.TransferStock? {
          TransferStepExplained(y, turn.process, turn.targetFirst, k);
        } else {
          SingleStepExplained(y, turn.process, k);
        }
      }
      RunExplained(Step(y, schedule[0]), schedule[1..], k);
    }
  }

  lemma {:induction false} NothingPending(ps: seq<Process>, k: Key)
    requires forall p | p in ps :: p.pc in {Start, Finished, Failed}
    ensures SumPending(ps, k) == 0 && SumPendingHeld(ps, k) == 0
  {
    if ps != [] {
      assert ps[0] in ps;
      NothingPending(ps[1..], k);
    }
  }

  /** Under every interleaving, what a key has gained since the start is what the new
      ledger entries say, plus exactly the updates done but not yet logged, less what
      adjust has overwritten; and the same for the reserved quantity. */
  lemma EveryInterleavingAccounted(s: State, calls: seq<Movement>, schedule: seq<Turn>, k: Key)
    ensures var y := Scheduled(Boot(s, calls), schedule);
      && RowAt(y.stock.rows, k).available - RowAt(s.rows, k).available ==
           SumQty(y.stock.ledger, k) - SumQty(s.ledger, k) + SumPending(y.processes, k) - Overwritten(y, k)
      && RowAt(y.stock.rows, k).reserved - RowAt(s.rows, k).reserved ==
           SumHolds(s.ledger, k) - SumHolds(y.stock.ledger, k) + SumPendingHeld(y.processes, k)
  {
    NothingPending(Boot(s, calls).processes, k);
    RunExplained(Boot(s, calls), schedule, k);
  }

  // ---------- What adjust overwrites ----------

  /** An adjust of k that has read the row and not written it back yet. */
  predicate InWindow(p: Process, k: Key) {
    p.call.AdjustStock? && p.call.key == k && p.pc == Checked
  }

  /** The change a step makes to the available quantity of k. */
  function Moved(y: System, turn: Turn, k: Key): int {
    RowAt(Step(y, turn).stock.rows, k).available - RowAt(y.stock.rows, k).available
  }

  /** The step's change of k, if it falls into call i's window and is made by another call. */
  function StepDrift(y: System, turn: Turn, i: nat, k: Key): int {
    if i < |y.processes| && i != turn.process && InWindow(y.processes[i], k) then Moved(y, turn, k) else 0
  }

  /** What other calls do to k between the read and the write of call i. */
  function Drift(y: System, schedule: seq<Turn>, i: nat, k: Key): int
    decreases |schedule|
  {
    if schedule == [] then 0
    else StepDrift(y, schedule[0], i, k) + Drift(Step(y, schedule[0]), schedule[1..], i, k)
  }

  /** The drifts of the first n calls together. */
  function TotalDrift(y: System, schedule: seq<Turn>, k: Key, n: nat): int {
    if n == 0 then 0 else TotalDrift(y, schedule, k, n - 1) + Drift(y, schedule, n - 1, k)
  }

  function StepDrifts(y: System, turn: Turn, k: Key, n: nat): int {
    if n == 0 then 0 else StepDrifts(y, turn, k, n - 1) + StepDrift(y, turn, n - 1, k)
  }

  /** How far the row has moved from what an adjust in its window has read. */
  function Lead(y: System, i: nat, k: Key): int {
    if i < |y.processes| && InWindow(y.processes[i], k)
      then RowAt(y.stock.rows, k).available - y.processes[i].seen else 0
  }

  function Leads(y: System, k: Key, n: nat): int {
    if n == 0 then 0 else Leads(y, k, n - 1) + Lead(y, n - 1, k)
  }

  /** A step wipes out the lead of the call that takes it, and no other call's. */
  lemma OwnLead(y: System, turn: Turn, k: Key)
    ensures |Step(y, turn).processes| == |y.processes|
    ensures Overwritten(Step(y, turn), k) - Overwritten(y, k) ==
      Lead(y, turn.process, k) - Lead(Step(y, turn), turn.process, k)
  {
  }

  lemma OtherLead(y: System, turn: Turn, i: nat, k: Key)
    requires i != turn.process
    ensures Lead(Step(y, turn), i, k) == Lead(y, i, k) + StepDrift(y, turn, i, k)
  {
    assert i < |y.processes| ==> Step(y, turn).processes[i] == y.processes[i];
  }

  lemma {:induction false} LeadsMove(y: System, turn: Turn, k: Key, n: nat)
    ensures Leads(Step(y, turn), k, n) == Leads(y, k, n) + StepDrifts(y, turn, k, n)
      + if turn.process < n then Overwritten(y, k) - Overwritten(Step(y, turn), k) else 0
  {
    if n > 0 {
      LeadsMove(y, turn, k, n - 1);
      if turn.process == n - 1 { OwnLead(y, turn, k); } else { OtherLead(y, turn, n - 1, k); }
    }
  }

  lemma {:induction false} DriftSplits(y: System, schedule: seq<Turn>, k: Key, n: nat)
    requires schedule != []
    ensures TotalDrift(y, schedule, k, n) ==
      StepDrifts(y, schedule[0], k, n) + TotalDrift(Step(y, schedule[0]), schedule[1..], k, n)
  {
    if n > 0 { DriftSplits(y, schedule, k, n - 1); }
  }

  /** What has been overwritten, plus the leads still open, is the drift. */
  lemma {:induction false} OverwrittenIsDrift(y: System, schedule: seq<Turn>, k: Key)
    ensures var e, n := Scheduled(y, schedule), |y.processes|;
      Overwritten(e, k) + Leads(e, k, n) == Overwritten(y, k) + Leads(y, k, n) + TotalDrift(y, schedule, k, n)
    decreases |schedule|
  {
    var n := |y.processes|;
    if schedule == [] {
      NoDriftYet(y, k, n);
    } else {
      var y' := Step(y, schedule[0]);
      OwnLead(y, schedule[0], k);
      OverwrittenIsDrift(y', schedule[1..], k);
      DriftSplits(y, schedule, k, n);
      LeadsMove(y, schedule[0], k, n);
      assert schedule[0].process >= n ==> y' == y;
    }
  }

  lemma {:induction false} NoDriftYet(y: System, k: Key, n: nat)
    ensures TotalDrift(y, [], k, n) == 0
  {
    if n > 0 { NoDriftYet(y, k, n - 1); }
  }

  lemma {:induction false} NoLeads(y: System, k: Key, n: nat)
    requires forall p | p in y.processes :: p.pc in {Start, Finished, Failed}
    ensures Leads(y, k, n) == 0
  {
    if n > 0 { NoLeads(y, k, n - 1); }
  }

  predicate AllReturned(y: System) {
    forall p | p in y.processes :: p.pc in {Finished, Failed}
  }

  /** Once all calls have returned, stock falls short of the ledger by exactly what other
      calls did to the key inside the windows between each adjust's read and write. */
  lemma LossIsWhatFellIntoAdjustWindows(s: State, calls: seq<Movement>, schedule: seq<Turn>, k: Key)
    requires AllReturned(Scheduled(Boot(s, calls), schedule))
    ensures var y := Scheduled(Boot(s, calls), schedule);
      RowAt(y.stock.rows, k).available - RowAt(s.rows, k).available ==
        SumQty(y.stock.ledger, k) - SumQty(s.ledger, k) - TotalDrift(Boot(s, calls), schedule, k, |calls|)
  {
    var y0 := Boot(s, calls);
    var y := Scheduled(y0, schedule);
    NothingPending(y.processes, k);
    EveryInterleavingAccounted(s, calls, schedule, k);
    OverwrittenIsDrift(y0, schedule, k);
    NoLeads(y0, k, |calls|);
    NoLeads(y, k, |calls|);
  }

  /** No other call moves k between an adjust's read of k and its write. */
  predicate Undisturbed(y: System, schedule: seq<Turn>, k: Key)
    decreases |schedule|
  {
    schedule == [] ||
    (var turn := schedule[0];
     && (forall i | 0 <= i < |y.processes| && i != turn.process && InWindow(y.processes[i], k) ::
          Moved(y, turn, k) == 0)
     && Undisturbed(Step(y, turn), schedule[1..], k))
  }

  lemma {:induction false} UndisturbedHasNoDrift(y: System, schedule: seq<Turn>, i: nat, k: Key)
    requires Undisturbed(y, schedule, k)
    ensures Drift(y, schedule, i, k) == 0
    decreases |schedule|
  {
    if schedule != [] { UndisturbedHasNoDrift(Step(y, schedule[0]), schedule[1..], i, k); }
  }

  /** A schedule that leaves the adjusts of k undisturbed keeps stock and ledger of k in
      agreement, whatever else it interleaves. */
  lemma UndisturbedAdjustsAgree(s: State, calls: seq<Movement>, schedule: seq<Turn>, k: Key)
    requires AllReturned(Scheduled(Boot(s, calls), schedule))
    requires Undisturbed(Boot(s, calls), schedule, k)
    ensures var y := Scheduled(Boot(s, calls), schedule);
      RowAt(y.stock.rows, k).available - RowAt(s.rows, k).available == SumQty(y.stock.ledger, k) - SumQty(s.ledger, k)
  {
    LossIsWhatFellIntoAdjustWindows(s, calls, schedule, k);
    forall i: nat ensures Drift(Boot(s, calls), schedule, i, k) == 0 {
      UndisturbedHasNoDrift(Boot(s, calls), schedule, i, k);
    }
    DriftsVanish(Boot(s, calls), schedule, k, |calls|);
  }

  lemma {:induction false} DriftsVanish(y: System, schedule: seq<Turn>, k: Key, n: nat)
    requires forall i: nat | i < n :: Drift(y, schedule, i, k) == 0
    ensures TotalDrift(y, schedule, k, n) == 0
  {
    if n > 0 { DriftsVanish(y, schedule, k, n - 1); }
  }

  predicate AdjustsKey(m: Movement, k: Key) { m.AdjustStock? && m.key == k }

  lemma {:induction false} OnlyAdjustsDrift(y: System, schedule: seq<Turn>, i: nat, k: Key)
    requires i < |y.processes| && !AdjustsKey(y.processes[i].call, k)
    ensures Drift(y, schedule, i, k) == 0
    decreases |schedule|
  {
    if schedule != [] {
      var y' := Step(y, schedule[0]);
      assert |y'.processes| == |y.processes| && y'.processes[i].call == y.processes[i].call;
      OnlyAdjustsDrift(y', schedule[1..], i, k);
    }
  }

  lemma {:induction false} OneDrift(y: System, schedule: seq<Turn>, i: nat, k: Key, n: nat)
    requires i < |y.processes| && n <= |y.processes|
    requires forall j | 0 <= j < |y.processes| && j != i :: !AdjustsKey(y.processes[j].call, k)
    ensures TotalDrift(y, schedule, k, n) == if i < n then Drift(y, schedule, i, k) else 0
  {
    if n > 0 {
      OneDrift(y, schedule, i, k, n - 1);
      if i != n - 1 { OnlyAdjustsDrift(y, schedule, n - 1, k); }
    }
  }

  /** With a single adjust of k among any calls, stock and ledger of k agree at the end
      exactly when what the others did to k between its read and its write nets to zero. */
  lemma OneAdjustAgreesIffWindowNetsZero(s: State, calls: seq<Movement>, schedule: seq<Turn>, k: Key, i: nat)
    requires i < |calls| && forall j | 0 <= j < |calls| && j != i :: !AdjustsKey(calls[j], k)
    requires AllReturned(Scheduled(Boot(s, calls), schedule))
    ensures var y := Scheduled(Boot(s, calls), schedule);
      RowAt(y.stock.rows, k).available - RowAt(s.rows, k).available == SumQty(y.stock.ledger, k) - SumQty(s.ledger, k)
      <==> Drift(Boot(s, calls), schedule, i, k) == 0
  {
    LossIsWhatFellIntoAdjustWindows(s, calls, schedule, k);
    OneDrift(Boot(s, calls), schedule, i, k, |calls|);
  }

  /** Any calls, none of them an adjust of k, in any interleaving: when they have all
      returned, k has changed by exactly what the ledger says. */
  lemma InterleavedCallsAgreeWithLedger(s: State, calls: seq<Movement>, schedule: seq<Turn>, k: Key)
    requires forall m | m in calls :: !AdjustsKey(m, k)
    requires AllReturned(Scheduled(Boot(s, calls), schedule))
    ensures var y := Scheduled(Boot(s, calls), schedule);
      RowAt(y.stock.rows, k).available - RowAt(s.rows, k).available == SumQty(y.stock.ledger, k) - SumQty(s.ledger, k)
  {
    LossIsWhatFellIntoAdjustWindows(s, calls, schedule, k);
    forall i: nat | i < |calls| ensures Drift(Boot(s, calls), schedule, i, k) == 0 {
      OnlyAdjustsDrift(Boot(s, calls), schedule, i, k);
    }
    DriftsVanish(Boot(s, calls), schedule, k, |calls|);
  }
}
