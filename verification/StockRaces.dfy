/** What else interleaving breaks: exactly when calls that subtract from a row can break
    its ledger chain, and concrete runs that lose an update or oversell. */
module StockRaces {
  import opened Stock
  import opened StockInterleaving
  import opened StockSerial
  import opened StockOversell

  // ---------- The ledger chain ----------

  /** The entries of k form a chain that starts at 0. */
  predicate ChainedAt(ledger: seq<Entry>, k: Key) {
    ledger == [] ||
    (var e := ledger[|ledger| - 1];
     var rest := ledger[..|ledger| - 1];
     ChainedAt(rest, k) && (e.key == k ==> e.previousQty == LastQty(rest, k) && e.newQty == e.previousQty + e.quantity))
  }

  /** The ledger is a chain if and only if the entries of each key are. */
  lemma {:induction false} ChainedGivesKey(ledger: seq<Entry>, k: Key)
    requires Chained(ledger)
    ensures ChainedAt(ledger, k)
  {
    if ledger != [] { ChainedGivesKey(ledger[..|ledger| - 1], k); }
  }

  lemma {:induction false} KeysGiveChained(ledger: seq<Entry>)
    requires forall k :: ChainedAt(ledger, k)
    ensures Chained(ledger)
  {
    if ledger != [] {
      var rest := ledger[..|ledger| - 1];
      forall k ensures ChainedAt(rest, k) { assert ChainedAt(ledger, k); }
      KeysGiveChained(rest);
      assert ChainedAt(ledger, ledger[|ledger| - 1].key);
    }
  }

  lemma ChainedAtAppended(ledger: seq<Entry>, e: Entry, k: Key)
    ensures ChainedAt(ledger + [e], k) <==>
      ChainedAt(ledger, k)
      && (e.key == k ==> e.previousQty == LastQty(ledger, k) && e.newQty == e.previousQty + e.quantity)
  {
    assert (ledger + [e])[..|ledger|] == ledger;
  }

  /** Row and ledger of k look the same in both states. */
  predicate SameAt(s: State, t: State, k: Key) {
    && RowAt(t.rows, k).available == RowAt(s.rows, k).available
    && LastQty(t.ledger, k) == LastQty(s.ledger, k)
    && (ChainedAt(t.ledger, k) <==> ChainedAt(s.ledger, k))
  }

  lemma LoggedElsewhere(s: State, e: Entry, k: Key)
    requires e.key != k
    ensures SameAt(s, Logged(s, e), k)
  {
    Appended(s.ledger, e, k);
    ChainedAtAppended(s.ledger, e, k);
  }

  /** A call that takes nothing from k, or that does not fit and has not passed its check. */
  predicate Idle(p: Process, k: Key, available: int) {
    Takes(p.call, k, Available) ==>
      && available < p.call.quantity
      && (p.pc.Start? || (p.pc.SawSource? && p.seen < p.call.quantity) || p.pc.Failed?)
  }

  lemma IdleSingleStep(y: System, i: nat, k: Key, available: int)
    requires i < |y.processes| && !y.processes[i].call.TransferStock? && OnlySubtracts(y.processes[i].call, k)
    requires Idle(y.processes[i], k, available) && RowAt(y.stock.rows, k).available <= available
    ensures Idle(StepSingle(y, i).processes[i], k, available) && SameAt(y.stock, StepSingle(y, i).stock, k)
  {
    var p := y.processes[i];
    if p.pc.Wrote? {
      LoggedElsewhere(y.stock, Entry(p.call.key, KindOf(p.call), RefOf(p.call), Change(p.call), p.seen, p.got), k);
    }
  }

  lemma IdleTransferStep(y: System, i: nat, targetFirst: bool, k: Key, available: int)
    requires i < |y.processes| && y.processes[i].call.TransferStock? && OnlySubtracts(y.processes[i].call, k)
    requires Idle(y.processes[i], k, available) && RowAt(y.stock.rows, k).available <= available
    ensures Idle(StepTransfer(y, i, targetFirst).processes[i], k, available)
    ensures SameAt(y.stock, StepTransfer(y, i, targetFirst).stock, k)
  {
    var p := y.processes[i];
    var m := p.call;
    if p.pc.Reread? {
      LoggedElsewhere(y.stock, Entry(SourceKey(m), TransferOut, RefOf(m), -m.quantity, p.seen, p.got), k);
    } else if p.pc.LoggedOut? {
      LoggedElsewhere(y.stock, Entry(TargetKey(m), TransferIn, RefOf(m), m.quantity, p.seenTarget, p.gotTarget), k);
    }
  }

  /** Where the one call that takes from k stands: row and ledger are at the given
      quantity until it writes, and it logs what it has written. */
  predicate Alone(p: Process, s: State, k: Key, available: int) {
    var now, last := RowAt(s.rows, k).available, LastQty(s.ledger, k);
    if !Takes(p.call, k, Available) then now == last
    else
      match p.pc
      case Start => now == last == available
      case SawSource => now == last == p.seen == available
      case Checked => now == last == p.seen == available
      case WroteTarget => now == last == p.seen == available
      case LoggedOut => now == last
      case Finished => now == last
      case Failed => now == last
      case _ => last == p.seen == available && now == p.got == available - p.call.quantity
  }

  predicate KeepsChain(p: Process, s: State, k: Key, available: int) {
    Alone(p, s, k, available) && ChainedAt(s.ledger, k) && RowAt(s.rows, k).available <= available
  }

  lemma AloneSingleStep(y: System, i: nat, k: Key, available: int)
    requires i < |y.processes| && !y.processes[i].call.TransferStock? && OnlySubtracts(y.processes[i].call, k)
    requires KeepsChain(y.processes[i], y.stock, k, available)
    ensures KeepsChain(StepSingle(y, i).processes[i], StepSingle(y, i).stock, k, available)
  {
    var p := y.processes[i];
    if p.pc.Wrote? {
      var e := Entry(p.call.key, KindOf(p.call), RefOf(p.call), Change(p.call), p.seen, p.got);
      Appended(y.stock.ledger, e, k);
      ChainedAtAppended(y.stock.ledger, e, k);
    }
  }

  lemma AloneTransferLogs(y: System, i: nat, k: Key, available: int)
    requires i < |y.processes| && y.processes[i].call.TransferStock? && OnlySubtracts(y.processes[i].call, k)
    requires KeepsChain(y.processes[i], y.stock, k, available) && Logs(y.processes[i].pc)
    ensures var y' := StepTransfer(y, i, false);
      KeepsChain(y'.processes[i], y'.stock, k, available)
  {
    var p := y.processes[i];
    var m := p.call;
    if p.pc.Reread? {
      var e := Entry(SourceKey(m), TransferOut, RefOf(m), -m.quantity, p.seen, p.got);
      Appended(y.stock.ledger, e, k);
      ChainedAtAppended(y.stock.ledger, e, k);
    } else {
      LoggedElsewhere(y.stock, Entry(TargetKey(m), TransferIn, RefOf(m), m.quantity, p.seenTarget, p.gotTarget), k);
    }
  }

  lemma AloneTransferWrites(y: System, i: nat, targetFirst: bool, k: Key, available: int)
    requires i < |y.processes| && y.processes[i].call.TransferStock? && OnlySubtracts(y.processes[i].call, k)
    requires KeepsChain(y.processes[i], y.stock, k, available) && Writes(y.processes[i].pc)
    ensures var y' := StepTransfer(y, i, targetFirst);
      KeepsChain(y'.processes[i], y'.stock, k, available)
  {
  }

  lemma AloneTransferReads(y: System, i: nat, targetFirst: bool, k: Key, available: int)
    requires i < |y.processes| && y.processes[i].call.TransferStock?
    requires KeepsChain(y.processes[i], y.stock, k, available)
    requires !Logs(y.processes[i].pc) && !Writes(y.processes[i].pc)
    ensures var y' := StepTransfer(y, i, targetFirst);
      KeepsChain(y'.processes[i], y'.stock, k, available)
  {
  }

  lemma AloneTransferStep(y: System, i: nat, targetFirst: bool, k: Key, available: int)
    requires i < |y.processes| && y.processes[i].call.TransferStock? && OnlySubtracts(y.processes[i].call, k)
    requires KeepsChain(y.processes[i], y.stock, k, available)
    ensures var y' := StepTransfer(y, i, targetFirst);
      KeepsChain(y'.processes[i], y'.stock, k, available)
  {
    if Logs(y.processes[i].pc) {
      AloneTransferLogs(y, i, k, available);
    } else if Writes(y.processes[i].pc) {
      AloneTransferWrites(y, i, targetFirst, k, available);
    } else {
      AloneTransferReads(y, i, targetFirst, k, available);
    }
  }

  /** Everybody but call i is idle, and call i keeps the chain. */
  predicate OneTaker(y: System, i: nat, k: Key, available: int) {
    && i < |y.processes| && (forall j | 0 <= j < |y.processes| :: OnlySubtracts(y.processes[j].call, k))
    && (forall j | 0 <= j < |y.processes| && j != i :: Idle(y.processes[j], k, available))
    && KeepsChain(y.processes[i], y.stock, k, available)
  }

  lemma OneTakerStep(y: System, turn: Turn, i: nat, k: Key, available: int)
    requires OneTaker(y, i, k, available) && turn.process < |y.processes|
    ensures OneTaker(Step(y, turn), i, k, available)
  {
    var j := turn.process;
    var transfer := y.processes[j].call.TransferStock?;
    OthersUntouched(y, turn);
    if j == i {
      if transfer {
        AloneTransferStep(y, i, turn.targetFirst, k, available);
      } else {
        AloneSingleStep(y, i, k, available);
      }
    } else {
      if transfer {
        IdleTransferStep(y, j, turn.targetFirst, k, available);
      } else {
        IdleSingleStep(y, j, k, available);
      }
    }
  }

  lemma {:induction false} OneTakerKeepsChain(y: System, schedule: seq<Turn>, i: nat, k: Key, available: int)
    requires OneTaker(y, i, k, available)
    ensures ChainedAt(Scheduled(y, schedule).stock.ledger, k)
    decreases |schedule|
  {
    if schedule != [] {
      if schedule[0].process < |y.processes| { OneTakerStep(y, schedule[0], i, k, available); }
      OneTakerKeepsChain(Step(y, schedule[0]), schedule[1..], i, k, available);
    }
  }

  /** The turns in which call i writes and logs. */
  function FinishTurns(m: Movement, i: nat): seq<Turn> {
    var turn := Turn(i, false);
    if m.TransferStock? then [turn, turn] + [turn, turn, turn] else [turn, turn]
  }

  /** A call that has passed its check logs what it read as the previous quantity. */
  lemma CallFinishes(y: System, i: nat, k: Key)
    requires i < |y.processes| && y.processes[i].pc.Checked?
    requires Takes(y.processes[i].call, k, Available) && OnlySubtracts(y.processes[i].call, k)
    ensures var p, y' := y.processes[i], Scheduled(y, FinishTurns(y.processes[i].call, i));
      && |y'.processes| == |y.processes|
      && (forall j | 0 <= j < |y.processes| && j != i :: y'.processes[j] == y.processes[j])
      && RowAt(y'.stock.rows, k).available == LastQty(y'.stock.ledger, k) ==
           RowAt(y.stock.rows, k).available - p.call.quantity
      && (ChainedAt(y'.stock.ledger, k) ==> p.seen == LastQty(y.stock.ledger, k))
  {
    var turn := Turn(i, false);
    OthersUntouchedTwice(y, turn);
    if y.processes[i].call.TransferStock? {
      TwiceIsScheduled(y, turn, [turn, turn, turn]);
      ThriceIsScheduled(Twice(y, turn), turn, []);
      assert [turn, turn, turn] + [] == [turn, turn, turn];
      OthersUntouchedThrice(Twice(y, turn), turn);
      TransferFinishes(y, turn, k);
    } else {
      TwiceIsScheduled(y, turn, []);
      assert [turn, turn] + [] == [turn, turn];
      SingleFinishes(y, turn, k);
    }
  }

  lemma SingleFinishes(y: System, turn: Turn, k: Key)
    requires turn.process < |y.processes| && y.processes[turn.process].pc.Checked?
    requires !y.processes[turn.process].call.TransferStock?
    requires Takes(y.processes[turn.process].call, k, Available) && OnlySubtracts(y.processes[turn.process].call, k)
    ensures var p, s := y.processes[turn.process], Twice(y, turn).stock;
      && RowAt(s.rows, k).available == LastQty(s.ledger, k) == RowAt(y.stock.rows, k).available - p.call.quantity
      && (ChainedAt(s.ledger, k) ==> p.seen == LastQty(y.stock.ledger, k))
  {
    var p := y.processes[turn.process];
    var m := p.call;
    var e := Entry(k, KindOf(m), RefOf(m), Change(m), p.seen, RowAt(y.stock.rows, k).available + Change(m));
    Appended(y.stock.ledger, e, k);
    ChainedAtAppended(y.stock.ledger, e, k);
  }

  lemma TransferFinishes(y: System, turn: Turn, k: Key)
    requires turn.process < |y.processes| && y.processes[turn.process].pc.Checked?
    requires y.processes[turn.process].call.TransferStock?
    requires Takes(y.processes[turn.process].call, k, Available) && OnlySubtracts(y.processes[turn.process].call, k)
    ensures var p, s := y.processes[turn.process], Thrice(Twice(y, turn), turn).stock;
      && RowAt(s.rows, k).available == LastQty(s.ledger, k) == RowAt(y.stock.rows, k).available - p.call.quantity
      && (ChainedAt(s.ledger, k) ==> p.seen == LastQty(y.stock.ledger, k))
  {
    var p := y.processes[turn.process];
    TransferMoves(y, turn);
    MovedBetweenChains(y.stock, k, TargetKey(p.call), p.call.quantity, RefOf(p.call), p.seen, p.seenTarget);
  }

  lemma MovedBetweenChains(o: State, a: Key, b: Key, q: int, ref: Reference, seen: int, seenTarget: int)
    requires a != b
    ensures var s := MovedBetween(o, a, b, q, ref, seen, seenTarget);
      && RowAt(s.rows, a).available == LastQty(s.ledger, a) == RowAt(o.rows, a).available - q
      && (ChainedAt(s.ledger, a) ==> seen == LastQty(o.ledger, a))
  {
    var s := MovedBetween(o, a, b, q, ref, seen, seenTarget);
    var out, back := s.ledger[|o.ledger|], s.ledger[|o.ledger| + 1];
    assert s.ledger == o.ledger + [out] + [back];
    Appended(o.ledger, out, a);
    Appended(o.ledger + [out], back, a);
    ChainedAtAppended(o.ledger, out, a);
    ChainedAtAppended(o.ledger + [out], back, a);
  }

  /** Both calls read, then each writes and logs in turn. */
  function ReadTogether(calls: seq<Movement>, i: nat, j: nat): seq<Turn>
    requires i < |calls| && j < |calls|
  {
    ReadTurns(calls[i], i) + (ReadTurns(calls[j], j) + (FinishTurns(calls[i], i) + FinishTurns(calls[j], j)))
  }

  /** The second of two such calls logs a previous quantity that is no longer the last. */
  lemma ReadTogetherBreaksChain(s: State, calls: seq<Movement>, k: Key, i: nat, j: nat)
    requires i < j < |calls| && OnlySubtracts(calls[i], k) && OnlySubtracts(calls[j], k)
    requires Fits(calls[i], k, Available, RowAt(s.rows, k).available)
      && Fits(calls[j], k, Available, RowAt(s.rows, k).available)
    ensures !ChainedAt(Scheduled(Boot(s, calls), ReadTogether(calls, i, j)).stock.ledger, k)
  {
    var y0 := Boot(s, calls);
    var y1 := Scheduled(y0, ReadTurns(calls[i], i));
    var y2 := Scheduled(y1, ReadTurns(calls[j], j));
    var y3 := Scheduled(y2, FinishTurns(calls[i], i));
    CallReads(y0, i, k, Available);
    CallReads(y1, j, k, Available);
    CallFinishes(y2, i, k);
    CallFinishes(y3, j, k);
    ScheduledInTwo(y2, FinishTurns(calls[i], i), FinishTurns(calls[j], j));
    ScheduledInTwo(y1, ReadTurns(calls[j], j), FinishTurns(calls[i], i) + FinishTurns(calls[j], j));
    ScheduledInTwo(y0, ReadTurns(calls[i], i), ReadTurns(calls[j], j)
      + (FinishTurns(calls[i], i) + FinishTurns(calls[j], j)));
  }

  predicate AtMostOneFits(calls: seq<Movement>, k: Key, available: int) {
    forall i, j | 0 <= i < j < |calls| ::
      !(Fits(calls[i], k, Available, available) && Fits(calls[j], k, Available, available))
  }

  lemma OneFitsKeepsChain(s: State, calls: seq<Movement>, k: Key, schedule: seq<Turn>)
    requires forall i | 0 <= i < |calls| :: OnlySubtracts(calls[i], k)
    requires ChainedAt(s.ledger, k) && LastQty(s.ledger, k) == RowAt(s.rows, k).available
    requires AtMostOneFits(calls, k, RowAt(s.rows, k).available)
    ensures ChainedAt(Scheduled(Boot(s, calls), schedule).stock.ledger, k)
  {
    var available := RowAt(s.rows, k).available;
    if calls == [] {
      NobodyMoves(Boot(s, calls), schedule);
    } else {
      var i: nat := if exists n: nat :: n < |calls| && Fits(calls[n], k, Available, available)
        then (var n: nat :| n < |calls| && Fits(calls[n], k, Available, available); n) else 0;
      OneTakerKeepsChain(Boot(s, calls), schedule, i, k, available);
    }
  }

  lemma {:induction false} NobodyMoves(y: System, schedule: seq<Turn>)
    requires y.processes == []
    ensures Scheduled(y, schedule) == y
    decreases |schedule|
  {
    if schedule != [] { NobodyMoves(y, schedule[1..]); }
  }

  /** Any number of calls that only subtract from k: the ledger of k stays a chain under
      every interleaving exactly when at most one of them fits. */
  lemma ChainKeptIffAtMostOneFits(s: State, calls: seq<Movement>, k: Key)
    requires forall i | 0 <= i < |calls| :: OnlySubtracts(calls[i], k)
    requires ChainedAt(s.ledger, k) && LastQty(s.ledger, k) == RowAt(s.rows, k).available
    ensures (forall schedule :: ChainedAt(Scheduled(Boot(s, calls), schedule).stock.ledger, k))
      <==> AtMostOneFits(calls, k, RowAt(s.rows, k).available)
  {
    var available := RowAt(s.rows, k).available;
    if AtMostOneFits(calls, k, available) {
      forall schedule ensures ChainedAt(Scheduled(Boot(s, calls), schedule).stock.ledger, k) {
        OneFitsKeepsChain(s, calls, k, schedule);
      }
    } else {
      var i: nat, j: nat :|
        i < j < |calls| && Fits(calls[i], k, Available, available) && Fits(calls[j], k, Available, available);
      ReadTogetherBreaksChain(s, calls, k, i, j);
    }
  }

  lemma ReconciledAt(s: State, k: Key)
    requires Reconciled(s)
    ensures ChainedAt(s.ledger, k) && LastQty(s.ledger, k) == RowAt(s.rows, k).available
  {
    ChainedGivesKey(s.ledger, k);
    assert RowReconciled(s, k);
  }

  lemma LedgerStaysChained(s: State, calls: seq<Movement>, schedule: seq<Turn>)
    requires Reconciled(s) && forall i, k | 0 <= i < |calls| :: OnlySubtracts(calls[i], k)
    requires forall k :: AtMostOneFits(calls, k, RowAt(s.rows, k).available)
    ensures Chained(Scheduled(Boot(s, calls), schedule).stock.ledger)
  {
    var ledger := Scheduled(Boot(s, calls), schedule).stock.ledger;
    forall k ensures ChainedAt(ledger, k) {
      ReconciledAt(s, k);
      assert AtMostOneFits(calls, k, RowAt(s.rows, k).available);
      OneFitsKeepsChain(s, calls, k, schedule);
    }
    KeysGiveChained(ledger);
  }

  lemma LedgerCanBreak(s: State, calls: seq<Movement>, k: Key) returns (schedule: seq<Turn>)
    requires forall i | 0 <= i < |calls| :: OnlySubtracts(calls[i], k)
    requires !AtMostOneFits(calls, k, RowAt(s.rows, k).available)
    ensures !Chained(Scheduled(Boot(s, calls), schedule).stock.ledger)
  {
    var available := RowAt(s.rows, k).available;
    var i: nat, j: nat :|
      i < j < |calls| && Fits(calls[i], k, Available, available) && Fits(calls[j], k, Available, available);
    schedule := ReadTogether(calls, i, j);
    ReadTogetherBreaksChain(s, calls, k, i, j);
    var ledger := Scheduled(Boot(s, calls), schedule).stock.ledger;
    if Chained(ledger) { ChainedGivesKey(ledger, k); }
  }

  /** Over the whole ledger: reserves and decreases of any rows keep it a chain under every
      interleaving exactly when on each row at most one of them fits. */
  lemma LedgerChainKeptIffAtMostOneFits(s: State, calls: seq<Movement>)
    requires Reconciled(s) && forall i, k | 0 <= i < |calls| :: OnlySubtracts(calls[i], k)
    ensures (forall schedule :: Chained(Scheduled(Boot(s, calls), schedule).stock.ledger))
      <==> forall k :: AtMostOneFits(calls, k, RowAt(s.rows, k).available)
  {
    if forall k :: AtMostOneFits(calls, k, RowAt(s.rows, k).available) {
      forall schedule ensures Chained(Scheduled(Boot(s, calls), schedule).stock.ledger) {
        LedgerStaysChained(s, calls, schedule);
      }
    } else {
      var k :| !AtMostOneFits(calls, k, RowAt(s.rows, k).available);
      var schedule := LedgerCanBreak(s, calls, k);
      assert !Chained(Scheduled(Boot(s, calls), schedule).stock.ledger);
    }
  }

  // ---------- Concrete runs from reconciled books ----------

  lemma ScheduledSix(y: System, t: seq<Turn>)
    requires |t| == 6
    ensures Scheduled(y, t) == Step(Step(Step(Step(Step(Step(y, t[0]), t[1]), t[2]), t[3]), t[4]), t[5])
  {
    var y1 := Step(y, t[0]);
    var y2 := Step(y1, t[1]);
    var y3 := Step(y2, t[2]);
    var y4 := Step(y3, t[3]);
    var y5 := Step(y4, t[4]);
    assert t[1..][1..] == t[2..] && t[2..][1..] == t[3..] && t[3..][1..] == t[4..];
    assert t[4..][1..] == t[5..] && t[5..][1..] == [];
    assert Scheduled(y, t) == Scheduled(y1, t[1..]) == Scheduled(y2, t[2..]) == Scheduled(y3, t[3..]);
    assert Scheduled(y3, t[3..]) == Scheduled(y4, t[4..]) == Scheduled(y5, t[5..]) == Scheduled(Step(y5, t[5]), []);
  }

  function Waiter(m: Movement): Process { Process(m, Start, 0, 0, 0, 0) }

  lemma ThreeEntries(d: Entry, e: Entry, f: Entry, k: Key)
    requires d.key == e.key == f.key == k
    ensures SumQty([d, e, f], k) == d.quantity + e.quantity + f.quantity
    ensures Chained([d, e, f]) ==> f.previousQty == e.newQty
  {
    assert [d, e, f] == [] + [d] + [e] + [f];
    Appended([], d, k);
    Appended([] + [d], e, k);
    Appended([] + [d] + [e], f, k);
  }

  /** adjust writes an absolute value: an increase of 5 between its read and its write is
      lost, although both are in the ledger. */
  lemma AdjustCanOverwriteAnIncrease(k: Key, ref: Reference)
    ensures var s, a, b := Stocked(k, ref, 10), Turn(0, false), Turn(1, false);
      var y := Scheduled(Boot(s, [AdjustStock(k, 1), IncreaseStock(k, 5, ref)]), [a, b, b, b, a, a]);
      && Reconciled(s) && AllReturned(y)
      && RowAt(y.stock.rows, k).available == 11
      && SumQty(y.stock.ledger, k) == 16
  {
    var s, bought := Stocked(k, ref, 10), Entry(k, Purchase, ref, 10, 0, 10);
    StockedReconciled(k, ref, 10);
    var p, q := Waiter(AdjustStock(k, 1)), Waiter(IncreaseStock(k, 5, ref));
    var y0 := Boot(s, [p.call, q.call]);
    assert y0.processes == [p, q];
    var a, b := Turn(0, false), Turn(1, false);
    var p1 := p.(pc := Checked, seen := 10);
    var y1 := System(s, [p1, q], map[]);
    assert Step(y0, a) == y1;
    var y2 := System(s, [p1, q.(pc := Checked, seen := 10)], map[]);
    assert Step(y1, b) == y2;
    var raised := State(map[k := Row(15, 0)], [bought]);
    var y3 := System(raised, [p1, q.(pc := Wrote, seen := 10, got := 15)], map[]);
    assert Step(y2, b) == y3;
    var entry := Entry(k, Purchase, ref, 5, 10, 15);
    var y4 := System(raised.(ledger := [bought, entry]), [p1, q.(pc := Finished, seen := 10, got := 15)], map[]);
    assert Step(y3, b) == y4;
    var p5 := p1.(pc := Wrote, got := 11);
    var y5 := System(State(map[k := Row(11, 0)], [bought, entry]), [p5, y4.processes[1]], map[k := 5]);
    assert Step(y4, a) == y5;
    var last := Entry(k, Adjustment, MANUAL, 1, 10, 11);
    var y6 := System(State(map[k := Row(11, 0)], [bought, entry, last]), [p5.(pc := Finished), y4.processes[1]],
      map[k := 5]);
    assert Step(y5, a) == y6;
    ScheduledSix(y0, [a, b, b, b, a, a]);
    ThreeEntries(bought, entry, last, k);
  }

  /** Both reserves have read the last unit; then both have written. */
  function BothRead(k: Key, ref: Reference): System {
    var seen := Waiter(ReserveStock(k, 1, ref)).(pc := Checked, seen := 1);
    System(Stocked(k, ref, 1), [seen, seen], map[])
  }

  function BothWritten(k: Key, ref: Reference): System {
    var seen := Waiter(ReserveStock(k, 1, ref)).(pc := Checked, seen := 1);
    System(Stocked(k, ref, 1).(rows := map[k := Row(-1, 2)]),
           [seen.(pc := Wrote, got := 0), seen.(pc := Wrote, got := -1)], map[])
  }

  lemma ReservesBothRead(k: Key, ref: Reference)
    ensures var y0 := Boot(Stocked(k, ref, 1), [ReserveStock(k, 1, ref), ReserveStock(k, 1, ref)]);
      Step(Step(y0, Turn(0, false)), Turn(1, false)) == BothRead(k, ref)
  {
    var p := Waiter(ReserveStock(k, 1, ref));
    var y0 := Boot(Stocked(k, ref, 1), [p.call, p.call]);
    assert y0.processes == [p, p];
    var y1 := System(Stocked(k, ref, 1), [p.(pc := Checked, seen := 1), p], map[]);
    assert Step(y0, Turn(0, false)) == y1;
    assert Step(y1, Turn(1, false)) == BothRead(k, ref);
  }

  lemma ReservesBothWrite(k: Key, ref: Reference)
    ensures Step(Step(BothRead(k, ref), Turn(0, false)), Turn(1, false)) == BothWritten(k, ref)
  {
    var seen := BothRead(k, ref).processes[0];
    var y3 := System(Stocked(k, ref, 1).(rows := map[k := Row(0, 1)]), [seen.(pc := Wrote, got := 0), seen], map[]);
    assert Step(BothRead(k, ref), Turn(0, false)) == y3;
  }

  lemma ReservesBothLog(k: Key, ref: Reference)
    ensures var y := Step(Step(BothWritten(k, ref), Turn(0, false)), Turn(1, false));
      && AllReturned(y) && y.stock.rows == map[k := Row(-1, 2)]
      && y.stock.ledger == [Entry(k, Purchase, ref, 1, 0, 1), Entry(k, Reservation, ref, -1, 1, 0),
           Entry(k, Reservation, ref, -1, 1, -1)]
  {
    var y := BothWritten(k, ref);
    var y1 := Step(y, Turn(0, false));
    assert y1.stock.ledger == [Entry(k, Purchase, ref, 1, 0, 1), Entry(k, Reservation, ref, -1, 1, 0)];
    assert y1.processes == [y.processes[0].(pc := Finished), y.processes[1]];
  }

  /** Two reserves of the last unit of a reconciled row: both succeed and leave -1, with
      a ledger that still adds up but is no longer a chain. */
  lemma ReservesCanOversell(k: Key, ref: Reference)
    ensures var s, a, b := Stocked(k, ref, 1), Turn(0, false), Turn(1, false);
      var y := Scheduled(Boot(s, [ReserveStock(k, 1, ref), ReserveStock(k, 1, ref)]), [a, b, a, b, a, b]);
      && Reconciled(s) && AllReturned(y)
      && RowAt(y.stock.rows, k).available == SumQty(y.stock.ledger, k) == -1
      && !Chained(y.stock.ledger)
  {
    var a, b := Turn(0, false), Turn(1, false);
    StockedReconciled(k, ref, 1);
    ScheduledSix(Boot(Stocked(k, ref, 1), [ReserveStock(k, 1, ref), ReserveStock(k, 1, ref)]), [a, b, a, b, a, b]);
    ReservesBothRead(k, ref);
    ReservesBothWrite(k, ref);
    ReservesBothLog(k, ref);
    ThreeEntries(Entry(k, Purchase, ref, 1, 0, 1), Entry(k, Reservation, ref, -1, 1, 0),
      Entry(k, Reservation, ref, -1, 1, -1), k);
  }
}
