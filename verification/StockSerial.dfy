/** The atomic model of Stock is what StockInterleaving does when nothing interleaves:
    an undisturbed call is the atomic call, and a schedule made of whole calls is an
    atomic run. */
module StockSerial {
  import opened Stock
  import opened StockInterleaving

  function Twice(y: System, turn: Turn): (r: System)
    ensures |r.processes| == |y.processes|
  {
    Step(Step(y, turn), turn)
  }

  function Thrice(y: System, turn: Turn): (r: System)
    ensures |r.processes| == |y.processes|
  {
    Step(Twice(y, turn), turn)
  }

  /** All steps of a call: two reads, two writes and three steps to log a transfer; one
      read, one write and one log entry otherwise. */
  function Whole(y: System, turn: Turn): System
    requires turn.process < |y.processes|
  {
    if y.processes[turn.process].call.TransferStock? then Thrice(Twice(Twice(y, turn), turn), turn) else Thrice(y, turn)
  }

  function Turns(m: Movement, turn: Turn): seq<Turn> {
    if m.TransferStock? then [turn, turn] + ([turn, turn] + [turn, turn, turn]) else [turn, turn, turn]
  }

  lemma TwiceIsScheduled(y: System, turn: Turn, rest: seq<Turn>)
    ensures Scheduled(y, [turn, turn] + rest) == Scheduled(Twice(y, turn), rest)
  {
    assert ([turn, turn] + rest)[1..] == [turn] + rest;
    assert ([turn] + rest)[1..] == rest;
  }

  lemma ThriceIsScheduled(y: System, turn: Turn, rest: seq<Turn>)
    ensures Scheduled(y, [turn, turn, turn] + rest) == Scheduled(Thrice(y, turn), rest)
  {
    assert [turn, turn, turn] + rest == [turn, turn] + ([turn] + rest);
    TwiceIsScheduled(y, turn, [turn] + rest);
    assert ([turn] + rest)[1..] == rest;
  }

  lemma WholeIsScheduled(y: System, turn: Turn, rest: seq<Turn>)
    requires turn.process < |y.processes|
    ensures Scheduled(y, Turns(y.processes[turn.process].call, turn) + rest) == Scheduled(Whole(y, turn), rest)
  {
    if y.processes[turn.process].call.TransferStock? {
      var last := [turn, turn, turn] + rest;
      assert Turns(y.processes[turn.process].call, turn) + rest == [turn, turn] + ([turn, turn] + last);
      TwiceIsScheduled(y, turn, [turn, turn] + last);
      TwiceIsScheduled(Twice(y, turn), turn, last);
      ThriceIsScheduled(Twice(Twice(y, turn), turn), turn, rest);
    } else {
      ThriceIsScheduled(y, turn, rest);
    }
  }

  // ---------- Calls on a single row ----------

  /** The write and the log of a call whose row nobody touched since it was read. */
  lemma SingleBooks(y: System, turn: Turn)
    requires turn.process < |y.processes|
    requires y.processes[turn.process].pc == Checked && !y.processes[turn.process].call.TransferStock?
    requires y.processes[turn.process].seen == RowAt(y.stock.rows, y.processes[turn.process].call.key).available
    ensures var m := y.processes[turn.process].call;
      var y' := Twice(y, turn);
      && y'.stock == Booked(y.stock, m.key, KindOf(m), RefOf(m), Change(m), HeldChange(m))
      && y'.processes[turn.process].pc == Finished
  {
  }

  /** Read, write and log run without a break are the atomic call. */
  lemma UndisturbedSingleIsApply(y: System, turn: Turn)
    requires turn.process < |y.processes|
    requires y.processes[turn.process].pc == Start && !y.processes[turn.process].call.TransferStock?
    ensures var e := Apply(y.stock, y.processes[turn.process].call);
      var y' := Thrice(y, turn);
      y'.stock == e.state && y'.processes[turn.process].pc == if e.Done? then Finished else Failed
  {
    ApplyByGuard(y.stock, y.processes[turn.process].call);
    var y1 := Step(y, turn);
    if y1.processes[turn.process].pc == Checked { SingleBooks(y1, turn); }
  }

  // ---------- Transfers ----------

  /** Both rows updated and both entries logged, with the quantities read before. */
  function MovedBetween(o: State, a: Key, b: Key, q: int, ref: Reference, seen: int, seenTarget: int): State {
    var both := Incremented(Incremented(o, a, -q, 0), b, q, 0);
    both.(ledger := o.ledger + [Entry(a, TransferOut, ref, -q, seen, RowAt(o.rows, a).available - q),
                                Entry(b, TransferIn, ref, q, seenTarget, RowAt(both.rows, b).available)])
  }

  lemma TransferReads(y: System, turn: Turn)
    requires turn.process < |y.processes|
    requires y.processes[turn.process].pc == Start && y.processes[turn.process].call.TransferStock?
    ensures var p := y.processes[turn.process];
      var a, b := SourceKey(p.call), TargetKey(p.call);
      var o := Opened(Opened(y.stock, a), b);
      var y' := Twice(y, turn);
      && y'.stock == o
      && y'.processes[turn.process] == p.(
           pc := if RowAt(o.rows, a).available < p.call.quantity then Failed else Checked,
           seen := RowAt(o.rows, a).available, seenTarget := RowAt(o.rows, b).available)
  {
  }

  lemma IncrementsCommute(s: State, a: Key, b: Key, q: int)
    requires a != b
    ensures var source, target := RowAt(s.rows, a), RowAt(s.rows, b);
      var sent, got := Row(source.available - q, source.reserved), Row(target.available + q, target.reserved);
      var both := s.(rows := s.rows[a := sent][b := got]);
      && Incremented(Incremented(s, a, -q, 0), b, q, 0) == both
      && Incremented(Incremented(s, b, q, 0), a, -q, 0) == both
  {
    var source, target := RowAt(s.rows, a), RowAt(s.rows, b);
    var sent, got := Row(source.available - q, source.reserved), Row(target.available + q, target.reserved);
    assert s.rows[b := got][a := sent] == s.rows[a := sent][b := got];
  }

  lemma TransferWrites(y: System, turn: Turn)
    requires turn.process < |y.processes|
    requires y.processes[turn.process].pc == Checked && y.processes[turn.process].call.TransferStock?
    requires SourceKey(y.processes[turn.process].call) != TargetKey(y.processes[turn.process].call)
    ensures var p := y.processes[turn.process];
      var a, b, q := SourceKey(p.call), TargetKey(p.call), p.call.quantity;
      var y' := Twice(y, turn);
      && y'.stock == Incremented(Incremented(y.stock, a, -q, 0), b, q, 0)
      && y'.processes[turn.process] == p.(pc := WroteBoth, got := RowAt(y.stock.rows, a).available - q)
  {
    var p := y.processes[turn.process];
    IncrementsCommute(y.stock, SourceKey(p.call), TargetKey(p.call), p.call.quantity);
  }

  lemma TransferLogs(y: System, turn: Turn)
    requires turn.process < |y.processes|
    requires y.processes[turn.process].pc == WroteBoth && y.processes[turn.process].call.TransferStock?
    ensures var p := y.processes[turn.process];
      var a, b, q, ref := SourceKey(p.call), TargetKey(p.call), p.call.quantity, RefOf(p.call);
      var y' := Thrice(y, turn);
      && y'.stock == y.stock.(ledger := y.stock.ledger + [
           Entry(a, TransferOut, ref, -q, p.seen, p.got),
           Entry(b, TransferIn, ref, q, p.seenTarget, RowAt(y.stock.rows, b).available)])
      && y'.processes[turn.process].pc == Finished
  {
  }

  /** What a transfer that has passed its check still does, undisturbed. */
  lemma TransferMoves(y: System, turn: Turn)
    requires turn.process < |y.processes|
    requires y.processes[turn.process].pc == Checked && y.processes[turn.process].call.TransferStock?
    requires SourceKey(y.processes[turn.process].call) != TargetKey(y.processes[turn.process].call)
    ensures var p := y.processes[turn.process];
      var a, b, q, ref := SourceKey(p.call), TargetKey(p.call), p.call.quantity, RefOf(p.call);
      var y' := Thrice(Twice(y, turn), turn);
      && y'.stock == MovedBetween(y.stock, a, b, q, ref, p.seen, p.seenTarget)
      && y'.processes[turn.process].pc == Finished
  {
    TransferWrites(y, turn);
    TransferLogs(Twice(y, turn), turn);
  }

  lemma TransferredEffect(s: State, a: Key, b: Key, q: int, id: string)
    requires a != b
    ensures var o := Opened(Opened(s, a), b);
      Transferred(s, a, b, q, id) ==
        if RowAt(o.rows, a).available < q then Refused(o)
        else Done(MovedBetween(o, a, b, q, TransferRef(id), RowAt(o.rows, a).available, RowAt(o.rows, b).available))
  {
  }

  lemma ReturnedStays(y: System, turn: Turn)
    requires turn.process < |y.processes| && y.processes[turn.process].pc in {Finished, Failed}
    ensures Step(y, turn) == y
  {
  }

  /** A transfer whose rows, as it read them in s, nobody has touched. */
  ghost predicate JustRead(s: State, y: System, turn: Turn) {
    turn.process < |y.processes| &&
    var p := y.processes[turn.process];
    && p.call.TransferStock? && SourceKey(p.call) != TargetKey(p.call)
    && y.stock == Opened(Opened(s, SourceKey(p.call)), TargetKey(p.call))
    && p.pc == (if p.seen < p.call.quantity then Failed else Checked)
    && p.seen == RowAt(y.stock.rows, SourceKey(p.call)).available
    && p.seenTarget == RowAt(y.stock.rows, TargetKey(p.call)).available
  }

  lemma RefusedAfterReads(s: State, y: System, turn: Turn)
    requires JustRead(s, y, turn) && y.processes[turn.process].pc == Failed
    ensures var m := y.processes[turn.process].call;
      Transferred(s, SourceKey(m), TargetKey(m), m.quantity, m.transfer) == Refused(y.stock)
    ensures Thrice(Twice(y, turn), turn) == y
  {
    ReturnedStays(y, turn);
  }

  lemma MovedAfterReads(s: State, y: System, turn: Turn)
    requires JustRead(s, y, turn) && y.processes[turn.process].pc == Checked
    ensures var m := y.processes[turn.process].call;
      var y' := Thrice(Twice(y, turn), turn);
      && Transferred(s, SourceKey(m), TargetKey(m), m.quantity, m.transfer) == Done(y'.stock)
      && y'.processes[turn.process].pc == Finished
  {
    var m := y.processes[turn.process].call;
    TransferredEffect(s, SourceKey(m), TargetKey(m), m.quantity, m.transfer);
    TransferMoves(y, turn);
  }

  /** A transfer run without a break is the atomic transfer; the order of its two
      concurrent updates does not matter between distinct rows. */
  lemma UndisturbedTransferIsApply(y: System, turn: Turn)
    requires turn.process < |y.processes|
    requires y.processes[turn.process].pc == Start && y.processes[turn.process].call.TransferStock?
    requires SourceKey(y.processes[turn.process].call) != TargetKey(y.processes[turn.process].call)
    ensures var e := Apply(y.stock, y.processes[turn.process].call);
      var y' := Thrice(Twice(Twice(y, turn), turn), turn);
      y'.stock == e.state && y'.processes[turn.process].pc == if e.Done? then Finished else Failed
  {
    var y2 := Twice(y, turn);
    TransferReads(y, turn);
    if y2.processes[turn.process].pc == Failed {
      RefusedAfterReads(y.stock, y2, turn);
    } else {
      MovedAfterReads(y.stock, y2, turn);
    }
  }

  // ---------- Whole calls one after another ----------

  /** A step changes nobody else's progress. */
  lemma OthersUntouched(y: System, turn: Turn)
    ensures |Step(y, turn).processes| == |y.processes|
    ensures forall j | 0 <= j < |y.processes| && j != turn.process :: Step(y, turn).processes[j] == y.processes[j]
    ensures turn.process < |y.processes|
      ==> Step(y, turn).processes[turn.process].call == y.processes[turn.process].call
  {
  }

  lemma OthersUntouchedThrice(y: System, turn: Turn)
    ensures |Thrice(y, turn).processes| == |y.processes|
    ensures forall j | 0 <= j < |y.processes| && j != turn.process :: Thrice(y, turn).processes[j] == y.processes[j]
    ensures turn.process < |y.processes|
      ==> Twice(y, turn).processes[turn.process].call == y.processes[turn.process].call
    ensures turn.process < |y.processes|
      ==> Thrice(y, turn).processes[turn.process].call == y.processes[turn.process].call
  {
    OthersUntouched(y, turn);
    OthersUntouched(Step(y, turn), turn);
    OthersUntouched(Twice(y, turn), turn);
  }

  lemma OthersUntouchedTwice(y: System, turn: Turn)
    ensures |Twice(y, turn).processes| == |y.processes|
    ensures forall j | 0 <= j < |y.processes| && j != turn.process :: Twice(y, turn).processes[j] == y.processes[j]
    ensures turn.process < |y.processes|
      ==> Twice(y, turn).processes[turn.process].call == y.processes[turn.process].call
  {
    OthersUntouched(y, turn);
    OthersUntouched(Step(y, turn), turn);
  }

  predicate BetweenTwoRows(m: Movement) {
    m.TransferStock? ==> SourceKey(m) != TargetKey(m)
  }

  lemma WholeIsApply(y: System, turn: Turn)
    requires turn.process < |y.processes| && y.processes[turn.process].pc == Start
    requires BetweenTwoRows(y.processes[turn.process].call)
    ensures var y' := Whole(y, turn);
      && y'.stock == Apply(y.stock, y.processes[turn.process].call).state
      && |y'.processes| == |y.processes|
      && forall j | 0 <= j < |y.processes| && j != turn.process :: y'.processes[j] == y.processes[j]
  {
    if y.processes[turn.process].call.TransferStock? {
      UndisturbedTransferIsApply(y, turn);
      OthersUntouchedTwice(y, turn);
      OthersUntouchedTwice(Twice(y, turn), turn);
      OthersUntouchedThrice(Twice(Twice(y, turn), turn), turn);
    } else {
      UndisturbedSingleIsApply(y, turn);
      OthersUntouchedThrice(y, turn);
    }
  }

  /** The turns name different calls that have not begun. */
  predicate Waiting(y: System, order: seq<Turn>) {
    && (forall i | 0 <= i < |order| :: order[i].process < |y.processes| && y.processes[order[i].process].pc == Start)
    && (forall i, j | 0 <= i < j < |order| :: order[i].process != order[j].process)
  }

  function CallsIn(y: System, order: seq<Turn>): seq<Movement>
    requires Waiting(y, order)
  {
    seq(|order|, i requires 0 <= i < |order| => y.processes[order[i].process].call)
  }

  /** The schedule that runs the named calls one after another, each to its end. */
  function OneByOne(y: System, order: seq<Turn>): seq<Turn>
    requires Waiting(y, order)
  {
    if order == [] then []
    else Turns(y.processes[order[0].process].call, order[0]) + OneByOne(y, order[1..])
  }

  lemma {:induction false} OneByOneKept(y: System, y': System, order: seq<Turn>)
    requires Waiting(y, order) && Waiting(y', order)
    requires forall i | 0 <= i < |order| :: y'.processes[order[i].process] == y.processes[order[i].process]
    ensures OneByOne(y', order) == OneByOne(y, order) && CallsIn(y', order) == CallsIn(y, order)
  {
    if order != [] { OneByOneKept(y, y', order[1..]); }
  }

  /** Whole calls, in any order, are an atomic run in that order. */
  lemma {:induction false} OneByOneIsAtomic(y: System, order: seq<Turn>)
    requires Waiting(y, order) && forall m | m in CallsIn(y, order) :: BetweenTwoRows(m)
    ensures Scheduled(y, OneByOne(y, order)).stock == Stock.Run(y.stock, CallsIn(y, order))
    decreases |order|
  {
    if order != [] {
      var turn, rest := order[0], order[1..];
      var y' := Whole(y, turn);
      assert CallsIn(y, order)[0] == y.processes[turn.process].call && CallsIn(y, order)[1..] == CallsIn(y, rest);
      WholeIsApply(y, turn);
      WholeIsScheduled(y, turn, OneByOne(y, rest));
      OneByOneKept(y, y', rest);
      forall m | m in CallsIn(y', rest) ensures BetweenTwoRows(m) {
        assert m in CallsIn(y, order)[1..];
      }
      OneByOneIsAtomic(y', rest);
    }
  }

  /** Hence a serial schedule of admissible calls keeps stock and ledger reconciled. */
  lemma SerialSchedulesStayReconciled(s: State, calls: seq<Movement>, order: seq<Turn>)
    requires Reconciled(s) && forall m | m in calls :: Admissible(m)
    requires Waiting(Boot(s, calls), order)
    ensures var y0 := Boot(s, calls);
      var y := Scheduled(y0, OneByOne(y0, order));
      y.stock == Stock.Run(s, CallsIn(y0, order)) && Reconciled(y.stock)
  {
    var y0 := Boot(s, calls);
    forall m | m in CallsIn(y0, order) ensures Admissible(m) && BetweenTwoRows(m) {
      var i :| 0 <= i < |order| && m == CallsIn(y0, order)[i];
      assert calls[order[i].process] in calls;
    }
    OneByOneIsAtomic(y0, order);
    RunReconciled(s, CallsIn(y0, order));
  }
}
