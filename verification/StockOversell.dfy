/** When racing stock calls can take availableQty or reservedQty of a row below zero: the
    guards are evaluated on the row as it was read (src/inventory/stock/stock.service.ts). */
module StockOversell {
  import opened Stock
  import opened StockInterleaving
  import opened StockSerial

  /** The two quantities of a row. */
  datatype Gauge = Available | Reserved

  function Level(s: State, k: Key, g: Gauge): int {
    match g
    case Available => RowAt(s.rows, k).available
    case Reserved => RowAt(s.rows, k).reserved
  }

  /** The calls that take their quantity from the row of k, guarded by what they read. */
  predicate Takes(m: Movement, k: Key, g: Gauge) {
    match m
    case ReserveStock(key, _, _) => g.Available? && key == k
    case DecreaseStock(key, _, _) => g.Available? && key == k
    case ReleaseStock(key, _, _) => g.Reserved? && key == k
    case TransferStock(_, _, _, _, _) => g.Available? && SourceKey(m) == k
    case _ => false
  }

  /** The unguarded calls that add to it: the receiving of goods. */
  predicate Raises(m: Movement, k: Key, g: Gauge) {
    m.IncreaseStock? && g.Available? && m.key == k
  }

  /** Calls that take from the row, add to it unguarded, or leave it alone. Left out are
      those that write it absolutely or add to it under a guard of their own. */
  predicate Racing(m: Movement, k: Key, g: Gauge) {
    match g
    case Available =>
      (match m
       case ReleaseStock(key, _, _) => key != k
       case AdjustStock(key, _) => key != k
       case TransferStock(_, _, _, q, _) => 1 <= q && TargetKey(m) != k
       case _ => 1 <= m.quantity)
    case Reserved =>
      (match m
       case ReleaseStock(_, q, _) => 1 <= q
       case ReserveStock(key, _, _) => key != k
       case _ => true)
  }

  /** The call would pass its guard on a row at the given level. */
  predicate Fits(m: Movement, k: Key, g: Gauge, level: int) { Takes(m, k, g) && m.quantity <= level }

  /** What the calls that each fit on their own want together. */
  function Demand(calls: seq<Movement>, k: Key, g: Gauge, level: int): int {
    if calls == [] then 0
    else
      var m := calls[|calls| - 1];
      Demand(calls[..|calls| - 1], k, g, level) + if Fits(m, k, g, level) then m.quantity else 0
  }

  /** What the chosen ones among the first n calls add. */
  function Raise(calls: seq<Movement>, k: Key, g: Gauge, chosen: set<nat>, n: nat): int
    requires n <= |calls|
  {
    if n == 0 then 0
    else
      Raise(calls, k, g, chosen, n - 1)
      + if n - 1 in chosen && Raises(calls[n - 1], k, g) then calls[n - 1].quantity else 0
  }

  /** The level once the chosen additions, and nothing else, are in. */
  function RaisedLevel(s: State, calls: seq<Movement>, k: Key, g: Gauge, chosen: set<nat>): int {
    Level(s, k, g) + Raise(calls, k, g, chosen, |calls|)
  }

  // ---------- No schedule takes more than the demand ----------

  predicate Written(p: Process) {
    p.pc in {Wrote, Finished, WroteSource, WroteBoth, Reread, LoggedOut}
  }

  function Rise(p: Process, k: Key, g: Gauge): int {
    if Raises(p.call, k, g) && Written(p) then p.call.quantity else 0
  }

  function Gain(p: Process, k: Key, g: Gauge): int {
    Rise(p, k, g) - if Takes(p.call, k, g) && Written(p) then p.call.quantity else 0
  }

  function Rises(ps: seq<Process>, k: Key, g: Gauge, n: nat): int
    requires n <= |ps|
  {
    if n == 0 then 0 else Rises(ps, k, g, n - 1) + Rise(ps[n - 1], k, g)
  }

  function Gains(ps: seq<Process>, k: Key, g: Gauge, n: nat): int
    requires n <= |ps|
  {
    if n == 0 then 0 else Gains(ps, k, g, n - 1) + Gain(ps[n - 1], k, g)
  }

  /** A call under way has read no more than the given level. */
  predicate InBounds(p: Process, k: Key, g: Gauge, top: int) {
    Takes(p.call, k, g) ==>
      match p.pc
      case Start => true
      case Failed => true
      case SawSource => p.seen <= top
      case _ => p.call.quantity <= top
  }

  lemma {:induction false} GainsReplaced(ps: seq<Process>, i: nat, p: Process, k: Key, g: Gauge, n: nat)
    requires i < |ps| && n <= |ps|
    ensures Gains(ps[i := p], k, g, n) == Gains(ps, k, g, n) + if i < n then Gain(p, k, g) - Gain(ps[i], k, g) else 0
    ensures Rises(ps[i := p], k, g, n) == Rises(ps, k, g, n) + if i < n then Rise(p, k, g) - Rise(ps[i], k, g) else 0
  {
    if n > 0 { GainsReplaced(ps, i, p, k, g, n - 1); }
  }

  lemma {:induction false} GainsBelowRises(ps: seq<Process>, k: Key, g: Gauge, n: nat)
    requires n <= |ps| && forall i | 0 <= i < |ps| :: Racing(ps[i].call, k, g)
    ensures Gains(ps, k, g, n) <= Rises(ps, k, g, n)
  {
    if n > 0 {
      GainsBelowRises(ps, k, g, n - 1);
      assert Racing(ps[n - 1].call, k, g);
    }
  }

  /** What a step of a call does: it moves the level by its gain, and goes on only with a
      quantity that fitted the level it read. */
  predicate StepFits(y: System, y': System, i: nat, k: Key, g: Gauge, top: int)
    requires i < |y.processes| == |y'.processes|
  {
    var p, p' := y.processes[i], y'.processes[i];
    && p'.call == p.call && Rise(p, k, g) <= Rise(p', k, g)
    && Level(y'.stock, k, g) - Level(y.stock, k, g) == Gain(p', k, g) - Gain(p, k, g)
    && InBounds(p', k, g, top)
  }

  lemma SingleStepFits(y: System, i: nat, k: Key, g: Gauge, top: int)
    requires i < |y.processes| && !y.processes[i].call.TransferStock? && Racing(y.processes[i].call, k, g)
    requires InBounds(y.processes[i], k, g, top) && Level(y.stock, k, g) <= top
    ensures StepFits(y, StepSingle(y, i), i, k, g, top)
  {
  }

  lemma TransferWriteFits(y: System, i: nat, targetFirst: bool, k: Key, g: Gauge, top: int)
    requires i < |y.processes| && y.processes[i].call.TransferStock? && Racing(y.processes[i].call, k, g)
    requires InBounds(y.processes[i], k, g, top) && Writes(y.processes[i].pc)
    ensures StepFits(y, StepTransfer(y, i, targetFirst), i, k, g, top)
  {
  }

  lemma TransferStepFits(y: System, i: nat, targetFirst: bool, k: Key, g: Gauge, top: int)
    requires i < |y.processes| && y.processes[i].call.TransferStock? && Racing(y.processes[i].call, k, g)
    requires InBounds(y.processes[i], k, g, top) && Level(y.stock, k, g) <= top
    ensures StepFits(y, StepTransfer(y, i, targetFirst), i, k, g, top)
  {
    if Writes(y.processes[i].pc) { TransferWriteFits(y, i, targetFirst, k, g, top); }
  }

  /** The level is what the written calls have made of it, and nobody under way has read
      more than the start and all additions so far. */
  predicate Accounted(y: System, calls: seq<Movement>, k: Key, g: Gauge, start: int) {
    && |y.processes| == |calls|
    && (forall i | 0 <= i < |calls| :: y.processes[i].call == calls[i])
    && Level(y.stock, k, g) == start + Gains(y.processes, k, g, |calls|)
    && forall i | 0 <= i < |calls| :: InBounds(y.processes[i], k, g, start + Rises(y.processes, k, g, |calls|))
  }

  lemma {:induction false} FittingStepAccounted(y: System, y': System, i: nat, calls: seq<Movement>, k: Key, g: Gauge,
                                                start: int)
    requires Accounted(y, calls, k, g, start) && i < |calls| == |y'.processes|
    requires StepFits(y, y', i, k, g, start + Rises(y.processes, k, g, |calls|))
    requires y'.processes == y.processes[i := y'.processes[i]]
    ensures Accounted(y', calls, k, g, start)
  {
    GainsReplaced(y.processes, i, y'.processes[i], k, g, |calls|);
    forall j | 0 <= j < |calls|
      ensures y'.processes[j].call == calls[j]
      ensures InBounds(y'.processes[j], k, g, start + Rises(y'.processes, k, g, |calls|))
    {
      assert y.processes[j].call == calls[j];
      assert InBounds(y.processes[j], k, g, start + Rises(y.processes, k, g, |calls|));
    }
  }

  lemma {:induction false} StepAccounted(y: System, turn: Turn, calls: seq<Movement>, k: Key, g: Gauge, start: int)
    requires Accounted(y, calls, k, g, start) && turn.process < |calls|
    requires forall i | 0 <= i < |calls| :: Racing(calls[i], k, g)
    ensures Accounted(Step(y, turn), calls, k, g, start)
  {
    var i, y' := turn.process, Step(y, turn);
    var top := start + Rises(y.processes, k, g, |calls|);
    GainsBelowRises(y.processes, k, g, |calls|);
    if y.processes[i].call.TransferStock? {
      TransferStepFits(y, i, turn.targetFirst, k, g, top);
    } else {
      SingleStepFits(y, i, k, g, top);
    }
    OthersUntouched(y, turn);
    assert y'.processes == y.processes[i := y'.processes[i]];
    FittingStepAccounted(y, y', i, calls, k, g, start);
  }

  lemma {:induction false} RunAccounted(y: System, schedule: seq<Turn>, calls: seq<Movement>, k: Key, g: Gauge,
                                        start: int)
    requires Accounted(y, calls, k, g, start)
    requires forall i | 0 <= i < |calls| :: Racing(calls[i], k, g)
    ensures Accounted(Scheduled(y, schedule), calls, k, g, start)
    decreases |schedule|
  {
    if schedule != [] {
      if schedule[0].process < |calls| { StepAccounted(y, schedule[0], calls, k, g, start); }
      RunAccounted(Step(y, schedule[0]), schedule[1..], calls, k, g, start);
    }
  }

  lemma {:induction false} BootAccounted(s: State, calls: seq<Movement>, k: Key, g: Gauge, n: nat)
    requires n <= |calls|
    ensures Gains(Boot(s, calls).processes, k, g, n) == 0 && Rises(Boot(s, calls).processes, k, g, n) == 0
  {
    if n > 0 { BootAccounted(s, calls, k, g, n - 1); }
  }

  /** Whoever has taken something fitted the level. */
  lemma {:induction false} TakenWithinDemand(ps: seq<Process>, calls: seq<Movement>, k: Key, g: Gauge, top: int, n: nat)
    requires n <= |ps| == |calls| && forall i | 0 <= i < |calls| :: ps[i].call == calls[i]
    requires forall i | 0 <= i < |calls| :: Racing(calls[i], k, g) && InBounds(ps[i], k, g, top)
    ensures Rises(ps, k, g, n) - Demand(calls[..n], k, g, top) <= Gains(ps, k, g, n)
  {
    if n > 0 {
      TakenWithinDemand(ps, calls, k, g, top, n - 1);
      assert calls[..n][..n - 1] == calls[..n - 1];
      assert InBounds(ps[n - 1], k, g, top) && Racing(calls[n - 1], k, g);
    }
  }

  lemma {:induction false} RisesAreChosen(ps: seq<Process>, calls: seq<Movement>, k: Key, g: Gauge, chosen: set<nat>,
                                          n: nat)
    requires n <= |ps| == |calls| && forall i | 0 <= i < |calls| :: ps[i].call == calls[i]
    requires forall i: nat | i < |calls| :: i in chosen <==> Written(ps[i])
    ensures Rises(ps, k, g, n) == Raise(calls, k, g, chosen, n)
  {
    if n > 0 { RisesAreChosen(ps, calls, k, g, chosen, n - 1); }
  }

  /** An accounted state is at the level some additions have made, less at most what
      fits there. */
  lemma {:induction false} AccountedWithinDemand(y: System, s: State, calls: seq<Movement>, k: Key,
                                                 g: Gauge)
    returns (chosen: set<nat>)
    requires Accounted(y, calls, k, g, Level(s, k, g))
    requires forall i | 0 <= i < |calls| :: Racing(calls[i], k, g)
    ensures var top := RaisedLevel(s, calls, k, g, chosen);
      top - Demand(calls, k, g, top) <= Level(y.stock, k, g)
  {
    var n := |calls|;
    chosen := set i: nat | i < n && Written(y.processes[i]);
    RisesAreChosen(y.processes, calls, k, g, chosen, n);
    TakenWithinDemand(y.processes, calls, k, g, RaisedLevel(s, calls, k, g, chosen), n);
    assert calls[..n] == calls;
  }

  lemma {:induction false} NeverBelowZero(s: State, calls: seq<Movement>, k: Key, g: Gauge, schedule: seq<Turn>)
    requires forall i | 0 <= i < |calls| :: Racing(calls[i], k, g)
    requires forall chosen ::
      Demand(calls, k, g, RaisedLevel(s, calls, k, g, chosen)) <= RaisedLevel(s, calls, k, g, chosen)
    ensures 0 <= Level(Scheduled(Boot(s, calls), schedule).stock, k, g)
  {
    var y0 := Boot(s, calls);
    BootAccounted(s, calls, k, g, |calls|);
    RunAccounted(y0, schedule, calls, k, g, Level(s, k, g));
    var chosen := AccountedWithinDemand(Scheduled(y0, schedule), s, calls, k, g);
    assert Demand(calls, k, g, RaisedLevel(s, calls, k, g, chosen)) <= RaisedLevel(s, calls, k, g, chosen);
  }

  // ---------- The worst schedule: the chosen additions, then all reads, then all writes ----------

  lemma {:induction false} ScheduledInTwo(y: System, first: seq<Turn>, second: seq<Turn>)
    ensures Scheduled(y, first + second) == Scheduled(Scheduled(y, first), second)
    decreases |first|
  {
    if first == [] {
      assert first + second == second;
    } else {
      assert (first + second)[1..] == first[1..] + second;
      ScheduledInTwo(Step(y, first[0]), first[1..], second);
    }
  }

  /** All steps of call i if it is a chosen addition. */
  function RaiseTurns(m: Movement, k: Key, g: Gauge, chosen: set<nat>, i: nat): seq<Turn> {
    if i in chosen && Raises(m, k, g) then Turns(m, Turn(i, false)) else []
  }

  function AllRaise(calls: seq<Movement>, k: Key, g: Gauge, chosen: set<nat>, n: nat): seq<Turn>
    requires n <= |calls|
  {
    if n == 0 then []
    else AllRaise(calls, k, g, chosen, n - 1) + RaiseTurns(calls[n - 1], k, g, chosen, n - 1)
  }

  /** The turns in which call i reads. */
  function ReadTurns(m: Movement, i: nat): seq<Turn> {
    if m.TransferStock? then [Turn(i, false), Turn(i, false)] else [Turn(i, false)]
  }

  /** Everybody among the first n calls who takes from the row reads. */
  function AllRead(calls: seq<Movement>, k: Key, g: Gauge, n: nat): seq<Turn>
    requires n <= |calls|
  {
    if n == 0 then []
    else AllRead(calls, k, g, n - 1) + if Takes(calls[n - 1], k, g) then ReadTurns(calls[n - 1], n - 1) else []
  }

  /** Everybody among them takes one more step. */
  function AllWrite(calls: seq<Movement>, k: Key, g: Gauge, n: nat): seq<Turn>
    requires n <= |calls|
  {
    if n == 0 then []
    else AllWrite(calls, k, g, n - 1) + if Takes(calls[n - 1], k, g) then [Turn(n - 1, false)] else []
  }

  /** A call that has just read a row at the given level. */
  predicate HasRead(p: Process, m: Movement, g: Gauge, level: int) {
    && p.call == m && p.pc == (if m.quantity <= level then Checked else Failed)
    && (g.Available? ==> p.seen == level)
  }

  /** The takers from call n on have not begun, and those before it have read. */
  predicate ReadUpTo(y: System, calls: seq<Movement>, k: Key, g: Gauge, level: int, n: nat) {
    && |y.processes| == |calls| && n <= |calls| && Level(y.stock, k, g) == level
    && (forall j | 0 <= j < n && Takes(calls[j], k, g) :: HasRead(y.processes[j], calls[j], g, level))
    && (forall j | n <= j < |calls| && Takes(calls[j], k, g) ::
         y.processes[j].call == calls[j] && y.processes[j].pc.Start?)
  }

  lemma CallRaises(y: System, i: nat, k: Key, g: Gauge)
    requires i < |y.processes| && y.processes[i].pc == Start && Raises(y.processes[i].call, k, g)
    ensures var y' := Scheduled(y, Turns(y.processes[i].call, Turn(i, false)));
      && |y'.processes| == |y.processes|
      && (forall j | 0 <= j < |y.processes| && j != i :: y'.processes[j] == y.processes[j])
      && Level(y'.stock, k, g) == Level(y.stock, k, g) + y.processes[i].call.quantity
  {
    var turn := Turn(i, false);
    assert Turns(y.processes[i].call, turn) + [] == Turns(y.processes[i].call, turn);
    WholeIsScheduled(y, turn, []);
    WholeIsApply(y, turn);
  }

  /** Calls from n on have not begun, nor has any taker; the level has been raised. */
  predicate RaisedUpTo(y: System, s: State, calls: seq<Movement>, k: Key, g: Gauge, chosen: set<nat>, n: nat) {
    && |y.processes| == |calls| && n <= |calls|
    && Level(y.stock, k, g) == Level(s, k, g) + Raise(calls, k, g, chosen, n)
    && forall j | 0 <= j < |calls| && (n <= j || !Raises(calls[j], k, g)) ::
         y.processes[j].call == calls[j] && y.processes[j].pc.Start?
  }

  lemma {:induction false} OneMoreRaises(y: System, s: State, calls: seq<Movement>, k: Key, g: Gauge,
                                         chosen: set<nat>, n: nat)
    requires n < |calls| && RaisedUpTo(y, s, calls, k, g, chosen, n)
    ensures RaisedUpTo(Scheduled(y, RaiseTurns(calls[n], k, g, chosen, n)), s, calls, k, g, chosen, n + 1)
  {
    if n in chosen && Raises(calls[n], k, g) { CallRaises(y, n, k, g); }
  }

  lemma {:induction false} AfterRaise(y: System, s: State, calls: seq<Movement>, k: Key, g: Gauge, chosen: set<nat>,
                                      n: nat)
    requires n <= |calls| && RaisedUpTo(y, s, calls, k, g, chosen, 0)
    ensures RaisedUpTo(Scheduled(y, AllRaise(calls, k, g, chosen, n)), s, calls, k, g, chosen, n)
  {
    if n > 0 {
      var before := AllRaise(calls, k, g, chosen, n - 1);
      AfterRaise(y, s, calls, k, g, chosen, n - 1);
      ScheduledInTwo(y, before, RaiseTurns(calls[n - 1], k, g, chosen, n - 1));
      OneMoreRaises(Scheduled(y, before), s, calls, k, g, chosen, n - 1);
    }
  }

  lemma CallReads(y: System, i: nat, k: Key, g: Gauge)
    requires i < |y.processes| && y.processes[i].pc == Start && Takes(y.processes[i].call, k, g)
    ensures var y' := Scheduled(y, ReadTurns(y.processes[i].call, i));
      && |y'.processes| == |y.processes|
      && (forall j | 0 <= j < |y.processes| && j != i :: y'.processes[j] == y.processes[j])
      && HasRead(y'.processes[i], y.processes[i].call, g, Level(y.stock, k, g))
      && Level(y'.stock, k, g) == Level(y.stock, k, g) && y'.stock.ledger == y.stock.ledger
  {
    var turn := Turn(i, false);
    if y.processes[i].call.TransferStock? {
      TwiceIsScheduled(y, turn, []);
      assert [turn, turn] + [] == [turn, turn];
      TransferReads(y, turn);
      OthersUntouchedTwice(y, turn);
    } else {
      assert [turn][1..] == [];
    }
  }

  lemma {:induction false} OneMoreReads(y: System, calls: seq<Movement>, k: Key, g: Gauge, level: int, n: nat)
    requires n < |calls| && ReadUpTo(y, calls, k, g, level, n)
    ensures var turns := if Takes(calls[n], k, g) then ReadTurns(calls[n], n) else [];
      ReadUpTo(Scheduled(y, turns), calls, k, g, level, n + 1)
  {
    if Takes(calls[n], k, g) { CallReads(y, n, k, g); }
  }

  lemma {:induction false} AfterAllRead(y: System, calls: seq<Movement>, k: Key, g: Gauge, level: int, n: nat)
    requires n <= |calls| && ReadUpTo(y, calls, k, g, level, 0)
    ensures ReadUpTo(Scheduled(y, AllRead(calls, k, g, n)), calls, k, g, level, n)
  {
    if n > 0 {
      var before := AllRead(calls, k, g, n - 1);
      AfterAllRead(y, calls, k, g, level, n - 1);
      ScheduledInTwo(y, before, if Takes(calls[n - 1], k, g) then ReadTurns(calls[n - 1], n - 1) else []);
      OneMoreReads(Scheduled(y, before), calls, k, g, level, n - 1);
    }
  }

  /** The next step of a call that has read takes its quantity if it fitted. */
  lemma CallTakes(y: System, i: nat, m: Movement, k: Key, g: Gauge, level: int)
    requires i < |y.processes| && HasRead(y.processes[i], m, g, level)
    requires Racing(m, k, g) && Takes(m, k, g)
    ensures var y' := Scheduled(y, [Turn(i, false)]);
      && |y'.processes| == |y.processes|
      && (forall j | 0 <= j < |y.processes| && j != i :: y'.processes[j] == y.processes[j])
      && Level(y'.stock, k, g) == Level(y.stock, k, g) - if Fits(m, k, g, level) then m.quantity else 0
  {
    assert [Turn(i, false)][1..] == [];
    OthersUntouched(y, Turn(i, false));
  }

  predicate WrittenUpTo(y: System, calls: seq<Movement>, k: Key, g: Gauge, level: int, n: nat) {
    && |y.processes| == |calls| && n <= |calls|
    && Level(y.stock, k, g) == level - Demand(calls[..n], k, g, level)
    && forall j | n <= j < |calls| && Takes(calls[j], k, g) :: HasRead(y.processes[j], calls[j], g, level)
  }

  lemma {:induction false} OneMoreWrites(y: System, calls: seq<Movement>, k: Key, g: Gauge, level: int, n: nat)
    requires n < |calls| && WrittenUpTo(y, calls, k, g, level, n) && Racing(calls[n], k, g)
    ensures WrittenUpTo(Scheduled(y, if Takes(calls[n], k, g) then [Turn(n, false)] else []), calls, k, g, level, n + 1)
  {
    assert calls[..n + 1][..n] == calls[..n];
    if Takes(calls[n], k, g) { CallTakes(y, n, calls[n], k, g, level); }
  }

  lemma WritesGoOn(y: System, calls: seq<Movement>, k: Key, g: Gauge, level: int, n: nat)
    requires n < |calls| && Racing(calls[n], k, g)
    requires WrittenUpTo(Scheduled(y, AllWrite(calls, k, g, n)), calls, k, g, level, n)
    ensures WrittenUpTo(Scheduled(y, AllWrite(calls, k, g, n + 1)), calls, k, g, level, n + 1)
  {
    var before, last := AllWrite(calls, k, g, n), if Takes(calls[n], k, g) then [Turn(n, false)] else [];
    assert AllWrite(calls, k, g, n + 1) == before + last;
    ScheduledInTwo(y, before, last);
    OneMoreWrites(Scheduled(y, before), calls, k, g, level, n);
  }

  lemma {:induction false} AfterAllWrite(y: System, calls: seq<Movement>, k: Key, g: Gauge, level: int, n: nat)
    requires n <= |calls| && WrittenUpTo(y, calls, k, g, level, 0)
    requires forall i | 0 <= i < |calls| :: Racing(calls[i], k, g)
    ensures WrittenUpTo(Scheduled(y, AllWrite(calls, k, g, n)), calls, k, g, level, n)
  {
    if n > 0 {
      AfterAllWrite(y, calls, k, g, level, n - 1);
      WritesGoOn(y, calls, k, g, level, n - 1);
    }
  }

  function WorstSchedule(calls: seq<Movement>, k: Key, g: Gauge, chosen: set<nat>): seq<Turn> {
    AllRaise(calls, k, g, chosen, |calls|) + (AllRead(calls, k, g, |calls|) + AllWrite(calls, k, g, |calls|))
  }

  lemma {:induction false} WorstScheduleTakesDemand(s: State, calls: seq<Movement>, k: Key, g: Gauge, chosen: set<nat>)
    requires forall i | 0 <= i < |calls| :: Racing(calls[i], k, g)
    ensures var top := RaisedLevel(s, calls, k, g, chosen);
      Level(Scheduled(Boot(s, calls), WorstSchedule(calls, k, g, chosen)).stock, k, g) == top - Demand(calls, k, g, top)
  {
    var n, y0, top := |calls|, Boot(s, calls), RaisedLevel(s, calls, k, g, chosen);
    var raise, read, write := AllRaise(calls, k, g, chosen, n), AllRead(calls, k, g, n), AllWrite(calls, k, g, n);
    AfterRaise(y0, s, calls, k, g, chosen, n);
    var y1 := Scheduled(y0, raise);
    AfterAllRead(y1, calls, k, g, top, n);
    assert calls[..0] == [];
    AfterAllWrite(Scheduled(y1, read), calls, k, g, top, n);
    ScheduledInTwo(y0, raise, read + write);
    ScheduledInTwo(y1, read, write);
    assert calls[..n] == calls;
  }

  /** For any racing calls, no interleaving takes the quantity below zero if and only if,
      whichever of the additions are already in, the calls that each fit then also fit
      together. */
  lemma NeverNegativeIff(s: State, calls: seq<Movement>, k: Key, g: Gauge)
    requires forall i | 0 <= i < |calls| :: Racing(calls[i], k, g)
    ensures (forall schedule :: 0 <= Level(Scheduled(Boot(s, calls), schedule).stock, k, g))
      <==> (forall chosen ::
              Demand(calls, k, g, RaisedLevel(s, calls, k, g, chosen)) <= RaisedLevel(s, calls, k, g, chosen))
  {
    if forall chosen ::
      Demand(calls, k, g, RaisedLevel(s, calls, k, g, chosen)) <= RaisedLevel(s, calls, k, g, chosen) {
      forall schedule ensures 0 <= Level(Scheduled(Boot(s, calls), schedule).stock, k, g) {
        NeverBelowZero(s, calls, k, g, schedule);
      }
    } else {
      var chosen :| Demand(calls, k, g, RaisedLevel(s, calls, k, g, chosen)) > RaisedLevel(s, calls, k, g, chosen);
      WorstScheduleTakesDemand(s, calls, k, g, chosen);
    }
  }

  lemma {:induction false} NothingRaises(calls: seq<Movement>, k: Key, g: Gauge, chosen: set<nat>, n: nat)
    requires n <= |calls| && forall i | 0 <= i < |calls| :: !Raises(calls[i], k, g)
    ensures Raise(calls, k, g, chosen, n) == 0
  {
    if n > 0 { NothingRaises(calls, k, g, chosen, n - 1); }
  }

  lemma NeverNegativeIffDemandFits(s: State, calls: seq<Movement>, k: Key, g: Gauge)
    requires forall i | 0 <= i < |calls| :: Racing(calls[i], k, g) && !Raises(calls[i], k, g)
    ensures (forall schedule :: 0 <= Level(Scheduled(Boot(s, calls), schedule).stock, k, g))
      <==> Demand(calls, k, g, Level(s, k, g)) <= Level(s, k, g)
  {
    forall chosen ensures RaisedLevel(s, calls, k, g, chosen) == Level(s, k, g) {
      NothingRaises(calls, k, g, chosen, |calls|);
    }
    assert RaisedLevel(s, calls, k, g, {}) == Level(s, k, g);
    NeverNegativeIff(s, calls, k, g);
  }

  /** The call takes from k or leaves k alone. */
  predicate OnlySubtracts(m: Movement, k: Key) { Racing(m, k, Available) && !Raises(m, k, Available) }

  /** Any number of calls that only subtract from k: no interleaving takes k below zero
      exactly when the calls that each fit on their own also fit together. */
  lemma NeverOversellsIffDemandFits(s: State, calls: seq<Movement>, k: Key)
    requires forall i | 0 <= i < |calls| :: OnlySubtracts(calls[i], k)
    ensures var available := RowAt(s.rows, k).available;
      (forall schedule :: 0 <= RowAt(Scheduled(Boot(s, calls), schedule).stock.rows, k).available)
      <==> Demand(calls, k, Available, available) <= available
  {
    NeverNegativeIffDemandFits(s, calls, k, Available);
    if schedule :| RowAt(Scheduled(Boot(s, calls), schedule).stock.rows, k).available < 0 {
      assert Level(Scheduled(Boot(s, calls), schedule).stock, k, Available) < 0;
    }
  }

  /** Any releases of k among calls that reserve none of it: no interleaving takes
      reservedQty below zero exactly when the releases that each fit also fit together. */
  lemma NeverOverReleasesIffDemandFits(s: State, calls: seq<Movement>, k: Key)
    requires forall m | m in calls :: (m.ReleaseStock? ==> 1 <= m.quantity) && (m.ReserveStock? ==> m.key != k)
    ensures var reserved := RowAt(s.rows, k).reserved;
      (forall schedule :: 0 <= RowAt(Scheduled(Boot(s, calls), schedule).stock.rows, k).reserved)
      <==> Demand(calls, k, Reserved, reserved) <= reserved
  {
    forall i | 0 <= i < |calls| ensures Racing(calls[i], k, Reserved) { assert calls[i] in calls; }
    NeverNegativeIffDemandFits(s, calls, k, Reserved);
    if schedule :| RowAt(Scheduled(Boot(s, calls), schedule).stock.rows, k).reserved < 0 {
      assert Level(Scheduled(Boot(s, calls), schedule).stock, k, Reserved) < 0;
    }
  }
}
