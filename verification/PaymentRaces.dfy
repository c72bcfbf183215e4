/** createManual and captureGateway broken into their separate database steps
    (src/payments/payments.service.ts): read and check the invoice, create the payment,
    allocate it, sum the captured payments, write the invoice. */
module PaymentRaces {
  import opened Results
  import opened Sales

  /** A payment request; a gateway's transaction has been found unused. */
  datatype Request = Request(invoice: string, amount: int, transaction: string)

  datatype Pc = Start | Checked | Paid | Allocated | Summed | Done | Refused

  /** settled is what updateInvoicePaymentStatus has computed and not written yet. */
  datatype Process = Process(request: Request, pc: Pc, payment: nat, settled: Option<Invoice>)

  datatype System = System(store: Store, processes: seq<Process>)

  /** The checks of a request, on the invoice as it is read. */
  predicate Accepts(s: Store, r: Request) {
    && Live(s, r.invoice) && s.invoices[r.invoice].status != VOID
    && s.invoices[r.invoice].amountPaid + r.amount <= s.invoices[r.invoice].totals.grandTotal
  }

  /** The four columns that updateInvoicePaymentStatus writes. */
  function WithPaymentStatus(inv: Invoice, from: Invoice): Invoice {
    inv.(amountPaid := from.amountPaid, balanceDue := from.balanceDue, progress := from.progress, status := from.status)
  }

  function With(y: System, i: nat, p: Process, s: Store): System
    requires i < |y.processes|
  {
    System(s, y.processes[i := p])
  }

  /** The next step of a request. */
  function Advance(y: System, i: nat): (r: System)
    ensures |r.processes| == |y.processes|
  {
    if i >= |y.processes| then y
    else
      var p, s := y.processes[i], y.store;
      var r := p.request;
      match p.pc
      case Start => With(y, i, p.(pc := if Accepts(s, r) then Checked else Refused), s)
      case Checked =>
        With(y, i, p.(pc := Paid, payment := |s.payments|),
             s.(payments := s.payments + [Payment(r.invoice, r.amount, CAPTURED, r.transaction)]))
      case Paid =>
        With(y, i, p.(pc := Allocated),
             s.(allocations := s.allocations + [Allocation(p.payment, r.invoice, r.amount)]))
      case Allocated =>
        if r.invoice in s.invoices then
          With(y, i, p.(pc := Summed,
                        settled := Some(Settled(s.invoices[r.invoice], Captured(s.payments, r.invoice)))), s)
        else With(y, i, p.(pc := Done), s)
      case Summed =>
        if r.invoice in s.invoices && p.settled.Some? then
          With(y, i, p.(pc := Done),
               Put(s, r.invoice, WithPaymentStatus(s.invoices[r.invoice], p.settled.value)))
        else With(y, i, p.(pc := Done), s)
      case _ => y
  }

  function Interleaved(y: System, schedule: seq<nat>): System
    decreases |schedule|
  {
    if schedule == [] then y else Interleaved(Advance(y, schedule[0]), schedule[1..])
  }

  function Boot(s: Store, calls: seq<Request>): System {
    System(s, seq(|calls|, i requires 0 <= i < |calls| => Process(calls[i], Start, 0, None)))
  }

  predicate AllReturned(y: System) { forall p | p in y.processes :: p.pc in {Done, Refused} }

  lemma {:induction false} OthersUntouched(y: System, i: nat)
    ensures forall j | 0 <= j < |y.processes| && j != i :: Advance(y, i).processes[j] == y.processes[j]
    ensures i < |y.processes| ==> Advance(y, i).processes[i].request == y.processes[i].request
  {
  }

  lemma {:induction false} InTwo(y: System, first: seq<nat>, second: seq<nat>)
    ensures Interleaved(y, first + second) == Interleaved(Interleaved(y, first), second)
    decreases |first|
  {
    if first == [] {
      assert first + second == second;
    } else {
      assert (first + second)[1..] == first[1..] + second;
      InTwo(Advance(y, first[0]), first[1..], second);
    }
  }

  lemma PaidUndisturbed(y: System, i: nat)
    requires i < |y.processes| && y.processes[i].pc.Checked? && y.processes[i].request.invoice in y.store.invoices
    ensures var r, y' := y.processes[i].request, Advance(Advance(Advance(y, i), i), i);
      var s' := y.store.(payments := y.store.payments + [Payment(r.invoice, r.amount, CAPTURED, r.transaction)],
                         allocations := y.store.allocations + [Allocation(|y.store.payments|, r.invoice, r.amount)]);
      && y'.store == s' && y'.processes[i].pc.Summed? && y'.processes[i].request == r
      && y'.processes[i].settled == Some(Settled(s'.invoices[r.invoice], Captured(s'.payments, r.invoice)))
  {
  }

  lemma WrittenUndisturbed(y: System, i: nat)
    requires i < |y.processes| && y.processes[i].pc.Summed? && y.processes[i].request.invoice in y.store.invoices
    requires var id := y.processes[i].request.invoice;
      y.processes[i].settled == Some(Settled(y.store.invoices[id], Captured(y.store.payments, id)))
    ensures Advance(y, i).store == Reconciled(y.store, y.processes[i].request.invoice)
    ensures Advance(y, i).processes[i].pc.Done?
  {
  }

  /** The five steps of an undisturbed request are the atomic payment. */
  lemma UndisturbedIsAtomic(y: System, i: nat)
    requires i < |y.processes| && y.processes[i].pc.Start?
    ensures var r, y' := y.processes[i].request, Advance(Advance(Advance(Advance(Advance(y, i), i), i), i), i);
      var a := Pay(y.store, r.invoice, r.amount, r.transaction);
      y'.store == a.store && y'.processes[i].pc == if a.result.Success? then Done else Refused
  {
    var y1 := Advance(y, i);
    if Accepts(y.store, y.processes[i].request) {
      PaidUndisturbed(y1, i);
      WrittenUndisturbed(Advance(Advance(Advance(y1, i), i), i), i);
    }
  }

  /** The sum step computes from the payments and the invoice as they are then; the write
      step later puts the four computed columns into the invoice, and nothing else. */
  lemma SumAndWriteSteps(y: System, i: nat)
    requires i < |y.processes| && y.processes[i].request.invoice in y.store.invoices
    ensures var y', p, id := Advance(y, i), y.processes[i], y.processes[i].request.invoice;
      && (p.pc == Allocated ==>
            && y'.store == y.store && y'.processes[i].settled.Some? && y'.processes[i].pc == Summed
            && y'.processes[i].settled.value.amountPaid == Captured(y.store.payments, id))
      && (p.pc == Summed && p.settled.Some? ==>
            var before, after, computed := y.store.invoices[id], y'.store.invoices[id], p.settled.value;
            && y'.store == y.store.(invoices := y.store.invoices[id := after]) && y'.processes[i].pc == Done
            && after.amountPaid == computed.amountPaid && after.balanceDue == computed.balanceDue
            && after.progress == computed.progress && after.status == computed.status
            && after.items == before.items && after.totals == before.totals
            && after.shippingAmount == before.shippingAmount && after.deleted == before.deleted)
  {
  }

  // ---------- What a run can capture ----------

  predicate Fits(s: Store, r: Request, id: string) { r.invoice == id && Accepts(s, r) }

  /** What the requests that are each accepted want together. */
  function Demand(s: Store, calls: seq<Request>, id: string): int {
    if calls == [] then 0
    else
      var r := calls[|calls| - 1];
      Demand(s, calls[..|calls| - 1], id) + if Fits(s, r, id) then r.amount else 0
  }

  predicate HasPaid(p: Process) { p.pc in {Paid, Allocated, Summed, Done} }

  function PaidBy(p: Process, id: string): int {
    if p.request.invoice == id && HasPaid(p) then p.request.amount else 0
  }

  function SumPaid(ps: seq<Process>, id: string, n: nat): int
    requires n <= |ps|
  {
    if n == 0 then 0 else SumPaid(ps, id, n - 1) + PaidBy(ps[n - 1], id)
  }

  lemma {:induction false} SumPaidReplaced(ps: seq<Process>, i: nat, p: Process, id: string, n: nat)
    requires i < |ps| && n <= |ps|
    ensures SumPaid(ps[i := p], id, n) == SumPaid(ps, id, n) + if i < n then PaidBy(p, id) - PaidBy(ps[i], id) else 0
  {
    if n > 0 { SumPaidReplaced(ps, i, p, id, n - 1); }
  }

  /** Only requests that fitted at the start get past their check, and the stored
      amountPaid never falls below what it was. */
  predicate InBounds(p: Process, s: Store, r: Request, id: string)
    requires id in s.invoices
  {
    && p.request == r
    && (r.invoice == id && !p.pc.Start? && !p.pc.Refused? ==> Accepts(s, r))
    && (r.invoice == id && p.pc.Summed? ==> p.settled.Some? && s.invoices[id].amountPaid <= p.settled.value.amountPaid)
  }

  /** The invoice as it may have been rewritten. */
  predicate Later(t: Store, s: Store, id: string)
    requires id in s.invoices
  {
    && id in t.invoices
    && t.invoices[id].totals == s.invoices[id].totals && t.invoices[id].deleted == s.invoices[id].deleted
    && s.invoices[id].amountPaid <= t.invoices[id].amountPaid
    && (!Live(s, id) || s.invoices[id].status == VOID ==> t.invoices[id] == s.invoices[id])
  }

  predicate Accounted(y: System, s: Store, calls: seq<Request>, id: string)
    requires id in s.invoices
  {
    && |y.processes| == |calls|
    && Later(y.store, s, id)
    && Captured(y.store.payments, id) == s.invoices[id].amountPaid + SumPaid(y.processes, id, |calls|)
    && forall i | 0 <= i < |calls| :: InBounds(y.processes[i], s, calls[i], id)
  }

  predicate Positive(calls: seq<Request>) { forall i | 0 <= i < |calls| :: 1 <= calls[i].amount }

  lemma {:induction false} SumPaidNonNegative(ps: seq<Process>, calls: seq<Request>, id: string, n: nat)
    requires n <= |ps| == |calls| && Positive(calls)
    requires forall i | 0 <= i < |calls| :: ps[i].request == calls[i]
    ensures 0 <= SumPaid(ps, id, n)
  {
    if n > 0 { SumPaidNonNegative(ps, calls, id, n - 1); }
  }

  /** The step that creates the payment. */
  lemma {:induction false} PayStepCaptures(y: System, i: nat, id: string)
    requires i < |y.processes| && y.processes[i].pc.Checked?
    ensures var p, y' := y.processes[i], Advance(y, i);
      && y'.processes[i] == p.(pc := Paid, payment := |y.store.payments|)
      && y'.store.invoices == y.store.invoices
      && Captured(y'.store.payments, id) == Captured(y.store.payments, id) + PaidBy(y'.processes[i], id)
  {
    var r := y.processes[i].request;
    CapturedAppended(y.store.payments, Payment(r.invoice, r.amount, CAPTURED, r.transaction), id);
  }

  lemma {:induction false} WriteStepInBounds(y: System, i: nat, s: Store, r: Request, id: string)
    requires i < |y.processes| && id in s.invoices && InBounds(y.processes[i], s, r, id) && Later(y.store, s, id)
    requires y.processes[i].pc.Summed?
    ensures var p, y' := y.processes[i], Advance(y, i);
      && InBounds(y'.processes[i], s, r, id) && Later(y'.store, s, id)
      && Captured(y'.store.payments, id) - Captured(y.store.payments, id) == PaidBy(y'.processes[i], id) - PaidBy(p, id)
  {
  }

  /** What one step does to the account of an invoice. */
  lemma {:induction false} StepInBounds(y: System, i: nat, s: Store, r: Request, id: string)
    requires i < |y.processes| && id in s.invoices && InBounds(y.processes[i], s, r, id) && Later(y.store, s, id)
    requires s.invoices[id].amountPaid <= Captured(y.store.payments, id)
    ensures var p, y' := y.processes[i], Advance(y, i);
      && InBounds(y'.processes[i], s, r, id) && Later(y'.store, s, id)
      && Captured(y'.store.payments, id) - Captured(y.store.payments, id) == PaidBy(y'.processes[i], id) - PaidBy(p, id)
  {
    if y.processes[i].pc.Checked? {
      PayStepCaptures(y, i, id);
    } else if y.processes[i].pc.Summed? {
      WriteStepInBounds(y, i, s, r, id);
    }
  }

  lemma {:induction false} StepAccounted(y: System, i: nat, s: Store, calls: seq<Request>, id: string)
    requires id in s.invoices && Accounted(y, s, calls, id) && Positive(calls) && i < |calls|
    ensures Accounted(Advance(y, i), s, calls, id)
  {
    var y' := Advance(y, i);
    SumPaidNonNegative(y.processes, calls, id, |calls|);
    StepInBounds(y, i, s, calls[i], id);
    OthersUntouched(y, i);
    assert y'.processes == y.processes[i := y'.processes[i]];
    SumPaidReplaced(y.processes, i, y'.processes[i], id, |calls|);
  }

  lemma {:induction false} RunAccounted(y: System, schedule: seq<nat>, s: Store, calls: seq<Request>, id: string)
    requires id in s.invoices && Accounted(y, s, calls, id) && Positive(calls)
    ensures Accounted(Interleaved(y, schedule), s, calls, id)
    decreases |schedule|
  {
    if schedule != [] {
      if schedule[0] < |calls| { StepAccounted(y, schedule[0], s, calls, id); }
      RunAccounted(Advance(y, schedule[0]), schedule[1..], s, calls, id);
    }
  }

  lemma {:induction false} NothingPaidYet(s: Store, calls: seq<Request>, id: string, n: nat)
    requires n <= |calls|
    ensures SumPaid(Boot(s, calls).processes, id, n) == 0
  {
    if n > 0 { NothingPaidYet(s, calls, id, n - 1); }
  }

  lemma {:induction false} BootAccounted(s: Store, calls: seq<Request>, id: string)
    requires id in s.invoices && Agrees(s, id)
    ensures Accounted(Boot(s, calls), s, calls, id)
  {
    NothingPaidYet(s, calls, id, |calls|);
  }

  lemma {:induction false} PaidWithinDemand(y: System, s: Store, calls: seq<Request>, id: string, n: nat)
    requires id in s.invoices && Accounted(y, s, calls, id) && Positive(calls) && n <= |calls|
    ensures SumPaid(y.processes, id, n) <= Demand(s, calls[..n], id)
  {
    if n > 0 {
      PaidWithinDemand(y, s, calls, id, n - 1);
      assert calls[..n][..n - 1] == calls[..n - 1];
      assert InBounds(y.processes[n - 1], s, calls[n - 1], id);
    }
  }

  // ---------- The worst schedule: all check, then all pay ----------

  /** Request i takes a step if it is an accepted one. */
  function StepOf(s: Store, r: Request, id: string, i: nat): seq<nat> { if Fits(s, r, id) then [i] else [] }

  /** The accepted ones among the first n requests take a step. */
  function AllStep(s: Store, calls: seq<Request>, id: string, n: nat): seq<nat>
    requires n <= |calls|
  {
    if n == 0 then [] else AllStep(s, calls, id, n - 1) + StepOf(s, calls[n - 1], id, n - 1)
  }

  predicate CheckedUpTo(y: System, s: Store, calls: seq<Request>, id: string, n: nat) {
    && n <= |calls| && y.store == s && |y.processes| == |calls|
    && forall j | 0 <= j < |calls| && Fits(s, calls[j], id) ::
         y.processes[j].request == calls[j] && y.processes[j].pc == if j < n then Checked else Start
  }

  lemma {:induction false} OneMoreChecks(y: System, s: Store, calls: seq<Request>, id: string, n: nat)
    requires n < |calls| && CheckedUpTo(y, s, calls, id, n)
    ensures CheckedUpTo(Interleaved(y, StepOf(s, calls[n], id, n)), s, calls, id, n + 1)
  {
    if Fits(s, calls[n], id) {
      assert [n][1..] == [];
      assert Interleaved(y, [n]) == Advance(y, n);
      OthersUntouched(y, n);
    }
  }

  lemma {:induction false} AfterAllCheck(y: System, s: Store, calls: seq<Request>, id: string, n: nat)
    requires n <= |calls| && CheckedUpTo(y, s, calls, id, 0)
    ensures CheckedUpTo(Interleaved(y, AllStep(s, calls, id, n)), s, calls, id, n)
  {
    if n > 0 {
      var before := AllStep(s, calls, id, n - 1);
      AfterAllCheck(y, s, calls, id, n - 1);
      InTwo(y, before, StepOf(s, calls[n - 1], id, n - 1));
      OneMoreChecks(Interleaved(y, before), s, calls, id, n - 1);
    }
  }

  predicate PaidUpTo(y: System, s: Store, calls: seq<Request>, id: string, n: nat) {
    && n <= |calls| && |y.processes| == |calls|
    && Captured(y.store.payments, id) == Captured(s.payments, id) + Demand(s, calls[..n], id)
    && forall j | n <= j < |calls| && Fits(s, calls[j], id) ::
         y.processes[j].request == calls[j] && y.processes[j].pc == Checked
  }

  lemma {:induction false} OneMorePays(y: System, s: Store, calls: seq<Request>, id: string, n: nat)
    requires n < |calls| && PaidUpTo(y, s, calls, id, n)
    ensures PaidUpTo(Interleaved(y, StepOf(s, calls[n], id, n)), s, calls, id, n + 1)
  {
    assert calls[..n + 1][..n] == calls[..n];
    if Fits(s, calls[n], id) {
      assert [n][1..] == [];
      assert Interleaved(y, [n]) == Advance(y, n);
      OthersUntouched(y, n);
      PayStepCaptures(y, n, id);
      assert PaidBy(Advance(y, n).processes[n], id) == calls[n].amount;
    }
  }

  lemma {:induction false} AfterAllPay(y: System, s: Store, calls: seq<Request>, id: string, n: nat)
    requires n <= |calls| && PaidUpTo(y, s, calls, id, 0)
    ensures PaidUpTo(Interleaved(y, AllStep(s, calls, id, n)), s, calls, id, n)
  {
    if n > 0 {
      var before := AllStep(s, calls, id, n - 1);
      AfterAllPay(y, s, calls, id, n - 1);
      InTwo(y, before, StepOf(s, calls[n - 1], id, n - 1));
      OneMorePays(Interleaved(y, before), s, calls, id, n - 1);
    }
  }

  lemma {:induction false} AllPayTogether(s: Store, calls: seq<Request>, id: string)
    ensures var turns := AllStep(s, calls, id, |calls|);
      Captured(Interleaved(Boot(s, calls), turns + turns).store.payments, id) ==
        Captured(s.payments, id) + Demand(s, calls, id)
  {
    var n, turns := |calls|, AllStep(s, calls, id, |calls|);
    AfterAllCheck(Boot(s, calls), s, calls, id, n);
    assert calls[..0] == [] && calls[..n] == calls;
    AfterAllPay(Interleaved(Boot(s, calls), turns), s, calls, id, n);
    InTwo(Boot(s, calls), turns, turns);
  }

  /** Any number of payment requests: no interleaving captures more than the invoice's
      grand total exactly when the requests that are each accepted on their own also fit
      together. */
  lemma NeverOverpaidIffDemandFits(s: Store, calls: seq<Request>, id: string)
    requires Agrees(s, id) && id in s.invoices && Positive(calls)
    ensures var inv := s.invoices[id];
      (forall schedule :: Captured(Interleaved(Boot(s, calls), schedule).store.payments, id) <= inv.totals.grandTotal)
      <==> inv.amountPaid + Demand(s, calls, id) <= inv.totals.grandTotal
  {
    var y0, inv := Boot(s, calls), s.invoices[id];
    AllPayTogether(s, calls, id);
    if inv.amountPaid + Demand(s, calls, id) <= inv.totals.grandTotal {
      forall schedule ensures Captured(Interleaved(y0, schedule).store.payments, id) <= inv.totals.grandTotal {
        BootAccounted(s, calls, id);
        RunAccounted(y0, schedule, s, calls, id);
        PaidWithinDemand(Interleaved(y0, schedule), s, calls, id, |calls|);
        assert calls[..|calls|] == calls;
      }
    }
  }

  // ---------- The stored amountPaid ----------

  predicate AtMostOneFits(s: Store, calls: seq<Request>, id: string) {
    forall i, j | 0 <= i < j < |calls| :: !(Fits(s, calls[i], id) && Fits(s, calls[j], id))
  }

  /** Where the only request that can be accepted stands: what it has summed or written
      is what has been captured. */
  predicate Alone(p: Process, t: Store, id: string) {
    id in t.invoices &&
    (if p.request.invoice != id then t.invoices[id].amountPaid == Captured(t.payments, id)
     else
       match p.pc
       case Paid => true
       case Allocated => true
       case Summed => p.settled.Some? && p.settled.value.amountPaid == Captured(t.payments, id)
       case _ => t.invoices[id].amountPaid == Captured(t.payments, id))
  }

  predicate OnlyOne(y: System, s: Store, calls: seq<Request>, id: string, i: nat)
    requires id in s.invoices
  {
    && Accounted(y, s, calls, id) && i < |calls| && Alone(y.processes[i], y.store, id)
    && forall j | 0 <= j < |calls| && j != i :: !Fits(s, calls[j], id)
  }

  lemma {:induction false} OwnStepAlone(y: System, i: nat, id: string)
    requires i < |y.processes| && Alone(y.processes[i], y.store, id)
    ensures Alone(Advance(y, i).processes[i], Advance(y, i).store, id)
  {
    var r := y.processes[i].request;
    if y.processes[i].pc.Checked? {
      CapturedAppended(y.store.payments, Payment(r.invoice, r.amount, CAPTURED, r.transaction), id);
    }
  }

  /** A request that is not accepted leaves the invoice and its payments alone. */
  lemma {:induction false} OtherStepAlone(y: System, j: nat, s: Store, r: Request, id: string)
    requires j < |y.processes| && id in s.invoices && InBounds(y.processes[j], s, r, id) && Later(y.store, s, id)
    requires !Fits(s, r, id)
    ensures var y' := Advance(y, j);
      && id in y'.store.invoices && y'.store.invoices[id] == y.store.invoices[id]
      && Captured(y'.store.payments, id) == Captured(y.store.payments, id)
  {
    if y.processes[j].pc.Checked? {
      CapturedAppended(y.store.payments, Payment(r.invoice, r.amount, CAPTURED, r.transaction), id);
    }
  }

  lemma {:induction false} OnlyOneStep(y: System, j: nat, s: Store, calls: seq<Request>, id: string, i: nat)
    requires id in s.invoices && OnlyOne(y, s, calls, id, i) && Positive(calls) && j < |calls|
    ensures OnlyOne(Advance(y, j), s, calls, id, i)
  {
    StepAccounted(y, j, s, calls, id);
    OthersUntouched(y, j);
    if j == i { OwnStepAlone(y, i, id); } else { OtherStepAlone(y, j, s, calls[j], id); }
  }

  lemma {:induction false} OnlyOneRun(y: System, schedule: seq<nat>, s: Store, calls: seq<Request>, id: string, i: nat)
    requires id in s.invoices && OnlyOne(y, s, calls, id, i) && Positive(calls)
    ensures OnlyOne(Interleaved(y, schedule), s, calls, id, i)
    decreases |schedule|
  {
    if schedule != [] {
      if schedule[0] < |calls| { OnlyOneStep(y, schedule[0], s, calls, id, i); }
      OnlyOneRun(Advance(y, schedule[0]), schedule[1..], s, calls, id, i);
    }
  }

  lemma {:induction false} NobodyMoves(y: System, schedule: seq<nat>)
    requires y.processes == []
    ensures Interleaved(y, schedule) == y
    decreases |schedule|
  {
    if schedule != [] { NobodyMoves(y, schedule[1..]); }
  }

  /** The stored amountPaid is the sum of the captured payments. */
  predicate InStep(t: Store, id: string) { id in t.invoices && t.invoices[id].amountPaid == Captured(t.payments, id) }

  lemma {:induction false} StaysInStep(s: Store, calls: seq<Request>, id: string, schedule: seq<nat>)
    requires Agrees(s, id) && id in s.invoices && Positive(calls) && AtMostOneFits(s, calls, id)
    requires AllReturned(Interleaved(Boot(s, calls), schedule))
    ensures InStep(Interleaved(Boot(s, calls), schedule).store, id)
  {
    var y := Interleaved(Boot(s, calls), schedule);
    if calls == [] {
      NobodyMoves(Boot(s, calls), schedule);
    } else {
      var i: nat := if exists n: nat :: n < |calls| && Fits(s, calls[n], id)
        then (var n: nat :| n < |calls| && Fits(s, calls[n], id); n) else 0;
      BootAccounted(s, calls, id);
      OnlyOneRun(Boot(s, calls), schedule, s, calls, id, i);
      assert y.processes[i] in y.processes;
    }
  }

  // ---------- A lost update of two accepted requests ----------

  function Rank(pc: Pc): nat {
    match pc
    case Start => 5
    case Checked => 4
    case Paid => 3
    case Allocated => 2
    case Summed => 1
    case _ => 0
  }

  function Repeated(i: nat, n: nat): seq<nat> { seq(n, _ => i) }

  lemma {:induction false} RepeatedReturns(y: System, i: nat, n: nat)
    requires i < |y.processes| && Rank(y.processes[i].pc) <= n
    ensures var y' := Interleaved(y, Repeated(i, n));
      && |y'.processes| == |y.processes| && y'.processes[i].pc in {Done, Refused}
      && forall j | 0 <= j < |y.processes| && j != i :: y'.processes[j] == y.processes[j]
    decreases n
  {
    if n != 0 {
      assert Repeated(i, n)[1..] == Repeated(i, n - 1);
      OthersUntouched(y, i);
      RepeatedReturns(Advance(y, i), i, n - 1);
    }
  }

  /** The first n requests but i and j run to their ends. */
  function OthersReturn(i: nat, j: nat, n: nat): seq<nat> {
    if n == 0 then []
    else OthersReturn(i, j, n - 1) + if n - 1 in {i, j} then [] else Repeated(n - 1, Rank(Start))
  }

  lemma {:induction false} AfterOthersReturn(y: System, i: nat, j: nat, n: nat)
    requires n <= |y.processes| && i < |y.processes| && j < |y.processes|
    ensures var y' := Interleaved(y, OthersReturn(i, j, n));
      && |y'.processes| == |y.processes|
      && y'.processes[i] == y.processes[i] && y'.processes[j] == y.processes[j]
      && forall m | 0 <= m < n && m != i && m != j :: y'.processes[m].pc in {Done, Refused}
  {
    if n > 0 {
      var before := OthersReturn(i, j, n - 1);
      AfterOthersReturn(y, i, j, n - 1);
      if n - 1 in {i, j} {
        assert OthersReturn(i, j, n) == before;
      } else {
        InTwo(y, before, Repeated(n - 1, Rank(Start)));
        RepeatedReturns(Interleaved(y, before), n - 1, Rank(Start));
      }
    }
  }

  /** A checked request pays, allocates and sums. */
  lemma {:induction false} PaysAndSums(y: System, i: nat, id: string)
    requires i < |y.processes| && y.processes[i].pc.Checked? && y.processes[i].request.invoice == id
    requires id in y.store.invoices
    ensures var p, y' := y.processes[i], Interleaved(y, [i, i, i]);
      var total := Captured(y.store.payments, id) + p.request.amount;
      && |y'.processes| == |y.processes| && y'.store.invoices == y.store.invoices
      && (forall j | 0 <= j < |y.processes| && j != i :: y'.processes[j] == y.processes[j])
      && Captured(y'.store.payments, id) == total
      && y'.processes[i].pc.Summed? && y'.processes[i].request == p.request
      && y'.processes[i].settled == Some(Settled(y.store.invoices[id], total))
  {
    var r := y.processes[i].request;
    var y1 := Advance(y, i);
    var y2 := Advance(y1, i);
    assert [i, i, i][1..] == [i, i] && [i, i][1..] == [i] && [i][1..] == [];
    assert Interleaved(y, [i, i, i]) == Interleaved(y1, [i, i]) == Interleaved(y2, [i]) ==
      Interleaved(Advance(y2, i), []);
    CapturedAppended(y.store.payments, Payment(r.invoice, r.amount, CAPTURED, r.transaction), id);
  }

  lemma {:induction false} WritesSum(y: System, i: nat, id: string)
    requires i < |y.processes| && y.processes[i].pc.Summed? && y.processes[i].request.invoice == id
    requires id in y.store.invoices && y.processes[i].settled.Some?
    ensures var p, y' := y.processes[i], Interleaved(y, [i]);
      && |y'.processes| == |y.processes| && y'.processes[i].pc.Done?
      && (forall j | 0 <= j < |y.processes| && j != i :: y'.processes[j] == y.processes[j])
      && y'.store.payments == y.store.payments && id in y'.store.invoices
      && y'.store.invoices[id].amountPaid == p.settled.value.amountPaid
  {
    assert [i][1..] == [];
  }

  /** Request i sums before request j pays, and writes after it. */
  function StaleWrite(i: nat, j: nat): seq<nat> { [i, i, i] + ([j, j, j] + ([j] + [i])) }

  lemma {:induction false} StaleWriteLosesPayment(y: System, i: nat, j: nat, id: string)
    requires i < |y.processes| && j < |y.processes| && i != j && id in y.store.invoices
    requires y.processes[i].pc.Checked? && y.processes[i].request.invoice == id
    requires y.processes[j].pc.Checked? && y.processes[j].request.invoice == id && 1 <= y.processes[j].request.amount
    ensures var y' := Interleaved(y, StaleWrite(i, j));
      && |y'.processes| == |y.processes| && !InStep(y'.store, id)
      && y'.processes[i].pc.Done? && y'.processes[j].pc.Done?
      && forall m | 0 <= m < |y.processes| && m != i && m != j :: y'.processes[m] == y.processes[m]
  {
    var y1 := Interleaved(y, [i, i, i]);
    var y2 := Interleaved(y1, [j, j, j]);
    var y3 := Interleaved(y2, [j]);
    PaysAndSums(y, i, id);
    PaysAndSums(y1, j, id);
    WritesSum(y2, j, id);
    WritesSum(y3, i, id);
    InTwo(y2, [j], [i]);
    InTwo(y1, [j, j, j], [j] + [i]);
    InTwo(y, [i, i, i], [j, j, j] + ([j] + [i]));
  }

  lemma {:induction false} BothCheck(s: Store, calls: seq<Request>, i: nat, j: nat)
    requires i < j < |calls| && Accepts(s, calls[i]) && Accepts(s, calls[j])
    ensures var y := Interleaved(Boot(s, calls), [i, j]);
      && y.store == s && |y.processes| == |calls|
      && y.processes[i] == Process(calls[i], Checked, 0, None) && y.processes[j] == Process(calls[j], Checked, 0, None)
  {
    var y0 := Boot(s, calls);
    var y1 := Advance(y0, i);
    assert [i, j][1..] == [j] && [j][1..] == [];
    assert Interleaved(y0, [i, j]) == Interleaved(y1, [j]) == Interleaved(Advance(y1, j), []);
  }

  lemma {:induction false} TwoFitGetsOutOfStep(s: Store, calls: seq<Request>, id: string, i: nat,
                                               j: nat)
    returns (schedule: seq<nat>)
    requires Agrees(s, id) && id in s.invoices && Positive(calls)
    requires i < j < |calls| && Fits(s, calls[i], id) && Fits(s, calls[j], id)
    ensures AllReturned(Interleaved(Boot(s, calls), schedule))
    ensures !InStep(Interleaved(Boot(s, calls), schedule).store, id)
  {
    var y0, others := Boot(s, calls), OthersReturn(i, j, |calls|);
    var y1 := Interleaved(y0, [i, j]);
    var y2 := Interleaved(y1, others);
    schedule := [i, j] + (others + StaleWrite(i, j));
    BothCheck(s, calls, i, j);
    AfterOthersReturn(y1, i, j, |calls|);
    InTwo(y0, [i, j], others);
    BootAccounted(s, calls, id);
    RunAccounted(y0, [i, j] + others, s, calls, id);
    StaleWriteLosesPayment(y2, i, j, id);
    InTwo(y1, others, StaleWrite(i, j));
    InTwo(y0, [i, j], others + StaleWrite(i, j));
  }

  /** Once all requests have returned, the stored amountPaid is what has been captured,
      under every interleaving, exactly when at most one request is accepted. */
  lemma AmountPaidKeptIffAtMostOneFits(s: Store, calls: seq<Request>, id: string)
    requires Agrees(s, id) && id in s.invoices && Positive(calls)
    ensures (forall schedule | AllReturned(Interleaved(Boot(s, calls), schedule)) ::
               InStep(Interleaved(Boot(s, calls), schedule).store, id))
      <==> AtMostOneFits(s, calls, id)
  {
    if AtMostOneFits(s, calls, id) {
      forall schedule | AllReturned(Interleaved(Boot(s, calls), schedule))
        ensures InStep(Interleaved(Boot(s, calls), schedule).store, id)
      {
        StaysInStep(s, calls, id, schedule);
      }
    } else {
      var i: nat, j: nat :| i < j < |calls| && Fits(s, calls[i], id) && Fits(s, calls[j], id);
      var schedule := TwoFitGetsOutOfStep(s, calls, id, i, j);
    }
  }
}
