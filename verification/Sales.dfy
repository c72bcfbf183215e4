/** Sales invoices and their payments (src/invoices/invoices.service.ts,
    src/payments/payments.service.ts). */
module Sales {
  import opened Results
  import opened Rounding
  import opened Pricing

  datatype InvoiceStatus = DRAFT | SENT | VIEWED | PARTIALLY_PAID | PAID | VOID

  datatype PaymentProgress = Unpaid | PartiallyPaid | FullyPaid

  datatype PaymentStatus = PENDING | AUTHORIZED | CAPTURED | FAILED | REFUNDED

  datatype Invoice = Invoice(status: InvoiceStatus, deleted: bool, items: seq<LineInput>, shippingAmount: int,
                             totals: Totals, amountPaid: int, balanceDue: int, progress: PaymentProgress)

  datatype Payment = Payment(invoice: string, amount: int, status: PaymentStatus, transaction: string)

  datatype Allocation = Allocation(payment: nat, invoice: string, amount: int)

  /** Payments and allocations are numbered in creation order. refunded is the refund
      amount that the audit log records for a payment. */
  datatype Store = Store(invoices: map<string, Invoice>, payments: seq<Payment>,
                         allocations: seq<Allocation>, refunded: map<nat, int>)

  datatype Call =
    | CreateInvoice(id: string, items: seq<LineInput>, shippingAmount: int)
    | UpdateInvoice(id: string, newShipping: Option<int>, newItems: seq<LineInput>)
    | DuplicateInvoice(source: string, id: string)
    | Send(id: string)
    | Void(id: string)
    | Archive(id: string)
    | Restore(id: string)
    | Delete(id: string)
    | PayManually(id: string, amount: int, transaction: string)
    | CaptureGateway(id: string, amount: int, transaction: string)
    | Allocate(payment: nat, id: string, amount: int)
    | Refund(payment: nat, refund: Option<int>)

  datatype Answer = Answer(result: Result<()>, store: Store)

  predicate Allowed(from: InvoiceStatus, to: InvoiceStatus) {
    match from
    case DRAFT => to in {SENT, VOID}
    case SENT => to in {VIEWED, PAID, VOID}
    case VIEWED => to in {PARTIALLY_PAID, PAID, VOID}
    case PARTIALLY_PAID => to in {PAID, VOID}
    case PAID => to == VOID
    case VOID => false
  }

  function InvoiceTotals(items: seq<LineInput>, shippingAmount: int): (t: Totals)
    ensures 0 <= t.grandTotal
  {
    TotalsOf(items, Header(None, 0, shippingAmount))
  }

  function NewInvoice(items: seq<LineInput>, shippingAmount: int): Invoice {
    var t := InvoiceTotals(items, shippingAmount);
    Invoice(DRAFT, false, items, shippingAmount, t, 0, t.grandTotal, Unpaid)
  }

  /** recalculateAndUpdate of a draft with its new items and shipping. */
  function Rewritten(inv: Invoice, items: seq<LineInput>, shippingAmount: int): Invoice {
    var t := InvoiceTotals(items, shippingAmount);
    inv.(items := items, shippingAmount := shippingAmount, totals := t,
         balanceDue := Max0(t.grandTotal - inv.amountPaid))
  }

  /** Sum of the CAPTURED payments of an invoice. */
  function Captured(payments: seq<Payment>, id: string): int {
    if payments == [] then 0
    else
      var p := payments[|payments| - 1];
      Captured(payments[..|payments| - 1], id) + if p.invoice == id && p.status == CAPTURED then p.amount else 0
  }

  /** What updateInvoicePaymentStatus writes. */
  function Settled(inv: Invoice, totalPaid: int): Invoice {
    var progress :=
      if totalPaid >= inv.totals.grandTotal then FullyPaid else if totalPaid > 0 then PartiallyPaid else Unpaid;
    var status := match progress
      case FullyPaid => PAID
      case PartiallyPaid => PARTIALLY_PAID
      case Unpaid => if inv.status == VOID then VOID else SENT;
    inv.(amountPaid := totalPaid, balanceDue := Max0(inv.totals.grandTotal - totalPaid),
         progress := progress, status := status)
  }

  function Reconciled(s: Store, id: string): Store {
    if id in s.invoices then
      s.(invoices := s.invoices[id := Settled(s.invoices[id], Captured(s.payments, id))])
    else s
  }

  function AllocatedOf(allocations: seq<Allocation>, payment: nat): int {
    if allocations == [] then 0
    else
      var a := allocations[|allocations| - 1];
      AllocatedOf(allocations[..|allocations| - 1], payment) + if a.payment == payment then a.amount else 0
  }

  /** Index of the newest allocation of a payment to an invoice; the length if there is none. */
  function Newest(allocations: seq<Allocation>, payment: nat, id: string): (i: nat)
    ensures i <= |allocations|
  {
    NewestBelow(allocations, |allocations|, payment, id)
  }

  function NewestBelow(allocations: seq<Allocation>, n: nat, payment: nat, id: string): (i: nat)
    requires n <= |allocations|
    ensures i <= |allocations|
    ensures i < |allocations| ==> i < n && allocations[i].payment == payment && allocations[i].invoice == id
  {
    if n == 0 then |allocations|
    else if allocations[n - 1].payment == payment && allocations[n - 1].invoice == id then n - 1
    else NewestBelow(allocations, n - 1, payment, id)
  }

  predicate Live(s: Store, id: string) { id in s.invoices && !s.invoices[id].deleted }

  function Pay(s: Store, id: string, amount: int, transaction: string): Answer {
    if !Live(s, id) then Answer(Failure(NotFound), s)
    else if s.invoices[id].status == VOID then Answer(Failure(BadRequest), s)
    else if s.invoices[id].amountPaid + amount - s.invoices[id].totals.grandTotal > 0
      then Answer(Failure(BadRequest), s)
    else
      var s' := s.(payments := s.payments + [Payment(id, amount, CAPTURED, transaction)],
                   allocations := s.allocations + [Allocation(|s.payments|, id, amount)]);
      Answer(Success(()), Reconciled(s', id))
  }

  function AllocateCall(s: Store, payment: nat, id: string, amount: int): Answer {
    if payment >= |s.payments| then Answer(Failure(NotFound), s)
    else if s.payments[payment].status != CAPTURED then Answer(Failure(BadRequest), s)
    else if !Live(s, id) then Answer(Failure(NotFound), s)
    else if amount > s.payments[payment].amount - AllocatedOf(s.allocations, payment)
      then Answer(Failure(BadRequest), s)
    else Answer(Success(()), Reconciled(s.(allocations := s.allocations + [Allocation(payment, id, amount)]), id))
  }

  /** A refund of any part marks the whole payment REFUNDED. */
  function RefundCall(s: Store, payment: nat, refund: Option<int>): Answer {
    if payment >= |s.payments| then Answer(Failure(NotFound), s)
    else
      var p := s.payments[payment];
      var amount := if refund.Some? then refund.value else p.amount;
      if p.status != CAPTURED then Answer(Failure(BadRequest), s)
      else if amount > p.amount then Answer(Failure(BadRequest), s)
      else
        var i := Newest(s.allocations, payment, p.invoice);
        var allocations := if i == |s.allocations| then s.allocations
          else s.allocations[i := s.allocations[i].(amount := Max0(s.allocations[i].amount - amount))];
        Answer(Success(()), Reconciled(s.(payments := s.payments[payment := p.(status := REFUNDED)],
          allocations := allocations, refunded := s.refunded[payment := amount]), p.invoice))
  }

  function Put(s: Store, id: string, inv: Invoice): Store { s.(invoices := s.invoices[id := inv]) }

  function Step(s: Store, c: Call): Answer {
    match c
    case CreateInvoice(id, items, shipping) => Answer(Success(()), Put(s, id, NewInvoice(items, shipping)))
    case UpdateInvoice(id, shipping, items) =>
      if !Live(s, id) then Answer(Failure(NotFound), s)
      else
        var inv := s.invoices[id];
        if inv.status != DRAFT then Answer(Failure(BadRequest), s)
        else Answer(Success(()), Put(s, id, Rewritten(inv, if items == [] then inv.items else items,
                                                      if shipping.Some? then shipping.value else inv.shippingAmount)))
    case DuplicateInvoice(source, id) =>
      if !Live(s, source) then Answer(Failure(NotFound), s)
      else Answer(Success(()), Put(s, id, NewInvoice(s.invoices[source].items, s.invoices[source].shippingAmount)))
    case Send(id) => Move(s, id, SENT)
    case Void(id) => Move(s, id, VOID)
    case Archive(id) =>
      if !Live(s, id) then Answer(Failure(NotFound), s)
      else if s.invoices[id].status in {SENT, VIEWED} then Answer(Failure(BadRequest), s)
      else Answer(Success(()), Put(s, id, s.invoices[id].(deleted := true)))
    case Restore(id) =>
      if id !in s.invoices then Answer(Failure(NotFound), s)
      else if !s.invoices[id].deleted then Answer(Failure(BadRequest), s)
      else Answer(Success(()), Put(s, id, s.invoices[id].(deleted := false)))
    case Delete(id) =>
      if !Live(s, id) then Answer(Failure(NotFound), s)
      else Answer(Success(()), Put(s, id, s.invoices[id].(deleted := true)))
    case PayManually(id, amount, transaction) => Pay(s, id, amount, transaction)
    case CaptureGateway(id, amount, transaction) =>
      if !Live(s, id) then Answer(Failure(NotFound), s)
      else if s.invoices[id].status != VOID && exists p | p in s.payments :: p.transaction == transaction
        then Answer(Failure(BadRequest), s)
      else Pay(s, id, amount, transaction)
    case Allocate(payment, id, amount) => AllocateCall(s, payment, id, amount)
    case Refund(payment, refund) => RefundCall(s, payment, refund)
  }

  function Move(s: Store, id: string, to: InvoiceStatus): Answer {
    if !Live(s, id) then Answer(Failure(NotFound), s)
    else if !Allowed(s.invoices[id].status, to) then Answer(Failure(BadRequest), s)
    else Answer(Success(()), Put(s, id, s.invoices[id].(status := to)))
  }

  /** Ids are fresh and the payment DTOs demand positive amounts; allocate takes any amount. */
  predicate Legal(s: Store, c: Call) {
    match c
    case CreateInvoice(id, _, _) => id !in s.invoices
    case DuplicateInvoice(_, id) => id !in s.invoices
    case PayManually(_, amount, _) => 1 <= amount
    case CaptureGateway(_, amount, _) => 1 <= amount
    case Refund(_, refund) => refund.Some? ==> 1 <= refund.value
    case _ => true
  }

  // ---------- Invoices agree with their captured payments ----------

  predicate ProgressFits(inv: Invoice) {
    match inv.progress
    case FullyPaid => inv.amountPaid == inv.totals.grandTotal
    case PartiallyPaid => 0 < inv.amountPaid < inv.totals.grandTotal
    case Unpaid => inv.amountPaid == 0
  }

  /** The document status follows the payments until the invoice is voided. */
  predicate StatusFits(inv: Invoice) {
    match inv.status
    case PAID => inv.progress == FullyPaid
    case PARTIALLY_PAID => inv.progress == PartiallyPaid
    case VOID => true
    case _ => inv.progress == Unpaid
  }

  /** The amounts and statuses of an invoice fit its captured payments. */
  predicate Agrees(s: Store, id: string) {
    var captured := Captured(s.payments, id);
    if id !in s.invoices then captured == 0
    else
      var inv := s.invoices[id];
      && inv.amountPaid == captured
      && 0 <= captured <= inv.totals.grandTotal
      && inv.balanceDue == inv.totals.grandTotal - captured
      && ProgressFits(inv) && StatusFits(inv)
  }

  /** The stored totals are those of the stored items. */
  predicate Priced(inv: Invoice) { inv.totals == InvoiceTotals(inv.items, inv.shippingAmount) }

  predicate AllPriced(s: Store) { forall id | id in s.invoices :: Priced(s.invoices[id]) }

  predicate PaymentsPositive(s: Store) { forall p | p in s.payments :: 1 <= p.amount }

  ghost predicate Valid(s: Store) {
    PaymentsPositive(s) && AllPriced(s) && forall id :: Agrees(s, id)
  }

  lemma CapturedAppended(payments: seq<Payment>, p: Payment, id: string)
    ensures Captured(payments + [p], id) ==
      Captured(payments, id) + if p.invoice == id && p.status == CAPTURED then p.amount else 0
  {
    assert (payments + [p])[..|payments|] == payments;
  }

  lemma {:induction false} CapturedRefunded(payments: seq<Payment>, i: nat, id: string)
    requires i < |payments| && payments[i].status == CAPTURED
    ensures Captured(payments[i := payments[i].(status := REFUNDED)], id) ==
      Captured(payments, id) - if payments[i].invoice == id then payments[i].amount else 0
  {
    var n := |payments| - 1;
    var after := payments[i := payments[i].(status := REFUNDED)];
    if i == n {
      assert after[..n] == payments[..n];
    } else {
      assert after[..n] == payments[..n][i := after[i]];
      CapturedRefunded(payments[..n], i, id);
    }
  }

  lemma {:induction false} CapturedNonNegative(payments: seq<Payment>, id: string)
    requires forall p | p in payments :: 1 <= p.amount
    ensures 0 <= Captured(payments, id)
  {
    if payments != [] {
      assert payments[|payments| - 1] in payments;
      CapturedNonNegative(payments[..|payments| - 1], id);
    }
  }

  /** updateInvoicePaymentStatus restores agreement whenever the captured sum fits. */
  lemma ReconciledAgrees(s: Store, id: string)
    requires id in s.invoices
    requires 0 <= Captured(s.payments, id) <= s.invoices[id].totals.grandTotal
    ensures Agrees(Reconciled(s, id), id)
  {
  }

  lemma OthersAgree(s: Store, id: string, other: string)
    requires Agrees(s, other) && other != id
    ensures Agrees(Reconciled(s, id), other)
  {
  }

  lemma PayAgrees(s: Store, id: string, amount: int, transaction: string, other: string)
    requires Agrees(s, other) && 1 <= amount
    ensures Agrees(Pay(s, id, amount, transaction).store, other)
  {
    if Pay(s, id, amount, transaction).result.Success? {
      var p := Payment(id, amount, CAPTURED, transaction);
      CapturedAppended(s.payments, p, other);
      var s' := s.(payments := s.payments + [p], allocations := s.allocations + [Allocation(|s.payments|, id, amount)]);
      if other == id { ReconciledAgrees(s', id); } else { OthersAgree(s', id, other); }
    }
  }

  /** The tables after the writes of a refund, before the invoice is recomputed. */
  lemma RefundedSum(s: Store, payment: nat, other: string)
    requires PaymentsPositive(s) && payment < |s.payments| && s.payments[payment].status == CAPTURED
    ensures var p := s.payments[payment];
      var after := Captured(s.payments[payment := p.(status := REFUNDED)], other);
      0 <= after == Captured(s.payments, other) - if p.invoice == other then p.amount else 0
  {
    var payments := s.payments[payment := s.payments[payment].(status := REFUNDED)];
    CapturedRefunded(s.payments, payment, other);
    forall q | q in payments ensures 1 <= q.amount {
      var i :| 0 <= i < |payments| && payments[i] == q;
      assert s.payments[i] in s.payments;
    }
    CapturedNonNegative(payments, other);
  }

  lemma RefundAgrees(s: Store, payment: nat, refund: Option<int>, other: string)
    requires Agrees(s, other) && PaymentsPositive(s)
    ensures Agrees(RefundCall(s, payment, refund).store, other)
  {
    if RefundCall(s, payment, refund).result.Success? {
      RefundedSum(s, payment, other);
      assert s.payments[payment] in s.payments;
    }
  }

  /** An allocation changes no payment, so recomputing the invoice changes no amount. */
  lemma AllocateAgrees(s: Store, payment: nat, id: string, amount: int, other: string)
    requires Agrees(s, other)
    ensures Agrees(AllocateCall(s, payment, id, amount).store, other)
  {
  }

  lemma InvoiceCallAgrees(s: Store, c: Call, id: string)
    requires Agrees(s, id) && Legal(s, c)
    requires !(c.Allocate? || c.Refund? || c.PayManually? || c.CaptureGateway?)
    ensures Agrees(Step(s, c).store, id)
  {
    assert Step(s, c).store.payments == s.payments;
  }

  lemma StepAgrees(s: Store, c: Call, id: string)
    requires Agrees(s, id) && Legal(s, c) && PaymentsPositive(s)
    ensures Agrees(Step(s, c).store, id)
  {
    match c
    case PayManually(i, amount, transaction) => PayAgrees(s, i, amount, transaction, id);
    case CaptureGateway(i, amount, transaction) => PayAgrees(s, i, amount, transaction, id);
    case Refund(payment, refund) => RefundAgrees(s, payment, refund, id);
    case Allocate(payment, i, amount) => AllocateAgrees(s, payment, i, amount, id);
    case _ => InvoiceCallAgrees(s, c, id);
  }

  lemma PutPriced(s: Store, id: string, inv: Invoice)
    requires AllPriced(s) && Priced(inv)
    ensures AllPriced(Put(s, id, inv))
  {
  }

  lemma InvoiceCallPriced(s: Store, c: Call)
    requires AllPriced(s)
    requires !(c.Allocate? || c.Refund? || c.PayManually? || c.CaptureGateway?)
    ensures AllPriced(Step(s, c).store)
  {
    if Step(s, c).result.Success? { PutPriced(s, c.id, Step(s, c).store.invoices[c.id]); }
  }

  lemma StepPriced(s: Store, c: Call)
    requires AllPriced(s)
    ensures AllPriced(Step(s, c).store)
  {
    match c
    case PayManually(id, amount, transaction) => PayPriced(s, id, amount, transaction);
    case CaptureGateway(id, amount, transaction) => PayPriced(s, id, amount, transaction);
    case Refund(payment, refund) => RefundPriced(s, payment, refund);
    case Allocate(payment, id, amount) => AllocatePriced(s, payment, id, amount);
    case _ => InvoiceCallPriced(s, c);
  }

  lemma PayPriced(s: Store, id: string, amount: int, transaction: string)
    requires AllPriced(s)
    ensures AllPriced(Pay(s, id, amount, transaction).store)
  {
  }

  lemma RefundPriced(s: Store, payment: nat, refund: Option<int>)
    requires AllPriced(s)
    ensures AllPriced(RefundCall(s, payment, refund).store)
  {
  }

  lemma AllocatePriced(s: Store, payment: nat, id: string, amount: int)
    requires AllPriced(s)
    ensures AllPriced(AllocateCall(s, payment, id, amount).store)
  {
  }

  lemma StepPaymentsPositive(s: Store, c: Call)
    requires Legal(s, c) && PaymentsPositive(s)
    ensures PaymentsPositive(Step(s, c).store)
  {
    if c.Refund? && Step(s, c).result.Success? {
      assert s.payments[c.payment] in s.payments;
    }
  }

  lemma StepValid(s: Store, c: Call)
    requires Valid(s) && Legal(s, c)
    ensures Valid(Step(s, c).store)
  {
    StepPaymentsPositive(s, c);
    StepPriced(s, c);
    forall id ensures Agrees(Step(s, c).store, id) { StepAgrees(s, c, id); }
  }

  function Run(s: Store, calls: seq<Call>): Store
    decreases |calls|
  {
    if calls == [] then s else Run(Step(s, calls[0]).store, calls[1..])
  }

  predicate LegalRun(s: Store, calls: seq<Call>)
    decreases |calls|
  {
    calls == [] || (Legal(s, calls[0]) && LegalRun(Step(s, calls[0]).store, calls[1..]))
  }

  /** In every run, for every invoice: amountPaid is the sum of its CAPTURED payments and
      never exceeds grandTotal, balanceDue is the difference, paymentStatus and status fit
      (so drafts have no captured payment), and the totals are those of the items. */
  lemma {:induction false} RunValid(s: Store, calls: seq<Call>)
    requires Valid(s) && LegalRun(s, calls)
    ensures Valid(Run(s, calls))
    decreases |calls|
  {
    if calls != [] {
      StepValid(s, calls[0]);
      RunValid(Step(s, calls[0]).store, calls[1..]);
    }
  }

  lemma FreshStoreValid()
    ensures Valid(Store(map[], [], [], map[]))
  {
  }

  // ---------- When VOID is final ----------

  /** The two calls that take a voided invoice out of VOID: refunding one of several
      payments, and an allocation (accepted for amounts that are not positive) while
      something is paid or nothing is due. */
  predicate Reopens(s: Store, c: Call, id: string)
    requires id in s.invoices
  {
    var inv := s.invoices[id];
    match c
    case Refund(payment, refund) =>
      && payment < |s.payments| && RefundCall(s, payment, refund).result.Success?
      && s.payments[payment].invoice == id && s.payments[payment].amount < inv.amountPaid
    case Allocate(payment, i, amount) =>
      && AllocateCall(s, payment, i, amount).result.Success?
      && i == id && (0 < inv.amountPaid || inv.totals.grandTotal == 0)
    case _ => false
  }

  /** What every reachable state satisfies at every invoice: see Valid. */
  predicate Sound(s: Store, id: string) { PaymentsPositive(s) && Agrees(s, id) }

  lemma StepSound(s: Store, c: Call, id: string)
    requires Sound(s, id) && Legal(s, c)
    ensures Sound(Step(s, c).store, id)
  {
    StepPaymentsPositive(s, c);
    StepAgrees(s, c, id);
  }

  lemma RefundKeepsVoidIff(s: Store, payment: nat, refund: Option<int>, id: string)
    requires Sound(s, id) && id in s.invoices && s.invoices[id].status == VOID
    ensures var t := RefundCall(s, payment, refund).store;
      && id in t.invoices && t.invoices[id].totals == s.invoices[id].totals
      && (t.invoices[id].status == VOID <==> !Reopens(s, Refund(payment, refund), id))
      && t.invoices[id].status in {VOID, PARTIALLY_PAID}
      && t.invoices[id].amountPaid <= s.invoices[id].amountPaid
  {
    if RefundCall(s, payment, refund).result.Success? {
      assert s.payments[payment] in s.payments && Agrees(s, id);
      RefundedSum(s, payment, id);
    }
  }

  lemma AllocateKeepsVoidIff(s: Store, payment: nat, i: string, amount: int, id: string)
    requires Agrees(s, id) && id in s.invoices && s.invoices[id].status == VOID
    ensures var t := AllocateCall(s, payment, i, amount).store;
      && id in t.invoices && t.invoices[id].totals == s.invoices[id].totals
      && (t.invoices[id].status == VOID <==> !Reopens(s, Allocate(payment, i, amount), id))
      && t.invoices[id].status in {VOID, PARTIALLY_PAID, PAID}
      && t.invoices[id].amountPaid == s.invoices[id].amountPaid
  {
  }

  lemma OtherCallsKeepVoid(s: Store, c: Call, id: string)
    requires Legal(s, c) && id in s.invoices && s.invoices[id].status == VOID && !c.Refund? && !c.Allocate?
    ensures var t := Step(s, c).store;
      && id in t.invoices && t.invoices[id].totals == s.invoices[id].totals
      && t.invoices[id].status == VOID && t.invoices[id].amountPaid == s.invoices[id].amountPaid
  {
  }

  /** No call takes a voided invoice out of VOID but those two. */
  lemma StepKeepsVoidIff(s: Store, c: Call, id: string)
    requires Sound(s, id) && Legal(s, c) && id in s.invoices && s.invoices[id].status == VOID
    ensures var t := Step(s, c).store;
      && id in t.invoices && t.invoices[id].totals == s.invoices[id].totals
      && (t.invoices[id].status == VOID <==> !Reopens(s, c, id))
      && (Reopens(s, c, id) ==> t.invoices[id].status in {PARTIALLY_PAID, PAID})
      && t.invoices[id].amountPaid <= s.invoices[id].amountPaid
  {
    match c
    case Refund(payment, refund) => RefundKeepsVoidIff(s, payment, refund, id);
    case Allocate(payment, i, amount) =>
      assert Agrees(s, id);
      AllocateKeepsVoidIff(s, payment, i, amount, id);
    case _ => OtherCallsKeepVoid(s, c, id);
  }

  predicate StaysVoid(s: Store, calls: seq<Call>, id: string)
    decreases |calls|
  {
    && id in s.invoices && s.invoices[id].status == VOID
    && (calls == [] || StaysVoid(Step(s, calls[0]).store, calls[1..], id))
  }

  predicate NoneReopens(s: Store, calls: seq<Call>, id: string)
    decreases |calls|
  {
    calls == [] ||
    (id in s.invoices && !Reopens(s, calls[0], id) && NoneReopens(Step(s, calls[0]).store, calls[1..], id))
  }

  /** Over a whole run an invoice stays VOID throughout if and only if no call reopens it. */
  lemma {:induction false} RunStaysVoidIff(s: Store, calls: seq<Call>, id: string)
    requires Sound(s, id) && LegalRun(s, calls) && id in s.invoices && s.invoices[id].status == VOID
    ensures StaysVoid(s, calls, id) <==> NoneReopens(s, calls, id)
    decreases |calls|
  {
    if calls != [] {
      StepKeepsVoidIff(s, calls[0], id);
      if !Reopens(s, calls[0], id) {
        StepSound(s, calls[0], id);
        RunStaysVoidIff(Step(s, calls[0]).store, calls[1..], id);
      }
    }
  }

  predicate VoidAfter(s: Store, calls: seq<Call>, id: string) {
    id in Run(s, calls).invoices && Run(s, calls).invoices[id].status == VOID
  }

  /** Voided with nothing paid and something due: nothing can reopen it. */
  predicate VoidForGood(s: Store, id: string) {
    id in s.invoices && s.invoices[id].status == VOID
      && s.invoices[id].amountPaid == 0 < s.invoices[id].totals.grandTotal
  }

  lemma {:induction false} VoidForGoodStays(s: Store, calls: seq<Call>, id: string)
    requires Sound(s, id) && LegalRun(s, calls) && VoidForGood(s, id)
    ensures VoidAfter(s, calls, id)
    decreases |calls|
  {
    if calls != [] {
      var t := Step(s, calls[0]).store;
      StepKeepsVoidIff(s, calls[0], id);
      StepSound(s, calls[0], id);
      VoidForGoodStays(t, calls[1..], id);
    }
  }

  lemma RunPrepended(s: Store, c: Call, calls: seq<Call>)
    ensures Run(s, [c] + calls) == Run(Step(s, c).store, calls)
    ensures LegalRun(s, [c] + calls) <==> Legal(s, c) && LegalRun(Step(s, c).store, calls)
  {
    assert ([c] + calls)[1..] == calls;
  }

  /** Any captured payment will do for an allocation of what remains of it. */
  lemma AllocateReopens(s: Store, payment: nat, id: string) returns (calls: seq<Call>)
    requires Sound(s, id) && Live(s, id) && s.invoices[id].status == VOID
    requires payment < |s.payments| && s.payments[payment].status == CAPTURED
    requires 0 < s.invoices[id].amountPaid || s.invoices[id].totals.grandTotal == 0
    ensures LegalRun(s, calls) && !VoidAfter(s, calls, id)
  {
    var c := Allocate(payment, id, s.payments[payment].amount - AllocatedOf(s.allocations, payment));
    StepKeepsVoidIff(s, c, id);
    RunPrepended(s, c, []);
    calls := [c] + [];
  }

  lemma RestoreAndAllocateReopens(s: Store, payment: nat, id: string) returns (calls: seq<Call>)
    requires Sound(s, id) && id in s.invoices && s.invoices[id].status == VOID
    requires payment < |s.payments| && s.payments[payment].status == CAPTURED
    requires 0 < s.invoices[id].amountPaid || s.invoices[id].totals.grandTotal == 0
    ensures LegalRun(s, calls) && !VoidAfter(s, calls, id)
  {
    if Live(s, id) {
      calls := AllocateReopens(s, payment, id);
    } else {
      var t := Step(s, Restore(id)).store;
      StepSound(s, Restore(id), id);
      var rest := AllocateReopens(t, payment, id);
      RunPrepended(s, Restore(id), rest);
      calls := [Restore(id)] + rest;
    }
  }

  lemma {:induction false} PaidHasPayment(payments: seq<Payment>, id: string) returns (i: nat)
    requires Captured(payments, id) != 0
    ensures i < |payments| && payments[i].status == CAPTURED
  {
    var n := |payments| - 1;
    if payments[n].invoice == id && payments[n].status == CAPTURED {
      i := n;
    } else {
      i := PaidHasPayment(payments[..n], id);
    }
  }

  lemma {:induction false} FreshId(ids: set<string>) returns (n: nat)
    ensures forall id | id in ids :: |id| <= n
    decreases |ids|
  {
    if ids == {} {
      n := 0;
    } else {
      var id :| id in ids;
      n := FreshId(ids - {id});
      n := if |id| > n then |id| else n;
    }
  }

  /** An item that costs 1. */
  predicate Penny(item: LineInput) {
    item.quantity == 1 && item.unitPrice == 1 && item.discount == 0 && item.taxRate == 0
  }

  lemma PennyLine() returns (item: LineInput)
    ensures Penny(item)
  {
    item := LineInput(1, 1, 0, 0);
  }

  lemma PennyOutput(item: LineInput)
    requires Penny(item)
    ensures CalculateLineItem(item) == LineOutput(item, 1, 0, 0, 1)
  {
  }

  lemma PennySums(item: LineInput)
    requires Penny(item)
    ensures LineSums([item]) == Sums(1, 0, 0)
  {
    OneLineSums(item);
    PennyOutput(item);
  }

  lemma PennyTotals(item: LineInput, shippingAmount: int)
    requires Penny(item) && shippingAmount == 0
    ensures InvoiceTotals([item], shippingAmount).grandTotal == 1
  {
    PennySums(item);
  }

  lemma PayPenny(s: Store, id: string)
    requires Live(s, id) && s.invoices[id].status == DRAFT
    requires s.invoices[id].amountPaid == 0 && s.invoices[id].totals.grandTotal == 1
    ensures var t := Step(s, PayManually(id, 1, "")).store;
      && |t.payments| == |s.payments| + 1 && t.payments[|s.payments|].status == CAPTURED
      && forall i | i in s.invoices && i != id :: i in t.invoices && t.invoices[i] == s.invoices[i]
  {
  }

  /** A new invoice of 1, paid at once, gives a payment to allocate from. */
  lemma PaidPenny(s: Store, id: string, item: LineInput)
    requires id !in s.invoices && Penny(item)
    ensures var s1 := Step(s, CreateInvoice(id, [item], 0)).store;
      var s2 := Step(s1, PayManually(id, 1, "")).store;
      && |s2.payments| == |s.payments| + 1 && s2.payments[|s.payments|].status == CAPTURED
      && forall i | i in s.invoices :: i in s2.invoices && s2.invoices[i] == s.invoices[i]
  {
    PennyTotals(item, 0);
    PayPenny(Step(s, CreateInvoice(id, [item], 0)).store, id);
  }

  lemma FreeInvoiceReopens(s: Store, id: string) returns (calls: seq<Call>)
    requires Sound(s, id) && id in s.invoices && s.invoices[id].status == VOID && s.invoices[id].totals.grandTotal == 0
    ensures LegalRun(s, calls) && !VoidAfter(s, calls, id)
  {
    var n := FreshId(s.invoices.Keys);
    var other := seq(n + 1, _ => '0');
    assert other !in s.invoices;
    var item := PennyLine();
    var create, pay := CreateInvoice(other, [item], 0), PayManually(other, 1, "");
    var s1 := Step(s, create).store;
    var s2 := Step(s1, pay).store;
    PaidPenny(s, other, item);
    StepSound(s, create, id);
    StepSound(s1, pay, id);
    var rest := RestoreAndAllocateReopens(s2, |s.payments|, id);
    RunPrepended(s1, pay, rest);
    RunPrepended(s, create, [pay] + rest);
    calls := [create] + ([pay] + rest);
  }

  /** VOID is final, in every run that may follow, if and only if the invoice was voided
      with nothing paid and something due. */
  lemma VoidIsFinalIff(s: Store, id: string)
    requires Sound(s, id) && id in s.invoices && s.invoices[id].status == VOID
    ensures (forall calls | LegalRun(s, calls) :: VoidAfter(s, calls, id))
      <==> s.invoices[id].amountPaid == 0 < s.invoices[id].totals.grandTotal
  {
    assert Agrees(s, id);
    if s.invoices[id].amountPaid != 0 {
      var payment := PaidHasPayment(s.payments, id);
      var calls := RestoreAndAllocateReopens(s, payment, id);
    } else if s.invoices[id].totals.grandTotal == 0 {
      var calls := FreeInvoiceReopens(s, id);
    } else {
      forall calls | LegalRun(s, calls) ensures VoidAfter(s, calls, id) { VoidForGoodStays(s, calls, id); }
    }
  }

  // ---------- Allocations ----------

  /** Allocation k belongs to payment k: all of it while captured, the unrefunded rest after. */
  predicate FullyAllocated(s: Store) {
    && |s.allocations| == |s.payments|
    && forall k | 0 <= k < |s.payments| :: AllocationFits(s, k)
  }

  predicate AllocationFits(s: Store, k: nat)
    requires k < |s.payments| && k < |s.allocations|
  {
    var p, a := s.payments[k], s.allocations[k];
    && a.payment == k && a.invoice == p.invoice
    && p.status in {CAPTURED, REFUNDED}
    && (p.status == CAPTURED ==> a.amount == p.amount)
    && (p.status == REFUNDED ==> k in s.refunded && s.refunded[k] <= p.amount && a.amount == p.amount - s.refunded[k])
  }

  lemma {:induction false} AllocatedOfOne(s: Store, n: nat, payment: nat)
    requires FullyAllocated(s) && n <= |s.allocations|
    ensures AllocatedOf(s.allocations[..n], payment) == if payment < n then s.allocations[payment].amount else 0
  {
    if n > 0 {
      AllocatedOfOne(s, n - 1, payment);
      assert s.allocations[..n][..n - 1] == s.allocations[..n - 1];
      assert AllocationFits(s, n - 1);
    }
  }

  lemma {:induction false} NewestIsOwn(s: Store, n: nat, payment: nat)
    requires FullyAllocated(s) && payment < n <= |s.allocations|
    ensures NewestBelow(s.allocations, n, payment, s.payments[payment].invoice) == payment
  {
    assert AllocationFits(s, n - 1);
    if n - 1 != payment { NewestIsOwn(s, n - 1, payment); }
  }

  /** A captured payment is fully allocated, so allocate is refused for it exactly when
      the amount asked for is positive. */
  lemma AllocateRefusesIffPositive(s: Store, payment: nat, id: string, amount: int)
    requires FullyAllocated(s) && payment < |s.payments| && s.payments[payment].status == CAPTURED && Live(s, id)
    ensures AllocatedOf(s.allocations, payment) == s.payments[payment].amount
    ensures AllocateCall(s, payment, id, amount).result.Failure? <==> amount > 0
  {
    AllocatedOfOne(s, |s.allocations|, payment);
    assert s.allocations[..|s.allocations|] == s.allocations;
    assert AllocationFits(s, payment);
  }

  lemma PayFullyAllocated(s: Store, id: string, amount: int, transaction: string)
    requires FullyAllocated(s)
    ensures FullyAllocated(Pay(s, id, amount, transaction).store)
  {
    var t := Pay(s, id, amount, transaction).store;
    forall k | 0 <= k < |s.payments| ensures AllocationFits(t, k) {
      assert AllocationFits(s, k);
    }
  }

  lemma RefundFullyAllocated(s: Store, payment: nat, refund: Option<int>)
    requires FullyAllocated(s)
    ensures FullyAllocated(RefundCall(s, payment, refund).store)
  {
    if RefundCall(s, payment, refund).result.Success? {
      var t := RefundCall(s, payment, refund).store;
      NewestIsOwn(s, |s.allocations|, payment);
      forall k | 0 <= k < |s.payments| ensures AllocationFits(t, k) {
        assert AllocationFits(s, k);
      }
    }
  }

  lemma StepFullyAllocated(s: Store, c: Call)
    requires FullyAllocated(s) && (c.Allocate? ==> c.amount > 0)
    ensures FullyAllocated(Step(s, c).store)
  {
    match c
    case Allocate(payment, id, amount) =>
      if payment < |s.payments| && s.payments[payment].status == CAPTURED && Live(s, id) {
        AllocateRefusesIffPositive(s, payment, id, amount);
      }
    case Refund(payment, refund) => RefundFullyAllocated(s, payment, refund);
    case PayManually(id, amount, transaction) => PayFullyAllocated(s, id, amount, transaction);
    case CaptureGateway(id, amount, transaction) => PayFullyAllocated(s, id, amount, transaction);
    case _ => InvoiceCallAllocates(s, c);
  }

  /** The calls on invoices touch neither payments nor allocations. */
  lemma InvoiceCallAllocates(s: Store, c: Call)
    requires FullyAllocated(s)
    requires !(c.Allocate? || c.Refund? || c.PayManually? || c.CaptureGateway?)
    ensures FullyAllocated(Step(s, c).store)
  {
    var t := Step(s, c).store;
    assert t.payments == s.payments && t.allocations == s.allocations && t.refunded == s.refunded;
    forall k | 0 <= k < |s.payments| ensures AllocationFits(t, k) {
      assert AllocationFits(s, k);
    }
  }

  function AllocatedTo(allocations: seq<Allocation>, id: string): int {
    if allocations == [] then 0
    else
      var a := allocations[|allocations| - 1];
      AllocatedTo(allocations[..|allocations| - 1], id) + if a.invoice == id then a.amount else 0
  }

  /** What the REFUNDED payments of an invoice did not give back. */
  function Unrefunded(s: Store, n: nat, id: string): int
    requires n <= |s.payments|
  {
    if n == 0 then 0
    else
      var p := s.payments[n - 1];
      Unrefunded(s, n - 1, id)
      + if p.invoice == id && p.status == REFUNDED && n - 1 in s.refunded then p.amount - s.refunded[n - 1] else 0
  }

  lemma {:induction false} AllocatedIsCapturedPlusUnrefunded(s: Store, n: nat, id: string)
    requires FullyAllocated(s) && n <= |s.payments|
    ensures AllocatedTo(s.allocations[..n], id) == Captured(s.payments[..n], id) + Unrefunded(s, n, id)
  {
    if n > 0 {
      AllocatedIsCapturedPlusUnrefunded(s, n - 1, id);
      assert s.allocations[..n][..n - 1] == s.allocations[..n - 1];
      assert s.payments[..n][..n - 1] == s.payments[..n - 1];
      assert AllocationFits(s, n - 1);
    }
  }

  /** In every run with positive allocation requests every captured payment stays fully
      allocated, and an invoice's allocations exceed its amountPaid by exactly the
      unrefunded remainder of its refunded payments. */
  lemma {:induction false} RunFullyAllocated(s: Store, calls: seq<Call>, id: string)
    requires Valid(s) && FullyAllocated(s) && LegalRun(s, calls)
    requires forall c | c in calls :: c.Allocate? ==> c.amount > 0
    ensures var t := Run(s, calls);
      && FullyAllocated(t)
      && (id in t.invoices ==>
            AllocatedTo(t.allocations, id) == t.invoices[id].amountPaid + Unrefunded(t, |t.payments|, id))
    decreases |calls|
  {
    if calls == [] {
      AllocatedIsCapturedPlusUnrefunded(s, |s.payments|, id);
      assert s.allocations[..|s.payments|] == s.allocations && s.payments[..|s.payments|] == s.payments;
      assert Agrees(s, id);
    } else {
      assert calls[0] in calls;
      StepValid(s, calls[0]);
      StepFullyAllocated(s, calls[0]);
      RunFullyAllocated(Step(s, calls[0]).store, calls[1..], id);
    }
  }

  // ---------- What each call does ----------

  /** Only the invoice of the id has changed. */
  predicate OnlyInvoice(s: Store, t: Store, id: string) {
    && t.invoices.Keys == s.invoices.Keys + {id}
    && forall other | other in s.invoices && other != id :: t.invoices[other] == s.invoices[other]
  }

  predicate SamePayments(s: Store, t: Store) {
    t.payments == s.payments && t.allocations == s.allocations && t.refunded == s.refunded
  }

  /** The totals of an invoice: gross, less line discounts, plus line taxes and shipping. */
  lemma InvoiceFigures(items: seq<LineInput>, shippingAmount: int)
    ensures var t := InvoiceTotals(items, shippingAmount);
      && t.subtotal == GrossSum(items)
      && -50 * |items| <= 100 * t.taxAmount - ExactTax(items) <= 50 * |items|
      && IsClamped(t.discountAmount, GrossSum(items) + t.taxAmount - NetSum(items))
      && IsClamped(t.grandTotal, NetSum(items) + shippingAmount)
  {
    DocumentFigures(items, Header(None, 0, shippingAmount));
  }

  /** A new draft with the items and shipping that were asked for, all of it due. */
  predicate FreshDraft(inv: Invoice, items: seq<LineInput>, shippingAmount: int) {
    && inv.status == DRAFT && !inv.deleted && inv.items == items && inv.shippingAmount == shippingAmount
    && Priced(inv) && inv.amountPaid == 0 && inv.balanceDue == inv.totals.grandTotal && inv.progress == Unpaid
  }

  lemma CreateEffect(s: Store, id: string, items: seq<LineInput>, shippingAmount: int)
    ensures var a := Step(s, CreateInvoice(id, items, shippingAmount));
      && a.result.Success? && OnlyInvoice(s, a.store, id) && SamePayments(s, a.store)
      && FreshDraft(a.store.invoices[id], items, shippingAmount)
  {
  }

  lemma DuplicateEffect(s: Store, source: string, id: string)
    requires id !in s.invoices
    ensures var a := Step(s, DuplicateInvoice(source, id));
      && (a.result.Success? <==> Live(s, source))
      && (a.result.Failure? ==>
            && a.store == s
            && a.result.error == NotFound)
      && (a.result.Success? ==>
            && OnlyInvoice(s, a.store, id) && SamePayments(s, a.store)
            && FreshDraft(a.store.invoices[id], s.invoices[source].items, s.invoices[source].shippingAmount))
  {
  }

  /** Given shipping and items replace the stored ones, of drafts only. */
  lemma UpdateEffect(s: Store, id: string, shipping: Option<int>, items: seq<LineInput>)
    ensures var a := Step(s, UpdateInvoice(id, shipping, items));
      && (a.result.Success? <==> Live(s, id) && s.invoices[id].status == DRAFT)
      && (a.result.Failure? ==>
            && a.store == s
            && a.result.error == (if Live(s, id) then BadRequest else NotFound))
      && (a.result.Success? ==>
            var before, after := s.invoices[id], a.store.invoices[id];
            && OnlyInvoice(s, a.store, id) && SamePayments(s, a.store)
            && after.items == (if items == [] then before.items else items)
            && after.shippingAmount == (if shipping.Some? then shipping.value else before.shippingAmount)
            && Priced(after) && after.status == DRAFT && !after.deleted
            && after.amountPaid == before.amountPaid && after.progress == before.progress
            && IsClamped(after.balanceDue, after.totals.grandTotal - after.amountPaid))
  {
  }

  /** The transition table read by its targets. */
  lemma AllowedByTarget(from: InvoiceStatus)
    ensures !Allowed(from, DRAFT)
    ensures Allowed(from, SENT) <==> from == DRAFT
    ensures Allowed(from, VIEWED) <==> from == SENT
    ensures Allowed(from, PARTIALLY_PAID) <==> from == VIEWED
    ensures Allowed(from, PAID) <==> from == SENT || from == VIEWED || from == PARTIALLY_PAID
    ensures Allowed(from, VOID) <==> from != VOID
  {
    match from
    case DRAFT =>
    case SENT =>
    case VIEWED =>
    case PARTIALLY_PAID =>
    case PAID =>
    case VOID =>
  }

  /** send asks for a draft, and everything but a voided invoice can be voided. */
  lemma TransitionEffects(s: Store, id: string)
    ensures var a := Step(s, Send(id));
      && (a.result.Success? <==> Live(s, id) && s.invoices[id].status == DRAFT)
      && (a.result.Failure? ==> a.result.error == if Live(s, id) then BadRequest else NotFound)
      && a.store == if a.result.Success? then Put(s, id, s.invoices[id].(status := SENT)) else s
    ensures var a := Step(s, Void(id));
      && (a.result.Success? <==> Live(s, id) && s.invoices[id].status != VOID)
      && (a.result.Failure? ==> a.result.error == if Live(s, id) then BadRequest else NotFound)
      && a.store == if a.result.Success? then Put(s, id, s.invoices[id].(status := VOID)) else s
  {
    if Live(s, id) { AllowedByTarget(s.invoices[id].status); }
  }

  /** archive spares sent and viewed invoices; delete takes any; restore undoes both. */
  lemma ArchiveEffects(s: Store, id: string)
    ensures var a := Step(s, Archive(id));
      && (a.result.Success? <==> Live(s, id) && s.invoices[id].status != SENT && s.invoices[id].status != VIEWED)
      && (a.result.Failure? ==> a.result.error == if Live(s, id) then BadRequest else NotFound)
      && a.store == if a.result.Success? then Put(s, id, s.invoices[id].(deleted := true)) else s
    ensures var a := Step(s, Delete(id));
      && (a.result.Success? <==> Live(s, id)) && (a.result.Failure? ==> a.result.error == NotFound)
      && a.store == if a.result.Success? then Put(s, id, s.invoices[id].(deleted := true)) else s
    ensures var a := Step(s, Restore(id));
      && (a.result.Success? <==> id in s.invoices && s.invoices[id].deleted)
      && (a.result.Failure? ==> a.result.error == if id in s.invoices then BadRequest else NotFound)
      && a.store == if a.result.Success? then Put(s, id, s.invoices[id].(deleted := false)) else s
  {
  }

  /** A payment is accepted on a live invoice that is not voided, up to what is due, and is
      recorded as asked for, allocated in full and counted as paid. */
  lemma PayEffect(s: Store, id: string, amount: int, transaction: string)
    requires Agrees(s, id) && 1 <= amount
    ensures var a := Step(s, PayManually(id, amount, transaction));
      && (a.result.Success? <==>
            Live(s, id) && s.invoices[id].status != VOID && amount <= s.invoices[id].balanceDue)
      && (a.result.Failure? ==>
            && a.store == s
            && a.result.error == (if Live(s, id) then BadRequest else NotFound))
      && (a.result.Success? ==>
            var n, before, after := |s.payments|, s.invoices[id], a.store.invoices[id];
            && OnlyInvoice(s, a.store, id) && a.store.refunded == s.refunded
            && a.store.payments == s.payments + [Payment(id, amount, CAPTURED, transaction)]
            && a.store.allocations == s.allocations + [Allocation(n, id, amount)]
            && after.amountPaid == before.amountPaid + amount && after.balanceDue == before.balanceDue - amount
            && after.status == (if after.balanceDue == 0 then PAID else PARTIALLY_PAID)
            && after.progress == (if after.balanceDue == 0 then FullyPaid else PartiallyPaid)
            && after.(amountPaid := before.amountPaid, balanceDue := before.balanceDue,
                      progress := before.progress, status := before.status) == before)
  {
    CapturedAppended(s.payments, Payment(id, amount, CAPTURED, transaction), id);
  }

  /** A gateway capture is a payment whose transaction has not been seen before. */
  lemma GatewayEffect(s: Store, id: string, amount: int, transaction: string)
    ensures var unseen := forall i | 0 <= i < |s.payments| :: s.payments[i].transaction != transaction;
      var a, manual := Step(s, CaptureGateway(id, amount, transaction)), Step(s, PayManually(id, amount, transaction));
      && (a.result.Success? <==> manual.result.Success? && unseen)
      && (a.result.Failure? ==> a.result.error == if Live(s, id) then BadRequest else NotFound)
      && a.store == if unseen then manual.store else s
  {
    if Live(s, id) {
      forall i | 0 <= i < |s.payments| ensures s.payments[i] in s.payments {
      }
    }
  }

  /** An allocation is accepted up to what is left of a captured payment. */
  lemma AllocateEffect(s: Store, payment: nat, id: string, amount: int)
    requires Agrees(s, id)
    ensures var a := Step(s, Allocate(payment, id, amount));
      && (a.result.Success? <==>
            && payment < |s.payments| && s.payments[payment].status == CAPTURED && Live(s, id)
            && AllocatedOf(s.allocations, payment) + amount <= s.payments[payment].amount)
      && (a.result.Failure? ==>
            && a.store == s
            && a.result.error == (if payment >= |s.payments| then NotFound
                 else if s.payments[payment].status != CAPTURED || Live(s, id) then BadRequest else NotFound))
      && (a.result.Success? ==>
            && OnlyInvoice(s, a.store, id) && a.store.payments == s.payments && a.store.refunded == s.refunded
            && a.store.allocations == s.allocations + [Allocation(payment, id, amount)]
            && var before, after := s.invoices[id], a.store.invoices[id];
            && after.(progress := before.progress, status := before.status) == before
            && after.progress == (if after.balanceDue == 0 then FullyPaid
                                  else if 0 < after.amountPaid then PartiallyPaid else Unpaid)
            && after.status == (if after.balanceDue == 0 then PAID else if 0 < after.amountPaid then PARTIALLY_PAID
                                else if before.status == VOID then VOID else SENT))
  {
  }

  /** A refund of any part ends the whole payment; the part that was asked for, or all of
      it by default, is recorded and taken off the payment's own allocation. */
  lemma RefundEffect(s: Store, payment: nat, refund: Option<int>)
    requires PaymentsPositive(s) && FullyAllocated(s)
    requires payment < |s.payments| ==> Agrees(s, s.payments[payment].invoice)
    requires refund.Some? ==> 1 <= refund.value
    ensures var a := Step(s, Refund(payment, refund));
      && (a.result.Success? <==>
            && payment < |s.payments| && s.payments[payment].status == CAPTURED
            && (refund.Some? ==> refund.value <= s.payments[payment].amount))
      && (a.result.Failure? ==>
            && a.store == s
            && a.result.error == (if payment < |s.payments| then BadRequest else NotFound))
      && (a.result.Success? ==>
            var p := s.payments[payment];
            var given := if refund.Some? then refund.value else p.amount;
            && a.store.payments == s.payments[payment := p.(status := REFUNDED)]
            && a.store.allocations == s.allocations[payment := Allocation(payment, p.invoice, p.amount - given)]
            && a.store.refunded == s.refunded[payment := given]
            && (p.invoice in s.invoices ==>
                  && OnlyInvoice(s, a.store, p.invoice)
                  && var before, after := s.invoices[p.invoice], a.store.invoices[p.invoice];
                  && after.amountPaid == before.amountPaid - p.amount
                  && after.balanceDue == before.balanceDue + p.amount
                  && after.progress == (if 0 < after.amountPaid then PartiallyPaid else Unpaid)
                  && after.status == (if 0 < after.amountPaid then PARTIALLY_PAID
                                      else if before.status == VOID then VOID else SENT)
                  && after.(amountPaid := before.amountPaid, balanceDue := before.balanceDue,
                            progress := before.progress, status := before.status) == before))
  {
    if RefundCall(s, payment, refund).result.Success? {
      assert AllocationFits(s, payment);
      NewestIsOwn(s, |s.allocations|, payment);
      RefundedSum(s, payment, s.payments[payment].invoice);
      assert s.payments[payment] in s.payments;
    }
  }

  // ---------- The services ----------

  class SalesService {
    var invoices: map<string, Invoice>
    var payments: seq<Payment>
    var allocations: seq<Allocation>
    var refunded: map<nat, int>

    constructor ()
      ensures Snapshot() == Store(map[], [], [], map[])
    {
      invoices, payments, allocations, refunded := map[], [], [], map[];
    }

    ghost function Snapshot(): Store
      reads this
    {
      Store(invoices, payments, allocations, refunded)
    }

    method UpdateInvoicePaymentStatus(id: string)
      requires id in invoices
      modifies this`invoices
      ensures Snapshot() == Reconciled(old(Snapshot()), id)
    {
      var inv := invoices[id];
      var totalPaid := 0;
      for i := 0 to |payments|
        invariant totalPaid == Captured(payments[..i], id)
      {
        assert payments[..i + 1][..i] == payments[..i];
        if payments[i].invoice == id && payments[i].status == CAPTURED {
          totalPaid := totalPaid + payments[i].amount;
        }
      }
      assert payments[..|payments|] == payments;
      var progress, status := Unpaid, if inv.status == VOID then VOID else SENT;
      if totalPaid >= inv.totals.grandTotal {
        progress, status := FullyPaid, PAID;
      } else if totalPaid > 0 {
        progress, status := PartiallyPaid, PARTIALLY_PAID;
      }
      invoices := invoices[id := inv.(amountPaid := totalPaid, balanceDue := Max0(inv.totals.grandTotal - totalPaid),
                                      progress := progress, status := status)];
    }

    method Create(id: string, items: seq<LineInput>, shippingAmount: int)
      modifies this
      ensures Snapshot() == Step(old(Snapshot()), CreateInvoice(id, items, shippingAmount)).store
    {
      var t := InvoiceTotals(items, shippingAmount);
      invoices := invoices[id := Invoice(DRAFT, false, items, shippingAmount, t, 0, t.grandTotal, Unpaid)];
    }

    method Update(id: string, shipping: Option<int>, items: seq<LineInput>) returns (r: Result<()>)
      modifies this
      ensures Answer(r, Snapshot()) == Step(old(Snapshot()), UpdateInvoice(id, shipping, items))
    {
      if id !in invoices || invoices[id].deleted {
        return Failure(NotFound);
      }
      var inv := invoices[id];
      if inv.status != DRAFT {
        return Failure(BadRequest);
      }
      if shipping.Some? {
        inv := inv.(shippingAmount := shipping.value);
      }
      if items != [] {
        inv := inv.(items := items);
      }
      var t := InvoiceTotals(inv.items, inv.shippingAmount);
      invoices := invoices[id := inv.(totals := t, balanceDue := Max0(t.grandTotal - inv.amountPaid))];
      r := Success(());
    }

    /** send and void. */
    method Transition(id: string, to: InvoiceStatus) returns (r: Result<()>)
      modifies this
      ensures Answer(r, Snapshot()) == Move(old(Snapshot()), id, to)
    {
      if id !in invoices || invoices[id].deleted {
        return Failure(NotFound);
      }
      if !Allowed(invoices[id].status, to) {
        return Failure(BadRequest);
      }
      invoices := invoices[id := invoices[id].(status := to)];
      r := Success(());
    }

    method CreateManual(id: string, amount: int, transaction: string) returns (r: Result<()>)
      modifies this
      ensures Answer(r, Snapshot()) == Step(old(Snapshot()), PayManually(id, amount, transaction))
    {
      if id !in invoices || invoices[id].deleted {
        return Failure(NotFound);
      }
      if invoices[id].status == VOID {
        return Failure(BadRequest);
      }
      var overpayment := invoices[id].amountPaid + amount - invoices[id].totals.grandTotal;
      if overpayment > 0 {
        return Failure(BadRequest);
      }
      var payment := |payments|;
      payments := payments + [Payment(id, amount, CAPTURED, transaction)];
      allocations := allocations + [Allocation(payment, id, amount)];
      UpdateInvoicePaymentStatus(id);
      r := Success(());
    }

    method CaptureGatewayPayment(id: string, amount: int, transaction: string) returns (r: Result<()>)
      modifies this
      ensures Answer(r, Snapshot()) == Step(old(Snapshot()), CaptureGateway(id, amount, transaction))
    {
      if id !in invoices || invoices[id].deleted {
        return Failure(NotFound);
      }
      if invoices[id].status == VOID {
        return Failure(BadRequest);
      }
      if exists p | p in payments :: p.transaction == transaction {
        return Failure(BadRequest);
      }
      r := CreateManual(id, amount, transaction);
    }

    method AllocatePayment(payment: nat, id: string, amount: int) returns (r: Result<()>)
      modifies this
      ensures Answer(r, Snapshot()) == Step(old(Snapshot()), Allocate(payment, id, amount))
    {
      if payment >= |payments| {
        return Failure(NotFound);
      }
      if payments[payment].status != CAPTURED {
        return Failure(BadRequest);
      }
      if id !in invoices || invoices[id].deleted {
        return Failure(NotFound);
      }
      var remaining := payments[payment].amount - AllocatedOf(allocations, payment);
      if amount > remaining {
        return Failure(BadRequest);
      }
      allocations := allocations + [Allocation(payment, id, amount)];
      UpdateInvoicePaymentStatus(id);
      r := Success(());
    }

    method RefundPayment(payment: nat, refund: Option<int>) returns (r: Result<()>)
      modifies this
      ensures Answer(r, Snapshot()) == Step(old(Snapshot()), Refund(payment, refund))
    {
      if payment >= |payments| {
        return Failure(NotFound);
      }
      var p := payments[payment];
      if p.status != CAPTURED {
        return Failure(BadRequest);
      }
      var amount := if refund.Some? then refund.value else p.amount;
      if amount > p.amount {
        return Failure(BadRequest);
      }
      payments := payments[payment := p.(status := REFUNDED)];
      refunded := refunded[payment := amount];
      var i := Newest(allocations, payment, p.invoice);
      if i < |allocations| {
        allocations := allocations[i := allocations[i].(amount := Max0(allocations[i].amount - amount))];
      }
      if p.invoice in invoices {
        UpdateInvoicePaymentStatus(p.invoice);
      }
      r := Success(());
    }
  }
}
