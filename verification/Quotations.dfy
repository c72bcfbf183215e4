/** Sales quotations (src/sales/quotation.service.ts). */
module Quotations {
  import opened Results
  import opened Pricing

  datatype Status = DRAFT | SENT | VIEWED | ACCEPTED | REJECTED | EXPIRED | CANCELLED

  datatype Item = Item(id: nat, product: string, line: LineInput, lineTotal: int, displayOrder: int)

  datatype Quotation = Quotation(status: Status, deleted: bool, header: Header, items: seq<Item>,
                                 subtotal: int, discountAmount: int, taxAmount: int, grandTotal: int)

  datatype Store = Store(quotations: map<string, Quotation>, nextItem: nat)

  datatype ItemInput = ItemInput(product: string, line: LineInput)

  /** Changed header fields; None keeps the stored value. */
  datatype HeaderPatch = HeaderPatch(discountType: Option<Option<DiscountType>>, discountValue: Option<int>,
                                     shippingAmount: Option<int>)

  datatype LinePatch = LinePatch(product: Option<string>, quantity: Option<int>, unitPrice: Option<int>,
                                 discount: Option<int>, taxRate: Option<int>)

  datatype Call =
    | Create(id: string, header: Header, inputs: seq<ItemInput>)
    | Update(id: string, patch: HeaderPatch, newInputs: seq<ItemInput>)
    | AddItem(id: string, input: ItemInput)
    | UpdateItem(id: string, item: nat, linePatch: LinePatch)
    | DeleteItem(id: string, item: nat)
    | ReorderItems(id: string, orders: map<nat, int>)
    | Move(id: string, to: Status)
    | Archive(id: string)
    | Restore(id: string)
    | Delete(id: string)
    | Duplicate(source: string, id: string)

  datatype Answer = Answer(result: Result<()>, store: Store)

  /** The transition table. */
  predicate Allowed(from: Status, to: Status) {
    match from
    case DRAFT => to in {SENT, CANCELLED}
    case SENT => to in {VIEWED, ACCEPTED, REJECTED, EXPIRED, CANCELLED}
    case VIEWED => to in {ACCEPTED, REJECTED, EXPIRED, CANCELLED}
    case ACCEPTED => to == CANCELLED
    case _ => false
  }

  function Lines(items: seq<Item>): seq<LineInput> {
    seq(|items|, i requires 0 <= i < |items| => items[i].line)
  }

  function NewItems(inputs: seq<ItemInput>, nextItem: nat): seq<Item> {
    seq(|inputs|, i requires 0 <= i < |inputs| =>
      Item(nextItem + i, inputs[i].product, inputs[i].line, CalculateLineItem(inputs[i].line).lineTotal, i))
  }

  function CopiedItems(items: seq<Item>, nextItem: nat): seq<Item> {
    seq(|items|, i requires 0 <= i < |items| =>
      Item(nextItem + i, items[i].product, items[i].line, CalculateLineItem(items[i].line).lineTotal, i))
  }

  /** recalculateAndUpdate. */
  function Recalculated(q: Quotation): Quotation {
    WithTotals(q, TotalsOf(Lines(q.items), q.header))
  }

  function WithTotals(q: Quotation, t: Totals): Quotation {
    q.(subtotal := t.subtotal, discountAmount := t.discountAmount, taxAmount := t.taxAmount, grandTotal := t.grandTotal)
  }

  function Priced(status: Status, header: Header, items: seq<Item>): Quotation {
    Recalculated(Quotation(status, false, header, items, 0, 0, 0, 0))
  }

  function PatchedHeader(h: Header, p: HeaderPatch): Header {
    Header(if p.discountType.Some? then p.discountType.value else h.discountType,
           if p.discountValue.Some? then p.discountValue.value else h.discountValue,
           if p.shippingAmount.Some? then p.shippingAmount.value else h.shippingAmount)
  }

  function PatchedItem(i: Item, p: LinePatch): Item {
    var line := LineInput(if p.quantity.Some? then p.quantity.value else i.line.quantity,
                          if p.unitPrice.Some? then p.unitPrice.value else i.line.unitPrice,
                          if p.discount.Some? then p.discount.value else i.line.discount,
                          if p.taxRate.Some? then p.taxRate.value else i.line.taxRate);
    i.(product := if p.product.Some? then p.product.value else i.product,
       line := line, lineTotal := CalculateLineItem(line).lineTotal)
  }

  function IndexOf(items: seq<Item>, id: nat): (i: nat)
    ensures i <= |items| && (i < |items| ==> items[i].id == id)
    ensures forall j | 0 <= j < i :: items[j].id != id
  {
    if items == [] || items[0].id == id then 0 else 1 + IndexOf(items[1..], id)
  }

  function MaxOrder(items: seq<Item>): int {
    if items == [] then -1
    else
      var rest := MaxOrder(items[1..]);
      if |items| == 1 || items[0].displayOrder > rest then items[0].displayOrder else rest
  }

  /** reorderItems addresses items by id alone, so it reaches items of any quotation. */
  function Reordered(items: seq<Item>, orders: map<nat, int>): seq<Item> {
    seq(|items|, i requires 0 <= i < |items| =>
      if items[i].id in orders then items[i].(displayOrder := orders[items[i].id]) else items[i])
  }

  predicate Live(s: Store, id: string) { id in s.quotations && !s.quotations[id].deleted }

  function Put(s: Store, id: string, q: Quotation): Store {
    s.(quotations := s.quotations[id := q])
  }

  /** The edits of a draft; the id is known to be live and a draft. */
  function EditDraft(s: Store, c: Call): Answer
    requires c.Update? || c.AddItem? || c.UpdateItem? || c.DeleteItem? || c.ReorderItems?
    requires Live(s, c.id)
  {
    var q := s.quotations[c.id];
    match c
    case Update(id, patch, inputs) =>
      var q' := q.(header := PatchedHeader(q.header, patch));
      if inputs == [] then Answer(Success(()), Put(s, id, Recalculated(q')))
      else
        var items := NewItems(inputs, s.nextItem);
        Answer(Success(()), Put(s.(nextItem := s.nextItem + |inputs|), id, Recalculated(q'.(items := items))))
    case AddItem(id, input) =>
      var item := Item(s.nextItem, input.product, input.line, CalculateLineItem(input.line).lineTotal,
        MaxOrder(q.items) + 1);
      Answer(Success(()), Put(s.(nextItem := s.nextItem + 1), id, Recalculated(q.(items := q.items + [item]))))
    case UpdateItem(id, item, patch) =>
      var i := IndexOf(q.items, item);
      if i == |q.items| then Answer(Failure(NotFound), s)
      else Answer(Success(()), Put(s, id, Recalculated(q.(items := q.items[i := PatchedItem(q.items[i], patch)]))))
    case DeleteItem(id, item) =>
      var i := IndexOf(q.items, item);
      if i == |q.items| then Answer(Failure(NotFound), s)
      else Answer(Success(()), Put(s, id, Recalculated(q.(items := q.items[..i] + q.items[i + 1..]))))
    case ReorderItems(id, orders) =>
      var s' := s.(quotations := map k | k in s.quotations ::
        s.quotations[k].(items := Reordered(s.quotations[k].items, orders)));
      var known := forall o | o in orders ::
        exists k | k in s.quotations :: exists i | i in s.quotations[k].items :: i.id == o;
      Answer(if known then Success(()) else Failure(NotFound), s')
  }

  function Step(s: Store, c: Call): Answer {
    match c
    case Create(id, header, inputs) =>
      var items := NewItems(inputs, s.nextItem);
      Answer(Success(()), Put(s.(nextItem := s.nextItem + |inputs|), id, Priced(DRAFT, header, items)))
    case Duplicate(source, id) =>
      if !Live(s, source) then Answer(Failure(NotFound), s)
      else
        var q := s.quotations[source];
        var items := CopiedItems(q.items, s.nextItem);
        Answer(Success(()), Put(s.(nextItem := s.nextItem + |items|), id, Priced(DRAFT, q.header, items)))
    case Restore(id) =>
      if id !in s.quotations then Answer(Failure(NotFound), s)
      else if !s.quotations[id].deleted then Answer(Failure(BadRequest), s)
      else Answer(Success(()), Put(s, id, s.quotations[id].(deleted := false)))
    case Move(id, to) =>
      if !Live(s, id) then Answer(Failure(NotFound), s)
      else if !Allowed(s.quotations[id].status, to) then Answer(Failure(BadRequest), s)
      else Answer(Success(()), Put(s, id, s.quotations[id].(status := to)))
    case Archive(id) =>
      if !Live(s, id) then Answer(Failure(NotFound), s)
      else if s.quotations[id].status !in {DRAFT, CANCELLED} then Answer(Failure(BadRequest), s)
      else Answer(Success(()), Put(s, id, s.quotations[id].(deleted := true)))
    case Delete(id) =>
      if !Live(s, id) then Answer(Failure(NotFound), s)
      else Answer(Success(()), Put(s, id, s.quotations[id].(deleted := true)))
    case _ =>
      if !Live(s, c.id) then Answer(Failure(NotFound), s)
      else if s.quotations[c.id].status != DRAFT then Answer(Failure(BadRequest), s)
      else EditDraft(s, c)
  }

  // ---------- Stored totals ----------

  predicate Agrees(q: Quotation) {
    && q == Recalculated(q)
    && forall i | i in q.items :: i.lineTotal == i.line.quantity * i.line.unitPrice
  }

  predicate Valid(s: Store) { forall id | id in s.quotations :: Agrees(s.quotations[id]) }

  predicate Legal(s: Store, c: Call) {
    c.Create? || c.Duplicate? ==> c.id !in s.quotations
  }

  lemma RecalculatedAgrees(q: Quotation)
    requires forall i | i in q.items :: i.lineTotal == i.line.quantity * i.line.unitPrice
    ensures Agrees(Recalculated(q))
  {
  }

  lemma ReorderedAgrees(q: Quotation, orders: map<nat, int>)
    requires Agrees(q)
    ensures Agrees(q.(items := Reordered(q.items, orders)))
    ensures Lines(Reordered(q.items, orders)) == Lines(q.items)
  {
    assert Lines(Reordered(q.items, orders)) == Lines(q.items);
    forall i | i in Reordered(q.items, orders) ensures i.lineTotal == i.line.quantity * i.line.unitPrice {
      var k :| 0 <= k < |q.items| && i == Reordered(q.items, orders)[k];
      assert q.items[k] in q.items;
    }
  }

  lemma PutValid(s: Store, id: string, q: Quotation)
    requires Valid(s) && Agrees(q)
    ensures Valid(Put(s, id, q))
  {
  }

  /** status and deletion do not enter the totals. */
  lemma RelabelledAgrees(q: Quotation, status: Status, deleted: bool)
    requires Agrees(q)
    ensures Agrees(q.(status := status, deleted := deleted))
  {
  }

  lemma NewItemsAgree(q: Quotation, inputs: seq<ItemInput>, nextItem: nat)
    ensures Agrees(Recalculated(q.(items := NewItems(inputs, nextItem))))
  {
    RecalculatedAgrees(q.(items := NewItems(inputs, nextItem)));
  }

  lemma ReorderKeepsAgreement(s: Store, c: Call)
    requires c.ReorderItems? && Valid(s) && Live(s, c.id)
    ensures Valid(EditDraft(s, c).store)
  {
    forall k | k in s.quotations { ReorderedAgrees(s.quotations[k], c.orders); }
  }

  lemma ItemEditKeepsAgreement(s: Store, c: Call)
    requires c.AddItem? || c.UpdateItem? || c.DeleteItem?
    requires Valid(s) && Live(s, c.id)
    ensures Valid(EditDraft(s, c).store)
  {
    var q := s.quotations[c.id];
    assert Agrees(q);
    match c
    case AddItem(id, input) =>
      var item := Item(s.nextItem, input.product, input.line, CalculateLineItem(input.line).lineTotal,
        MaxOrder(q.items) + 1);
      RecalculatedAgrees(q.(items := q.items + [item]));
    case UpdateItem(id, item, patch) =>
      var i := IndexOf(q.items, item);
      if i < |q.items| { RecalculatedAgrees(q.(items := q.items[i := PatchedItem(q.items[i], patch)])); }
    case DeleteItem(id, item) =>
      var i := IndexOf(q.items, item);
      if i < |q.items| { RecalculatedAgrees(q.(items := q.items[..i] + q.items[i + 1..])); }
  }

  lemma UpdateKeepsAgreement(s: Store, id: string, patch: HeaderPatch, inputs: seq<ItemInput>)
    requires Valid(s) && Live(s, id)
    ensures Valid(EditDraft(s, Update(id, patch, inputs)).store)
  {
    var q := s.quotations[id].(header := PatchedHeader(s.quotations[id].header, patch));
    assert Agrees(s.quotations[id]);
    RecalculatedAgrees(q);
    NewItemsAgree(q, inputs, s.nextItem);
  }

  lemma NewQuotationValid(s: Store, c: Call)
    requires Valid(s) && (c.Create? || c.Duplicate?)
    ensures Valid(Step(s, c).store)
  {
    match c
    case Create(id, header, inputs) =>
      NewItemsAgree(Quotation(DRAFT, false, header, [], 0, 0, 0, 0), inputs, s.nextItem);
    case Duplicate(source, id) =>
      if Live(s, source) {
        var q := s.quotations[source];
        RecalculatedAgrees(Quotation(DRAFT, false, q.header, CopiedItems(q.items, s.nextItem), 0, 0, 0, 0));
      }
  }

  lemma RelabelValid(s: Store, id: string, status: Status, deleted: bool)
    requires Valid(s) && id in s.quotations
    ensures Valid(Put(s, id, s.quotations[id].(status := status, deleted := deleted)))
  {
    RelabelledAgrees(s.quotations[id], status, deleted);
    PutValid(s, id, s.quotations[id].(status := status, deleted := deleted));
  }

  lemma RelabellingCallValid(s: Store, c: Call)
    requires Valid(s) && (c.Restore? || c.Move? || c.Archive? || c.Delete?) && c.id in s.quotations
    ensures Valid(Step(s, c).store)
  {
    var q := s.quotations[c.id];
    var status := if c.Move? then c.to else q.status;
    var deleted := if c.Move? then q.deleted else !c.Restore?;
    RelabelValid(s, c.id, status, deleted);
    if Step(s, c).result.Success? {
      assert Step(s, c).store == Put(s, c.id, q.(status := status, deleted := deleted));
    } else {
      assert Step(s, c).store == s;
    }
  }

  lemma EditDraftValid(s: Store, c: Call)
    requires Valid(s) && Live(s, c.id)
    requires c.Update? || c.AddItem? || c.UpdateItem? || c.DeleteItem? || c.ReorderItems?
    ensures Valid(EditDraft(s, c).store)
  {
    match c
    case Update(id, patch, inputs) => UpdateKeepsAgreement(s, id, patch, inputs);
    case ReorderItems(_, _) => ReorderKeepsAgreement(s, c);
    case _ => ItemEditKeepsAgreement(s, c);
  }

  lemma StepValid(s: Store, c: Call)
    requires Valid(s)
    ensures Valid(Step(s, c).store)
  {
    if c.Create? || c.Duplicate? {
      NewQuotationValid(s, c);
    } else if c.Restore? || c.Move? || c.Archive? || c.Delete? {
      if c.id in s.quotations { RelabellingCallValid(s, c); }
    } else if Live(s, c.id) {
      EditDraftValid(s, c);
    }
  }

  function Run(s: Store, calls: seq<Call>): Store
    decreases |calls|
  {
    if calls == [] then s else Run(Step(s, calls[0]).store, calls[1..])
  }

  predicate LegalRun(s: Store, calls: seq<Call>)
    decreases |calls|
  {
    calls == [] || (Legal(s, calls[0]) && LegalRun(Step(s, calls[0]).store, calls[1..]))
  }

  /** In every reachable state the stored totals are calculateSummary of the stored
      items and header. */
  lemma {:induction false} RunValid(s: Store, calls: seq<Call>)
    requires Valid(s)
    ensures Valid(Run(s, calls))
    decreases |calls|
  {
    if calls != [] {
      StepValid(s, calls[0]);
      RunValid(Step(s, calls[0]).store, calls[1..]);
    }
  }

  /** However two quotations were edited, in whatever runs: the same header and the same
      multiset of priced lines give the same totals, those of building it afresh. */
  lemma EditHistoryDoesNotMatter(s: Store, calls: seq<Call>, t: Store, others: seq<Call>, a: string, b: string,
                                 inputs: seq<ItemInput>)
    requires Valid(s) && Valid(t)
    requires a in Run(s, calls).quotations && b in Run(t, others).quotations
    requires var p, q := Run(s, calls).quotations[a], Run(t, others).quotations[b];
      p.header == q.header && multiset(Lines(p.items)) == multiset(Lines(q.items))
    ensures var p, q := Run(s, calls).quotations[a], Run(t, others).quotations[b];
      && (p.subtotal, p.discountAmount, p.taxAmount, p.grandTotal) ==
           (q.subtotal, q.discountAmount, q.taxAmount, q.grandTotal)
      && (multiset(Lines(NewItems(inputs, 0))) == multiset(Lines(p.items)) ==>
            var afresh := Priced(DRAFT, p.header, NewItems(inputs, 0));
            (afresh.subtotal, afresh.discountAmount, afresh.taxAmount, afresh.grandTotal)
              == (p.subtotal, p.discountAmount, p.taxAmount, p.grandTotal))
  {
    RunValid(s, calls);
    RunValid(t, others);
    var p, q := Run(s, calls).quotations[a], Run(t, others).quotations[b];
    assert Agrees(p) && Agrees(q);
    TotalsOfPermutation(Lines(p.items), Lines(q.items), p.header);
    if multiset(Lines(NewItems(inputs, 0))) == multiset(Lines(p.items)) {
      TotalsOfPermutation(Lines(NewItems(inputs, 0)), Lines(p.items), p.header);
    }
  }

  /** What a customer is committed to: header, priced lines and totals. */
  predicate SameOffer(p: Quotation, q: Quotation) {
    && p.header == q.header && Lines(p.items) == Lines(q.items)
    && (p.subtotal, p.discountAmount, p.taxAmount, p.grandTotal) ==
         (q.subtotal, q.discountAmount, q.taxAmount, q.grandTotal)
  }

  predicate Committed(s: Store, id: string) { id in s.quotations && s.quotations[id].status != DRAFT }

  lemma StepKeepsOffer(s: Store, c: Call, id: string)
    requires Legal(s, c) && Committed(s, id)
    ensures Committed(Step(s, c).store, id)
    ensures SameOffer(Step(s, c).store.quotations[id], s.quotations[id])
  {
    var q := s.quotations[id];
    match c
    case ReorderItems(_, orders) => assert Lines(Reordered(q.items, orders)) == Lines(q.items);
    case _ =>
  }

  /** Once a quotation has left DRAFT no call changes its offer or makes it a draft again. */
  lemma {:induction false} SentOffersAreFrozen(s: Store, calls: seq<Call>, id: string)
    requires LegalRun(s, calls) && Committed(s, id)
    ensures Committed(Run(s, calls), id) && SameOffer(Run(s, calls).quotations[id], s.quotations[id])
    decreases |calls|
  {
    if calls != [] {
      StepKeepsOffer(s, calls[0], id);
      SentOffersAreFrozen(Step(s, calls[0]).store, calls[1..], id);
    }
  }

  // ---------- What each call does ----------

  /** A run makes its calls one after another. */
  lemma {:induction false} RunMakesCalls(s: Store, calls: seq<Call>, c: Call)
    ensures Run(s, calls + [c]) == Step(Run(s, calls), c).store
    ensures LegalRun(s, calls + [c]) <==> LegalRun(s, calls) && Legal(Run(s, calls), c)
    decreases |calls|
  {
    if calls != [] {
      assert (calls + [c])[1..] == calls[1..] + [c];
      RunMakesCalls(Step(s, calls[0]).store, calls[1..], c);
    } else {
      assert [] + [c] == [c] && Run(Step(s, c).store, []) == Step(s, c).store;
    }
  }

  /** Nothing but the quotation of the id has changed. */
  predicate OnlyQuotation(s: Store, t: Store, id: string) {
    && t.quotations.Keys == s.quotations.Keys + {id}
    && forall other | other in s.quotations && other != id :: t.quotations[other] == s.quotations[other]
  }

  /** The quotation carries the totals of its items and header. */
  predicate Totalled(q: Quotation) {
    var t := TotalsOf(Lines(q.items), q.header);
    && q.subtotal == t.subtotal && q.discountAmount == t.discountAmount
    && q.taxAmount == t.taxAmount && q.grandTotal == t.grandTotal
  }

  lemma AgreesIsTotalled(q: Quotation)
    requires Agrees(q)
    ensures Totalled(q)
  {
    assert q == Recalculated(q);
  }

  /** The items that were asked for, in their order, numbered from n on. */
  predicate AsAsked(items: seq<Item>, inputs: seq<ItemInput>, n: nat) {
    && |items| == |inputs|
    && forall i | 0 <= i < |items| ::
         && items[i].id == n + i && items[i].displayOrder == i
         && items[i].product == inputs[i].product && items[i].line == inputs[i].line
         && items[i].lineTotal == inputs[i].line.quantity * inputs[i].line.unitPrice
  }

  lemma CreateEffect(s: Store, id: string, header: Header, inputs: seq<ItemInput>)
    ensures var a := Step(s, Create(id, header, inputs));
      var q := a.store.quotations[id];
      && a.result.Success? && OnlyQuotation(s, a.store, id) && a.store.nextItem == s.nextItem + |inputs|
      && q.status == DRAFT && !q.deleted && q.header == header && AsAsked(q.items, inputs, s.nextItem) && Totalled(q)
  {
  }

  predicate EditableDraft(s: Store, id: string) { Live(s, id) && s.quotations[id].status == DRAFT }

  /** Given header fields replace the stored ones; given items replace all items. */
  lemma UpdateEffect(s: Store, id: string, patch: HeaderPatch, inputs: seq<ItemInput>)
    ensures var a := Step(s, Update(id, patch, inputs));
      && (a.result.Success? <==> EditableDraft(s, id))
      && (a.result.Failure? ==>
            && a.store == s
            && a.result.error == (if Live(s, id) then BadRequest else NotFound))
      && (a.result.Success? ==>
            var before, after := s.quotations[id], a.store.quotations[id];
            && OnlyQuotation(s, a.store, id) && after.status == DRAFT && !after.deleted && Totalled(after)
            && after.header.discountType ==
                 (if patch.discountType.Some? then patch.discountType.value else before.header.discountType)
            && after.header.discountValue ==
                 (if patch.discountValue.Some? then patch.discountValue.value else before.header.discountValue)
            && after.header.shippingAmount ==
                 (if patch.shippingAmount.Some? then patch.shippingAmount.value else before.header.shippingAmount)
            && (inputs == [] ==> after.items == before.items)
            && (inputs != [] ==> AsAsked(after.items, inputs, s.nextItem)))
  {
  }

  lemma {:induction false} MaxOrderIsMax(items: seq<Item>)
    ensures items == [] ==> MaxOrder(items) == -1
    ensures forall i | i in items :: i.displayOrder <= MaxOrder(items)
    ensures items != [] ==> exists i | i in items :: i.displayOrder == MaxOrder(items)
  {
    if items != [] {
      MaxOrderIsMax(items[1..]);
      assert items == [items[0]] + items[1..] && items[0] in items;
    }
  }

  /** The new item comes last in the list and in display order. */
  lemma AddItemEffect(s: Store, id: string, input: ItemInput)
    ensures var a := Step(s, AddItem(id, input));
      && (a.result.Success? <==> EditableDraft(s, id))
      && (a.result.Failure? ==>
            && a.store == s
            && a.result.error == (if Live(s, id) then BadRequest else NotFound))
      && (a.result.Success? ==>
            var before, after := s.quotations[id], a.store.quotations[id];
            var n := |before.items|;
            && OnlyQuotation(s, a.store, id) && after.header == before.header && after.status == DRAFT
            && Totalled(after) && |after.items| == n + 1 && after.items[..n] == before.items
            && after.items[n].id == s.nextItem && after.items[n].product == input.product
            && after.items[n].line == input.line
            && after.items[n].lineTotal == input.line.quantity * input.line.unitPrice
            && (before.items == [] ==> after.items[n].displayOrder == 0)
            && (forall i | i in before.items :: i.displayOrder < after.items[n].displayOrder))
  {
    if Live(s, id) { MaxOrderIsMax(s.quotations[id].items); }
  }

  lemma {:induction false} IndexOfAbsent(items: seq<Item>, id: nat)
    ensures (exists i | i in items :: i.id == id) <==> IndexOf(items, id) < |items|
  {
    var k := IndexOf(items, id);
    if k < |items| { assert items[k] in items; }
    if i :| i in items && i.id == id {
      var j :| 0 <= j < |items| && items[j] == i;
    }
  }

  /** Given fields of the one item replace its own; nothing else changes. */
  lemma UpdateItemEffect(s: Store, id: string, item: nat, p: LinePatch)
    ensures var a := Step(s, UpdateItem(id, item, p));
      && (a.result.Success? <==> EditableDraft(s, id) && exists i | i in s.quotations[id].items :: i.id == item)
      && (a.result.Failure? ==>
            && a.store == s
            && a.result.error == (if Live(s, id) && !EditableDraft(s, id) then BadRequest else NotFound))
      && (a.result.Success? ==>
            var before, after := s.quotations[id], a.store.quotations[id];
            && OnlyQuotation(s, a.store, id) && after.header == before.header && after.status == DRAFT
            && Totalled(after)
            && exists k | 0 <= k < |before.items| ::
                 && before.items[k].id == item && after.items == before.items[k := after.items[k]]
                 && PatchedFields(before.items[k], after.items[k], p))
  {
    if Live(s, id) {
      IndexOfAbsent(s.quotations[id].items, item);
      var k := IndexOf(s.quotations[id].items, item);
      if k < |s.quotations[id].items| {
        assert PatchedFields(s.quotations[id].items[k], PatchedItem(s.quotations[id].items[k], p), p);
      }
    }
  }

  predicate PatchedFields(before: Item, after: Item, p: LinePatch) {
    && after.id == before.id && after.displayOrder == before.displayOrder
    && after.product == (if p.product.Some? then p.product.value else before.product)
    && after.line.quantity == (if p.quantity.Some? then p.quantity.value else before.line.quantity)
    && after.line.unitPrice == (if p.unitPrice.Some? then p.unitPrice.value else before.line.unitPrice)
    && after.line.discount == (if p.discount.Some? then p.discount.value else before.line.discount)
    && after.line.taxRate == (if p.taxRate.Some? then p.taxRate.value else before.line.taxRate)
    && after.lineTotal == after.line.quantity * after.line.unitPrice
  }

  lemma DeleteItemEffect(s: Store, id: string, item: nat)
    ensures var a := Step(s, DeleteItem(id, item));
      && (a.result.Success? <==> EditableDraft(s, id) && exists i | i in s.quotations[id].items :: i.id == item)
      && (a.result.Failure? ==>
            && a.store == s
            && a.result.error == (if Live(s, id) && !EditableDraft(s, id) then BadRequest else NotFound))
      && (a.result.Success? ==>
            var before, after := s.quotations[id], a.store.quotations[id];
            && OnlyQuotation(s, a.store, id) && after.header == before.header && after.status == DRAFT
            && Totalled(after)
            && exists k | 0 <= k < |before.items| ::
                 before.items[k].id == item && after.items == before.items[..k] + before.items[k + 1..])
  {
    if Live(s, id) { IndexOfAbsent(s.quotations[id].items, item); }
  }

  /** Reordering reaches items of every quotation, but only their display order. */
  lemma ReorderEffect(s: Store, id: string, orders: map<nat, int>, other: string)
    requires other in s.quotations
    ensures var a := Step(s, ReorderItems(id, orders));
      var t := a.store;
      && (a.result.Success? <==>
            && EditableDraft(s, id)
            && forall o | o in orders ::
                 exists k | k in s.quotations :: exists i | i in s.quotations[k].items :: i.id == o)
      && (a.result.Failure? ==> a.result.error == if Live(s, id) && !EditableDraft(s, id) then BadRequest else NotFound)
      && t.quotations.Keys == s.quotations.Keys
      && (!EditableDraft(s, id) ==> t == s)
      && (EditableDraft(s, id) ==>
            var before, after := s.quotations[other].items, t.quotations[other].items;
            && t.quotations[other].(items := before) == s.quotations[other] && |after| == |before|
            && forall i | 0 <= i < |before| ::
                 && after[i].(displayOrder := before[i].displayOrder) == before[i]
                 && after[i].displayOrder ==
                      (if before[i].id in orders then orders[before[i].id] else before[i].displayOrder))
  {
    if EditableDraft(s, id) {
      assert Step(s, ReorderItems(id, orders)).store.quotations[other] ==
        s.quotations[other].(items := Reordered(s.quotations[other].items, orders));
    }
  }

  /** The transition table read by its targets. */
  predicate Reachable(from: Status, to: Status) {
    match to
    case DRAFT => false
    case SENT => from.DRAFT?
    case VIEWED => from.SENT?
    case ACCEPTED => from.SENT? || from.VIEWED?
    case REJECTED => from.SENT? || from.VIEWED?
    case EXPIRED => from.SENT? || from.VIEWED?
    case CANCELLED => from.DRAFT? || from.SENT? || from.VIEWED? || from.ACCEPTED?
  }

  lemma MoveEffect(s: Store, id: string, to: Status)
    ensures var a := Step(s, Move(id, to));
      && (a.result.Success? <==> Live(s, id) && Reachable(s.quotations[id].status, to))
      && (a.result.Failure? ==>
            && a.store == s
            && a.result.error == (if Live(s, id) then BadRequest else NotFound))
      && (a.result.Success? ==>
            && OnlyQuotation(s, a.store, id) && a.store.quotations[id].status == to
            && a.store.quotations[id].(status := s.quotations[id].status) == s.quotations[id])
  {
    if Live(s, id) { AllowedIffReachable(s.quotations[id].status, to); }
  }

  lemma AllowedIffReachable(from: Status, to: Status)
    ensures Allowed(from, to) <==> Reachable(from, to)
  {
    match from
    case DRAFT =>
    case SENT =>
    case VIEWED =>
    case ACCEPTED =>
    case REJECTED =>
    case EXPIRED =>
    case CANCELLED =>
  }

  /** archive asks for a draft or a cancelled quotation; delete takes any; restore undoes both. */
  lemma ArchiveEffects(s: Store, id: string)
    ensures var a := Step(s, Archive(id));
      && (a.result.Success? <==>
            Live(s, id) && (s.quotations[id].status == DRAFT || s.quotations[id].status == CANCELLED))
      && (a.result.Failure? ==> a.result.error == if Live(s, id) then BadRequest else NotFound)
      && a.store == if a.result.Success? then Put(s, id, s.quotations[id].(deleted := true)) else s
    ensures var a := Step(s, Delete(id));
      && (a.result.Success? <==> Live(s, id)) && (a.result.Failure? ==> a.result.error == NotFound)
      && a.store == if a.result.Success? then Put(s, id, s.quotations[id].(deleted := true)) else s
    ensures var a := Step(s, Restore(id));
      && (a.result.Success? <==> id in s.quotations && s.quotations[id].deleted)
      && (a.result.Failure? ==> a.result.error == if id in s.quotations then BadRequest else NotFound)
      && a.store == if a.result.Success? then Put(s, id, s.quotations[id].(deleted := false)) else s
    ensures Step(s, Delete(id)).result.Success? ==>
      Step(Step(s, Delete(id)).store, Restore(id)) == Answer(Success(()), s)
  {
    if Live(s, id) {
      assert s.quotations[id := s.quotations[id]] == s.quotations;
    }
  }

  /** A duplicate is a new draft with the same header, products and lines. */
  lemma DuplicateEffect(s: Store, source: string, id: string)
    requires id !in s.quotations
    ensures var a := Step(s, Duplicate(source, id));
      && (a.result.Success? <==> Live(s, source))
      && (a.result.Failure? ==>
            && a.store == s
            && a.result.error == NotFound)
      && (a.result.Success? ==>
            var before, after := s.quotations[source], a.store.quotations[id];
            && OnlyQuotation(s, a.store, id) && after.status == DRAFT && !after.deleted
            && after.header == before.header && Totalled(after)
            && AsAsked(after.items, InputsOf(before.items), s.nextItem))
  {
  }

  function InputsOf(items: seq<Item>): seq<ItemInput> {
    seq(|items|, i requires 0 <= i < |items| => ItemInput(items[i].product, items[i].line))
  }

  // ---------- The service ----------

  class QuotationService {
    var quotations: map<string, Quotation>
    var nextItem: nat

    constructor ()
      ensures Snapshot() == Store(map[], 0)
    {
      quotations, nextItem := map[], 0;
    }

    ghost function Snapshot(): Store
      reads this
    {
      Store(quotations, nextItem)
    }

    method RecalculateAndUpdate(id: string)
      requires id in quotations
      modifies this`quotations
      ensures quotations == old(quotations)[id := Recalculated(old(quotations[id]))]
    {
      var q := quotations[id];
      quotations := quotations[id := WithTotals(q, TotalsOf(Lines(q.items), q.header))];
    }

    method CreateQuotation(id: string, header: Header, inputs: seq<ItemInput>)
      modifies this
      ensures Snapshot() == Step(old(Snapshot()), Create(id, header, inputs)).store
    {
      var items := NewItems(inputs, nextItem);
      quotations := quotations[id :=
        WithTotals(Quotation(DRAFT, false, header, items, 0, 0, 0, 0), TotalsOf(Lines(items), header))];
      nextItem := nextItem + |inputs|;
    }

    method UpdateQuotation(id: string, patch: HeaderPatch, inputs: seq<ItemInput>) returns (r: Result<()>)
      modifies this
      ensures Answer(r, Snapshot()) == Step(old(Snapshot()), Update(id, patch, inputs))
    {
      if id !in quotations || quotations[id].deleted {
        return Failure(NotFound);
      }
      if quotations[id].status != DRAFT {
        return Failure(BadRequest);
      }
      quotations := quotations[id := quotations[id].(header := PatchedHeader(quotations[id].header, patch))];
      if inputs != [] {
        quotations := quotations[id := quotations[id].(items := NewItems(inputs, nextItem))];
        nextItem := nextItem + |inputs|;
      }
      RecalculateAndUpdate(id);
      r := Success(());
    }

    method AddQuotationItem(id: string, input: ItemInput) returns (r: Result<()>)
      modifies this
      ensures Answer(r, Snapshot()) == Step(old(Snapshot()), AddItem(id, input))
    {
      if id !in quotations || quotations[id].deleted {
        return Failure(NotFound);
      }
      var q := quotations[id];
      if q.status != DRAFT {
        return Failure(BadRequest);
      }
      var item := Item(nextItem, input.product, input.line, CalculateLineItem(input.line).lineTotal,
        MaxOrder(q.items) + 1);
      quotations := quotations[id := q.(items := q.items + [item])];
      nextItem := nextItem + 1;
      RecalculateAndUpdate(id);
      r := Success(());
    }

    method UpdateQuotationItem(id: string, item: nat, patch: LinePatch) returns (r: Result<()>)
      modifies this
      ensures Answer(r, Snapshot()) == Step(old(Snapshot()), UpdateItem(id, item, patch))
    {
      if id !in quotations || quotations[id].deleted {
        return Failure(NotFound);
      }
      var q := quotations[id];
      if q.status != DRAFT {
        return Failure(BadRequest);
      }
      var i := IndexOf(q.items, item);
      if i == |q.items| {
        return Failure(NotFound);
      }
      quotations := quotations[id := q.(items := q.items[i := PatchedItem(q.items[i], patch)])];
      RecalculateAndUpdate(id);
      r := Success(());
    }

    method DeleteQuotationItem(id: string, item: nat) returns (r: Result<()>)
      modifies this
      ensures Answer(r, Snapshot()) == Step(old(Snapshot()), DeleteItem(id, item))
    {
      if id !in quotations || quotations[id].deleted {
        return Failure(NotFound);
      }
      var q := quotations[id];
      if q.status != DRAFT {
        return Failure(BadRequest);
      }
      var i := IndexOf(q.items, item);
      if i == |q.items| {
        return Failure(NotFound);
      }
      quotations := quotations[id := q.(items := q.items[..i] + q.items[i + 1..])];
      RecalculateAndUpdate(id);
      r := Success(());
    }

    /** send, accept, reject and cancel. */
    method Transition(id: string, to: Status) returns (r: Result<()>)
      modifies this
      ensures Answer(r, Snapshot()) == Step(old(Snapshot()), Move(id, to))
    {
      if id !in quotations || quotations[id].deleted {
        return Failure(NotFound);
      }
      if !Allowed(quotations[id].status, to) {
        return Failure(BadRequest);
      }
      quotations := quotations[id := quotations[id].(status := to)];
      r := Success(());
    }
  }
}
