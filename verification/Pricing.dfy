/** Line and document totals (src/sales/pricing.service.ts). Amounts are integers and
    Math.round of a percentage is exact. */
module Pricing {
  import opened Results
  import opened Rounding

  datatype DiscountType = PERCENTAGE | FIXED_AMOUNT

  datatype LineInput = LineInput(quantity: int, unitPrice: int, discount: int, taxRate: int)

  datatype LineOutput = LineOutput(line: LineInput, lineTotal: int, itemDiscountAmount: int,
                                   itemTaxAmount: int, itemNetTotal: int)

  /** discountType, discountValue and shippingAmount of a document. */
  datatype Header = Header(discountType: Option<DiscountType>, discountValue: int, shippingAmount: int)

  datatype Totals = Totals(subtotal: int, discountAmount: int, taxableAmount: int, taxAmount: int, grandTotal: int)

  function CalculateLineItem(item: LineInput): LineOutput {
    var lineTotal := item.quantity * item.unitPrice;
    var discount := RoundPercent(lineTotal, item.discount);
    var tax := RoundPercent(lineTotal - discount, item.taxRate);
    LineOutput(item, lineTotal, discount, tax, lineTotal - discount + tax)
  }

  function CalculatedLines(items: seq<LineInput>): seq<LineOutput> {
    seq(|items|, i requires 0 <= i < |items| => CalculateLineItem(items[i]))
  }

  /** The three reduces of calculateSummary. */
  datatype Sums = Sums(lineTotals: int, discounts: int, taxes: int)

  function Plus(s: Sums, o: LineOutput): Sums {
    Sums(s.lineTotals + o.lineTotal, s.discounts + o.itemDiscountAmount, s.taxes + o.itemTaxAmount)
  }

  function SumsOf(lines: seq<LineOutput>): Sums {
    if lines == [] then Sums(0, 0, 0) else Plus(SumsOf(lines[..|lines| - 1]), lines[|lines| - 1])
  }

  function LineSums(items: seq<LineInput>): Sums { SumsOf(CalculatedLines(items)) }

  function HeaderDiscount(subtotal: int, h: Header): int {
    if h.discountType == Some(PERCENTAGE) && h.discountValue > 0 then RoundPercent(subtotal, h.discountValue)
    else if h.discountType == Some(FIXED_AMOUNT) && h.discountValue > 0 then h.discountValue
    else 0
  }

  function TotalsFrom(s: Sums, h: Header): Totals {
    var discountAmount := s.discounts + HeaderDiscount(s.lineTotals, h);
    var taxable := s.lineTotals - discountAmount;
    Totals(s.lineTotals, Max0(discountAmount), Max0(taxable), s.taxes, Max0(taxable + s.taxes + h.shippingAmount))
  }

  /** The totals of calculateSummary. */
  function TotalsOf(items: seq<LineInput>, h: Header): Totals {
    TotalsFrom(LineSums(items), h)
  }

  // ---------- Totals depend on the multiset of items only ----------

  function Add(s: Sums, t: Sums): Sums {
    Sums(s.lineTotals + t.lineTotals, s.discounts + t.discounts, s.taxes + t.taxes)
  }

  lemma {:induction false} SumsAppend(xs: seq<LineOutput>, ys: seq<LineOutput>)
    ensures SumsOf(xs + ys) == Add(SumsOf(xs), SumsOf(ys))
    decreases |ys|
  {
    if ys == [] {
      assert xs + ys == xs;
    } else {
      assert (xs + ys)[..|xs + ys| - 1] == xs + ys[..|ys| - 1];
      SumsAppend(xs, ys[..|ys| - 1]);
    }
  }

  lemma {:induction false} SumsSnoc(xs: seq<LineOutput>, o: LineOutput)
    ensures SumsOf(xs + [o]) == Plus(SumsOf(xs), o)
  {
    assert (xs + [o])[..|xs|] == xs;
  }

  lemma {:induction false} SumsOfThree(xs: seq<LineOutput>, o: LineOutput, zs: seq<LineOutput>)
    ensures SumsOf(xs + [o] + zs) == Plus(SumsOf(xs + zs), o)
  {
    SumsAppend(xs + [o], zs);
    SumsAppend(xs, zs);
    SumsSnoc(xs, o);
  }

  lemma {:induction false} SplitAt<T>(ys: seq<T>, i: nat)
    requires i < |ys|
    ensures ys == ys[..i] + [ys[i]] + ys[i + 1..]
  {
  }

  lemma {:induction false} SumsWithoutOne(ys: seq<LineOutput>, i: nat)
    requires i < |ys|
    ensures SumsOf(ys) == Plus(SumsOf(ys[..i] + ys[i + 1..]), ys[i])
  {
    SplitAt(ys, i);
    SumsOfThree(ys[..i], ys[i], ys[i + 1..]);
  }

  lemma {:induction false} MultisetWithoutOne(ys: seq<LineInput>, i: nat)
    requires i < |ys|
    ensures multiset(ys[..i] + ys[i + 1..]) == multiset(ys) - multiset{ys[i]}
  {
    SplitAt(ys, i);
  }

  lemma {:induction false} OneLineSums(item: LineInput)
    ensures LineSums([item]) == Plus(Sums(0, 0, 0), CalculateLineItem(item))
  {
    assert CalculatedLines([item]) == [] + [CalculateLineItem(item)];
    SumsSnoc([], CalculateLineItem(item));
  }

  lemma {:induction false} LineSumsWithoutOne(ys: seq<LineInput>, i: nat)
    requires i < |ys|
    ensures LineSums(ys) == Plus(LineSums(ys[..i] + ys[i + 1..]), CalculateLineItem(ys[i]))
  {
    SumsWithoutOne(CalculatedLines(ys), i);
    assert CalculatedLines(ys[..i] + ys[i + 1..]) == CalculatedLines(ys)[..i] + CalculatedLines(ys)[i + 1..];
  }

  lemma {:induction false} LineSumsOfPermutation(xs: seq<LineInput>, ys: seq<LineInput>)
    requires multiset(xs) == multiset(ys)
    ensures LineSums(xs) == LineSums(ys)
    decreases |xs|
  {
    if xs == [] {
      assert |multiset(ys)| == 0;
    } else {
      assert xs[0] in multiset(ys);
      var i :| 0 <= i < |ys| && ys[i] == xs[0];
      MultisetWithoutOne(xs, 0);
      MultisetWithoutOne(ys, i);
      LineSumsOfPermutation(xs[..0] + xs[1..], ys[..i] + ys[i + 1..]);
      LineSumsWithoutOne(xs, 0);
      LineSumsWithoutOne(ys, i);
    }
  }

  lemma TotalsOfPermutation(xs: seq<LineInput>, ys: seq<LineInput>, h: Header)
    requires multiset(xs) == multiset(ys)
    ensures TotalsOf(xs, h) == TotalsOf(ys, h)
  {
    LineSumsOfPermutation(xs, ys);
  }

  // ---------- Rounding and clamps ----------

  /** Sum of lineTotal * discount, a hundred times the exact discount. */
  function ExactDiscount(items: seq<LineInput>): int {
    if items == [] then 0
    else
      var o := CalculateLineItem(items[|items| - 1]);
      ExactDiscount(items[..|items| - 1]) + o.lineTotal * o.line.discount
  }

  /** A hundred times the exact tax on the discounted nets. */
  function ExactTax(items: seq<LineInput>): int {
    if items == [] then 0
    else
      var o := CalculateLineItem(items[|items| - 1]);
      ExactTax(items[..|items| - 1]) + (o.lineTotal - o.itemDiscountAmount) * o.line.taxRate
  }

  function NetSum(items: seq<LineInput>): int {
    if items == [] then 0
    else NetSum(items[..|items| - 1]) + CalculateLineItem(items[|items| - 1]).itemNetTotal
  }

  lemma LastLine(items: seq<LineInput>)
    requires items != []
    ensures LineSums(items) == Plus(LineSums(items[..|items| - 1]), CalculateLineItem(items[|items| - 1]))
  {
    assert CalculatedLines(items)[..|items| - 1] == CalculatedLines(items[..|items| - 1]);
  }

  lemma LineRounding(item: LineInput)
    ensures var o := CalculateLineItem(item);
      && -50 <= 100 * o.itemDiscountAmount - o.lineTotal * item.discount <= 50
      && -50 <= 100 * o.itemTaxAmount - (o.lineTotal - o.itemDiscountAmount) * item.taxRate <= 50
  {
  }

  lemma {:induction false} RoundingWithinHalfPerLine(items: seq<LineInput>)
    ensures -50 * |items| <= 100 * LineSums(items).discounts - ExactDiscount(items) <= 50 * |items|
    ensures -50 * |items| <= 100 * LineSums(items).taxes - ExactTax(items) <= 50 * |items|
    ensures NetSum(items) == LineSums(items).lineTotals - LineSums(items).discounts + LineSums(items).taxes
  {
    if items != [] {
      var n := |items| - 1;
      RoundingWithinHalfPerLine(items[..n]);
      LineRounding(items[n]);
      LastLine(items);
    }
  }

  /** What the item DTOs allow, with discounts of at most 100%. */
  predicate Ordinary(item: LineInput) {
    1 <= item.quantity && 0 <= item.unitPrice && 0 <= item.discount <= 100 && 0 <= item.taxRate
  }

  lemma ScaleMonotone(x: int, p: int)
    requires 0 <= x && 0 <= p
    ensures 0 <= RoundPercent(x, p)
    ensures p <= 100 ==> RoundPercent(x, p) <= x
  {
    assert 0 <= x * p;
    if p <= 100 {
      assert x * p <= x * 100;
    }
  }

  lemma OrdinaryLine(item: LineInput)
    requires Ordinary(item)
    ensures var o := CalculateLineItem(item);
      0 <= o.itemDiscountAmount <= o.lineTotal && 0 <= o.itemTaxAmount
  {
    assert 0 <= item.quantity * item.unitPrice;
    ScaleMonotone(item.quantity * item.unitPrice, item.discount);
    ScaleMonotone(item.quantity * item.unitPrice - CalculateLineItem(item).itemDiscountAmount, item.taxRate);
  }

  lemma {:induction false} OrdinarySums(items: seq<LineInput>)
    requires forall item | item in items :: Ordinary(item)
    ensures 0 <= LineSums(items).discounts <= LineSums(items).lineTotals && 0 <= LineSums(items).taxes
  {
    if items != [] {
      assert items[|items| - 1] in items;
      OrdinaryLine(items[|items| - 1]);
      OrdinarySums(items[..|items| - 1]);
      LastLine(items);
    }
  }

  /** Item discounts of at most 100% and no header discount: no clamp acts, the grand
      total is the sum of the line nets plus shipping, and the discount and the tax are
      within half a unit per line of the exact ones. */
  lemma OrdinaryTotals(items: seq<LineInput>, h: Header)
    requires forall item | item in items :: Ordinary(item)
    requires h.discountType.None? && 0 <= h.shippingAmount
    ensures var t := TotalsOf(items, h);
      && t.discountAmount == LineSums(items).discounts
      && t.taxableAmount == t.subtotal - t.discountAmount
      && t.grandTotal == NetSum(items) + h.shippingAmount
      && -50 * |items| <= 100 * t.discountAmount - ExactDiscount(items) <= 50 * |items|
      && -50 * |items| <= 100 * t.taxAmount - ExactTax(items) <= 50 * |items|
  {
    OrdinarySums(items);
    RoundingWithinHalfPerLine(items);
  }

  /** In general the grand total is what the nets leave after the header discount, unless
      that is negative. */
  lemma GrandTotalUnclampedIff(items: seq<LineInput>, h: Header)
    ensures var exact := NetSum(items) - HeaderDiscount(LineSums(items).lineTotals, h) + h.shippingAmount;
      TotalsOf(items, h).grandTotal == exact <==> 0 <= exact
  {
    RoundingWithinHalfPerLine(items);
  }

  /** What the DTOs allow: discounts are not bounded by 100%. */
  predicate Charged(item: LineInput) {
    1 <= item.quantity && 0 <= item.unitPrice && 0 <= item.discount && 0 <= item.taxRate
  }

  lemma {:induction false} ChargedSums(items: seq<LineInput>)
    requires forall item | item in items :: Charged(item)
    ensures 0 <= LineSums(items).lineTotals && 0 <= LineSums(items).discounts
  {
    if items != [] {
      var item := items[|items| - 1];
      assert item in items;
      ScaleMonotone(item.quantity * item.unitPrice, item.discount);
      ChargedSums(items[..|items| - 1]);
      LastLine(items);
    }
  }

  lemma HeaderDiscountNonNegative(subtotal: int, h: Header)
    requires 0 <= subtotal && 0 <= h.discountValue
    ensures 0 <= HeaderDiscount(subtotal, h)
  {
    ScaleMonotone(subtotal, h.discountValue);
  }

  /** On everything the DTOs allow: the discount is never clamped; the taxable amount is
      clamped exactly when the header discount exceeds what the item discounts leave of
      the subtotal; and the grand total exactly when it exceeds the line nets and shipping. */
  lemma ClampsActIff(items: seq<LineInput>, h: Header)
    requires forall item | item in items :: Charged(item)
    requires 0 <= h.discountValue
    ensures var t, sums := TotalsOf(items, h), LineSums(items);
      var header := HeaderDiscount(t.subtotal, h);
      && t.discountAmount == sums.discounts + header
      && (t.taxableAmount == t.subtotal - t.discountAmount <==> header <= t.subtotal - sums.discounts)
      && (t.grandTotal == NetSum(items) - header + h.shippingAmount <==> header <= NetSum(items) + h.shippingAmount)
  {
    ChargedSums(items);
    HeaderDiscountNonNegative(LineSums(items).lineTotals, h);
    GrandTotalUnclampedIff(items, h);
  }

  /** With item discounts up to 100%, a grand total is only clamped when the taxable
      amount already was. */
  lemma GrandTotalClampedOnlyAfterTaxable(items: seq<LineInput>, h: Header)
    requires forall item | item in items :: Ordinary(item)
    requires 0 <= h.discountValue && 0 <= h.shippingAmount
    ensures var t := TotalsOf(items, h);
      var header := HeaderDiscount(t.subtotal, h);
      t.taxableAmount == t.subtotal - t.discountAmount ==> t.grandTotal == NetSum(items) - header + h.shippingAmount
  {
    OrdinarySums(items);
    ClampsActIff(items, h);
    RoundingWithinHalfPerLine(items);
  }

  // ---------- What the figures are ----------

  /** r is x * p percent, rounded to the nearest integer, halves up. */
  predicate IsRounded(r: int, x: int, p: int) { -50 < 100 * r - x * p <= 50 }

  /** There is only one such integer. */
  lemma RoundedIsUnique(r: int, q: int, x: int, p: int)
    requires IsRounded(r, x, p) && IsRounded(q, x, p)
    ensures r == q
  {
  }

  /** A line: the rounded discount of its total, the rounded tax of what is left, and both. */
  lemma LineFigures(item: LineInput)
    ensures var o := CalculateLineItem(item);
      && o.line == item && o.lineTotal == item.quantity * item.unitPrice
      && IsRounded(o.itemDiscountAmount, o.lineTotal, item.discount)
      && IsRounded(o.itemTaxAmount, o.lineTotal - o.itemDiscountAmount, item.taxRate)
      && o.itemNetTotal == o.lineTotal - o.itemDiscountAmount + o.itemTaxAmount
  {
  }

  /** A header discount is a percentage of the subtotal or a fixed amount; only a positive
      value of a given type counts. */
  lemma HeaderDiscountFigure(subtotal: int, h: Header)
    ensures var d := HeaderDiscount(subtotal, h);
      && (h.discountType.None? || h.discountValue <= 0 ==> d == 0)
      && (h.discountType == Some(FIXED_AMOUNT) && 0 < h.discountValue ==> d == h.discountValue)
      && (h.discountType == Some(PERCENTAGE) && 0 < h.discountValue ==> IsRounded(d, subtotal, h.discountValue))
  {
  }

  /** Sum of quantity times price. */
  function GrossSum(items: seq<LineInput>): int {
    if items == [] then 0
    else
      var item := items[|items| - 1];
      GrossSum(items[..|items| - 1]) + item.quantity * item.unitPrice
  }

  lemma {:induction false} GrossIsLineTotals(items: seq<LineInput>)
    ensures LineSums(items).lineTotals == GrossSum(items)
  {
    if items != [] {
      GrossIsLineTotals(items[..|items| - 1]);
      LastLine(items);
    }
  }

  /** x, or zero if x is negative. */
  predicate IsClamped(r: int, x: int) { if 0 <= x then r == x else r == 0 }

  /** The totals of a document: gross subtotal, line and header discounts together, the
      line taxes, and what is to be paid. */
  lemma DocumentFigures(items: seq<LineInput>, h: Header)
    ensures var t, d := TotalsOf(items, h), HeaderDiscount(GrossSum(items), h);
      var discounts := GrossSum(items) + t.taxAmount - NetSum(items);
      && t.subtotal == GrossSum(items)
      && -50 * |items| <= 100 * discounts - ExactDiscount(items) <= 50 * |items|
      && -50 * |items| <= 100 * t.taxAmount - ExactTax(items) <= 50 * |items|
      && IsClamped(t.discountAmount, discounts + d)
      && IsClamped(t.taxableAmount, t.subtotal - discounts - d)
      && IsClamped(t.grandTotal, NetSum(items) - d + h.shippingAmount)
  {
    GrossIsLineTotals(items);
    RoundingWithinHalfPerLine(items);
  }
}
