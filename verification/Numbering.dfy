/** Document numbers: the monthly sequence of src/billing/invoice.service.ts and the
    count-based numbers of src/invoices/invoices.service.ts, src/sales/quotation.service.ts
    and the procurement and journal services. */
module Numbering {
  import opened Results

  // ---------- Decimal printing ----------

  function Digit(d: nat): char
    requires d < 10
  {
    "0123456789"[d]
  }

  predicate IsDigit(c: char) { '0' <= c <= '9' }

  predicate AllDigits(s: string) { forall c | c in s :: IsDigit(c) }

  /** String(n). */
  function Print(n: nat): string {
    if n < 10 then [Digit(n)] else Print(n / 10) + [Digit(n % 10)]
  }

  /** padStart(width, '0'): never cuts. */
  function PadStart(s: string, width: nat): string
    decreases width - |s|
  {
    if |s| >= width then s else PadStart("0" + s, width)
  }

  function Padded(n: nat, width: nat): string { PadStart(Print(n), width) }

  function LeadingDigits(s: string): string {
    if s == [] || !IsDigit(s[0]) then [] else [s[0]] + LeadingDigits(s[1..])
  }

  function ValueOf(digits: string): nat
    requires AllDigits(digits)
  {
    if digits == [] then 0
    else
      var n := |digits| - 1;
      assert digits[n] in digits;
      10 * ValueOf(digits[..n]) + (digits[n] as int - '0' as int)
  }

  /** parseInt(s, 10); None is NaN. */
  function ParseInt(s: string): Option<nat> {
    LeadingDigitsAreDigits(s);
    if LeadingDigits(s) == [] then None else Some(ValueOf(LeadingDigits(s)))
  }

  lemma {:induction false} LeadingDigitsAreDigits(s: string)
    ensures AllDigits(LeadingDigits(s))
    ensures AllDigits(s) ==> LeadingDigits(s) == s
  {
    if s != [] {
      LeadingDigitsAreDigits(s[1..]);
      assert s == [s[0]] + s[1..];
    }
  }

  lemma DigitValue(d: nat)
    requires d < 10
    ensures IsDigit(Digit(d)) && Digit(d) as int - '0' as int == d
  {
  }

  lemma {:induction false} PrintedValue(n: nat)
    ensures Print(n) != [] && AllDigits(Print(n)) && ValueOf(Print(n)) == n
  {
    DigitValue(n % 10);
    if n < 10 {
      assert Print(n)[..0] == [];
    } else {
      PrintedValue(n / 10);
      assert Print(n)[..|Print(n)| - 1] == Print(n / 10);
    }
  }

  lemma {:induction false} ZeroInFront(s: string)
    requires AllDigits(s)
    ensures AllDigits("0" + s) && ValueOf("0" + s) == ValueOf(s)
  {
    if s == [] {
      assert "0" + s == "0" && "0"[..0] == [];
    } else {
      var n := |s| - 1;
      assert s == s[..n] + [s[n]];
      ZeroInFront(s[..n]);
      assert ("0" + s)[..n + 1] == "0" + s[..n];
    }
  }

  lemma {:induction false} PaddedValue(s: string, width: nat)
    requires AllDigits(s)
    ensures AllDigits(PadStart(s, width)) && ValueOf(PadStart(s, width)) == ValueOf(s)
    ensures |PadStart(s, width)| == if |s| >= width then |s| else width
    decreases width - |s|
  {
    if |s| < width {
      ZeroInFront(s);
      PaddedValue("0" + s, width);
    }
  }

  /** Parsing undoes padded printing at every size. */
  lemma ParsePadded(n: nat, width: nat)
    ensures AllDigits(Padded(n, width)) && ParseInt(Padded(n, width)) == Some(n)
  {
    PrintedValue(n);
    PaddedValue(Print(n), width);
    LeadingDigitsAreDigits(Padded(n, width));
  }

  // ---------- Splitting at dashes ----------

  /** s.split('-').pop(). */
  function AfterLastDash(s: string): string {
    if '-' in s then AfterLastDash(s[FirstDash(s) + 1..]) else s
  }

  function FirstDash(s: string): (i: nat)
    requires '-' in s
    ensures i < |s| && s[i] == '-'
  {
    if s[0] == '-' then 0 else 1 + FirstDash(s[1..])
  }

  lemma {:induction false} NumberAfterDash(head: string, digits: string)
    requires AllDigits(digits)
    ensures AfterLastDash(head + "-" + digits) == digits
    decreases |head|
  {
    var s := head + "-" + digits;
    assert s[|head|] == '-';
    var i := FirstDash(s);
    if '-' in head {
      FirstDashInHead(head, "-" + digits);
      assert s == head + ("-" + digits);
      assert s[i + 1..] == head[i + 1..] + "-" + digits;
      NumberAfterDash(head[i + 1..], digits);
    } else {
      FirstDashAfter(head, digits);
      assert s[i + 1..] == digits;
      assert '-' !in digits;
    }
  }

  lemma {:induction false} FirstDashAfter(head: string, tail: string)
    requires '-' !in head
    ensures '-' in head + "-" + tail && FirstDash(head + "-" + tail) == |head|
  {
    assert (head + "-" + tail)[|head|] == '-';
    if head != [] {
      assert (head + "-" + tail)[1..] == head[1..] + "-" + tail;
      FirstDashAfter(head[1..], tail);
    }
  }

  lemma {:induction false} FirstDashInHead(head: string, tail: string)
    requires '-' in head
    ensures FirstDash(head + tail) == FirstDash(head) < |head|
  {
    if head[0] != '-' {
      assert head == [head[0]] + head[1..] && (head + tail)[1..] == head[1..] + tail;
      FirstDashInHead(head[1..], tail);
    }
  }

  // ---------- Monthly billing numbers ----------

  datatype Month = Month(year: nat, month: nat)

  datatype Row = Row(number: string, issued: Month, deleted: bool)

  predicate Calendar(m: Month) { 1 <= m.month <= 12 }

  function Code(m: Month): string { Print(m.year) + Padded(m.month, 2) }

  function PrefixOf(m: Month): string { "INV-" + Code(m) + "-" }

  function BillingNumber(m: Month, sequence: nat): string { PrefixOf(m) + Padded(sequence, 4) }

  /** The newest row whose number starts with the prefix, deleted or not. */
  function LastWith(rows: seq<Row>, prefix: string): Option<Row> {
    if rows == [] then None
    else if prefix <= rows[|rows| - 1].number then Some(rows[|rows| - 1])
    else LastWith(rows[..|rows| - 1], prefix)
  }

  /** None stands for a sequence of NaN. */
  function NextSequence(rows: seq<Row>, prefix: string): Option<nat> {
    match LastWith(rows, prefix)
    case None => Some(1)
    case Some(row) =>
      match ParseInt(AfterLastDash(row.number))
      case None => None
      case Some(last) => Some(last + 1)
  }

  function NumberText(m: Month, sequence: Option<nat>): string {
    match sequence
    case None => PrefixOf(m) + "0NaN"
    case Some(n) => BillingNumber(m, n)
  }

  datatype Call = Create(now: Month) | SoftDelete(invoice: nat)

  function Step(rows: seq<Row>, c: Call): seq<Row> {
    match c
    case Create(m) => rows + [Row(NumberText(m, NextSequence(rows, PrefixOf(m))), m, false)]
    case SoftDelete(i) =>
      if i >= |rows| || rows[i].deleted then rows else rows[i := rows[i].(deleted := true)]
  }

  function Run(rows: seq<Row>, calls: seq<Call>): seq<Row>
    decreases |calls|
  {
    if calls == [] then rows else Run(Step(rows, calls[0]), calls[1..])
  }

  function CountIn(rows: seq<Row>, m: Month): nat {
    if rows == [] then 0 else CountIn(rows[..|rows| - 1], m) + if rows[|rows| - 1].issued == m then 1 else 0
  }

  predicate NumberedAt(rows: seq<Row>, i: nat)
    requires i < |rows|
  {
    Calendar(rows[i].issued) && rows[i].number == BillingNumber(rows[i].issued, CountIn(rows[..i + 1], rows[i].issued))
  }

  /** Row i is the k-th of its month and carries sequence k. */
  predicate Numbered(rows: seq<Row>) { forall i: nat | i < |rows| :: NumberedAt(rows, i) }

  lemma DigitsBeforeDash(d: string, e: string, rest: string)
    requires AllDigits(d) && AllDigits(e) && d + "-" <= e + "-" + rest
    ensures d == e
  {
    var t := e + "-" + rest;
    assert t == d + "-" + t[|d| + 1..];
    FirstDashAfter(d, t[|d| + 1..]);
    FirstDashAfter(e, rest);
    assert d == (d + "-")[..|d|] == t[..|d|] == e;
  }

  lemma CodeInjective(m: Month, k: Month)
    requires Calendar(m) && Calendar(k) && Code(m) == Code(k)
    ensures m == k
  {
    PrintedValue(m.month);
    PrintedValue(k.month);
    PaddedValue(Print(m.month), 2);
    PaddedValue(Print(k.month), 2);
    ParsePadded(m.month, 2);
    ParsePadded(k.month, 2);
    assert |Print(m.month)| <= 2 && |Print(k.month)| <= 2;
    var n := |Code(m)| - 2;
    assert Print(m.year) == Code(m)[..n] == Print(k.year);
    assert Padded(m.month, 2) == Code(m)[n..] == Padded(k.month, 2);
    PrintedValue(m.year);
    PrintedValue(k.year);
  }

  lemma CodeDigits(m: Month)
    ensures AllDigits(Code(m))
  {
    PrintedValue(m.year);
    ParsePadded(m.month, 2);
  }

  lemma NumberLayout(m: Month, k: Month, sequence: nat)
    ensures BillingNumber(k, sequence)[4..] == Code(k) + "-" + Padded(sequence, 4)
    ensures PrefixOf(m)[4..] == Code(m) + "-"
  {
  }

  /** startsWith finds exactly the numbers of the month. */
  lemma PrefixMatchesIffSameMonth(m: Month, k: Month, sequence: nat)
    requires Calendar(m) && Calendar(k)
    ensures PrefixOf(m) <= BillingNumber(k, sequence) <==> m == k
  {
    if PrefixOf(m) <= BillingNumber(k, sequence) {
      CodeDigits(m);
      CodeDigits(k);
      NumberLayout(m, k, sequence);
      assert PrefixOf(m)[4..] <= BillingNumber(k, sequence)[4..];
      DigitsBeforeDash(Code(m), Code(k), Padded(sequence, 4));
      CodeInjective(m, k);
    }
  }

  lemma {:induction false} LastWithIsLastOfMonth(rows: seq<Row>, m: Month)
    requires Numbered(rows) && Calendar(m)
    ensures CountIn(rows, m) == 0 ==> LastWith(rows, PrefixOf(m)) == None
    ensures CountIn(rows, m) > 0 ==>
      (var last := LastWith(rows, PrefixOf(m));
       last.Some? && last.value.number == BillingNumber(m, CountIn(rows, m)))
  {
    if rows != [] {
      var n := |rows| - 1;
      assert NumberedAt(rows, n) && rows[..n + 1] == rows;
      PrefixMatchesIffSameMonth(m, rows[n].issued, CountIn(rows, rows[n].issued));
      forall i: nat | i < n ensures NumberedAt(rows[..n], i) {
        assert NumberedAt(rows, i) && rows[..n][..i + 1] == rows[..i + 1];
      }
      LastWithIsLastOfMonth(rows[..n], m);
    }
  }

  lemma NextSequenceCounts(rows: seq<Row>, m: Month)
    requires Numbered(rows) && Calendar(m)
    ensures NextSequence(rows, PrefixOf(m)) == Some(CountIn(rows, m) + 1)
  {
    LastWithIsLastOfMonth(rows, m);
    var k := CountIn(rows, m);
    if k > 0 { SequenceReadsBack(m, k); }
  }

  /** parseInt of the last dash-separated part gives back the sequence of a number. */
  lemma SequenceReadsBack(m: Month, k: nat)
    ensures ParseInt(AfterLastDash(BillingNumber(m, k))) == Some(k)
  {
    ParsePadded(k, 4);
    var head := "INV-" + Code(m);
    assert BillingNumber(m, k) == head + "-" + Padded(k, 4);
    NumberAfterDash(head, Padded(k, 4));
  }

  lemma {:induction false} CountInReplaced(rows: seq<Row>, i: nat, row: Row, m: Month)
    requires i < |rows| && row.issued == rows[i].issued
    ensures CountIn(rows[i := row], m) == CountIn(rows, m)
  {
    var n := |rows| - 1;
    if i == n {
      assert rows[i := row][..n] == rows[..n];
    } else {
      assert rows[i := row][..n] == rows[..n][i := row];
      CountInReplaced(rows[..n], i, row, m);
    }
  }

  lemma StepNumbered(rows: seq<Row>, c: Call)
    requires Numbered(rows) && (c.Create? ==> Calendar(c.now))
    ensures Numbered(Step(rows, c))
  {
    var r := Step(rows, c);
    if c.Create? { NextSequenceCounts(rows, c.now); }
    forall i: nat | i < |r| ensures NumberedAt(r, i) {
      if i < |rows| {
        assert NumberedAt(rows, i);
        if c.Create? {
          assert r[..i + 1] == rows[..i + 1];
        } else if c.invoice <= i && r != rows {
          assert r[..i + 1] == rows[..i + 1][c.invoice := r[c.invoice]];
          CountInReplaced(rows[..i + 1], c.invoice, r[c.invoice], rows[i].issued);
        } else {
          assert r[..i + 1] == rows[..i + 1];
        }
      } else {
        assert r[..i + 1] == r && r[..|rows|] == rows;
      }
    }
  }

  lemma {:induction false} CountInGrows(rows: seq<Row>, i: nat, j: nat)
    requires i < j < |rows|
    ensures CountIn(rows[..i + 1], rows[j].issued) < CountIn(rows[..j + 1], rows[j].issued)
  {
    assert rows[..j + 1][..j] == rows[..j];
    CountInMonotone(rows, i + 1, j, rows[j].issued);
  }

  lemma {:induction false} CountInMonotone(rows: seq<Row>, i: nat, j: nat, m: Month)
    requires i <= j <= |rows|
    ensures CountIn(rows[..i], m) <= CountIn(rows[..j], m)
    decreases j
  {
    if i < j {
      assert rows[..j][..j - 1] == rows[..j - 1];
      CountInMonotone(rows, i, j - 1, m);
    }
  }

  lemma NumberedDistinct(rows: seq<Row>, i: nat, j: nat)
    requires Numbered(rows) && i < j < |rows|
    ensures rows[i].number != rows[j].number
  {
    assert NumberedAt(rows, i) && NumberedAt(rows, j);
    var k, n := CountIn(rows[..i + 1], rows[i].issued), CountIn(rows[..j + 1], rows[j].issued);
    SequenceReadsBack(rows[i].issued, k);
    SequenceReadsBack(rows[j].issued, n);
    if rows[i].issued == rows[j].issued {
      CountInGrows(rows, i, j);
    } else {
      PrefixMatchesIffSameMonth(rows[i].issued, rows[j].issued, n);
      assert PrefixOf(rows[i].issued) <= rows[i].number;
    }
  }

  /** In every run of create and soft-delete, months in any order: the k-th invoice of a
      month carries sequence k, past 9999 too, and no two numbers are equal. */
  lemma {:induction false} RunNumbered(rows: seq<Row>, calls: seq<Call>)
    requires Numbered(rows) && forall c | c in calls :: c.Create? ==> Calendar(c.now)
    ensures var r := Run(rows, calls);
      Numbered(r) && forall i, j | 0 <= i < j < |r| :: r[i].number != r[j].number
    decreases |calls|
  {
    if calls == [] {
      forall i, j | 0 <= i < j < |rows| ensures rows[i].number != rows[j].number {
        NumberedDistinct(rows, i, j);
      }
    } else {
      assert calls[0] in calls;
      StepNumbered(rows, calls[0]);
      RunNumbered(Step(rows, calls[0]), calls[1..]);
    }
  }

  // ---------- Count-based numbers ----------

  /** INV-, QTN-, and with a date in the head PO-, GRN- and JE-: the count of all rows plus one. */
  function CountedNumber(head: string, width: nat, count: nat): string { head + "-" + Padded(count + 1, width) }

  /** Rows are never physically deleted, so the n-th row is numbered n; numbers of the
      same or of different heads (dates) are then distinct. */
  lemma CountedNumbersDistinct(head: string, other: string, width: nat, i: nat, j: nat)
    ensures CountedNumber(head, width, i) == CountedNumber(other, width, j) <==> head == other && i == j
  {
    ParsePadded(i + 1, width);
    ParsePadded(j + 1, width);
    NumberAfterDash(head, Padded(i + 1, width));
    NumberAfterDash(other, Padded(j + 1, width));
    var s := CountedNumber(head, width, i);
    if s == CountedNumber(other, width, j) {
      assert Padded(i + 1, width) == Padded(j + 1, width);
      assert ParseInt(Padded(i + 1, width)) == Some(i + 1) && ParseInt(Padded(j + 1, width)) == Some(j + 1);
      assert |head| == |other|;
      assert head == s[..|head|] == other;
    }
  }

  datatype CountedRow = CountedRow(head: string, number: string, deleted: bool)

  datatype CountedCall = AddRow(head: string) | SoftDeleteRow(row: nat)

  /** The number is taken from the count of all rows; deleting only sets deletedAt. */
  function CountedStep(rows: seq<CountedRow>, width: nat, c: CountedCall): seq<CountedRow> {
    match c
    case AddRow(head) => rows + [CountedRow(head, CountedNumber(head, width, |rows|), false)]
    case SoftDeleteRow(i) => if i < |rows| then rows[i := rows[i].(deleted := true)] else rows
  }

  function CountedRun(rows: seq<CountedRow>, width: nat, calls: seq<CountedCall>): seq<CountedRow>
    decreases |calls|
  {
    if calls == [] then rows else CountedRun(CountedStep(rows, width, calls[0]), width, calls[1..])
  }

  predicate CountedByPosition(rows: seq<CountedRow>, width: nat) {
    forall i | 0 <= i < |rows| :: rows[i].number == CountedNumber(rows[i].head, width, i)
  }

  /** In every run of create and soft-delete, whatever date the head carries, no two
      count-based numbers are equal. */
  lemma {:induction false} CountedRunDistinct(rows: seq<CountedRow>, width: nat, calls: seq<CountedCall>)
    requires CountedByPosition(rows, width)
    ensures var r := CountedRun(rows, width, calls);
      CountedByPosition(r, width) && forall i, j | 0 <= i < j < |r| :: r[i].number != r[j].number
    decreases |calls|
  {
    if calls == [] {
      forall i, j | 0 <= i < j < |rows| ensures rows[i].number != rows[j].number {
        CountedNumbersDistinct(rows[i].head, rows[j].head, width, i, j);
      }
    } else {
      CountedRunDistinct(CountedStep(rows, width, calls[0]), width, calls[1..]);
    }
  }

  // ---------- What the numbers look like, and what each call does ----------

  lemma OneDigitAfter(a: string, c: char)
    requires AllDigits(a) && IsDigit(c)
    ensures AllDigits(a + [c]) && ValueOf(a + [c]) == 10 * ValueOf(a) + (c as int - '0' as int)
  {
    assert (a + [c])[..|a|] == a;
  }

  lemma TwoDigitsAfter(a: string, b: string)
    requires AllDigits(a) && AllDigits(b) && |b| == 2
    ensures AllDigits(a + b) && ValueOf(a + b) == 100 * ValueOf(a) + ValueOf(b)
  {
    assert b[0] in b && b[1] in b;
    OneDigitAfter(a, b[0]);
    OneDigitAfter(a + [b[0]], b[1]);
    OneDigitAfter([], b[0]);
    OneDigitAfter([] + [b[0]], b[1]);
    assert a + b == a + [b[0]] + [b[1]] && b == [] + [b[0]] + [b[1]];
  }

  lemma PaddedDigits(n: nat, width: nat)
    requires |Print(n)| <= width
    ensures var b := Padded(n, width);
      |b| == width && AllDigits(b) && ValueOf(b) == n
  {
    PrintedValue(n);
    PaddedValue(Print(n), width);
  }

  lemma ShortPrint(n: nat)
    requires n < 100
    ensures |Print(n)| <= 2
  {
    if n >= 10 { assert |Print(n / 10)| == 1; }
  }

  lemma ParsesAs(s: string, n: nat)
    requires AllDigits(s) && s != [] && ValueOf(s) == n
    ensures ParseInt(s) == Some(n)
  {
    LeadingDigitsAreDigits(s);
  }

  /** parseInt reads up to the first character that is no digit, and is NaN without a digit. */
  lemma ParsesLeadingDigits(digits: string, rest: string)
    requires AllDigits(digits) && (rest == "" || !IsDigit(rest[0]))
    ensures ParseInt(digits + rest) == if digits == "" then None else Some(ValueOf(digits))
  {
    LeadingDigitsOf(digits, rest);
  }

  lemma {:induction false} LeadingDigitsOf(digits: string, rest: string)
    requires AllDigits(digits) && (rest == "" || !IsDigit(rest[0]))
    ensures LeadingDigits(digits + rest) == digits
  {
    if digits != "" {
      LeadingDigitsOf(digits[1..], rest);
      assert (digits + rest)[1..] == digits[1..] + rest;
    } else {
      assert digits + rest == rest;
    }
  }

  /** The month code is YYYYMM. */
  lemma CodeReads(m: Month)
    requires Calendar(m)
    ensures ParseInt(Code(m)) == Some(100 * m.year + m.month)
  {
    var a, b := Print(m.year), Padded(m.month, 2);
    PrintedValue(m.year);
    ShortPrint(m.month);
    PaddedDigits(m.month, 2);
    TwoDigitsAfter(a, b);
    ParsesAs(a + b, 100 * m.year + m.month);
  }

  /** A billing number is INV, the year and month as YYYYMM, and at least four digits of
      the sequence. */
  lemma BillingNumberReads(m: Month, sequence: nat)
    requires Calendar(m)
    ensures var number, code := BillingNumber(m, sequence), Code(m);
      && number == "INV-" + code + "-" + Padded(sequence, 4)
      && ParseInt(code) == Some(100 * m.year + m.month)
      && 4 <= |Padded(sequence, 4)| && ParseInt(AfterLastDash(number)) == Some(sequence)
  {
    CodeReads(m);
    PrintedValue(sequence);
    PaddedValue(Print(sequence), 4);
    SequenceReadsBack(m, sequence);
  }

  /** A count-based number is its head and the count plus one, padded to the width. */
  lemma CountedNumberReads(head: string, width: nat, count: nat)
    ensures var number := CountedNumber(head, width, count);
      && head + "-" <= number && |head| + 1 + width <= |number|
      && ParseInt(AfterLastDash(number)) == Some(count + 1)
  {
    PrintedValue(count + 1);
    PaddedValue(Print(count + 1), width);
    ParsePadded(count + 1, width);
    NumberAfterDash(head, Padded(count + 1, width));
  }

  /** create adds one row of its month; soft-delete marks one row and keeps its number. */
  lemma BillingEffects(rows: seq<Row>, m: Month, i: nat)
    requires Numbered(rows) && Calendar(m)
    ensures Step(rows, Create(m)) == rows + [Row(BillingNumber(m, CountIn(rows, m) + 1), m, false)]
    ensures var t := Step(rows, SoftDelete(i));
      && |t| == |rows|
      && forall j | 0 <= j < |rows| ::
           && t[j].number == rows[j].number && t[j].issued == rows[j].issued
           && (t[j].deleted <==> rows[j].deleted || j == i)
  {
    NextSequenceCounts(rows, m);
  }

  lemma CountedEffects(rows: seq<CountedRow>, width: nat, head: string, i: nat)
    ensures CountedStep(rows, width, AddRow(head)) ==
      rows + [CountedRow(head, CountedNumber(head, width, |rows|), false)]
    ensures var t := CountedStep(rows, width, SoftDeleteRow(i));
      && |t| == |rows|
      && forall j | 0 <= j < |rows| ::
           && t[j].number == rows[j].number && t[j].head == rows[j].head
           && (t[j].deleted <==> rows[j].deleted || j == i)
  {
  }

  // ---------- The services ----------

  class BillingInvoiceService {
    var rows: seq<Row>

    constructor ()
      ensures rows == []
    {
      rows := [];
    }

    method GenerateInvoiceNumber(now: Month) returns (number: string)
      ensures Numbered(rows) && Calendar(now) ==> number == BillingNumber(now, CountIn(rows, now) + 1)
      ensures number == NumberText(now, NextSequence(rows, PrefixOf(now)))
    {
      var prefix := PrefixOf(now);
      var last := LastWith(rows, prefix);
      var sequence := Some(1);
      if last.Some? {
        var lastSeq := ParseInt(AfterLastDash(last.value.number));
        sequence := match lastSeq case None => None case Some(n) => Some(n + 1);
      }
      number := NumberText(now, sequence);
      if Numbered(rows) && Calendar(now) {
        NextSequenceCounts(rows, now);
      }
    }

    method CreateInvoice(now: Month) returns (number: string)
      modifies this
      ensures rows == Step(old(rows), Create(now)) && number == rows[|old(rows)|].number
    {
      number := GenerateInvoiceNumber(now);
      rows := rows + [Row(number, now, false)];
    }

    method SoftDeleteInvoice(i: nat) returns (r: Result<()>)
      modifies this
      ensures rows == Step(old(rows), SoftDelete(i))
      ensures r.Failure? <==> i >= |old(rows)| || old(rows)[i].deleted
    {
      if i >= |rows| || rows[i].deleted {
        return Failure(NotFound);
      }
      rows := rows[i := rows[i].(deleted := true)];
      r := Success(());
    }
  }
}
