/** The CSV and spreadsheet-XML printers of src/reports/services/export.service.ts, and
    readers for what they print. The CSV reader follows section 2 of RFC 4180 with a
    single LF between records. */
module CsvExport {
  import opened Results

  /** A cell: null or undefined, or the text String() makes of it. */
  datatype Value = Missing | Text(text: string)

  /** An object: its keys in order with their values. */
  type Record = seq<(string, Value)>

  function Lookup(row: Record, key: string): Value {
    if row == [] then Missing
    else if row[0].0 == key then row[0].1
    else Lookup(row[1..], key)
  }

  function KeysOf(row: Record): seq<string> {
    seq(|row|, i requires 0 <= i < |row| => row[i].0)
  }

  function TextOf(v: Value): string {
    match v
    case Missing => ""
    case Text(s) => s
  }

  predicate Special(c: char) { c == ',' || c == '"' || c == '\n' }

  predicate Plain(s: string) { forall c | c in s :: !Special(c) }

  /** str.replace(/"/g, '""'). */
  function Doubled(s: string): string {
    if s == [] then []
    else if s[0] == '"' then "\"\"" + Doubled(s[1..])
    else [s[0]] + Doubled(s[1..])
  }

  function Escape(s: string): string {
    if ',' in s || '"' in s || '\n' in s then "\"" + Doubled(s) + "\"" else s
  }

  function Escaped(fields: seq<string>): seq<string> {
    seq(|fields|, i requires 0 <= i < |fields| => Escape(fields[i]))
  }

  function Join(parts: seq<string>, separator: char): string {
    if parts == [] then []
    else if |parts| == 1 then parts[0]
    else parts[0] + [separator] + Join(parts[1..], separator)
  }

  function CellTexts(row: Record, headers: seq<string>): seq<string> {
    seq(|headers|, i requires 0 <= i < |headers| => TextOf(Lookup(row, headers[i])))
  }

  function Body(data: seq<Record>, headers: seq<string>): seq<seq<string>> {
    seq(|data|, i requires 0 <= i < |data| => CellTexts(data[i], headers))
  }

  function PrintedRecords(table: seq<seq<string>>): seq<string> {
    seq(|table|, i requires 0 <= i < |table| => Join(Escaped(table[i]), ','))
  }

  function HeadersFor(data: seq<Record>, columns: Option<seq<string>>): seq<string>
    requires data != []
  {
    match columns
    case None => KeysOf(data[0])
    case Some(names) => names
  }

  /** The header row is joined without escaping. */
  function ToCsv(data: seq<Record>, columns: Option<seq<string>>): string {
    if data == [] then ""
    else
      var headers := HeadersFor(data, columns);
      Join([Join(headers, ',')] + PrintedRecords(Body(data, headers)), '\n')
  }

  // ---------- A reader ----------

  /** What may follow a field. */
  predicate AtBreak(t: string) { t == [] || t[0] == ',' || t[0] == '\n' }

  datatype Parsed<+T> = Malformed | Parsed(value: T, rest: string)

  function ReadPlain(t: string): (r: Parsed<string>)
    ensures r.Parsed? ==> AtBreak(r.rest) && |r.rest| <= |t|
  {
    if AtBreak(t) then Parsed([], t)
    else if t[0] == '"' then Malformed
    else
      match ReadPlain(t[1..])
      case Malformed => Malformed
      case Parsed(s, rest) => Parsed([t[0]] + s, rest)
  }

  /** The rest of a quoted field, after its opening quote. */
  function ReadQuoted(t: string): (r: Parsed<string>)
    ensures r.Parsed? ==> AtBreak(r.rest) && |r.rest| < |t|
    decreases |t|
  {
    if t == [] then Malformed
    else if t[0] != '"' then
      match ReadQuoted(t[1..])
      case Malformed => Malformed
      case Parsed(s, rest) => Parsed([t[0]] + s, rest)
    else if |t| > 1 && t[1] == '"' then
      match ReadQuoted(t[2..])
      case Malformed => Malformed
      case Parsed(s, rest) => Parsed(['"'] + s, rest)
    else if AtBreak(t[1..]) then Parsed([], t[1..])
    else Malformed
  }

  function ReadField(t: string): (r: Parsed<string>)
    ensures r.Parsed? ==> AtBreak(r.rest) && |r.rest| <= |t|
  {
    if t != [] && t[0] == '"' then ReadQuoted(t[1..]) else ReadPlain(t)
  }

  function ReadRecord(t: string): (r: Parsed<seq<string>>)
    ensures r.Parsed? ==> r.value != [] && |r.rest| <= |t| && (r.rest == [] || r.rest[0] == '\n')
    decreases |t|
  {
    match ReadField(t)
    case Malformed => Malformed
    case Parsed(f, rest) =>
      if rest == [] || rest[0] == '\n' then Parsed([f], rest)
      else
        match ReadRecord(rest[1..])
        case Malformed => Malformed
        case Parsed(fs, rest') => Parsed([f] + fs, rest')
  }

  function ReadTable(t: string): (r: Option<seq<seq<string>>>)
    ensures r.Some? ==> forall row | row in r.value :: row != []
    decreases |t|
  {
    match ReadRecord(t)
    case Malformed => None
    case Parsed(row, rest) =>
      if rest == [] then Some([row])
      else
        match ReadTable(rest[1..])
        case None => None
        case Some(rows) => Some([row] + rows)
  }

  // ---------- Reading back what was printed ----------

  lemma {:induction false} PlainReadsBack(s: string, tail: string)
    requires Plain(s) && AtBreak(tail)
    ensures ReadPlain(s + tail) == Parsed(s, tail)
  {
    if s == [] {
      assert s + tail == tail;
    } else {
      assert s[0] in s && s == [s[0]] + s[1..] && (s + tail)[1..] == s[1..] + tail;
      PlainReadsBack(s[1..], tail);
    }
  }

  lemma {:induction false} QuotedReadsBack(s: string, tail: string)
    requires AtBreak(tail)
    ensures ReadQuoted(Doubled(s) + "\"" + tail) == Parsed(s, tail)
  {
    var t := Doubled(s) + "\"" + tail;
    if s == [] {
      assert t == "\"" + tail && t[1..] == tail;
    } else {
      QuotedReadsBack(s[1..], tail);
      assert s == [s[0]] + s[1..];
      var rest := Doubled(s[1..]) + "\"" + tail;
      if s[0] == '"' {
        assert t[2..] == rest;
      } else {
        assert t[1..] == rest;
      }
    }
  }

  lemma FieldReadsBack(s: string, tail: string)
    requires AtBreak(tail)
    ensures ReadField(Escape(s) + tail) == Parsed(s, tail)
  {
    if Plain(s) {
      assert Escape(s) == s;
      PlainReadsBack(s, tail);
      if s != [] { assert s[0] in s; }
    } else {
      assert (Escape(s) + tail)[1..] == Doubled(s) + "\"" + tail;
      QuotedReadsBack(s, tail);
    }
  }

  lemma RecordText(fields: seq<string>, tail: string)
    requires |fields| > 1
    ensures Join(Escaped(fields), ',') + tail ==
      Escape(fields[0]) + ([','] + (Join(Escaped(fields[1..]), ',') + tail))
  {
    assert Escaped(fields)[1..] == Escaped(fields[1..]);
  }

  lemma RecordStep(field: string, more: string)
    requires ReadRecord(more).Parsed?
    ensures var r := ReadRecord(more);
      ReadRecord(Escape(field) + ([','] + more)) == Parsed([field] + r.value, r.rest)
  {
    FieldReadsBack(field, [','] + more);
    assert ([','] + more)[1..] == more;
  }

  lemma {:induction false} RecordReadsBack(fields: seq<string>, tail: string)
    requires fields != [] && (tail == [] || tail[0] == '\n')
    ensures ReadRecord(Join(Escaped(fields), ',') + tail) == Parsed(fields, tail)
  {
    assert fields == [fields[0]] + fields[1..];
    if |fields| == 1 {
      assert fields == [fields[0]] && Join(Escaped(fields), ',') == Escape(fields[0]);
      FieldReadsBack(fields[0], tail);
    } else {
      RecordText(fields, tail);
      RecordReadsBack(fields[1..], tail);
      RecordStep(fields[0], Join(Escaped(fields[1..]), ',') + tail);
    }
  }

  /** Every non-empty table of non-empty records is read back from its escaped printing. */
  lemma {:induction false} TableReadsBack(table: seq<seq<string>>)
    requires table != [] && forall row | row in table :: row != []
    ensures ReadTable(Join(PrintedRecords(table), '\n')) == Some(table)
  {
    var t := Join(PrintedRecords(table), '\n');
    assert table[0] in table;
    if |table| == 1 {
      assert table == [table[0]] && t == Join(Escaped(table[0]), ',') + [];
      RecordReadsBack(table[0], []);
    } else {
      var more := Join(PrintedRecords(table[1..]), '\n');
      assert PrintedRecords(table)[1..] == PrintedRecords(table[1..]);
      assert t == Join(Escaped(table[0]), ',') + (['\n'] + more);
      RecordReadsBack(table[0], ['\n'] + more);
      assert (['\n'] + more)[1..] == more;
      assert table == [table[0]] + table[1..] && forall row | row in table[1..] :: row in table;
      TableReadsBack(table[1..]);
    }
  }

  // ---------- No text of a table is shorter than its printing ----------

  lemma {:induction false} PlainCost(t: string)
    requires ReadPlain(t).Parsed?
    ensures Plain(ReadPlain(t).value) && |t| == |ReadPlain(t).value| + |ReadPlain(t).rest|
  {
    if !AtBreak(t) { PlainCost(t[1..]); }
  }

  lemma {:induction false} QuotedCost(t: string)
    requires ReadQuoted(t).Parsed?
    ensures |t| == |Doubled(ReadQuoted(t).value)| + 1 + |ReadQuoted(t).rest|
    decreases |t|
  {
    var s := ReadQuoted(t).value;
    if t[0] != '"' {
      QuotedCost(t[1..]);
      assert s[1..] == ReadQuoted(t[1..]).value;
    } else if |t| > 1 && t[1] == '"' {
      QuotedCost(t[2..]);
      assert s[1..] == ReadQuoted(t[2..]).value;
    }
  }

  lemma {:induction false} DoubledLonger(s: string)
    ensures |s| <= |Doubled(s)|
  {
    if s != [] { DoubledLonger(s[1..]); }
  }

  lemma FieldCost(t: string)
    requires ReadField(t).Parsed?
    ensures |t| >= |Escape(ReadField(t).value)| + |ReadField(t).rest|
  {
    if t != [] && t[0] == '"' {
      QuotedCost(t[1..]);
      DoubledLonger(ReadField(t).value);
    } else {
      PlainCost(t);
    }
  }

  lemma {:induction false} RecordCost(t: string)
    requires ReadRecord(t).Parsed?
    ensures |t| >= |Join(Escaped(ReadRecord(t).value), ',')| + |ReadRecord(t).rest|
    decreases |t|
  {
    FieldCost(t);
    var rest := ReadField(t).rest;
    if rest != [] && rest[0] == ',' {
      RecordCost(rest[1..]);
      var row := ReadRecord(t).value;
      assert Escaped(row)[1..] == Escaped(ReadRecord(rest[1..]).value);
    }
  }

  lemma {:induction false} TableCost(t: string)
    requires ReadTable(t).Some?
    ensures |t| >= |Join(PrintedRecords(ReadTable(t).value), '\n')|
    decreases |t|
  {
    RecordCost(t);
    var rest := ReadRecord(t).rest;
    if rest != [] {
      TableCost(rest[1..]);
      var table := ReadTable(t).value;
      assert PrintedRecords(table)[1..] == PrintedRecords(ReadTable(rest[1..]).value);
    }
  }

  // ---------- When the export can be read back ----------

  lemma {:induction false} PlainHeaderRow(headers: seq<string>)
    ensures |Join(headers, ',')| <= |Join(Escaped(headers), ',')|
    ensures |Join(headers, ',')| == |Join(Escaped(headers), ',')| <==> forall h | h in headers :: Plain(h)
    ensures (forall h | h in headers :: Plain(h)) ==> Escaped(headers) == headers
  {
    if headers != [] {
      DoubledLonger(headers[0]);
      assert headers == [headers[0]] + headers[1..];
      assert Escaped(headers)[1..] == Escaped(headers[1..]);
      assert Plain(headers[0]) <==> |Escape(headers[0])| == |headers[0]|;
      PlainHeaderRow(headers[1..]);
    }
  }

  lemma CsvShape(data: seq<Record>, columns: Option<seq<string>>)
    requires data != []
    ensures var headers := HeadersFor(data, columns);
      var body := Body(data, headers);
      && ToCsv(data, columns) == Join(headers, ',') + ['\n'] + Join(PrintedRecords(body), '\n')
      && Join(PrintedRecords([headers] + body), '\n') ==
           Join(Escaped(headers), ',') + ['\n'] + Join(PrintedRecords(body), '\n')
  {
    var headers := HeadersFor(data, columns);
    var body := Body(data, headers);
    assert ([Join(headers, ',')] + PrintedRecords(body))[1..] == PrintedRecords(body);
    assert PrintedRecords([headers] + body)[1..] == PrintedRecords(body);
  }

  /** toCsv is uniquely decodable exactly when there is a column and no header holds a
      comma, quote or newline; the cells may hold anything. */
  lemma CsvReadsBackIffHeadersPlain(data: seq<Record>, columns: Option<seq<string>>)
    requires data != []
    ensures var headers := HeadersFor(data, columns);
      ReadTable(ToCsv(data, columns)) == Some([headers] + Body(data, headers))
      <==> headers != [] && forall h | h in headers :: Plain(h)
  {
    var headers := HeadersFor(data, columns);
    var table := [headers] + Body(data, headers);
    CsvShape(data, columns);
    PlainHeaderRow(headers);
    if headers != [] && forall h | h in headers :: Plain(h) {
      TableReadsBack(table);
    }
    if ReadTable(ToCsv(data, columns)) == Some(table) {
      assert headers in table;
      TableCost(ToCsv(data, columns));
    }
  }

  /** Hence different cell texts under the same plain headers never print alike. */
  lemma CsvInjective(data: seq<Record>, others: seq<Record>, headers: seq<string>)
    requires data != [] && others != [] && headers != [] && forall h | h in headers :: Plain(h)
    requires ToCsv(data, Some(headers)) == ToCsv(others, Some(headers))
    ensures Body(data, headers) == Body(others, headers)
  {
    CsvReadsBackIffHeadersPlain(data, Some(headers));
    CsvReadsBackIffHeadersPlain(others, Some(headers));
    assert ([headers] + Body(data, headers))[1..] == Body(data, headers);
    assert ([headers] + Body(others, headers))[1..] == Body(others, headers);
  }

  // ---------- What is printed ----------

  /** Entry k of the record is the first with the key. */
  predicate IsFirst(row: Record, key: string, k: nat) {
    k < |row| && row[k].0 == key && forall j | 0 <= j < k :: row[j].0 != key
  }

  lemma {:induction false} LookupIsFirst(row: Record, key: string)
    ensures forall k: nat | IsFirst(row, key, k) :: Lookup(row, key) == row[k].1
    ensures (forall j | 0 <= j < |row| :: row[j].0 != key) ==> Lookup(row, key) == Missing
  {
    if row != [] {
      LookupIsFirst(row[1..], key);
      forall k: nat | IsFirst(row, key, k) ensures Lookup(row, key) == row[k].1 {
        if k > 0 {
          assert IsFirst(row[1..], key, k - 1);
        }
      }
    }
  }

  /** The header row is the given columns, or the keys of the first record; below it each
      record has the text of its entry for each header, or nothing. */
  lemma TableOfRecords(data: seq<Record>, columns: Option<seq<string>>, i: nat, j: nat)
    requires data != []
    ensures var headers, body := HeadersFor(data, columns), Body(data, HeadersFor(data, columns));
      && (columns.Some? ==> headers == columns.value)
      && (columns.None? ==> |headers| == |data[0]| && forall h | 0 <= h < |headers| :: headers[h] == data[0][h].0)
      && |body| == |data|
      && (i < |body| ==> |body[i]| == |headers|)
      && (i < |body| && j < |headers| ==>
            && (forall k: nat | IsFirst(data[i], headers[j], k) ::
                  body[i][j] == if data[i][k].1.Missing? then "" else data[i][k].1.text)
            && ((forall k | 0 <= k < |data[i]| :: data[i][k].0 != headers[j]) ==> body[i][j] == ""))
    ensures ToCsv([], columns) == ""
  {
    var headers := HeadersFor(data, columns);
    if i < |data| && j < |headers| { LookupIsFirst(data[i], headers[j]); }
  }

  /** A field is quoted exactly if it holds a comma, a quote or a newline. */
  lemma QuotedIffSpecial(s: string)
    ensures Plain(s) <==> Escape(s) == s
    ensures !Plain(s) ==> |s| + 2 <= |Escape(s)| && Escape(s)[0] == '"' && Escape(s)[|Escape(s)| - 1] == '"'
  {
    DoubledIsLonger(s);
    if c :| c in s && Special(c) {
      assert ',' in s || '"' in s || '\n' in s;
    }
  }

  lemma {:induction false} DoubledIsLonger(s: string)
    ensures |s| <= |Doubled(s)|
  {
    if s != [] { DoubledIsLonger(s[1..]); }
  }

  // ---------- Cells of the XML export ----------

  function ReplaceAll(s: string, c: char, sub: string): string {
    if s == [] then [] else (if s[0] == c then sub else [s[0]]) + ReplaceAll(s[1..], c, sub)
  }

  const AMP := "&amp;"
  const LT := "&lt;"
  const OPEN := "<Cell><Data ss:Type=\"String\">"
  const CLOSE := "</Data></Cell>"

  /** First the ampersands, then the less-than signs. */
  function EscapeXml(s: string): string {
    ReplaceAll(ReplaceAll(s, '&', AMP), '<', LT)
  }

  function XmlCells(cells: seq<string>): string {
    if cells == [] then [] else OPEN + EscapeXml(cells[0]) + CLOSE + XmlCells(cells[1..])
  }

  /** Character data up to the next tag, with the two entities resolved. */
  function ReadText(t: string): (r: Parsed<string>)
    ensures r.Parsed? ==> |r.rest| <= |t|
    decreases |t|
  {
    if t == [] || t[0] == '<' then Parsed([], t)
    else if t[0] != '&' then Prefixed(t[0], ReadText(t[1..]))
    else if AMP <= t then Prefixed('&', ReadText(t[|AMP|..]))
    else if LT <= t then Prefixed('<', ReadText(t[|LT|..]))
    else Malformed
  }

  function Prefixed(c: char, r: Parsed<string>): Parsed<string> {
    match r
    case Malformed => Malformed
    case Parsed(s, rest) => Parsed([c] + s, rest)
  }

  function ReadCells(t: string): Option<seq<string>>
    decreases |t|
  {
    if t == [] then Some([])
    else if !(OPEN <= t) then None
    else
      match ReadText(t[|OPEN|..])
      case Malformed => None
      case Parsed(s, rest) =>
        if !(CLOSE <= rest) then None
        else
          match ReadCells(rest[|CLOSE|..])
          case None => None
          case Some(cells) => Some([s] + cells)
  }

  lemma {:induction false} ReplaceAppend(x: string, y: string, c: char, sub: string)
    ensures ReplaceAll(x + y, c, sub) == ReplaceAll(x, c, sub) + ReplaceAll(y, c, sub)
  {
    if x == [] {
      assert x + y == y;
    } else {
      assert (x + y)[1..] == x[1..] + y;
      ReplaceAppend(x[1..], y, c, sub);
    }
  }

  lemma {:induction false} NothingToReplace(x: string, c: char, sub: string)
    requires c !in x
    ensures ReplaceAll(x, c, sub) == x
  {
    if x != [] { NothingToReplace(x[1..], c, sub); }
  }

  function EscapedChar(c: char): string { if c == '&' then AMP else if c == '<' then LT else [c] }

  lemma ReadTextStep(c: char, rest: string)
    ensures ReadText(EscapedChar(c) + rest) == Prefixed(c, ReadText(rest))
  {
    PrefixOff(EscapedChar(c), rest);
    if c == '<' { assert (LT + rest)[1] == 'l' && AMP[1] == 'a'; }
  }

  lemma EscapeXmlStep(s: string)
    requires s != []
    ensures EscapeXml(s) == EscapedChar(s[0]) + EscapeXml(s[1..])
  {
    var head := if s[0] == '&' then AMP else [s[0]];
    ReplaceAppend(head, ReplaceAll(s[1..], '&', AMP), '<', LT);
    if s[0] == '<' {
      assert ReplaceAll([s[0]], '<', LT) == LT + ReplaceAll([], '<', LT);
    } else {
      NothingToReplace(head, '<', LT);
    }
  }

  lemma PrefixOff(a: string, b: string)
    ensures a <= a + b && (a + b)[|a|..] == b
  {
  }

  lemma EscapedFront(s: string, tail: string)
    requires s != []
    ensures EscapeXml(s) + tail == EscapedChar(s[0]) + (EscapeXml(s[1..]) + tail)
  {
    EscapeXmlStep(s);
    var a, b, c := EscapedChar(s[0]), EscapeXml(s[1..]), tail;
    Associates(a, b, c, []);
    assert a + b + c + [] == a + b + c && c + [] == c;
  }

  lemma {:induction false} TextReadsBack(s: string, tail: string)
    requires tail != [] && tail[0] == '<'
    ensures ReadText(EscapeXml(s) + tail) == Parsed(s, tail)
  {
    if s == [] {
      assert EscapeXml(s) + tail == tail;
    } else {
      EscapedFront(s, tail);
      ReadTextStep(s[0], EscapeXml(s[1..]) + tail);
      TextReadsBack(s[1..], tail);
      assert s == [s[0]] + s[1..];
    }
  }

  lemma CellReadsBack(cell: string, more: string)
    ensures var inner := EscapeXml(cell) + (CLOSE + more);
      ReadText(inner) == Parsed(cell, CLOSE + more)
  {
    assert (CLOSE + more)[0] == '<';
    TextReadsBack(cell, CLOSE + more);
  }

  lemma ReadCellsStep(inner: string, cell: string, more: string)
    requires ReadText(inner) == Parsed(cell, CLOSE + more) && ReadCells(more).Some?
    ensures ReadCells(OPEN + inner) == Some([cell] + ReadCells(more).value)
  {
    PrefixOff(OPEN, inner);
    PrefixOff(CLOSE, more);
  }

  /** Any row of cells is read back from its XML, whatever the cells hold. */
  lemma {:induction false} XmlCellsReadBack(cells: seq<string>)
    ensures ReadCells(XmlCells(cells)) == Some(cells)
  {
    if cells != [] {
      var more := XmlCells(cells[1..]);
      XmlCellsReadBack(cells[1..]);
      CellReadsBack(cells[0], more);
      ReadCellsStep(EscapeXml(cells[0]) + (CLOSE + more), cells[0], more);
      XmlCellsStep(cells);
      assert cells == [cells[0]] + cells[1..];
    }
  }

  lemma XmlCellsStep(cells: seq<string>)
    requires cells != []
    ensures XmlCells(cells) == OPEN + (EscapeXml(cells[0]) + (CLOSE + XmlCells(cells[1..])))
  {
    var a, b, c, d := OPEN, EscapeXml(cells[0]), CLOSE, XmlCells(cells[1..]);
    Associates(a, b, c, d);
  }

  lemma Associates(a: string, b: string, c: string, d: string)
    ensures a + b + c + d == a + (b + (c + d))
  {
  }
}
