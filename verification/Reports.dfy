/** Trial balance, profit and loss, balance sheet
    (src/accounting/reports/reports.service.ts, and the copies in
     src/accounting/journal-entries/journal-entries.service.ts,
     src/accounting/chart-of-accounts/chart-of-accounts.service.ts and
     src/reports/services/finance-reports.service.ts). */
module Reports {
  import opened Results
  import opened Accounting

  datatype Window = Window(from: Option<int>, to: Option<int>)

  datatype BalanceRow = BalanceRow(account: string, totalDebit: int, totalCredit: int, balance: int)

  datatype BalanceSheet = BalanceSheet(assets: int, liabilities: int, equity: int, netIncome: int,
                                       totalLiabilitiesEquity: int)

  const ALL := Window(None, None)

  predicate InWindow(date: int, w: Window) {
    && (w.from.Some? ==> w.from.value <= date)
    && (w.to.Some? ==> date <= w.to.value)
  }

  /** The query of the reports: lines of POSTED entries dated in the window. */
  function PostedLines(entries: seq<Entry>, w: Window): seq<Line> {
    if entries == [] then []
    else
      var e := entries[|entries| - 1];
      var rest := PostedLines(entries[..|entries| - 1], w);
      if e.status == POSTED && InWindow(e.date, w) then rest + e.lines else rest
  }

  lemma LastEntryCounts(entries: seq<Entry>, w: Window, a: string)
    requires entries != []
    ensures var e := entries[|entries| - 1];
      var rest := PostedLines(entries[..|entries| - 1], w);
      var all := PostedLines(entries, w);
      var counted := e.status == POSTED && InWindow(e.date, w);
      && SumDebit(all) == SumDebit(rest) + (if counted then SumDebit(e.lines) else 0)
      && SumCredit(all) == SumCredit(rest) + (if counted then SumCredit(e.lines) else 0)
      && DebitOf(all, a) == DebitOf(rest, a) + (if counted then DebitOf(e.lines, a) else 0)
      && CreditOf(all, a) == CreditOf(rest, a) + (if counted then CreditOf(e.lines, a) else 0)
  {
    SumsAppend(PostedLines(entries[..|entries| - 1], w), entries[|entries| - 1].lines, a);
  }

  // ---------- Balances by account type ----------

  /** Debit-normal accounts count debit minus credit, the others credit minus debit. */
  function Signed(kind: AccountType, debit: int, credit: int): int {
    match kind
    case ASSET => debit - credit
    case EXPENSE => debit - credit
    case _ => credit - debit
  }

  /** The switch of the accounting copies, on the type's name. */
  function BalanceBySwitch(kind: string, debit: int, credit: int): int {
    if kind == "ASSET" || kind == "EXPENSE" then debit - credit
    else if kind == "LIABILITY" || kind == "EQUITY" || kind == "REVENUE" then credit - debit
    else debit - credit
  }

  /** The membership test of the finance-reports copy. */
  function BalanceByMembership(kind: string, debit: int, credit: int): int {
    if kind in ["ASSET", "EXPENSE"] then debit - credit else credit - debit
  }

  function NameOf(kind: AccountType): string {
    match kind
    case ASSET => "ASSET"
    case LIABILITY => "LIABILITY"
    case EQUITY => "EQUITY"
    case REVENUE => "REVENUE"
    case EXPENSE => "EXPENSE"
  }

  /** The copies of the balance rule agree on every balance exactly on the names of the
      five account types. */
  lemma BalanceRulesAgreeIffKnownType(kind: string)
    ensures (forall d, c :: BalanceBySwitch(kind, d, c) == BalanceByMembership(kind, d, c))
      <==> exists t: AccountType :: NameOf(t) == kind
    ensures forall t: AccountType, d, c :: NameOf(t) == kind ==> BalanceBySwitch(kind, d, c) == Signed(t, d, c)
    ensures (forall t: AccountType :: NameOf(t) != kind) ==>
      forall d, c :: BalanceBySwitch(kind, d, c) == d - c && BalanceByMembership(kind, d, c) == c - d
  {
    if kind == "ASSET" { assert NameOf(ASSET) == kind; }
    else if kind == "LIABILITY" { assert NameOf(LIABILITY) == kind; }
    else if kind == "EQUITY" { assert NameOf(EQUITY) == kind; }
    else if kind == "REVENUE" { assert NameOf(REVENUE) == kind; }
    else if kind == "EXPENSE" { assert NameOf(EXPENSE) == kind; }
    else {
      assert forall t: AccountType :: NameOf(t) != kind;
      assert BalanceBySwitch(kind, 1, 0) != BalanceByMembership(kind, 1, 0);
    }
  }

  // ---------- Trial balance ----------

  /** Account ids of the lines in order of first occurrence: the order of the Map. */
  function Keys(lines: seq<Line>): seq<string> {
    if lines == [] then []
    else
      var keys := Keys(lines[..|lines| - 1]);
      var a := lines[|lines| - 1].account;
      if a in keys then keys else keys + [a]
  }

  function KindOf(accounts: seq<Account>, id: string): AccountType {
    match Find(accounts, id)
    case None => ASSET
    case Some(a) => a.kind
  }

  function RowFor(accounts: seq<Account>, lines: seq<Line>, id: string): BalanceRow {
    var d, c := DebitOf(lines, id), CreditOf(lines, id);
    BalanceRow(id, d, c, Signed(KindOf(accounts, id), d, c))
  }

  function RowsFor(accounts: seq<Account>, lines: seq<Line>, keys: seq<string>): seq<BalanceRow> {
    seq(|keys|, i requires 0 <= i < |keys| => RowFor(accounts, lines, keys[i]))
  }

  function RowsOf(accounts: seq<Account>, lines: seq<Line>): seq<BalanceRow> {
    RowsFor(accounts, lines, Keys(lines))
  }

  function RowDebits(rows: seq<BalanceRow>): int {
    if rows == [] then 0 else RowDebits(rows[..|rows| - 1]) + rows[|rows| - 1].totalDebit
  }

  function RowCredits(rows: seq<BalanceRow>): int {
    if rows == [] then 0 else RowCredits(rows[..|rows| - 1]) + rows[|rows| - 1].totalCredit
  }

  lemma {:induction false} KeysCover(lines: seq<Line>)
    ensures forall i, j | 0 <= i < j < |Keys(lines)| :: Keys(lines)[i] != Keys(lines)[j]
    ensures forall a :: a in Keys(lines) <==> exists l | l in lines :: l.account == a
  {
    if lines != [] {
      var n := |lines| - 1;
      KeysCover(lines[..n]);
      assert lines == lines[..n] + [lines[n]];
    }
  }

  lemma {:induction false} AbsentIsZero(lines: seq<Line>, a: string)
    requires forall l | l in lines :: l.account != a
    ensures DebitOf(lines, a) == 0 && CreditOf(lines, a) == 0
  {
    if lines != [] {
      assert lines[|lines| - 1] in lines;
      AbsentIsZero(lines[..|lines| - 1], a);
    }
  }

  /** One more line adds its amounts to the one row of its account. */
  lemma {:induction false} RowTotalsExtend(accounts: seq<Account>, lines: seq<Line>, l: Line, keys: seq<string>)
    requires forall i, j | 0 <= i < j < |keys| :: keys[i] != keys[j]
    ensures RowDebits(RowsFor(accounts, lines + [l], keys)) ==
      RowDebits(RowsFor(accounts, lines, keys)) + if l.account in keys then l.debit else 0
    ensures RowCredits(RowsFor(accounts, lines + [l], keys)) ==
      RowCredits(RowsFor(accounts, lines, keys)) + if l.account in keys then l.credit else 0
    decreases |keys|
  {
    if keys != [] {
      var n := |keys| - 1;
      RowTotalsExtend(accounts, lines, l, keys[..n]);
      assert keys == keys[..n] + [keys[n]];
      assert (lines + [l])[..|lines|] == lines;
      assert RowsFor(accounts, lines + [l], keys)[..n] == RowsFor(accounts, lines + [l], keys[..n]);
      assert RowsFor(accounts, lines, keys)[..n] == RowsFor(accounts, lines, keys[..n]);
    }
  }

  /** The per-account rows regroup the lines without loss. */
  lemma {:induction false} RowsRegroupLines(accounts: seq<Account>, lines: seq<Line>)
    ensures RowDebits(RowsOf(accounts, lines)) == SumDebit(lines)
    ensures RowCredits(RowsOf(accounts, lines)) == SumCredit(lines)
  {
    if lines != [] {
      var n := |lines| - 1;
      var rest, l := lines[..n], lines[n];
      assert lines == rest + [l];
      RowsRegroupLines(accounts, rest);
      KeysCover(rest);
      RowTotalsExtend(accounts, rest, l, Keys(rest));
      if l.account !in Keys(rest) {
        AbsentIsZero(rest, l.account);
        var k := |Keys(rest)|;
        assert Keys(lines)[..k] == Keys(rest);
        assert RowsOf(accounts, lines)[..k] == RowsFor(accounts, lines, Keys(rest));
      }
    }
  }

  // ---------- The three copies of the trial balance ----------

  /** The type name of a line's account, as the query includes it. */
  function TypeName(names: map<string, string>, id: string): string { if id in names then names[id] else "" }

  function SwitchRow(names: map<string, string>, lines: seq<Line>, id: string): BalanceRow {
    var d, c := DebitOf(lines, id), CreditOf(lines, id);
    BalanceRow(id, d, c, BalanceBySwitch(TypeName(names, id), d, c))
  }

  function MembershipRow(names: map<string, string>, lines: seq<Line>, id: string): BalanceRow {
    var d, c := DebitOf(lines, id), CreditOf(lines, id);
    BalanceRow(id, d, c, BalanceByMembership(TypeName(names, id), d, c))
  }

  /** The rows of the journal-entries and accounting-reports copies. */
  function SwitchRows(names: map<string, string>, lines: seq<Line>): seq<BalanceRow> {
    seq(|Keys(lines)|, i requires 0 <= i < |Keys(lines)| => SwitchRow(names, lines, Keys(lines)[i]))
  }

  /** The rows of the finance-reports copy. */
  function MembershipRows(names: map<string, string>, lines: seq<Line>): seq<BalanceRow> {
    seq(|Keys(lines)|, i requires 0 <= i < |Keys(lines)| => MembershipRow(names, lines, Keys(lines)[i]))
  }

  predicate KnownType(name: string) { name in ["ASSET", "LIABILITY", "EQUITY", "REVENUE", "EXPENSE"] }

  lemma RowCopiesAgreeIff(names: map<string, string>, lines: seq<Line>, id: string)
    ensures SwitchRow(names, lines, id) == MembershipRow(names, lines, id)
      <==> KnownType(TypeName(names, id)) || DebitOf(lines, id) == CreditOf(lines, id)
  {
  }

  /** The copies give the same rows in the same order exactly when every account with an
      open balance has one of the five types. */
  lemma TrialBalanceCopiesAgreeIff(names: map<string, string>, lines: seq<Line>)
    ensures SwitchRows(names, lines) == MembershipRows(names, lines)
      <==> forall id | id in Keys(lines) :: KnownType(TypeName(names, id)) || DebitOf(lines, id) == CreditOf(lines, id)
  {
    if SwitchRows(names, lines) == MembershipRows(names, lines) {
      forall id | id in Keys(lines)
        ensures KnownType(TypeName(names, id)) || DebitOf(lines, id) == CreditOf(lines, id)
      {
        var i :| 0 <= i < |Keys(lines)| && Keys(lines)[i] == id;
        assert SwitchRows(names, lines)[i] == MembershipRows(names, lines)[i];
        RowCopiesAgreeIff(names, lines, id);
      }
    } else {
      var i :| 0 <= i < |Keys(lines)| && SwitchRows(names, lines)[i] != MembershipRows(names, lines)[i];
      RowCopiesAgreeIff(names, lines, Keys(lines)[i]);
    }
  }

  /** On the accounts of the books all three copies are the same row sequence. */
  lemma TrialBalanceCopiesAgree(accounts: seq<Account>, names: map<string, string>, lines: seq<Line>)
    requires forall l | l in lines ::
      l.account in names && names[l.account] == NameOf(KindOf(accounts, l.account))
    ensures SwitchRows(names, lines) == MembershipRows(names, lines) == RowsOf(accounts, lines)
  {
    KeysCover(lines);
    forall i | 0 <= i < |Keys(lines)|
      ensures SwitchRows(names, lines)[i] == MembershipRows(names, lines)[i] == RowsOf(accounts, lines)[i]
    {
      var id := Keys(lines)[i];
      assert id in Keys(lines);
      BalanceRulesAgreeIffKnownType(TypeName(names, id));
      RowCopiesAgreeIff(names, lines, id);
    }
  }

  lemma {:induction false} PostedLinesBalance(b: Books, n: nat, w: Window)
    requires Valid(b) && n <= |b.entries|
    ensures SumDebit(PostedLines(b.entries[..n], w)) == SumCredit(PostedLines(b.entries[..n], w))
    ensures forall l | l in PostedLines(b.entries[..n], w) :: Find(b.accounts, l.account).Some?
  {
    if n > 0 {
      PostedLinesBalance(b, n - 1, w);
      assert b.entries[..n][..n - 1] == b.entries[..n - 1];
      assert EntrySound(b.accounts, b.entries, n - 1);
      LastEntryCounts(b.entries[..n], w, "");
    }
  }

  /** Total debit equals total credit of the trial balance, in every reachable state and at every date. */
  lemma TrialBalanceBalances(b: Books, calls: seq<Call>, w: Window)
    requires Valid(b) && LegalRun(b, calls)
    ensures var b' := Run(b, calls);
      var rows := RowsOf(b'.accounts, PostedLines(b'.entries, w));
      RowDebits(rows) == RowCredits(rows) == SumDebit(PostedLines(b'.entries, w))
  {
    RunValid(b, calls);
    var b' := Run(b, calls);
    assert b'.entries[..|b'.entries|] == b'.entries;
    PostedLinesBalance(b', |b'.entries|, w);
    RowsRegroupLines(b'.accounts, PostedLines(b'.entries, w));
  }

  // ---------- Profit and loss, balance sheet ----------

  /** Sum of the signed balances of the active accounts of one type. */
  function ListedTotal(accounts: seq<Account>, kind: AccountType, lines: seq<Line>): int {
    if accounts == [] then 0
    else
      var a := accounts[0];
      (if a.active && a.kind == kind then Signed(kind, DebitOf(lines, a.id), CreditOf(lines, a.id)) else 0)
      + ListedTotal(accounts[1..], kind, lines)
  }

  function NetProfit(accounts: seq<Account>, lines: seq<Line>): int {
    ListedTotal(accounts, REVENUE, lines) - ListedTotal(accounts, EXPENSE, lines)
  }

  function SheetOf(accounts: seq<Account>, lines: seq<Line>): BalanceSheet {
    var l, e, n := ListedTotal(accounts, LIABILITY, lines), ListedTotal(accounts, EQUITY, lines),
      NetProfit(accounts, lines);
    BalanceSheet(ListedTotal(accounts, ASSET, lines), l, e, n, l + e + n)
  }

  /** Net debit of the accounts that have been deactivated. */
  function InactiveNet(accounts: seq<Account>, lines: seq<Line>): int {
    if accounts == [] then 0
    else (if accounts[0].active then 0 else Net(lines, accounts[0].id)) + InactiveNet(accounts[1..], lines)
  }

  function AllNet(accounts: seq<Account>, lines: seq<Line>): int {
    if accounts == [] then 0 else Net(lines, accounts[0].id) + AllNet(accounts[1..], lines)
  }

  lemma {:induction false} NetSplitsByType(accounts: seq<Account>, lines: seq<Line>)
    ensures AllNet(accounts, lines) ==
      ListedTotal(accounts, ASSET, lines) + ListedTotal(accounts, EXPENSE, lines)
      - ListedTotal(accounts, LIABILITY, lines) - ListedTotal(accounts, EQUITY, lines)
      - ListedTotal(accounts, REVENUE, lines) + InactiveNet(accounts, lines)
  {
    if accounts != [] { NetSplitsByType(accounts[1..], lines); }
  }

  lemma {:induction false} FindAbsent(accounts: seq<Account>, id: string)
    requires forall a | a in accounts :: a.id != id
    ensures Find(accounts, id).None?
  {
    if accounts != [] {
      assert accounts[0] in accounts;
      FindAbsent(accounts[1..], id);
    }
  }

  lemma HeadIsAlone(accounts: seq<Account>)
    requires DistinctAccounts(accounts) && accounts != []
    ensures Find(accounts[1..], accounts[0].id).None?
  {
    forall a | a in accounts[1..] ensures a.id != accounts[0].id {
      var j :| 0 <= j < |accounts[1..]| && accounts[1..][j] == a;
      assert accounts[j + 1] == a;
    }
    FindAbsent(accounts[1..], accounts[0].id);
  }

  lemma {:induction false} AllNetExtends(accounts: seq<Account>, lines: seq<Line>, l: Line)
    requires DistinctAccounts(accounts)
    ensures AllNet(accounts, lines + [l]) ==
      AllNet(accounts, lines) + if Find(accounts, l.account).Some? then l.debit - l.credit else 0
  {
    assert (lines + [l])[..|lines|] == lines;
    if accounts != [] {
      AllNetExtends(accounts[1..], lines, l);
      HeadIsAlone(accounts);
    }
  }

  /** Over accounts that cover all lines, the nets add up to total debit minus total credit. */
  lemma {:induction false} AllNetIsTotal(accounts: seq<Account>, lines: seq<Line>)
    requires DistinctAccounts(accounts) && forall l | l in lines :: Find(accounts, l.account).Some?
    ensures AllNet(accounts, lines) == SumDebit(lines) - SumCredit(lines)
  {
    if lines == [] {
      NoLinesNoNet(accounts);
    } else {
      var n := |lines| - 1;
      AllNetIsTotal(accounts, lines[..n]);
      assert lines == lines[..n] + [lines[n]];
      AllNetExtends(accounts, lines[..n], lines[n]);
    }
  }

  lemma {:induction false} NoLinesNoNet(accounts: seq<Account>)
    ensures AllNet(accounts, []) == 0
  {
    if accounts != [] { NoLinesNoNet(accounts[1..]); }
  }

  /** The balance sheet is off by exactly the net debit of the inactive accounts, in
      every reachable state and at every date; it balances iff those net to zero. */
  lemma BalanceSheetGap(b: Books, calls: seq<Call>, asOf: Option<int>)
    requires Valid(b) && LegalRun(b, calls)
    ensures var b' := Run(b, calls);
      var lines := PostedLines(b'.entries, Window(None, asOf));
      var sheet := SheetOf(b'.accounts, lines);
      && sheet.assets - sheet.totalLiabilitiesEquity == -InactiveNet(b'.accounts, lines)
      && (sheet.assets == sheet.totalLiabilitiesEquity <==> InactiveNet(b'.accounts, lines) == 0)
  {
    RunValid(b, calls);
    var b' := Run(b, calls);
    var lines := PostedLines(b'.entries, Window(None, asOf));
    assert b'.entries[..|b'.entries|] == b'.entries;
    PostedLinesBalance(b', |b'.entries|, Window(None, asOf));
    AllNetIsTotal(b'.accounts, lines);
    NetSplitsByType(b'.accounts, lines);
  }

  lemma {:induction false} InactiveNetDeactivated(accounts: seq<Account>, i: nat, lines: seq<Line>)
    requires DistinctAccounts(accounts) && i < |accounts| && accounts[i].active
    ensures InactiveNet(Replaced(accounts, accounts[i].(active := false)), lines) ==
      InactiveNet(accounts, lines) + Net(lines, accounts[i].id)
  {
    var a := accounts[i].(active := false);
    assert Replaced(accounts, a)[1..] == Replaced(accounts[1..], a);
    if i == 0 {
      assert Replaced(accounts[1..], a) == accounts[1..];
    } else {
      assert accounts[0].id != accounts[i].id;
      InactiveNetDeactivated(accounts[1..], i - 1, lines);
    }
  }

  function Gap(b: Books, asOf: Option<int>): int {
    var sheet := SheetOf(b.accounts, PostedLines(b.entries, Window(None, asOf)));
    sheet.assets - sheet.totalLiabilitiesEquity
  }

  /** Deleting an active account that has lines only deactivates it, and moves the balance
      sheet of every date out of balance by exactly the account's net debit. */
  lemma DeactivationMovesGap(b: Books, id: string, asOf: Option<int>)
    requires Valid(b) && Find(b.accounts, id).Some? && Find(b.accounts, id).value.active
    requires HasLines(b.entries, id) && Step(b, DeleteAccount(id)).result.Success?
    ensures Gap(Step(b, DeleteAccount(id)).books, asOf) ==
      Gap(b, asOf) - Net(PostedLines(b.entries, Window(None, asOf)), id)
  {
    FindMember(b.accounts, id);
    var i: nat :| i < |b.accounts| && b.accounts[i] == Find(b.accounts, id).value;
    InactiveNetDeactivated(b.accounts, i, PostedLines(b.entries, Window(None, asOf)));
    StepAccountsValid(b, DeleteAccount(id));
    BalanceSheetGap(b, [], asOf);
    BalanceSheetGap(Step(b, DeleteAccount(id)).books, [], asOf);
  }

  /** A ledger with one posted entry on which deactivation does unbalance the sheet. */
  lemma DeactivationUnbalances(x: Account, y: Account, amount: int)
    requires x.id != y.id && x.active && y.active && !x.isSystem && x.kind == y.kind == ASSET
    requires x.parent == y.parent == None && amount > 0
    ensures var entry := Entry(POSTED, 0, [Line(x.id, amount, 0), Line(y.id, 0, amount)], None);
      var b := Step(Books([x, y], [entry]), DeleteAccount(x.id)).books;
      var sheet := SheetOf(b.accounts, PostedLines(b.entries, ALL));
      Valid(Books([x, y], [entry])) && sheet.assets - sheet.totalLiabilitiesEquity == -amount
  {
    var lines := [Line(x.id, amount, 0), Line(y.id, 0, amount)];
    var entry := Entry(POSTED, 0, lines, None);
    var b := Books([x, y], [entry]);
    TwoLineSums(x.id, y.id, amount);
    TwoAccountBooksValid(x, y, entry);
    UsedAccountDeactivated(x, y, entry);
    assert b.entries[..0] == [] && PostedLines(b.entries, ALL) == lines;
    TwoAccountSheet(x.(active := false), y, lines, amount);
  }

  lemma TwoAccountBooksValid(x: Account, y: Account, entry: Entry)
    requires x.id != y.id && SumDebit(entry.lines) == SumCredit(entry.lines) && entry.reverses == None
    requires forall l | l in entry.lines :: l.account in {x.id, y.id}
    ensures Valid(Books([x, y], [entry]))
  {
    assert [x, y][1..] == [y];
    assert EntrySound([x, y], [entry], 0);
  }

  lemma UsedAccountDeactivated(x: Account, y: Account, entry: Entry)
    requires x.id != y.id && !x.isSystem && x.parent == y.parent == None
    requires entry.lines != [] && entry.lines[0].account == x.id
    ensures Step(Books([x, y], [entry]), DeleteAccount(x.id)).books == Books([x.(active := false), y], [entry])
  {
    assert entry in [entry] && entry.lines[0] in entry.lines && HasLines([entry], x.id);
    assert Replaced([x, y], x.(active := false)) == [x.(active := false), y];
  }

  lemma TwoLineSums(x: string, y: string, amount: int)
    requires x != y
    ensures var lines := [Line(x, amount, 0), Line(y, 0, amount)];
      SumDebit(lines) == SumCredit(lines) == amount && Net(lines, x) == amount && Net(lines, y) == -amount
  {
    var first, second := Line(x, amount, 0), Line(y, 0, amount);
    assert [first, second] == [first] + [second];
    SumsAppend([first], [second], x);
    SumsAppend([first], [second], y);
  }

  lemma TwoAccountSheet(x: Account, y: Account, lines: seq<Line>, amount: int)
    requires !x.active && y.active && Net(lines, x.id) == amount && Net(lines, y.id) == -amount
    ensures SheetOf([x, y], lines).assets - SheetOf([x, y], lines).totalLiabilitiesEquity == -amount
  {
    NetSplitsByType([x, y], lines);
    assert [x, y][1..] == [y] && [y][1..] == [];
    assert AllNet([y], lines) == -amount && InactiveNet([y], lines) == 0;
  }

  // ---------- The two profit-and-loss windows ----------

  /** reports.service spreads dateTo over dateFrom: with both given only dateTo is left. */
  function OverwrittenWindow(from: Option<int>, to: Option<int>): Window {
    if to.Some? then Window(None, to) else Window(from, None)
  }

  /** The part of the past that the overwritten filter lets in by mistake. */
  function Before(from: Option<int>, to: Option<int>): Window
    requires from.Some? && to.Some?
  {
    Window(None, Some(if from.value - 1 < to.value then from.value - 1 else to.value))
  }

  lemma {:induction false} WindowSplits(entries: seq<Entry>, from: Option<int>, to: Option<int>, a: string)
    requires from.Some? && to.Some?
    ensures var all, inside, before := PostedLines(entries, Window(None, to)),
        PostedLines(entries, Window(from, to)), PostedLines(entries, Before(from, to));
      && DebitOf(all, a) == DebitOf(inside, a) + DebitOf(before, a)
      && CreditOf(all, a) == CreditOf(inside, a) + CreditOf(before, a)
  {
    if entries != [] {
      var n := |entries| - 1;
      WindowSplits(entries[..n], from, to, a);
      LastEntryCounts(entries, Window(None, to), a);
      LastEntryCounts(entries, Window(from, to), a);
      LastEntryCounts(entries, Before(from, to), a);
    }
  }

  lemma {:induction false} ListedTotalSplits(accounts: seq<Account>, kind: AccountType, entries: seq<Entry>,
                                             from: Option<int>, to: Option<int>)
    requires from.Some? && to.Some?
    ensures ListedTotal(accounts, kind, PostedLines(entries, Window(None, to))) ==
      ListedTotal(accounts, kind, PostedLines(entries, Window(from, to)))
      + ListedTotal(accounts, kind, PostedLines(entries, Before(from, to)))
  {
    if accounts != [] {
      ListedTotalSplits(accounts[1..], kind, entries, from, to);
      WindowSplits(entries, from, to, accounts[0].id);
    }
  }

  /** The two profit-and-loss reports differ exactly by the profit made before dateFrom,
      and only when both dates are given. */
  lemma ProfitReportsAgreeIff(b: Books, from: Option<int>, to: Option<int>)
    ensures NetProfit(b.accounts, PostedLines(b.entries, OverwrittenWindow(from, to)))
        == NetProfit(b.accounts, PostedLines(b.entries, Window(from, to)))
      <==> from.None? || to.None? || NetProfit(b.accounts, PostedLines(b.entries, Before(from, to))) == 0
  {
    if from.Some? && to.Some? {
      ListedTotalSplits(b.accounts, REVENUE, b.entries, from, to);
      ListedTotalSplits(b.accounts, EXPENSE, b.entries, from, to);
    }
  }

  // ---------- What the figures are ----------

  /** Debit less credit of the lines on active accounts of a type, line by line. */
  function DebitLess(accounts: seq<Account>, kind: AccountType, lines: seq<Line>): int {
    if lines == [] then 0
    else
      var l := lines[|lines| - 1];
      DebitLess(accounts, kind, lines[..|lines| - 1])
      + if IsActive(accounts, kind, l.account) then l.debit - l.credit else 0
  }

  predicate IsActive(accounts: seq<Account>, kind: AccountType, id: string) {
    exists a | a in accounts :: a.id == id && a.active && a.kind == kind
  }

  lemma IsActiveOfHead(accounts: seq<Account>, kind: AccountType, id: string)
    requires DistinctAccounts(accounts) && accounts != []
    ensures IsActive(accounts, kind, id) <==>
      if accounts[0].id == id then accounts[0].active && accounts[0].kind == kind
      else IsActive(accounts[1..], kind, id)
    ensures accounts[0].id == id ==> !IsActive(accounts[1..], kind, id)
  {
    assert accounts == [accounts[0]] + accounts[1..];
    HeadIsAlone(accounts);
    FindMember(accounts[1..], accounts[0].id);
  }

  lemma {:induction false} ListedTotalOfNothing(accounts: seq<Account>, kind: AccountType)
    ensures ListedTotal(accounts, kind, []) == 0
  {
    if accounts != [] { ListedTotalOfNothing(accounts[1..], kind); }
  }

  lemma {:induction false} ListedTotalExtends(accounts: seq<Account>, kind: AccountType, lines: seq<Line>, l: Line)
    requires DistinctAccounts(accounts)
    ensures ListedTotal(accounts, kind, lines + [l]) == ListedTotal(accounts, kind, lines)
      + if IsActive(accounts, kind, l.account) then Signed(kind, l.debit, l.credit) else 0
  {
    assert (lines + [l])[..|lines|] == lines;
    if accounts != [] {
      ListedTotalExtends(accounts[1..], kind, lines, l);
      IsActiveOfHead(accounts, kind, l.account);
    }
  }

  /** Asset and expense totals count debits less credits, the others credits less debits. */
  lemma {:induction false} ListedTotalIsLineSum(accounts: seq<Account>, kind: AccountType, lines: seq<Line>)
    requires DistinctAccounts(accounts)
    ensures ListedTotal(accounts, kind, lines) ==
      if kind in {ASSET, EXPENSE} then DebitLess(accounts, kind, lines) else -DebitLess(accounts, kind, lines)
  {
    if lines == [] {
      ListedTotalOfNothing(accounts, kind);
    } else {
      var n := |lines| - 1;
      var l := lines[n];
      ListedTotalIsLineSum(accounts, kind, lines[..n]);
      assert lines == lines[..n] + [l];
      ListedTotalExtends(accounts, kind, lines[..n], l);
    }
  }

  /** Every figure of the balance sheet, from the posted lines themselves. */
  lemma SheetFigures(accounts: seq<Account>, lines: seq<Line>)
    requires DistinctAccounts(accounts)
    ensures var sheet := SheetOf(accounts, lines);
      && sheet.assets == DebitLess(accounts, ASSET, lines)
      && sheet.liabilities == -DebitLess(accounts, LIABILITY, lines)
      && sheet.equity == -DebitLess(accounts, EQUITY, lines)
      && sheet.netIncome == -DebitLess(accounts, REVENUE, lines) - DebitLess(accounts, EXPENSE, lines)
      && sheet.totalLiabilitiesEquity == sheet.liabilities + sheet.equity + sheet.netIncome
  {
    ListedTotalIsLineSum(accounts, ASSET, lines);
    ListedTotalIsLineSum(accounts, LIABILITY, lines);
    ListedTotalIsLineSum(accounts, EQUITY, lines);
    ListedTotalIsLineSum(accounts, REVENUE, lines);
    ListedTotalIsLineSum(accounts, EXPENSE, lines);
  }

  /** What the profit-and-loss reports add up: both for the lines of their window. */
  lemma ProfitFigure(accounts: seq<Account>, lines: seq<Line>)
    requires DistinctAccounts(accounts)
    ensures NetProfit(accounts, lines) == -DebitLess(accounts, REVENUE, lines) - DebitLess(accounts, EXPENSE, lines)
  {
    SheetFigures(accounts, lines);
  }

  /** A new entry's lines are read exactly if it is posted and dated in the window. */
  lemma PostedLinesOfNewEntry(entries: seq<Entry>, e: Entry, w: Window)
    ensures PostedLines(entries + [e], w) == PostedLines(entries, w)
      + if e.status == POSTED && (w.from.None? || w.from.value <= e.date) && (w.to.None? || e.date <= w.to.value)
        then e.lines else []
  {
    assert (entries + [e])[..|entries|] == entries;
  }

  /** The rows of the trial balance: one per account with posted lines, with the sums of
      its debits and credits and their difference, signed by the account's type. */
  lemma TrialBalanceRows(accounts: seq<Account>, lines: seq<Line>, id: string)
    requires DistinctAccounts(accounts)
    ensures var rows := RowsOf(accounts, lines);
      && ((exists r | r in rows :: r.account == id) <==> exists l | l in lines :: l.account == id)
      && forall r, a | r in rows && a in accounts && r.account == a.id == id ::
           && r.totalDebit == DebitOf(lines, id) && r.totalCredit == CreditOf(lines, id)
           && r.balance == if a.kind in {ASSET, EXPENSE}
                then r.totalDebit - r.totalCredit else r.totalCredit - r.totalDebit
  {
    var rows, keys := RowsOf(accounts, lines), Keys(lines);
    KeysCover(lines);
    if id in keys {
      var i :| 0 <= i < |keys| && keys[i] == id;
      assert rows[i] in rows && rows[i].account == id;
    }
    forall r | r in rows ensures r == RowFor(accounts, lines, r.account) && r.account in keys {
      var i :| 0 <= i < |rows| && rows[i] == r;
    }
    forall a | a in accounts && a.id == id ensures Find(accounts, id) == Some(a) { FindIsThe(accounts, a); }
  }

  // ---------- The services ----------

  /** Map<string, number pair>; a missing key counts as zeroes. */
  function At(m: map<string, (int, int)>, id: string): (int, int) {
    if id in m then m[id] else (0, 0)
  }

  function TotalFrom(accounts: seq<Account>, kind: AccountType, m: map<string, (int, int)>): int {
    if accounts == [] then 0
    else
      var a := accounts[0];
      (if a.active && a.kind == kind then Signed(kind, At(m, a.id).0, At(m, a.id).1) else 0)
      + TotalFrom(accounts[1..], kind, m)
  }

  lemma {:induction false} TotalFromIsListed(accounts: seq<Account>, kind: AccountType, m: map<string, (int, int)>,
                                             lines: seq<Line>)
    requires forall a | a in accounts && a.active && a.kind == kind ::
      At(m, a.id) == (DebitOf(lines, a.id), CreditOf(lines, a.id))
    ensures TotalFrom(accounts, kind, m) == ListedTotal(accounts, kind, lines)
  {
    if accounts != [] {
      assert accounts[0] in accounts;
      TotalFromIsListed(accounts[1..], kind, m, lines);
    }
  }

  predicate IsListed(accounts: seq<Account>, id: string) {
    exists a | a in accounts :: a.id == id && a.active && (a.kind == REVENUE || a.kind == EXPENSE)
  }

  /** The profit-and-loss query only fetches the lines of active revenue and expense accounts. */
  function ListedLines(accounts: seq<Account>, lines: seq<Line>): seq<Line> {
    if lines == [] then []
    else
      var l := lines[|lines| - 1];
      ListedLines(accounts, lines[..|lines| - 1]) + if IsListed(accounts, l.account) then [l] else []
  }

  lemma {:induction false} ListedLinesKeep(accounts: seq<Account>, lines: seq<Line>, a: string)
    requires IsListed(accounts, a)
    ensures DebitOf(ListedLines(accounts, lines), a) == DebitOf(lines, a)
    ensures CreditOf(ListedLines(accounts, lines), a) == CreditOf(lines, a)
  {
    if lines != [] {
      var n := |lines| - 1;
      ListedLinesKeep(accounts, lines[..n], a);
      var tail := if IsListed(accounts, lines[n].account) then [lines[n]] else [];
      SumsAppend(ListedLines(accounts, lines[..n]), tail, a);
      assert [lines[n]][..0] == [];
    }
  }

  /** Sum over the active accounts of a type of their trial-balance row, 0 without one. */
  function TotalFromRows(accounts: seq<Account>, kind: AccountType, rows: seq<BalanceRow>): int {
    if accounts == [] then 0
    else
      var a := accounts[0];
      (if a.active && a.kind == kind then BalanceIn(rows, a.id) else 0) + TotalFromRows(accounts[1..], kind, rows)
  }

  function BalanceIn(rows: seq<BalanceRow>, id: string): int {
    if rows == [] then 0
    else if rows[0].account == id then rows[0].balance
    else BalanceIn(rows[1..], id)
  }

  lemma {:induction false} BalanceInRows(accounts: seq<Account>, lines: seq<Line>, keys: seq<string>, id: string)
    ensures BalanceIn(RowsFor(accounts, lines, keys), id) ==
      if id in keys then RowFor(accounts, lines, id).balance else 0
  {
    if keys != [] {
      assert RowsFor(accounts, lines, keys)[1..] == RowsFor(accounts, lines, keys[1..]);
      BalanceInRows(accounts, lines, keys[1..], id);
    }
  }

  lemma {:induction false} FindDistinct(accounts: seq<Account>, i: nat)
    requires DistinctAccounts(accounts) && i < |accounts|
    ensures Find(accounts, accounts[i].id) == Some(accounts[i])
  {
    if i > 0 {
      assert accounts[0].id != accounts[i].id;
      FindDistinct(accounts[1..], i - 1);
    }
  }

  /** Looking balances up in the trial balance gives each listed account its own balance. */
  lemma {:induction false} RowsGiveListedTotal(all: seq<Account>, n: nat, kind: AccountType, lines: seq<Line>)
    requires DistinctAccounts(all) && n <= |all|
    ensures TotalFromRows(all[n..], kind, RowsOf(all, lines)) == ListedTotal(all[n..], kind, lines)
    decreases |all| - n
  {
    if n < |all| {
      var a := all[n];
      RowsGiveListedTotal(all, n + 1, kind, lines);
      assert all[n..][1..] == all[n + 1..];
      FindDistinct(all, n);
      BalanceInRows(all, lines, Keys(lines), a.id);
      KeysCover(lines);
      if a.id !in Keys(lines) { AbsentIsZero(lines, a.id); }
    }
  }

  /** The lines of one account, as getAccountBalance fetches them. */
  function LinesOf(lines: seq<Line>, id: string): seq<Line> {
    if lines == [] then []
    else
      var l := lines[|lines| - 1];
      LinesOf(lines[..|lines| - 1], id) + if l.account == id then [l] else []
  }

  lemma {:induction false} LinesOfTotals(lines: seq<Line>, id: string)
    ensures SumDebit(LinesOf(lines, id)) == DebitOf(lines, id)
    ensures SumCredit(LinesOf(lines, id)) == CreditOf(lines, id)
  {
    if lines != [] {
      var n := |lines| - 1;
      LinesOfTotals(lines[..n], id);
      var tail := if lines[n].account == id then [lines[n]] else [];
      SumsAppend(LinesOf(lines[..n], id), tail, id);
      assert [lines[n]][..0] == [];
    }
  }

  /** getAccountBalance is the account's row of the undated trial balance, and zero for an
      account without posted lines. */
  lemma AccountBalanceIsItsRow(accounts: seq<Account>, lines: seq<Line>, id: string)
    ensures var kind, mine := KindOf(accounts, id), LinesOf(lines, id);
      Signed(kind, SumDebit(mine), SumCredit(mine)) == BalanceIn(RowsOf(accounts, lines), id)
  {
    LinesOfTotals(lines, id);
    BalanceInRows(accounts, lines, Keys(lines), id);
    KeysCover(lines);
    if id !in Keys(lines) { AbsentIsZero(lines, id); }
  }

  class ReportsService {
    var accounts: seq<Account>
    var entries: seq<Entry>

    constructor (accounts: seq<Account>, entries: seq<Entry>)
      ensures this.accounts == accounts && this.entries == entries
    {
      this.accounts, this.entries := accounts, entries;
    }

    /** The grouping loop; the three services share it. */
    method GroupByAccount(lines: seq<Line>) returns (order: seq<string>, m: map<string, (int, int)>)
      ensures order == Keys(lines) && m.Keys == set a | a in order
      ensures forall a :: At(m, a) == (DebitOf(lines, a), CreditOf(lines, a))
    {
      order, m := [], map[];
      for i := 0 to |lines|
        invariant order == Keys(lines[..i]) && m.Keys == set a | a in order
        invariant forall a :: At(m, a) == (DebitOf(lines[..i], a), CreditOf(lines[..i], a))
      {
        var key := lines[i].account;
        assert lines[..i + 1][..i] == lines[..i];
        ghost var before := m;
        assert At(before, key) == (DebitOf(lines[..i], key), CreditOf(lines[..i], key));
        if key !in m {
          order := order + [key];
          m := m[key := (0, 0)];
        }
        m := m[key := (m[key].0 + lines[i].debit, m[key].1 + lines[i].credit)];
        forall a ensures At(m, a) == (DebitOf(lines[..i + 1], a), CreditOf(lines[..i + 1], a)) {
          assert At(before, a) == (DebitOf(lines[..i], a), CreditOf(lines[..i], a));
        }
      }
      assert lines[..|lines|] == lines;
    }

    method GetTrialBalance(asOf: Option<int>) returns (rows: seq<BalanceRow>, totalDebit: int, totalCredit: int)
      ensures rows == RowsOf(accounts, PostedLines(entries, Window(None, asOf)))
      ensures totalDebit == SumDebit(PostedLines(entries, Window(None, asOf)))
      ensures totalCredit == SumCredit(PostedLines(entries, Window(None, asOf)))
    {
      var lines := PostedLines(entries, Window(None, asOf));
      var order, m := GroupByAccount(lines);
      rows, totalDebit, totalCredit := [], 0, 0;
      for i := 0 to |order|
        invariant rows == RowsFor(accounts, lines, order[..i])
        invariant totalDebit == RowDebits(rows) && totalCredit == RowCredits(rows)
      {
        var id := order[i];
        assert id in m && At(m, id) == (DebitOf(lines, id), CreditOf(lines, id));
        var next := rows + [BalanceRow(id, m[id].0, m[id].1, Signed(KindOf(accounts, id), m[id].0, m[id].1))];
        assert next[..|rows|] == rows;
        rows := next;
        totalDebit, totalCredit := totalDebit + m[id].0, totalCredit + m[id].1;
      }
      assert order[..|order|] == order;
      RowsRegroupLines(accounts, lines);
    }

    method GetAccountBalance(id: string) returns (r: Result<BalanceRow>)
      ensures r == if Find(accounts, id).None? then Failure(NotFound)
        else Success(RowFor(accounts, PostedLines(entries, ALL), id))
    {
      var found := Find(accounts, id);
      if found.None? {
        return Failure(NotFound);
      }
      var mine := LinesOf(PostedLines(entries, ALL), id);
      var totalDebit, totalCredit := 0, 0;
      for i := 0 to |mine|
        invariant totalDebit == SumDebit(mine[..i]) && totalCredit == SumCredit(mine[..i])
      {
        assert mine[..i + 1][..i] == mine[..i];
        totalDebit, totalCredit := totalDebit + mine[i].debit, totalCredit + mine[i].credit;
      }
      assert mine[..|mine|] == mine;
      LinesOfTotals(PostedLines(entries, ALL), id);
      r := Success(BalanceRow(id, totalDebit, totalCredit, Signed(found.value.kind, totalDebit, totalCredit)));
    }

    /** reports.service: with both dates given, dateTo overwrites dateFrom. */
    method GetProfitAndLoss(from: Option<int>, to: Option<int>) returns (netProfit: int)
      ensures netProfit == NetProfit(accounts, PostedLines(entries, OverwrittenWindow(from, to)))
    {
      netProfit := ProfitIn(OverwrittenWindow(from, to));
    }

    /** finance-reports.service: both bounds are kept. */
    method GetFinanceProfitAndLoss(from: Option<int>, to: Option<int>) returns (netProfit: int)
      ensures netProfit == NetProfit(accounts, PostedLines(entries, Window(from, to)))
    {
      netProfit := ProfitIn(Window(from, to));
    }

    method ProfitIn(w: Window) returns (netProfit: int)
      ensures netProfit == NetProfit(accounts, PostedLines(entries, w))
    {
      ghost var all := PostedLines(entries, w);
      var order, m := GroupByAccount(ListedLines(accounts, PostedLines(entries, w)));
      forall a | a in accounts && IsListed(accounts, a.id)
        ensures At(m, a.id) == (DebitOf(all, a.id), CreditOf(all, a.id))
      {
        ListedLinesKeep(accounts, all, a.id);
      }
      TotalFromIsListed(accounts, REVENUE, m, all);
      TotalFromIsListed(accounts, EXPENSE, m, all);
      netProfit := TotalFrom(accounts, REVENUE, m) - TotalFrom(accounts, EXPENSE, m);
    }

    method GetBalanceSheet(asOf: Option<int>) returns (sheet: BalanceSheet)
      requires DistinctAccounts(accounts)
      ensures sheet == SheetOf(accounts, PostedLines(entries, Window(None, asOf)))
    {
      var rows, d, c := GetTrialBalance(asOf);
      var netIncome := GetProfitAndLoss(None, asOf);
      assert accounts[0..] == accounts;
      ghost var lines := PostedLines(entries, Window(None, asOf));
      RowsGiveListedTotal(accounts, 0, ASSET, lines);
      RowsGiveListedTotal(accounts, 0, LIABILITY, lines);
      RowsGiveListedTotal(accounts, 0, EQUITY, lines);
      var assets := TotalFromRows(accounts, ASSET, rows);
      var liabilities := TotalFromRows(accounts, LIABILITY, rows);
      var equity := TotalFromRows(accounts, EQUITY, rows);
      sheet := BalanceSheet(assets, liabilities, equity, netIncome, liabilities + equity + netIncome);
    }
  }
}
