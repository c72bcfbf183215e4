/** Double-entry bookkeeping: accounts and journal entries
    (src/accounting/chart-of-accounts/chart-of-accounts.service.ts,
     src/accounting/journal-entries/journal-entries.service.ts). */
module Accounting {
  import opened Results

  datatype AccountType = ASSET | LIABILITY | EQUITY | REVENUE | EXPENSE

  datatype Account = Account(id: string, code: string, kind: AccountType, parent: Option<string>,
                             isSystem: bool, active: bool)

  datatype Line = Line(account: string, debit: int, credit: int)

  datatype EntryStatus = DRAFT | POSTED | REVERSED

  /** reverses is the entry a reversal was made for; entries are numbered in creation order. */
  datatype Entry = Entry(status: EntryStatus, date: int, lines: seq<Line>, reverses: Option<nat>)

  datatype Books = Books(accounts: seq<Account>, entries: seq<Entry>)

  datatype Call =
    | CreateEntry(date: int, lines: seq<Line>)
    | Post(entry: nat)
    | Reverse(entry: nat, now: int)
    | CreateAccount(account: Account)
    | UpdateAccount(id: string, newCode: Option<string>, newKind: Option<AccountType>,
                    newParent: Option<string>, newActive: Option<bool>)
    | DeleteAccount(id: string)

  datatype Answer = Answer(result: Result<()>, books: Books)

  // ---------- Sums over lines ----------

  function SumDebit(lines: seq<Line>): int {
    if lines == [] then 0 else SumDebit(lines[..|lines| - 1]) + lines[|lines| - 1].debit
  }

  function SumCredit(lines: seq<Line>): int {
    if lines == [] then 0 else SumCredit(lines[..|lines| - 1]) + lines[|lines| - 1].credit
  }

  function DebitOf(lines: seq<Line>, a: string): int {
    if lines == [] then 0
    else
      var l := lines[|lines| - 1];
      DebitOf(lines[..|lines| - 1], a) + if l.account == a then l.debit else 0
  }

  function CreditOf(lines: seq<Line>, a: string): int {
    if lines == [] then 0
    else
      var l := lines[|lines| - 1];
      CreditOf(lines[..|lines| - 1], a) + if l.account == a then l.credit else 0
  }

  function Net(lines: seq<Line>, a: string): int { DebitOf(lines, a) - CreditOf(lines, a) }

  lemma {:induction false} SumsAppend(xs: seq<Line>, ys: seq<Line>, a: string)
    ensures SumDebit(xs + ys) == SumDebit(xs) + SumDebit(ys)
    ensures SumCredit(xs + ys) == SumCredit(xs) + SumCredit(ys)
    ensures DebitOf(xs + ys, a) == DebitOf(xs, a) + DebitOf(ys, a)
    ensures CreditOf(xs + ys, a) == CreditOf(xs, a) + CreditOf(ys, a)
    decreases |ys|
  {
    if ys == [] {
      assert xs + ys == xs;
    } else {
      assert (xs + ys)[..|xs + ys| - 1] == xs + ys[..|ys| - 1];
      SumsAppend(xs, ys[..|ys| - 1], a);
    }
  }

  // ---------- Service calls ----------

  function Swapped(lines: seq<Line>): seq<Line> {
    seq(|lines|, i requires 0 <= i < |lines| => Line(lines[i].account, lines[i].credit, lines[i].debit))
  }

  predicate WellFormedLines(lines: seq<Line>) {
    && SumDebit(lines) == SumCredit(lines)
    && (exists l | l in lines :: l.debit != 0 || l.credit != 0)
    && forall l | l in lines :: !(l.debit > 0 && l.credit > 0)
  }

  function Find(accounts: seq<Account>, id: string): Option<Account> {
    if accounts == [] then None
    else if accounts[0].id == id then Some(accounts[0])
    else Find(accounts[1..], id)
  }

  predicate HasCode(accounts: seq<Account>, code: string, except: string) {
    exists a | a in accounts :: a.code == code && a.id != except
  }

  /** The first unusable account decides the error. */
  function CheckAccounts(accounts: seq<Account>, lines: seq<Line>): Result<()> {
    if lines == [] then Success(())
    else
      match Find(accounts, lines[0].account)
      case None => Failure(NotFound)
      case Some(a) => if !a.active then Failure(BadRequest) else CheckAccounts(accounts, lines[1..])
  }

  predicate HasLines(entries: seq<Entry>, account: string) {
    exists e | e in entries :: exists l | l in e.lines :: l.account == account
  }

  function Replaced(accounts: seq<Account>, a: Account): seq<Account> {
    seq(|accounts|, i requires 0 <= i < |accounts| => if accounts[i].id == a.id then a else accounts[i])
  }

  function Without(accounts: seq<Account>, id: string): seq<Account> {
    if accounts == [] then []
    else if accounts[0].id == id then Without(accounts[1..], id)
    else [accounts[0]] + Without(accounts[1..], id)
  }

  function Edited(a: Account, code: Option<string>, kind: Option<AccountType>, parent: Option<string>,
                  active: Option<bool>): Account {
    Account(a.id, if code.Some? then code.value else a.code, if kind.Some? then kind.value else a.kind,
            if parent.Some? then parent else a.parent, a.isSystem, if active.Some? then active.value else a.active)
  }

  function Step(b: Books, c: Call): Answer {
    match c
    case CreateEntry(date, lines) =>
      if !WellFormedLines(lines) then Answer(Failure(BadRequest), b)
      else
        (match CheckAccounts(b.accounts, lines)
         case Failure(e) => Answer(Failure(e), b)
         case Success(_) => Answer(Success(()), b.(entries := b.entries + [Entry(DRAFT, date, lines, None)])))
    case Post(i) =>
      if i >= |b.entries| then Answer(Failure(NotFound), b)
      else if b.entries[i].status != DRAFT then Answer(Failure(BadRequest), b)
      else Answer(Success(()), b.(entries := b.entries[i := b.entries[i].(status := POSTED)]))
    case Reverse(i, now) =>
      if i >= |b.entries| then Answer(Failure(NotFound), b)
      else if b.entries[i].status != POSTED then Answer(Failure(BadRequest), b)
      else Answer(Success(()), b.(entries := Reversal(b.entries, i, now)))
    case CreateAccount(a) =>
      if HasCode(b.accounts, a.code, a.id) then Answer(Failure(Conflict), b)
      else if a.parent.Some? && Find(b.accounts, a.parent.value).None? then Answer(Failure(NotFound), b)
      else Answer(Success(()), b.(accounts := b.accounts + [a]))
    case UpdateAccount(id, code, kind, parent, active) =>
      (match Find(b.accounts, id)
       case None => Answer(Failure(NotFound), b)
       case Some(a) =>
         if code.Some? && HasCode(b.accounts, code.value, id) then Answer(Failure(Conflict), b)
         else if parent == Some(id) then Answer(Failure(BadRequest), b)
         else if parent.Some? && Find(b.accounts, parent.value).None? then Answer(Failure(NotFound), b)
         else Answer(Success(()), b.(accounts := Replaced(b.accounts, Edited(a, code, kind, parent, active)))))
    case DeleteAccount(id) =>
      (match Find(b.accounts, id)
       case None => Answer(Failure(NotFound), b)
       case Some(a) =>
         if a.isSystem then Answer(Failure(BadRequest), b)
         else if exists c | c in b.accounts :: c.parent == Some(id) then Answer(Failure(BadRequest), b)
         else if HasLines(b.entries, id)
           then Answer(Success(()), b.(accounts := Replaced(b.accounts, a.(active := false))))
         else Answer(Success(()), b.(accounts := Without(b.accounts, id))))
  }

  function Reversal(entries: seq<Entry>, i: nat, now: int): seq<Entry>
    requires i < |entries|
  {
    entries[i := entries[i].(status := REVERSED)] + [Entry(POSTED, now, Swapped(entries[i].lines), Some(i))]
  }

  predicate Legal(b: Books, c: Call) {
    c.CreateAccount? ==> Find(b.accounts, c.account.id).None?
  }

  // ---------- What every run keeps ----------

  predicate EntrySound(accounts: seq<Account>, entries: seq<Entry>, i: nat)
    requires i < |entries|
  {
    var e := entries[i];
    && SumDebit(e.lines) == SumCredit(e.lines)
    && (forall l | l in e.lines :: Find(accounts, l.account).Some?)
    && (e.reverses.Some? ==> e.reverses.value < i && e.status != DRAFT)
  }

  predicate DistinctAccounts(accounts: seq<Account>) {
    forall i, j | 0 <= i < j < |accounts| :: accounts[i].id != accounts[j].id
  }

  predicate Valid(b: Books) {
    DistinctAccounts(b.accounts) && forall i: nat | i < |b.entries| :: EntrySound(b.accounts, b.entries, i)
  }

  lemma {:induction false} SwappedSums(lines: seq<Line>, a: string)
    ensures SumDebit(Swapped(lines)) == SumCredit(lines) && SumCredit(Swapped(lines)) == SumDebit(lines)
    ensures DebitOf(Swapped(lines), a) == CreditOf(lines, a) && CreditOf(Swapped(lines), a) == DebitOf(lines, a)
    ensures forall l | l in Swapped(lines) :: exists k | k in lines :: k.account == l.account
  {
    if lines != [] {
      var rest := lines[..|lines| - 1];
      assert Swapped(lines)[..|lines| - 1] == Swapped(rest);
      SwappedSums(rest, a);
    }
    forall l | l in Swapped(lines) ensures exists k | k in lines :: k.account == l.account {
      var i :| 0 <= i < |lines| && l == Swapped(lines)[i];
      assert lines[i] in lines;
    }
  }

  lemma {:induction false} FindAppended(accounts: seq<Account>, a: Account, id: string)
    ensures Find(accounts + [a], id) ==
      if Find(accounts, id).Some? then Find(accounts, id) else if a.id == id then Some(a) else None
  {
    if accounts != [] {
      assert (accounts + [a])[1..] == accounts[1..] + [a];
      FindAppended(accounts[1..], a, id);
    }
  }

  lemma {:induction false} FindReplaced(accounts: seq<Account>, a: Account, id: string)
    ensures Find(Replaced(accounts, a), id).Some? == Find(accounts, id).Some?
  {
    if accounts != [] {
      assert Replaced(accounts, a)[1..] == Replaced(accounts[1..], a);
      FindReplaced(accounts[1..], a, id);
    }
  }

  lemma {:induction false} FindWithout(accounts: seq<Account>, gone: string, id: string)
    ensures Find(Without(accounts, gone), id) == if id == gone then None else Find(accounts, id)
  {
    if accounts != [] { FindWithout(accounts[1..], gone, id); }
  }

  lemma {:induction false} FindMember(accounts: seq<Account>, id: string)
    ensures Find(accounts, id).Some? ==> Find(accounts, id).value in accounts && Find(accounts, id).value.id == id
    ensures Find(accounts, id).None? ==> forall a | a in accounts :: a.id != id
  {
    if accounts != [] && accounts[0].id != id { FindMember(accounts[1..], id); }
  }

  lemma {:induction false} WithoutDistinct(accounts: seq<Account>, id: string)
    requires DistinctAccounts(accounts)
    ensures DistinctAccounts(Without(accounts, id))
    ensures forall a | a in Without(accounts, id) :: a in accounts
  {
    if accounts != [] {
      WithoutDistinct(accounts[1..], id);
      forall a | a in Without(accounts[1..], id) ensures a.id != accounts[0].id {
        var j :| 0 <= j < |accounts[1..]| && accounts[1..][j] == a;
        assert accounts[j + 1] == a;
      }
    }
  }

  lemma {:induction false} CheckedAccountsExist(accounts: seq<Account>, lines: seq<Line>)
    requires CheckAccounts(accounts, lines).Success?
    ensures forall l | l in lines :: Find(accounts, l.account).Some?
  {
    if lines != [] {
      CheckedAccountsExist(accounts, lines[1..]);
      assert lines == [lines[0]] + lines[1..];
    }
  }

  lemma StepEntriesValid(b: Books, c: Call)
    requires Valid(b) && (c.CreateEntry? || c.Post? || c.Reverse?)
    ensures Valid(Step(b, c).books)
  {
    var b' := Step(b, c).books;
    if c.CreateEntry? && Step(b, c).result.Success? {
      CheckedAccountsExist(b.accounts, c.lines);
    }
    forall i: nat | i < |b'.entries| ensures EntrySound(b'.accounts, b'.entries, i) {
      if i < |b.entries| { assert EntrySound(b.accounts, b.entries, i); }
      if c.Reverse? && i == |b.entries| {
        assert EntrySound(b.accounts, b.entries, c.entry);
        SwappedSums(b.entries[c.entry].lines, "");
      }
    }
  }

  lemma StepAccountsValid(b: Books, c: Call)
    requires Valid(b) && Legal(b, c) && !(c.CreateEntry? || c.Post? || c.Reverse?)
    ensures Valid(Step(b, c).books)
  {
    var b' := Step(b, c).books;
    if c.CreateAccount? {
      FindMember(b.accounts, c.account.id);
    } else {
      FindMember(b.accounts, c.id);
      WithoutDistinct(b.accounts, c.id);
    }
    forall i: nat | i < |b'.entries| ensures EntrySound(b'.accounts, b'.entries, i) {
      assert EntrySound(b.accounts, b.entries, i);
      forall l | l in b.entries[i].lines ensures Find(b'.accounts, l.account).Some? {
        match c
        case CreateAccount(a) => FindAppended(b.accounts, a, l.account);
        case UpdateAccount(id, code, kind, parent, active) =>
          if Find(b.accounts, id).Some? {
            FindReplaced(b.accounts, Edited(Find(b.accounts, id).value, code, kind, parent, active), l.account);
          }
        case DeleteAccount(id) =>
          assert b.entries[i] in b.entries;
          assert l.account == id ==> HasLines(b.entries, id);
          FindWithout(b.accounts, id, l.account);
          if Find(b.accounts, id).Some? {
            FindReplaced(b.accounts, Find(b.accounts, id).value.(active := false), l.account);
          }
        case _ =>
      }
    }
  }

  function Run(b: Books, calls: seq<Call>): Books
    decreases |calls|
  {
    if calls == [] then b else Run(Step(b, calls[0]).books, calls[1..])
  }

  predicate LegalRun(b: Books, calls: seq<Call>)
    decreases |calls|
  {
    calls == [] || (Legal(b, calls[0]) && LegalRun(Step(b, calls[0]).books, calls[1..]))
  }

  /** In every run every entry, reversals of reversals included, stays balanced and on
      accounts that exist. */
  lemma {:induction false} RunValid(b: Books, calls: seq<Call>)
    requires Valid(b) && LegalRun(b, calls)
    ensures Valid(Run(b, calls))
    decreases |calls|
  {
    if calls != [] {
      var c := calls[0];
      if c.CreateEntry? || c.Post? || c.Reverse? { StepEntriesValid(b, c); } else { StepAccountsValid(b, c); }
      RunValid(Step(b, c).books, calls[1..]);
    }
  }

  // ---------- What reverse does to the balances ----------

  /** Net of an account over the POSTED entries, and over the REVERSED ones too if asked. */
  function NetOver(entries: seq<Entry>, withReversed: bool, a: string): int {
    if entries == [] then 0
    else NetOver(entries[..|entries| - 1], withReversed, a) + Counted(entries[|entries| - 1], withReversed, a)
  }

  function Counted(e: Entry, withReversed: bool, a: string): int {
    if e.status == POSTED || (withReversed && e.status == REVERSED) then Net(e.lines, a) else 0
  }

  lemma {:induction false} NetOverReplaced(entries: seq<Entry>, i: nat, e: Entry, withReversed: bool, a: string)
    requires i < |entries|
    ensures NetOver(entries[i := e], withReversed, a) ==
      NetOver(entries, withReversed, a) - Counted(entries[i], withReversed, a) + Counted(e, withReversed, a)
  {
    var n := |entries| - 1;
    if i == n {
      assert entries[i := e][..n] == entries[..n];
    } else {
      assert entries[i := e][..n] == entries[..n][i := e];
      NetOverReplaced(entries[..n], i, e, withReversed, a);
    }
  }

  lemma NetOverAppended(entries: seq<Entry>, e: Entry, withReversed: bool, a: string)
    ensures NetOver(entries + [e], withReversed, a) == NetOver(entries, withReversed, a) + Counted(e, withReversed, a)
  {
    assert (entries + [e])[..|entries|] == entries;
  }

  lemma NetOverReversal(entries: seq<Entry>, i: nat, now: int, withReversed: bool, a: string)
    requires i < |entries| && entries[i].status == POSTED
    ensures NetOver(Reversal(entries, i, now), withReversed, a) ==
      NetOver(entries, withReversed, a) - (if withReversed then 1 else 2) * Net(entries[i].lines, a)
  {
    var e := entries[i];
    SwappedSums(e.lines, a);
    NetOverReplaced(entries, i, e.(status := REVERSED), withReversed, a);
    NetOverAppended(entries[i := e.(status := REVERSED)], Entry(POSTED, now, Swapped(e.lines), Some(i)),
      withReversed, a);
  }

  /** Reversing an entry takes it out of the POSTED-plus-REVERSED net of every account,
      but moves the POSTED-only net, which the reports read, by minus twice the entry. */
  lemma ReverseMovesNets(b: Books, i: nat, now: int, a: string)
    requires i < |b.entries| && b.entries[i].status == POSTED
    ensures var b' := Step(b, Reverse(i, now)).books;
      var net := Net(b.entries[i].lines, a);
      && NetOver(b'.entries, true, a) == NetOver(b.entries, true, a) - net
      && NetOver(b'.entries, false, a) == NetOver(b.entries, false, a) - 2 * net
  {
    NetOverReversal(b.entries, i, now, true, a);
    NetOverReversal(b.entries, i, now, false, a);
  }

  /** Hence the posted balances come back to what they were before the entry was posted
      exactly on the accounts the entry does not move. */
  lemma PostThenReverseRestoresIffNoNet(b: Books, i: nat, now: int, a: string)
    requires i < |b.entries| && b.entries[i].status == DRAFT
    ensures var b' := Step(Step(b, Post(i)).books, Reverse(i, now)).books;
      && NetOver(b'.entries, true, a) == NetOver(b.entries, true, a)
      && (NetOver(b'.entries, false, a) == NetOver(b.entries, false, a) <==> Net(b.entries[i].lines, a) == 0)
  {
    var posted := Step(b, Post(i)).books;
    NetOverReplaced(b.entries, i, b.entries[i].(status := POSTED), true, a);
    NetOverReplaced(b.entries, i, b.entries[i].(status := POSTED), false, a);
    ReverseMovesNets(posted, i, now, a);
  }

  /** How many reversals an entry is away from one a user made. */
  function Depth(entries: seq<Entry>, i: nat): nat
    requires i < |entries|
  {
    match entries[i].reverses
    case None => 0
    case Some(j) => if j < i then 1 + Depth(entries, j) else 0
  }

  /** Net of the entries that still stand: posted, and reversed an even number of times. */
  function StandingNet(entries: seq<Entry>, n: nat, a: string): int
    requires n <= |entries|
  {
    if n == 0 then 0
    else StandingNet(entries, n - 1, a) + Standing(entries, n - 1, a)
  }

  function Standing(entries: seq<Entry>, i: nat, a: string): int
    requires i < |entries|
  {
    if entries[i].status == POSTED && Depth(entries, i) % 2 == 0 then Net(entries[i].lines, a) else 0
  }

  predicate SameOrigins(xs: seq<Entry>, ys: seq<Entry>) {
    |xs| <= |ys| && forall i | 0 <= i < |xs| :: ys[i].reverses == xs[i].reverses
  }

  lemma {:induction false} DepthKept(xs: seq<Entry>, ys: seq<Entry>, i: nat)
    requires SameOrigins(xs, ys) && i < |xs|
    ensures Depth(ys, i) == Depth(xs, i)
    decreases i
  {
    if xs[i].reverses.Some? && xs[i].reverses.value < i { DepthKept(xs, ys, xs[i].reverses.value); }
  }

  lemma {:induction false} StandingNetKept(xs: seq<Entry>, ys: seq<Entry>, n: nat, i: nat, a: string)
    requires SameOrigins(xs, ys) && n <= |xs| && i < |xs|
    requires forall j | 0 <= j < |xs| && j != i :: ys[j] == xs[j]
    ensures StandingNet(ys, n, a) ==
      StandingNet(xs, n, a) + if i < n then Standing(ys, i, a) - Standing(xs, i, a) else 0
    decreases n
  {
    if n > 0 {
      StandingNetKept(xs, ys, n - 1, i, a);
      DepthKept(xs, ys, n - 1);
    }
  }

  predicate HistoryStands(b: Books, a: string) {
    NetOver(b.entries, true, a) == StandingNet(b.entries, |b.entries|, a)
  }

  /** The reversed entry no longer stands, and its reversal stands if it did not. */
  lemma ReversalStanding(b: Books, i: nat, now: int, a: string)
    requires Valid(b) && i < |b.entries| && b.entries[i].status == POSTED
    ensures var xs, ys, n := b.entries, Reversal(b.entries, i, now), |b.entries|;
      Standing(ys, n, a) + Standing(ys, i, a) == Standing(xs, i, a) - Net(xs[i].lines, a)
  {
    var xs, ys, n := b.entries, Reversal(b.entries, i, now), |b.entries|;
    DepthKept(xs, ys, i);
    SwappedSums(xs[i].lines, a);
    assert Depth(ys, n) == 1 + Depth(xs, i);
  }

  lemma ReverseStands(b: Books, i: nat, now: int, a: string)
    requires Valid(b) && HistoryStands(b, a)
    requires i < |b.entries| && b.entries[i].status == POSTED
    ensures HistoryStands(b.(entries := Reversal(b.entries, i, now)), a)
  {
    var xs, ys, n := b.entries, Reversal(b.entries, i, now), |b.entries|;
    StandingNetKept(xs, ys, n, i, a);
    ReversalStanding(b, i, now, a);
    NetOverReversal(xs, i, now, true, a);
    assert StandingNet(ys, n + 1, a) == StandingNet(ys, n, a) + Standing(ys, n, a);
  }

  lemma CreateStands(b: Books, date: int, lines: seq<Line>, a: string)
    requires HistoryStands(b, a)
    ensures HistoryStands(b.(entries := b.entries + [Entry(DRAFT, date, lines, None)]), a)
  {
    var xs, n := b.entries, |b.entries|;
    var ys := xs + [Entry(DRAFT, date, lines, None)];
    NetOverAppended(xs, ys[n], true, a);
    if n > 0 {
      StandingNetKept(xs, ys, n, 0, a);
      DepthKept(xs, ys, 0);
    }
  }

  lemma PostStands(b: Books, i: nat, a: string)
    requires Valid(b) && HistoryStands(b, a)
    requires i < |b.entries| && b.entries[i].status == DRAFT
    ensures HistoryStands(b.(entries := b.entries[i := b.entries[i].(status := POSTED)]), a)
  {
    var xs := b.entries;
    var ys := xs[i := xs[i].(status := POSTED)];
    assert EntrySound(b.accounts, xs, i);
    NetOverReplaced(xs, i, ys[i], true, a);
    StandingNetKept(xs, ys, |xs|, i, a);
    DepthKept(xs, ys, i);
  }

  lemma StepStands(b: Books, c: Call, a: string)
    requires Valid(b) && HistoryStands(b, a)
    ensures HistoryStands(Step(b, c).books, a)
  {
    match c
    case CreateEntry(date, lines) => CreateStands(b, date, lines, a);
    case Post(i) => if i < |b.entries| && b.entries[i].status == DRAFT { PostStands(b, i, a); }
    case Reverse(i, now) => if i < |b.entries| && b.entries[i].status == POSTED { ReverseStands(b, i, now, a); }
    case _ => assert Step(b, c).books.entries == b.entries;
  }

  /** In every run, the net of an account over everything ever posted is the net of the
      posted entries that no odd number of reversals has undone. */
  lemma {:induction false} RunStands(b: Books, calls: seq<Call>, a: string)
    requires Valid(b) && LegalRun(b, calls) && HistoryStands(b, a)
    ensures HistoryStands(Run(b, calls), a)
    decreases |calls|
  {
    if calls != [] {
      var c := calls[0];
      if c.CreateEntry? || c.Post? || c.Reverse? { StepEntriesValid(b, c); } else { StepAccountsValid(b, c); }
      StepStands(b, c, a);
      RunStands(Step(b, c).books, calls[1..], a);
    }
  }

  lemma FreshBooksValid(a: string)
    ensures Valid(Books([], [])) && HistoryStands(Books([], []), a)
  {
  }

  // ---------- What each call does ----------

  /** The accounts and all entries but entry i are as they were. */
  predicate OnlyEntry(b: Books, t: Books, i: nat) {
    && t.accounts == b.accounts && |b.entries| <= |t.entries|
    && forall j | 0 <= j < |b.entries| && j != i :: t.entries[j] == b.entries[j]
  }

  predicate Usable(accounts: seq<Account>, id: string) { exists a | a in accounts :: a.id == id && a.active }

  /** Double entry: debits equal credits, something is booked, no line is on both sides. */
  predicate DoubleEntry(lines: seq<Line>) {
    && SumDebit(lines) == SumCredit(lines)
    && (exists i | 0 <= i < |lines| :: lines[i].debit != 0 || lines[i].credit != 0)
    && forall i | 0 <= i < |lines| :: lines[i].debit <= 0 || lines[i].credit <= 0
  }

  lemma FindIsThe(accounts: seq<Account>, a: Account)
    requires DistinctAccounts(accounts) && a in accounts
    ensures Find(accounts, a.id) == Some(a)
  {
    FindMember(accounts, a.id);
    var i :| 0 <= i < |accounts| && accounts[i] == a;
    var j :| 0 <= j < |accounts| && accounts[j] == Find(accounts, a.id).value;
    assert i == j;
  }

  lemma UsableIff(accounts: seq<Account>, id: string)
    requires DistinctAccounts(accounts)
    ensures Usable(accounts, id) <==> Find(accounts, id).Some? && Find(accounts, id).value.active
  {
    FindMember(accounts, id);
    forall a | a in accounts && a.id == id ensures Find(accounts, id) == Some(a) { FindIsThe(accounts, a); }
  }

  lemma {:induction false} CheckAccountsIff(accounts: seq<Account>, lines: seq<Line>)
    requires DistinctAccounts(accounts)
    ensures CheckAccounts(accounts, lines).Success? <==> forall l | l in lines :: Usable(accounts, l.account)
  {
    if lines != [] {
      UsableIff(accounts, lines[0].account);
      CheckAccountsIff(accounts, lines[1..]);
      assert lines == [lines[0]] + lines[1..];
    }
  }

  lemma WellFormedIffDoubleEntry(lines: seq<Line>)
    ensures WellFormedLines(lines) <==> DoubleEntry(lines)
  {
    if WellFormedLines(lines) {
      var l :| l in lines && (l.debit != 0 || l.credit != 0);
      var i :| 0 <= i < |lines| && lines[i] == l;
    }
  }

  /** create adds one draft with exactly the date and lines it was given. */
  lemma CreateEntryEffect(b: Books, date: int, lines: seq<Line>)
    requires DistinctAccounts(b.accounts)
    ensures var a := Step(b, CreateEntry(date, lines));
      && (a.result.Success? <==> DoubleEntry(lines) && forall l | l in lines :: Usable(b.accounts, l.account))
      && (a.result.Failure? ==>
            && a.books == b
            && a.result == if DoubleEntry(lines) then CheckAccounts(b.accounts, lines) else Failure(BadRequest))
      && (a.result.Success? ==>
            var n := |b.entries|;
            && OnlyEntry(b, a.books, n) && |a.books.entries| == n + 1
            && a.books.entries[n].status == DRAFT && a.books.entries[n].date == date
            && a.books.entries[n].lines == lines && a.books.entries[n].reverses == None)
  {
    WellFormedIffDoubleEntry(lines);
    CheckAccountsIff(b.accounts, lines);
  }

  /** The first line whose account is missing or inactive decides the error. */
  lemma {:induction false} CheckAccountsFirstError(accounts: seq<Account>, lines: seq<Line>, j: nat)
    requires DistinctAccounts(accounts) && j < |lines| && !Usable(accounts, lines[j].account)
    requires forall i | 0 <= i < j :: Usable(accounts, lines[i].account)
    ensures CheckAccounts(accounts, lines) ==
      Failure(if exists a | a in accounts :: a.id == lines[j].account then BadRequest else NotFound)
    decreases j
  {
    UsableIff(accounts, lines[0].account);
    FindMember(accounts, lines[0].account);
    if j > 0 { CheckAccountsFirstError(accounts, lines[1..], j - 1); }
  }

  lemma PostEffect(b: Books, i: nat)
    ensures var a := Step(b, Post(i));
      && (a.result.Success? <==> i < |b.entries| && b.entries[i].status == DRAFT)
      && (a.result.Failure? ==>
            && a.books == b
            && a.result.error == (if i < |b.entries| then BadRequest else NotFound))
      && (a.result.Success? ==>
            && OnlyEntry(b, a.books, i) && |a.books.entries| == |b.entries|
            && a.books.entries[i].status == POSTED && a.books.entries[i].(status := DRAFT) == b.entries[i])
  {
  }

  /** reverse marks the entry and posts, on the day, its lines with the sides exchanged. */
  lemma ReverseEffect(b: Books, i: nat, now: int)
    ensures var a := Step(b, Reverse(i, now));
      && (a.result.Success? <==> i < |b.entries| && b.entries[i].status == POSTED)
      && (a.result.Failure? ==>
            && a.books == b
            && a.result.error == (if i < |b.entries| then BadRequest else NotFound))
      && (a.result.Success? ==>
            var n := |b.entries|;
            var was, now', reversal := b.entries[i].lines, a.books.entries[i], a.books.entries[n];
            && OnlyEntry(b, a.books, i) && |a.books.entries| == n + 1
            && now'.status == REVERSED && now'.(status := POSTED) == b.entries[i]
            && reversal.status == POSTED && reversal.date == now && reversal.reverses == Some(i)
            && |reversal.lines| == |was|
            && forall j | 0 <= j < |was| ::
                 && reversal.lines[j].account == was[j].account
                 && reversal.lines[j].debit == was[j].credit && reversal.lines[j].credit == was[j].debit)
  {
  }

  /** From the request to the balances: creating and posting an entry moves every account's
      posted net by what the requested lines say. */
  lemma CreateThenPostBooksLines(b: Books, date: int, lines: seq<Line>, a: string)
    requires Step(b, CreateEntry(date, lines)).result.Success?
    ensures var created := Step(b, CreateEntry(date, lines)).books;
      var t := Step(created, Post(|b.entries|));
      && t.result.Success?
      && NetOver(t.books.entries, false, a) == NetOver(b.entries, false, a) + Net(lines, a)
  {
    var created := Step(b, CreateEntry(date, lines)).books;
    var draft := Entry(DRAFT, date, lines, None);
    NetOverAppended(b.entries, draft, false, a);
    NetOverReplaced(created.entries, |b.entries|, draft.(status := POSTED), false, a);
  }

  /** A run makes its calls one after another. */
  lemma {:induction false} RunMakesCalls(b: Books, calls: seq<Call>, c: Call)
    ensures Run(b, calls + [c]) == Step(Run(b, calls), c).books
    ensures LegalRun(b, calls + [c]) <==> LegalRun(b, calls) && Legal(Run(b, calls), c)
    decreases |calls|
  {
    if calls != [] {
      assert (calls + [c])[1..] == calls[1..] + [c];
      RunMakesCalls(Step(b, calls[0]).books, calls[1..], c);
    } else {
      assert [] + [c] == [c] && Run(Step(b, c).books, []) == Step(b, c).books;
    }
  }

  /** Debits and credits of a line count for its own account. */
  lemma NetOfOneLine(account: string, debit: int, credit: int, a: string)
    ensures Net([Line(account, debit, credit)], a) == if a == account then debit - credit else 0
  {
    var l := Line(account, debit, credit);
    assert [l] == [] + [l];
    SumsAppend([], [l], a);
    assert [l][..0] == [];
  }

  predicate CodeTaken(accounts: seq<Account>, code: string, owner: string) {
    exists i | 0 <= i < |accounts| :: accounts[i].code == code && accounts[i].id != owner
  }

  predicate Exists(accounts: seq<Account>, id: string) { exists a | a in accounts :: a.id == id }

  lemma ExistsIff(accounts: seq<Account>, id: string)
    ensures Exists(accounts, id) <==> Find(accounts, id).Some?
  {
    FindMember(accounts, id);
  }

  lemma CodeTakenIff(accounts: seq<Account>, code: string, owner: string)
    ensures CodeTaken(accounts, code, owner) <==> HasCode(accounts, code, owner)
  {
    if HasCode(accounts, code, owner) {
      var a :| a in accounts && a.code == code && a.id != owner;
      var i :| 0 <= i < |accounts| && accounts[i] == a;
    }
    if i :| 0 <= i < |accounts| && accounts[i].code == code && accounts[i].id != owner {
      assert accounts[i] in accounts;
    }
  }

  lemma CreateAccountEffect(b: Books, x: Account)
    ensures var a := Step(b, CreateAccount(x));
      && (a.result.Success? <==>
            !CodeTaken(b.accounts, x.code, x.id) && (x.parent.Some? ==> Exists(b.accounts, x.parent.value)))
      && (a.result.Failure? ==> a.result.error == if CodeTaken(b.accounts, x.code, x.id) then Conflict else NotFound)
      && a.books == if a.result.Success? then b.(accounts := b.accounts + [x]) else b
  {
    CodeTakenIff(b.accounts, x.code, x.id);
    if x.parent.Some? { ExistsIff(b.accounts, x.parent.value); }
  }

  /** update changes the fields it was given, of the one account. */
  lemma UpdateAccountEffect(b: Books, c: Call, i: nat)
    requires c.UpdateAccount? && DistinctAccounts(b.accounts) && i < |b.accounts|
    ensures var a := Step(b, c);
      && (a.result.Success? <==>
            && Exists(b.accounts, c.id)
            && (c.newCode.Some? ==> !CodeTaken(b.accounts, c.newCode.value, c.id))
            && (c.newParent.Some? ==> c.newParent.value != c.id && Exists(b.accounts, c.newParent.value)))
      && (a.result.Failure? ==>
            && a.books == b
            && a.result.error == (if !Exists(b.accounts, c.id) then NotFound
                 else if c.newCode.Some? && CodeTaken(b.accounts, c.newCode.value, c.id) then Conflict
                 else if c.newParent == Some(c.id) then BadRequest else NotFound))
      && (a.result.Success? ==>
            && a.books.entries == b.entries && |a.books.accounts| == |b.accounts|
            && var was, now := b.accounts[i], a.books.accounts[i];
               if was.id != c.id then now == was
               else
                 && now.id == was.id && now.isSystem == was.isSystem
                 && now.code == (if c.newCode.Some? then c.newCode.value else was.code)
                 && now.kind == (if c.newKind.Some? then c.newKind.value else was.kind)
                 && now.parent == (if c.newParent.Some? then c.newParent else was.parent)
                 && now.active == (if c.newActive.Some? then c.newActive.value else was.active))
  {
    ExistsIff(b.accounts, c.id);
    if c.newCode.Some? { CodeTakenIff(b.accounts, c.newCode.value, c.id); }
    if c.newParent.Some? { ExistsIff(b.accounts, c.newParent.value); }
    FindIsThe(b.accounts, b.accounts[i]);
    FindMember(b.accounts, c.id);
  }

  /** Whether an account may go, and whether it is deactivated or gone. */
  lemma DeleteAccountEffect(b: Books, id: string, x: Account)
    requires DistinctAccounts(b.accounts)
    ensures var a := Step(b, DeleteAccount(id));
      var used := exists i | 0 <= i < |b.entries| :: exists l | l in b.entries[i].lines :: l.account == id;
      && (a.result.Success? <==>
            && (exists y | y in b.accounts :: y.id == id && !y.isSystem)
            && forall y | y in b.accounts :: y.parent != Some(id))
      && (a.result.Failure? ==>
            && a.books == b
            && a.result.error == (if Exists(b.accounts, id) then BadRequest else NotFound))
      && (a.result.Success? ==>
            && a.books.entries == b.entries
            && (x in b.accounts && x.id != id ==> x in a.books.accounts)
            && (x in b.accounts && x.id == id ==> (x.(active := false) in a.books.accounts <==> used))
            && (x in a.books.accounts ==>
                  if x.id == id then used && !x.active else x in b.accounts))
  {
    FindMember(b.accounts, id);
    var found := Find(b.accounts, id);
    forall y | y in b.accounts && y.id == id ensures found == Some(y) { FindIsThe(b.accounts, y); }
    UsedIff(b.entries, id);
    if found.Some? {
      ReplacedMembers(b.accounts, found.value.(active := false), x);
      ReplacedMembers(b.accounts, found.value.(active := false), found.value.(active := false));
      WithoutMembers(b.accounts, id, x);
      WithoutMembers(b.accounts, id, found.value.(active := false));
    }
  }

  lemma UsedIff(entries: seq<Entry>, id: string)
    ensures HasLines(entries, id) <==>
      exists i | 0 <= i < |entries| :: exists l | l in entries[i].lines :: l.account == id
  {
    if HasLines(entries, id) {
      var e :| e in entries && exists l | l in e.lines :: l.account == id;
      var i :| 0 <= i < |entries| && entries[i] == e;
    }
    if i :| 0 <= i < |entries| && exists l | l in entries[i].lines :: l.account == id {
      assert entries[i] in entries;
    }
  }

  lemma ReplacedMembers(accounts: seq<Account>, y: Account, x: Account)
    ensures x in Replaced(accounts, y) <==>
      (x in accounts && x.id != y.id) || (x == y && Exists(accounts, y.id))
  {
    var r := Replaced(accounts, y);
    if x in r {
      var i :| 0 <= i < |r| && r[i] == x;
      assert accounts[i] in accounts;
    }
    if x in accounts && x.id != y.id {
      var i :| 0 <= i < |accounts| && accounts[i] == x;
      assert r[i] in r;
    }
    if x == y && Exists(accounts, y.id) {
      var a :| a in accounts && a.id == y.id;
      var i :| 0 <= i < |accounts| && accounts[i] == a;
      assert r[i] in r;
    }
  }

  lemma {:induction false} WithoutMembers(accounts: seq<Account>, id: string, x: Account)
    ensures x in Without(accounts, id) <==> x in accounts && x.id != id
  {
    if accounts != [] {
      WithoutMembers(accounts[1..], id, x);
      assert accounts == [accounts[0]] + accounts[1..];
    }
  }

  // ---------- The services ----------

  class AccountingService {
    var accounts: seq<Account>
    var entries: seq<Entry>

    constructor ()
      ensures Snapshot() == Books([], [])
    {
      accounts, entries := [], [];
    }

    ghost function Snapshot(): Books
      reads this
    {
      Books(accounts, entries)
    }

    method ValidateLines(lines: seq<Line>) returns (ok: bool)
      ensures ok == WellFormedLines(lines)
    {
      var totalDebit, totalCredit := 0, 0;
      var allZero, invalid := true, false;
      for i := 0 to |lines|
        invariant totalDebit == SumDebit(lines[..i]) && totalCredit == SumCredit(lines[..i])
        invariant allZero <==> forall k | 0 <= k < i :: lines[k].debit == 0 && lines[k].credit == 0
        invariant invalid <==> exists k | 0 <= k < i :: lines[k].debit > 0 && lines[k].credit > 0
      {
        assert lines[..i + 1][..i] == lines[..i];
        totalDebit, totalCredit := totalDebit + lines[i].debit, totalCredit + lines[i].credit;
        allZero := allZero && lines[i].debit == 0 && lines[i].credit == 0;
        invalid := invalid || (lines[i].debit > 0 && lines[i].credit > 0);
      }
      assert lines[..|lines|] == lines;
      ok := totalDebit == totalCredit && !allZero && !invalid;
    }

    method CreateJournalEntry(date: int, lines: seq<Line>) returns (r: Result<()>)
      modifies this
      ensures Answer(r, Snapshot()) == Step(old(Snapshot()), CreateEntry(date, lines))
    {
      var ok := ValidateLines(lines);
      if !ok {
        return Failure(BadRequest);
      }
      for i := 0 to |lines|
        invariant CheckAccounts(accounts, lines) == CheckAccounts(accounts, lines[i..])
        invariant Snapshot() == old(Snapshot())
      {
        assert lines[i..][1..] == lines[i + 1..];
        var account := Find(accounts, lines[i].account);
        if account.None? {
          return Failure(NotFound);
        }
        if !account.value.active {
          return Failure(BadRequest);
        }
      }
      entries := entries + [Entry(DRAFT, date, lines, None)];
      r := Success(());
    }

    method PostEntry(i: nat) returns (r: Result<()>)
      modifies this
      ensures Answer(r, Snapshot()) == Step(old(Snapshot()), Post(i))
    {
      if i >= |entries| {
        return Failure(NotFound);
      }
      if entries[i].status != DRAFT {
        return Failure(BadRequest);
      }
      entries := entries[i := entries[i].(status := POSTED)];
      r := Success(());
    }

    method ReverseEntry(i: nat, now: int) returns (r: Result<()>)
      modifies this
      ensures Answer(r, Snapshot()) == Step(old(Snapshot()), Reverse(i, now))
    {
      if i >= |entries| {
        return Failure(NotFound);
      }
      if entries[i].status != POSTED {
        return Failure(BadRequest);
      }
      var reversal := Entry(POSTED, now, Swapped(entries[i].lines), Some(i));
      entries := entries + [reversal];
      entries := entries[i := entries[i].(status := REVERSED)];
      r := Success(());
    }

    method Create(a: Account) returns (r: Result<()>)
      modifies this
      ensures Answer(r, Snapshot()) == Step(old(Snapshot()), CreateAccount(a))
    {
      if HasCode(accounts, a.code, a.id) {
        return Failure(Conflict);
      }
      if a.parent.Some? && Find(accounts, a.parent.value).None? {
        return Failure(NotFound);
      }
      accounts := accounts + [a];
      r := Success(());
    }

    method Update(id: string, code: Option<string>, kind: Option<AccountType>, parent: Option<string>,
                  active: Option<bool>)
      returns (r: Result<()>)
      modifies this
      ensures Answer(r, Snapshot()) == Step(old(Snapshot()), UpdateAccount(id, code, kind, parent, active))
    {
      var found := Find(accounts, id);
      if found.None? {
        return Failure(NotFound);
      }
      if code.Some? && HasCode(accounts, code.value, id) {
        return Failure(Conflict);
      }
      if parent.Some? {
        if parent.value == id {
          return Failure(BadRequest);
        }
        if Find(accounts, parent.value).None? {
          return Failure(NotFound);
        }
      }
      accounts := Replaced(accounts, Edited(found.value, code, kind, parent, active));
      r := Success(());
    }

    /** Accounts with journal lines are deactivated instead of deleted. */
    method Delete(id: string) returns (r: Result<()>)
      modifies this
      ensures Answer(r, Snapshot()) == Step(old(Snapshot()), DeleteAccount(id))
    {
      var found := Find(accounts, id);
      if found.None? {
        return Failure(NotFound);
      }
      if found.value.isSystem {
        return Failure(BadRequest);
      }
      if exists c | c in accounts :: c.parent == Some(id) {
        return Failure(BadRequest);
      }
      if HasLines(entries, id) {
        accounts := Replaced(accounts, found.value.(active := false));
      } else {
        accounts := Without(accounts, id);
      }
      r := Success(());
    }
  }
}
