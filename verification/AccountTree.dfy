/** Parent accounts (src/accounting/chart-of-accounts/chart-of-accounts.service.ts):
    docs/sprint-8-accounting.md promises that there are no circular parent references. */
module AccountTree {
  import opened Results
  import opened Accounting

  /** The parent link of an account. */
  function Up(accounts: seq<Account>, id: string): Option<string> {
    match Find(accounts, id)
    case None => None
    case Some(a) => a.parent
  }

  /** n parent links up. */
  function Climb(accounts: seq<Account>, id: string, n: nat): Option<string> {
    if n == 0 then Some(id)
    else
      match Climb(accounts, id, n - 1)
      case None => None
      case Some(x) => Up(accounts, x)
  }

  ghost predicate IsAncestor(accounts: seq<Account>, above: string, id: string) {
    exists n: nat :: 1 <= n && Climb(accounts, id, n) == Some(above)
  }

  /** No account is its own ancestor. */
  ghost predicate Acyclic(accounts: seq<Account>) {
    forall id :: !IsAncestor(accounts, id, id)
  }

  /** Parent links lead to accounts that exist, as the foreign key demands. */
  predicate ParentsExist(accounts: seq<Account>) {
    forall a | a in accounts && a.parent.Some? :: Find(accounts, a.parent.value).Some?
  }

  ghost predicate Tree(accounts: seq<Account>) {
    DistinctAccounts(accounts) && ParentsExist(accounts) && Acyclic(accounts)
  }

  lemma {:induction false} ClimbOn(accounts: seq<Account>, id: string, m: nat, n: nat, x: string)
    requires Climb(accounts, id, m) == Some(x)
    ensures Climb(accounts, id, m + n) == Climb(accounts, x, n)
  {
    if n != 0 { ClimbOn(accounts, id, m, n - 1, x); }
  }

  // ---------- Comparing two sets of links ----------

  /** after has the links of before, or fewer. */
  ghost predicate NoNewLinks(before: seq<Account>, after: seq<Account>) {
    forall x :: Up(after, x).Some? ==> Up(after, x) == Up(before, x)
  }

  lemma {:induction false} ClimbsAgree(before: seq<Account>, after: seq<Account>, id: string, n: nat)
    requires NoNewLinks(before, after) && Climb(after, id, n).Some?
    ensures Climb(after, id, n) == Climb(before, id, n)
  {
    if n != 0 { ClimbsAgree(before, after, id, n - 1); }
  }

  lemma FewerLinksStayAcyclic(before: seq<Account>, after: seq<Account>)
    requires Acyclic(before) && NoNewLinks(before, after)
    ensures Acyclic(after)
  {
    forall id, n: nat | 1 <= n ensures Climb(after, id, n) != Some(id) {
      assert !IsAncestor(before, id, id);
      if Climb(after, id, n).Some? { ClimbsAgree(before, after, id, n); }
    }
  }

  /** The links differ at most at one account. */
  ghost predicate SameLinksBut(before: seq<Account>, after: seq<Account>, moved: string) {
    forall x | x != moved :: Up(after, x) == Up(before, x)
  }

  /** Climbs that do not pass the account are the same. */
  lemma {:induction false} ClimbsAgreeBelow(before: seq<Account>, after: seq<Account>, moved: string, id: string,
                                            n: nat)
    requires SameLinksBut(before, after, moved)
    requires forall m: nat | m < n :: Climb(before, id, m) != Some(moved)
    ensures Climb(after, id, n) == Climb(before, id, n)
  {
    if n != 0 {
      ClimbsAgreeBelow(before, after, moved, id, n - 1);
      assert Climb(before, id, n - 1) != Some(moved);
    }
  }

  /** The first visit of a climb to an account. */
  lemma {:induction false} FirstVisit(accounts: seq<Account>, id: string, moved: string, n: nat) returns (m: nat)
    requires Climb(accounts, id, n) == Some(moved)
    ensures m <= n && Climb(accounts, id, m) == Some(moved)
    ensures forall j: nat | j < m :: Climb(accounts, id, j) != Some(moved)
  {
    if j: nat :| j < n && Climb(accounts, id, j) == Some(moved) {
      m := FirstVisit(accounts, id, moved, j);
    } else {
      m := n;
    }
  }

  /** Who climbs to the account does so before and after it was moved. */
  lemma SameClimbsTo(before: seq<Account>, after: seq<Account>, moved: string, id: string, n: nat) returns (m: nat)
    requires SameLinksBut(before, after, moved) && Climb(before, id, n) == Some(moved)
    ensures m <= n && Climb(after, id, m) == Some(moved)
  {
    m := FirstVisit(before, id, moved, n);
    ClimbsAgreeBelow(before, after, moved, id, m);
  }

  /** A cycle can be entered at any of its accounts. */
  lemma CycleThrough(accounts: seq<Account>, id: string, n: nat, m: nat, x: string)
    requires Climb(accounts, id, n) == Some(id) && m <= n && Climb(accounts, id, m) == Some(x)
    ensures Climb(accounts, x, n) == Some(x)
  {
    ClimbOn(accounts, id, n, m, id);
    ClimbOn(accounts, id, m, n, x);
  }

  /** Giving one account a new parent keeps the links acyclic exactly when the account is
      neither the parent itself nor one of the parent's ancestors. */
  lemma MoveStaysAcyclicIff(before: seq<Account>, after: seq<Account>, moved: string, parent: string)
    requires Acyclic(before) && SameLinksBut(before, after, moved) && Up(after, moved) == Some(parent)
    ensures Acyclic(after) <==> moved != parent && !IsAncestor(before, moved, parent)
  {
    if moved == parent || IsAncestor(before, moved, parent) {
      var n: nat := if moved == parent then 0 else (var n: nat :| 1 <= n && Climb(before, parent, n) == Some(moved); n);
      var m := SameClimbsTo(before, after, moved, parent, n);
      ClimbOn(after, moved, 1, m, parent);
      assert IsAncestor(after, moved, moved);
    } else {
      forall id, n: nat | 1 <= n ensures Climb(after, id, n) != Some(id) {
        if Climb(after, id, n) == Some(id) { CycleAfterMove(before, after, moved, parent, id, n); }
      }
    }
  }

  /** A cycle that the move has closed leads from the new parent up to the account. */
  lemma CycleAfterMove(before: seq<Account>, after: seq<Account>, moved: string, parent: string, id: string, n: nat)
    requires Acyclic(before) && SameLinksBut(before, after, moved) && Up(after, moved) == Some(parent)
    requires 1 <= n && Climb(after, id, n) == Some(id)
    ensures moved == parent || IsAncestor(before, moved, parent)
  {
    if m: nat :| m <= n && Climb(after, id, m) == Some(moved) {
      CycleThrough(after, id, n, m, moved);
      ClimbOn(after, moved, 1, n - 1, parent);
      assert SameLinksBut(after, before, moved);
      var j := SameClimbsTo(after, before, moved, parent, n - 1);
    } else {
      assert !IsAncestor(before, id, id);
      ClimbsAgreeBelow(after, before, moved, id, n);
    }
  }

  // ---------- The calls ----------

  lemma {:induction false} FindReplacedIs(accounts: seq<Account>, a: Account, id: string)
    ensures Find(Replaced(accounts, a), id) ==
      if Find(accounts, id).Some? && id == a.id then Some(a) else Find(accounts, id)
  {
    if accounts != [] {
      assert Replaced(accounts, a)[1..] == Replaced(accounts[1..], a);
      FindReplacedIs(accounts[1..], a, id);
    }
  }

  /** update may give an account any existing parent but itself: the links stay acyclic
      exactly when the account is not an ancestor of its new parent. */
  lemma UpdateStaysAcyclicIff(b: Books, id: string, code: Option<string>, kind: Option<AccountType>, parent: string,
                              active: Option<bool>)
    requires Acyclic(b.accounts)
    requires Step(b, UpdateAccount(id, code, kind, Some(parent), active)).result.Success?
    ensures Acyclic(Step(b, UpdateAccount(id, code, kind, Some(parent), active)).books.accounts)
      <==> id != parent && !IsAncestor(b.accounts, id, parent)
  {
    var a := Edited(Find(b.accounts, id).value, code, kind, Some(parent), active);
    FindMember(b.accounts, id);
    forall x ensures Find(Replaced(b.accounts, a), x) ==
      if Find(b.accounts, x).Some? && x == id then Some(a) else Find(b.accounts, x)
    {
      FindReplacedIs(b.accounts, a, x);
    }
    MoveStaysAcyclicIff(b.accounts, Replaced(b.accounts, a), id, parent);
  }

  /** A call that puts an account under itself or one of its descendants. */
  ghost predicate ClosesCycle(b: Books, c: Call) {
    c.UpdateAccount? && c.newParent.Some?
      && (c.id == c.newParent.value || IsAncestor(b.accounts, c.id, c.newParent.value))
  }

  lemma ReplacedKeepsParents(accounts: seq<Account>, a: Account)
    requires DistinctAccounts(accounts) && ParentsExist(accounts)
    requires a.parent.Some? ==> Find(accounts, a.parent.value).Some?
    ensures DistinctAccounts(Replaced(accounts, a)) && ParentsExist(Replaced(accounts, a))
  {
    forall x | x in Replaced(accounts, a) && x.parent.Some? ensures Find(Replaced(accounts, a), x.parent.value).Some? {
      assert x == a || x in accounts;
      FindReplaced(accounts, a, x.parent.value);
    }
  }

  lemma UpdateKeepsTreeIff(b: Books, c: Call)
    requires Tree(b.accounts) && c.UpdateAccount? && Step(b, c).result.Success?
    ensures Tree(Step(b, c).books.accounts) <==> !ClosesCycle(b, c)
  {
    var current := Find(b.accounts, c.id).value;
    var a := Edited(current, c.newCode, c.newKind, c.newParent, c.newActive);
    FindMember(b.accounts, c.id);
    ReplacedKeepsParents(b.accounts, a);
    if c.newParent.Some? {
      UpdateStaysAcyclicIff(b, c.id, c.newCode, c.newKind, c.newParent.value, c.newActive);
    } else {
      SameParentStaysAcyclic(b.accounts, a);
    }
  }

  lemma SameParentStaysAcyclic(accounts: seq<Account>, a: Account)
    requires Acyclic(accounts) && Find(accounts, a.id).Some? && Find(accounts, a.id).value.parent == a.parent
    ensures Acyclic(Replaced(accounts, a))
  {
    forall x ensures Up(Replaced(accounts, a), x) == Up(accounts, x) { FindReplacedIs(accounts, a, x); }
    FewerLinksStayAcyclic(accounts, Replaced(accounts, a));
  }

  lemma CreateKeepsTree(b: Books, a: Account)
    requires Tree(b.accounts) && Find(b.accounts, a.id).None?
    ensures Tree(Step(b, CreateAccount(a)).books.accounts)
  {
    if Step(b, CreateAccount(a)).result.Success? {
      var after := b.accounts + [a];
      FindMember(b.accounts, a.id);
      forall x ensures Find(after, x) == if Find(b.accounts, x).Some? then Find(b.accounts, x)
        else if a.id == x then Some(a) else None {
        FindAppended(b.accounts, a, x);
      }
      forall id, n: nat | 1 <= n ensures Climb(after, id, n) != Some(id) {
        assert !IsAncestor(b.accounts, id, id);
        NobodyAboveIsNew(b.accounts, a, id, n);
        if id != a.id { OldClimbsKept(b.accounts, a, id, n); }
      }
    }
  }

  /** No link leads to the new account. */
  lemma NobodyAboveIsNew(accounts: seq<Account>, a: Account, id: string, n: nat)
    requires ParentsExist(accounts) && Find(accounts, a.id).None? && 1 <= n
    requires a.parent.Some? ==> Find(accounts, a.parent.value).Some?
    ensures Climb(accounts + [a], id, n) != Some(a.id)
  {
    if Climb(accounts + [a], id, n - 1).Some? {
      var x := Climb(accounts + [a], id, n - 1).value;
      FindAppended(accounts, a, x);
      FindMember(accounts, x);
    }
  }

  /** A climb that ends at an old account it started from never leaves the old links. */
  lemma {:induction false} OldClimbsKept(accounts: seq<Account>, a: Account, id: string, n: nat)
    requires ParentsExist(accounts) && Find(accounts, a.id).None? && id != a.id
    requires a.parent.Some? ==> Find(accounts, a.parent.value).Some?
    ensures Climb(accounts + [a], id, n) == Climb(accounts, id, n)
  {
    if n != 0 {
      OldClimbsKept(accounts, a, id, n - 1);
      if n > 1 { NobodyAboveIsNew(accounts, a, id, n - 1); }
      if Climb(accounts, id, n - 1).Some? { FindAppended(accounts, a, Climb(accounts, id, n - 1).value); }
    }
  }

  lemma DeleteKeepsTree(b: Books, id: string)
    requires Tree(b.accounts)
    ensures Tree(Step(b, DeleteAccount(id)).books.accounts)
  {
    var after := Step(b, DeleteAccount(id)).books.accounts;
    if after != b.accounts {
      FindMember(b.accounts, id);
      var gone := Find(b.accounts, id).value;
      if HasLines(b.entries, id) {
        ReplacedKeepsParents(b.accounts, gone.(active := false));
        SameParentStaysAcyclic(b.accounts, gone.(active := false));
      } else {
        RemovedKeepsTree(b.accounts, id);
      }
    }
  }

  lemma RemovedKeepsTree(accounts: seq<Account>, id: string)
    requires Tree(accounts) && forall a | a in accounts :: a.parent != Some(id)
    ensures Tree(Without(accounts, id))
  {
    WithoutDistinct(accounts, id);
    forall x ensures Find(Without(accounts, id), x) == if x == id then None else Find(accounts, x) {
      FindWithout(accounts, id, x);
    }
    FewerLinksStayAcyclic(accounts, Without(accounts, id));
  }

  /** One call keeps the accounts a forest if and only if it is not an accepted update
      that puts an account under itself or a descendant. */
  lemma StepKeepsTreeIff(b: Books, c: Call)
    requires Tree(b.accounts) && Legal(b, c)
    ensures Tree(Step(b, c).books.accounts) <==> !(Step(b, c).result.Success? && ClosesCycle(b, c))
  {
    match c
    case UpdateAccount(_, _, _, _, _) => if Step(b, c).result.Success? { UpdateKeepsTreeIff(b, c); }
    case CreateAccount(a) => CreateKeepsTree(b, a);
    case DeleteAccount(id) => DeleteKeepsTree(b, id);
    case _ => assert Step(b, c).books.accounts == b.accounts;
  }

  ghost predicate NeverClosesCycle(b: Books, calls: seq<Call>)
    decreases |calls|
  {
    calls == [] ||
    (!(Step(b, calls[0]).result.Success? && ClosesCycle(b, calls[0]))
      && NeverClosesCycle(Step(b, calls[0]).books, calls[1..]))
  }

  /** Every run without such an update keeps the documented promise. */
  lemma {:induction false} RunKeepsTree(b: Books, calls: seq<Call>)
    requires Tree(b.accounts) && LegalRun(b, calls) && NeverClosesCycle(b, calls)
    ensures Tree(Run(b, calls).accounts)
    decreases |calls|
  {
    if calls != [] {
      StepKeepsTreeIff(b, calls[0]);
      RunKeepsTree(Step(b, calls[0]).books, calls[1..]);
    }
  }

  lemma ParentIsAncestor(accounts: seq<Account>, id: string, parent: string)
    requires Up(accounts, id) == Some(parent)
    ensures IsAncestor(accounts, parent, id)
  {
    var n: nat := 1;
    assert Climb(accounts, id, n - 1) == Some(id);
    assert Climb(accounts, id, n) == Some(parent);
  }

  lemma TwoAccountTree(x: Account, y: Account)
    requires x.id != y.id && x.code != y.code && x.parent == None && y.parent == Some(x.id)
    ensures Tree([x, y]) && Up([x, y], y.id) == Some(x.id)
  {
    var none, one := Books([], []), Books([x], []);
    assert forall id, n: nat | 1 <= n :: Climb([], id, n) != Some(id);
    CreateKeepsTree(none, x);
    assert Step(none, CreateAccount(x)).books == one;
    CreateKeepsTree(one, y);
    assert Step(one, CreateAccount(y)).books.accounts == [x, y];
    FindAppended([x], y, y.id);
  }

  /** The promise is broken by giving the parent of an account that account as parent. */
  lemma ParentCycleAccepted(x: Account, y: Account)
    requires x.id != y.id && x.code != y.code && x.parent == None && y.parent == Some(x.id)
    ensures var a := Step(Books([x, y], []), UpdateAccount(x.id, None, None, Some(y.id), None));
      Tree([x, y]) && a.result.Success? && !Acyclic(a.books.accounts)
  {
    TwoAccountTree(x, y);
    FindMember([x, y], x.id);
    ParentIsAncestor([x, y], y.id, x.id);
    UpdateStaysAcyclicIff(Books([x, y], []), x.id, None, None, y.id, None);
  }
}
