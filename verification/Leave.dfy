/** Leave requests (src/hrms/leave/leave.service.ts). Times are milliseconds. */
module Leave {
  import opened Results

  const DAY: int := 86400000

  datatype Status = PENDING | APPROVED | REJECTED

  datatype Request = Request(employee: string, start: int, end: int, status: Status)

  datatype Store = Store(requests: seq<Request>, employees: set<string>)

  datatype Call =
    | Apply(employee: string, start: int, end: int)
    | Approve(request: nat)
    | Reject(request: nat)

  datatype Answer = Answer(result: Result<nat>, store: Store)

  /** PENDING and APPROVED requests block their time. */
  predicate Blocks(r: Request, employee: string) { r.employee == employee && r.status in {PENDING, APPROVED} }

  predicate Overlaps(r: Request, employee: string, start: int, end: int) {
    Blocks(r, employee) && r.start <= end && r.end >= start
  }

  function Step(s: Store, c: Call): Answer {
    match c
    case Apply(employee, start, end) =>
      if employee !in s.employees then Answer(Failure(NotFound), s)
      else if end < start then Answer(Failure(BadRequest), s)
      else if exists r | r in s.requests :: Overlaps(r, employee, start, end) then Answer(Failure(BadRequest), s)
      else Answer(Success(|s.requests|), s.(requests := s.requests + [Request(employee, start, end, PENDING)]))
    case Approve(i) => Decide(s, i, APPROVED)
    case Reject(i) => Decide(s, i, REJECTED)
  }

  function Decide(s: Store, i: nat, status: Status): Answer {
    if i >= |s.requests| then Answer(Failure(NotFound), s)
    else if s.requests[i].status != PENDING then Answer(Failure(BadRequest), s)
    else Answer(Success(i), s.(requests := s.requests[i := s.requests[i].(status := status)]))
  }

  /** The days figure that apply writes to the audit log: a ceiling, plus one. */
  function LoggedDays(start: int, end: int): int
    requires start <= end
  {
    (end - start + DAY - 1) / DAY + 1
  }

  // ---------- Disjointness ----------

  predicate Apart(r: Request, q: Request) { r.end < q.start || q.end < r.start }

  predicate Disjoint(requests: seq<Request>) {
    && (forall i | 0 <= i < |requests| :: requests[i].start <= requests[i].end)
    && forall i, j | 0 <= i < j < |requests| && Blocks(requests[i], requests[j].employee)
         && Blocks(requests[j], requests[j].employee) ::
         Apart(requests[i], requests[j])
  }

  lemma StepDisjoint(s: Store, c: Call)
    requires Disjoint(s.requests)
    ensures Disjoint(Step(s, c).store.requests)
  {
    var r := Step(s, c).store.requests;
    forall i, j | 0 <= i < j < |r| && Blocks(r[i], r[j].employee) && Blocks(r[j], r[j].employee)
      ensures Apart(r[i], r[j])
    {
      if j == |s.requests| {
        assert s.requests[i] in s.requests && !Overlaps(s.requests[i], c.employee, c.start, c.end);
      } else {
        assert Blocks(s.requests[i], s.requests[j].employee) && Blocks(s.requests[j], s.requests[j].employee);
      }
    }
  }

  function Run(s: Store, calls: seq<Call>): Store
    decreases |calls|
  {
    if calls == [] then s else Run(Step(s, calls[0]).store, calls[1..])
  }

  /** In every run the blocking requests of each employee stay pairwise disjoint. */
  lemma {:induction false} RunDisjoint(s: Store, calls: seq<Call>)
    requires Disjoint(s.requests)
    ensures Disjoint(Run(s, calls).requests)
    decreases |calls|
  {
    if calls != [] {
      StepDisjoint(s, calls[0]);
      RunDisjoint(Step(s, calls[0]).store, calls[1..]);
    }
  }

  // ---------- Counting days ----------

  /** The calendar days a request touches. */
  function DaysTouched(r: Request): set<int> { Range(r.start / DAY, r.end / DAY) }

  function Range(lo: int, hi: int): (r: set<int>)
    ensures forall d :: d in r <==> lo <= d <= hi
    ensures |r| == if lo <= hi then hi - lo + 1 else 0
    decreases hi - lo
  {
    if lo > hi then {} else Range(lo, hi - 1) + {hi}
  }

  function TotalLogged(requests: seq<Request>, employee: string): int {
    if requests == [] then 0
    else
      var r := requests[|requests| - 1];
      TotalLogged(requests[..|requests| - 1], employee)
      + if Blocks(r, employee) && r.start <= r.end then LoggedDays(r.start, r.end) else 0
  }

  function Covered(requests: seq<Request>, employee: string): set<int> {
    if requests == [] then {}
    else
      var r := requests[|requests| - 1];
      Covered(requests[..|requests| - 1], employee) + if Blocks(r, employee) then DaysTouched(r) else {}
  }

  /** The logged figure is the number of days touched exactly when the request does not
      end later in the day than it started; otherwise it is one more. */
  lemma LoggedDaysAreTouchedIff(r: Request)
    requires r.start <= r.end
    ensures LoggedDays(r.start, r.end) == |DaysTouched(r)| <==> r.end % DAY <= r.start % DAY
    ensures |DaysTouched(r)| <= LoggedDays(r.start, r.end) <= |DaysTouched(r)| + 1
  {
    var a, x, b, y := r.start / DAY, r.start % DAY, r.end / DAY, r.end % DAY;
    assert r.end - r.start == (b - a) * DAY + (y - x);
    if y <= x {
      assert (r.end - r.start + DAY - 1) / DAY == b - a;
    } else {
      assert (r.end - r.start + DAY - 1) / DAY == b - a + 1;
    }
  }

  lemma UnionSize(a: set<int>, b: set<int>)
    ensures |a + b| == |a| + |b| - |a * b|
  {
    assert a + b == a + (b - a);
    assert b == (b - a) + a * b;
  }

  /** No blocking request ends later in the day than it started, and no two touch the same day. */
  predicate Tidy(requests: seq<Request>, employee: string) {
    requests == [] ||
    (var r := requests[|requests| - 1];
     var rest := requests[..|requests| - 1];
     Tidy(rest, employee) &&
     (Blocks(r, employee) ==> r.end % DAY <= r.start % DAY && DaysTouched(r) !! Covered(rest, employee)))
  }

  /** The logged days of an employee never undercount the days covered, and match them
      exactly when the requests are tidy. */
  lemma {:induction false} LoggedIsCoveredIffTidy(requests: seq<Request>, employee: string)
    requires forall i | 0 <= i < |requests| :: requests[i].start <= requests[i].end
    ensures |Covered(requests, employee)| <= TotalLogged(requests, employee)
    ensures |Covered(requests, employee)| == TotalLogged(requests, employee) <==> Tidy(requests, employee)
  {
    if requests != [] {
      var n := |requests| - 1;
      LoggedIsCoveredIffTidy(requests[..n], employee);
      LoggedDaysAreTouchedIff(requests[n]);
      var before, here := Covered(requests[..n], employee), DaysTouched(requests[n]);
      UnionSize(before, here);
      assert here !! before <==> before * here == {};
    }
  }

  predicate WholeDays(requests: seq<Request>) {
    forall i | 0 <= i < |requests| :: requests[i].start % DAY == 0 && requests[i].end % DAY == 0
  }

  lemma {:induction false} CoveredBySome(requests: seq<Request>, employee: string, d: int)
    requires d in Covered(requests, employee)
    ensures exists i | 0 <= i < |requests| :: Blocks(requests[i], employee) && d in DaysTouched(requests[i])
  {
    var n := |requests| - 1;
    if d in Covered(requests[..n], employee) {
      CoveredBySome(requests[..n], employee, d);
      var i :| 0 <= i < n && Blocks(requests[..n][i], employee) && d in DaysTouched(requests[..n][i]);
      assert Blocks(requests[i], employee) && d in DaysTouched(requests[i]);
    } else {
      assert Blocks(requests[n], employee) && d in DaysTouched(requests[n]);
    }
  }

  lemma WholeDaysApart(r: Request, q: Request, d: int)
    requires r.start % DAY == r.end % DAY == q.start % DAY == q.end % DAY == 0
    requires Apart(r, q)
    ensures !(d in DaysTouched(r) && d in DaysTouched(q))
  {
  }

  lemma {:induction false} WholeDaysAreTidy(requests: seq<Request>, employee: string)
    requires Disjoint(requests) && WholeDays(requests)
    ensures Tidy(requests, employee)
  {
    if requests != [] {
      var n := |requests| - 1;
      WholeDaysAreTidy(requests[..n], employee);
      if Blocks(requests[n], employee) {
        forall d | d in DaysTouched(requests[n]) ensures d !in Covered(requests[..n], employee) {
          if d in Covered(requests[..n], employee) {
            CoveredBySome(requests[..n], employee, d);
            var i :| 0 <= i < n && Blocks(requests[..n][i], employee) && d in DaysTouched(requests[..n][i]);
            WholeDaysApart(requests[i], requests[n], d);
          }
        }
      }
    }
  }

  predicate WholeDayCall(c: Call) { c.Apply? ==> c.start % DAY == 0 && c.end % DAY == 0 }

  /** With whole-day dates, after every run the logged days of an employee's blocking
      requests add up to the number of distinct days they cover. */
  lemma {:induction false} RunCountsDays(s: Store, calls: seq<Call>, employee: string)
    requires Disjoint(s.requests) && WholeDays(s.requests) && forall c | c in calls :: WholeDayCall(c)
    ensures var t := Run(s, calls);
      TotalLogged(t.requests, employee) == |Covered(t.requests, employee)|
    decreases |calls|
  {
    if calls == [] {
      WholeDaysAreTidy(s.requests, employee);
      LoggedIsCoveredIffTidy(s.requests, employee);
    } else {
      assert calls[0] in calls;
      StepDisjoint(s, calls[0]);
      RunCountsDays(Step(s, calls[0]).store, calls[1..], employee);
    }
  }

  // ---------- What each call does ----------

  predicate During(t: int, start: int, end: int) { start <= t <= end }

  /** The two periods share an instant. */
  ghost predicate ShareAnInstant(r: Request, start: int, end: int) {
    exists t :: During(t, r.start, r.end) && During(t, start, end)
  }

  lemma OverlapIsSharing(r: Request, employee: string, start: int, end: int)
    requires r.start <= r.end && start <= end
    ensures Overlaps(r, employee, start, end) <==> Blocks(r, employee) && ShareAnInstant(r, start, end)
  {
    if r.start <= end && r.end >= start {
      var t := if r.start < start then start else r.start;
      assert During(t, r.start, r.end) && During(t, start, end);
    }
  }

  /** apply stores the period as asked for, pending, unless it shares an instant with a
      pending or approved request of the employee. */
  lemma ApplyEffect(s: Store, employee: string, start: int, end: int)
    requires Disjoint(s.requests)
    ensures var a := Step(s, Apply(employee, start, end));
      && (a.result.Success? <==>
            && employee in s.employees && start <= end
            && forall i | 0 <= i < |s.requests| && s.requests[i].employee == employee
                 && (s.requests[i].status == PENDING || s.requests[i].status == APPROVED) ::
                 !ShareAnInstant(s.requests[i], start, end))
      && (a.result.Failure? ==>
            && a.store == s
            && a.result.error == (if employee in s.employees then BadRequest else NotFound))
      && (a.result.Success? ==>
            var n := |s.requests|;
            && a.result.value == n && a.store.employees == s.employees
            && |a.store.requests| == n + 1 && a.store.requests[..n] == s.requests
            && a.store.requests[n].employee == employee && a.store.requests[n].status == PENDING
            && a.store.requests[n].start == start && a.store.requests[n].end == end)
  {
    if start <= end {
      forall i | 0 <= i < |s.requests|
        ensures Overlaps(s.requests[i], employee, start, end) <==>
          Blocks(s.requests[i], employee) && ShareAnInstant(s.requests[i], start, end)
        ensures s.requests[i] in s.requests
      {
        OverlapIsSharing(s.requests[i], employee, start, end);
      }
      if r :| r in s.requests && Overlaps(r, employee, start, end) {
        var i :| 0 <= i < |s.requests| && s.requests[i] == r;
      }
    }
  }

  /** approve and reject decide pending requests, and only those. */
  lemma DecisionEffects(s: Store, i: nat)
    ensures var a := Step(s, Approve(i));
      && (a.result.Success? <==> i < |s.requests| && s.requests[i].status == PENDING)
      && (a.result.Failure? ==> a.result.error == if i < |s.requests| then BadRequest else NotFound)
      && a.store == if a.result.Success?
           then s.(requests := s.requests[i := s.requests[i].(status := APPROVED)]) else s
    ensures var a := Step(s, Reject(i));
      && (a.result.Success? <==> i < |s.requests| && s.requests[i].status == PENDING)
      && (a.result.Failure? ==> a.result.error == if i < |s.requests| then BadRequest else NotFound)
      && a.store == if a.result.Success?
           then s.(requests := s.requests[i := s.requests[i].(status := REJECTED)]) else s
  {
  }

  // ---------- The service ----------

  class LeaveService {
    var requests: seq<Request>
    const employees: set<string>

    constructor (employees: set<string>)
      ensures Snapshot() == Store([], employees)
    {
      this.employees := employees;
      requests := [];
    }

    ghost function Snapshot(): Store
      reads this
    {
      Store(requests, employees)
    }

    method ApplyForLeave(employee: string, start: int, end: int) returns (r: Result<nat>, days: int)
      modifies this
      ensures Answer(r, Snapshot()) == Step(old(Snapshot()), Apply(employee, start, end))
      ensures r.Success? ==> start <= end && days == LoggedDays(start, end)
    {
      days := 0;
      if employee !in employees {
        return Failure(NotFound), 0;
      }
      if end < start {
        return Failure(BadRequest), 0;
      }
      if exists q | q in requests :: Overlaps(q, employee, start, end) {
        return Failure(BadRequest), 0;
      }
      r := Success(|requests|);
      requests := requests + [Request(employee, start, end, PENDING)];
      days := LoggedDays(start, end);
    }

    method ApproveLeave(i: nat) returns (r: Result<nat>)
      modifies this
      ensures Answer(r, Snapshot()) == Step(old(Snapshot()), Approve(i))
    {
      if i >= |requests| {
        return Failure(NotFound);
      }
      if requests[i].status != PENDING {
        return Failure(BadRequest);
      }
      requests := requests[i := requests[i].(status := APPROVED)];
      r := Success(i);
    }

    method RejectLeave(i: nat) returns (r: Result<nat>)
      modifies this
      ensures Answer(r, Snapshot()) == Step(old(Snapshot()), Reject(i))
    {
      if i >= |requests| {
        return Failure(NotFound);
      }
      if requests[i].status != PENDING {
        return Failure(BadRequest);
      }
      requests := requests[i := requests[i].(status := REJECTED)];
      r := Success(i);
    }
  }
}
