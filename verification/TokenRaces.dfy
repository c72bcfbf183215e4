/** refresh broken into its separate database steps (src/auth/auth.service.ts): read and
    check the token, then either revoke its family or rotate it in one transaction. */
module TokenRaces {
  import opened Results
  import opened TokenRotation

  /** presented is None for a string that is no token. */
  datatype Request = Request(presented: Option<nat>, userActive: bool, now: int, lifetime: int)

  datatype Pc = Start | Accepted | Reused | Rotated | Refused

  /** issued is the token that a rotation has created. */
  datatype Process = Process(request: Request, pc: Pc, issued: nat)

  datatype System = System(store: Store, processes: seq<Process>)

  /** The checks of a request, on the token as it is read. */
  predicate Accepts(s: Store, r: Request) {
    r.presented.Some? && r.presented.value < |s.tokens| &&
    var t := s.tokens[r.presented.value];
    && !t.revoked && r.now <= t.expiresAt
    && !(t.session < |s.sessions| && s.sessions[t.session].revoked) && r.userActive
  }

  predicate PresentsRevoked(s: Store, r: Request) {
    r.presented.Some? && r.presented.value < |s.tokens| && s.tokens[r.presented.value].revoked
  }

  /** The transaction updates the token by its id alone, whatever has become of it. */
  function RotatedTokens(tokens: seq<Token>, i: nat, r: Request): seq<Token>
    requires i < |tokens|
  {
    tokens[i := tokens[i].(revoked := true, replacedBy := Some(|tokens|))]
    + [Token(tokens[i].session, tokens[i].family, r.now + r.lifetime, false, None)]
  }

  function With(y: System, i: nat, p: Process, tokens: seq<Token>): System
    requires i < |y.processes|
  {
    System(y.store.(tokens := tokens), y.processes[i := p])
  }

  /** The next step of a request. */
  function Advance(y: System, i: nat): (r: System)
    ensures |r.processes| == |y.processes|
  {
    if i >= |y.processes| then y
    else
      var p, s := y.processes[i], y.store;
      var known := p.request.presented.Some? && p.request.presented.value < |s.tokens|;
      match p.pc
      case Start =>
        var pc := if Accepts(s, p.request) then Accepted else if PresentsRevoked(s, p.request) then Reused else Refused;
        With(y, i, p.(pc := pc), s.tokens)
      case Reused =>
        With(y, i, p.(pc := Refused),
             if known then RevokedFamily(s.tokens, s.tokens[p.request.presented.value].family) else s.tokens)
      case Accepted =>
        if known then
          With(y, i, p.(pc := Rotated, issued := |s.tokens|),
            RotatedTokens(s.tokens, p.request.presented.value, p.request))
        else With(y, i, p.(pc := Refused), s.tokens)
      case _ => y
  }

  function Interleaved(y: System, schedule: seq<nat>): System
    decreases |schedule|
  {
    if schedule == [] then y else Interleaved(Advance(y, schedule[0]), schedule[1..])
  }

  function Boot(s: Store, calls: seq<Request>): System {
    System(s, seq(|calls|, i requires 0 <= i < |calls| => Process(calls[i], Start, 0)))
  }

  predicate AllReturned(y: System) { forall p | p in y.processes :: p.pc in {Rotated, Refused} }

  /** The requests present tokens that exist, or strings that are no token. */
  predicate Present(s: Store, calls: seq<Request>) {
    forall i | 0 <= i < |calls| && calls[i].presented.Some? :: calls[i].presented.value < |s.tokens|
  }

  predicate AtMostOneLive(tokens: seq<Token>) {
    forall i, j | 0 <= i < j < |tokens| && tokens[i].family == tokens[j].family ::
      tokens[i].revoked || tokens[j].revoked
  }

  lemma OthersUntouched(y: System, i: nat)
    ensures forall j | 0 <= j < |y.processes| && j != i :: Advance(y, i).processes[j] == y.processes[j]
    ensures i < |y.processes| ==> Advance(y, i).processes[i].request == y.processes[i].request
  {
  }

  lemma {:induction false} InTwo(y: System, first: seq<nat>, second: seq<nat>)
    ensures Interleaved(y, first + second) == Interleaved(Interleaved(y, first), second)
    decreases |first|
  {
    if first == [] {
      assert first + second == second;
    } else {
      assert (first + second)[1..] == first[1..] + second;
      InTwo(Advance(y, first[0]), first[1..], second);
    }
  }

  /** The two steps of an undisturbed request are the atomic refresh. */
  lemma UndisturbedIsAtomic(y: System, i: nat, token: nat)
    requires i < |y.processes| && y.processes[i].pc.Start? && y.processes[i].request.presented == Some(token)
    ensures var r, y' := y.processes[i].request, Advance(Advance(y, i), i);
      var a := Step(y.store, Refresh(token, r.userActive, r.now, r.lifetime));
      && y'.store == a.store
      && y'.processes[i].pc == (if a.result.Success? then Rotated else Refused)
      && (a.result.Success? ==> a.result.value == y'.processes[i].issued)
  {
  }

  lemma AtomicStoreHasOneLive(s: Store)
    requires Valid(s)
    ensures AtMostOneLive(s.tokens)
  {
    RunValid(s, []);
    assert Run(s, []) == s;
  }

  // ---------- One rotation per family is safe ----------

  /** Old tokens keep what they are and only become revoked. */
  predicate Grown(tokens: seq<Token>, now: seq<Token>) {
    && |tokens| <= |now|
    && forall k | 0 <= k < |tokens| ::
         && now[k].family == tokens[k].family && now[k].session == tokens[k].session
         && now[k].expiresAt == tokens[k].expiresAt && (tokens[k].revoked ==> now[k].revoked)
  }

  /** Call i has issued token k in the family of the token it presented, and revoked that. */
  predicate Issued(y: System, i: nat, k: nat) {
    && i < |y.processes| && k < |y.store.tokens| && y.processes[i].pc.Rotated? && y.processes[i].issued == k
    && y.processes[i].request.presented.Some? && y.processes[i].request.presented.value < |y.store.tokens|
    && y.store.tokens[y.processes[i].request.presented.value].revoked
    && y.store.tokens[k].family == y.store.tokens[y.processes[i].request.presented.value].family
  }

  ghost predicate HasIssuer(y: System, k: nat) { exists i: nat :: Issued(y, i, k) }

  predicate InBounds(p: Process, s: Store, r: Request) {
    p.request == r && (p.pc in {Accepted, Rotated} ==> Accepts(s, r))
  }

  /** Every new token has been issued by a call that was acceptable at the start. */
  ghost predicate Accounted(y: System, s: Store, calls: seq<Request>) {
    && |y.processes| == |calls| && y.store.sessions == s.sessions && Grown(s.tokens, y.store.tokens)
    && (forall i | 0 <= i < |calls| :: InBounds(y.processes[i], s, calls[i]))
    && forall k: nat | |s.tokens| <= k < |y.store.tokens| :: HasIssuer(y, k)
  }

  lemma {:induction false} IssuedKept(y: System, y': System, i: nat, k: nat)
    requires Issued(y, i, k) && i < |y'.processes| && y'.processes[i] == y.processes[i]
    requires Grown(y.store.tokens, y'.store.tokens)
    ensures Issued(y', i, k)
  {
  }

  lemma {:induction false} StepGrows(y: System, i: nat)
    ensures Grown(y.store.tokens, Advance(y, i).store.tokens) && Advance(y, i).store.sessions == y.store.sessions
  {
  }

  lemma {:induction false} StepInBounds(y: System, i: nat, s: Store, r: Request)
    requires i < |y.processes| && InBounds(y.processes[i], s, r)
    requires y.store.sessions == s.sessions && Grown(s.tokens, y.store.tokens)
    requires r.presented.Some? ==> r.presented.value < |s.tokens|
    ensures InBounds(Advance(y, i).processes[i], s, r)
  {
  }

  lemma {:induction false} StepAccounted(y: System, i: nat, s: Store, calls: seq<Request>)
    requires Accounted(y, s, calls) && Present(s, calls) && i < |calls|
    ensures Accounted(Advance(y, i), s, calls)
  {
    var y' := Advance(y, i);
    StepGrows(y, i);
    OthersUntouched(y, i);
    StepInBounds(y, i, s, calls[i]);
    forall k: nat | |s.tokens| <= k < |y'.store.tokens| ensures HasIssuer(y', k) {
      if k < |y.store.tokens| {
        assert HasIssuer(y, k);
        var j: nat :| Issued(y, j, k);
        IssuedKept(y, y', j, k);
      } else {
        assert Issued(y', i, k);
      }
    }
  }

  lemma {:induction false} RunAccounted(y: System, schedule: seq<nat>, s: Store, calls: seq<Request>)
    requires Accounted(y, s, calls) && Present(s, calls)
    ensures Accounted(Interleaved(y, schedule), s, calls)
    decreases |schedule|
  {
    if schedule != [] {
      if schedule[0] < |calls| { StepAccounted(y, schedule[0], s, calls); }
      RunAccounted(Advance(y, schedule[0]), schedule[1..], s, calls);
    }
  }

  predicate TokensDiffer(s: Store, calls: seq<Request>) {
    forall i, j | 0 <= i < j < |calls| ::
      !(Accepts(s, calls[i]) && Accepts(s, calls[j]) && calls[i].presented == calls[j].presented)
  }

  /** Acceptable requests in one family present one token, so they are the same request. */
  lemma {:induction false} OneAcceptedPerFamily(s: Store, calls: seq<Request>, i: nat, j: nat)
    requires AtMostOneLive(s.tokens) && TokensDiffer(s, calls) && i < |calls| && j < |calls|
    requires Accepts(s, calls[i]) && Accepts(s, calls[j])
    requires s.tokens[calls[i].presented.value].family == s.tokens[calls[j].presented.value].family
    ensures i == j
  {
    assert calls[i].presented == calls[j].presented;
  }

  lemma {:induction false} AccountedHasOneLive(y: System, s: Store, calls: seq<Request>)
    requires Accounted(y, s, calls) && AtMostOneLive(s.tokens) && TokensDiffer(s, calls)
    ensures AtMostOneLive(y.store.tokens)
  {
    var tokens, n := y.store.tokens, |s.tokens|;
    forall a, b | 0 <= a < b < |tokens| && tokens[a].family == tokens[b].family
      ensures tokens[a].revoked || tokens[b].revoked
    {
      if n <= b {
        assert HasIssuer(y, b);
        var j: nat :| Issued(y, j, b);
        assert InBounds(y.processes[j], s, calls[j]);
        if n <= a {
          assert HasIssuer(y, a);
          var i: nat :| Issued(y, i, a);
          assert InBounds(y.processes[i], s, calls[i]);
          OneAcceptedPerFamily(s, calls, i, j);
        }
      }
    }
  }

  // ---------- Two rotations of one token ----------

  lemma {:induction false} OneStep(y: System, i: nat)
    ensures Interleaved(y, [i]) == Advance(y, i)
  {
    var y' := Advance(y, i);
    assert [i][1..] == [];
    assert Interleaved(y', []) == y';
  }

  lemma {:induction false} FourSteps(y: System, i: nat, j: nat)
    ensures Interleaved(y, [i, j, i, j]) == Advance(Advance(Advance(Advance(y, i), j), i), j)
  {
    var y1 := Advance(y, i);
    var y2 := Advance(y1, j);
    var y3 := Advance(y2, i);
    assert [i, j, i, j][1..] == [j, i, j] && [j, i, j][1..] == [i, j] && [i, j][1..] == [j] && [j][1..] == [];
    assert Interleaved(y, [i, j, i, j]) == Interleaved(y1, [j, i, j]) == Interleaved(y2, [i, j]) ==
      Interleaved(y3, [j]);
    assert Interleaved(y3, [j]) == Interleaved(Advance(y3, j), []);
  }

  /** Both read before either rotates: both succeed, and both new tokens are live. */
  lemma {:induction false} TwoRotations(s: Store, calls: seq<Request>, i: nat, j: nat)
    requires i < j < |calls| && Accepts(s, calls[i]) && Accepts(s, calls[j]) && calls[i].presented == calls[j].presented
    ensures var y := Interleaved(Boot(s, calls), [i, j, i, j]);
      && |y.processes| == |calls| && y.processes[i].pc.Rotated? && y.processes[j].pc.Rotated?
      && !AtMostOneLive(y.store.tokens)
  {
    var y0, t, n := Boot(s, calls), calls[i].presented.value, |s.tokens|;
    var y1 := Advance(y0, i);
    var y2 := Advance(y1, j);
    assert y2.store == s && y2.processes[i].pc.Accepted? && y2.processes[j].pc.Accepted?;
    var y3 := Advance(y2, i);
    assert y3.store.tokens == RotatedTokens(s.tokens, t, calls[i]);
    var tokens := Advance(y3, j).store.tokens;
    assert tokens == RotatedTokens(y3.store.tokens, t, calls[j]);
    assert tokens[n].family == tokens[n + 1].family && !tokens[n].revoked && !tokens[n + 1].revoked;
    FourSteps(y0, i, j);
  }

  /** Any refresh requests in any interleaving: every family keeps at most one unrevoked
      token exactly when no two acceptable requests present the same token. */
  lemma OneLiveTokenIffTokensDiffer(s: Store, calls: seq<Request>)
    requires Valid(s) && Present(s, calls)
    ensures (forall schedule :: AtMostOneLive(Interleaved(Boot(s, calls), schedule).store.tokens))
      <==> TokensDiffer(s, calls)
  {
    AtomicStoreHasOneLive(s);
    if TokensDiffer(s, calls) {
      forall schedule ensures AtMostOneLive(Interleaved(Boot(s, calls), schedule).store.tokens) {
        RunAccounted(Boot(s, calls), schedule, s, calls);
        AccountedHasOneLive(Interleaved(Boot(s, calls), schedule), s, calls);
      }
    } else {
      var i: nat, j: nat :|
        i < j < |calls| && Accepts(s, calls[i]) && Accepts(s, calls[j]) && calls[i].presented == calls[j].presented;
      TwoRotations(s, calls, i, j);
    }
  }

  // ---------- Reuse detection under interleaving ----------

  /** Nobody acceptable presents a token of the family. */
  predicate NoneAccepted(s: Store, calls: seq<Request>, family: nat) {
    forall i | 0 <= i < |calls| && Accepts(s, calls[i]) :: s.tokens[calls[i].presented.value].family != family
  }

  /** Call i presents a revoked token of the family. */
  predicate Replays(s: Store, calls: seq<Request>, i: nat, family: nat) {
    i < |calls| && PresentsRevoked(s, calls[i]) && s.tokens[calls[i].presented.value].family == family
  }

  /** Where the replaying call stands: it has revoked the family once it has returned. */
  ghost predicate Detecting(y: System, s: Store, calls: seq<Request>, i: nat, family: nat) {
    && Accounted(y, s, calls) && Replays(s, calls, i, family) && NoneAccepted(s, calls, family)
    && !y.processes[i].pc.Rotated? && !y.processes[i].pc.Accepted?
    && (y.processes[i].pc.Refused? ==> Dead(y.store.tokens, family))
  }

  lemma {:induction false} NoNewTokens(y: System, s: Store, calls: seq<Request>, family: nat)
    requires Accounted(y, s, calls) && NoneAccepted(s, calls, family)
    ensures forall k | |s.tokens| <= k < |y.store.tokens| :: y.store.tokens[k].family != family
  {
    forall k: nat | |s.tokens| <= k < |y.store.tokens| ensures y.store.tokens[k].family != family {
      assert HasIssuer(y, k);
      var i: nat :| Issued(y, i, k);
      assert InBounds(y.processes[i], s, calls[i]);
    }
  }

  lemma {:induction false} OwnDetection(y: System, s: Store, calls: seq<Request>, i: nat, family: nat)
    requires Detecting(y, s, calls, i, family)
    ensures var y' := Advance(y, i);
      && !y'.processes[i].pc.Rotated? && !y'.processes[i].pc.Accepted?
      && (y'.processes[i].pc.Refused? ==> Dead(y'.store.tokens, family))
  {
    var t := calls[i].presented.value;
    assert InBounds(y.processes[i], s, calls[i]);
    assert y.store.tokens[t].revoked && y.store.tokens[t].family == family;
  }

  lemma {:induction false} DetectionStep(y: System, j: nat, s: Store, calls: seq<Request>, i: nat, family: nat)
    requires Detecting(y, s, calls, i, family) && Present(s, calls) && j < |calls|
    ensures Detecting(Advance(y, j), s, calls, i, family)
  {
    var y' := Advance(y, j);
    StepAccounted(y, j, s, calls);
    OthersUntouched(y, j);
    if i == j {
      OwnDetection(y, s, calls, i, family);
    } else if y.processes[i].pc.Refused? {
      StepGrows(y, j);
      NoNewTokens(y', s, calls, family);
    }
  }

  lemma {:induction false} DetectionRun(y: System, schedule: seq<nat>, s: Store, calls: seq<Request>, i: nat,
                                        family: nat)
    requires Detecting(y, s, calls, i, family) && Present(s, calls)
    ensures Detecting(Interleaved(y, schedule), s, calls, i, family)
    decreases |schedule|
  {
    if schedule != [] {
      if schedule[0] < |calls| { DetectionStep(y, schedule[0], s, calls, i, family); }
      DetectionRun(Advance(y, schedule[0]), schedule[1..], s, calls, i, family);
    }
  }

  /** Calls take at most two steps. */
  lemma {:induction false} TwoStepsReturn(y: System, i: nat)
    requires i < |y.processes|
    ensures var y' := Interleaved(y, [i, i]);
      && |y'.processes| == |y.processes| && y'.processes[i].pc in {Rotated, Refused}
      && forall j | 0 <= j < |y.processes| && j != i :: y'.processes[j] == y.processes[j]
  {
    assert [i, i][1..] == [i] && [i][1..] == [];
    assert Interleaved(y, [i, i]) == Interleaved(Advance(y, i), [i]) == Interleaved(Advance(Advance(y, i), i), []);
    OthersUntouched(y, i);
    OthersUntouched(Advance(y, i), i);
  }

  /** The first n calls but call i run to their ends. */
  function OthersReturn(i: nat, n: nat): seq<nat> {
    if n == 0 then [] else OthersReturn(i, n - 1) + if n - 1 == i then [] else [n - 1, n - 1]
  }

  lemma {:induction false} AfterOthersReturn(y: System, i: nat, n: nat)
    requires n <= |y.processes| && i < |y.processes|
    ensures var y' := Interleaved(y, OthersReturn(i, n));
      && |y'.processes| == |y.processes| && y'.processes[i] == y.processes[i]
      && forall m | 0 <= m < n && m != i :: y'.processes[m].pc in {Rotated, Refused}
  {
    if n > 0 {
      var before := OthersReturn(i, n - 1);
      AfterOthersReturn(y, i, n - 1);
      if n - 1 == i {
        assert OthersReturn(i, n) == before;
      } else {
        InTwo(y, before, [n - 1, n - 1]);
        TwoStepsReturn(Interleaved(y, before), n - 1);
      }
    }
  }

  /** An accepted request that rotates last leaves its family alive. */
  lemma {:induction false} RotatesLast(s: Store, calls: seq<Request>, i: nat) returns (schedule: seq<nat>)
    requires Present(s, calls) && i < |calls| && Accepts(s, calls[i])
    ensures AllReturned(Interleaved(Boot(s, calls), schedule))
    ensures !Dead(Interleaved(Boot(s, calls), schedule).store.tokens, s.tokens[calls[i].presented.value].family)
  {
    var y0, others, t := Boot(s, calls), OthersReturn(i, |calls|), calls[i].presented.value;
    schedule := [i] + (others + [i]);
    var y1 := Interleaved(y0, [i]);
    OneStep(y0, i);
    OthersUntouched(y0, i);
    AfterOthersReturn(y1, i, |calls|);
    var y2 := Interleaved(y1, others);
    RunAccounted(y0, [i] + others, s, calls);
    InTwo(y0, [i], others);
    InTwo(y1, others, [i]);
    InTwo(y0, [i], others + [i]);
    var y3 := Advance(y2, i);
    OneStep(y2, i);
    var n := |y2.store.tokens|;
    assert y3.store.tokens == RotatedTokens(y2.store.tokens, t, calls[i]);
    assert y3.store.tokens[n].family == s.tokens[t].family && !y3.store.tokens[n].revoked;
    OthersUntouched(y2, i);
  }

  /** A family one of whose revoked tokens is presented is dead once all calls have
      returned, under every interleaving, exactly when none of the concurrent requests in
      that family is acceptable: a rotation that has read before outlives the revocation. */
  lemma ReuseKillsFamilyIffNoneAccepted(s: Store, calls: seq<Request>, i: nat, family: nat)
    requires Valid(s) && Present(s, calls) && Replays(s, calls, i, family)
    ensures (forall schedule | AllReturned(Interleaved(Boot(s, calls), schedule)) ::
               Dead(Interleaved(Boot(s, calls), schedule).store.tokens, family))
      <==> NoneAccepted(s, calls, family)
  {
    var y0 := Boot(s, calls);
    if NoneAccepted(s, calls, family) {
      forall schedule | AllReturned(Interleaved(y0, schedule))
        ensures Dead(Interleaved(y0, schedule).store.tokens, family)
      {
        DetectionRun(y0, schedule, s, calls, i, family);
        assert Interleaved(y0, schedule).processes[i] in Interleaved(y0, schedule).processes;
      }
    } else {
      var j: nat :| j < |calls| && Accepts(s, calls[j]) && s.tokens[calls[j].presented.value].family == family;
      var schedule := RotatesLast(s, calls, j);
    }
  }
}
