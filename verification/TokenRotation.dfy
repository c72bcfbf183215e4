/** Refresh-token rotation with reuse detection (src/auth/auth.service.ts), after
    section 4.14.2 of RFC 9700. Random values and hashes are fresh opaque numbers: a
    token is known by its position in creation order. */
module TokenRotation {
  import opened Results

  datatype Token = Token(session: nat, family: nat, expiresAt: int, revoked: bool, replacedBy: Option<nat>)

  datatype Session = Session(user: string, revoked: bool)

  datatype Store = Store(sessions: seq<Session>, tokens: seq<Token>, nextFamily: nat)

  /** now, lifetime and the user's status are what the clock, the configuration and the
      user table say at the time of the call. */
  datatype Call =
    | Login(user: string, credentialsOk: bool, now: int, lifetime: int)
    | Refresh(token: nat, userActive: bool, now: int, lifetime: int)
    | Logout(user: string, session: nat, presented: Option<nat>)

  datatype Answer = Answer(result: Result<nat>, store: Store)

  /** revokeTokenFamily. */
  function RevokedFamily(tokens: seq<Token>, family: nat): seq<Token> {
    seq(|tokens|, i requires 0 <= i < |tokens| =>
      if tokens[i].family == family then tokens[i].(revoked := true) else tokens[i])
  }

  /** The last updateMany of logout. */
  function RevokedSession(tokens: seq<Token>, session: nat): seq<Token> {
    seq(|tokens|, i requires 0 <= i < |tokens| =>
      if tokens[i].session == session then tokens[i].(revoked := true) else tokens[i])
  }

  function Step(s: Store, c: Call): Answer {
    match c
    case Login(user, ok, now, lifetime) =>
      if !ok then Answer(Failure(Unauthorized), s)
      else
        var token := Token(|s.sessions|, s.nextFamily, now + lifetime, false, None);
        Answer(Success(|s.tokens|), Store(s.sessions + [Session(user, false)], s.tokens + [token], s.nextFamily + 1))
    case Refresh(i, active, now, lifetime) => RefreshCall(s, i, active, now, lifetime)
    case Logout(user, session, presented) =>
      var tokens := if presented.Some? && presented.value < |s.tokens|
        then RevokedFamily(s.tokens, s.tokens[presented.value].family) else s.tokens;
      var sessions := if session < |s.sessions| && s.sessions[session].user == user
        then s.sessions[session := s.sessions[session].(revoked := true)] else s.sessions;
      Answer(Success(0), s.(sessions := sessions, tokens := RevokedSession(tokens, session)))
  }

  function RefreshCall(s: Store, i: nat, active: bool, now: int, lifetime: int): Answer {
    if i >= |s.tokens| then Answer(Failure(Unauthorized), s)
    else
      var t := s.tokens[i];
      if t.revoked then Answer(Failure(Unauthorized), s.(tokens := RevokedFamily(s.tokens, t.family)))
      else if t.expiresAt < now then Answer(Failure(Unauthorized), s)
      else if t.session < |s.sessions| && s.sessions[t.session].revoked then Answer(Failure(Unauthorized), s)
      else if !active then Answer(Failure(Unauthorized), s)
      else
        var n := |s.tokens|;
        Answer(Success(n), s.(tokens :=
          s.tokens[i := t.(revoked := true, replacedBy := Some(n))]
            + [Token(t.session, t.family, now + lifetime, false, None)]))
  }

  // ---------- The shape of a family ----------

  /** No token of the same family was created strictly between i and j. */
  predicate NoneBetween(tokens: seq<Token>, i: nat, j: nat) {
    forall k | i < k < j && k < |tokens| && i < |tokens| :: tokens[k].family != tokens[i].family
  }

  /** Token i is linked to its family's next token in creation order, and revoked, if
      there is one; the family's last token is linked to nothing. */
  predicate Linked(tokens: seq<Token>, i: nat)
    requires i < |tokens|
  {
    var t := tokens[i];
    match t.replacedBy
    case None => NoneBetween(tokens, i, |tokens|)
    case Some(j) => t.revoked && i < j < |tokens| && tokens[j].family == t.family && NoneBetween(tokens, i, j)
  }

  predicate SameFamilySameSession(tokens: seq<Token>) {
    forall i, j | 0 <= i < |tokens| && 0 <= j < |tokens| ::
      tokens[i].family == tokens[j].family <==> tokens[i].session == tokens[j].session
  }

  predicate Valid(s: Store) {
    && (forall i: nat | i < |s.tokens| :: Linked(s.tokens, i))
    && (forall i | 0 <= i < |s.tokens| :: s.tokens[i].family < s.nextFamily && s.tokens[i].session < |s.sessions|)
    && SameFamilySameSession(s.tokens)
  }

  /** Nothing of the family can be used any more. */
  predicate Dead(tokens: seq<Token>, family: nat) {
    forall i | 0 <= i < |tokens| && tokens[i].family == family :: tokens[i].revoked
  }

  /** Revoking tokens, whichever they are, leaves the links alone. */
  predicate OnlyRevoked(tokens: seq<Token>, r: seq<Token>) {
    && |r| == |tokens|
    && forall i | 0 <= i < |tokens| :: r[i] == tokens[i] || r[i] == tokens[i].(revoked := true)
  }

  lemma OnlyRevokedLinked(tokens: seq<Token>, r: seq<Token>)
    requires OnlyRevoked(tokens, r)
    requires forall i: nat | i < |tokens| :: Linked(tokens, i)
    ensures forall i: nat | i < |r| :: Linked(r, i)
  {
    forall i: nat | i < |r| ensures Linked(r, i) {
      assert Linked(tokens, i);
      assert NoneBetween(tokens, i, |tokens|) ==> NoneBetween(r, i, |tokens|);
      if tokens[i].replacedBy.Some? {
        assert NoneBetween(tokens, i, tokens[i].replacedBy.value);
        assert NoneBetween(r, i, tokens[i].replacedBy.value);
      }
    }
  }

  lemma RefreshLinked(s: Store, i: nat, active: bool, now: int, lifetime: int)
    requires Valid(s) && RefreshCall(s, i, active, now, lifetime).result.Success?
    ensures var r := RefreshCall(s, i, active, now, lifetime).store.tokens;
      forall k: nat | k < |r| :: Linked(r, k)
  {
    var tokens, n := s.tokens, |s.tokens|;
    var r := RefreshCall(s, i, active, now, lifetime).store.tokens;
    assert Linked(tokens, i) && tokens[i].replacedBy == None;
    forall k: nat | k < |r| ensures Linked(r, k) {
      if k < n {
        assert Linked(tokens, k);
        if k == i {
          assert NoneBetween(r, i, n);
        } else if tokens[k].replacedBy == None {
          assert NoneBetween(tokens, k, n) && NoneBetween(tokens, i, n);
          assert tokens[k].family != tokens[i].family;
          assert NoneBetween(r, k, n + 1);
        } else {
          assert NoneBetween(r, k, tokens[k].replacedBy.value);
        }
      }
    }
  }

  lemma LoginValid(s: Store, user: string, ok: bool, now: int, lifetime: int)
    requires Valid(s)
    ensures Valid(Step(s, Login(user, ok, now, lifetime)).store)
  {
    var r := Step(s, Login(user, ok, now, lifetime)).store.tokens;
    forall k: nat | k < |r| ensures Linked(r, k) {
      if k < |s.tokens| {
        assert Linked(s.tokens, k);
        if s.tokens[k].replacedBy.Some? {
          assert NoneBetween(r, k, s.tokens[k].replacedBy.value);
        } else {
          assert NoneBetween(r, k, |r|);
        }
      }
    }
  }

  lemma RefreshValid(s: Store, i: nat, active: bool, now: int, lifetime: int)
    requires Valid(s)
    ensures Valid(RefreshCall(s, i, active, now, lifetime).store)
  {
    var a := RefreshCall(s, i, active, now, lifetime);
    if a.result.Success? {
      RefreshLinked(s, i, active, now, lifetime);
    } else {
      OnlyRevokedLinked(s.tokens, a.store.tokens);
    }
  }

  lemma LogoutValid(s: Store, user: string, session: nat, presented: Option<nat>)
    requires Valid(s)
    ensures Valid(Step(s, Logout(user, session, presented)).store)
  {
    OnlyRevokedLinked(s.tokens, Step(s, Logout(user, session, presented)).store.tokens);
  }

  lemma StepValid(s: Store, c: Call)
    requires Valid(s)
    ensures Valid(Step(s, c).store)
  {
    match c
    case Login(user, ok, now, lifetime) => LoginValid(s, user, ok, now, lifetime);
    case Refresh(i, active, now, lifetime) => RefreshValid(s, i, active, now, lifetime);
    case Logout(user, session, presented) => LogoutValid(s, user, session, presented);
  }

  function Run(s: Store, calls: seq<Call>): Store
    decreases |calls|
  {
    if calls == [] then s else Run(Step(s, calls[0]).store, calls[1..])
  }

  /** In every run each family is one path linked in creation order, with at most its
      last token unrevoked. */
  lemma {:induction false} RunValid(s: Store, calls: seq<Call>)
    requires Valid(s)
    ensures var t := Run(s, calls);
      && Valid(t)
      && forall i, j | 0 <= i < j < |t.tokens| && t.tokens[i].family == t.tokens[j].family :: t.tokens[i].revoked
    decreases |calls|
  {
    if calls == [] {
      forall i, j | 0 <= i < j < |s.tokens| && s.tokens[i].family == s.tokens[j].family ensures s.tokens[i].revoked {
        assert Linked(s.tokens, i);
        assert !NoneBetween(s.tokens, i, |s.tokens|);
      }
    } else {
      StepValid(s, calls[0]);
      RunValid(Step(s, calls[0]).store, calls[1..]);
    }
  }

  lemma FreshStoreValid()
    ensures Valid(Store([], [], 0))
  {
  }

  // ---------- Dead families stay dead ----------

  /** The family of token i, known by one of its tokens: existing tokens keep theirs. */
  predicate DeadWith(s: Store, i: nat) { i < |s.tokens| && Dead(s.tokens, s.tokens[i].family) }

  lemma StepKeepsToken(s: Store, c: Call, i: nat)
    requires i < |s.tokens|
    ensures i < |Step(s, c).store.tokens| && Step(s, c).store.tokens[i].family == s.tokens[i].family
    ensures s.tokens[i].revoked ==> Step(s, c).store.tokens[i].revoked
  {
  }

  lemma StepKeepsDead(s: Store, c: Call, i: nat)
    requires Valid(s) && DeadWith(s, i)
    ensures DeadWith(Step(s, c).store, i)
    ensures c.Refresh? && c.token < |s.tokens| && s.tokens[c.token].family == s.tokens[i].family
      ==> Step(s, c).result.Failure?
  {
    var r := Step(s, c).store.tokens;
    StepKeepsToken(s, c, i);
    forall k | 0 <= k < |r| && r[k].family == r[i].family ensures r[k].revoked {
      if k < |s.tokens| { StepKeepsToken(s, c, k); }
    }
  }

  /** Once no token of a family is unrevoked, no refresh with any of its tokens succeeds
      in any continuation. */
  lemma {:induction false} DeadFamilyNeverRefreshes(s: Store, calls: seq<Call>, i: nat, j: nat, active: bool,
                                                    now: int, lifetime: int)
    requires Valid(s) && DeadWith(s, i)
    ensures var t := Run(s, calls);
      && DeadWith(t, i)
      && (j < |t.tokens| && t.tokens[j].family == t.tokens[i].family ==>
            Step(t, Refresh(j, active, now, lifetime)).result.Failure?)
    decreases |calls|
  {
    if calls != [] {
      StepValid(s, calls[0]);
      StepKeepsDead(s, calls[0], i);
      DeadFamilyNeverRefreshes(Step(s, calls[0]).store, calls[1..], i, j, active, now, lifetime);
    }
  }

  /** Presenting a revoked token kills its family, and so does logging out with a token. */
  lemma ReuseKillsFamily(s: Store, i: nat, active: bool, now: int, lifetime: int)
    requires i < |s.tokens| && s.tokens[i].revoked
    ensures var a := Step(s, Refresh(i, active, now, lifetime));
      a.result.Failure? && DeadWith(a.store, i)
  {
  }

  lemma LogoutKillsFamily(s: Store, user: string, session: nat, i: nat)
    requires i < |s.tokens|
    ensures DeadWith(Step(s, Logout(user, session, Some(i))).store, i)
    ensures s.tokens[i].session == session && Valid(s) ==> DeadWith(Step(s, Logout(user, session, None)).store, i)
  {
  }

  lemma {:induction false} RevokedStaysRevoked(s: Store, calls: seq<Call>, i: nat)
    requires i < |s.tokens| && s.tokens[i].revoked
    ensures i < |Run(s, calls).tokens| && Run(s, calls).tokens[i].revoked
      && Run(s, calls).tokens[i].family == s.tokens[i].family
    decreases |calls|
  {
    if calls != [] {
      StepKeepsToken(s, calls[0], i);
      RevokedStaysRevoked(Step(s, calls[0]).store, calls[1..], i);
    }
  }

  /** A refresh token works at most once: after a successful refresh, presenting the same
      token again at any later time fails, and from then on its family, the token that
      replaced it included, never refreshes again. */
  lemma TokenWorksOnce(s: Store, i: nat, active: bool, now: int, lifetime: int, between: seq<Call>,
                       active': bool, now': int, lifetime': int, later: seq<Call>, last: Call)
    requires Valid(s) && Step(s, Refresh(i, active, now, lifetime)).result.Success?
    requires last.Refresh?
    ensures var t := Run(Step(s, Refresh(i, active, now, lifetime)).store, between);
      var replay := Step(t, Refresh(i, active', now', lifetime'));
      var u := Run(replay.store, later);
      && replay.result.Failure?
      && (i < |u.tokens| && last.token < |u.tokens| && u.tokens[last.token].family == u.tokens[i].family ==>
            Step(u, last).result.Failure?)
  {
    var first := Refresh(i, active, now, lifetime);
    StepValid(s, first);
    var s1 := Step(s, first).store;
    RunValid(s1, between);
    RevokedStaysRevoked(s1, between, i);
    var t := Run(s1, between);
    ReuseKillsFamily(t, i, active', now', lifetime');
    StepValid(t, Refresh(i, active', now', lifetime'));
    DeadFamilyNeverRefreshes(Step(t, Refresh(i, active', now', lifetime')).store, later, i, last.token,
                             last.userActive, last.now, last.lifetime);
  }

  /** Exactly when a refresh succeeds. */
  lemma RefreshSucceedsIff(s: Store, i: nat, active: bool, now: int, lifetime: int)
    requires Valid(s)
    ensures Step(s, Refresh(i, active, now, lifetime)).result.Success? <==>
      && i < |s.tokens| && !s.tokens[i].revoked && now <= s.tokens[i].expiresAt
      && !s.sessions[s.tokens[i].session].revoked && active
      && forall k | i < k < |s.tokens| :: s.tokens[k].family != s.tokens[i].family
  {
    if i < |s.tokens| {
      assert Linked(s.tokens, i);
      if !s.tokens[i].revoked { assert NoneBetween(s.tokens, i, |s.tokens|); }
    }
  }

  // ---------- What each call does ----------

  /** login opens a session and the first token of a new family, with a full lifetime. */
  lemma LoginEffect(s: Store, user: string, ok: bool, now: int, lifetime: int)
    requires Valid(s)
    ensures var a := Step(s, Login(user, ok, now, lifetime));
      && (a.result.Success? <==> ok)
      && (a.result.Failure? ==>
            && a.store == s
            && a.result.error == Unauthorized)
      && (a.result.Success? ==>
            var n := |s.tokens|;
            && a.result.value == n && a.store.sessions == s.sessions + [Session(user, false)]
            && |a.store.tokens| == n + 1 && a.store.tokens[..n] == s.tokens
            && a.store.tokens[n].session == |s.sessions| && a.store.tokens[n].expiresAt == now + lifetime
            && !a.store.tokens[n].revoked && a.store.tokens[n].replacedBy == None
            && forall k | 0 <= k < n :: s.tokens[k].family != a.store.tokens[n].family)
  {
  }

  /** What refresh does with a token: rotate it, end its family, or nothing. */
  lemma RefreshEffect(s: Store, i: nat, active: bool, now: int, lifetime: int)
    requires Valid(s)
    ensures var a, n := Step(s, Refresh(i, active, now, lifetime)), |s.tokens|;
      && a.store.sessions == s.sessions && (a.result.Failure? ==> a.result.error == Unauthorized)
      && (a.result.Success? ==>
            && i < n && a.result.value == n && |a.store.tokens| == n + 1
            && a.store.tokens[i] == s.tokens[i].(revoked := true, replacedBy := Some(n))
            && (forall k | 0 <= k < n && k != i :: a.store.tokens[k] == s.tokens[k])
            && a.store.tokens[n].session == s.tokens[i].session && a.store.tokens[n].family == s.tokens[i].family
            && a.store.tokens[n].expiresAt == now + lifetime
            && !a.store.tokens[n].revoked && a.store.tokens[n].replacedBy == None)
      && (a.result.Failure? && i < n && s.tokens[i].revoked ==>
            && |a.store.tokens| == n
            && forall k | 0 <= k < n ::
                 a.store.tokens[k] ==
                   if s.tokens[k].family == s.tokens[i].family then s.tokens[k].(revoked := true) else s.tokens[k])
      && (a.result.Failure? && (i >= n || !s.tokens[i].revoked) ==> a.store == s)
  {
  }

  /** logout ends the session, if it is the user's, its tokens, and the presented family. */
  lemma LogoutEffect(s: Store, user: string, session: nat, presented: Option<nat>)
    ensures var t := Step(s, Logout(user, session, presented)).store;
      && |t.sessions| == |s.sessions| && |t.tokens| == |s.tokens|
      && (forall j | 0 <= j < |s.sessions| ::
            && t.sessions[j].user == s.sessions[j].user
            && (t.sessions[j].revoked <==>
                  s.sessions[j].revoked || (j == session && s.sessions[j].user == user)))
      && (forall k | 0 <= k < |s.tokens| ::
            && t.tokens[k].(revoked := s.tokens[k].revoked) == s.tokens[k]
            && (t.tokens[k].revoked <==>
                  || s.tokens[k].revoked || s.tokens[k].session == session
                  || (presented.Some? && presented.value < |s.tokens|
                      && s.tokens[k].family == s.tokens[presented.value].family)))
  {
  }

  // ---------- The service ----------

  class AuthService {
    var sessions: seq<Session>
    var tokens: seq<Token>
    var nextFamily: nat

    constructor ()
      ensures Snapshot() == Store([], [], 0)
    {
      sessions, tokens, nextFamily := [], [], 0;
    }

    ghost function Snapshot(): Store
      reads this
    {
      Store(sessions, tokens, nextFamily)
    }

    method RevokeTokenFamily(family: nat)
      modifies this`tokens
      ensures tokens == RevokedFamily(old(tokens), family)
    {
      for i := 0 to |tokens|
        invariant |tokens| == |old(tokens)|
        invariant forall k | 0 <= k < |tokens| ::
          tokens[k] == if k < i then RevokedFamily(old(tokens), family)[k] else old(tokens)[k]
      {
        if tokens[i].family == family && !tokens[i].revoked {
          tokens := tokens[i := tokens[i].(revoked := true)];
        }
      }
    }

    /** generateTokenPair starts a new family. */
    method LoginUser(user: string, credentialsOk: bool, now: int, lifetime: int) returns (r: Result<nat>)
      modifies this
      ensures Answer(r, Snapshot()) == Step(old(Snapshot()), Login(user, credentialsOk, now, lifetime))
    {
      if !credentialsOk {
        return Failure(Unauthorized);
      }
      var session := |sessions|;
      sessions := sessions + [Session(user, false)];
      r := Success(|tokens|);
      tokens := tokens + [Token(session, nextFamily, now + lifetime, false, None)];
      nextFamily := nextFamily + 1;
    }

    method RefreshToken(i: nat, userActive: bool, now: int, lifetime: int) returns (r: Result<nat>)
      modifies this
      ensures Answer(r, Snapshot()) == Step(old(Snapshot()), Refresh(i, userActive, now, lifetime))
    {
      if i >= |tokens| {
        return Failure(Unauthorized);
      }
      var token := tokens[i];
      if token.revoked {
        RevokeTokenFamily(token.family);
        return Failure(Unauthorized);
      }
      if token.expiresAt < now {
        return Failure(Unauthorized);
      }
      if token.session < |sessions| && sessions[token.session].revoked {
        return Failure(Unauthorized);
      }
      if !userActive {
        return Failure(Unauthorized);
      }
      var n := |tokens|;
      tokens := tokens + [Token(token.session, token.family, now + lifetime, false, None)];
      tokens := tokens[i := token.(revoked := true, replacedBy := Some(n))];
      r := Success(n);
    }

    method LogoutUser(user: string, session: nat, presented: Option<nat>)
      modifies this
      ensures Snapshot() == Step(old(Snapshot()), Logout(user, session, presented)).store
    {
      if presented.Some? && presented.value < |tokens| {
        RevokeTokenFamily(tokens[presented.value].family);
      }
      if session < |sessions| && sessions[session].user == user {
        sessions := sessions[session := sessions[session].(revoked := true)];
      }
      ghost var before := tokens;
      for i := 0 to |tokens|
        invariant |tokens| == |before|
        invariant sessions == Step(old(Snapshot()), Logout(user, session, presented)).store.sessions
        invariant nextFamily == old(nextFamily)
        invariant forall k | 0 <= k < |tokens| ::
          tokens[k] == if k < i then RevokedSession(before, session)[k] else before[k]
      {
        if tokens[i].session == session && !tokens[i].revoked {
          tokens := tokens[i := tokens[i].(revoked := true)];
        }
      }
      assert tokens == RevokedSession(before, session);
    }
  }
}
