/** The hourly cleaner is invisible: with its runs inserted anywhere, every call gets the same
    answer as without them. */
module Cleanup {
  import opened Domain
  import opened Auth
  import opened AuthInvariants

  predicate IsClean(e: Event) {
    e.DoCleanOtps? || e.DoCleanTokens?
  }

  /** The same run without the cleaner. */
  function WithoutCleaner(events: seq<Event>): seq<Event> {
    if events == [] then []
    else (if IsClean(events[0]) then [] else [events[0]]) + WithoutCleaner(events[1..])
  }

  /** The answers the calls of a run get, the cleaner's own runs left out. */
  function Answers(s: State, events: seq<Event>): seq<Reply>
    decreases |events|
  {
    if events == [] then []
    else
      (if IsClean(events[0]) then [] else [Apply(s, events[0]).reply])
      + Answers(Apply(s, events[0]).s, events[1..])
  }

  // ---- The relation between the two runs ----

  /** Codes expire in the order they were created. */
  ghost predicate ExpiryOrdered(s: State) {
    && (forall i, j :: i in s.otps && j in s.otps && i <= j ==> s.otps[i].expiresAt <= s.otps[j].expiresAt)
    && (forall i :: i in s.otps ==> i < s.nextOtp && s.otps[i].expiresAt <= s.now + OTP_TTL)
  }

  ghost predicate OtpsThinned(full: map<OtpId, Otp>, thin: map<OtpId, Otp>, now: Time) {
    && (forall i :: i in thin ==> i in full && thin[i] == full[i])
    && (forall i :: i in full && i !in thin ==> full[i].expiresAt < now)
  }

  predicate Dead(t: Token, now: Time) {
    t.revokedAt.Some? || t.expiresAt < now
  }

  ghost predicate TokensThinned(full: map<TokenId, Token>, thin: map<TokenId, Token>, now: Time) {
    && (forall t :: t in thin ==> t in full && thin[t] == full[t])
    && (forall t :: t in full && t !in thin ==> Dead(full[t], now))
  }

  /** The cleaned state lacks only expired codes and dead tokens. */
  ghost predicate Cleaned(s: State, c: State) {
    && c == s.(otps := c.otps, tokens := c.tokens)
    && OtpsThinned(s.otps, c.otps, s.now)
    && TokensThinned(s.tokens, c.tokens, s.now)
    && ExpiryOrdered(s)
  }

  // ---- Codes ----

  /** Where the full table's latest record is still valid, the thinned one has the same latest;
      otherwise the thinned latest, if any, has expired as well. */
  lemma LatestAgrees(s: State, c: State, user: UserId, purpose: Purpose)
    requires Cleaned(s, c)
    ensures
      var full := LatestOtp(s.otps, user, purpose, s.nextOtp);
      var thin := LatestOtp(c.otps, user, purpose, c.nextOtp);
      && (full.Some? && !(s.otps[full.value].expiresAt < s.now) ==>
            thin == full && full.value in c.otps && c.otps[full.value] == s.otps[full.value])
      && (full.None? || s.otps[full.value].expiresAt < s.now ==>
            thin.None? || c.otps[thin.value].expiresAt < c.now)
  {
    var full := LatestOtp(s.otps, user, purpose, s.nextOtp);
    var thin := LatestOtp(c.otps, user, purpose, c.nextOtp);
    LatestIsCandidate(s.otps, user, purpose, s.nextOtp);
    LatestIsCandidate(c.otps, user, purpose, c.nextOtp);
    if thin.Some? {
      assert Candidate(s.otps, thin.value, user, purpose);
    }
    if full.Some? && full.value in c.otps {
      assert Candidate(c.otps, full.value, user, purpose);
    }
  }

  /** The same write to a record that both tables hold. */
  lemma WriteBoth(s: State, c: State, id: OtpId, record: Otp, guesses: seq<Guess>)
    requires Cleaned(s, c) && id in s.otps && id in c.otps && record.expiresAt == s.otps[id].expiresAt
    ensures Cleaned(s.(otps := s.otps[id := record], guesses := guesses), c.(otps := c.otps[id := record], guesses := guesses))
  {
  }

  /** Without a latest record, or with an expired one, every code is refused and nothing changes. */
  lemma ShutOut(s: State, user: UserId, purpose: Purpose, code: Secret)
    requires var latest := LatestOtp(s.otps, user, purpose, s.nextOtp);
             latest.None? || s.otps[latest.value].expiresAt < s.now
    ensures ValidateOtp(s, user, purpose, code) == Result(s, Failed(BadRequest))
  {
  }

  /** With the same unexpired latest record, both tables decide alike. */
  lemma OpenAgrees(s: State, c: State, user: UserId, purpose: Purpose, code: Secret, id: OtpId)
    requires Cleaned(s, c)
    requires LatestOtp(s.otps, user, purpose, s.nextOtp) == Some(id) == LatestOtp(c.otps, user, purpose, c.nextOtp)
    requires !(s.otps[id].expiresAt < s.now) && c.otps[id] == s.otps[id]
    ensures
      var vs, vc := ValidateOtp(s, user, purpose, code), ValidateOtp(c, user, purpose, code);
      vs.reply == vc.reply && Cleaned(vs.s, vc.s)
  {
    var record, guesses := s.otps[id], ValidateOtp(s, user, purpose, code).s.guesses;
    if record.attempts < OTP_MAX_ATTEMPTS {
      WriteBoth(s, c, id, if code == record.code then record.(used := true) else record.(attempts := record.attempts + 1),
                guesses);
    }
  }

  lemma ValidateAgrees(s: State, c: State, user: UserId, purpose: Purpose, code: Secret)
    requires Cleaned(s, c)
    ensures
      var vs, vc := ValidateOtp(s, user, purpose, code), ValidateOtp(c, user, purpose, code);
      vs.reply == vc.reply && Cleaned(vs.s, vc.s)
  {
    LatestAgrees(s, c, user, purpose);
    var full := LatestOtp(s.otps, user, purpose, s.nextOtp);
    if full.Some? && !(s.otps[full.value].expiresAt < s.now) {
      OpenAgrees(s, c, user, purpose, code, full.value);
    } else {
      ShutOut(s, user, purpose, code);
      ShutOut(c, user, purpose, code);
    }
  }

  lemma SendAgrees(s: State, c: State, user: UserId, purpose: Purpose, code: Secret)
    requires Cleaned(s, c)
    ensures Cleaned(SendOtp(s, user, purpose, code), SendOtp(c, user, purpose, code))
  {
  }

  // ---- Tokens ----

  /** New token ids are new to both tables. */
  ghost predicate NextIsFresh(s: State) {
    forall t :: t in s.tokens ==> t < s.nextToken
  }

  lemma IssueAgrees(s: State, c: State, user: UserId, parent: Option<TokenId>)
    requires Cleaned(s, c) && NextIsFresh(s)
    ensures Cleaned(IssueTokens(s, user, parent), IssueTokens(c, user, parent))
  {
  }

  lemma RevokeAllAgrees(s: State, c: State, user: UserId)
    requires Cleaned(s, c)
    ensures Cleaned(RevokeAll(s, user), RevokeAll(c, user))
  {
  }

  lemma RefreshAgrees(s: State, c: State, token: TokenId)
    requires Cleaned(s, c) && NextIsFresh(s)
    ensures Refresh(s, token).reply == Refresh(c, token).reply && Cleaned(Refresh(s, token).s, Refresh(c, token).s)
  {
  }

  lemma LogoutAgrees(s: State, c: State, token: TokenId)
    requires Cleaned(s, c)
    ensures Logout(s, token).reply == Logout(c, token).reply && Cleaned(Logout(s, token).s, Logout(c, token).s)
  {
  }

  // ---- Calls ----

  lemma WithUsers(s: State, c: State, users: map<UserId, User>)
    requires Cleaned(s, c)
    ensures Cleaned(s.(users := users), c.(users := users))
  {
  }

  lemma RegisterAgrees(s: State, c: State, user: UserId, password: Secret, code: Secret)
    requires Cleaned(s, c)
    ensures Register(s, user, password, code).reply == Register(c, user, password, code).reply
    ensures Cleaned(Register(s, user, password, code).s, Register(c, user, password, code).s)
  {
    var again := if user in s.users then s.users[user].(password := password) else User(password, false, false, false);
    WithUsers(s, c, s.users[user := again]);
    SendAgrees(s.(users := s.users[user := again]), c.(users := s.users[user := again]), user, EmailVerification, code);
  }

  lemma VerifyAgrees(s: State, c: State, user: UserId, code: Secret)
    requires Cleaned(s, c) && NextIsFresh(s)
    ensures VerifyEmail(s, user, code).reply == VerifyEmail(c, user, code).reply
    ensures Cleaned(VerifyEmail(s, user, code).s, VerifyEmail(c, user, code).s)
  {
    ValidateAgrees(s, c, user, EmailVerification, code);
    ValidateFrame(s, user, EmailVerification, code);
    ValidateFrame(c, user, EmailVerification, code);
    var vs, vc := ValidateOtp(s, user, EmailVerification, code), ValidateOtp(c, user, EmailVerification, code);
    if VerifyEmail(s, user, code).reply.Done? {
      var users := s.users[user := s.users[user].(isEmailVerified := true)];
      WithUsers(vs.s, vc.s, users);
      IssueAgrees(vs.s.(users := users), vc.s.(users := users), user, None);
    }
  }

  lemma ResetAgrees(s: State, c: State, user: UserId, code: Secret, password: Secret)
    requires Cleaned(s, c)
    ensures ResetPassword(s, user, code, password).reply == ResetPassword(c, user, code, password).reply
    ensures Cleaned(ResetPassword(s, user, code, password).s, ResetPassword(c, user, code, password).s)
  {
    ValidateAgrees(s, c, user, PasswordReset, code);
    var vs, vc := ValidateOtp(s, user, PasswordReset, code), ValidateOtp(c, user, PasswordReset, code);
    if ResetPassword(s, user, code, password).reply.Done? {
      var users := s.users[user := s.users[user].(password := password)];
      WithUsers(vs.s, vc.s, users);
      RevokeAllAgrees(vs.s.(users := users), vc.s.(users := users), user);
    }
  }

  lemma LoginAgrees(s: State, c: State, user: UserId, password: Secret)
    requires Cleaned(s, c) && NextIsFresh(s)
    ensures Login(s, user, password).reply == Login(c, user, password).reply
    ensures Cleaned(Login(s, user, password).s, Login(c, user, password).s)
  {
  }

  lemma AccountAgrees(s: State, c: State, user: UserId, suspended: bool, deleted: bool)
    requires Cleaned(s, c)
    ensures var e := SetAccount(user, suspended, deleted);
            Apply(s, e).reply == Apply(c, e).reply && Cleaned(Apply(s, e).s, Apply(c, e).s)
  {
    if user in s.users {
      WithUsers(s, c, s.users[user := s.users[user].(isSuspended := suspended, isDeleted := deleted)]);
    }
  }

  lemma TickAgrees(s: State, c: State, elapsed: Time)
    requires Cleaned(s, c)
    ensures Cleaned(Apply(s, Tick(elapsed)).s, Apply(c, Tick(elapsed)).s)
  {
  }

  /** Any call gets the same answer in both states, and they stay related. */
  lemma CallAgrees(s: State, c: State, e: Event)
    requires Cleaned(s, c) && NextIsFresh(s) && !IsClean(e)
    ensures Apply(s, e).reply == Apply(c, e).reply && Cleaned(Apply(s, e).s, Apply(c, e).s)
  {
    match e
    case Tick(elapsed) => TickAgrees(s, c, elapsed);
    case DoRegister(user, password, code) => RegisterAgrees(s, c, user, password, code);
    case DoVerifyEmail(user, code) => VerifyAgrees(s, c, user, code);
    case DoLogin(user, password) => LoginAgrees(s, c, user, password);
    case DoRefresh(token) => RefreshAgrees(s, c, token);
    case DoLogout(token) => LogoutAgrees(s, c, token);
    case DoForgotPassword(user, code) => SendAgrees(s, c, user, PasswordReset, code);
    case DoResetPassword(user, code, password) => ResetAgrees(s, c, user, code, password);
    case SetAccount(user, suspended, deleted) => AccountAgrees(s, c, user, suspended, deleted);
  }

  /** A cleaning of the thinner state alone keeps the relation. */
  lemma CleaningAgrees(s: State, c: State, e: Event)
    requires Cleaned(s, c) && IsClean(e)
    ensures Cleaned(s, Apply(c, e).s)
  {
  }

  lemma FreshKept(s: State, e: Event)
    requires TokensOk(s)
    ensures NextIsFresh(s) && TokensOk(Apply(s, e).s)
  {
    EventKeepsTokens(s, e);
  }

  lemma {:induction false} RunsAgree(s: State, c: State, events: seq<Event>)
    requires Cleaned(s, c) && TokensOk(s)
    ensures Answers(s, WithoutCleaner(events)) == Answers(c, events)
    decreases |events|
  {
    if events == [] {
    } else {
      var e := events[0];
      if IsClean(e) {
        CleaningAgrees(s, c, e);
        RunsAgree(s, Apply(c, e).s, events[1..]);
        assert WithoutCleaner(events) == WithoutCleaner(events[1..]);
      } else {
        FreshKept(s, e);
        CallAgrees(s, c, e);
        RunsAgree(Apply(s, e).s, Apply(c, e).s, events[1..]);
        assert WithoutCleaner(events)[1..] == WithoutCleaner(events[1..]);
        assert WithoutCleaner(events)[0] == e;
      }
    }
  }

  /** A run with hourly cleanups anywhere accepts and refuses exactly what the same run without
      them does, and refuses with the same exception class. (The message may differ: a code that
      has expired is reported as missing once it has been cleaned away.) */
  lemma CleanupIsInvisible(ttl: Time, events: seq<Event>)
    ensures Answers(Opening(ttl), events) == Answers(Opening(ttl), WithoutCleaner(events))
  {
    RunsAgree(Opening(ttl), Opening(ttl), events);
  }

  /** And it is not idle: after both cleanings exactly the unexpired codes are left, and of the
      tokens exactly the unexpired ones that are live or were revoked in the last seven days. */
  lemma CleanupIsExact(s: State)
    ensures
      var c := CleanTokens(CleanOtps(s));
      && (forall id: OtpId :: id in c.otps <==> id in s.otps && s.now <= s.otps[id].expiresAt)
      && (forall t: TokenId :: t in c.tokens <==>
            t in s.tokens && s.now <= s.tokens[t].expiresAt
            && (s.tokens[t].revokedAt.Some? ==> s.now <= s.tokens[t].revokedAt.value + 7 * 24 * 3600 * 1000))
      && c == s.(otps := c.otps, tokens := c.tokens)
  {
  }
}
