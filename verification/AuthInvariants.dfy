/** Token families, password resets and the bound on guesses, over every run of calls. */
module AuthInvariants {
  import opened Domain
  import opened Auth

  // ---- Tokens ----

  predicate Live(t: Token) {
    t.revokedAt.None?
  }

  ghost predicate OneLivePerFamily(tokens: map<TokenId, Token>, family: map<TokenId, TokenId>) {
    forall t, t' :: (t in tokens && t' in tokens && Live(tokens[t]) && Live(tokens[t'])
                     && t in family && t' in family && family[t] == family[t']) ==> t == t'
  }

  ghost predicate IdsOk(s: State) {
    && (forall t :: t in s.tokens ==> t in s.family)
    && (forall t :: t in s.family ==> t < s.nextToken && s.family[t] <= t)
  }

  ghost predicate OwnersVerified(s: State) {
    forall t :: t in s.tokens ==> s.tokens[t].userId in s.users && s.users[s.tokens[t].userId].isEmailVerified
  }

  ghost predicate TokensOk(s: State) {
    IdsOk(s) && OneLivePerFamily(s.tokens, s.family) && OwnersVerified(s)
  }

  lemma IssueNewFamily(s: State, user: UserId)
    requires TokensOk(s) && user in s.users && s.users[user].isEmailVerified
    ensures TokensOk(IssueTokens(s, user, None))
  {
  }

  lemma RevokeKeeps(s: State, id: TokenId)
    requires TokensOk(s) && id in s.tokens
    ensures TokensOk(Revoke(s, id))
  {
  }

  /** Rotation: the family's one live token is revoked before its successor is created. */
  lemma RotateKeeps(s: State, token: TokenId)
    requires TokensOk(s) && token in s.tokens && Live(s.tokens[token])
    ensures TokensOk(IssueTokens(Revoke(s, token), s.tokens[token].userId, Some(token)))
  {
  }

  lemma RevokeAllKeeps(s: State, user: UserId)
    requires TokensOk(s)
    ensures TokensOk(RevokeAll(s, user))
  {
  }

  /** Replacing a user row that stays verified, or the codes, concerns no token. */
  lemma UsersFrame(s: State, s': State)
    requires TokensOk(s) && s'.tokens == s.tokens && s'.family == s.family && s'.nextToken == s.nextToken
    requires forall u :: u in s.users ==>
               u in s'.users && (s.users[u].isEmailVerified ==> s'.users[u].isEmailVerified)
    ensures TokensOk(s')
  {
  }

  lemma ValidateFrame(s: State, user: UserId, purpose: Purpose, code: Secret)
    ensures var s' := ValidateOtp(s, user, purpose, code).s;
            s' == s.(otps := s'.otps, guesses := s'.guesses)
  {
  }

  lemma VerifyKeepsTokens(s: State, user: UserId, code: Secret)
    requires TokensOk(s)
    ensures TokensOk(VerifyEmail(s, user, code).s)
  {
    ValidateFrame(s, user, EmailVerification, code);
    var v := ValidateOtp(s, user, EmailVerification, code);
    UsersFrame(s, v.s);
    if VerifyEmail(s, user, code).reply.Done? {
      var s1 := v.s.(users := s.users[user := s.users[user].(isEmailVerified := true)]);
      UsersFrame(s, s1);
      IssueNewFamily(s1, user);
    }
  }

  lemma ResetKeepsTokens(s: State, user: UserId, code: Secret, password: Secret)
    requires TokensOk(s)
    ensures TokensOk(ResetPassword(s, user, code, password).s)
  {
    ValidateFrame(s, user, PasswordReset, code);
    var v := ValidateOtp(s, user, PasswordReset, code);
    UsersFrame(s, v.s);
    if ResetPassword(s, user, code, password).reply.Done? {
      var s1 := v.s.(users := s.users[user := s.users[user].(password := password)]);
      UsersFrame(s, s1);
      RevokeAllKeeps(s1, user);
    }
  }

  lemma LoginKeepsTokens(s: State, user: UserId, password: Secret)
    requires TokensOk(s)
    ensures TokensOk(Login(s, user, password).s)
  {
  }

  lemma RefreshKeepsTokens(s: State, token: TokenId)
    requires TokensOk(s)
    ensures TokensOk(Refresh(s, token).s)
  {
    if token in s.tokens && Live(s.tokens[token]) {
      RevokeKeeps(s, token);
      RotateKeeps(s, token);
    }
  }

  lemma LogoutKeepsTokens(s: State, token: TokenId)
    requires TokensOk(s)
    ensures TokensOk(Logout(s, token).s)
  {
  }

  lemma CleanTokensKeeps(s: State)
    requires TokensOk(s)
    ensures TokensOk(CleanTokens(s))
  {
  }

  /** Calls that write no token. */
  predicate TokenFree(e: Event) {
    e.Tick? || e.DoRegister? || e.DoForgotPassword? || e.SetAccount? || e.DoCleanOtps?
  }

  lemma TokenFreeKeeps(s: State, e: Event)
    requires TokensOk(s) && TokenFree(e)
    ensures TokensOk(Apply(s, e).s)
  {
    UsersFrame(s, Apply(s, e).s);
  }

  lemma EventKeepsTokens(s: State, e: Event)
    requires TokensOk(s)
    ensures TokensOk(Apply(s, e).s)
  {
    match e
    case Tick(_) => TokenFreeKeeps(s, e);
    case DoRegister(_, _, _) => TokenFreeKeeps(s, e);
    case DoVerifyEmail(user, code) => VerifyKeepsTokens(s, user, code);
    case DoLogin(user, password) => LoginKeepsTokens(s, user, password);
    case DoRefresh(token) => RefreshKeepsTokens(s, token);
    case DoLogout(token) => LogoutKeepsTokens(s, token);
    case DoForgotPassword(_, _) => TokenFreeKeeps(s, e);
    case DoResetPassword(user, code, password) => ResetKeepsTokens(s, user, code, password);
    case SetAccount(_, _, _) => TokenFreeKeeps(s, e);
    case DoCleanOtps => TokenFreeKeeps(s, e);
    case DoCleanTokens => CleanTokensKeeps(s);
  }

  lemma {:induction false} RunKeepsTokens(s: State, events: seq<Event>)
    requires TokensOk(s)
    ensures TokensOk(Run(s, events))
    decreases |events|
  {
    if events == [] {
    } else {
      EventKeepsTokens(s, events[0]);
      RunKeepsTokens(Apply(s, events[0]).s, events[1..]);
    }
  }

  /** In every reachable state the tokens descending from one login or verification include at
      most one unrevoked token, and every stored token belongs to an email-verified user. */
  lemma TokenRotation(ttl: Time, events: seq<Event>)
    ensures
      var s := Run(Opening(ttl), events);
      && (forall t, t' :: (t in s.tokens && t' in s.tokens && Live(s.tokens[t]) && Live(s.tokens[t'])
                           && t in s.family && t' in s.family && s.family[t] == s.family[t']) ==> t == t')
      && (forall t :: t in s.tokens ==>
            t in s.family && s.tokens[t].userId in s.users && s.users[s.tokens[t].userId].isEmailVerified)
  {
    RunKeepsTokens(Opening(ttl), events);
  }

  // ---- Password reset ----

  /** Token rows keep their owner, their expiry and their revocation, and new ids are new. */
  ghost predicate TokensEvolve(s: State, s': State) {
    && s.now <= s'.now
    && s.nextToken <= s'.nextToken
    && forall t :: t in s'.tokens && t < s.nextToken ==>
        && t in s.tokens && s'.tokens[t].userId == s.tokens[t].userId && s'.tokens[t].expiresAt == s.tokens[t].expiresAt
        && (!Live(s.tokens[t]) ==> !Live(s'.tokens[t]))
  }

  lemma EventEvolves(s: State, e: Event)
    ensures TokensEvolve(s, Apply(s, e).s)
  {
    match e
    case DoVerifyEmail(user, code) => ValidateFrame(s, user, EmailVerification, code);
    case DoResetPassword(user, code, _) => ValidateFrame(s, user, PasswordReset, code);
    case _ =>
  }

  lemma {:induction false} RunEvolves(s: State, events: seq<Event>)
    ensures TokensEvolve(s, Run(s, events))
    decreases |events|
  {
    if events == [] {
    } else {
      EventEvolves(s, events[0]);
      RunEvolves(Apply(s, events[0]).s, events[1..]);
    }
  }

  /** No token issued to a user before a successful password reset is accepted after it. */
  lemma ResetEndsSessions(s: State, user: UserId, code: Secret, password: Secret, events: seq<Event>, token: TokenId)
    requires ResetPassword(s, user, code, password).reply.Done?
    requires token < s.nextToken && (token in s.tokens ==> s.tokens[token].userId == user)
    ensures Refresh(Run(ResetPassword(s, user, code, password).s, events), token).reply == Failed(Unauthorized)
  {
    var s1 := ResetPassword(s, user, code, password).s;
    ValidateFrame(s, user, PasswordReset, code);
    RunEvolves(s1, events);
    assert token in s1.tokens ==> token in s.tokens && !Live(s1.tokens[token]);
  }

  /** A refresh token is good for one presentation: once presented, whatever came of it, it is
      refused for ever. Logging out with it has the same effect. */
  lemma PresentedOnce(s: State, token: TokenId, events: seq<Event>)
    requires token < s.nextToken
    ensures Refresh(Run(Refresh(s, token).s, events), token).reply == Failed(Unauthorized)
    ensures Refresh(Run(Logout(s, token).s, events), token).reply == Failed(Unauthorized)
  {
    EventEvolves(s, DoRefresh(token));
    RunEvolves(Refresh(s, token).s, events);
    RunEvolves(Logout(s, token).s, events);
  }

  predicate Active(u: User) {
    u.isEmailVerified && !u.isSuspended && !u.isDeleted
  }

  /** Why a call hands this user a new token: a matching code, password or predecessor. */
  predicate Entitled(s: State, e: Event, user: UserId) {
    user in s.users
    && match e
       case DoVerifyEmail(u, code) => u == user && !s.users[u].isEmailVerified
                                      && ValidateOtp(s, u, EmailVerification, code).reply.Done?
       case DoLogin(u, password) => u == user && Active(s.users[u]) && s.users[u].password == password
       case DoRefresh(token) =>
         && token in s.tokens && s.tokens[token].userId == user && Live(s.tokens[token])
         && s.now <= s.tokens[token].expiresAt && Active(s.users[user])
       case _ => false
  }

  /** A call creates a token exactly when its caller is entitled to one, and then one. Only the
      email verification does not ask whether the account is suspended or deleted. */
  lemma TokenIffEntitled(s: State, e: Event, user: UserId)
    requires TokensOk(s)
    ensures
      var s' := Apply(s, e).s;
      (s.nextToken in s'.tokens && s'.tokens[s.nextToken].userId == user <==> Entitled(s, e, user))
      && (Entitled(s, e, user) ==>
            s'.nextToken == s.nextToken + 1 && s'.tokens[s.nextToken] == Token(user, s.now + s.ttl, None))
      && forall t :: t in s'.tokens && t !in s.tokens ==> t == s.nextToken
  {
    match e
    case DoVerifyEmail(u, code) => ValidateFrame(s, u, EmailVerification, code);
    case DoResetPassword(u, code, _) => ValidateFrame(s, u, PasswordReset, code);
    case _ =>
  }

  // ---- One-time codes ----

  function Hits(guesses: seq<Guess>, id: OtpId): nat {
    if guesses == [] then 0
    else
      Hits(guesses[..|guesses| - 1], id)
      + if guesses[|guesses| - 1].otp == id && guesses[|guesses| - 1].matched then 1 else 0
  }

  function Misses(guesses: seq<Guess>, id: OtpId): nat {
    if guesses == [] then 0
    else
      Misses(guesses[..|guesses| - 1], id)
      + if guesses[|guesses| - 1].otp == id && !guesses[|guesses| - 1].matched then 1 else 0
  }

  predicate BudgetKept(guesses: seq<Guess>, id: OtpId) {
    Hits(guesses, id) <= 1 && Hits(guesses, id) + Misses(guesses, id) <= OTP_MAX_ATTEMPTS
  }

  /** A stored record's columns are its history. */
  predicate RecordTrue(otps: map<OtpId, Otp>, guesses: seq<Guess>, id: OtpId) {
    id in otps ==>
      && otps[id].attempts == Misses(guesses, id)
      && (if otps[id].used then 1 else 0) == Hits(guesses, id)
  }

  /** What holds of one id: in use, deleted, or still to come. */
  predicate IdTrue(s: State, id: OtpId) {
    && BudgetKept(s.guesses, id)
    && RecordTrue(s.otps, s.guesses, id)
    && (id >= s.nextOtp ==> id !in s.otps && Hits(s.guesses, id) == 0 && Misses(s.guesses, id) == 0)
  }

  ghost predicate GuessesOk(s: State) {
    && (forall id: OtpId :: IdTrue(s, id))
    && (forall i :: 0 <= i < |s.guesses| ==> s.guesses[i].at <= s.guesses[i].expiresAt)
  }

  lemma GuessCounts(guesses: seq<Guess>, g: Guess, id: OtpId)
    ensures Hits(guesses + [g], id) == Hits(guesses, id) + (if g.otp == id && g.matched then 1 else 0)
    ensures Misses(guesses + [g], id) == Misses(guesses, id) + (if g.otp == id && !g.matched then 1 else 0)
  {
  }

  lemma {:induction false} LatestIsCandidate(otps: map<OtpId, Otp>, user: UserId, purpose: Purpose, n: OtpId)
    ensures var l := LatestOtp(otps, user, purpose, n);
            forall id: OtpId :: Candidate(otps, id, user, purpose) && id < n ==> l.Some? && id <= l.value
  {
    if n == 0 {
    } else {
      LatestIsCandidate(otps, user, purpose, n - 1);
    }
  }

  lemma ValidateKeepsId(s: State, user: UserId, purpose: Purpose, code: Secret, id: OtpId)
    requires IdTrue(s, id)
    ensures IdTrue(ValidateOtp(s, user, purpose, code).s, id)
  {
    LatestIsCandidate(s.otps, user, purpose, s.nextOtp);
    var latest := LatestOtp(s.otps, user, purpose, s.nextOtp);
    if latest.Some? {
      var g := Guess(latest.value, s.now, s.otps[latest.value].expiresAt, code == s.otps[latest.value].code);
      GuessCounts(s.guesses, g, id);
    }
  }

  lemma ValidateKeeps(s: State, user: UserId, purpose: Purpose, code: Secret)
    requires GuessesOk(s)
    ensures GuessesOk(ValidateOtp(s, user, purpose, code).s)
  {
    var s' := ValidateOtp(s, user, purpose, code).s;
    forall id: OtpId ensures IdTrue(s', id) {
      ValidateKeepsId(s, user, purpose, code, id);
    }
  }

  lemma SendKeeps(s: State, user: UserId, purpose: Purpose, code: Secret)
    requires GuessesOk(s)
    ensures GuessesOk(SendOtp(s, user, purpose, code))
  {
    forall id: OtpId ensures IdTrue(SendOtp(s, user, purpose, code), id) {
      assert IdTrue(s, id);
    }
  }

  /** Only the code tables, their counter and the guesses matter. */
  lemma GuessesFrame(s: State, s': State)
    requires GuessesOk(s) && s'.guesses == s.guesses && s'.nextOtp == s.nextOtp
    requires forall id :: id in s'.otps ==> id in s.otps && s'.otps[id] == s.otps[id]
    ensures GuessesOk(s')
  {
    forall id: OtpId ensures IdTrue(s', id) {
      assert IdTrue(s, id);
    }
  }

  lemma EventKeepsGuesses(s: State, e: Event)
    requires GuessesOk(s)
    ensures GuessesOk(Apply(s, e).s)
  {
    var s' := Apply(s, e).s;
    match e
    case DoRegister(user, password, code) =>
      if Apply(s, e).reply.Done? {
        SendKeeps(s, user, EmailVerification, code);
        GuessesFrame(SendOtp(s, user, EmailVerification, code), s');
      }
    case DoVerifyEmail(user, code) =>
      ValidateKeeps(s, user, EmailVerification, code);
      if s' != s {
        GuessesFrame(ValidateOtp(s, user, EmailVerification, code).s, s');
      }
    case DoForgotPassword(user, code) => SendKeeps(s, user, PasswordReset, code);
    case DoResetPassword(user, code, _) =>
      ValidateKeeps(s, user, PasswordReset, code);
      if s' != s {
        GuessesFrame(ValidateOtp(s, user, PasswordReset, code).s, s');
      }
    case Tick(_) => GuessesFrame(s, s');
    case DoLogin(_, _) => GuessesFrame(s, s');
    case DoRefresh(_) => GuessesFrame(s, s');
    case DoLogout(_) => GuessesFrame(s, s');
    case SetAccount(_, _, _) => GuessesFrame(s, s');
    case DoCleanOtps => GuessesFrame(s, s');
    case DoCleanTokens => GuessesFrame(s, s');
  }

  lemma {:induction false} RunKeepsGuesses(s: State, events: seq<Event>)
    requires GuessesOk(s)
    ensures GuessesOk(Run(s, events))
    decreases |events|
  {
    if events == [] {
    } else {
      EventKeepsGuesses(s, events[0]);
      RunKeepsGuesses(Apply(s, events[0]).s, events[1..]);
    }
  }

  /** Over any run, however new codes and cleanups are mixed in: at most five hash comparisons
      against one record, at most one of them a match, none after the record expired, and no
      stored attempt count above five. */
  lemma OtpBound(ttl: Time, events: seq<Event>, id: OtpId)
    ensures
      var s := Run(Opening(ttl), events);
      && Hits(s.guesses, id) + Misses(s.guesses, id) <= 5
      && Hits(s.guesses, id) <= 1
      && (forall i :: 0 <= i < |s.guesses| ==> s.guesses[i].at <= s.guesses[i].expiresAt)
      && (id in s.otps ==> s.otps[id].attempts <= 5)
  {
    RunKeepsGuesses(Opening(ttl), events);
    assert IdTrue(Run(Opening(ttl), events), id);
  }

  ghost predicate Newest(otps: map<OtpId, Otp>, id: OtpId, user: UserId, purpose: Purpose) {
    Candidate(otps, id, user, purpose)
    && forall other: OtpId :: Candidate(otps, other, user, purpose) ==> other <= id
  }

  /** A matching code of this record would be accepted now. */
  predicate Open(otps: map<OtpId, Otp>, id: OtpId, code: Secret, now: Time) {
    id in otps && otps[id].code == code && otps[id].attempts < 5 && now <= otps[id].expiresAt
  }

  lemma AcceptedInState(s: State, user: UserId, purpose: Purpose, code: Secret)
    requires GuessesOk(s)
    ensures ValidateOtp(s, user, purpose, code).reply.Done?
      <==> exists id: OtpId :: Newest(s.otps, id, user, purpose) && Open(s.otps, id, code, s.now)
  {
    forall id | id in s.otps ensures id < s.nextOtp {
      assert IdTrue(s, id);
    }
    LatestIsCandidate(s.otps, user, purpose, s.nextOtp);
    var latest := LatestOtp(s.otps, user, purpose, s.nextOtp);
    if latest.Some? {
      assert Newest(s.otps, latest.value, user, purpose);
    }
  }

  /** A code is accepted exactly when it is that of the user's newest unused record for the
      purpose, and that record is neither locked nor expired. */
  lemma AcceptedIffNewest(ttl: Time, events: seq<Event>, user: UserId, purpose: Purpose, code: Secret)
    ensures
      var s := Run(Opening(ttl), events);
      ValidateOtp(s, user, purpose, code).reply.Done?
      <==> exists id: OtpId :: Newest(s.otps, id, user, purpose) && Open(s.otps, id, code, s.now)
  {
    RunKeepsGuesses(Opening(ttl), events);
    AcceptedInState(Run(Opening(ttl), events), user, purpose, code);
  }

  /** May this call have a code for this purpose mailed to this user? A deleted account gets
      none, a verified one none for its e-mail. */
  predicate MayMail(s: State, e: Event, user: UserId, purpose: Purpose) {
    match e
    case DoRegister(u, _, _) =>
      u == user && purpose == EmailVerification
      && (u in s.users ==> !s.users[u].isEmailVerified && !s.users[u].isDeleted)
    case DoForgotPassword(u, _) => u == user && purpose == PasswordReset && u in s.users && !s.users[u].isDeleted
    case _ => false
  }

  /** A call creates a record for a user and purpose exactly when it may mail one: new, unused,
      good for ten minutes. */
  lemma CodeIffMailed(s: State, e: Event, user: UserId, purpose: Purpose)
    requires s.nextOtp !in s.otps
    ensures
      var s' := Apply(s, e).s;
      && (MayMail(s, e, user, purpose) <==> Candidate(s'.otps, s.nextOtp, user, purpose))
      && (MayMail(s, e, user, purpose) ==>
            s'.nextOtp == s.nextOtp + 1 && s'.otps[s.nextOtp].attempts == 0
            && s'.otps[s.nextOtp].expiresAt == s.now + 10 * 60 * 1000 && s'.otps[s.nextOtp].code == e.code)
      && (e.DoRegister? ==> (Apply(s, e).reply.Done? <==> MayMail(s, e, e.user, EmailVerification)))
  {
    match e
    case DoVerifyEmail(u, code) => ValidateFrame(s, u, EmailVerification, code);
    case DoResetPassword(u, code, _) => ValidateFrame(s, u, PasswordReset, code);
    case _ =>
  }
}
