/** The auth service and the cleaner as objects over the token and code tables, each method
    proved to do what the corresponding function of Auth says. */
module AuthServices {
  import opened Domain
  import opened Auth
  import opened AuthInvariants
  import Cleanup

  /** What every call keeps: token families and verified owners, the record of every guess, and
      codes that expire in the order they were mailed. */
  ghost predicate Sound(s: State) {
    TokensOk(s) && GuessesOk(s) && Cleanup.ExpiryOrdered(s)
  }

  lemma OrderKept(s: State, e: Event)
    requires TokensOk(s) && Cleanup.ExpiryOrdered(s)
    ensures Cleanup.ExpiryOrdered(Apply(s, e).s)
  {
    if Cleanup.IsClean(e) {
    } else {
      Cleanup.FreshKept(s, e);
      Cleanup.CallAgrees(s, s, e);
    }
  }

  /** Cleaning away expired codes changes no answer to a code. */
  lemma CleanedCodesDecide(s: State, user: UserId, purpose: Purpose, code: Secret)
    ensures Sound(s) ==> ValidateOtp(CleanOtps(s), user, purpose, code).reply == ValidateOtp(s, user, purpose, code).reply
  {
    if Sound(s) {
      Cleanup.CleaningAgrees(s, s, DoCleanOtps);
      Cleanup.ValidateAgrees(s, CleanOtps(s), user, purpose, code);
    }
  }

  lemma CallSound(s: State, e: Event, s': State)
    requires s' == Apply(s, e).s
    ensures Sound(s) ==> Sound(s')
  {
    if Sound(s) {
      EventKeepsTokens(s, e);
      EventKeepsGuesses(s, e);
      OrderKept(s, e);
    }
  }

  lemma SendSound(s: State, user: UserId, purpose: Purpose, code: Secret)
    ensures Sound(s) ==> Sound(SendOtp(s, user, purpose, code))
    ensures Sound(s) ==> s.nextOtp !in s.otps && Newest(SendOtp(s, user, purpose, code).otps, s.nextOtp, user, purpose)
  {
    if Sound(s) {
      UsersFrame(s, SendOtp(s, user, purpose, code));
      SendKeeps(s, user, purpose, code);
      assert IdTrue(s, s.nextOtp);
      forall id: OtpId | id in s.otps ensures id < s.nextOtp {
        assert IdTrue(s, id);
      }
    }
  }

  lemma ValidateSound(s: State, user: UserId, purpose: Purpose, code: Secret)
    ensures Sound(s) ==> Sound(ValidateOtp(s, user, purpose, code).s)
  {
    if Sound(s) {
      ValidateFrame(s, user, purpose, code);
      UsersFrame(s, ValidateOtp(s, user, purpose, code).s);
      ValidateKeeps(s, user, purpose, code);
    }
  }

  /** A token may join a family only if none of the family is live. */
  ghost predicate FamilyEnded(s: State, parent: Option<TokenId>) {
    parent.Some? ==>
      parent.value in s.family
      && forall t :: t in s.tokens && t in s.family && s.family[t] == s.family[parent.value] ==> !Live(s.tokens[t])
  }

  lemma IssueSound(s: State, user: UserId, parent: Option<TokenId>)
    ensures Sound(s) && user in s.users && s.users[user].isEmailVerified && FamilyEnded(s, parent)
            ==> Sound(IssueTokens(s, user, parent))
    ensures Sound(s) ==> s.nextToken !in s.tokens
    ensures user in s.users && Active(s.users[user]) ==> Refresh(IssueTokens(s, user, parent), s.nextToken).reply.Done?
  {
    if Sound(s) && user in s.users && s.users[user].isEmailVerified && FamilyEnded(s, parent) {
      GuessesFrame(s, IssueTokens(s, user, parent));
    }
  }

  lemma RevokeSound(s: State, token: TokenId)
    requires token in s.tokens
    ensures Sound(s) ==> Sound(Revoke(s, token))
  {
    if Sound(s) {
      RevokeKeeps(s, token);
      GuessesFrame(s, Revoke(s, token));
    }
  }

  lemma RevokeAllSound(s: State, user: UserId)
    ensures Sound(s) ==> Sound(RevokeAll(s, user))
  {
    if Sound(s) {
      RevokeAllKeeps(s, user);
      GuessesFrame(s, RevokeAll(s, user));
    }
  }

  class AuthTables {
    var now: Time
    const ttl: Time
    var users: map<UserId, User>
    var otps: map<OtpId, Otp>
    var tokens: map<TokenId, Token>
    var nextOtp: OtpId
    var nextToken: TokenId
    ghost var guesses: seq<Guess>
    ghost var family: map<TokenId, TokenId>

    ghost function Contents(): State
      reads this
    {
      State(now, ttl, users, otps, tokens, nextOtp, nextToken, guesses, family)
    }

    ghost predicate Valid()
      reads this
    {
      Sound(Contents())
    }

    constructor (ttl: Time)
      ensures Contents() == Opening(ttl) && Valid()
    {
      this.ttl := ttl;
      now, users, otps, tokens, nextOtp, nextToken := 0, map[], map[], map[], 0, 0;
      guesses, family := [], map[];
      new;
      RunKeepsTokens(Opening(ttl), []);
      RunKeepsGuesses(Opening(ttl), []);
    }
  }

  class AuthService {
    const db: AuthTables

    constructor (db: AuthTables)
      ensures this.db == db
    {
      this.db := db;
    }

    method SendEmailOtp(user: UserId, purpose: Purpose, code: Secret)
      modifies db`otps, db`nextOtp
      ensures db.Contents() == SendOtp(old(db.Contents()), user, purpose, code)
      ensures forall id :: id in old(db.otps) && id != old(db.nextOtp) ==> id in db.otps && db.otps[id] == old(db.otps)[id]
      ensures old(db.Valid()) ==> db.Valid() && old(db.nextOtp) !in old(db.otps)
      ensures old(db.Valid()) ==> Newest(db.otps, old(db.nextOtp), user, purpose)
      ensures forall t :: db.now <= t <= db.now + 10 * 60 * 1000 ==> Open(db.otps, old(db.nextOtp), code, t)
    {
      SendSound(db.Contents(), user, purpose, code);
      var expiresAt := db.now + OTP_TTL;
      db.otps := db.otps[db.nextOtp := Otp(user, purpose, code, 0, expiresAt, false)];
      db.nextOtp := db.nextOtp + 1;
    }

    method Validate(user: UserId, purpose: Purpose, code: Secret) returns (reply: Reply)
      modifies db`otps, db`guesses
      ensures Result(db.Contents(), reply) == ValidateOtp(old(db.Contents()), user, purpose, code)
      ensures old(db.Valid()) ==> db.Valid()
    {
      ValidateSound(db.Contents(), user, purpose, code);
      var latest := LatestOtp(db.otps, user, purpose, db.nextOtp);
      if latest.None? {
        return Failed(BadRequest);
      }
      var record := db.otps[latest.value];
      if record.attempts >= OTP_MAX_ATTEMPTS {
        return Failed(BadRequest);
      }
      if record.expiresAt < db.now {
        return Failed(BadRequest);
      }
      db.guesses := db.guesses + [Guess(latest.value, db.now, record.expiresAt, code == record.code)];
      if code != record.code {
        db.otps := db.otps[latest.value := record.(attempts := record.attempts + 1)];
        return Failed(BadRequest);
      }
      db.otps := db.otps[latest.value := record.(used := true)];
      return Done;
    }

    method Issue(user: UserId, ghost parent: Option<TokenId>) returns (token: TokenId)
      modifies db`tokens, db`nextToken, db`family
      ensures db.Contents() == IssueTokens(old(db.Contents()), user, parent)
      ensures token == old(db.nextToken)
      ensures forall t :: t in old(db.tokens) && t != token ==> t in db.tokens && db.tokens[t] == old(db.tokens)[t]
      ensures old(db.Valid()) ==> token !in old(db.tokens)
      ensures user in db.users && Active(db.users[user]) ==> Refresh(db.Contents(), token).reply.Done?
      ensures old(db.Valid() && user in db.users && db.users[user].isEmailVerified && FamilyEnded(db.Contents(), parent))
              ==> db.Valid()
    {
      IssueSound(db.Contents(), user, parent);
      token := db.nextToken;
      db.tokens := db.tokens[token := Token(user, db.now + db.ttl, None)];
      db.family := db.family[token := if parent.Some? && parent.value in db.family then db.family[parent.value] else token];
      db.nextToken := db.nextToken + 1;
    }

    method RevokeRefreshToken(token: TokenId)
      requires token in db.tokens
      modifies db`tokens
      ensures db.Contents() == Revoke(old(db.Contents()), token)
      ensures old(db.Valid()) ==> db.Valid()
    {
      RevokeSound(db.Contents(), token);
      db.tokens := db.tokens[token := db.tokens[token].(revokedAt := Some(db.now))];
    }

    /** Ends every session of the user and leaves everybody else's. */
    method RevokeAllRefreshTokens(user: UserId)
      modifies db`tokens
      ensures db.Contents() == RevokeAll(old(db.Contents()), user)
      ensures forall t :: t in db.tokens && db.tokens[t].userId == user ==> !Live(db.tokens[t])
      ensures forall t :: t in old(db.tokens) && old(db.tokens)[t].userId != user ==>
                t in db.tokens && db.tokens[t] == old(db.tokens)[t]
      ensures old(db.Valid()) ==> db.Valid()
    {
      RevokeAllSound(db.Contents(), user);
      db.tokens := map t | t in db.tokens ::
        if db.tokens[t].userId == user && db.tokens[t].revokedAt.None?
        then db.tokens[t].(revokedAt := Some(db.now)) else db.tokens[t];
    }

    method RegisterUser(user: UserId, password: Secret, code: Secret) returns (reply: Reply)
      modifies db`users, db`otps, db`nextOtp
      ensures Result(db.Contents(), reply) == Register(old(db.Contents()), user, password, code)
      ensures old(db.Valid()) ==> db.Valid()
    {
      CallSound(db.Contents(), DoRegister(user, password, code), Apply(db.Contents(), DoRegister(user, password, code)).s);
      if user in db.users {
        var existing := db.users[user];
        if !existing.isEmailVerified && !existing.isDeleted {
          db.users := db.users[user := existing.(password := password)];
          SendEmailOtp(user, EmailVerification, code);
          return Done;
        }
        return Failed(Conflict);
      }
      db.users := db.users[user := User(password, false, false, false)];
      SendEmailOtp(user, EmailVerification, code);
      return Done;
    }

    method VerifyUserEmail(user: UserId, code: Secret) returns (reply: Reply)
      modifies db`users, db`otps, db`guesses, db`tokens, db`nextToken, db`family
      ensures Result(db.Contents(), reply) == VerifyEmail(old(db.Contents()), user, code)
      ensures old(db.Valid()) ==> db.Valid()
    {
      CallSound(db.Contents(), DoVerifyEmail(user, code), Apply(db.Contents(), DoVerifyEmail(user, code)).s);
      if user !in db.users {
        return Failed(NotFound);
      }
      if db.users[user].isEmailVerified {
        return Failed(BadRequest);
      }
      reply := Validate(user, EmailVerification, code);
      if reply.Failed? {
        return;
      }
      db.users := db.users[user := db.users[user].(isEmailVerified := true)];
      var _ := Issue(user, None);
    }

    method LogIn(user: UserId, password: Secret) returns (reply: Reply)
      modifies db`tokens, db`nextToken, db`family
      ensures Result(db.Contents(), reply) == Login(old(db.Contents()), user, password)
      ensures reply.Done? <==> user in db.users && Active(db.users[user]) && db.users[user].password == password
      ensures forall t :: t in old(db.tokens) && t != old(db.nextToken) ==> t in db.tokens && db.tokens[t] == old(db.tokens)[t]
      ensures reply.Done? ==> Refresh(db.Contents(), old(db.nextToken)).reply.Done?
      ensures !reply.Done? ==> db.Contents() == old(db.Contents())
      ensures old(db.Valid()) ==> db.Valid()
    {
      CallSound(db.Contents(), DoLogin(user, password), Apply(db.Contents(), DoLogin(user, password)).s);
      if user !in db.users {
        return Failed(Unauthorized);
      }
      var account := db.users[user];
      if account.password != password {
        return Failed(Unauthorized);
      }
      if account.isSuspended {
        return Failed(Forbidden);
      }
      if account.isDeleted {
        return Failed(Forbidden);
      }
      if !account.isEmailVerified {
        return Failed(Forbidden);
      }
      var _ := Issue(user, None);
      return Done;
    }

    method RefreshTokens(token: TokenId) returns (reply: Reply)
      modifies db`tokens, db`nextToken, db`family
      ensures Result(db.Contents(), reply) == Refresh(old(db.Contents()), token)
      ensures forall t :: t in old(db.tokens) && t != token && t != old(db.nextToken) ==>
                t in db.tokens && db.tokens[t] == old(db.tokens)[t]
      ensures old(db.Valid()) ==> db.Valid()
    {
      CallSound(db.Contents(), DoRefresh(token), Apply(db.Contents(), DoRefresh(token)).s);
      if token !in db.tokens || db.tokens[token].revokedAt.Some? || db.tokens[token].expiresAt < db.now {
        return Failed(Unauthorized);
      }
      var stored := db.tokens[token];
      RevokeRefreshToken(token);
      if stored.userId !in db.users || db.users[stored.userId].isSuspended || db.users[stored.userId].isDeleted {
        return Failed(Unauthorized);
      }
      var _ := Issue(stored.userId, Some(token));
      return Done;
    }

    method LogOut(token: TokenId) returns (reply: Reply)
      modifies db`tokens
      ensures Result(db.Contents(), reply) == Logout(old(db.Contents()), token)
      ensures token in db.tokens ==> !Live(db.tokens[token])
      ensures forall t :: t in old(db.tokens) && t != token ==> t in db.tokens && db.tokens[t] == old(db.tokens)[t]
      ensures old(db.Valid()) ==> db.Valid()
    {
      CallSound(db.Contents(), DoLogout(token), Apply(db.Contents(), DoLogout(token)).s);
      if token in db.tokens && db.tokens[token].revokedAt.None? {
        RevokeRefreshToken(token);
      }
      return Done;
    }

    method ForgotUserPassword(user: UserId, code: Secret) returns (reply: Reply)
      modifies db`otps, db`nextOtp
      ensures Result(db.Contents(), reply) == ForgotPassword(old(db.Contents()), user, code)
      ensures old(db.Valid()) ==> db.Valid()
    {
      CallSound(db.Contents(), DoForgotPassword(user, code), Apply(db.Contents(), DoForgotPassword(user, code)).s);
      if user in db.users && !db.users[user].isDeleted {
        SendEmailOtp(user, PasswordReset, code);
      }
      return Done;
    }

    method ResetUserPassword(user: UserId, code: Secret, password: Secret) returns (reply: Reply)
      modifies db`users, db`otps, db`guesses, db`tokens
      ensures Result(db.Contents(), reply) == ResetPassword(old(db.Contents()), user, code, password)
      ensures old(db.Valid()) ==> db.Valid()
    {
      if user !in db.users {
        return Failed(BadRequest);
      }
      reply := Validate(user, PasswordReset, code);
      if reply.Failed? {
        return;
      }
      db.users := db.users[user := db.users[user].(password := password)];
      RevokeAllRefreshTokens(user);
      CallSound(old(db.Contents()), DoResetPassword(user, code, password), db.Contents());
    }
  }

  class CleanupService {
    const db: AuthTables

    constructor (db: AuthTables)
      ensures this.db == db
    {
      this.db := db;
    }

    method CleanExpiredOtps()
      modifies db`otps
      ensures db.Contents() == CleanOtps(old(db.Contents()))
      ensures forall id: OtpId :: id in db.otps <==> id in old(db.otps) && db.now <= old(db.otps)[id].expiresAt
      ensures forall id :: id in db.otps ==> db.otps[id] == old(db.otps)[id]
      ensures old(db.Valid()) ==> forall user, purpose, code ::
                ValidateOtp(db.Contents(), user, purpose, code).reply == ValidateOtp(old(db.Contents()), user, purpose, code).reply
      ensures old(db.Valid()) ==> db.Valid()
    {
      CallSound(db.Contents(), DoCleanOtps, CleanOtps(db.Contents()));
      forall user, purpose, code
        ensures Sound(db.Contents()) ==>
                  ValidateOtp(CleanOtps(db.Contents()), user, purpose, code).reply
                    == ValidateOtp(db.Contents(), user, purpose, code).reply
      {
        CleanedCodesDecide(db.Contents(), user, purpose, code);
      }
      db.otps := map id | id in db.otps && !(db.otps[id].expiresAt < db.now) :: db.otps[id];
    }

    method CleanStaleRefreshTokens()
      modifies db`tokens
      ensures db.Contents() == CleanTokens(old(db.Contents()))
      ensures forall t: TokenId :: t in db.tokens <==>
                t in old(db.tokens) && db.now <= old(db.tokens)[t].expiresAt
                && (old(db.tokens)[t].revokedAt.Some? ==> db.now <= old(db.tokens)[t].revokedAt.value + 7 * 24 * 3600 * 1000)
      ensures forall t :: t in db.tokens ==> db.tokens[t] == old(db.tokens)[t]
      ensures forall t :: Refresh(db.Contents(), t).reply == Refresh(old(db.Contents()), t).reply
      ensures old(db.Valid()) ==> db.Valid()
    {
      CallSound(db.Contents(), DoCleanTokens, CleanTokens(db.Contents()));
      db.tokens := map t | t in db.tokens && !StaleToken(db.tokens[t], db.now) :: db.tokens[t];
    }
  }
}
