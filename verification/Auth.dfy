/** One-time codes and refresh tokens: the tables and the calls of src/modules/auth, with the
    hourly cleaner, as functions on one state. Each call is atomic; the clock only advances. */
module Auth {
  import opened Domain

  // Passwords, codes and their hashes: equal hashes stand for equal secrets.
  type Secret = nat
  type OtpId = nat
  type TokenId = nat

  const OTP_TTL: Time := 10 * 60 * 1000
  const OTP_MAX_ATTEMPTS: nat := 5

  datatype Purpose = EmailVerification | PasswordReset

  datatype User = User(password: Secret, isEmailVerified: bool, isSuspended: bool, isDeleted: bool)

  datatype Otp = Otp(userId: UserId, purpose: Purpose, code: Secret, attempts: nat, expiresAt: Time, used: bool)

  datatype Token = Token(userId: UserId, expiresAt: Time, revokedAt: Option<Time>)

  /** One comparison of a submitted code with a stored one. */
  datatype Guess = Guess(otp: OtpId, at: Time, expiresAt: Time, matched: bool)

  /** Ids are handed out in creation order and never reused; a refresh token is its id.
      `guesses` (every hash comparison made) and `family` (the login or verification each token
      descends from) are histories that no call reads. `ttl` is the configured token lifetime. */
  datatype State = State(
    now: Time,
    ttl: Time,
    users: map<UserId, User>,
    otps: map<OtpId, Otp>,
    tokens: map<TokenId, Token>,
    nextOtp: OtpId,
    nextToken: TokenId,
    guesses: seq<Guess>,
    family: map<TokenId, TokenId>)

  datatype Result = Result(s: State, reply: Reply)

  function Opening(ttl: Time): State {
    State(0, ttl, map[], map[], map[], 0, 0, [], map[])
  }

  // ---- One-time codes ----

  predicate Candidate(otps: map<OtpId, Otp>, id: OtpId, user: UserId, purpose: Purpose) {
    id in otps && otps[id].userId == user && otps[id].purpose == purpose && !otps[id].used
  }

  /** `findLatestOtp`: the newest unused record below n. */
  function LatestOtp(otps: map<OtpId, Otp>, user: UserId, purpose: Purpose, n: OtpId): (latest: Option<OtpId>)
    ensures latest.Some? ==> latest.value < n && Candidate(otps, latest.value, user, purpose)
  {
    if n == 0 then None
    else if Candidate(otps, n - 1, user, purpose) then Some(n - 1)
    else LatestOtp(otps, user, purpose, n - 1)
  }

  function SendOtp(s: State, user: UserId, purpose: Purpose, code: Secret): State {
    s.(otps := s.otps[s.nextOtp := Otp(user, purpose, code, 0, s.now + OTP_TTL, false)], nextOtp := s.nextOtp + 1)
  }

  function ValidateOtp(s: State, user: UserId, purpose: Purpose, code: Secret): Result {
    var latest := LatestOtp(s.otps, user, purpose, s.nextOtp);
    if latest.None? then Result(s, Failed(BadRequest))
    else
      var id := latest.value;
      var record := s.otps[id];
      if record.attempts >= OTP_MAX_ATTEMPTS then Result(s, Failed(BadRequest))
      else if record.expiresAt < s.now then Result(s, Failed(BadRequest))
      else
        var logged := s.(guesses := s.guesses + [Guess(id, s.now, record.expiresAt, code == record.code)]);
        if code != record.code
        then Result(logged.(otps := s.otps[id := record.(attempts := record.attempts + 1)]), Failed(BadRequest))
        else Result(logged.(otps := s.otps[id := record.(used := true)]), Done)
  }

  // ---- Tokens ----

  /** `issueTokens`; a fresh family when the token descends from no other. */
  function IssueTokens(s: State, user: UserId, parent: Option<TokenId>): State {
    var fam := if parent.Some? && parent.value in s.family then s.family[parent.value] else s.nextToken;
    s.(tokens := s.tokens[s.nextToken := Token(user, s.now + s.ttl, None)],
       family := s.family[s.nextToken := fam],
       nextToken := s.nextToken + 1)
  }

  function Revoke(s: State, id: TokenId): State
    requires id in s.tokens
  {
    s.(tokens := s.tokens[id := s.tokens[id].(revokedAt := Some(s.now))])
  }

  /** `revokeAllUserRefreshTokens`. */
  function RevokeAll(s: State, user: UserId): State {
    s.(tokens := map t | t in s.tokens ::
         if s.tokens[t].userId == user && s.tokens[t].revokedAt.None?
         then s.tokens[t].(revokedAt := Some(s.now)) else s.tokens[t])
  }

  // ---- Calls ----

  function Register(s: State, user: UserId, password: Secret, code: Secret): Result {
    if user in s.users then
      if !s.users[user].isEmailVerified && !s.users[user].isDeleted
      then Result(SendOtp(s.(users := s.users[user := s.users[user].(password := password)]), user, EmailVerification, code), Done)
      else Result(s, Failed(Conflict))
    else
      Result(SendOtp(s.(users := s.users[user := User(password, false, false, false)]), user, EmailVerification, code), Done)
  }

  function VerifyEmail(s: State, user: UserId, code: Secret): Result {
    if user !in s.users then Result(s, Failed(NotFound))
    else if s.users[user].isEmailVerified then Result(s, Failed(BadRequest))
    else
      var v := ValidateOtp(s, user, EmailVerification, code);
      if v.reply.Failed? then v
      else
        Result(IssueTokens(v.s.(users := s.users[user := s.users[user].(isEmailVerified := true)]), user, None), Done)
  }

  function Login(s: State, user: UserId, password: Secret): Result {
    if user !in s.users || s.users[user].password != password then Result(s, Failed(Unauthorized))
    else if s.users[user].isSuspended || s.users[user].isDeleted then Result(s, Failed(Forbidden))
    else if !s.users[user].isEmailVerified then Result(s, Failed(Forbidden))
    else Result(IssueTokens(s, user, None), Done)
  }

  /** The presented token is revoked before the account is looked at. */
  function Refresh(s: State, token: TokenId): Result {
    if token !in s.tokens || s.tokens[token].revokedAt.Some? || s.tokens[token].expiresAt < s.now
    then Result(s, Failed(Unauthorized))
    else
      var user := s.tokens[token].userId;
      var s1 := Revoke(s, token);
      if user !in s.users || s.users[user].isSuspended || s.users[user].isDeleted
      then Result(s1, Failed(Unauthorized))
      else Result(IssueTokens(s1, user, Some(token)), Done)
  }

  function Logout(s: State, token: TokenId): Result {
    if token in s.tokens && s.tokens[token].revokedAt.None? then Result(Revoke(s, token), Done) else Result(s, Done)
  }

  function ForgotPassword(s: State, user: UserId, code: Secret): Result {
    if user in s.users && !s.users[user].isDeleted
    then Result(SendOtp(s, user, PasswordReset, code), Done) else Result(s, Done)
  }

  function ResetPassword(s: State, user: UserId, code: Secret, password: Secret): Result {
    if user !in s.users then Result(s, Failed(BadRequest))
    else
      var v := ValidateOtp(s, user, PasswordReset, code);
      if v.reply.Failed? then v
      else Result(RevokeAll(v.s.(users := s.users[user := s.users[user].(password := password)]), user), Done)
  }

  // ---- src/jobs/cleanup.service.ts ----

  function CleanOtps(s: State): State {
    s.(otps := map id | id in s.otps && !(s.otps[id].expiresAt < s.now) :: s.otps[id])
  }

  /** Deleted at the cleaner's next run: expired, or revoked more than seven days ago. */
  predicate StaleToken(t: Token, now: Time) {
    t.expiresAt < now || (t.revokedAt.Some? && t.revokedAt.value + SEVEN_DAYS < now)
  }

  function CleanTokens(s: State): State {
    s.(tokens := map t | t in s.tokens && !StaleToken(s.tokens[t], s.now) :: s.tokens[t])
  }

  // ---- Runs ----

  datatype Event =
    | Tick(elapsed: Time)
    | DoRegister(user: UserId, password: Secret, code: Secret)
    | DoVerifyEmail(user: UserId, code: Secret)
    | DoLogin(user: UserId, password: Secret)
    | DoRefresh(token: TokenId)
    | DoLogout(token: TokenId)
    | DoForgotPassword(user: UserId, code: Secret)
    | DoResetPassword(user: UserId, code: Secret, password: Secret)
    | SetAccount(user: UserId, suspended: bool, deleted: bool)
    | DoCleanOtps
    | DoCleanTokens

  function Apply(s: State, e: Event): Result {
    match e
    case Tick(elapsed) => Result(s.(now := s.now + elapsed), Done)
    case DoRegister(user, password, code) => Register(s, user, password, code)
    case DoVerifyEmail(user, code) => VerifyEmail(s, user, code)
    case DoLogin(user, password) => Login(s, user, password)
    case DoRefresh(token) => Refresh(s, token)
    case DoLogout(token) => Logout(s, token)
    case DoForgotPassword(user, code) => ForgotPassword(s, user, code)
    case DoResetPassword(user, code, password) => ResetPassword(s, user, code, password)
    case SetAccount(user, suspended, deleted) =>
      if user in s.users
      then Result(s.(users := s.users[user := s.users[user].(isSuspended := suspended, isDeleted := deleted)]), Done)
      else Result(s, Failed(NotFound))
    case DoCleanOtps => Result(CleanOtps(s), Done)
    case DoCleanTokens => Result(CleanTokens(s), Done)
  }

  function Run(s: State, events: seq<Event>): State
    decreases |events|
  {
    if events == [] then s else Run(Apply(s, events[0]).s, events[1..])
  }
}
