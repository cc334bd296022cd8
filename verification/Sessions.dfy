/** How long a session lasts: what each call does to a stored token, to an account, and to the
    refresh tokens that other calls did not mention. */
module Sessions {
  import opened Domain
  import opened Auth
  import opened AuthInvariants

  // ---- One token, one call ----

  /** Presenting a live, unexpired token, logging out with a live one, and its owner's successful
      password reset: the only three ways a token is revoked. */
  predicate Ends(s: State, e: Event, t: TokenId)
    requires t in s.tokens
  {
    match e
    case DoRefresh(token) => token == t && s.now <= s.tokens[t].expiresAt
    case DoLogout(token) => token == t
    case DoResetPassword(user, code, _) =>
      user == s.tokens[t].userId && user in s.users && ValidateOtp(s, user, PasswordReset, code).reply.Done?
    case _ => false
  }

  /** What any call leaves of a stored token: its owner and expiry; its revocation, unless this call
      is the one that ends it, now; and its place, unless this is the cleaner and it is due. */
  lemma TokenAfter(s: State, e: Event, t: TokenId)
    requires t in s.tokens && t < s.nextToken
    ensures
      var s' := Apply(s, e).s;
      && (t in s'.tokens <==>
            !(e.DoCleanTokens?
              && (s.tokens[t].expiresAt < s.now
                  || (s.tokens[t].revokedAt.Some? && s.tokens[t].revokedAt.value + 7 * 24 * 3600 * 1000 < s.now))))
      && (t in s'.tokens ==>
            s'.tokens[t] == s.tokens[t].(revokedAt :=
              if Live(s.tokens[t]) && Ends(s, e, t) then Some(s.now) else s.tokens[t].revokedAt))
  {
    match e
    case DoVerifyEmail(user, code) => ValidateFrame(s, user, EmailVerification, code);
    case DoResetPassword(user, code, _) => ValidateFrame(s, user, PasswordReset, code);
    case _ =>
  }

  /** Only a tick moves the clock, and nothing the token lifetime. */
  lemma ClockAfter(s: State, e: Event)
    ensures Apply(s, e).s.now == s.now + (if e.Tick? then e.elapsed else 0)
    ensures Apply(s, e).s.ttl == s.ttl && s.nextToken <= Apply(s, e).s.nextToken
  {
    match e
    case DoVerifyEmail(user, code) => ValidateFrame(s, user, EmailVerification, code);
    case DoResetPassword(user, code, _) => ValidateFrame(s, user, PasswordReset, code);
    case _ =>
  }

  // ---- Accounts ----

  /** What any call leaves of an account, column by column: a sign-up renews the password of an
      unverified account, a reset that of any; a verification verifies; the administration alone
      suspends and deletes; and a sign-up alone creates. */
  predicate AccountKept(s: State, e: Event, user: UserId, o: Result) {
    var s', done := o.s, o.reply.Done?;
    && (user in s'.users <==> user in s.users || (e.DoRegister? && e.user == user))
    && (user !in s.users && user in s'.users ==> s'.users[user] == User(e.password, false, false, false))
    && (user in s.users ==>
          var a, a' := s.users[user], s'.users[user];
          && a'.password == (if (e.DoRegister? || e.DoResetPassword?) && e.user == user && done then e.password else a.password)
          && a'.isEmailVerified == (a.isEmailVerified || (e.DoVerifyEmail? && e.user == user && done))
          && a'.isSuspended == (if e.SetAccount? && e.user == user then e.suspended else a.isSuspended)
          && a'.isDeleted == (if e.SetAccount? && e.user == user then e.deleted else a.isDeleted))
  }

  lemma AccountAfter(s: State, e: Event, user: UserId)
    ensures AccountKept(s, e, user, Apply(s, e))
  {
    match e
    case DoVerifyEmail(u, code) => VerifiedAccount(s, u, code, user);
    case DoResetPassword(u, code, password) => ResetAccount(s, u, code, password, user);
    case _ =>
  }

  lemma VerifiedAccount(s: State, u: UserId, code: Secret, user: UserId)
    ensures AccountKept(s, DoVerifyEmail(u, code), user, VerifyEmail(s, u, code))
  {
    ValidateFrame(s, u, EmailVerification, code);
  }

  lemma ResetAccount(s: State, u: UserId, code: Secret, password: Secret, user: UserId)
    ensures AccountKept(s, DoResetPassword(u, code, password), user, ResetPassword(s, u, code, password))
  {
    ValidateFrame(s, u, PasswordReset, code);
  }

  // ---- Answers ----

  /** Why each call is refused: wrong credentials and unusable tokens are Unauthorized, accounts that
      may not log in Forbidden, taken addresses a Conflict, codes that do not fit a bad request. A
      logout and a forgotten password are always answered alike. */
  lemma AnswerAfter(s: State, e: Event)
    ensures
      var reply := Apply(s, e).reply;
      match e
      case DoRegister(u, _, _) =>
        reply == if u in s.users && (s.users[u].isEmailVerified || s.users[u].isDeleted) then Failed(Conflict) else Done
      case DoVerifyEmail(u, code) =>
        && (reply == Failed(NotFound) <==> u !in s.users)
        && (reply.Failed? && u in s.users ==> reply == Failed(BadRequest))
        && (reply.Done? <==> u in s.users && !s.users[u].isEmailVerified
                             && ValidateOtp(s, u, EmailVerification, code).reply.Done?)
      case DoLogin(u, password) =>
        && (reply == Failed(Unauthorized) <==> !(u in s.users && s.users[u].password == password))
        && (reply == Failed(Forbidden) <==> u in s.users && s.users[u].password == password && !Active(s.users[u]))
        && (reply.Failed? ==> reply.error == Unauthorized || reply.error == Forbidden)
      case DoRefresh(t) => reply.Done? || reply == Failed(Unauthorized)
      case DoLogout(_) => reply.Done?
      case DoForgotPassword(_, _) => reply.Done?
      case DoResetPassword(u, code, _) =>
        && (reply.Failed? ==> reply == Failed(BadRequest))
        && (reply.Done? <==> u in s.users && ValidateOtp(s, u, PasswordReset, code).reply.Done?)
      case _ => true
  {
  }

  // ---- Sessions ----

  /** Refreshing with the token would go through now. */
  predicate Accepted(s: State, t: TokenId) {
    Refresh(s, t).reply.Done?
  }

  predicate Available(s: State, user: UserId) {
    user in s.users && !s.users[user].isSuspended && !s.users[user].isDeleted
  }

  lemma AcceptedMeans(s: State, t: TokenId)
    ensures Accepted(s, t)
      <==> t in s.tokens && Live(s.tokens[t]) && s.now <= s.tokens[t].expiresAt && Available(s, s.tokens[t].userId)
  {
  }

  /** Does some call of the run end the token? */
  predicate EndedBy(s: State, events: seq<Event>, t: TokenId)
    decreases |events|
  {
    events != [] && t in s.tokens && (Ends(s, events[0], t) || EndedBy(Apply(s, events[0]).s, events[1..], t))
  }

  lemma {:induction false} ExpiredStays(s: State, events: seq<Event>, t: TokenId)
    requires t < s.nextToken && (t in s.tokens ==> !Live(s.tokens[t]) || s.tokens[t].expiresAt < s.now)
    ensures !Accepted(Run(s, events), t)
    decreases |events|
  {
    if events == [] {
      AcceptedMeans(s, t);
    } else {
      ClockAfter(s, events[0]);
      EventEvolves(s, events[0]);
      ExpiredStays(Apply(s, events[0]).s, events[1..], t);
    }
  }

  lemma {:induction false} ClockRuns(s: State, events: seq<Event>)
    ensures s.now <= Run(s, events).now
    decreases |events|
  {
    if events == [] {
    } else {
      ClockAfter(s, events[0]);
      ClockRuns(Apply(s, events[0]).s, events[1..]);
    }
  }

  /** A live token lasts: however the run goes on, it is accepted at the end exactly if no call ended
      it, it has not expired, and its owner's account is available then. Logging in again, other
      devices' refreshes and logouts, other users and the cleaner make no difference. */
  lemma {:induction false} SessionLasts(s: State, events: seq<Event>, t: TokenId)
    requires t in s.tokens && t < s.nextToken && Live(s.tokens[t])
    ensures
      var s' := Run(s, events);
      Accepted(s', t)
      <==> !EndedBy(s, events, t) && s'.now <= s.tokens[t].expiresAt && Available(s', s.tokens[t].userId)
    decreases |events|
  {
    if events == [] {
      AcceptedMeans(s, t);
    } else {
      var s1 := Apply(s, events[0]).s;
      TokenAfter(s, events[0], t);
      ClockAfter(s, events[0]);
      ClockRuns(s1, events[1..]);
      if t !in s1.tokens || !Live(s1.tokens[t]) {
        ExpiredStays(s1, events[1..], t);
      } else {
        SessionLasts(s1, events[1..], t);
      }
    }
  }

  /** In particular over every run from empty tables. */
  lemma SessionLastsUntilEnded(ttl: Time, before: seq<Event>, after: seq<Event>, t: TokenId)
    requires t in Run(Opening(ttl), before).tokens && Live(Run(Opening(ttl), before).tokens[t])
    ensures
      var s := Run(Opening(ttl), before);
      var s' := Run(s, after);
      Refresh(s', t).reply.Done?
      <==> !EndedBy(s, after, t) && s'.now <= s.tokens[t].expiresAt && Available(s', s.tokens[t].userId)
  {
    RunKeepsTokens(Opening(ttl), before);
    SessionLasts(Run(Opening(ttl), before), after, t);
  }
}
