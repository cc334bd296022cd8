/** Older codes that come back, and where every stored token and code comes from. */
module AuthHistory {
  import opened Domain
  import opened Auth
  import opened AuthInvariants

  // ---- An older code after a newer one ----

  /** The user's newest unused record but for this one. */
  ghost predicate NextNewest(otps: map<OtpId, Otp>, id: OtpId, newest: OtpId, user: UserId, purpose: Purpose) {
    Candidate(otps, id, user, purpose) && id != newest
    && forall other: OtpId :: Candidate(otps, other, user, purpose) && other != newest ==> other <= id
  }

  /** Using a code leaves the other candidates, and only them, as candidates. */
  lemma UsedLeavesOthers(s: State, user: UserId, purpose: Purpose, code: Secret, id: OtpId)
    requires ValidateOtp(s, user, purpose, code).reply.Done?
    ensures
      var otps' := ValidateOtp(s, user, purpose, code).s.otps;
      var newest := LatestOtp(s.otps, user, purpose, s.nextOtp).value;
      && (Candidate(otps', id, user, purpose) <==> Candidate(s.otps, id, user, purpose) && id != newest)
      && (id != newest && id in s.otps ==> id in otps' && otps'[id] == s.otps[id])
  {
  }

  lemma NewestAfterUse(s: State, user: UserId, purpose: Purpose, code: Secret, id: OtpId)
    requires ValidateOtp(s, user, purpose, code).reply.Done?
    ensures
      var newest := LatestOtp(s.otps, user, purpose, s.nextOtp).value;
      Newest(ValidateOtp(s, user, purpose, code).s.otps, id, user, purpose) <==> NextNewest(s.otps, id, newest, user, purpose)
  {
    var otps' := ValidateOtp(s, user, purpose, code).s.otps;
    var newest := LatestOtp(s.otps, user, purpose, s.nextOtp).value;
    UsedLeavesOthers(s, user, purpose, code, id);
    forall other: OtpId
      ensures Candidate(otps', other, user, purpose) <==> Candidate(s.otps, other, user, purpose) && other != newest
    {
      UsedLeavesOthers(s, user, purpose, code, other);
    }
  }

  /** In any reachable state where a code is accepted, a second code is accepted some time after it
      exactly when it is that of the newest unused record but for the one just used, and that
      record is neither locked nor expired by then. */
  lemma OlderCodeAcceptedIff(ttl: Time, events: seq<Event>, user: UserId, purpose: Purpose,
                             code: Secret, second: Secret, delay: Time)
    requires ValidateOtp(Run(Opening(ttl), events), user, purpose, code).reply.Done?
    ensures
      var s := Run(Opening(ttl), events);
      var newest := LatestOtp(s.otps, user, purpose, s.nextOtp).value;
      var s' := Apply(ValidateOtp(s, user, purpose, code).s, Tick(delay)).s;
      ValidateOtp(s', user, purpose, second).reply.Done?
      <==> exists id: OtpId :: NextNewest(s.otps, id, newest, user, purpose) && Open(s.otps, id, second, s.now + delay)
  {
    var s := Run(Opening(ttl), events);
    var newest := LatestOtp(s.otps, user, purpose, s.nextOtp).value;
    var used := ValidateOtp(s, user, purpose, code).s;
    var s' := Apply(used, Tick(delay)).s;
    RunKeepsGuesses(Opening(ttl), events);
    ValidateKeeps(s, user, purpose, code);
    GuessesFrame(used, s');
    AcceptedInState(s', user, purpose, second);
    if id: OtpId :| Newest(s'.otps, id, user, purpose) && Open(s'.otps, id, second, s'.now) {
      NewestAfterUse(s, user, purpose, code, id);
      UsedLeavesOthers(s, user, purpose, code, id);
      assert NextNewest(s.otps, id, newest, user, purpose) && Open(s.otps, id, second, s.now + delay);
    }
    if id: OtpId :| NextNewest(s.otps, id, newest, user, purpose) && Open(s.otps, id, second, s.now + delay) {
      NewestAfterUse(s, user, purpose, code, id);
      UsedLeavesOthers(s, user, purpose, code, id);
      assert Newest(s'.otps, id, user, purpose) && Open(s'.otps, id, second, s'.now);
    }
  }

  function TwoCodes(user: UserId, password: Secret, older: Secret, newer: Secret): seq<Event> {
    [DoRegister(user, password, 0), DoForgotPassword(user, older), DoForgotPassword(user, newer)]
  }

  /** Two codes are mailed, the newer one resets the password, and then the older one, which the
      user asked to replace, resets it again. */
  lemma OlderCodeResetsAgain(ttl: Time, user: UserId, password: Secret, older: Secret, newer: Secret)
    ensures
      var s := Run(Opening(ttl), TwoCodes(user, password, older, newer));
      var once := ResetPassword(s, user, newer, password);
      once.reply.Done? && ResetPassword(once.s, user, older, password).reply.Done?
  {
    var s0 := Opening(ttl);
    var s1 := Apply(s0, DoRegister(user, password, 0)).s;
    var s2 := Apply(s1, DoForgotPassword(user, older)).s;
    var s3 := Apply(s2, DoForgotPassword(user, newer)).s;
    var events := TwoCodes(user, password, older, newer);
    assert Run(s0, events) == Run(s1, events[1..]);
    assert Run(s1, events[1..]) == Run(s2, events[1..][1..]) && events[1..][1..] == events[2..];
    assert Run(s2, events[2..]) == Run(s3, events[2..][1..]) && events[2..][1..] == [];
    assert s3.nextOtp == 3 && Candidate(s3.otps, 2, user, PasswordReset) && Candidate(s3.otps, 1, user, PasswordReset);
    var once := ResetPassword(s3, user, newer, password);
    assert LatestOtp(s3.otps, user, PasswordReset, 3) == Some(2);
    assert once.s.nextOtp == 3 && !Candidate(once.s.otps, 2, user, PasswordReset);
    assert Candidate(once.s.otps, 1, user, PasswordReset);
    assert LatestOtp(once.s.otps, user, PasswordReset, 3) == LatestOtp(once.s.otps, user, PasswordReset, 2) == Some(1);
  }

  // ---- Where every stored token and code comes from ----

  lemma {:induction false} RunSnoc(s: State, events: seq<Event>)
    requires events != []
    ensures Run(s, events) == Apply(Run(s, events[..|events| - 1]), events[|events| - 1]).s
    decreases |events|
  {
    if |events| == 1 {
      assert Run(Apply(s, events[0]).s, events[1..]) == Apply(s, events[0]).s;
    } else {
      RunSnoc(Apply(s, events[0]).s, events[1..]);
      assert events[..|events| - 1][1..] == events[1..][..|events| - 2];
    }
  }

  /** Step i of the run gave this user the token t. */
  ghost predicate EarnedAt(ttl: Time, events: seq<Event>, i: int, t: TokenId, user: UserId) {
    && 0 <= i < |events|
    && var s := Run(Opening(ttl), events[..i]);
       s.nextToken == t && Entitled(s, events[i], user)
  }

  /** Every stored token was earned: at some step of the run its user gave a matching code for an
      unverified e-mail, or the password of an active account, or a live, unexpired token of that
      user on an active account. */
  lemma {:induction false} EveryTokenEarned(ttl: Time, events: seq<Event>, t: TokenId)
    requires t in Run(Opening(ttl), events).tokens
    ensures exists i :: EarnedAt(ttl, events, i, t, Run(Opening(ttl), events).tokens[t].userId)
    decreases |events|
  {
    if events == [] {
    } else {
      var front, last := events[..|events| - 1], events[|events| - 1];
      var s, user := Run(Opening(ttl), front), Run(Opening(ttl), events).tokens[t].userId;
      RunSnoc(Opening(ttl), events);
      RunKeepsTokens(Opening(ttl), front);
      TokenIffEntitled(s, last, user);
      if t in s.tokens {
        EventEvolves(s, last);
        EveryTokenEarned(ttl, front, t);
        var i :| EarnedAt(ttl, front, i, t, user);
        assert events[..i] == front[..i] && events[i] == front[i];
        assert EarnedAt(ttl, events, i, t, user);
      } else {
        assert events[..|events| - 1] == front;
        assert EarnedAt(ttl, events, |events| - 1, t, user);
      }
    }
  }

  /** Step i of the run mailed this record. */
  ghost predicate MailedAt(ttl: Time, events: seq<Event>, i: int, id: OtpId, record: Otp) {
    && 0 <= i < |events|
    && var s := Run(Opening(ttl), events[..i]);
       && s.nextOtp == id && MayMail(s, events[i], record.userId, record.purpose)
       && record.code == events[i].code && record.expiresAt == s.now + 10 * 60 * 1000
  }

  /** Records keep their owner, purpose, code and expiry, and a new one has the next id. */
  lemma RecordsEvolve(s: State, e: Event, id: OtpId)
    requires id in Apply(s, e).s.otps
    ensures
      var record := Apply(s, e).s.otps[id];
      if id in s.otps
      then record == s.otps[id].(attempts := record.attempts, used := record.used) || id == s.nextOtp
      else id == s.nextOtp && !record.used
  {
    match e
    case DoVerifyEmail(u, code) => ValidateFrame(s, u, EmailVerification, code);
    case DoResetPassword(u, code, _) => ValidateFrame(s, u, PasswordReset, code);
    case _ =>
  }

  /** Every stored code was mailed at some step of the run, for a sign-up or a forgotten password of
      an account that was not deleted, and expires ten minutes after that step. */
  lemma {:induction false} EveryCodeMailed(ttl: Time, events: seq<Event>, id: OtpId)
    requires id in Run(Opening(ttl), events).otps
    ensures exists i :: MailedAt(ttl, events, i, id, Run(Opening(ttl), events).otps[id])
    decreases |events|
  {
    if events == [] {
    } else {
      var front, last := events[..|events| - 1], events[|events| - 1];
      var s, record := Run(Opening(ttl), front), Run(Opening(ttl), events).otps[id];
      RunSnoc(Opening(ttl), events);
      RunKeepsGuesses(Opening(ttl), front);
      assert IdTrue(s, id) && IdTrue(s, s.nextOtp);
      RecordsEvolve(s, last, id);
      CodeIffMailed(s, last, record.userId, record.purpose);
      if id in s.otps {
        EveryCodeMailed(ttl, front, id);
        var i :| MailedAt(ttl, front, i, id, s.otps[id]);
        assert events[..i] == front[..i] && events[i] == front[i];
        assert MailedAt(ttl, events, i, id, record);
      } else {
        assert events[..|events| - 1] == front;
        assert MailedAt(ttl, events, |events| - 1, id, record);
      }
    }
  }

  // ---- A replayed token ----

  /** Presenting a revoked token again changes nothing: it is refused, and every token, of the same
      user or of others, is answered as before. */
  lemma ReplayRevokesNothing(s: State, token: TokenId, other: TokenId)
    requires token in s.tokens && !Live(s.tokens[token])
    ensures Refresh(s, token) == Result(s, Failed(Unauthorized))
    ensures Refresh(Refresh(s, token).s, other).reply == Refresh(s, other).reply
  {
  }

  /** A run in which the session goes on: a token is rotated, replayed, and its successor accepted. */
  lemma SessionSurvivesReplay(ttl: Time, user: UserId, password: Secret, code: Secret)
    ensures
      var s := Run(Opening(ttl), [DoRegister(user, password, code), DoVerifyEmail(user, code), DoRefresh(0)]);
      var replay := Refresh(s, 0);
      0 in s.tokens && replay.reply == Failed(Unauthorized) && Refresh(replay.s, 1).reply.Done?
  {
    var s0 := Opening(ttl);
    var s1 := Apply(s0, DoRegister(user, password, code)).s;
    var s2 := Apply(s1, DoVerifyEmail(user, code)).s;
    var events := [DoRegister(user, password, code), DoVerifyEmail(user, code), DoRefresh(0)];
    assert Run(s0, events) == Run(s1, events[1..]);
    assert Run(s1, events[1..]) == Run(s2, events[1..][1..]) && events[1..][1..] == [DoRefresh(0)];
    assert Run(s2, [DoRefresh(0)]) == Run(Refresh(s2, 0).s, [DoRefresh(0)][1..]);
    assert Candidate(s1.otps, 0, user, EmailVerification) && LatestOtp(s1.otps, user, EmailVerification, 1) == Some(0);
    assert 0 in s2.tokens && s2.nextToken == 1;
  }
}
