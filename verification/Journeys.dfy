/** The mailed codes from issue to use: what a right code opens, after how many wrong ones and
    for how long, and which passwords work afterwards. */
module Journeys {
  import opened Domain
  import opened Auth
  import opened AuthInvariants

  // ---- One code, some wrong guesses, then the right one ----

  /** The user's newest unused record for the purpose, with these columns. */
  ghost predicate Awaits(s: State, user: UserId, purpose: Purpose, code: Secret, attempts: nat, expiresAt: Time) {
    exists id: OtpId ::
      && Newest(s.otps, id, user, purpose) && id < s.nextOtp
      && s.otps[id].code == code && s.otps[id].attempts == attempts && s.otps[id].expiresAt == expiresAt
  }

  lemma NewestIsLatest(s: State, id: OtpId, user: UserId, purpose: Purpose)
    requires Newest(s.otps, id, user, purpose) && id < s.nextOtp
    ensures LatestOtp(s.otps, user, purpose, s.nextOtp) == Some(id)
  {
    LatestIsCandidate(s.otps, user, purpose, s.nextOtp);
  }

  lemma SentCodeAwaits(s: State, user: UserId, purpose: Purpose, code: Secret)
    requires GuessesOk(s)
    ensures Awaits(SendOtp(s, user, purpose, code), user, purpose, code, 0, s.now + OTP_TTL)
  {
    var s' := SendOtp(s, user, purpose, code);
    forall other: OtpId | Candidate(s'.otps, other, user, purpose) ensures other <= s.nextOtp {
      assert IdTrue(s, other);
    }
    assert Newest(s'.otps, s.nextOtp, user, purpose);
  }

  /** A wrong guess at an open record costs one attempt and nothing else. */
  lemma WrongGuess(s: State, user: UserId, purpose: Purpose, code: Secret, attempts: nat, expiresAt: Time, guess: Secret)
    requires Awaits(s, user, purpose, code, attempts, expiresAt) && guess != code
    ensures
      var v := ValidateOtp(s, user, purpose, guess);
      && v.reply.Failed? && v.s.users == s.users && v.s.now == s.now
      && Awaits(v.s, user, purpose, code, if attempts < OTP_MAX_ATTEMPTS && s.now <= expiresAt then attempts + 1 else attempts, expiresAt)
  {
    var id: OtpId :| Newest(s.otps, id, user, purpose) && id < s.nextOtp && s.otps[id].code == code
                     && s.otps[id].attempts == attempts && s.otps[id].expiresAt == expiresAt;
    NewestIsLatest(s, id, user, purpose);
    var s' := ValidateOtp(s, user, purpose, guess).s;
    forall other: OtpId | Candidate(s'.otps, other, user, purpose) ensures other <= id {
      assert Candidate(s.otps, other, user, purpose);
    }
    assert Newest(s'.otps, id, user, purpose);
  }

  lemma RightGuess(s: State, user: UserId, purpose: Purpose, code: Secret, attempts: nat, expiresAt: Time)
    requires Awaits(s, user, purpose, code, attempts, expiresAt)
    ensures ValidateOtp(s, user, purpose, code).reply.Done? <==> attempts < OTP_MAX_ATTEMPTS && s.now <= expiresAt
  {
    var id: OtpId :| Newest(s.otps, id, user, purpose) && id < s.nextOtp && s.otps[id].code == code
                     && s.otps[id].attempts == attempts && s.otps[id].expiresAt == expiresAt;
    NewestIsLatest(s, id, user, purpose);
  }

  // ---- Password reset ----

  function Guesses(user: UserId, codes: seq<Secret>, password: Secret): seq<Event> {
    seq(|codes|, i requires 0 <= i < |codes| => DoResetPassword(user, codes[i], password))
  }

  lemma {:induction false} WrongGuesses(s: State, user: UserId, code: Secret, attempts: nat, expiresAt: Time,
                                        codes: seq<Secret>, password: Secret)
    requires user in s.users && Awaits(s, user, PasswordReset, code, attempts, expiresAt)
    requires attempts <= OTP_MAX_ATTEMPTS && s.now <= expiresAt && code !in codes
    ensures
      var s' := Run(s, Guesses(user, codes, password));
      var used := if attempts + |codes| < OTP_MAX_ATTEMPTS then attempts + |codes| else OTP_MAX_ATTEMPTS;
      s'.users == s.users && s'.now == s.now && Awaits(s', user, PasswordReset, code, used, expiresAt)
    decreases |codes|
  {
    if codes == [] {
    } else {
      WrongGuess(s, user, PasswordReset, code, attempts, expiresAt, codes[0]);
      var s1 := Apply(s, DoResetPassword(user, codes[0], password)).s;
      assert s1 == ValidateOtp(s, user, PasswordReset, codes[0]).s;
      assert Guesses(user, codes, password)[1..] == Guesses(user, codes[1..], password);
      WrongGuesses(s1, user, code, if attempts < OTP_MAX_ATTEMPTS then attempts + 1 else attempts, expiresAt,
                   codes[1..], password);
    }
  }

  /** A reset code mailed on request works after a delay and some wrong guesses exactly when it
      is at most ten minutes old and was preceded by fewer than five of them. */
  lemma ResetCodeWorksIff(s: State, user: UserId, code: Secret, wrong: seq<Secret>, delay: Time, password: Secret)
    requires GuessesOk(s) && user in s.users && !s.users[user].isDeleted && code !in wrong
    ensures
      var tried := Run(ForgotPassword(s, user, code).s, Guesses(user, wrong, password));
      var later := tried.(now := tried.now + delay);
      ResetPassword(later, user, code, password).reply.Done? <==> |wrong| < 5 && delay <= 10 * 60 * 1000
  {
    var sent := ForgotPassword(s, user, code).s;
    SentCodeAwaits(s, user, PasswordReset, code);
    WrongGuesses(sent, user, code, 0, s.now + OTP_TTL, wrong, password);
    var tried := Run(sent, Guesses(user, wrong, password));
    var later := tried.(now := tried.now + delay);
    var used := if |wrong| < OTP_MAX_ATTEMPTS then |wrong| else OTP_MAX_ATTEMPTS;
    assert Awaits(later, user, PasswordReset, code, used, s.now + OTP_TTL);
    RightGuess(later, user, PasswordReset, code, used, s.now + OTP_TTL);
  }

  /** After a reset the new password is the one that logs an active account in. */
  lemma OnlyNewPasswordWorks(s: State, user: UserId, code: Secret, password: Secret, tried: Secret)
    requires ResetPassword(s, user, code, password).reply.Done?
    ensures Login(ResetPassword(s, user, code, password).s, user, tried).reply.Done?
      <==> tried == password && Active(s.users[user])
  {
  }

  // ---- Sign-up ----

  /** Signing up, again if need be, and giving the mailed code in time verifies the account, even
      a suspended one; the refresh token it leaves and the password are good unless it is suspended. */
  lemma SignUpWorksIff(s: State, user: UserId, password: Secret, code: Secret, delay: Time)
    requires GuessesOk(s) && TokensOk(s)
    requires user in s.users ==> !s.users[user].isEmailVerified && !s.users[user].isDeleted
    ensures
      var waited := Register(s, user, password, code).s.(now := s.now + delay);
      var v := VerifyEmail(waited, user, code);
      && (v.reply.Done? <==> delay <= 10 * 60 * 1000)
      && (v.reply.Done? ==>
            && (Refresh(v.s, waited.nextToken).reply.Done? <==> !waited.users[user].isSuspended)
            && (Login(v.s, user, password).reply.Done? <==> !waited.users[user].isSuspended))
      && !Login(waited, user, password).reply.Done?
  {
  }
}
