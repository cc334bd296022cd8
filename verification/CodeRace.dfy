/** Checks of mailed codes whose read and write are separate statements. A check reads the latest
    record and compares at once; what the comparison costs the record is written later. */
module CodeRace {
  import opened Domain
  import opened Auth
  import opened AuthInvariants

  /** A comparison made and not yet written. */
  datatype Check = Check(otp: OtpId, matched: bool)

  datatype Machine = Machine(s: State, checks: map<nat, Check>)

  datatype Move =
    | Other(e: Event)
    | Look(k: nat, user: UserId, purpose: Purpose, code: Secret)
    | Settle(k: nat)

  /** The two calls that check a code never appear as atomic ones. */
  predicate Legal(m: Move) {
    m.Other? ==> !m.e.DoVerifyEmail? && !m.e.DoResetPassword?
  }

  ghost predicate AllLegal(moves: seq<Move>) {
    forall i :: 0 <= i < |moves| ==> Legal(moves[i])
  }

  function Next(m: Machine, move: Move): Machine {
    match move
    case Other(e) => m.(s := Apply(m.s, e).s)
    case Look(k, user, purpose, code) =>
      var latest := LatestOtp(m.s.otps, user, purpose, m.s.nextOtp);
      if k in m.checks || latest.None? then m
      else
        var record := m.s.otps[latest.value];
        if record.attempts >= OTP_MAX_ATTEMPTS || record.expiresAt < m.s.now then m
        else
          Machine(m.s.(guesses := m.s.guesses + [Guess(latest.value, m.s.now, record.expiresAt, code == record.code)]),
                  m.checks[k := Check(latest.value, code == record.code)])
    case Settle(k) =>
      if k !in m.checks then m
      else Machine(m.s.(otps := Settled(m.s.otps, m.checks[k])), m.checks - {k})
  }

  /** The mark or the increment; a record cleaned away in the meantime makes the statement fail. */
  function Settled(otps: map<OtpId, Otp>, c: Check): map<OtpId, Otp> {
    if c.otp !in otps then otps
    else if c.matched then otps[c.otp := otps[c.otp].(used := true)]
    else otps[c.otp := otps[c.otp].(attempts := otps[c.otp].attempts + 1)]
  }

  function Play(m: Machine, moves: seq<Move>): Machine
    decreases |moves|
  {
    if moves == [] then m else Play(Next(m, moves[0]), moves[1..])
  }

  function Start(ttl: Time): Machine {
    Machine(Opening(ttl), map[])
  }

  /** A look settled at once is the atomic check. */
  lemma BackToBackIsAtomic(s: State, user: UserId, purpose: Purpose, code: Secret, k: nat)
    ensures Next(Next(Machine(s, map[]), Look(k, user, purpose, code)), Settle(k))
         == Machine(ValidateOtp(s, user, purpose, code).s, map[])
  {
    var m := Next(Machine(s, map[]), Look(k, user, purpose, code));
    if k in m.checks {
      assert m.checks - {k} == map[];
    }
  }

  // ---- Comparisons against one record ----

  function InHand(checks: map<nat, Check>, id: OtpId, matched: bool): set<nat> {
    set k | k in checks && checks[k].otp == id && checks[k].matched == matched
  }

  function Overlap(m: Machine, id: OtpId): nat {
    |InHand(m.checks, id, true)| + |InHand(m.checks, id, false)|
  }

  /** At no point of the run are more than n checks of the record between look and write. */
  predicate OverlapAtMost(m: Machine, moves: seq<Move>, id: OtpId, n: nat)
    decreases |moves|
  {
    Overlap(m, id) <= n && (moves == [] || OverlapAtMost(Next(m, moves[0]), moves[1..], id, n))
  }

  /** The record's columns are its history but for what is still to be written. */
  predicate RecordOk(m: Machine, id: OtpId) {
    id in m.s.otps ==>
      && m.s.otps[id].attempts + |InHand(m.checks, id, false)| == Misses(m.s.guesses, id)
      && (!m.s.otps[id].used ==> |InHand(m.checks, id, true)| == Hits(m.s.guesses, id))
  }

  predicate IdOk(m: Machine, id: OtpId, n: nat) {
    && RecordOk(m, id)
    && Hits(m.s.guesses, id) <= n && Hits(m.s.guesses, id) + Misses(m.s.guesses, id) <= OTP_MAX_ATTEMPTS - 1 + n
    && (id >= m.s.nextOtp ==>
          id !in m.s.otps && Hits(m.s.guesses, id) == 0 && Misses(m.s.guesses, id) == 0 && Overlap(m, id) == 0)
  }

  lemma LookedAt(checks: map<nat, Check>, k: nat, c: Check, id: OtpId, matched: bool)
    requires k !in checks
    ensures InHand(checks[k := c], id, matched)
         == InHand(checks, id, matched) + (if c.otp == id && c.matched == matched then {k} else {})
  {
  }

  lemma SettledOne(checks: map<nat, Check>, k: nat, id: OtpId, matched: bool)
    ensures InHand(checks - {k}, id, matched) == InHand(checks, id, matched) - {k}
  {
  }

  lemma LookStep(m: Machine, k: nat, user: UserId, purpose: Purpose, code: Secret, id: OtpId, n: nat)
    requires IdOk(m, id, n) && Overlap(Next(m, Look(k, user, purpose, code)), id) <= n
    ensures IdOk(Next(m, Look(k, user, purpose, code)), id, n)
  {
    var m' := Next(m, Look(k, user, purpose, code));
    if m' != m {
      var c := m'.checks[k];
      LookedAt(m.checks, k, c, id, true);
      LookedAt(m.checks, k, c, id, false);
      var g := m'.s.guesses[|m.s.guesses|];
      GuessCounts(m.s.guesses, g, id);
    }
  }

  lemma SettleStep(m: Machine, k: nat, id: OtpId, n: nat)
    requires IdOk(m, id, n)
    ensures IdOk(Next(m, Settle(k)), id, n)
  {
    if k in m.checks {
      SettledOne(m.checks, k, id, true);
      SettledOne(m.checks, k, id, false);
      var c := m.checks[k];
      assert c.otp == id ==> k in InHand(m.checks, id, c.matched) && k !in InHand(m.checks, id, !c.matched);
      assert c.otp != id ==> k !in InHand(m.checks, id, true) && k !in InHand(m.checks, id, false);
    }
  }

  /** No other call touches a stored record, a guess, or an id already handed out. */
  lemma OtherFrame(s: State, e: Event, id: OtpId)
    requires Legal(Other(e))
    ensures var s' := Apply(s, e).s;
            && s'.guesses == s.guesses && s.nextOtp <= s'.nextOtp
            && (id in s'.otps ==>
                  (id in s.otps && s'.otps[id] == s.otps[id])
                  || (id == s.nextOtp < s'.nextOtp && s'.otps[id].attempts == 0 && !s'.otps[id].used))
  {
  }

  lemma OtherStep(m: Machine, e: Event, id: OtpId, n: nat)
    requires IdOk(m, id, n) && Legal(Other(e))
    ensures IdOk(Next(m, Other(e)), id, n)
  {
    OtherFrame(m.s, e, id);
  }

  lemma {:induction false} PlayOk(m: Machine, moves: seq<Move>, id: OtpId, n: nat)
    requires IdOk(m, id, n) && AllLegal(moves) && OverlapAtMost(m, moves, id, n)
    ensures IdOk(Play(m, moves), id, n)
    decreases |moves|
  {
    if moves == [] {
    } else {
      assert OverlapAtMost(Next(m, moves[0]), moves[1..], id, n);
      assert Legal(moves[0]);
      match moves[0] {
        case Other(e) => OtherStep(m, e, id, n);
        case Look(k, user, purpose, code) => LookStep(m, k, user, purpose, code, id, n);
        case Settle(k) => SettleStep(m, k, id, n);
      }
      PlayOk(Next(m, moves[0]), moves[1..], id, n);
    }
  }

  /** If at most n checks of a record ever overlap, n at least one, then at most 4 + n comparisons
      are ever made against it and at most n of them match. With n = 1 these are the five and the
      one of the atomic calls. */
  lemma ComparisonsWithinOverlap(ttl: Time, moves: seq<Move>, id: OtpId, n: nat)
    requires n >= 1 && AllLegal(moves) && OverlapAtMost(Start(ttl), moves, id, n)
    ensures
      var guesses := Play(Start(ttl), moves).s.guesses;
      && Hits(guesses, id) + Misses(guesses, id) <= 4 + n
      && Hits(guesses, id) <= n
  {
    assert InHand(map[], id, true) == {} && InHand(map[], id, false) == {};
    PlayOk(Start(ttl), moves, id, n);
  }

  // ---- Reached ----

  lemma {:induction false} PlaySnoc(m: Machine, moves: seq<Move>, move: Move)
    ensures Play(m, moves + [move]) == Next(Play(m, moves), move)
    decreases |moves|
  {
    if moves == [] {
      assert moves + [move] == [move];
      assert Play(Next(m, move), [move][1..]) == Next(m, move);
    } else {
      assert (moves + [move])[1..] == moves[1..] + [move];
      PlaySnoc(Next(m, moves[0]), moves[1..], move);
    }
  }

  lemma {:induction false} OverlapSnoc(m: Machine, moves: seq<Move>, move: Move, id: OtpId, n: nat)
    requires OverlapAtMost(m, moves, id, n) && Overlap(Next(Play(m, moves), move), id) <= n
    ensures OverlapAtMost(m, moves + [move], id, n)
    decreases |moves|
  {
    if moves == [] {
      assert moves + [move] == [move] && [move][1..] == [];
      assert OverlapAtMost(Next(m, move), [], id, n);
    } else {
      assert (moves + [move])[1..] == moves[1..] + [move];
      OverlapSnoc(Next(m, moves[0]), moves[1..], move, id, n);
    }
  }

  /** These moves lead here with at most n checks of record 0 overlapping on the way. */
  ghost predicate Reached(moves: seq<Move>, m: Machine, n: nat) {
    AllLegal(moves) && Play(Start(0), moves) == m && OverlapAtMost(Start(0), moves, 0, n)
  }

  lemma Extend(moves: seq<Move>, m: Machine, move: Move, n: nat) returns (moves': seq<Move>, m': Machine)
    requires Reached(moves, m, n) && Legal(move) && Overlap(Next(m, move), 0) <= n
    ensures Reached(moves', m', n) && m' == Next(m, move)
  {
    PlaySnoc(Start(0), moves, move);
    OverlapSnoc(Start(0), moves, move, 0, n);
    moves', m' := moves + [move], Next(m, move);
  }

  /** User 0 has one record, with code 7 and some attempts spent. */
  predicate OneRecord(m: Machine, attempts: nat) {
    && m.s.now == 0 && m.s.nextOtp == 1
    && m.s.otps == map[0 := Otp(0, EmailVerification, 7, attempts, OTP_TTL, false)]
  }

  lemma NothingInHand()
    ensures InHand(map[], 0, true) == {} && InHand(map[], 0, false) == {}
  {
  }

  lemma Mailed(n: nat) returns (moves: seq<Move>, m: Machine)
    ensures Reached(moves, m, n) && OneRecord(m, 0) && m.checks == map[] && m.s.guesses == []
  {
    NothingInHand();
    moves, m := Extend([], Start(0), Other(DoRegister(0, 0, 7)), n);
  }

  lemma LookAt(moves: seq<Move>, m: Machine, k: nat, attempts: nat, code: Secret, n: nat)
    returns (moves': seq<Move>, m': Machine)
    requires Reached(moves, m, n) && OneRecord(m, attempts) && attempts < OTP_MAX_ATTEMPTS && k !in m.checks
    requires Overlap(m, 0) < n
    ensures Reached(moves', m', n) && OneRecord(m', attempts) && m'.checks == m.checks[k := Check(0, code == 7)]
    ensures Overlap(m', 0) == Overlap(m, 0) + 1
    ensures Hits(m'.s.guesses, 0) == Hits(m.s.guesses, 0) + (if code == 7 then 1 else 0)
    ensures Misses(m'.s.guesses, 0) == Misses(m.s.guesses, 0) + (if code == 7 then 0 else 1)
  {
    assert Candidate(m.s.otps, 0, 0, EmailVerification);
    assert LatestOtp(m.s.otps, 0, EmailVerification, 1) == Some(0);
    LookedAt(m.checks, k, Check(0, code == 7), 0, true);
    LookedAt(m.checks, k, Check(0, code == 7), 0, false);
    moves', m' := Extend(moves, m, Look(k, 0, EmailVerification, code), n);
    GuessCounts(m.s.guesses, Guess(0, 0, OTP_TTL, code == 7), 0);
  }

  /** Wrong codes one after the other spend the attempts. */
  lemma {:induction false} Spend(attempts: nat, n: nat) returns (moves: seq<Move>, m: Machine)
    requires attempts < OTP_MAX_ATTEMPTS && n >= 1
    ensures Reached(moves, m, n) && OneRecord(m, attempts) && m.checks == map[]
    ensures Misses(m.s.guesses, 0) == attempts && Hits(m.s.guesses, 0) == 0
    decreases attempts
  {
    NothingInHand();
    if attempts == 0 {
      moves, m := Mailed(n);
    } else {
      moves, m := Spend(attempts - 1, n);
      moves, m := LookAt(moves, m, 0, attempts - 1, 8, n);
      assert m.checks - {0} == map[];
      moves, m := Extend(moves, m, Settle(0), n);
      assert m.s.otps == map[0 := Otp(0, EmailVerification, 7, attempts, OTP_TTL, false)];
    }
  }

  /** `count` checks with the same code look at an open record before any of them is settled. */
  lemma {:induction false} AllLook(moves: seq<Move>, m: Machine, attempts: nat, code: Secret, count: nat, n: nat)
    returns (moves': seq<Move>, m': Machine)
    requires Reached(moves, m, n) && OneRecord(m, attempts) && attempts < OTP_MAX_ATTEMPTS && m.checks == map[]
    requires count <= n
    ensures Reached(moves', m', n) && OneRecord(m', attempts) && forall k :: k in m'.checks ==> k < count
    ensures Overlap(m', 0) == count
    ensures Hits(m'.s.guesses, 0) == Hits(m.s.guesses, 0) + (if code == 7 then count else 0)
    ensures Misses(m'.s.guesses, 0) == Misses(m.s.guesses, 0) + (if code == 7 then 0 else count)
    decreases count
  {
    NothingInHand();
    if count == 0 {
      moves', m' := moves, m;
    } else {
      moves', m' := AllLook(moves, m, attempts, code, count - 1, n);
      moves', m' := LookAt(moves', m', count - 1, attempts, code, n);
    }
  }

  /** Both bounds are reached, for every overlap: a run with 4 + n comparisons against one record,
      and one with n accepted codes. */
  lemma OverlapBoundsReached(n: nat)
    requires n >= 1
    ensures exists moves :: AllLegal(moves) && OverlapAtMost(Start(0), moves, 0, n)
              && Misses(Play(Start(0), moves).s.guesses, 0) == 4 + n
    ensures exists moves :: AllLegal(moves) && OverlapAtMost(Start(0), moves, 0, n)
              && Hits(Play(Start(0), moves).s.guesses, 0) == n
  {
    var moves, m := Spend(4, n);
    var wrong, m1 := AllLook(moves, m, 4, 8, n, n);
    moves, m := Mailed(n);
    var right, m2 := AllLook(moves, m, 0, 7, n, n);
  }
}
