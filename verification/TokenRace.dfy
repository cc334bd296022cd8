/** Refreshes with the look-up, the revocation and the new token as separate statements: how many
    live tokens a family can hold. */
module TokenRace {
  import opened Domain
  import opened Auth
  import opened AuthInvariants
  import opened Sums

  /** A refresh that has found its token live, or has revoked it and not yet issued the next. */
  datatype Stage = Found | Revoked

  datatype InFlight = InFlight(token: TokenId, user: UserId, stage: Stage)

  datatype Machine = Machine(s: State, inFlight: map<nat, InFlight>)

  datatype Move =
    | Other(e: Event)
    | Find(k: nat, token: TokenId)
    | RevokeFound(k: nat)
    | IssueNext(k: nat)
    | Die(k: nat)

  predicate Legal(m: Move) {
    m.Other? ==> !m.e.DoRefresh?
  }

  ghost predicate AllLegal(moves: seq<Move>) {
    forall i :: 0 <= i < |moves| ==> Legal(moves[i])
  }

  predicate Good(s: State, token: TokenId) {
    token in s.tokens && Live(s.tokens[token]) && s.now <= s.tokens[token].expiresAt
  }

  function Next(m: Machine, move: Move): Machine {
    match move
    case Other(e) => m.(s := Apply(m.s, e).s)
    case Find(k, token) =>
      if k in m.inFlight || !Good(m.s, token) then m
      else m.(inFlight := m.inFlight[k := InFlight(token, m.s.tokens[token].userId, Found)])
    case RevokeFound(k) =>
      if k !in m.inFlight || !m.inFlight[k].stage.Found? then m
      else if m.inFlight[k].token !in m.s.tokens then m.(inFlight := m.inFlight - {k})
      else Machine(Revoke(m.s, m.inFlight[k].token), m.inFlight[k := m.inFlight[k].(stage := Revoked)])
    case IssueNext(k) =>
      if k !in m.inFlight || !m.inFlight[k].stage.Revoked? then m
      else
        var f := m.inFlight[k];
        if f.user !in m.s.users || m.s.users[f.user].isSuspended || m.s.users[f.user].isDeleted
        then m.(inFlight := m.inFlight - {k})
        else Machine(IssueTokens(m.s, f.user, Some(f.token)), m.inFlight - {k})
    case Die(k) => m.(inFlight := m.inFlight - {k})
  }

  function Play(m: Machine, moves: seq<Move>): Machine
    decreases |moves|
  {
    if moves == [] then m else Play(Next(m, moves[0]), moves[1..])
  }

  function Start(ttl: Time): Machine {
    Machine(Opening(ttl), map[])
  }

  /** The three statements with nothing in between are the atomic call. */
  lemma BackToBackIsAtomic(s: State, token: TokenId, k: nat)
    ensures Next(Next(Next(Machine(s, map[]), Find(k, token)), RevokeFound(k)), IssueNext(k))
         == Machine(Refresh(s, token).s, map[])
  {
    if Good(s, token) {
      var m1 := Next(Machine(s, map[]), Find(k, token));
      var m2 := Next(m1, RevokeFound(k));
      assert m2.inFlight - {k} == map[];
    }
  }

  // ---- One family ----

  predicate InFamily(s: State, token: TokenId, family: TokenId) {
    token in s.family && s.family[token] == family
  }

  ghost predicate BeingUsed(inFlight: map<nat, InFlight>, token: TokenId) {
    exists k :: k in inFlight && inFlight[k].token == token && inFlight[k].stage.Found?
  }

  /** The family's live tokens. */
  function LiveIn(s: State, family: TokenId): set<TokenId> {
    set t | t in s.tokens && Live(s.tokens[t]) && InFamily(s, t, family)
  }

  /** Those that no refresh has found. */
  ghost function Free(m: Machine, family: TokenId): set<TokenId> {
    set t | t in LiveIn(m.s, family) && !BeingUsed(m.inFlight, t)
  }

  /** The refreshes of the family under way. */
  function Busy(m: Machine, family: TokenId): set<nat> {
    set k | k in m.inFlight && InFamily(m.s, m.inFlight[k].token, family)
  }

  ghost function Holders(m: Machine, family: TokenId): nat {
    |Free(m, family)| + |Busy(m, family)|
  }

  /** A look-up that finds a token another refresh has found and not yet revoked. */
  ghost predicate FoundTwice(m: Machine, move: Move, family: TokenId) {
    move.Find? && move.k !in m.inFlight && Good(m.s, move.token) && InFamily(m.s, move.token, family)
    && BeingUsed(m.inFlight, move.token)
  }

  ghost function Doubles(m: Machine, moves: seq<Move>, family: TokenId): nat
    decreases |moves|
  {
    if moves == [] then 0
    else (if FoundTwice(m, moves[0], family) then 1 else 0) + Doubles(Next(m, moves[0]), moves[1..], family)
  }

  /** Ids are handed out in order, and a token in use was handed out. */
  ghost predicate InOrder(m: Machine) {
    IdsOk(m.s) && forall k :: k in m.inFlight ==> m.inFlight[k].token in m.s.family
  }

  // ---- Set arithmetic ----

  lemma OneMore<T>(a: set<T>, b: set<T>, x: T)
    requires a <= b + {x}
    ensures |a| <= |b| + 1
  {
    SubsetSize(a, b + {x});
  }

  lemma OneLess<T>(a: set<T>, b: set<T>, x: T)
    requires a <= b - {x} && x in b
    ensures |a| + 1 <= |b|
  {
    SubsetSize(a, b - {x});
  }

  // ---- One move ----

  lemma FindStep(m: Machine, k: nat, token: TokenId, family: TokenId)
    requires InOrder(m)
    ensures var m' := Next(m, Find(k, token));
            InOrder(m') && Holders(m', family) <= Holders(m, family) + (if FoundTwice(m, Find(k, token), family) then 1 else 0)
  {
    var m' := Next(m, Find(k, token));
    if k !in m.inFlight && Good(m.s, token) {
      UsedAlso(m.inFlight, k, m'.inFlight[k]);
      if InFamily(m.s, token, family) {
        OneMore(Busy(m', family), Busy(m, family), k);
        assert token in LiveIn(m.s, family);
        if BeingUsed(m.inFlight, token) {
          SubsetSize(Free(m', family), Free(m, family));
        } else {
          OneLess(Free(m', family), Free(m, family), token);
        }
      } else {
        SubsetSize(Busy(m', family), Busy(m, family));
        SubsetSize(Free(m', family), Free(m, family));
      }
    }
  }

  /** With one more refresh in flight the same tokens are in use, and its own. */
  lemma UsedAlso(inFlight: map<nat, InFlight>, k: nat, f: InFlight)
    requires k !in inFlight && f.stage.Found?
    ensures forall t: TokenId :: BeingUsed(inFlight[k := f], t) <==> BeingUsed(inFlight, t) || t == f.token
  {
    var inFlight' := inFlight[k := f];
    assert inFlight'[k].token == f.token;
    forall t: TokenId | BeingUsed(inFlight, t) ensures BeingUsed(inFlight', t) {
      var j :| j in inFlight && inFlight[j].token == t && inFlight[j].stage.Found?;
      assert inFlight'[j] == inFlight[j];
    }
  }

  /** With one fewer, or one that has moved on, the same tokens are in use but perhaps its own. */
  lemma UsedStill(inFlight: map<nat, InFlight>, inFlight': map<nat, InFlight>, k: nat, t: TokenId)
    requires k in inFlight && t != inFlight[k].token
    requires forall j :: j in inFlight && j != k ==> j in inFlight' && inFlight'[j] == inFlight[j]
    ensures BeingUsed(inFlight, t) ==> BeingUsed(inFlight', t)
  {
    if j :| j in inFlight && inFlight[j].token == t && inFlight[j].stage.Found? {
      assert inFlight'[j] == inFlight[j];
    }
  }

  /** A refresh that stops: its token may be free again. */
  lemma DropStep(m: Machine, k: nat, family: TokenId)
    requires InOrder(m) && k in m.inFlight
    ensures var m' := m.(inFlight := m.inFlight - {k}); InOrder(m') && Holders(m', family) <= Holders(m, family)
  {
    var m' := m.(inFlight := m.inFlight - {k});
    var token := m.inFlight[k].token;
    forall t | t in Free(m', family) && t != token ensures t in Free(m, family) {
      UsedStill(m.inFlight, m'.inFlight, k, t);
    }
    if InFamily(m.s, token, family) {
      OneMore(Free(m', family), Free(m, family), token);
      OneLess(Busy(m', family), Busy(m, family), k);
    } else {
      SubsetSize(Free(m', family), Free(m, family));
      SubsetSize(Busy(m', family), Busy(m, family));
    }
  }

  lemma RevokeStep(m: Machine, k: nat, family: TokenId)
    requires InOrder(m)
    ensures var m' := Next(m, RevokeFound(k)); InOrder(m') && Holders(m', family) <= Holders(m, family)
  {
    if k in m.inFlight && m.inFlight[k].stage.Found? {
      var token := m.inFlight[k].token;
      if token !in m.s.tokens {
        DropStep(m, k, family);
      } else {
        var m' := Next(m, RevokeFound(k));
        forall t | t in Free(m', family) ensures t in Free(m, family) {
          assert t != token;
          UsedStill(m.inFlight, m'.inFlight, k, t);
        }
        SubsetSize(Free(m', family), Free(m, family));
        SubsetSize(Busy(m', family), Busy(m, family));
      }
    }
  }

  lemma IssueStep(m: Machine, k: nat, family: TokenId)
    requires InOrder(m)
    ensures var m' := Next(m, IssueNext(k)); InOrder(m') && Holders(m', family) <= Holders(m, family)
  {
    if k in m.inFlight && m.inFlight[k].stage.Revoked? {
      var f, m' := m.inFlight[k], Next(m, IssueNext(k));
      if m'.s == m.s {
        DropStep(m, k, family);
      } else {
        var next := m.s.nextToken;
        forall t | t in Free(m', family) && t != next ensures t in Free(m, family) {
          StillUsedAfterIssue(m.inFlight, k, t);
        }
        if InFamily(m.s, f.token, family) {
          OneMore(Free(m', family), Free(m, family), next);
          assert k in Busy(m, family);
          OneLess(Busy(m', family), Busy(m, family), k);
        } else {
          SubsetSize(Free(m', family), Free(m, family));
          SubsetSize(Busy(m', family), Busy(m, family));
        }
      }
    }
  }

  lemma StillUsedAfterIssue(inFlight: map<nat, InFlight>, k: nat, t: TokenId)
    requires k in inFlight && inFlight[k].stage.Revoked?
    ensures BeingUsed(inFlight, t) ==> BeingUsed(inFlight - {k}, t)
  {
    if j :| j in inFlight && inFlight[j].token == t && inFlight[j].stage.Found? {
      assert (inFlight - {k})[j] == inFlight[j];
    }
  }

  /** Every other call brings no live token to a family that has already begun. */
  lemma OtherFrame(s: State, e: Event, t: TokenId)
    requires IdsOk(s) && Legal(Other(e))
    ensures var s' := Apply(s, e).s;
            && IdsOk(s') && s.nextToken <= s'.nextToken
            && (t in s.family ==> t in s'.family && s'.family[t] == s.family[t])
            && (t in s'.family && t !in s.family ==> t == s.nextToken && s'.family[t] == t && s'.nextToken == t + 1)
            && (t in s'.tokens && Live(s'.tokens[t]) ==> (t in s.tokens && Live(s.tokens[t])) || t == s.nextToken)
  {
    match e
    case DoVerifyEmail(user, code) => ValidateFrame(s, user, EmailVerification, code);
    case DoResetPassword(user, code, _) => ValidateFrame(s, user, PasswordReset, code);
    case _ =>
  }

  lemma OtherStep(m: Machine, e: Event, family: TokenId)
    requires InOrder(m) && Legal(Other(e))
    ensures var m' := Next(m, Other(e));
            InOrder(m') && (Holders(m', family) <= Holders(m, family) || Holders(m', family) <= 1)
  {
    var m' := Next(m, Other(e));
    OtherFrame(m.s, e, family);
    forall t: TokenId
      ensures (t in m.s.family ==> t in m'.s.family && m'.s.family[t] == m.s.family[t])
      ensures t in Free(m', family) && t != m.s.nextToken ==> t in Free(m, family)
      ensures t in Free(m', family) && t == m.s.nextToken ==> family == t
    {
      OtherFrame(m.s, e, t);
    }
    SubsetSize(Busy(m', family), Busy(m, family));
    if family == m.s.nextToken {
      assert Busy(m, family) == {};
      assert Free(m', family) <= {family} by {
        forall t | t in Free(m', family) ensures t == family {
          OtherFrame(m.s, e, t);
        }
      }
      SubsetSize(Free(m', family), {family});
    } else {
      SubsetSize(Free(m', family), Free(m, family));
    }
  }

  lemma MoveStep(m: Machine, move: Move, family: TokenId)
    requires InOrder(m) && Legal(move)
    ensures var m' := Next(m, move);
            && InOrder(m')
            && (Holders(m', family) <= Holders(m, family) + (if FoundTwice(m, move, family) then 1 else 0)
                || Holders(m', family) <= 1)
  {
    match move
    case Other(e) => OtherStep(m, e, family);
    case Find(k, token) => FindStep(m, k, token, family);
    case RevokeFound(k) => RevokeStep(m, k, family);
    case IssueNext(k) => IssueStep(m, k, family);
    case Die(k) =>
      if k in m.inFlight {
        DropStep(m, k, family);
      } else {
        assert m.inFlight - {k} == m.inFlight;
      }
  }

  lemma {:induction false} PlayHolders(m: Machine, moves: seq<Move>, family: TokenId, n: nat)
    requires InOrder(m) && AllLegal(moves) && Holders(m, family) <= 1 + n
    ensures Holders(Play(m, moves), family) <= 1 + n + Doubles(m, moves, family)
    decreases |moves|
  {
    if moves == [] {
    } else {
      var found := if FoundTwice(m, moves[0], family) then 1 else 0;
      MoveStep(m, moves[0], family);
      PlayHolders(Next(m, moves[0]), moves[1..], family, n + found);
    }
  }

  /** Over every run, whenever no refresh of a family is under way, the family holds at most one live
      token more than there were look-ups that found a token another refresh had found and not yet
      revoked: at most one, if refreshes of one token never overlap. */
  lemma LiveWithinDoubles(ttl: Time, moves: seq<Move>, family: TokenId)
    requires AllLegal(moves) && Busy(Play(Start(ttl), moves), family) == {}
    ensures |LiveIn(Play(Start(ttl), moves).s, family)| <= 1 + Doubles(Start(ttl), moves, family)
  {
    var m := Play(Start(ttl), moves);
    assert Free(Start(ttl), family) == {} && Busy(Start(ttl), family) == {};
    PlayHolders(Start(ttl), moves, family, 0);
    forall k | k in m.inFlight ensures !InFamily(m.s, m.inFlight[k].token, family) {
      assert k !in Busy(m, family);
    }
    SubsetSize(LiveIn(m.s, family), Free(m, family));
  }

  // ---- Reached ----

  ghost predicate Reached(moves: seq<Move>, m: Machine) {
    AllLegal(moves) && Play(Start(0), moves) == m
  }

  lemma {:induction false} PlaySnoc(m: Machine, moves: seq<Move>, move: Move)
    ensures Play(m, moves + [move]) == Next(Play(m, moves), move)
    ensures Doubles(m, moves + [move], 0) == Doubles(m, moves, 0) + (if FoundTwice(Play(m, moves), move, 0) then 1 else 0)
    decreases |moves|
  {
    if moves == [] {
      assert moves + [move] == [move];
      assert Play(Next(m, move), [move][1..]) == Next(m, move);
      assert Doubles(Next(m, move), [move][1..], 0) == 0;
    } else {
      assert (moves + [move])[1..] == moves[1..] + [move];
      PlaySnoc(Next(m, moves[0]), moves[1..], move);
    }
  }

  lemma Extend(moves: seq<Move>, m: Machine, move: Move) returns (moves': seq<Move>, m': Machine)
    requires Reached(moves, m) && Legal(move)
    ensures Reached(moves', m') && m' == Next(m, move)
    ensures Doubles(Start(0), moves', 0) == Doubles(Start(0), moves, 0) + (if FoundTwice(m, move, 0) then 1 else 0)
  {
    PlaySnoc(Start(0), moves, move);
    moves', m' := moves + [move], Next(m, move);
  }

  /** User 0 has signed up and holds token 0. */
  lemma SignedUp() returns (moves: seq<Move>, m: Machine)
    ensures Reached(moves, m) && m.inFlight == map[] && m.s.nextToken == 1
    ensures Good(m.s, 0) && m.s.tokens == map[0 := Token(0, 0, None)] && m.s.family == map[0 := 0]
    ensures 0 in m.s.users && Active(m.s.users[0]) && m.s.now == 0 && m.s.ttl == 0
    ensures Doubles(Start(0), moves, 0) == 0
  {
    moves, m := Extend([], Start(0), Other(DoRegister(0, 0, 7)));
    assert Candidate(m.s.otps, 0, 0, EmailVerification) && LatestOtp(m.s.otps, 0, EmailVerification, 1) == Some(0);
    moves, m := Extend(moves, m, Other(DoVerifyEmail(0, 7)));
  }

  /** `count` refreshes have found token 0 and none has gone on. */
  ghost predicate AllFound(m: Machine, count: nat) {
    && m.s.nextToken == 1 && m.s.tokens == map[0 := Token(0, 0, None)] && m.s.family == map[0 := 0]
    && 0 in m.s.users && Active(m.s.users[0]) && m.s.now == 0 && m.s.ttl == 0
    && forall k: nat :: (k in m.inFlight <==> k < count) && (k in m.inFlight ==> m.inFlight[k] == InFlight(0, 0, Found))
  }

  lemma {:induction false} AllFind(count: nat) returns (moves: seq<Move>, m: Machine)
    ensures Reached(moves, m) && AllFound(m, count)
    ensures Doubles(Start(0), moves, 0) == if count == 0 then 0 else count - 1
    decreases count
  {
    if count == 0 {
      moves, m := SignedUp();
    } else {
      moves, m := AllFind(count - 1);
      if count > 1 {
        assert m.inFlight[0].token == 0 && m.inFlight[0].stage.Found?;
      }
      moves, m := Extend(moves, m, Find(count - 1, 0));
    }
  }

  /** The rest of them revoke and issue, one after the other: each adds a live token. */
  ghost predicate Finishing(m: Machine, count: nat, done: nat) {
    && m.s.nextToken == 1 + done && 0 in m.s.tokens && m.s.now == 0 && m.s.ttl == 0
    && 0 in m.s.users && Active(m.s.users[0]) && InFamily(m.s, 0, 0)
    && (forall k: nat :: (k in m.inFlight <==> done <= k < count) && (k in m.inFlight ==> m.inFlight[k] == InFlight(0, 0, Found)))
    && (forall t: nat :: 0 < t <= done ==> t in m.s.tokens && Live(m.s.tokens[t]) && InFamily(m.s, t, 0))
  }

  lemma FinishOne(moves: seq<Move>, m: Machine, count: nat, done: nat) returns (moves': seq<Move>, m': Machine)
    requires Reached(moves, m) && Finishing(m, count, done) && done < count
    ensures Reached(moves', m') && Finishing(m', count, done + 1)
    ensures Doubles(Start(0), moves', 0) == Doubles(Start(0), moves, 0)
  {
    moves', m' := Extend(moves, m, RevokeFound(done));
    moves', m' := Extend(moves', m', IssueNext(done));
  }

  lemma {:induction false} FinishAll(count: nat, done: nat) returns (moves: seq<Move>, m: Machine)
    requires done <= count
    ensures Reached(moves, m) && Finishing(m, count, done)
    ensures Doubles(Start(0), moves, 0) == if count == 0 then 0 else count - 1
    decreases done
  {
    if done == 0 {
      moves, m := AllFind(count);
    } else {
      moves, m := FinishAll(count, done - 1);
      moves, m := FinishOne(moves, m, count, done - 1);
    }
  }

  lemma {:induction false} UpTo(n: nat) returns (s: set<TokenId>)
    ensures |s| == n && forall t: nat :: t in s <==> 0 < t <= n
    decreases n
  {
    if n == 0 {
      s := {};
    } else {
      s := UpTo(n - 1);
      s := s + {n};
    }
  }

  /** And the bound is reached for every number of doubles: n + 1 refreshes find one token before
      any revokes it, and each leaves a live token behind. */
  lemma DoublesBoundReached(n: nat)
    ensures exists moves :: AllLegal(moves) && Busy(Play(Start(0), moves), 0) == {}
              && Doubles(Start(0), moves, 0) == n && |LiveIn(Play(Start(0), moves).s, 0)| == 1 + n
  {
    var moves, m := FinishAll(n + 1, n + 1);
    var s := UpTo(n + 1);
    SubsetSize(s, LiveIn(m.s, 0));
    assert Busy(m, 0) == {};
    LiveWithinDoubles(0, moves, 0);
  }
}
