/** A run of statements in which an older aggregate is written over a newer one. */
module StaleAggregate {
  import opened Domain
  import opened Rides
  import opened Platform
  import opened Reputation
  import opened Statements
  import opened Sample
  import Aggregates
  import BlindReveal

  const FIVE: Score := 5

  lemma {:induction false} InterleaveSnoc(s: Machine, moves: seq<Move>, m: Move)
    ensures Interleave(s, moves + [m]) == Next(Interleave(s, moves), m)
    decreases |moves|
  {
    if moves == [] {
      assert moves + [m] == [m];
      assert Interleave(Next(s, m), [m][1..]) == Next(s, m);
    } else {
      assert (moves + [m])[1..] == moves[1..] + [m];
      InterleaveSnoc(Next(s, moves[0]), moves[1..], m);
    }
  }

  ghost predicate Reached(moves: seq<Move>, s: Machine) {
    Interleave(IDLE_SYSTEM, moves) == s
  }

  lemma Extend(moves: seq<Move>, s: Machine, m: Move) returns (moves': seq<Move>, s': Machine)
    requires Reached(moves, s)
    ensures Reached(moves', s') && s' == Next(s, m)
  {
    InterleaveSnoc(IDLE_SYSTEM, moves, m);
    moves', s' := moves + [m], Next(s, m);
  }

  /** The ride calls alone take the machine where they take its ride tables. */
  lemma {:induction false} RideMoves(moves: seq<Move>, s: Machine, calls: seq<Call>) returns (moves': seq<Move>, s': Machine)
    requires Reached(moves, s)
    ensures Reached(moves', s') && s' == s.(w := Run(s.w, calls))
    decreases |calls|
  {
    if calls == [] {
      moves', s' := moves, s;
    } else {
      moves', s' := Extend(moves, s, RideMove(calls[0]));
      moves', s' := RideMoves(moves', s', calls[1..]);
    }
  }

  predicate TwoFinished(w: World) {
    0 in w.rides && RideFinished(w.rides[0], 0) && 1 in w.rides && RideFinished(w.rides[1], 0)
  }

  /** Two completed rides of users 0 and 1, and one credited job, so that both have a row. */
  lemma CreditedRun() returns (moves: seq<Move>, s: Machine)
    ensures Reached(moves, s) && TwoFinished(s.w)
    ensures s.db.ratings == [] && 0 in s.db.stats && s.calls == map[]
  {
    TwoCompleted(0);
    moves, s := RideMoves([], IDLE_SYSTEM, CompleteCalls(0, 0) + CompleteCalls(1, 0));
    moves, s := Extend(moves, s, BeginJob(0, 0));
    moves, s := Extend(moves, s, AdvanceJob(0, CreditRider));
  }

  /** User 0 rates the ride first: one more hidden rating, and the call is over. */
  lemma FirstRates(moves: seq<Move>, s: Machine, k: nat, rid: RideId) returns (moves': seq<Move>, s': Machine)
    requires Reached(moves, s) && TwoFinished(s.w) && rid <= 1 && k !in s.calls
    requires !Rated(s.db.ratings, rid, 0) && !Rated(s.db.ratings, rid, 1)
    ensures Reached(moves', s') && s'.w == s.w && s'.db == s.db.(ratings := s.db.ratings + [Rating(rid, 0, 1, FIVE, false)])
    ensures s'.calls.Keys == s.calls.Keys + {k} && forall j :: j in s.calls ==> s'.calls[j] == s.calls[j]
  {
    BlindReveal.RatedGrows(s.db.ratings, Rating(rid, 0, 1, FIVE, false), rid, 1);
    moves', s' := Extend(moves, s, Submit(k, 0, rid, FIVE));
    assert s'.calls[k] == RatingCall(0, 1, rid, FIVE, LookExisting);
    moves', s' := Extend(moves', s', AdvanceCall(k));
    moves', s' := Extend(moves', s', AdvanceCall(k));
    moves', s' := Extend(moves', s', AdvanceCall(k));
  }

  /** User 1 rates second, up to the reveal. */
  lemma SecondInserts(moves: seq<Move>, s: Machine, k: nat, rid: RideId) returns (moves': seq<Move>, s': Machine)
    requires Reached(moves, s) && TwoFinished(s.w) && rid <= 1 && k !in s.calls
    requires Rated(s.db.ratings, rid, 0) && !Rated(s.db.ratings, rid, 1)
    ensures Reached(moves', s') && s'.w == s.w && s'.db == s.db.(ratings := s.db.ratings + [Rating(rid, 1, 0, FIVE, false)])
    ensures s'.calls == s.calls[k := RatingCall(1, 0, rid, FIVE, RevealBoth)]
  {
    BlindReveal.RatedGrows(s.db.ratings, Rating(rid, 1, 0, FIVE, false), rid, 0);
    moves', s' := Extend(moves, s, Submit(k, 1, rid, FIVE));
    assert s'.calls[k] == RatingCall(1, 0, rid, FIVE, LookExisting);
    moves', s' := Extend(moves', s', AdvanceCall(k));
    moves', s' := Extend(moves', s', AdvanceCall(k));
    moves', s' := Extend(moves', s', AdvanceCall(k));
  }

  /** Then up to the aggregate: both ratings are revealed, and the call is about to write what it has
      read of user 0. */
  lemma SecondRates(moves: seq<Move>, s: Machine, k: nat, rid: RideId) returns (moves': seq<Move>, s': Machine)
    requires Reached(moves, s) && TwoFinished(s.w) && rid <= 1 && k !in s.calls
    requires Rated(s.db.ratings, rid, 0) && !Rated(s.db.ratings, rid, 1)
    ensures Reached(moves', s') && s'.w == s.w
    ensures s'.db == s.db.(ratings := Reveal(s.db.ratings + [Rating(rid, 1, 0, FIVE, false)], rid))
    ensures
      var scores := RevealedScores(s'.db.ratings, 0);
      s'.calls == s.calls[k := RatingCall(1, 0, rid, FIVE, WriteRatee(Mean(scores), |scores|))]
  {
    moves', s' := SecondInserts(moves, s, k, rid);
    moves', s' := Extend(moves', s', AdvanceCall(k));
    moves', s' := Extend(moves', s', AdvanceCall(k));
  }

  /** Ride 0 is rated by both, and the second call stops short of its first write. */
  lemma PausedRun() returns (moves: seq<Move>, s: Machine)
    ensures Reached(moves, s) && TwoFinished(s.w) && 0 in s.db.stats
    ensures !Rated(s.db.ratings, 1, 0) && !Rated(s.db.ratings, 1, 1)
    ensures s.calls.Keys == {0, 1}
    ensures
      var scores := RevealedScores(s.db.ratings, 0);
      s.calls[1] == RatingCall(1, 0, 0, FIVE, WriteRatee(Mean(scores), |scores|))
  {
    moves, s := CreditedRun();
    moves, s := FirstRates(moves, s, 0, 0);
    var mine := s.db.ratings + [Rating(0, 1, 0, FIVE, false)];
    assert s.db.ratings[0].rideId == 0;
    moves, s := SecondRates(moves, s, 1, 0);
    BlindReveal.RatedRevealed(mine, 0, 1, 0);
    BlindReveal.RatedRevealed(mine, 0, 1, 1);
  }

  /** Ride 1 is rated by both too: its second call has read one rating more of user 0. */
  lemma BothPending() returns (moves: seq<Move>, s: Machine)
    ensures Reached(moves, s) && 0 in s.db.stats && 1 in s.calls && 3 in s.calls
    ensures s.calls[1].ratee == 0 && s.calls[1].pc.WriteRatee?
    ensures s.calls[1].pc.count < |RevealedScores(s.db.ratings, 0)|
    ensures
      var scores := RevealedScores(s.db.ratings, 0);
      s.calls[3] == RatingCall(1, 0, 1, FIVE, WriteRatee(Mean(scores), |scores|))
  {
    moves, s := PausedRun();
    var before, older := s.db.ratings, s.calls[1];
    moves, s := FirstRates(moves, s, 2, 1);
    UnrevealedAppend(before, Rating(1, 0, 1, FIVE, false), 0);
    BlindReveal.RatedGrows(before, Rating(1, 0, 1, FIVE, false), 1, 0);
    BlindReveal.RatedGrows(before, Rating(1, 0, 1, FIVE, false), 1, 1);
    var one := s.db.ratings;
    moves, s := SecondRates(moves, s, 3, 1);
    SecondIsNews(one);
    assert s.calls[1] == older;
  }

  lemma SecondIsNews(ratings: seq<Rating>)
    ensures var mine := Rating(1, 1, 0, FIVE, false);
            |RevealedScores(Reveal(ratings + [mine], 1), 0)| > |RevealedScores(ratings, 0)|
  {
    var mine := Rating(1, 1, 0, FIVE, false);
    UnrevealedAppend(ratings, mine, 0);
    assert (ratings + [mine])[|ratings|] == mine && Aggregates.Hidden(ratings + [mine], 1, 0);
    Aggregates.RevealNews(ratings + [mine], 1, 0);
  }

  /** That call gets on to write: user 0's row is right. The call still pending holds the smaller
      count it read before. */
  lemma OvertakenRun() returns (moves: seq<Move>, s: Machine)
    ensures Reached(moves, s) && 0 in s.db.stats && Agrees(s.db.stats[0], s.db.ratings, 0)
    ensures 1 in s.calls && s.calls[1].ratee == 0 && s.calls[1].pc.WriteRatee?
    ensures s.calls[1].pc.count < |RevealedScores(s.db.ratings, 0)|
  {
    moves, s := BothPending();
    moves, s := Extend(moves, s, AdvanceCall(3));
  }

  /** Then the older aggregate is written over the newer one. */
  lemma OlderAggregateWins()
    ensures exists moves, k ::
      var s, s' := Interleave(IDLE_SYSTEM, moves), Interleave(IDLE_SYSTEM, moves + [AdvanceCall(k)]);
      && 0 in s.db.stats && Agrees(s.db.stats[0], s.db.ratings, 0)
      && 0 in s'.db.stats && s'.db.ratings == s.db.ratings && !Agrees(s'.db.stats[0], s'.db.ratings, 0)
      && s'.db.stats[0].totalRatings < s.db.stats[0].totalRatings
  {
    var moves, s := OvertakenRun();
    InterleaveSnoc(IDLE_SYSTEM, moves, AdvanceCall(1));
    var s' := Interleave(IDLE_SYSTEM, moves + [AdvanceCall(1)]);
    assert s' == Next(s, AdvanceCall(1));
  }
}
