/** The rating columns and the trust score of the stats table, with atomic calls. */
module Reputation {
  import opened Domain
  import opened Lifecycle
  import opened Platform
  import opened Records
  import opened Ledger
  import opened Sums

  // ---- Averages and scores stay in range, in every run ----

  lemma {:induction false} MeanInRange(scores: seq<Score>)
    requires scores != []
    ensures |scores| <= Total(scores) <= 5 * |scores|
    ensures 1.0 <= Mean(scores) <= 5.0
  {
    if |scores| > 1 {
      MeanInRange(scores[..|scores| - 1]);
    } else {
      assert Total(scores[..0]) == 0;
    }
    RatioInRange(Total(scores), |scores|);
  }

  lemma ScalesUp(a: real, b: real, n: real)
    requires a < b && n > 0.0
    ensures a * n < b * n
  {
  }

  lemma RatioInRange(t: nat, n: nat)
    requires 0 < n <= t <= 5 * n
    ensures 1.0 <= t as real / n as real <= 5.0
  {
    var q := t as real / n as real;
    assert q * n as real == t as real;
    if q < 1.0 {
      ScalesUp(q, 1.0, n as real);
    }
    if q > 5.0 {
      ScalesUp(5.0, q, n as real);
    }
  }

  predicate RatingColumnsOk(row: Stats) {
    && row.ridesCancelled == 0
    && (row.totalRatings > 0 ==> 1.0 <= row.averageRating <= 5.0)
  }

  predicate RowInRange(row: Stats) {
    RatingColumnsOk(row) && row.ridesCompleted > 0 && 31 <= row.trustScore <= 90
  }

  ghost predicate AllInRange(stats: map<UserId, Stats>) {
    forall u :: u in stats ==> RowInRange(stats[u])
  }

  /** With no cancellations on record the clamps never fire: a score is in [30, 90], and it is
      the formula to the nearest whole number, halves going up. */
  lemma TrustInRange(row: Stats)
    requires RatingColumnsOk(row)
    ensures 30.0 <= RawTrust(row) <= 90.0
    ensures Clamp(RawTrust(row)) == RawTrust(row)
    ensures 30 <= TrustScore(row) <= 90
    ensures row.ridesCompleted > 0 ==> 31 <= TrustScore(row)
    ensures RawTrust(row) - 0.5 < TrustScore(row) as real <= RawTrust(row) + 0.5
  {
  }

  /** The formula rewards: more rides, a better average and fewer cancellations never lower the
      score, between users who have both been rated or both not. */
  lemma TrustMonotone(worse: Stats, better: Stats)
    requires worse.ridesCompleted <= better.ridesCompleted
    requires worse.ridesCancelled >= better.ridesCancelled
    requires worse.totalRatings > 0 <==> better.totalRatings > 0
    requires worse.totalRatings > 0 ==> worse.averageRating <= better.averageRating
    ensures TrustScore(worse) <= TrustScore(better)
  {
  }

  /** What each event is worth: a ride one point up to the twentieth, a cancellation minus two up to
      the tenth, a star of the average ten from three up. With an average of scores the total stays
      within 10 and 90 whatever the counts, so the clamps at 0 and 100 never fire. */
  lemma TrustWeights(row: Stats, average: real)
    ensures RawTrust(row.(ridesCompleted := row.ridesCompleted + 1))
         == RawTrust(row) + (if row.ridesCompleted < 20 then 1.0 else 0.0)
    ensures RawTrust(row.(ridesCancelled := row.ridesCancelled + 1))
         == RawTrust(row) - (if row.ridesCancelled < 10 then 2.0 else 0.0)
    ensures row.totalRatings > 0 ==>
              RawTrust(row.(averageRating := average)) == RawTrust(row) + 10.0 * (average - row.averageRating)
    ensures row.totalRatings > 0 && row.averageRating == 3.0 ==> RawTrust(row) == RawTrust(row.(totalRatings := 0))
    ensures (row.totalRatings > 0 ==> 1.0 <= row.averageRating <= 5.0) ==>
              10.0 <= RawTrust(row) <= 90.0 && Clamp(RawTrust(row)) == RawTrust(row)
    ensures RawTrust(NEW_STATS) == 50.0
  {
  }

  lemma RecalculatedInRange(row: Stats, ratings: seq<Rating>, user: UserId)
    requires RowInRange(row)
    ensures RowInRange(Recalculated(row, ratings, user))
  {
    if RevealedScores(ratings, user) != [] {
      MeanInRange(RevealedScores(ratings, user));
    }
  }

  lemma SubmitInRange(s: State, rater: UserId, rid: RideId, score: Score)
    requires AllInRange(s.stats)
    ensures AllInRange(SubmitRating(s, rater, rid, score).s.stats)
  {
    var s' := SubmitRating(s, rater, rid, score).s;
    if s'.stats != s.stats {
      var ratee := Counterpart(s.w.rides[rid], rater);
      RecalculatedInRange(s.stats[ratee], s'.ratings, ratee);
      var mid := s.stats[ratee := Recalculated(s.stats[ratee], s'.ratings, ratee)];
      if rater in mid {
        RecalculatedInRange(mid[rater], s'.ratings, rater);
      }
    }
  }

  lemma EventInRange(s: State, e: Event)
    requires AllInRange(s.stats)
    ensures AllInRange(Apply(s, e).stats)
  {
    match e
    case RideCall(_) =>
    case Deliver(_, _) =>
    case Rate(rater, rid, score) => SubmitInRange(s, rater, rid, score);
    case Recalculate(user) =>
      if user in s.stats {
        TrustInRange(s.stats[user]);
      }
    case Say(_, _, _, _) =>
  }

  lemma {:induction false} PlayInRange(s: State, events: seq<Event>)
    requires AllInRange(s.stats)
    ensures AllInRange(Play(s, events).stats)
    decreases |events|
  {
    if events == [] {
    } else {
      EventInRange(s, events[0]);
      PlayInRange(Apply(s, events[0]), events[1..]);
    }
  }

  /** In every reachable state each average is a mean of scores and each trust score is in
      [31, 90], whatever order jobs and ratings came in: rows exist only for users who have
      completed a ride, and nothing counts cancellations. */
  lemma ReachableScores(events: seq<Event>, user: UserId)
    requires user in Play(START, events).stats
    ensures var row := Play(START, events).stats[user];
            && row.ridesCancelled == 0
            && (row.totalRatings > 0 ==> 1.0 <= row.averageRating <= 5.0)
            && 31 <= row.trustScore <= 90
  {
    PlayInRange(START, events);
  }

  // ---- The rating columns agree with the ratings table ----

  predicate Agrees(row: Stats, ratings: seq<Rating>, user: UserId) {
    row.totalRatings == |RevealedScores(ratings, user)| && row.averageRating == Mean(RevealedScores(ratings, user))
  }

  /** Every row shows the count and mean of the user's revealed ratings; a user without a row
      has none. A row created later starts from zero, so the second half is what keeps the first. */
  ghost predicate StatsAgree(stats: map<UserId, Stats>, ratings: seq<Rating>) {
    forall u: UserId :: Agrees(StatsOf(stats, u), ratings, u)
  }

  /** The user's revealed ratings, counted and added up over the table. */
  function RatingCount(ratings: seq<Rating>, user: UserId): nat {
    Sum(ratings, (r: Rating) => if r.rateeId == user && r.isRevealed then 1 else 0)
  }

  function RatingSum(ratings: seq<Rating>, user: UserId): nat {
    Sum(ratings, (r: Rating) => if r.rateeId == user && r.isRevealed then r.score else 0)
  }

  lemma {:induction false} ScoresAreSums(ratings: seq<Rating>, user: UserId)
    ensures |RevealedScores(ratings, user)| == RatingCount(ratings, user)
    ensures Total(RevealedScores(ratings, user)) == RatingSum(ratings, user)
  {
    if ratings == [] {
    } else {
      var front, last := ratings[..|ratings| - 1], ratings[|ratings| - 1];
      ScoresAreSums(front, user);
      var scores := RevealedScores(front, user);
      assert (scores + [last.score])[..|scores|] == scores;
    }
  }

  /** The average times the count is the sum, and 0 if there is nothing to average. */
  predicate IsMean(average: real, count: nat, sum: nat) {
    average * count as real == sum as real && (count == 0 ==> average == 0.0)
  }

  lemma {:induction false} MeanTimes(scores: seq<Score>)
    ensures IsMean(Mean(scores), |scores|, Total(scores))
  {
    if scores == [] {
      assert Total(scores) == 0;
    } else {
      assert Mean(scores) == Total(scores) as real / |scores| as real;
    }
  }

  /** The columns a recalculation writes, over the ratings table. */
  lemma {:induction false} ColumnsAreSums(ratings: seq<Rating>, user: UserId)
    ensures |RevealedScores(ratings, user)| == RatingCount(ratings, user)
    ensures IsMean(Mean(RevealedScores(ratings, user)), RatingCount(ratings, user), RatingSum(ratings, user))
  {
    ScoresAreSums(ratings, user);
    MeanTimes(RevealedScores(ratings, user));
  }

  /** The rating columns are the count and the mean over the ratings table, 0 if there is nothing. */
  predicate ShowsTable(row: Stats, ratings: seq<Rating>, user: UserId) {
    && row.totalRatings == RatingCount(ratings, user)
    && IsMean(row.averageRating, row.totalRatings, RatingSum(ratings, user))
  }

  /** No other column has changed. */
  predicate OnlyRated(row: Stats, row': Stats) {
    row' == row.(averageRating := row'.averageRating, totalRatings := row'.totalRatings)
  }

  lemma {:induction false} RecalculatedShows(row: Stats, ratings: seq<Rating>, user: UserId)
    ensures ShowsTable(Recalculated(row, ratings, user), ratings, user)
    ensures OnlyRated(row, Recalculated(row, ratings, user))
  {
    ColumnsAreSums(ratings, user);
  }

  lemma {:induction false} AgreesShows(row: Stats, ratings: seq<Rating>, user: UserId)
    requires Agrees(row, ratings, user)
    ensures ShowsTable(row, ratings, user)
  {
    ColumnsAreSums(ratings, user);
  }

  lemma UnrevealedAppend(ratings: seq<Rating>, r: Rating, user: UserId)
    requires !r.isRevealed
    ensures RevealedScores(ratings + [r], user) == RevealedScores(ratings, user)
  {
  }

  lemma {:induction false} RevealOthers(ratings: seq<Rating>, rid: RideId, user: UserId)
    requires forall i :: 0 <= i < |ratings| && ratings[i].rideId == rid ==> ratings[i].rateeId != user
    ensures RevealedScores(Reveal(ratings, rid), user) == RevealedScores(ratings, user)
  {
    if ratings == [] {
    } else {
      var front := ratings[..|ratings| - 1];
      assert Reveal(ratings, rid)[..|ratings| - 1] == Reveal(front, rid);
      RevealOthers(front, rid, user);
    }
  }

  lemma {:induction false} RevealCounts(ratings: seq<Rating>, rid: RideId, user: UserId)
    ensures |RevealedScores(Reveal(ratings, rid), user)| >= |RevealedScores(ratings, user)|
    ensures (exists i :: 0 <= i < |ratings| && ratings[i].rideId == rid && ratings[i].rateeId == user)
              ==> |RevealedScores(Reveal(ratings, rid), user)| > 0
  {
    if ratings == [] {
    } else {
      var front := ratings[..|ratings| - 1];
      assert Reveal(ratings, rid)[..|ratings| - 1] == Reveal(front, rid);
      RevealCounts(front, rid, user);
      if i :| 0 <= i < |ratings| && ratings[i].rideId == rid && ratings[i].rateeId == user {
        if i < |ratings| - 1 {
          assert front[i].rideId == rid && front[i].rateeId == user;
        }
      }
    }
  }

  /** Does this call get as far as revealing the ride's ratings? */
  predicate Reveals(s: State, rater: UserId, rid: RideId) {
    && RatingRefusal(s.w.rides, rater, rid).None?
    && !Rated(s.ratings, rid, rater)
    && Rated(s.ratings, rid, Counterpart(s.w.rides[rid], rater))
  }

  /** The table as the call's reveal leaves it. */
  function RevealedTable(s: State, rater: UserId, rid: RideId, score: Score): seq<Rating>
    requires RatingRefusal(s.w.rides, rater, rid).None?
  {
    Reveal(s.ratings + [Rating(rid, rater, Counterpart(s.w.rides[rid], rater), score, false)], rid)
  }

  /** The reveal is news to the two participants only, and real news to both of them. */
  lemma RevealReach(s: State, rater: UserId, rid: RideId, score: Score, user: UserId)
    requires RidesOk(s.w.rides) && RatingsOk(s.w.rides, s.ratings) && Reveals(s, rater, rid)
    ensures var ratee := Counterpart(s.w.rides[rid], rater);
            var table := RevealedTable(s, rater, rid, score);
            && (user != rater && user != ratee ==> RevealedScores(table, user) == RevealedScores(s.ratings, user))
            && (user == rater || user == ratee ==> |RevealedScores(table, user)| > 0)
  {
    var ratee := Counterpart(s.w.rides[rid], rater);
    var mine := Rating(rid, rater, ratee, score, false);
    var created := s.ratings + [mine];
    assert RideOk(s.w.rides[rid]);
    UnrevealedAppend(s.ratings, mine, user);
    if user != rater && user != ratee {
      forall i | 0 <= i < |created| && created[i].rideId == rid ensures created[i].rateeId != user {
        if i < |s.ratings| {
          assert RatingOk(s.w.rides, s.ratings[i]);
        }
      }
      RevealOthers(created, rid, user);
    } else {
      assert exists i :: 0 <= i < |created| && created[i].rideId == rid && created[i].rateeId == user by {
        if user == ratee {
          assert created[|s.ratings|].rateeId == user;
        } else {
          var i :| 0 <= i < |s.ratings| && s.ratings[i].rideId == rid && s.ratings[i].raterId == ratee;
          assert RatingOk(s.w.rides, s.ratings[i]);
          assert created[i].rateeId == user;
        }
      }
      RevealCounts(created, rid, user);
    }
  }

  lemma QuietSubmitAgrees(s: State, rater: UserId, rid: RideId, score: Score)
    requires RidesOk(s.w.rides) && StatsAgree(s.stats, s.ratings) && !Reveals(s, rater, rid)
    ensures var s' := SubmitRating(s, rater, rid, score).s; StatsAgree(s'.stats, s'.ratings)
  {
  }

  /** What the revealing call writes, by user. */
  lemma RevealingSubmitStats(s: State, rater: UserId, rid: RideId, score: Score, user: UserId)
    requires RidesOk(s.w.rides) && Reveals(s, rater, rid)
    ensures var s' := SubmitRating(s, rater, rid, score).s;
            var ratee := Counterpart(s.w.rides[rid], rater);
            && s'.ratings == RevealedTable(s, rater, rid, score)
            && s'.stats.Keys == s.stats.Keys
            && (user in s.stats ==>
                  s'.stats[user] ==
                    if ratee in s.stats && (user == ratee || user == rater)
                    then Recalculated(s.stats[user], s'.ratings, user) else s.stats[user])
  {
  }

  lemma RevealingSubmitAgrees(s: State, rater: UserId, rid: RideId, score: Score)
    requires RidesOk(s.w.rides) && RatingsOk(s.w.rides, s.ratings) && StatsAgree(s.stats, s.ratings)
    requires Reveals(s, rater, rid)
    ensures var s' := SubmitRating(s, rater, rid, score).s;
            StatsAgree(s'.stats, s'.ratings)
            <==> rater in s.stats && Counterpart(s.w.rides[rid], rater) in s.stats
  {
    var s' := SubmitRating(s, rater, rid, score).s;
    var ratee := Counterpart(s.w.rides[rid], rater);
    if rater in s.stats && ratee in s.stats {
      forall u: UserId ensures Agrees(StatsOf(s'.stats, u), s'.ratings, u) {
        RevealingSubmitStats(s, rater, rid, score, u);
        RevealReach(s, rater, rid, score, u);
        assert Agrees(StatsOf(s.stats, u), s.ratings, u);
      }
    } else {
      var missing := if ratee in s.stats then rater else ratee;
      RevealingSubmitStats(s, rater, rid, score, missing);
      RevealReach(s, rater, rid, score, missing);
      assert StatsOf(s'.stats, missing) == NEW_STATS;
      assert !Agrees(StatsOf(s'.stats, missing), s'.ratings, missing);
    }
  }

  /** A rating keeps the stats in agreement exactly when it reveals nothing or both
      participants already have a stats row. */
  lemma SubmitAgreesIff(s: State, rater: UserId, rid: RideId, score: Score)
    requires RidesOk(s.w.rides) && RatingsOk(s.w.rides, s.ratings) && StatsAgree(s.stats, s.ratings)
    ensures var s' := SubmitRating(s, rater, rid, score).s;
            StatsAgree(s'.stats, s'.ratings)
            <==> (Reveals(s, rater, rid) ==> rater in s.stats && Counterpart(s.w.rides[rid], rater) in s.stats)
  {
    if Reveals(s, rater, rid) {
      RevealingSubmitAgrees(s, rater, rid, score);
    } else {
      QuietSubmitAgrees(s, rater, rid, score);
    }
  }

  lemma DeliveryAgrees(s: State, rid: RideId, now: Time)
    requires StatsAgree(s.stats, s.ratings)
    ensures var s' := ProcessCompletion(s, rid, now); StatsAgree(s'.stats, s'.ratings)
  {
    var s' := ProcessCompletion(s, rid, now);
    forall u: UserId ensures Agrees(StatsOf(s'.stats, u), s'.ratings, u) {
      assert Agrees(StatsOf(s.stats, u), s.ratings, u);
    }
  }

  lemma RecalculateAgrees(s: State, user: UserId)
    requires StatsAgree(s.stats, s.ratings)
    ensures var s' := RecalculateTrust(s, user); StatsAgree(s'.stats, s'.ratings)
  {
    var s' := RecalculateTrust(s, user);
    forall u: UserId ensures Agrees(StatsOf(s'.stats, u), s'.ratings, u) {
      assert Agrees(StatsOf(s.stats, u), s.ratings, u);
    }
  }

  /** The completion job of a ride runs before the ride is rated. */
  predicate JobFirst(s: State, e: Event) {
    e.Rate? ==> e.rid in s.delivered
  }

  predicate JobsFirst(s: State, events: seq<Event>)
    decreases |events|
  {
    events == [] || (JobFirst(s, events[0]) && JobsFirst(Apply(s, events[0]), events[1..]))
  }

  /** After the ride's job both participants have stats rows, which is all a rating needs. */
  lemma RateAgrees(s: State, rater: UserId, rid: RideId, score: Score)
    requires RidesOk(s.w.rides) && RatingsOk(s.w.rides, s.ratings) && StatsAgree(s.stats, s.ratings)
    requires DeliveredOk(s.w.rides, s.stats, s.delivered) && rid in s.delivered
    ensures var s' := SubmitRating(s, rater, rid, score).s; StatsAgree(s'.stats, s'.ratings)
  {
    SubmitAgreesIff(s, rater, rid, score);
  }

  lemma EventAgrees(s: State, e: Event)
    requires Inv(s.w) && RecordsOk(s) && LedgerOk(s) && StatsAgree(s.stats, s.ratings) && JobFirst(s, e)
    ensures StatsAgree(Apply(s, e).stats, Apply(s, e).ratings)
  {
    match e
    case RideCall(_) =>
    case Deliver(rid, now) => DeliveryAgrees(s, rid, now);
    case Rate(rater, rid, score) => RateAgrees(s, rater, rid, score);
    case Recalculate(user) => RecalculateAgrees(s, user);
    case Say(_, _, _, _) =>
  }

  lemma {:induction false} PlayAgrees(s: State, events: seq<Event>)
    requires Inv(s.w) && RecordsOk(s) && LedgerOk(s) && StatsAgree(s.stats, s.ratings) && JobsFirst(s, events)
    ensures StatsAgree(Play(s, events).stats, Play(s, events).ratings)
    decreases |events|
  {
    if events == [] {
    } else {
      EventAgrees(s, events[0]);
      EventKeepsWorld(s, events[0]);
      EventKeepsRecords(s, events[0]);
      EventKeepsLedger(s, events[0]);
      PlayAgrees(Apply(s, events[0]), events[1..]);
    }
  }

  /** If completion jobs run before ratings, every stats row shows the count and the mean of the
      user's revealed ratings, and 0 when there are none. */
  lemma StatsFollowRatings(events: seq<Event>, user: UserId)
    requires JobsFirst(START, events) && user in Play(START, events).stats
    ensures var s := Play(START, events);
            ShowsTable(s.stats[user], s.ratings, user) && Agrees(s.stats[user], s.ratings, user)
  {
    ReachableLedger([]);
    assert Play(START, []) == START;
    assert StatsAgree(START.stats, START.ratings);
    PlayAgrees(START, events);
    assert Agrees(StatsOf(Play(START, events).stats, user), Play(START, events).ratings, user);
    AgreesShows(Play(START, events).stats[user], Play(START, events).ratings, user);
  }

  // ---- A job that comes after the ratings ----

  /** A user rated before their first completion job has run: the job's new row starts with no
      ratings, and so disagrees with the ratings table from its creation on. */
  lemma LateJobDisagrees(s: State, rid: RideId, now: Time, user: UserId)
    requires Billable(s.w.rides, rid) && s.w.rides[rid].riderId != s.w.rides[rid].passengerId
    requires user == s.w.rides[rid].riderId.value || user == s.w.rides[rid].passengerId.value
    requires user !in s.stats && RevealedScores(s.ratings, user) != []
    ensures var s' := ProcessCompletion(s, rid, now);
            user in s'.stats && !Agrees(s'.stats[user], s'.ratings, user)
  {
  }

  // ---- The score from the tables ----

  /** If completion jobs run before ratings and none twice, the score a recalculation stores is a
      function of the payments and ratings tables alone: fifty, a point for each ride driven or
      paid for up to twenty, and ten for each star of the mean above three. */
  lemma {:induction false} ScoreFromRecords(events: seq<Event>, user: UserId)
    requires JobsFirst(START, events) && user in Play(START, events).stats
    requires forall rid: RideId :: multiset(Play(START, events).delivered)[rid] <= 1
    ensures
      var s := Play(START, events);
      var trips := CountOfAll(s.w.rides, s.payments, user) + Sum(s.payments, (p: Payment) => if p.payerId == user then 1 else 0);
      var count, sum := RatingCount(s.ratings, user), RatingSum(s.ratings, user);
      var exact := 50.0 + (if trips < 20 then trips else 20) as real
                   + (if count == 0 then 0.0 else 10.0 * (sum as real / count as real - 3.0));
      exact - 0.5 < TrustScore(s.stats[user]) as real <= exact + 0.5
  {
    var s := Play(START, events);
    ScoresAreSums(s.ratings, user);
    DrivenIsSum(s.w.rides, s.payments, user);
    PayerIsSum(s.payments, user);
    ReachableScores(events, user);
    StatsFollowRatings(events, user);
    TripsAgree(events, user);
    RawFromColumns(s.stats[user], RevealedScores(s.ratings, user));
    TrustInRange(s.stats[user]);
  }

  /** The formula with no cancellations, over the scores a row stands for. */
  lemma {:induction false} RawFromColumns(row: Stats, scores: seq<Score>)
    requires row.ridesCancelled == 0 && row.totalRatings == |scores| && row.averageRating == Mean(scores)
    ensures RawTrust(row)
         == 50.0 + (if row.ridesCompleted < 20 then row.ridesCompleted else 20) as real
            + (if |scores| == 0 then 0.0 else 10.0 * (Total(scores) as real / |scores| as real - 3.0))
  {
  }
}
