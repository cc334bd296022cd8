/** The tables behind a matched ride (messages, ratings, payments, stats) and the calls and
    jobs that write them, as functions on one state. Each call or job is one atomic step. */
module Platform {
  import opened Domain
  import opened Rides

  type Score = x: nat | 1 <= x <= 5 witness 1

  datatype Message = Message(rideId: RideId, senderId: UserId, content: string, createdAt: Time)

  datatype Rating = Rating(rideId: RideId, raterId: UserId, rateeId: UserId, score: Score, isRevealed: bool)

  datatype PaymentStatus = Pending | Completed | Failed | Refunded

  datatype Payment = Payment(rideId: RideId, payerId: UserId, amount: Cents, status: PaymentStatus, createdAt: Time)

  datatype Stats = Stats(
    ridesCompleted: nat,
    ridesCancelled: nat,
    totalRatings: nat,
    averageRating: real,
    trustScore: int,
    totalEarnings: Cents)

  // The column defaults of the user_stats table.
  const NEW_STATS := Stats(0, 0, 0, 0.0, 50, 0)

  /** `trustJobs` lists every recalculate job added. `delivered` is a history of the completion
      jobs that got past the worker's guard, one entry a delivery; no call reads it. */
  datatype State = State(
    w: World,
    messages: seq<Message>,
    ratings: seq<Rating>,
    payments: seq<Payment>,
    stats: map<UserId, Stats>,
    trustJobs: seq<UserId>,
    delivered: seq<RideId>)

  const START := State(EMPTY, [], [], [], map[], [], [])

  datatype Result = Result(s: State, reply: Reply)

  // ---- src/jobs/processors/ride-completion.processor.ts ----

  predicate Billable(rides: map<RideId, Ride>, rid: RideId) {
    && rid in rides && rides[rid].status.Completed?
    && rides[rid].riderId.Some? && rides[rid].passengerId.Some?
  }

  predicate Paid(payments: seq<Payment>, rid: RideId) {
    exists i :: 0 <= i < |payments| && payments[i].rideId == rid
  }

  function StatsOf(stats: map<UserId, Stats>, user: UserId): Stats {
    if user in stats then stats[user] else NEW_STATS
  }

  /** The two upserts touch different users, so their order does not matter. */
  function Credit(stats: map<UserId, Stats>, user: UserId, earned: Cents): map<UserId, Stats> {
    var row := StatsOf(stats, user);
    stats[user := row.(ridesCompleted := row.ridesCompleted + 1, totalEarnings := row.totalEarnings + earned)]
  }

  function ProcessCompletion(s: State, rid: RideId, now: Time): State {
    if !Billable(s.w.rides, rid) then s
    else
      var ride := s.w.rides[rid];
      var rider, passenger := ride.riderId.value, ride.passengerId.value;
      s.(payments := if Paid(s.payments, rid) then s.payments
                     else s.payments + [Payment(rid, passenger, ride.fare, PaymentStatus.Completed, now)],
         stats := Credit(Credit(s.stats, rider, ride.fare), passenger, 0),
         trustJobs := s.trustJobs + [rider, passenger],
         delivered := s.delivered + [rid])
  }

  // ---- src/modules/ratings ----

  predicate Rated(ratings: seq<Rating>, rid: RideId, rater: UserId) {
    exists i :: 0 <= i < |ratings| && ratings[i].rideId == rid && ratings[i].raterId == rater
  }

  /** Why `submitRating` refuses before it looks at the ratings table, if it does. */
  function RatingRefusal(rides: map<RideId, Ride>, rater: UserId, rid: RideId): Option<Error> {
    if rid !in rides then Some(NotFound)
    else if rides[rid].status != RideStatus.Completed then Some(BadRequest)
    else if rides[rid].riderId.None? || rides[rid].passengerId.None? then Some(BadRequest)
    else if rides[rid].riderId != Some(rater) && rides[rid].passengerId != Some(rater) then Some(Forbidden)
    else None
  }

  function Counterpart(ride: Ride, rater: UserId): UserId
    requires ride.riderId.Some? && ride.passengerId.Some?
  {
    if ride.riderId == Some(rater) then ride.passengerId.value else ride.riderId.value
  }

  function Reveal(ratings: seq<Rating>, rid: RideId): (revealed: seq<Rating>)
    ensures |revealed| == |ratings|
    ensures forall i :: 0 <= i < |ratings| ==>
              revealed[i] == if ratings[i].rideId == rid then ratings[i].(isRevealed := true) else ratings[i]
  {
    seq(|ratings|, i requires 0 <= i < |ratings| =>
      if ratings[i].rideId == rid then ratings[i].(isRevealed := true) else ratings[i])
  }

  /** The scores of the revealed ratings a user received, oldest first. */
  function RevealedScores(ratings: seq<Rating>, user: UserId): seq<Score> {
    if ratings == [] then []
    else
      var front, last := RevealedScores(ratings[..|ratings| - 1], user), ratings[|ratings| - 1];
      if last.rateeId == user && last.isRevealed then front + [last.score] else front
  }

  function Total(scores: seq<Score>): nat {
    if scores == [] then 0 else Total(scores[..|scores| - 1]) + scores[|scores| - 1]
  }

  /** The aggregate's average, or 0 when there is nothing to average. */
  function Mean(scores: seq<Score>): real {
    if scores == [] then 0.0 else Total(scores) as real / |scores| as real
  }

  /** The row `recalculateStats` writes. */
  function Recalculated(row: Stats, ratings: seq<Rating>, user: UserId): Stats {
    row.(averageRating := Mean(RevealedScores(ratings, user)), totalRatings := |RevealedScores(ratings, user)|)
  }

  /** `updateUserStats` is an update, so a user without a stats row makes the call fail after
      the ratings have already been revealed. */
  function SubmitRating(s: State, rater: UserId, rid: RideId, score: Score): Result {
    var refusal := RatingRefusal(s.w.rides, rater, rid);
    if refusal.Some? then Result(s, Reply.Failed(refusal.value))
    else if Rated(s.ratings, rid, rater) then Result(s, Reply.Failed(Duplicate))
    else
      var ratee := Counterpart(s.w.rides[rid], rater);
      var created := s.ratings + [Rating(rid, rater, ratee, score, false)];
      if !Rated(created, rid, ratee) then Result(s.(ratings := created), Done)
      else
        var s1 := s.(ratings := Reveal(created, rid));
        if ratee !in s1.stats then Result(s1, Reply.Failed(RecordMissing))
        else
          var s2 := s1.(stats := s1.stats[ratee := Recalculated(s1.stats[ratee], s1.ratings, ratee)]);
          if rater !in s2.stats then Result(s2, Reply.Failed(RecordMissing))
          else
            Result(s2.(stats := s2.stats[rater := Recalculated(s2.stats[rater], s2.ratings, rater)],
                       trustJobs := s2.trustJobs + [ratee, rater]), Done)
  }

  // ---- src/jobs/processors/trust-score.processor.ts ----

  function Round(x: real): int {
    (x + 0.5).Floor
  }

  function RawTrust(row: Stats): real {
    50.0 + Min(row.ridesCompleted, 20) as real
    + (if row.totalRatings > 0 then (row.averageRating - 3.0) * 10.0 else 0.0)
    - (Min(row.ridesCancelled, 10) * 2) as real
  }

  function Clamp(x: real): real {
    if x < 0.0 then 0.0 else if x > 100.0 then 100.0 else x
  }

  function TrustScore(row: Stats): int {
    Round(Clamp(RawTrust(row)))
  }

  function RecalculateTrust(s: State, user: UserId): State {
    if user in s.stats
    then s.(stats := s.stats[user := s.stats[user].(trustScore := TrustScore(s.stats[user]))])
    else s
  }

  // ---- src/modules/chat ----

  function SendMessage(s: State, sender: UserId, rid: RideId, content: string, now: Time): Result {
    if rid !in s.w.rides then Result(s, Reply.Failed(NotFound))
    else
      var ride := s.w.rides[rid];
      if ride.riderId != Some(sender) && ride.passengerId != Some(sender) then Result(s, Reply.Failed(Forbidden))
      else if !ride.status.InProgress? && !ride.status.Matched? then Result(s, Reply.Failed(Forbidden))
      else Result(s.(messages := s.messages + [Message(rid, sender, content, now)]), Done)
  }

  // ---- src/modules/payments ----

  /** `getRiderEarnings` for one period: the completed payments of the rides the user drove. */
  function EarningsIn(rides: map<RideId, Ride>, payments: seq<Payment>, user: UserId,
                      since: Option<Time>, until: Option<Time>): Cents {
    if payments == [] then 0
    else
      var rest, p := EarningsIn(rides, payments[..|payments| - 1], user, since, until), payments[|payments| - 1];
      if p.rideId in rides && rides[p.rideId].riderId == Some(user) && p.status.Completed?
         && (since.Some? ==> since.value <= p.createdAt) && (until.Some? ==> p.createdAt < until.value)
      then rest + p.amount else rest
  }

  function Earnings(rides: map<RideId, Ride>, payments: seq<Payment>, user: UserId): Cents {
    EarningsIn(rides, payments, user, None, None)
  }

  /** `getRiderEarnings` also counts those payments. */
  function DrivenCount(rides: map<RideId, Ride>, payments: seq<Payment>, user: UserId): nat {
    if payments == [] then 0
    else
      var p := payments[|payments| - 1];
      DrivenCount(rides, payments[..|payments| - 1], user)
      + if p.rideId in rides && rides[p.rideId].riderId == Some(user) && p.status.Completed? then 1 else 0
  }

  /** `countByPayer`. */
  function PayerCount(payments: seq<Payment>, user: UserId): nat {
    if payments == [] then 0
    else
      PayerCount(payments[..|payments| - 1], user) + if payments[|payments| - 1].payerId == user then 1 else 0
  }

  // ---- Runs ----

  datatype Event =
    | RideCall(call: Call)
    | Deliver(rid: RideId, now: Time)
    | Rate(rater: UserId, rid: RideId, score: Score)
    | Recalculate(user: UserId)
    | Say(sender: UserId, rid: RideId, content: string, now: Time)

  function Apply(s: State, e: Event): State {
    match e
    case RideCall(call) => s.(w := After(s.w, call))
    case Deliver(rid, now) => ProcessCompletion(s, rid, now)
    case Rate(rater, rid, score) => SubmitRating(s, rater, rid, score).s
    case Recalculate(user) => RecalculateTrust(s, user)
    case Say(sender, rid, content, now) => SendMessage(s, sender, rid, content, now).s
  }

  function Play(s: State, events: seq<Event>): State
    decreases |events|
  {
    if events == [] then s else Play(Apply(s, events[0]), events[1..])
  }
}
