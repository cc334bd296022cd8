/** The services and workers as they run: objects sharing one database, each call reading rows,
    deciding, and writing columns one after the other. Every method is proved to do what the
    corresponding function of Rides, Platform, Chat or Feed says. */
module Services {
  import opened Domain
  import opened Rides
  import opened Lifecycle
  import opened Platform
  import Records
  import Ledger
  import Reputation
  import opened Pages
  import Chat
  import Feed

  /** What every call keeps: the lifecycle, the records, the books and the range of the scores. */
  ghost predicate Sound(s: State) {
    Inv(s.w) && Records.RecordsOk(s) && Ledger.LedgerOk(s) && Reputation.AllInRange(s.stats)
  }

  lemma EventSound(s: State, e: Event)
    ensures Sound(s) ==> Sound(Apply(s, e))
  {
    if Sound(s) {
      Records.EventKeepsWorld(s, e);
      Records.EventKeepsRecords(s, e);
      Ledger.EventKeepsLedger(s, e);
      Reputation.EventInRange(s, e);
    }
  }

  lemma CallSound(s: State, c: Call, s': State)
    requires s' == s.(w := After(s.w, c))
    ensures Sound(s) ==> Sound(s')
  {
    EventSound(s, RideCall(c));
  }

  lemma RecalculationSound(s: State, user: UserId)
    requires user in s.stats
    ensures Sound(s) ==> Sound(s.(stats := s.stats[user := Recalculated(s.stats[user], s.ratings, user)]))
  {
    if Sound(s) {
      var stats' := s.stats[user := Recalculated(s.stats[user], s.ratings, user)];
      Reputation.RecalculatedInRange(s.stats[user], s.ratings, user);
      Ledger.SameCountersKeepLedger(s.w.rides, s.stats, stats', s.delivered);
    }
  }

  /** The tables and queues the services share. */
  class Database {
    var rides: map<RideId, Ride>
    var requests: map<RequestId, RideRequest>
    var expiryJobs: map<RideId, Time>
    var completionJobs: seq<RideId>
    var messages: seq<Message>
    var ratings: seq<Rating>
    var payments: seq<Payment>
    var stats: map<UserId, Stats>
    var trustJobs: seq<UserId>
    ghost var delivered: seq<RideId>

    ghost function Tables(): World
      reads this
    {
      World(rides, requests, expiryJobs, completionJobs)
    }

    ghost function Contents(): State
      reads this
    {
      State(Tables(), messages, ratings, payments, stats, trustJobs, delivered)
    }

    ghost predicate Valid()
      reads this
    {
      Sound(Contents())
    }

    constructor ()
      ensures Contents() == START && Valid()
    {
      rides, requests, expiryJobs, completionJobs := map[], map[], map[], [];
      messages, ratings, payments, stats, trustJobs := [], [], [], map[], [];
      delivered := [];
      new;
      Ledger.ReachableLedger([]);
    }
  }

  class RidesRepository {
    const db: Database

    constructor (db: Database)
      ensures this.db == db
    {
      this.db := db;
    }

    /** One transaction of three statements. */
    method AcceptRequestTx(rid: RideId, q: RequestId, requester: UserId, fillRider: bool)
      requires rid in db.rides && q in db.requests
      modifies db`rides, db`requests
      ensures db.requests == DeclineOthers(old(db.requests)[q := old(db.requests)[q].(status := Accepted)], rid, q)
      ensures db.rides == old(db.rides)[rid :=
                if fillRider then old(db.rides)[rid].(status := Matched, riderId := Some(requester))
                else old(db.rides)[rid].(status := Matched, passengerId := Some(requester))]
      ensures old(db.Valid()) && old(db.rides)[rid].status.Searching?
              && old(db.requests)[q] == RideRequest(rid, requester, RequestStatus.Pending, old(db.requests)[q].expiresAt)
              && fillRider == old(db.rides)[rid].kind.Request?
              ==> db.Valid()
    {
      ghost var before := db.Contents();
      db.requests := db.requests[q := db.requests[q].(status := Accepted)];
      var row := db.rides[rid].(status := Matched);
      if fillRider {
        row := row.(riderId := Some(requester));
      } else {
        row := row.(passengerId := Some(requester));
      }
      db.rides := db.rides[rid := row];
      db.requests := DeclineOthers(db.requests, rid, q);
      if before.w.rides[rid].status.Searching? && fillRider == before.w.rides[rid].kind.Request?
         && before.w.requests[q] == RideRequest(rid, requester, RequestStatus.Pending, before.w.requests[q].expiresAt) {
        CallSound(before, Respond(before.w.rides[rid].creatorId, rid, q, true), db.Contents());
      }
    }
  }

  class RidesService {
    const db: Database
    const repository: RidesRepository

    constructor (db: Database)
      ensures this.db == db && repository.db == db && fresh(repository)
    {
      this.db := db;
      repository := new RidesRepository(db);
    }

    method CreateRide(caller: UserId, role: Role, dto: CreateRideDto, id: RideId, now: Time) returns (reply: Reply)
      modifies db`rides, db`expiryJobs
      ensures Outcome(db.Tables(), reply) == Rides.CreateRide(old(db.Tables()), caller, role, dto, id, now)
      ensures old(db.Valid()) ==> db.Valid()
    {
      EventSound(db.Contents(), RideCall(Create(caller, role, dto, id, now)));
      if dto.kind.Offer? && role != Rider {
        return Reply.Failed(Forbidden);
      }
      if dto.kind.Request? && role != Passenger {
        return Reply.Failed(Forbidden);
      }
      if dto.scheduledAt <= now {
        return Reply.Failed(BadRequest);
      }
      if id in db.rides {
        return Reply.Failed(UniqueViolation);
      }
      var rider, passenger := None, None;
      if dto.kind.Offer? {
        rider := Some(caller);
      } else {
        passenger := Some(caller);
      }
      db.rides := db.rides[id := Ride(caller, rider, passenger, dto.kind, Searching, dto.origin, dto.dest, dto.fare,
                                      GetOr(dto.seatsAvailable, 1), GetOr(dto.genderPref, Any), dto.scheduledAt,
                                      None, None, None, false, false)];
      var delay := dto.scheduledAt - now;
      db.expiryJobs := db.expiryJobs[id := now + delay];
      return Done;
    }

    method UpdateRide(caller: UserId, rid: RideId, dto: UpdateRideDto, now: Time) returns (reply: Reply)
      modifies db`rides
      ensures Outcome(db.Tables(), reply) == Rides.UpdateRide(old(db.Tables()), caller, rid, dto, now)
      ensures old(db.Valid()) ==> db.Valid()
    {
      EventSound(db.Contents(), RideCall(Update(caller, rid, dto, now)));
      if rid !in db.rides {
        return Reply.Failed(NotFound);
      }
      var ride := db.rides[rid];
      if ride.creatorId != caller {
        return Reply.Failed(Forbidden);
      }
      if ride.status != Searching {
        return Reply.Failed(Conflict);
      }
      if dto.scheduledAt.Some? && dto.scheduledAt.value <= now {
        return Reply.Failed(BadRequest);
      }
      if dto.fare.Some? {
        ride := ride.(fare := dto.fare.value);
      }
      if dto.seatsAvailable.Some? {
        ride := ride.(seatsAvailable := dto.seatsAvailable.value);
      }
      if dto.scheduledAt.Some? {
        ride := ride.(scheduledAt := dto.scheduledAt.value);
      }
      if dto.genderPref.Some? {
        ride := ride.(genderPref := dto.genderPref.value);
      }
      db.rides := db.rides[rid := ride];
      return Done;
    }

    method CancelRide(caller: UserId, rid: RideId, now: Time) returns (reply: Reply)
      modifies db`rides
      ensures Outcome(db.Tables(), reply) == Rides.CancelRide(old(db.Tables()), caller, rid, now)
      ensures old(db.Valid()) ==> db.Valid()
    {
      EventSound(db.Contents(), RideCall(Cancel(caller, rid, now)));
      if rid !in db.rides {
        return Reply.Failed(NotFound);
      }
      var ride := db.rides[rid];
      if ride.creatorId != caller {
        return Reply.Failed(Forbidden);
      }
      if ride.status == InProgress || ride.status == RideStatus.Completed || ride.status == Cancelled {
        return Reply.Failed(Conflict);
      }
      db.rides := db.rides[rid := ride.(status := Cancelled, cancelledAt := Some(now))];
      return Done;
    }

    method RequestRide(caller: UserId, role: Role, rid: RideId, id: RequestId, now: Time) returns (reply: Reply)
      modifies db`requests
      ensures Outcome(db.Tables(), reply) == Rides.RequestRide(old(db.Tables()), caller, role, rid, id, now)
      ensures old(db.Valid()) ==> db.Valid()
    {
      EventSound(db.Contents(), RideCall(Join(caller, role, rid, id, now)));
      if rid !in db.rides {
        return Reply.Failed(NotFound);
      }
      var ride := db.rides[rid];
      if ride.creatorId == caller {
        return Reply.Failed(Forbidden);
      }
      if ride.status != Searching {
        return Reply.Failed(Conflict);
      }
      if ride.kind.Offer? && role != Passenger {
        return Reply.Failed(Forbidden);
      }
      if ride.kind.Request? && role != Rider {
        return Reply.Failed(Forbidden);
      }
      if HasRequest(db.requests, rid, caller) {
        return Reply.Failed(Duplicate);
      }
      if id in db.requests {
        return Reply.Failed(UniqueViolation);
      }
      var expiresAt := now + 15 * 60 * 1000;
      db.requests := db.requests[id := RideRequest(rid, caller, RequestStatus.Pending, expiresAt)];
      return Done;
    }

    method RespondToRequest(caller: UserId, rid: RideId, q: RequestId, accept: bool) returns (reply: Reply)
      requires repository.db == db
      modifies db`rides, db`requests
      ensures Outcome(db.Tables(), reply) == Rides.RespondToRequest(old(db.Tables()), caller, rid, q, accept)
      ensures old(db.Valid()) ==> db.Valid()
    {
      EventSound(db.Contents(), RideCall(Respond(caller, rid, q, accept)));
      if rid !in db.rides {
        return Reply.Failed(NotFound);
      }
      var ride := db.rides[rid];
      if ride.creatorId != caller {
        return Reply.Failed(Forbidden);
      }
      if ride.status != Searching {
        return Reply.Failed(Conflict);
      }
      if q !in db.requests || db.requests[q].rideId != rid {
        return Reply.Failed(NotFound);
      }
      var req := db.requests[q];
      if req.status != RequestStatus.Pending {
        return Reply.Failed(Conflict);
      }
      if accept {
        var fillRider := !ride.kind.Offer?;
        repository.AcceptRequestTx(rid, q, req.passengerId, fillRider);
        return Done;
      }
      db.requests := db.requests[q := req.(status := Declined)];
      return Done;
    }

    method StartRide(caller: UserId, rid: RideId, now: Time) returns (reply: Reply)
      modifies db`rides
      ensures Outcome(db.Tables(), reply) == Rides.StartRide(old(db.Tables()), caller, rid, now)
      ensures old(db.Valid()) ==> db.Valid()
    {
      if rid !in db.rides {
        return Reply.Failed(NotFound);
      }
      var ride := db.rides[rid];
      if ride.riderId != Some(caller) {
        return Reply.Failed(Forbidden);
      }
      if ride.status != Matched {
        return Reply.Failed(Conflict);
      }
      db.rides := db.rides[rid := ride.(status := InProgress, startedAt := Some(now))];
      CallSound(old(db.Contents()), Start(caller, rid, now), db.Contents());
      return Done;
    }

    /** Builds `updateData` column by column, as `confirmRide` does. */
    method ConfirmRide(caller: UserId, rid: RideId, now: Time) returns (reply: Reply)
      modifies db`rides, db`completionJobs
      ensures Outcome(db.Tables(), reply) == Rides.ConfirmRide(old(db.Tables()), caller, rid, now)
      ensures old(db.Valid()) ==> db.Valid()
    {
      if rid !in db.rides {
        return Reply.Failed(NotFound);
      }
      var ride := db.rides[rid];
      var isRider := ride.riderId == Some(caller);
      var isPassenger := ride.passengerId == Some(caller);
      if !isRider && !isPassenger {
        return Reply.Failed(Forbidden);
      }
      if ride.status != InProgress {
        return Reply.Failed(Conflict);
      }
      var row := ride;
      if isRider {
        if ride.riderConfirmed {
          return Reply.Failed(Conflict);
        }
        row := row.(riderConfirmed := true);
      } else {
        if ride.passengerConfirmed {
          return Reply.Failed(Conflict);
        }
        row := row.(passengerConfirmed := true);
      }
      var newRiderConfirmed := isRider || ride.riderConfirmed;
      var newPassengerConfirmed := isPassenger || ride.passengerConfirmed;
      var bothConfirmed := newRiderConfirmed && newPassengerConfirmed;
      if bothConfirmed {
        row := row.(status := RideStatus.Completed, completedAt := Some(now));
      }
      db.rides := db.rides[rid := row];
      if bothConfirmed {
        db.completionJobs := db.completionJobs + [rid];
      }
      assert old(db.completionJobs) + [] == old(db.completionJobs);
      CallSound(old(db.Contents()), Confirm(caller, rid, now), db.Contents());
      return Done;
    }

    /** Builds the `where` record in place and returns one page of the rows it finds. `order` is
        the order in which the database reads the table. */
    method SearchRides(viewer: UserId, role: Role, dto: Feed.SearchDto, order: seq<RideId>)
      returns (page: seq<RideId>, meta: Meta)
      ensures
        var rows := Feed.Matching(order, db.rides, Feed.BuildWhere(viewer, role, dto));
        forall p, l :: Asked(dto.page, dto.limit, p, l) ==> IsPage(page, rows, p, l) && IsMeta(meta, |rows|, p, l)
    {
      var w := GetPaginationParams(dto.page, dto.limit);
      var query := Feed.Where(Searching, if role == Rider then Request else Offer, viewer,
                              None, None, None, None, None, None, None);
      if dto.date.Some? {
        var dayStart := dto.date.value * Feed.DAY;
        query := query.(scheduledAt := Some(Feed.Range(dayStart, dayStart + Feed.DAY - 1)));
      }
      if dto.seats.Some? && dto.seats.value != 0 {
        query := query.(minSeats := dto.seats);
      }
      if dto.genderPref.Some? {
        query := query.(genderPref := dto.genderPref);
      }
      if dto.originLat.Some? && dto.originLng.Some? {
        query := query.(originLat := Some(Feed.Box(dto.originLat.value)), originLng := Some(Feed.Box(dto.originLng.value)));
      }
      if dto.destLat.Some? && dto.destLng.Some? {
        query := query.(destLat := Some(Feed.Box(dto.destLat.value)), destLng := Some(Feed.Box(dto.destLng.value)));
      }
      var rows := Feed.Matching(order, db.rides, query);
      WindowIsPage(rows, dto.page, dto.limit);
      page := Slice(rows, w.skip, w.take);
      meta := BuildPaginationMeta(|rows|, w.page, w.limit);
    }
  }

  class RideExpiryProcessor {
    const db: Database

    constructor (db: Database)
      ensures this.db == db
    {
      this.db := db;
    }

    method Process(rid: RideId)
      modifies db`rides
      ensures db.Tables() == ExpireRide(old(db.Tables()), rid).w
      ensures old(db.Valid()) ==> db.Valid()
    {
      if rid !in db.rides || db.rides[rid].status != Searching {
        return;
      }
      db.rides := db.rides[rid := db.rides[rid].(status := Expired)];
      CallSound(old(db.Contents()), Expire(rid), db.Contents());
    }
  }

  class RideCompletionProcessor {
    const db: Database

    constructor (db: Database)
      ensures this.db == db
    {
      this.db := db;
    }

    /** One user's share of a delivery; the books balance again once both shares are in. */
    method UpsertStats(user: UserId, earned: Cents)
      modifies db`stats
      ensures db.stats == Credit(old(db.stats), user, earned)
    {
      if user in db.stats {
        var row := db.stats[user];
        db.stats := db.stats[user := row.(ridesCompleted := row.ridesCompleted + 1, totalEarnings := row.totalEarnings + earned)];
      } else {
        db.stats := db.stats[user := NEW_STATS.(ridesCompleted := 1, totalEarnings := earned)];
      }
    }

    method Process(rid: RideId, now: Time)
      modifies db`payments, db`stats, db`trustJobs, db`delivered
      ensures db.Contents() == ProcessCompletion(old(db.Contents()), rid, now)
      ensures old(db.Valid()) ==> db.Valid()
    {
      ghost var before := db.Contents();
      EventSound(before, Deliver(rid, now));
      if rid !in db.rides || db.rides[rid].status != RideStatus.Completed
         || db.rides[rid].riderId.None? || db.rides[rid].passengerId.None? {
        return;
      }
      var ride := db.rides[rid];
      var rider, passenger := ride.riderId.value, ride.passengerId.value;
      if !Paid(db.payments, rid) {
        db.payments := db.payments + [Payment(rid, passenger, ride.fare, PaymentStatus.Completed, now)];
      }
      UpsertStats(rider, ride.fare);
      UpsertStats(passenger, 0);
      db.trustJobs := db.trustJobs + [rider];
      db.trustJobs := db.trustJobs + [passenger];
      db.delivered := db.delivered + [rid];
      assert before.trustJobs + [rider] + [passenger] == before.trustJobs + [rider, passenger];
    }
  }

  class TrustScoreProcessor {
    const db: Database

    constructor (db: Database)
      ensures this.db == db
    {
      this.db := db;
    }

    method Process(user: UserId)
      modifies db`stats
      ensures db.Contents() == RecalculateTrust(old(db.Contents()), user)
      ensures db.stats.Keys == old(db.stats).Keys
      ensures forall u :: u in db.stats ==>
                db.stats[u] == old(db.stats)[u].(trustScore := if u == user then TrustScore(old(db.stats)[u])
                                                               else old(db.stats)[u].trustScore)
      ensures old(db.Valid()) ==> db.Valid()
    {
      EventSound(db.Contents(), Recalculate(user));
      if user !in db.stats {
        return;
      }
      var row := db.stats[user];
      var base := 50.0;
      var rideBonus := Min(row.ridesCompleted, 20) as real;
      var ratingBonus := if row.totalRatings > 0 then (row.averageRating - 3.0) * 10.0 else 0.0;
      var cancellationPenalty := (Min(row.ridesCancelled, 10) * 2) as real;
      var trustScore := Clamp(base + rideBonus + ratingBonus - cancellationPenalty);
      db.stats := db.stats[user := row.(trustScore := Round(trustScore))];
    }
  }

  class RatingsService {
    const db: Database

    constructor (db: Database)
      ensures this.db == db
    {
      this.db := db;
    }

    /** Fails, writing nothing, when the user has no stats row. */
    method RecalculateStats(user: UserId) returns (ok: bool)
      modifies db`stats
      ensures ok == (user in old(db.stats))
      ensures db.stats == if ok then old(db.stats)[user := Recalculated(old(db.stats)[user], db.ratings, user)]
                          else old(db.stats)
      ensures ok ==>
                && Reputation.ShowsTable(db.stats[user], db.ratings, user)
                && Reputation.OnlyRated(old(db.stats)[user], db.stats[user])
                && db.stats == old(db.stats)[user := db.stats[user]]
      ensures old(db.Valid()) ==> db.Valid()
    {
      var scores := RevealedScores(db.ratings, user);
      if user !in db.stats {
        return false;
      }
      RecalculationSound(db.Contents(), user);
      Reputation.RecalculatedShows(db.stats[user], db.ratings, user);
      db.stats := db.stats[user := db.stats[user].(averageRating := Mean(scores), totalRatings := |scores|)];
      return true;
    }

    method SubmitRating(rater: UserId, rid: RideId, score: Score) returns (reply: Reply)
      modifies db`ratings, db`stats, db`trustJobs
      ensures Result(db.Contents(), reply) == Platform.SubmitRating(old(db.Contents()), rater, rid, score)
      ensures old(db.Valid()) ==> db.Valid()
    {
      ghost var before := db.Contents();
      EventSound(before, Rate(rater, rid, score));
      var refusal := RatingRefusal(db.rides, rater, rid);
      if refusal.Some? {
        return Reply.Failed(refusal.value);
      }
      var ratee := Counterpart(db.rides[rid], rater);
      if Rated(db.ratings, rid, rater) {
        return Reply.Failed(Duplicate);
      }
      db.ratings := db.ratings + [Rating(rid, rater, ratee, score, false)];
      if Rated(db.ratings, rid, ratee) {
        db.ratings := Reveal(db.ratings, rid);
        var ok := RecalculateStats(ratee);
        if !ok {
          return Reply.Failed(RecordMissing);
        }
        ok := RecalculateStats(rater);
        if !ok {
          return Reply.Failed(RecordMissing);
        }
        db.trustJobs := db.trustJobs + [ratee];
        db.trustJobs := db.trustJobs + [rater];
        assert before.trustJobs + [ratee] + [rater] == before.trustJobs + [ratee, rater];
      }
      return Done;
    }
  }

  class ChatService {
    const db: Database

    constructor (db: Database)
      ensures this.db == db
    {
      this.db := db;
    }

    method SendMessage(sender: UserId, rid: RideId, content: string, now: Time) returns (reply: Reply)
      modifies db`messages
      ensures Result(db.Contents(), reply) == Platform.SendMessage(old(db.Contents()), sender, rid, content, now)
      ensures db.messages == old(db.messages) + if reply.Done? then [Message(rid, sender, content, now)] else []
      ensures old(db.Valid()) ==> db.Valid()
    {
      EventSound(db.Contents(), Say(sender, rid, content, now));
      if rid !in db.rides {
        return Reply.Failed(NotFound);
      }
      var ride := db.rides[rid];
      if ride.riderId != Some(sender) && ride.passengerId != Some(sender) {
        return Reply.Failed(Forbidden);
      }
      if ride.status != InProgress && ride.status != Matched {
        return Reply.Failed(Forbidden);
      }
      db.messages := db.messages + [Message(rid, sender, content, now)];
      return Done;
    }

    /** The array is turned around in place, ends first. */
    method ReverseFetched(fetched: array<Message>)
      modifies fetched
      ensures fetched[..] == Reverse(old(fetched[..]))
    {
      var lo, hi := 0, fetched.Length;
      while lo < hi
        invariant 0 <= lo && lo + hi == fetched.Length && lo <= hi + 1
        invariant forall k :: lo <= k < hi ==> fetched[k] == old(fetched[k])
        invariant forall k :: (0 <= k < lo || hi <= k < fetched.Length) ==>
                    fetched[k] == old(fetched[fetched.Length - 1 - k])
      {
        hi := hi - 1;
        fetched[lo], fetched[hi] := fetched[hi], fetched[lo];
        lo := lo + 1;
      }
      ghost var was := old(fetched[..]);
      forall k | 0 <= k < |was| ensures fetched[..][k] == Reverse(was)[k] {
        ReverseAt(was, k);
      }
    }

    method GetMessages(rid: RideId, user: UserId, page: Option<int>, limit: Option<int>, now: Time)
      returns (reply: Chat.Conversation)
      ensures reply == Chat.GetMessages(db.Contents(), rid, user, page, limit, now)
      ensures reply.Shown? <==>
                rid in db.rides && (db.rides[rid].riderId == Some(user) || db.rides[rid].passengerId == Some(user))
      ensures forall p, l :: reply.Shown? && Asked(page, limit, p, l) ==>
                && IsPage(Reverse(reply.messages), Chat.NewestFirst(db.messages, rid, now), p, l)
                && IsMeta(reply.meta, |Chat.NewestFirst(db.messages, rid, now)|, p, l)
    {
      if rid !in db.rides {
        return Chat.Refused(NotFound);
      }
      var ride := db.rides[rid];
      if ride.riderId != Some(user) && ride.passengerId != Some(user) {
        return Chat.Refused(Forbidden);
      }
      var w := GetPaginationParams(page, limit);
      var rows := Chat.NewestFirst(db.messages, rid, now);
      Chat.ShownIsReversedPage(db.Contents(), rid, user, page, limit, now, w.page, w.limit);
      var found := Slice(rows, w.skip, w.take);
      var fetched := new Message[|found|](i requires 0 <= i < |found| => found[i]);
      assert fetched[..] == found;
      ReverseFetched(fetched);
      return Chat.Shown(fetched[..], BuildPaginationMeta(|rows|, w.page, w.limit));
    }
  }

  datatype EarningsReport = EarningsReport(totalEarnings: Cents, thisMonth: Cents, lastMonth: Cents, completedRides: nat)

  class PaymentsRepository {
    const db: Database

    constructor (db: Database)
      ensures this.db == db
    {
      this.db := db;
    }

    /** The two months never count a payment twice, and never more than the total. */
    method GetRiderEarnings(user: UserId, startOfMonth: Time, startOfLastMonth: Time) returns (e: EarningsReport)
      requires startOfLastMonth <= startOfMonth
      ensures e.totalEarnings == Ledger.SumOfAll(db.rides, db.payments, user)
      ensures e.thisMonth == Ledger.SumSince(db.rides, db.payments, user, startOfMonth)
      ensures e.lastMonth == Ledger.SumBetween(db.rides, db.payments, user, startOfLastMonth, startOfMonth)
      ensures e.completedRides == Ledger.CountOfAll(db.rides, db.payments, user)
      ensures e.totalEarnings == Earnings(db.rides, db.payments, user)
      ensures e.totalEarnings
           == EarningsIn(db.rides, db.payments, user, None, Some(startOfLastMonth)) + e.lastMonth + e.thisMonth
    {
      Ledger.TotalIsSum(db.rides, db.payments, user);
      Ledger.SinceIsSum(db.rides, db.payments, user, startOfMonth);
      Ledger.PeriodIsSum(db.rides, db.payments, user, startOfLastMonth, startOfMonth);
      Ledger.DrivenIsSum(db.rides, db.payments, user);
      var total := EarningsIn(db.rides, db.payments, user, None, None);
      var thisMonth := EarningsIn(db.rides, db.payments, user, Some(startOfMonth), None);
      var lastMonth := EarningsIn(db.rides, db.payments, user, Some(startOfLastMonth), Some(startOfMonth));
      var rideCount := DrivenCount(db.rides, db.payments, user);
      Ledger.PeriodsPartition(db.rides, db.payments, user, startOfLastMonth, startOfMonth);
      return EarningsReport(total, thisMonth, lastMonth, rideCount);
    }
  }
}
