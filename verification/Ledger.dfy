/** The incremental counters of the completion worker against the sums recomputed from the
    payments, under any number and order of redeliveries. */
module Ledger {
  import opened Domain
  import opened Rides
  import opened Lifecycle
  import opened Platform
  import opened Records
  import opened Sums

  // What one delivery of a ride's completion job is worth to one user.

  function FareTo(rides: map<RideId, Ride>, user: UserId, rid: RideId): nat {
    if rid in rides && rides[rid].riderId == Some(user) then rides[rid].fare else 0
  }

  function TripsOf(rides: map<RideId, Ride>, user: UserId, rid: RideId): nat {
    if rid in rides
    then (if rides[rid].riderId == Some(user) then 1 else 0) + (if rides[rid].passengerId == Some(user) then 1 else 0)
    else 0
  }

  function FareOf(rides: map<RideId, Ride>, rid: RideId): nat {
    if rid in rides then rides[rid].fare else 0
  }

  ghost predicate DeliveredOk(rides: map<RideId, Ride>, stats: map<UserId, Stats>, delivered: seq<RideId>) {
    forall i :: 0 <= i < |delivered| ==>
      Billable(rides, delivered[i]) && rides[delivered[i]].riderId.value in stats
      && rides[delivered[i]].passengerId.value in stats
  }

  ghost predicate CountersOk(rides: map<RideId, Ride>, stats: map<UserId, Stats>, delivered: seq<RideId>) {
    forall u: UserId ::
      && StatsOf(stats, u).totalEarnings == Sum(delivered, rid => FareTo(rides, u, rid))
      && StatsOf(stats, u).ridesCompleted == Sum(delivered, rid => TripsOf(rides, u, rid))
  }

  function PaidRides(payments: seq<Payment>): seq<RideId> {
    if payments == [] then [] else PaidRides(payments[..|payments| - 1]) + [payments[|payments| - 1].rideId]
  }

  /** Every delivery is in the counters; the payments are the first deliveries, in order. */
  ghost predicate LedgerOk(s: State) {
    && DeliveredOk(s.w.rides, s.stats, s.delivered)
    && CountersOk(s.w.rides, s.stats, s.delivered)
    && PaidRides(s.payments) == Distinct(s.delivered)
  }

  // ---- A delivery ----

  lemma {:induction false} PaidRidesIn(payments: seq<Payment>, rid: RideId)
    ensures |PaidRides(payments)| == |payments|
    ensures rid in PaidRides(payments) <==> Paid(payments, rid)
  {
    if payments == [] {
    } else {
      var front, last := payments[..|payments| - 1], payments[|payments| - 1];
      PaidRidesIn(front, rid);
      if Paid(payments, rid) && last.rideId != rid {
        var i :| 0 <= i < |payments| && payments[i].rideId == rid;
        assert front[i].rideId == rid;
      }
    }
  }

  lemma PaymentsFollowDistinct(payments: seq<Payment>, delivered: seq<RideId>, p: Payment)
    requires PaidRides(payments) == Distinct(delivered)
    ensures var payments' := if Paid(payments, p.rideId) then payments else payments + [p];
            PaidRides(payments') == Distinct(delivered + [p.rideId])
  {
    PaidRidesIn(payments, p.rideId);
    DistinctKeeps(delivered);
    DistinctAppend(delivered, p.rideId);
    assert (payments + [p])[..|payments|] == payments;
  }

  lemma CreditOne(stats: map<UserId, Stats>, rider: UserId, passenger: UserId, fare: Cents, u: UserId)
    requires rider != passenger
    ensures var stats' := Credit(Credit(stats, rider, fare), passenger, 0);
            && StatsOf(stats', u).totalEarnings == StatsOf(stats, u).totalEarnings + (if u == rider then fare else 0)
            && StatsOf(stats', u).ridesCompleted
                 == StatsOf(stats, u).ridesCompleted + (if u == rider || u == passenger then 1 else 0)
  {
  }

  lemma CreditKeepsCounters(rides: map<RideId, Ride>, stats: map<UserId, Stats>, delivered: seq<RideId>, rid: RideId)
    requires CountersOk(rides, stats, delivered)
    requires Billable(rides, rid) && rides[rid].riderId != rides[rid].passengerId
    ensures var r := rides[rid];
            CountersOk(rides, Credit(Credit(stats, r.riderId.value, r.fare), r.passengerId.value, 0), delivered + [rid])
  {
    var r := rides[rid];
    var stats' := Credit(Credit(stats, r.riderId.value, r.fare), r.passengerId.value, 0);
    forall u: UserId
      ensures StatsOf(stats', u).totalEarnings == Sum(delivered + [rid], x => FareTo(rides, u, x))
           && StatsOf(stats', u).ridesCompleted == Sum(delivered + [rid], x => TripsOf(rides, u, x))
    {
      CreditOne(stats, r.riderId.value, r.passengerId.value, r.fare, u);
      SumAppend(delivered, rid, x => FareTo(rides, u, x));
      SumAppend(delivered, rid, x => TripsOf(rides, u, x));
    }
  }

  lemma CreditKeepsDelivered(rides: map<RideId, Ride>, stats: map<UserId, Stats>, delivered: seq<RideId>, rid: RideId)
    requires DeliveredOk(rides, stats, delivered) && Billable(rides, rid)
    ensures var r := rides[rid];
            DeliveredOk(rides, Credit(Credit(stats, r.riderId.value, r.fare), r.passengerId.value, 0), delivered + [rid])
  {
  }

  lemma DeliveryKeepsLedger(s: State, rid: RideId, now: Time)
    requires RidesOk(s.w.rides) && LedgerOk(s)
    ensures LedgerOk(ProcessCompletion(s, rid, now))
  {
    if Billable(s.w.rides, rid) {
      var r := s.w.rides[rid];
      assert RideOk(r);
      CreditKeepsDelivered(s.w.rides, s.stats, s.delivered, rid);
      CreditKeepsCounters(s.w.rides, s.stats, s.delivered, rid);
      PaymentsFollowDistinct(s.payments, s.delivered,
                             Payment(rid, r.passengerId.value, r.fare, PaymentStatus.Completed, now));
    }
  }

  // ---- Other events ----

  lemma CountersFrame(rides: map<RideId, Ride>, rides': map<RideId, Ride>,
                      stats: map<UserId, Stats>, delivered: seq<RideId>)
    requires DeliveredOk(rides, stats, delivered) && CountersOk(rides, stats, delivered) && Frozen(rides, rides')
    ensures DeliveredOk(rides', stats, delivered) && CountersOk(rides', stats, delivered)
  {
    forall i | 0 <= i < |delivered|
      ensures Billable(rides', delivered[i]) && rides'[delivered[i]].riderId.value in stats
        && rides'[delivered[i]].passengerId.value in stats
    {
      assert BothSides(rides, delivered[i]);
    }
    forall u: UserId
      ensures StatsOf(stats, u).totalEarnings == Sum(delivered, x => FareTo(rides', u, x))
           && StatsOf(stats, u).ridesCompleted == Sum(delivered, x => TripsOf(rides', u, x))
    {
      assert forall x :: x in delivered ==> BothSides(rides, x);
      SumSame(delivered, x => FareTo(rides, u, x), x => FareTo(rides', u, x));
      SumSame(delivered, x => TripsOf(rides, u, x), x => TripsOf(rides', u, x));
    }
  }

  /** Rewriting the rating and trust columns of stats rows leaves the counters alone. */
  ghost predicate SameCounters(stats: map<UserId, Stats>, stats': map<UserId, Stats>) {
    && stats'.Keys == stats.Keys
    && forall u :: u in stats ==>
        (stats'[u].totalEarnings == stats[u].totalEarnings
         && stats'[u].ridesCompleted == stats[u].ridesCompleted
         && stats'[u].ridesCancelled == stats[u].ridesCancelled)
  }

  lemma SubmitSameCounters(s: State, rater: UserId, rid: RideId, score: Score)
    ensures SameCounters(s.stats, SubmitRating(s, rater, rid, score).s.stats)
    ensures SubmitRating(s, rater, rid, score).s.delivered == s.delivered
  {
  }

  lemma SameCountersKeepLedger(rides: map<RideId, Ride>, stats: map<UserId, Stats>, stats': map<UserId, Stats>,
                               delivered: seq<RideId>)
    requires DeliveredOk(rides, stats, delivered) && CountersOk(rides, stats, delivered) && SameCounters(stats, stats')
    ensures DeliveredOk(rides, stats', delivered) && CountersOk(rides, stats', delivered)
  {
    forall u: UserId
      ensures StatsOf(stats', u).totalEarnings == StatsOf(stats, u).totalEarnings
           && StatsOf(stats', u).ridesCompleted == StatsOf(stats, u).ridesCompleted
    {
    }
  }

  lemma EventKeepsLedger(s: State, e: Event)
    requires Inv(s.w) && RecordsOk(s) && LedgerOk(s)
    ensures LedgerOk(Apply(s, e))
  {
    match e
    case RideCall(call) =>
      Step(s.w, call);
      EvolvingFreezes(s.w.rides, After(s.w, call).rides);
      CountersFrame(s.w.rides, After(s.w, call).rides, s.stats, s.delivered);
    case Deliver(rid, now) => DeliveryKeepsLedger(s, rid, now);
    case Rate(rater, rid, score) =>
      SubmitKeeps(s, rater, rid, score);
      SubmitSameCounters(s, rater, rid, score);
      SameCountersKeepLedger(s.w.rides, s.stats, Apply(s, e).stats, s.delivered);
    case Recalculate(_) =>
      SameCountersKeepLedger(s.w.rides, s.stats, Apply(s, e).stats, s.delivered);
    case Say(_, _, _, _) =>
  }

  lemma {:induction false} PlayKeepsLedger(s: State, events: seq<Event>)
    requires Inv(s.w) && RecordsOk(s) && LedgerOk(s)
    ensures Inv(Play(s, events).w) && RecordsOk(Play(s, events)) && LedgerOk(Play(s, events))
    decreases |events|
  {
    if events == [] {
    } else {
      EventKeepsWorld(s, events[0]);
      EventKeepsRecords(s, events[0]);
      EventKeepsLedger(s, events[0]);
      PlayKeepsLedger(Apply(s, events[0]), events[1..]);
    }
  }

  lemma ReachableLedger(events: seq<Event>)
    ensures Inv(Play(START, events).w) && RecordsOk(Play(START, events)) && LedgerOk(Play(START, events))
  {
    assert Sum<RideId>([], x => 0) == 0;
    PlayKeepsLedger(START, events);
  }

  // ---- The recomputed side ----

  /** `getRiderEarnings` sums the fares of the paid rides the user drove. */
  lemma {:induction false} RecomputedIsSum(rides: map<RideId, Ride>, payments: seq<Payment>, user: UserId)
    requires PaymentsOk(rides, payments)
    ensures Earnings(rides, payments, user) == Sum(PaidRides(payments), rid => FareTo(rides, user, rid))
  {
    if payments == [] {
    } else {
      var front, last := payments[..|payments| - 1], payments[|payments| - 1];
      RecomputedIsSum(rides, front, user);
      assert PaymentOk(rides, last);
      SumAppend(PaidRides(front), last.rideId, rid => FareTo(rides, user, rid));
    }
  }

  /** The periods of the earnings page partition the total. */
  lemma {:induction false} PeriodsPartition(rides: map<RideId, Ride>, payments: seq<Payment>, user: UserId,
                                            lastMonth: Time, month: Time)
    requires lastMonth <= month
    ensures Earnings(rides, payments, user)
         == EarningsIn(rides, payments, user, None, Some(lastMonth))
            + EarningsIn(rides, payments, user, Some(lastMonth), Some(month))
            + EarningsIn(rides, payments, user, Some(month), None)
    ensures Earnings(rides, payments, user)
         == SumBetween(rides, payments, user, 0, lastMonth) + SumBetween(rides, payments, user, lastMonth, month)
            + SumSince(rides, payments, user, month)
  {
    if payments == [] {
    } else {
      PeriodsPartition(rides, payments[..|payments| - 1], user, lastMonth, month);
    }
  }

  /** A completed payment of a ride the user drove. */
  predicate DroveCompleted(rides: map<RideId, Ride>, p: Payment, user: UserId) {
    p.rideId in rides && rides[p.rideId].riderId == Some(user) && p.status == PaymentStatus.Completed
  }

  // What the four aggregates are over the payments: all, since a time, between two, and how many.

  function SumOfAll(rides: map<RideId, Ride>, payments: seq<Payment>, user: UserId): nat {
    Sum(payments, (p: Payment) => if DroveCompleted(rides, p, user) then p.amount else 0)
  }

  function SumSince(rides: map<RideId, Ride>, payments: seq<Payment>, user: UserId, since: Time): nat {
    Sum(payments, (p: Payment) => if DroveCompleted(rides, p, user) && since <= p.createdAt then p.amount else 0)
  }

  function SumBetween(rides: map<RideId, Ride>, payments: seq<Payment>, user: UserId, since: Time, until: Time): nat {
    Sum(payments, (p: Payment) =>
      if DroveCompleted(rides, p, user) && since <= p.createdAt < until then p.amount else 0)
  }

  function CountOfAll(rides: map<RideId, Ride>, payments: seq<Payment>, user: UserId): nat {
    Sum(payments, (p: Payment) => if DroveCompleted(rides, p, user) then 1 else 0)
  }

  lemma {:induction false} TotalIsSum(rides: map<RideId, Ride>, payments: seq<Payment>, user: UserId)
    ensures Earnings(rides, payments, user) == SumOfAll(rides, payments, user)
  {
    if payments == [] {
    } else {
      TotalIsSum(rides, payments[..|payments| - 1], user);
    }
  }

  lemma {:induction false} SinceIsSum(rides: map<RideId, Ride>, payments: seq<Payment>, user: UserId, since: Time)
    ensures EarningsIn(rides, payments, user, Some(since), None) == SumSince(rides, payments, user, since)
  {
    if payments == [] {
    } else {
      SinceIsSum(rides, payments[..|payments| - 1], user, since);
    }
  }

  lemma {:induction false} PeriodIsSum(rides: map<RideId, Ride>, payments: seq<Payment>, user: UserId, since: Time, until: Time)
    ensures EarningsIn(rides, payments, user, Some(since), Some(until)) == SumBetween(rides, payments, user, since, until)
  {
    if payments == [] {
    } else {
      PeriodIsSum(rides, payments[..|payments| - 1], user, since, until);
    }
  }

  lemma {:induction false} DrivenIsSum(rides: map<RideId, Ride>, payments: seq<Payment>, user: UserId)
    ensures DrivenCount(rides, payments, user) == CountOfAll(rides, payments, user)
  {
    if payments == [] {
    } else {
      DrivenIsSum(rides, payments[..|payments| - 1], user);
    }
  }

  lemma {:induction false} PayerIsSum(payments: seq<Payment>, user: UserId)
    ensures PayerCount(payments, user) == Sum(payments, (p: Payment) => if p.payerId == user then 1 else 0)
  {
    if payments == [] {
    } else {
      PayerIsSum(payments[..|payments| - 1], user);
    }
  }

  // ---- One delivery, in full ----

  /** What one delivery leaves of a user's row, or of the schema's defaults if there was none. */
  ghost predicate Credited(stats: map<UserId, Stats>, stats': map<UserId, Stats>, user: UserId, earned: Cents) {
    user in stats'
    && if user in stats
       then stats'[user] == stats[user].(ridesCompleted := stats[user].ridesCompleted + 1,
                                         totalEarnings := stats[user].totalEarnings + earned)
       else stats'[user] == Stats(1, 0, 0, 0.0, 50, earned)
  }

  lemma DeliveryPays(s: State, rid: RideId, now: Time)
    requires rid in s.w.rides && s.w.rides[rid].status == RideStatus.Completed && BothSides(s.w.rides, rid)
    ensures
      var s' := ProcessCompletion(s, rid, now);
      var rider, passenger := s.w.rides[rid].riderId.value, s.w.rides[rid].passengerId.value;
      && s'.payments == (if rid in PaidRides(s.payments) then s.payments
                         else s.payments + [Payment(rid, passenger, s.w.rides[rid].fare, PaymentStatus.Completed, now)])
      && s'.trustJobs == s.trustJobs + [rider, passenger]
      && s' == s.(payments := s'.payments, stats := s'.stats, trustJobs := s'.trustJobs, delivered := s.delivered + [rid])
  {
    PaidRidesIn(s.payments, rid);
  }

  lemma DeliveryCredits(s: State, rid: RideId, now: Time)
    requires rid in s.w.rides && s.w.rides[rid].status == RideStatus.Completed && BothSides(s.w.rides, rid)
    requires s.w.rides[rid].riderId != s.w.rides[rid].passengerId
    ensures
      var s' := ProcessCompletion(s, rid, now);
      var rider, passenger := s.w.rides[rid].riderId.value, s.w.rides[rid].passengerId.value;
      && Credited(s.stats, s'.stats, rider, s.w.rides[rid].fare) && Credited(s.stats, s'.stats, passenger, 0)
      && (forall u :: u != rider && u != passenger ==>
            (u in s'.stats <==> u in s.stats) && (u in s.stats ==> s'.stats[u] == s.stats[u]))
  {
  }

  /** In every reachable state, whatever is delivered: the job of a completed ride always goes through.
      It pays the fare, from the passenger and at this time, unless the ride was paid for; it gives
      the rider a trip and the fare and the passenger a trip, touching nothing else of any row; and
      it adds a recalculation for each. The job of any other ride does nothing. */
  lemma DeliveryGoesThrough(events: seq<Event>, rid: RideId, now: Time)
    ensures
      var s := Play(START, events);
      var s' := ProcessCompletion(s, rid, now);
      if rid in s.w.rides && s.w.rides[rid].completedAt.Some? then
        && BothSides(s.w.rides, rid)
        && var rider, passenger := s.w.rides[rid].riderId.value, s.w.rides[rid].passengerId.value;
           && s'.payments == (if rid in PaidRides(s.payments) then s.payments
                              else s.payments + [Payment(rid, passenger, s.w.rides[rid].fare, PaymentStatus.Completed, now)])
           && Credited(s.stats, s'.stats, rider, s.w.rides[rid].fare) && Credited(s.stats, s'.stats, passenger, 0)
           && (forall u :: u != rider && u != passenger ==>
                 (u in s'.stats <==> u in s.stats) && (u in s.stats ==> s'.stats[u] == s.stats[u]))
           && s'.trustJobs == s.trustJobs + [rider, passenger]
           && s' == s.(payments := s'.payments, stats := s'.stats, trustJobs := s'.trustJobs, delivered := s.delivered + [rid])
      else s' == s
  {
    ReachableLedger(events);
    var s := Play(START, events);
    if rid in s.w.rides {
      assert RideOk(s.w.rides[rid]);
      if s.w.rides[rid].completedAt.Some? {
        DeliveryPays(s, rid, now);
        DeliveryCredits(s, rid, now);
      }
    }
  }

  // ---- The main results ----

  /** What the redeliveries of one ride add to its rider's counter. */
  ghost function Overpaid(s: State, user: UserId, rid: RideId): nat {
    Extra(s.delivered, x => FareTo(s.w.rides, user, x), rid)
  }

  /** Whatever the number and order of deliveries, each ride has at most one payment, and a
      user's counter exceeds the recomputed earnings by (deliveries - 1) fares a ride, exactly. */
  lemma AtLeastOnceDelivery(events: seq<Event>, user: UserId)
    ensures
      var s := Play(START, events);
      && NoDuplicates(PaidRides(s.payments))
      && StatsOf(s.stats, user).totalEarnings
           == Earnings(s.w.rides, s.payments, user) + Sum(Distinct(s.delivered), rid => Overpaid(s, user, rid))
  {
    ReachableLedger(events);
    var s := Play(START, events);
    DistinctKeeps(s.delivered);
    RecomputedIsSum(s.w.rides, s.payments, user);
    SumExcess(s.delivered, rid => FareTo(s.w.rides, user, rid));
    SumSame(Distinct(s.delivered), rid => Extra(s.delivered, x => FareTo(s.w.rides, user, x), rid),
            rid => Overpaid(s, user, rid));
  }

  lemma OverpaidZero(s: State, user: UserId, rid: RideId)
    requires rid in s.delivered
    ensures Overpaid(s, user, rid) == 0
      <==> (FareTo(s.w.rides, user, rid) > 0 ==> multiset(s.delivered)[rid] == 1)
  {
    assert multiset(s.delivered)[rid] > 0;
    ProductZero(multiset(s.delivered)[rid] - 1, FareTo(s.w.rides, user, rid));
  }

  lemma NothingOverpaid(s: State, user: UserId)
    ensures Sum(Distinct(s.delivered), rid => Overpaid(s, user, rid)) == 0
      <==> forall rid :: rid in s.delivered ==> Overpaid(s, user, rid) == 0
  {
    SumZero(Distinct(s.delivered), rid => Overpaid(s, user, rid));
    DistinctKeeps(s.delivered);
  }

  /** A user's counter agrees with the recomputed earnings exactly when no paid ride the user
      drove was delivered twice. */
  lemma AgreesUnlessRedelivered(events: seq<Event>, user: UserId)
    ensures
      var s := Play(START, events);
      StatsOf(s.stats, user).totalEarnings == Earnings(s.w.rides, s.payments, user)
      <==> forall rid :: rid in s.delivered && FareTo(s.w.rides, user, rid) > 0 ==> multiset(s.delivered)[rid] == 1
  {
    var s := Play(START, events);
    AtLeastOnceDelivery(events, user);
    NothingOverpaid(s, user);
    forall rid | rid in s.delivered
      ensures Overpaid(s, user, rid) == 0
        <==> (FareTo(s.w.rides, user, rid) > 0 ==> multiset(s.delivered)[rid] == 1)
    {
      OverpaidZero(s, user, rid);
    }
  }

  lemma ProductZero(n: nat, k: nat)
    ensures n * k == 0 <==> n == 0 || k == 0
  {
    if n > 0 && k > 0 {
      assert n * k >= k;
    }
  }

  /** The global books: with `users` listing the stats table once each, total earnings are the
      fares of the processed rides, and completed trips are two a delivery. */
  lemma Conservation(events: seq<Event>, users: seq<UserId>)
    requires NoDuplicates(users)
    requires forall u :: u in users <==> u in Play(START, events).stats
    ensures
      var s := Play(START, events);
      && Sum(users, u => StatsOf(s.stats, u).totalEarnings) == Sum(s.delivered, rid => FareOf(s.w.rides, rid))
      && Sum(users, u => StatsOf(s.stats, u).ridesCompleted) == 2 * |s.delivered|
  {
    ReachableLedger(events);
    var s := Play(START, events);
    EarningsBalance(s, users);
    TripsBalance(s, users);
  }

  /** One delivery is worth its fare to exactly one user. */
  lemma OneRider(s: State, users: seq<UserId>, rid: RideId)
    requires DeliveredOk(s.w.rides, s.stats, s.delivered) && rid in s.delivered
    requires NoDuplicates(users) && forall u :: u in s.stats ==> u in users
    ensures Sum(users, u => FareTo(s.w.rides, u, rid)) == FareOf(s.w.rides, rid)
  {
    assert Billable(s.w.rides, rid) && s.w.rides[rid].riderId.value in s.stats;
    SumSingle(users, u => FareTo(s.w.rides, u, rid), s.w.rides[rid].riderId.value);
  }

  lemma EarningsBalance(s: State, users: seq<UserId>)
    requires LedgerOk(s) && NoDuplicates(users) && forall u :: u in s.stats ==> u in users
    ensures Sum(users, u => StatsOf(s.stats, u).totalEarnings) == Sum(s.delivered, rid => FareOf(s.w.rides, rid))
  {
    var f := (u, rid) => FareTo(s.w.rides, u, rid);
    forall u | u in users ensures StatsOf(s.stats, u).totalEarnings == RowSums(s.delivered, f)(u) {
      SumSame(s.delivered, rid => FareTo(s.w.rides, u, rid), Row(f, u));
    }
    SumSame(users, u => StatsOf(s.stats, u).totalEarnings, RowSums(s.delivered, f));
    SumExchange(users, s.delivered, f);
    forall rid | rid in s.delivered ensures ColumnSums(users, f)(rid) == FareOf(s.w.rides, rid) {
      OneRider(s, users, rid);
      SumSame(users, u => FareTo(s.w.rides, u, rid), Column(f, rid));
    }
    SumSame(s.delivered, ColumnSums(users, f), rid => FareOf(s.w.rides, rid));
  }

  /** One delivery is one trip for its rider and one for its passenger. */
  lemma TwoTrips(s: State, users: seq<UserId>, rid: RideId)
    requires DeliveredOk(s.w.rides, s.stats, s.delivered) && rid in s.delivered
    requires NoDuplicates(users) && forall u :: u in s.stats ==> u in users
    ensures Sum(users, u => TripsOf(s.w.rides, u, rid)) == 2
  {
    assert Billable(s.w.rides, rid) && s.w.rides[rid].riderId.value in s.stats
      && s.w.rides[rid].passengerId.value in s.stats;
    var r := s.w.rides[rid];
    var asRider := u => if r.riderId == Some(u) then 1 as nat else 0;
    var asPassenger := u => if r.passengerId == Some(u) then 1 as nat else 0;
    SumSingle(users, asRider, r.riderId.value);
    SumSingle(users, asPassenger, r.passengerId.value);
    SumAdd(users, asRider, asPassenger, u => TripsOf(s.w.rides, u, rid));
  }

  lemma TripsBalance(s: State, users: seq<UserId>)
    requires LedgerOk(s) && NoDuplicates(users) && forall u :: u in s.stats ==> u in users
    ensures Sum(users, u => StatsOf(s.stats, u).ridesCompleted) == 2 * |s.delivered|
  {
    var f := (u, rid) => TripsOf(s.w.rides, u, rid);
    forall u | u in users ensures StatsOf(s.stats, u).ridesCompleted == RowSums(s.delivered, f)(u) {
      SumSame(s.delivered, rid => TripsOf(s.w.rides, u, rid), Row(f, u));
    }
    SumSame(users, u => StatsOf(s.stats, u).ridesCompleted, RowSums(s.delivered, f));
    SumExchange(users, s.delivered, f);
    forall rid | rid in s.delivered ensures ColumnSums(users, f)(rid) == 2 {
      TwoTrips(s, users, rid);
      SumSame(users, u => TripsOf(s.w.rides, u, rid), Column(f, rid));
    }
    SumSame(s.delivered, ColumnSums(users, f), rid => 2);
    SumConstant(s.delivered, 2);
  }

  lemma {:induction false} SumConstant<T>(xs: seq<T>, k: nat)
    ensures Sum(xs, x => k) == k * |xs|
  {
    if xs == [] {
    } else {
      SumConstant(xs[..|xs| - 1], k);
    }
  }

  /** The money in the payments table is the fares of the paid rides. */
  lemma {:induction false} PaymentsAreFares(rides: map<RideId, Ride>, payments: seq<Payment>)
    requires PaymentsOk(rides, payments)
    ensures Sum(payments, (p: Payment) => p.amount) == Sum(PaidRides(payments), rid => FareOf(rides, rid))
  {
    if payments == [] {
    } else {
      var front, last := payments[..|payments| - 1], payments[|payments| - 1];
      PaymentsAreFares(rides, front);
      assert PaymentOk(rides, last);
      SumAppend(PaidRides(front), last.rideId, rid => FareOf(rides, rid));
    }
  }

  /** Delivered once each, the counters, the payments and the fares are the same money: for
      every user, and in total once every completed ride's job has been delivered. */
  lemma LedgerAgreement(events: seq<Event>, users: seq<UserId>)
    requires NoDuplicates(users)
    requires forall u :: u in users <==> u in Play(START, events).stats
    requires multiset(Play(START, events).delivered) == multiset(Play(START, events).w.completionJobs)
    ensures
      var s := Play(START, events);
      && (forall u: UserId :: StatsOf(s.stats, u).totalEarnings == Earnings(s.w.rides, s.payments, u))
      && PaidRides(s.payments) == s.delivered
      && Sum(users, u => StatsOf(s.stats, u).totalEarnings) == Sum(s.payments, (p: Payment) => p.amount)
      && Sum(users, u => StatsOf(s.stats, u).totalEarnings) == Sum(PaidRides(s.payments), rid => FareOf(s.w.rides, rid))
      && (forall rid :: rid in s.w.rides && s.w.rides[rid].status.Completed? <==> Paid(s.payments, rid))
  {
    var s := Play(START, events);
    ReachableLedger(events);
    assert forall rid: RideId :: multiset(s.delivered)[rid] == JobCount(s.w.rides, rid);
    forall u: UserId ensures StatsOf(s.stats, u).totalEarnings == Earnings(s.w.rides, s.payments, u) {
      AgreesUnlessRedelivered(events, u);
      forall rid | rid in s.delivered ensures multiset(s.delivered)[rid] == 1 {
        assert multiset(s.delivered)[rid] > 0;
      }
    }
    DistinctOfSingles(s.delivered);
    Conservation(events, users);
    PaymentsAreFares(s.w.rides, s.payments);
    forall rid ensures rid in s.w.rides && s.w.rides[rid].status.Completed? <==> Paid(s.payments, rid) {
      PaidRidesIn(s.payments, rid);
      assert multiset(s.delivered)[rid] > 0 <==> rid in s.delivered;
    }
  }

  lemma {:induction false} TripsAreCounts(rides: map<RideId, Ride>, payments: seq<Payment>, user: UserId)
    requires PaymentsOk(rides, payments)
    ensures Sum(PaidRides(payments), rid => TripsOf(rides, user, rid))
         == DrivenCount(rides, payments, user) + PayerCount(payments, user)
  {
    if payments == [] {
    } else {
      var front, last := payments[..|payments| - 1], payments[|payments| - 1];
      TripsAreCounts(rides, front, user);
      assert PaymentOk(rides, last);
      SumAppend(PaidRides(front), last.rideId, rid => TripsOf(rides, user, rid));
    }
  }

  /** What the redeliveries of one ride add to a user's trips counter. */
  ghost function Overcounted(s: State, user: UserId, rid: RideId): nat {
    Extra(s.delivered, x => TripsOf(s.w.rides, user, x), rid)
  }

  /** Whatever the number and order of deliveries, a user's trips counter exceeds the two payment
      counts by (deliveries - 1) for each ride the user took part in, exactly. */
  lemma TripsExcess(events: seq<Event>, user: UserId)
    ensures
      var s := Play(START, events);
      StatsOf(s.stats, user).ridesCompleted
        == DrivenCount(s.w.rides, s.payments, user) + PayerCount(s.payments, user)
           + Sum(Distinct(s.delivered), rid => Overcounted(s, user, rid))
  {
    ReachableLedger(events);
    var s := Play(START, events);
    TripsAreCounts(s.w.rides, s.payments, user);
    SumExcess(s.delivered, rid => TripsOf(s.w.rides, user, rid));
    SumSame(Distinct(s.delivered), rid => Extra(s.delivered, x => TripsOf(s.w.rides, user, x), rid),
            rid => Overcounted(s, user, rid));
  }

  /** When no job was delivered twice, the trips counter is what the two payment counts add up
      to: the rides the user drove and the rides the user paid for. */
  lemma TripsAgree(events: seq<Event>, user: UserId)
    requires forall rid: RideId :: multiset(Play(START, events).delivered)[rid] <= 1
    ensures var s := Play(START, events);
            StatsOf(s.stats, user).ridesCompleted
              == DrivenCount(s.w.rides, s.payments, user) + PayerCount(s.payments, user)
  {
    ReachableLedger(events);
    var s := Play(START, events);
    DistinctOfSingles(s.delivered);
    TripsAreCounts(s.w.rides, s.payments, user);
  }

  lemma {:induction false} DistinctOfSingles<T>(xs: seq<T>)
    requires forall x :: multiset(xs)[x] <= 1
    ensures Distinct(xs) == xs
  {
    if xs == [] {
    } else {
      var front, last := xs[..|xs| - 1], xs[|xs| - 1];
      assert xs == front + [last];
      assert forall x :: multiset(xs)[x] == multiset(front)[x] + multiset([last])[x];
      DistinctOfSingles(front);
      assert last !in front by {
        assert multiset(xs)[last] == multiset(front)[last] + 1;
      }
    }
  }

  /** The worker does not guard its increments with the payment check: a second delivery of the
      same job pays nothing and still credits the fare again. */
  lemma RedeliveryCreditsAgain(s: State, rid: RideId, now: Time, later: Time)
    requires Billable(s.w.rides, rid) && s.w.rides[rid].riderId != s.w.rides[rid].passengerId
    ensures
      var rider := s.w.rides[rid].riderId.value;
      var once := ProcessCompletion(s, rid, now);
      var twice := ProcessCompletion(once, rid, later);
      && twice.payments == once.payments
      && StatsOf(twice.stats, rider).totalEarnings == StatsOf(once.stats, rider).totalEarnings + s.w.rides[rid].fare
  {
    var once := ProcessCompletion(s, rid, now);
    assert Paid(once.payments, rid) by {
      if !Paid(s.payments, rid) {
        assert once.payments[|s.payments|].rideId == rid;
      }
    }
  }
}
