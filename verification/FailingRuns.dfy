/** Runs from empty tables for properties one might expect and that do not hold. */
module FailingRuns {
  import opened Domain
  import opened Rides
  import opened Platform
  import opened Sample
  import Aggregates

  /** An expired ride is cancelled. */
  lemma ExpiredIsCancelled()
    ensures
      var w := Run(EMPTY, [Create(0, Rider, Post(0), 0, 0), Expire(0)]);
      && 0 in w.rides && w.rides[0].status.Expired?
      && CancelRide(w, 0, 0, 2).reply.Done? && CancelRide(w, 0, 0, 2).w.rides[0].status.Cancelled?
  {
    RunTwo(EMPTY, Create(0, Rider, Post(0), 0, 0), Expire(0));
    assert 0 in After(EMPTY, Create(0, Rider, Post(0), 0, 0)).rides;
  }

  /** An edit moves the ride to time 5, and its job still fires at time 1. */
  lemma EditLeavesJobBehind()
    ensures
      var w := Run(EMPTY, [Create(0, Rider, Post(0), 0, 0), Update(0, 0, UpdateRideDto(None, None, Some(5), None), 0)]);
      0 in w.rides && 0 in w.expiryJobs && w.rides[0].scheduledAt == 5 && w.expiryJobs[0] == 1
  {
    RunTwo(EMPTY, Create(0, Rider, Post(0), 0, 0), Update(0, 0, UpdateRideDto(None, None, Some(5), None), 0));
    assert 0 in After(EMPTY, Create(0, Rider, Post(0), 0, 0)).rides;
  }

  lemma RunTwo(w: World, a: Call, b: Call)
    ensures Run(w, [a, b]) == After(After(w, a), b)
  {
    assert [a, b][1..] == [b];
    assert Run(After(w, a), [b]) == Run(After(After(w, a), b), [b][1..]);
  }

  /** The job of a ride with fare 7 is delivered twice: one payment of 7, and a counter of 14. */
  lemma RedeliveryPartsCounter()
    ensures exists events ::
      var s := Play(START, events);
      0 in s.stats && s.stats[0].totalEarnings == 14 && Earnings(s.w.rides, s.payments, 0) == 7
  {
    CompletedAfter(EMPTY, 0, 7);
    var rides := Aggregates.RideCallsPlay(START, CompleteCalls(0, 7));
    var s0 := Play(START, rides);
    Aggregates.PlaySnoc(START, rides, Deliver(0, 0));
    Aggregates.PlaySnoc(START, rides + [Deliver(0, 0)], Deliver(0, 0));
    var events := rides + [Deliver(0, 0)] + [Deliver(0, 0)];
    FirstDelivery(s0);
    SecondDelivery(ProcessCompletion(s0, 0, 0));
    Recomputed(s0.w.rides);
    assert Play(START, events) == ProcessCompletion(ProcessCompletion(s0, 0, 0), 0, 0);
  }

  const ONE_PAYMENT := [Payment(0, 1, 7, PaymentStatus.Completed, 0)]

  lemma FirstDelivery(s: State)
    requires 0 in s.w.rides && RideFinished(s.w.rides[0], 7) && s.payments == [] && s.stats == map[]
    ensures
      var s' := ProcessCompletion(s, 0, 0);
      s'.w == s.w && s'.payments == ONE_PAYMENT && 0 in s'.stats && s'.stats[0].totalEarnings == 7
  {
    assert !Paid(s.payments, 0);
  }

  lemma SecondDelivery(s: State)
    requires 0 in s.w.rides && RideFinished(s.w.rides[0], 7) && s.payments == ONE_PAYMENT
    requires 0 in s.stats && s.stats[0].totalEarnings == 7
    ensures
      var s' := ProcessCompletion(s, 0, 0);
      s'.w == s.w && s'.payments == ONE_PAYMENT && 0 in s'.stats && s'.stats[0].totalEarnings == 14
  {
    assert s.payments[0].rideId == 0;
    assert Paid(s.payments, 0);
  }

  lemma Recomputed(rides: map<RideId, Ride>)
    requires 0 in rides && RideFinished(rides[0], 7)
    ensures Earnings(rides, ONE_PAYMENT, 0) == 7
  {
    assert ONE_PAYMENT[..0] == [];
    assert EarningsIn(rides, ONE_PAYMENT[..0], 0, None, None) == 0;
  }
}
