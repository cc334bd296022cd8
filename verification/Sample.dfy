/** One ride from post to completion, as calls: the raw material of the runs that show a failure. */
module Sample {
  import opened Domain
  import opened Rides

  /** An offer by user 0 for time 1. */
  function Post(fare: Cents): CreateRideDto {
    CreateRideDto(Offer, Place(0.0, 0.0), Place(0.0, 0.0), fare, None, None, 1)
  }

  /** The offer is posted, user 1 asks with a request of the same number, and is accepted. */
  function MatchCalls(rid: RideId, fare: Cents): seq<Call> {
    [Create(0, Rider, Post(fare), rid, 0), Join(1, Passenger, rid, rid, 0), Respond(0, rid, rid, true)]
  }

  /** Then it is started and confirmed by both. */
  function FinishCalls(rid: RideId): seq<Call> {
    [Start(0, rid, 0), Confirm(0, rid, 0), Confirm(1, rid, 0)]
  }

  function CompleteCalls(rid: RideId, fare: Cents): seq<Call> {
    MatchCalls(rid, fare) + FinishCalls(rid)
  }

  /** No row of the table has this number. */
  predicate Unused(w: World, rid: RideId) {
    rid !in w.rides && rid !in w.requests && !HasRequest(w.requests, rid, 1)
  }

  lemma {:induction false} RunConcat(w: World, a: seq<Call>, b: seq<Call>)
    ensures Run(w, a + b) == Run(Run(w, a), b)
    decreases |a|
  {
    if a == [] {
      assert a + b == b;
    } else {
      assert (a + b)[1..] == a[1..] + b;
      RunConcat(After(w, a[0]), a[1..], b);
    }
  }

  lemma RunThree(w: World, a: Call, b: Call, c: Call)
    ensures Run(w, [a, b, c]) == After(After(After(w, a), b), c)
  {
    var w1 := After(w, a);
    var w2 := After(w1, b);
    assert [a, b, c][1..] == [b, c] && [b, c][1..] == [c];
    assert Run(w1, [b, c]) == Run(w2, [c]);
    assert Run(w2, [c]) == Run(After(w2, c), [c][1..]);
  }

  predicate RideMatched(r: Ride, fare: Cents) {
    r.status.Matched? && r.riderId == Some(0) && r.passengerId == Some(1) && r.fare == fare
    && !r.riderConfirmed && !r.passengerConfirmed
  }

  predicate RideFinished(r: Ride, fare: Cents) {
    r.status.Completed? && r.riderId == Some(0) && r.passengerId == Some(1) && r.fare == fare
  }

  lemma MatchedAfter(w: World, rid: RideId, fare: Cents)
    requires Unused(w, rid)
    ensures
      var w' := Run(w, MatchCalls(rid, fare));
      && w'.rides.Keys == w.rides.Keys + {rid} && RideMatched(w'.rides[rid], fare)
      && (forall id :: id in w.rides ==> w'.rides[id] == w.rides[id])
      && (forall q :: q in w'.requests && q !in w.requests ==> q == rid && w'.requests[q].rideId == rid)
      && (forall q :: q in w.requests ==> q in w'.requests && w'.requests[q].rideId == w.requests[q].rideId)
      && w'.completionJobs == w.completionJobs
  {
    var create, join, accept := Create(0, Rider, Post(fare), rid, 0), Join(1, Passenger, rid, rid, 0), Respond(0, rid, rid, true);
    RunThree(w, create, join, accept);
    var w1 := After(w, create);
    assert rid in w1.rides && w1.requests == w.requests;
    var w2 := After(w1, join);
    assert w2.requests == w.requests[rid := RideRequest(rid, 1, Pending, REQUEST_TTL)];
  }

  lemma FinishedAfter(w: World, rid: RideId, fare: Cents)
    requires rid in w.rides && RideMatched(w.rides[rid], fare)
    ensures
      var w' := Run(w, FinishCalls(rid));
      && w'.rides.Keys == w.rides.Keys && RideFinished(w'.rides[rid], fare)
      && (forall id :: id in w.rides && id != rid ==> w'.rides[id] == w.rides[id])
      && w'.requests == w.requests && w'.completionJobs == w.completionJobs + [rid]
  {
    var start, first, second := Start(0, rid, 0), Confirm(0, rid, 0), Confirm(1, rid, 0);
    RunThree(w, start, first, second);
    var w1 := After(w, start);
    assert w1.rides[rid].status.InProgress? && w1.completionJobs == w.completionJobs;
    var w2 := After(w1, first);
    assert w2.rides[rid].riderConfirmed && w2.completionJobs == w.completionJobs + [];
  }

  /** From tables without the number, the six calls leave one more ride, completed, with its job. */
  lemma CompletedAfter(w: World, rid: RideId, fare: Cents)
    requires Unused(w, rid)
    ensures
      var w' := Run(w, CompleteCalls(rid, fare));
      && w'.rides.Keys == w.rides.Keys + {rid} && RideFinished(w'.rides[rid], fare)
      && (forall id :: id in w.rides ==> w'.rides[id] == w.rides[id])
      && (forall q :: q in w'.requests && q !in w.requests ==> q == rid && w'.requests[q].rideId == rid)
      && (forall q :: q in w.requests ==> q in w'.requests && w'.requests[q].rideId == w.requests[q].rideId)
      && w'.completionJobs == w.completionJobs + [rid]
  {
    MatchedAfter(w, rid, fare);
    FinishedAfter(Run(w, MatchCalls(rid, fare)), rid, fare);
    RunConcat(w, MatchCalls(rid, fare), FinishCalls(rid));
  }

  /** Two completed rides of the same two users. */
  lemma TwoCompleted(fare: Cents)
    ensures
      var w := Run(EMPTY, CompleteCalls(0, fare) + CompleteCalls(1, fare));
      && w.rides.Keys == {0, 1} && RideFinished(w.rides[0], fare) && RideFinished(w.rides[1], fare)
  {
    CompletedAfter(EMPTY, 0, fare);
    var w1 := Run(EMPTY, CompleteCalls(0, fare));
    assert Unused(w1, 1);
    CompletedAfter(w1, 1, fare);
    RunConcat(EMPTY, CompleteCalls(0, fare), CompleteCalls(1, fare));
  }
}
