/** What every run of ride calls keeps: the lifecycle invariant, the frozen
    participants, and the confirm protocol, with each call atomic. */
module Lifecycle {
  import opened Domain
  import opened Rides

  /** The side the post left empty. */
  function Filled(r: Ride): Option<UserId> {
    if r.kind.Offer? then r.passengerId else r.riderId
  }

  predicate Active(s: RideStatus) {
    s.Matched? || s.InProgress? || s.Completed?
  }

  /** The columns of one row agree with each other. */
  predicate RideOk(r: Ride) {
    && (r.kind.Offer? ==> r.riderId == Some(r.creatorId))
    && (r.kind.Request? ==> r.passengerId == Some(r.creatorId))
    && Filled(r) != Some(r.creatorId)
    && (r.status.Searching? || r.status.Expired? ==> Filled(r).None?)
    && (Active(r.status) ==> Filled(r).Some?)
    && (r.riderConfirmed || r.passengerConfirmed ==> r.status.InProgress? || r.status.Completed?)
    && (r.status.Completed? <==> r.riderConfirmed && r.passengerConfirmed)
    && (r.startedAt.Some? <==> r.status.InProgress? || r.status.Completed?)
    && (r.completedAt.Some? <==> r.status.Completed?)
    && (r.cancelledAt.Some? <==> r.status.Cancelled?)
  }

  /** A request names a ride, does not come from its creator, and agrees with the filled side. */
  predicate RequestOk(rides: map<RideId, Ride>, q: RideRequest) {
    && q.rideId in rides
    && q.passengerId != rides[q.rideId].creatorId
    && (q.status.Accepted? ==> Filled(rides[q.rideId]) == Some(q.passengerId))
    && (q.status.Pending? ==> Filled(rides[q.rideId]).None?)
  }

  ghost predicate HasAccepted(requests: map<RequestId, RideRequest>, rid: RideId) {
    exists q :: q in requests && requests[q].rideId == rid && requests[q].status.Accepted?
  }

  ghost predicate RidesOk(rides: map<RideId, Ride>) {
    forall rid :: rid in rides ==> RideOk(rides[rid])
  }

  ghost predicate RequestsOk(rides: map<RideId, Ride>, requests: map<RequestId, RideRequest>) {
    forall q :: q in requests ==> RequestOk(rides, requests[q])
  }

  ghost predicate FilledByRequest(rides: map<RideId, Ride>, requests: map<RequestId, RideRequest>) {
    forall rid :: rid in rides && Filled(rides[rid]).Some? ==> HasAccepted(requests, rid)
  }

  /** The schema's unique key on ride and passenger. */
  ghost predicate OnePerPassenger(requests: map<RequestId, RideRequest>) {
    forall q, q' ::
      (q in requests && q' in requests && requests[q].rideId == requests[q'].rideId
       && requests[q].passengerId == requests[q'].passengerId) ==> q == q'
  }

  function JobCount(rides: map<RideId, Ride>, rid: RideId): nat {
    if rid in rides && rides[rid].status.Completed? then 1 else 0
  }

  ghost predicate JobsOk(rides: map<RideId, Ride>, jobs: seq<RideId>) {
    forall rid: RideId :: multiset(jobs)[rid] == JobCount(rides, rid)
  }

  ghost predicate Inv(w: World) {
    && RidesOk(w.rides)
    && RequestsOk(w.rides, w.requests)
    && FilledByRequest(w.rides, w.requests)
    && OnePerPassenger(w.requests)
    && JobsOk(w.rides, w.completionJobs)
    && w.expiryJobs.Keys == w.rides.Keys
  }

  function Rank(s: RideStatus): nat {
    match s
    case Searching => 0
    case Matched => 1
    case Expired => 1
    case InProgress => 2
    case Completed => 3
    case Cancelled => 3
  }

  /** What any later version of a row keeps of an earlier one. */
  predicate Later(r: Ride, r': Ride) {
    && r'.creatorId == r.creatorId
    && r'.kind == r.kind
    && (r'.status != r.status ==> Rank(r.status) < Rank(r'.status))
    && (Filled(r).Some? ==> r'.riderId == r.riderId && r'.passengerId == r.passengerId && r'.fare == r.fare)
    && (r.riderConfirmed ==> r'.riderConfirmed)
    && (r.passengerConfirmed ==> r'.passengerConfirmed)
  }

  predicate RequestLater(q: RideRequest, q': RideRequest) {
    && q'.rideId == q.rideId
    && q'.passengerId == q.passengerId
    && (q.status != Pending ==> q'.status == q.status)
  }

  ghost predicate RidesLater(rides: map<RideId, Ride>, rides': map<RideId, Ride>) {
    forall rid :: rid in rides ==> rid in rides' && Later(rides[rid], rides'[rid])
  }

  ghost predicate RequestsLater(requests: map<RequestId, RideRequest>, requests': map<RequestId, RideRequest>) {
    forall q :: q in requests ==> q in requests' && RequestLater(requests[q], requests'[q])
  }

  /** What later tables keep of earlier ones. */
  ghost predicate Evolves(w: World, w': World) {
    && RidesLater(w.rides, w'.rides)
    && RequestsLater(w.requests, w'.requests)
    && w.completionJobs <= w'.completionJobs
  }

  // ---- One call ----

  lemma JobsAppend(rides: map<RideId, Ride>, rides': map<RideId, Ride>, jobs: seq<RideId>, added: seq<RideId>)
    requires JobsOk(rides, jobs)
    requires forall rid: RideId :: JobCount(rides', rid) == JobCount(rides, rid) + multiset(added)[rid]
    ensures JobsOk(rides', jobs + added)
  {
  }

  /** Writing rows that keep their creator and filled side leaves the requests in order. */
  lemma RequestsFrame(rides: map<RideId, Ride>, rides': map<RideId, Ride>, requests: map<RequestId, RideRequest>)
    requires RequestsOk(rides, requests)
    requires forall id :: id in rides ==>
               id in rides' && rides'[id].creatorId == rides[id].creatorId && Filled(rides'[id]) == Filled(rides[id])
    ensures RequestsOk(rides', requests)
  {
  }

  lemma CreateKeepsInv(w: World, id: RideId, caller: UserId, dto: CreateRideDto)
    requires Inv(w) && id !in w.rides
    ensures Inv(w.(rides := w.rides[id := NewRide(caller, dto)], expiryJobs := w.expiryJobs[id := dto.scheduledAt]))
  {
  }

  lemma CreateEvolves(w: World, caller: UserId, role: Role, dto: CreateRideDto, id: RideId, now: Time)
    ensures Evolves(w, CreateRide(w, caller, role, dto, id, now).w)
  {
  }

  lemma CreateStep(w: World, caller: UserId, role: Role, dto: CreateRideDto, id: RideId, now: Time)
    requires Inv(w)
    ensures var w' := CreateRide(w, caller, role, dto, id, now).w; Inv(w') && Evolves(w, w')
  {
    CreateEvolves(w, caller, role, dto, id, now);
    if id !in w.rides {
      CreateKeepsInv(w, id, caller, dto);
    }
  }

  lemma RowKeepsInv(w: World, rid: RideId, r': Ride, jobs: seq<RideId>)
    requires Inv(w) && rid in w.rides
    requires RideOk(r') && Filled(r') == Filled(w.rides[rid]) && Later(w.rides[rid], r')
    requires jobs == if r'.status.Completed? && !w.rides[rid].status.Completed? then [rid] else []
    ensures Inv(w.(rides := w.rides[rid := r'], completionJobs := w.completionJobs + jobs))
  {
    var rides' := w.rides[rid := r'];
    RequestsFrame(w.rides, rides', w.requests);
    JobsAppend(w.rides, rides', w.completionJobs, jobs);
  }

  /** A call that rewrites one row, leaving the requests and the filled side alone. */
  lemma RowStep(w: World, rid: RideId, r': Ride, jobs: seq<RideId>)
    requires Inv(w) && rid in w.rides
    requires RideOk(r') && Filled(r') == Filled(w.rides[rid]) && Later(w.rides[rid], r')
    requires jobs == if r'.status.Completed? && !w.rides[rid].status.Completed? then [rid] else []
    ensures var w' := w.(rides := w.rides[rid := r'], completionJobs := w.completionJobs + jobs);
            Inv(w') && Evolves(w, w')
  {
    RowKeepsInv(w, rid, r', jobs);
  }

  lemma UpdateStep(w: World, caller: UserId, rid: RideId, dto: UpdateRideDto, now: Time)
    requires Inv(w)
    ensures var w' := UpdateRide(w, caller, rid, dto, now).w; Inv(w') && Evolves(w, w')
  {
    var w' := UpdateRide(w, caller, rid, dto, now).w;
    if w' != w {
      RowStep(w, rid, w'.rides[rid], []);
      assert w.completionJobs + [] == w.completionJobs;
    }
  }

  lemma CancelStep(w: World, caller: UserId, rid: RideId, now: Time)
    requires Inv(w)
    ensures var w' := CancelRide(w, caller, rid, now).w; Inv(w') && Evolves(w, w')
  {
    var w' := CancelRide(w, caller, rid, now).w;
    if w' != w {
      RowStep(w, rid, w'.rides[rid], []);
      assert w.completionJobs + [] == w.completionJobs;
    }
  }

  lemma StartStep(w: World, caller: UserId, rid: RideId, now: Time)
    requires Inv(w)
    ensures var w' := StartRide(w, caller, rid, now).w; Inv(w') && Evolves(w, w')
  {
    var w' := StartRide(w, caller, rid, now).w;
    if w' != w {
      RowStep(w, rid, w'.rides[rid], []);
      assert w.completionJobs + [] == w.completionJobs;
    }
  }

  lemma ExpireStep(w: World, rid: RideId)
    requires Inv(w)
    ensures var w' := ExpireRide(w, rid).w; Inv(w') && Evolves(w, w')
  {
    var w' := ExpireRide(w, rid).w;
    if w' != w {
      RowStep(w, rid, w'.rides[rid], []);
      assert w.completionJobs + [] == w.completionJobs;
    }
  }

  lemma ConfirmStep(w: World, caller: UserId, rid: RideId, now: Time)
    requires Inv(w)
    ensures var w' := ConfirmRide(w, caller, rid, now).w; Inv(w') && Evolves(w, w')
  {
    if rid in w.rides && ConfirmRefusal(w.rides[rid], caller).None? {
      var data := ConfirmUpdate(w.rides[rid], caller);
      RowStep(w, rid, WithConfirm(w.rides[rid], data, now), if data.completes then [rid] else []);
    }
  }

  /** Writing one request row without touching an accepted one loses no acceptance. */
  lemma AcceptanceKept(requests: map<RequestId, RideRequest>, requests': map<RequestId, RideRequest>, rid: RideId)
    requires HasAccepted(requests, rid)
    requires RequestsLater(requests, requests')
    ensures HasAccepted(requests', rid)
  {
  }

  lemma JoinStep(w: World, caller: UserId, role: Role, rid: RideId, q: RequestId, now: Time)
    requires Inv(w)
    ensures var w' := RequestRide(w, caller, role, rid, q, now).w; Inv(w') && Evolves(w, w')
  {
    var w' := RequestRide(w, caller, role, rid, q, now).w;
    if w' != w {
      assert RideOk(w.rides[rid]);
      assert RequestOk(w.rides, w'.requests[q]);
      forall id | id in w.rides && Filled(w.rides[id]).Some? ensures HasAccepted(w'.requests, id) {
        AcceptanceKept(w.requests, w'.requests, id);
      }
      assert OnePerPassenger(w'.requests);
    }
  }

  /** After an acceptance every request agrees with the side it filled. */
  lemma AcceptRequestsOk(rides: map<RideId, Ride>, requests: map<RequestId, RideRequest>, rid: RideId, q: RequestId)
    requires RidesOk(rides) && RequestsOk(rides, requests)
    requires rid in rides && rides[rid].status.Searching?
    requires q in requests && requests[q].rideId == rid && requests[q].status.Pending?
    ensures var requests' := DeclineOthers(requests[q := requests[q].(status := Accepted)], rid, q);
            var rides' := rides[rid := MatchedWith(rides[rid], requests[q].passengerId)];
            RidesOk(rides') && RequestsOk(rides', requests')
  {
  }

  /** After an acceptance every filled side has its accepted request. */
  lemma AcceptFills(rides: map<RideId, Ride>, requests: map<RequestId, RideRequest>, rid: RideId, q: RequestId)
    requires FilledByRequest(rides, requests)
    requires rid in rides && rides[rid].status.Searching?
    requires q in requests && requests[q].rideId == rid && requests[q].status.Pending?
    ensures var requests' := DeclineOthers(requests[q := requests[q].(status := Accepted)], rid, q);
            var rides' := rides[rid := MatchedWith(rides[rid], requests[q].passengerId)];
            FilledByRequest(rides', requests')
  {
    var requests' := DeclineOthers(requests[q := requests[q].(status := Accepted)], rid, q);
    var rides' := rides[rid := MatchedWith(rides[rid], requests[q].passengerId)];
    forall id | id in rides' && Filled(rides'[id]).Some? ensures HasAccepted(requests', id) {
      if id == rid {
        assert requests'[q].status.Accepted?;
      } else {
        AcceptanceKept(requests, requests', id);
      }
    }
  }

  lemma AcceptKeeps(w: World, rid: RideId, q: RequestId)
    requires Inv(w) && rid in w.rides && w.rides[rid].status.Searching?
    requires q in w.requests && w.requests[q].rideId == rid && w.requests[q].status.Pending?
    ensures var w' := w.(requests := DeclineOthers(w.requests[q := w.requests[q].(status := Accepted)], rid, q),
                         rides := w.rides[rid := MatchedWith(w.rides[rid], w.requests[q].passengerId)]);
            Inv(w')
  {
    var rides' := w.rides[rid := MatchedWith(w.rides[rid], w.requests[q].passengerId)];
    AcceptRequestsOk(w.rides, w.requests, rid, q);
    AcceptFills(w.rides, w.requests, rid, q);
    JobsAppend(w.rides, rides', w.completionJobs, []);
    assert w.completionJobs + [] == w.completionJobs;
  }

  lemma DeclineKeeps(w: World, rid: RideId, q: RequestId)
    requires Inv(w) && q in w.requests && w.requests[q].rideId == rid && w.requests[q].status.Pending?
    ensures Inv(w.(requests := w.requests[q := w.requests[q].(status := Declined)]))
  {
    var requests' := w.requests[q := w.requests[q].(status := Declined)];
    assert RequestsLater(w.requests, requests');
    assert FilledByRequest(w.rides, requests') by {
      forall id | id in w.rides && Filled(w.rides[id]).Some? ensures HasAccepted(requests', id) {
        AcceptanceKept(w.requests, requests', id);
      }
    }
    assert RequestOk(w.rides, requests'[q]);
  }

  lemma AcceptEvolves(w: World, rid: RideId, q: RequestId)
    requires rid in w.rides && RideOk(w.rides[rid]) && w.rides[rid].status.Searching?
    requires q in w.requests && w.requests[q].status.Pending?
    ensures RidesLater(w.rides, w.rides[rid := MatchedWith(w.rides[rid], w.requests[q].passengerId)])
    ensures RequestsLater(w.requests, DeclineOthers(w.requests[q := w.requests[q].(status := Accepted)], rid, q))
  {
  }

  lemma RespondEvolves(w: World, caller: UserId, rid: RideId, q: RequestId, accept: bool)
    requires RidesOk(w.rides)
    ensures Evolves(w, RespondToRequest(w, caller, rid, q, accept).w)
  {
    if accept && RespondToRequest(w, caller, rid, q, accept).reply.Done? {
      assert RideOk(w.rides[rid]);
      AcceptEvolves(w, rid, q);
    }
  }

  lemma RespondStep(w: World, caller: UserId, rid: RideId, q: RequestId, accept: bool)
    requires Inv(w)
    ensures var w' := RespondToRequest(w, caller, rid, q, accept).w; Inv(w') && Evolves(w, w')
  {
    RespondEvolves(w, caller, rid, q, accept);
    if RespondToRequest(w, caller, rid, q, accept).reply.Done? {
      if accept {
        AcceptKeeps(w, rid, q);
      } else {
        DeclineKeeps(w, rid, q);
      }
    }
  }

  /** Every call keeps the invariant and only moves rows forward. */
  lemma Step(w: World, c: Call)
    requires Inv(w)
    ensures Inv(After(w, c)) && Evolves(w, After(w, c))
  {
    match c
    case Create(caller, role, dto, id, now) => CreateStep(w, caller, role, dto, id, now);
    case Update(caller, rid, edit, now) => UpdateStep(w, caller, rid, edit, now);
    case Cancel(caller, rid, now) => CancelStep(w, caller, rid, now);
    case Join(caller, role, rid, q, now) => JoinStep(w, caller, role, rid, q, now);
    case Respond(caller, rid, q, accept) => RespondStep(w, caller, rid, q, accept);
    case Start(caller, rid, now) => StartStep(w, caller, rid, now);
    case Confirm(caller, rid, now) => ConfirmStep(w, caller, rid, now);
    case Expire(rid) => ExpireStep(w, rid);
  }

  lemma EvolvesTransitive(w0: World, w1: World, w2: World)
    requires Evolves(w0, w1) && Evolves(w1, w2)
    ensures Evolves(w0, w2)
  {
  }

  // ---- Whole runs ----

  lemma {:induction false} RunKeepsInv(w: World, calls: seq<Call>)
    requires Inv(w)
    ensures Inv(Run(w, calls)) && Evolves(w, Run(w, calls))
    decreases |calls|
  {
    if calls == [] {
    } else {
      Step(w, calls[0]);
      RunKeepsInv(After(w, calls[0]), calls[1..]);
      EvolvesTransitive(w, After(w, calls[0]), Run(w, calls));
    }
  }

  /** The lifecycle in the words of the schema: in every state some run of calls reaches
      from empty tables, for every ride of the table. */
  lemma ReachableLifecycle(calls: seq<Call>, rid: RideId)
    requires rid in Run(EMPTY, calls).rides
    ensures
      var w := Run(EMPTY, calls);
      var r := w.rides[rid];
      && (r.kind.Offer? ==> r.riderId == Some(r.creatorId))
      && (r.kind.Request? ==> r.passengerId == Some(r.creatorId))
      && (r.riderId.Some? && r.passengerId.Some? ==> r.riderId != r.passengerId)
      && (Filled(r).None? <==> !HasAccepted(w.requests, rid))
      && (r.status.Searching? || r.status.Expired? ==> !HasAccepted(w.requests, rid))
      && (Active(r.status) ==>
            && (exists q :: q in w.requests && w.requests[q].rideId == rid && w.requests[q].status.Accepted?
                  && Filled(r) == Some(w.requests[q].passengerId))
            && (forall q :: q in w.requests && w.requests[q].rideId == rid ==> !w.requests[q].status.Pending?))
    ensures
      var w := Run(EMPTY, calls);
      forall q, q' ::
        (q in w.requests && q' in w.requests && w.requests[q].rideId == w.requests[q'].rideId == rid
         && w.requests[q].status.Accepted? && w.requests[q'].status.Accepted?) ==> q == q'
  {
    RunKeepsInv(EMPTY, calls);
    var w := Run(EMPTY, calls);
    var r := w.rides[rid];
    assert RideOk(r);
    if Filled(r).Some? {
      assert HasAccepted(w.requests, rid);
      var q :| q in w.requests && w.requests[q].rideId == rid && w.requests[q].status.Accepted?;
      assert RequestOk(w.rides, w.requests[q]);
    }
    forall q | q in w.requests && w.requests[q].rideId == rid
      ensures Filled(r).Some? ==> !w.requests[q].status.Pending?
      ensures w.requests[q].status.Accepted? ==> Filled(r) == Some(w.requests[q].passengerId)
    {
      assert RequestOk(w.rides, w.requests[q]);
    }
  }

  /** A ride is never cut loose from its past: whatever calls follow, its creator and type stay,
      and once both sides are set, rider, passenger and fare stay too. */
  lemma FrozenParticipants(before: seq<Call>, after: seq<Call>, rid: RideId)
    requires rid in Run(EMPTY, before).rides
    ensures
      var r := Run(EMPTY, before).rides[rid];
      var w' := Run(Run(EMPTY, before), after);
      && rid in w'.rides
      && w'.rides[rid].creatorId == r.creatorId
      && w'.rides[rid].kind == r.kind
      && (r.status != Searching && r.status != Expired && Filled(r).Some? ==>
            w'.rides[rid].riderId == r.riderId
            && w'.rides[rid].passengerId == r.passengerId
            && w'.rides[rid].fare == r.fare)
      && (Active(r.status) ==> Filled(r).Some?)
      && (r.status.Completed? || r.status.Cancelled? ==> w'.rides[rid].status == r.status)
  {
    RunKeepsInv(EMPTY, before);
    RunKeepsInv(Run(EMPTY, before), after);
    assert RideOk(Run(EMPTY, before).rides[rid]);
    assert Later(Run(EMPTY, before).rides[rid], Run(Run(EMPTY, before), after).rides[rid]);
  }

  /** With atomic calls a ride is completed exactly when both flags are set, and exactly one
      completion job was ever added for each completed ride and none for any other id. */
  lemma ConfirmProtocol(calls: seq<Call>, rid: RideId)
    ensures
      var w := Run(EMPTY, calls);
      && (rid in w.rides ==>
            (w.rides[rid].status.Completed? <==> w.rides[rid].riderConfirmed && w.rides[rid].passengerConfirmed))
      && multiset(w.completionJobs)[rid] == (if rid in w.rides && w.rides[rid].status.Completed? then 1 else 0)
  {
    RunKeepsInv(EMPTY, calls);
    var w := Run(EMPTY, calls);
    if rid in w.rides {
      assert RideOk(w.rides[rid]);
    }
  }
}
