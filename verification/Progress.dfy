/** What callers can rely on: refusals have no effect, answers are final, and the parties of a
    ride can always bring it to an end, by completing it or by giving it up. */
module Progress {
  import opened Domain
  import opened Rides
  import opened Lifecycle
  import ConfirmRace

  // ---- Replies and effects ----

  /** A refused call changes nothing. A call that is not an edit and not the expiry job does
      something exactly when it is not refused. */
  lemma EffectiveIffDone(w: World, c: Call)
    ensures Perform(w, c).reply.Failed? ==> After(w, c) == w
    ensures !c.Update? && !c.Expire? ==> (Perform(w, c).reply.Done? <==> After(w, c) != w)
  {
  }

  // ---- Answers ----

  /** An acceptance fills the empty side with the requester, leaves the ride's other requests
      answered, and concerns no other ride; a refusal concerns that one request. */
  lemma AnswerReach(w: World, caller: UserId, rid: RideId, q: RequestId, accept: bool)
    requires Inv(w) && RespondToRequest(w, caller, rid, q, accept).reply.Done?
    ensures
      var w' := RespondToRequest(w, caller, rid, q, accept).w;
      && rid in w'.rides && q in w'.requests && q in w.requests && w.requests[q].rideId == rid
      && (forall id :: id in w.rides && (id != rid || !accept) ==> id in w'.rides && w'.rides[id] == w.rides[id])
      && (forall p :: p in w.requests && (w.requests[p].rideId != rid || (p != q && !accept)) ==>
            p in w'.requests && w'.requests[p] == w.requests[p])
      && (if accept
          then Filled(w'.rides[rid]) == Some(w.requests[q].passengerId)
               && forall p :: p in w'.requests && w'.requests[p].rideId == rid ==>
                    && (w'.requests[p].status.Accepted? <==> p == q)
                    && (p != q && w.requests[p].status.Pending? ==> w'.requests[p].status.Declined?)
                    && !w'.requests[p].status.Pending?
          else w'.requests[q].status.Declined?)
  {
    if accept {
      AcceptReach(w, caller, rid, q);
    } else {
      RefusalReach(w, caller, rid, q);
    }
  }

  lemma RefusalReach(w: World, caller: UserId, rid: RideId, q: RequestId)
    requires RespondToRequest(w, caller, rid, q, false).reply.Done?
    ensures
      var w' := RespondToRequest(w, caller, rid, q, false).w;
      && rid in w.rides && q in w.requests && w.requests[q].rideId == rid
      && w'.rides == w.rides && q in w'.requests && w'.requests[q].status.Declined?
      && forall p :: p in w.requests && p != q ==> p in w'.requests && w'.requests[p] == w.requests[p]
  {
  }

  lemma AcceptReach(w: World, caller: UserId, rid: RideId, q: RequestId)
    requires Inv(w) && RespondToRequest(w, caller, rid, q, true).reply.Done?
    ensures
      var w' := RespondToRequest(w, caller, rid, q, true).w;
      && rid in w.rides && rid in w'.rides && q in w.requests && q in w'.requests && w.requests[q].rideId == rid
      && Filled(w'.rides[rid]) == Some(w.requests[q].passengerId)
      && (forall id :: id in w.rides && id != rid ==> id in w'.rides && w'.rides[id] == w.rides[id])
      && (forall p :: p in w.requests && w.requests[p].rideId != rid ==> p in w'.requests && w'.requests[p] == w.requests[p])
      && (forall p :: p in w'.requests && w'.requests[p].rideId == rid ==>
            && p in w.requests && (w'.requests[p].status.Accepted? <==> p == q)
            && (p != q && w.requests[p].status.Pending? ==> w'.requests[p].status.Declined?)
            && !w'.requests[p].status.Pending?)
  {
    NoOtherAccepted(w, caller, rid, q);
  }

  /** Where one request is being accepted, no other was. */
  lemma NoOtherAccepted(w: World, caller: UserId, rid: RideId, q: RequestId)
    requires Inv(w) && RespondToRequest(w, caller, rid, q, true).reply.Done?
    ensures forall p :: p in w.requests && w.requests[p].rideId == rid ==> !w.requests[p].status.Accepted?
  {
    assert RideOk(w.rides[rid]);
    forall p | p in w.requests && w.requests[p].rideId == rid ensures !w.requests[p].status.Accepted? {
      assert RequestOk(w.rides, w.requests[p]);
    }
  }

  /** A user gets one request per ride, ever: whatever became of it, no later one goes through. */
  lemma OneRequestEver(before: seq<Call>, after: seq<Call>, q: RequestId, role: Role, id: RequestId, now: Time)
    requires q in Run(EMPTY, before).requests
    ensures
      var req := Run(EMPTY, before).requests[q];
      RequestRide(Run(Run(EMPTY, before), after), req.passengerId, role, req.rideId, id, now).reply.Failed?
  {
    var w := Run(EMPTY, before);
    RunKeepsInv(EMPTY, before);
    RunKeepsInv(w, after);
    var w' := Run(w, after);
    assert RequestLater(w.requests[q], w'.requests[q]);
    assert HasRequest(w'.requests, w.requests[q].rideId, w.requests[q].passengerId);
  }

  // ---- Giving up ----

  /** The creator, and only the creator, can cancel: exactly while the ride has neither been
      started nor been cancelled before. */
  lemma CancelUntilStarted(calls: seq<Call>, rid: RideId, caller: UserId, now: Time)
    requires rid in Run(EMPTY, calls).rides
    ensures
      var w := Run(EMPTY, calls);
      CancelRide(w, caller, rid, now).reply.Done?
      <==> caller == w.rides[rid].creatorId && w.rides[rid].startedAt.None? && w.rides[rid].cancelledAt.None?
  {
    RunKeepsInv(EMPTY, calls);
    assert RideOk(Run(EMPTY, calls).rides[rid]);
  }

  // ---- Completing ----

  function DriverOf(r: Ride, requester: UserId): UserId {
    if r.kind.Offer? then r.creatorId else requester
  }

  function TravellerOf(r: Ride, requester: UserId): UserId {
    if r.kind.Offer? then requester else r.creatorId
  }

  lemma JoinGoesThrough(w: World, rid: RideId, user: UserId, q: RequestId, now: Time)
    requires rid in w.rides && w.rides[rid].status.Searching? && user != w.rides[rid].creatorId
    requires q !in w.requests && !HasRequest(w.requests, rid, user)
    ensures var w' := After(w, Join(user, if w.rides[rid].kind.Offer? then Passenger else Rider, rid, q, now));
            && w'.rides == w.rides && w'.completionJobs == w.completionJobs && q in w'.requests
            && w'.requests[q].rideId == rid && w'.requests[q].passengerId == user && w'.requests[q].status.Pending?
  {
  }

  lemma AcceptThenStart(w: World, rid: RideId, q: RequestId, now: Time)
    requires rid in w.rides && w.rides[rid].status.Searching? && RideOk(w.rides[rid])
    requires q in w.requests && w.requests[q].rideId == rid && w.requests[q].status.Pending?
    requires w.requests[q].passengerId != w.rides[rid].creatorId
    ensures
      var r, requester := w.rides[rid], w.requests[q].passengerId;
      var rider, passenger := DriverOf(r, requester), TravellerOf(r, requester);
      var w' := After(After(w, Respond(r.creatorId, rid, q, true)), Start(rider, rid, now));
      ConfirmRace.Started(w', rid, rider, passenger) && w'.completionJobs == w.completionJobs
      && w'.rides[rid].fare == r.fare
  {
  }

  /** From any reachable state, a searching ride can be completed with any other user who has not
      asked before: join, accept, start, and the two confirmations in either order all go
      through, and end in a completed ride with both sides set and one completion job. */
  lemma AnyoneCanRide(calls: seq<Call>, rid: RideId, user: UserId, q: RequestId, riderFirst: bool, now: Time)
    requires
      var w := Run(EMPTY, calls);
      && rid in w.rides && w.rides[rid].status.Searching? && user != w.rides[rid].creatorId
      && q !in w.requests && !HasRequest(w.requests, rid, user)
    ensures
      var w := Run(EMPTY, calls);
      var r := w.rides[rid];
      var rider, passenger := DriverOf(r, user), TravellerOf(r, user);
      var w1 := After(w, Join(user, if r.kind.Offer? then Passenger else Rider, rid, q, now));
      var w3 := After(After(w1, Respond(r.creatorId, rid, q, true)), Start(rider, rid, now));
      var first, second := if riderFirst then rider else passenger, if riderFirst then passenger else rider;
      var w5 := After(After(w3, Confirm(first, rid, now)), Confirm(second, rid, now));
      && rid in w5.rides && w5.rides[rid].status.Completed?
      && w5.completionJobs == w.completionJobs + [rid]
  {
    var w := Run(EMPTY, calls);
    RunKeepsInv(EMPTY, calls);
    var r := w.rides[rid];
    assert RideOk(r);
    var rider, passenger := DriverOf(r, user), TravellerOf(r, user);
    JoinGoesThrough(w, rid, user, q, now);
    var w1 := After(w, Join(user, if r.kind.Offer? then Passenger else Rider, rid, q, now));
    AcceptThenStart(w1, rid, q, now);
    ConfirmRace.AtomicPairCompletes(After(After(w1, Respond(r.creatorId, rid, q, true)), Start(rider, rid, now)),
                                    rid, rider, passenger, riderFirst, now);
  }

  // ---- Refusals ----

  /** The ride a call on an existing ride names. */
  function RideOf(c: Call): Option<RideId> {
    match c
    case Create(_, _, _, _, _) => None
    case Update(_, rid, _, _) => Some(rid)
    case Cancel(_, rid, _) => Some(rid)
    case Join(_, _, rid, _, _) => Some(rid)
    case Respond(_, rid, _, _) => Some(rid)
    case Start(_, rid, _) => Some(rid)
    case Confirm(_, rid, _) => Some(rid)
    case Expire(_) => None
  }

  /** May this user make this kind of call on this ride at all, whatever state it is in? */
  predicate IsParty(r: Ride, c: Call) {
    match c
    case Update(caller, _, _, _) => caller == r.creatorId
    case Cancel(caller, _, _) => caller == r.creatorId
    case Join(caller, _, _, _, _) => caller != r.creatorId
    case Respond(caller, _, _, _) => caller == r.creatorId
    case Start(caller, _, _) => r.riderId == Some(caller)
    case Confirm(caller, _, _) => r.riderId == Some(caller) || r.passengerId == Some(caller)
    case _ => true
  }

  /** The status a call of this kind needs. */
  predicate RightTime(r: Ride, c: Call) {
    match c
    case Cancel(_, _, _) => !r.status.InProgress? && !r.status.Completed? && !r.status.Cancelled?
    case Start(_, _, _) => r.status.Matched?
    case Confirm(_, _, _) => r.status.InProgress?
    case _ => r.status.Searching?
  }

  /** Every refusal has its reason, and the reasons have one order: no such ride; not this user's
      call; not in this status; and then what is particular to the call. */
  lemma RefusedInOrder(w: World, c: Call)
    requires RideOf(c).Some?
    ensures
      var reply := Perform(w, c).reply;
      if RideOf(c).value !in w.rides then reply == Failed(NotFound)
      else
        var r := w.rides[RideOf(c).value];
        if !IsParty(r, c) then reply == Failed(Forbidden)
        else if !RightTime(r, c) then reply == Failed(Conflict)
        else match c
          case Update(_, _, edit, now) =>
            reply == if edit.scheduledAt.Some? && edit.scheduledAt.value <= now then Failed(BadRequest) else Done
          case Join(caller, role, rid, q, _) =>
            if role != (if r.kind.Offer? then Passenger else Rider) then reply == Failed(Forbidden)
            else if exists p :: p in w.requests && w.requests[p].rideId == rid && w.requests[p].passengerId == caller
            then reply == Failed(Duplicate)
            else reply == if q in w.requests then Failed(UniqueViolation) else Done
          case Respond(_, rid, q, _) =>
            if q !in w.requests || w.requests[q].rideId != rid then reply == Failed(NotFound)
            else reply == if w.requests[q].status.Pending? then Done else Failed(Conflict)
          case Confirm(caller, _, _) =>
            reply == if (r.riderId == Some(caller) && r.riderConfirmed) || (r.riderId != Some(caller) && r.passengerConfirmed)
                     then Failed(Conflict) else Done
          case _ => reply == Done
  {
  }
}
