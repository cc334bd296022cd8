/** How much can still happen to one ride: its status climbs a rank, and a potential
    counts the calls that can still change its rows. */
module Termination {
  import opened Domain
  import opened Rides
  import opened Lifecycle
  import opened Sums

  function StatusOf(w: World, rid: RideId): Option<RideStatus> {
    if rid in w.rides then Some(w.rides[rid].status) else None
  }

  /** The number of calls in the run that change the status of an existing ride. */
  function StatusChanges(w: World, calls: seq<Call>, rid: RideId): nat
    decreases |calls|
  {
    if calls == [] then 0
    else
      (if rid in w.rides && StatusOf(After(w, calls[0]), rid) != StatusOf(w, rid) then 1 else 0)
      + StatusChanges(After(w, calls[0]), calls[1..], rid)
  }

  lemma {:induction false} RankBoundsChanges(w: World, calls: seq<Call>, rid: RideId)
    requires Inv(w) && rid in w.rides
    ensures rid in Run(w, calls).rides
    ensures StatusChanges(w, calls, rid) <= Rank(Run(w, calls).rides[rid].status) - Rank(w.rides[rid].status)
    decreases |calls|
  {
    if calls == [] {
    } else {
      var w1 := After(w, calls[0]);
      Step(w, calls[0]);
      assert Later(w.rides[rid], w1.rides[rid]);
      RankBoundsChanges(w1, calls[1..], rid);
    }
  }

  lemma {:induction false} NoChangeBeforeCreation(w: World, calls: seq<Call>, rid: RideId)
    requires Inv(w) && rid !in w.rides
    ensures StatusChanges(w, calls, rid) <= 3
    decreases |calls|
  {
    if calls == [] {
    } else {
      var w1 := After(w, calls[0]);
      Step(w, calls[0]);
      if rid in w1.rides {
        RankBoundsChanges(w1, calls[1..], rid);
      } else {
        NoChangeBeforeCreation(w1, calls[1..], rid);
      }
    }
  }

  /** A ride changes status at most three times in any run. */
  lemma AtMostThreeStatusChanges(calls: seq<Call>, rid: RideId)
    ensures StatusChanges(EMPTY, calls, rid) <= 3
  {
    NoChangeBeforeCreation(EMPTY, calls, rid);
  }

  /** Once the ride's expiry job has run, the ride is never searching again. */
  lemma ExpiryIsFinal(before: seq<Call>, after: seq<Call>, rid: RideId)
    requires rid in Run(EMPTY, before).rides
    ensures var w := Run(After(Run(EMPTY, before), Expire(rid)), after);
            rid in w.rides && !w.rides[rid].status.Searching?
  {
    RunKeepsInv(EMPTY, before);
    var w0 := Run(EMPTY, before);
    var w1 := After(w0, Expire(rid));
    Step(w0, Expire(rid));
    RunKeepsInv(w1, after);
    assert Later(w1.rides[rid], Run(w1, after).rides[rid]);
  }

  // ---- The potential ----

  function Requesters(requests: map<RequestId, RideRequest>, rid: RideId): set<UserId> {
    set q | q in requests && requests[q].rideId == rid :: requests[q].passengerId
  }

  function PendingIds(requests: map<RequestId, RideRequest>, rid: RideId): set<RequestId> {
    set q | q in requests && requests[q].rideId == rid && requests[q].status.Pending?
  }

  /** Calls the row itself still allows: accept, start, two confirmations; or expire and cancel. */
  function RowPotential(r: Ride): nat {
    match r.status
    case Searching => 3
    case Matched => 3
    case Expired => 1
    case InProgress => if r.riderConfirmed || r.passengerConfirmed then 1 else 2
    case Completed => 0
    case Cancelled => 0
  }

  /** `users` holds everybody but the creator; each may still send a request and have it answered. */
  function Potential(w: World, rid: RideId, users: set<UserId>): int
    requires rid in w.rides
  {
    2 * (|users| - |Requesters(w.requests, rid)|) + |PendingIds(w.requests, rid)| + RowPotential(w.rides[rid])
  }

  /** The ride a request, respond, start, confirm, cancel or expire call acts on. */
  function Target(c: Call): Option<RideId> {
    match c
    case Create(_, _, _, _, _) => None
    case Update(_, _, _, _) => None
    case Cancel(_, rid, _) => Some(rid)
    case Join(_, _, rid, _, _) => Some(rid)
    case Respond(_, rid, _, _) => Some(rid)
    case Start(_, rid, _) => Some(rid)
    case Confirm(_, rid, _) => Some(rid)
    case Expire(rid) => Some(rid)
  }

  predicate Effective(w: World, c: Call, rid: RideId) {
    Target(c) == Some(rid) && After(w, c) != w
  }

  function EffectiveCalls(w: World, calls: seq<Call>, rid: RideId): nat
    decreases |calls|
  {
    if calls == [] then 0
    else
      (if Effective(w, calls[0], rid) then 1 else 0) + EffectiveCalls(After(w, calls[0]), calls[1..], rid)
  }

  /** Nobody but the creator and `users` asks to join the ride. */
  predicate JoinsBy(c: Call, rid: RideId, creator: UserId, users: set<UserId>) {
    c.Join? && c.rid == rid ==> c.caller == creator || c.caller in users
  }

  /** A call that leaves this ride's rows alone leaves its potential alone. */
  lemma SameRowsSamePotential(w: World, w': World, rid: RideId, users: set<UserId>)
    requires rid in w.rides && rid in w'.rides && RowPotential(w'.rides[rid]) == RowPotential(w.rides[rid])
    requires forall q :: q in w.requests && w.requests[q].rideId == rid ==> q in w'.requests && w'.requests[q] == w.requests[q]
    requires forall q :: q in w'.requests && w'.requests[q].rideId == rid ==> q in w.requests && w'.requests[q] == w.requests[q]
    ensures Potential(w', rid, users) == Potential(w, rid, users)
    ensures Requesters(w'.requests, rid) == Requesters(w.requests, rid)
  {
    assert Requesters(w'.requests, rid) == Requesters(w.requests, rid) by {
      forall u | u in Requesters(w'.requests, rid) ensures u in Requesters(w.requests, rid) {
        var q :| q in w'.requests && w'.requests[q].rideId == rid && w'.requests[q].passengerId == u;
        assert w.requests[q].passengerId == u;
      }
      forall u | u in Requesters(w.requests, rid) ensures u in Requesters(w'.requests, rid) {
        var q :| q in w.requests && w.requests[q].rideId == rid && w.requests[q].passengerId == u;
        assert w'.requests[q].passengerId == u;
      }
    }
    assert PendingIds(w'.requests, rid) == PendingIds(w.requests, rid);
  }

  lemma RequestersGrow(requests: map<RequestId, RideRequest>, rid: RideId, q: RequestId, req: RideRequest)
    requires q !in requests && req.rideId == rid
    ensures Requesters(requests[q := req], rid) == Requesters(requests, rid) + {req.passengerId}
  {
    var requests' := requests[q := req];
    forall u | u in Requesters(requests, rid) + {req.passengerId} ensures u in Requesters(requests', rid) {
      if u == req.passengerId {
        assert requests'[q].passengerId == u;
      } else {
        var p :| p in requests && requests[p].rideId == rid && requests[p].passengerId == u;
        assert requests'[p].passengerId == u;
      }
    }
  }

  lemma JoinSpends(requests: map<RequestId, RideRequest>, rid: RideId, q: RequestId, caller: UserId, expiresAt: Time)
    requires q !in requests && !HasRequest(requests, rid, caller)
    ensures var requests' := requests[q := RideRequest(rid, caller, Pending, expiresAt)];
            && Requesters(requests', rid) == Requesters(requests, rid) + {caller}
            && |Requesters(requests', rid)| == |Requesters(requests, rid)| + 1
            && |PendingIds(requests', rid)| == |PendingIds(requests, rid)| + 1
  {
    var req := RideRequest(rid, caller, Pending, expiresAt);
    RequestersGrow(requests, rid, q, req);
    assert caller !in Requesters(requests, rid);
    assert PendingIds(requests[q := req], rid) == PendingIds(requests, rid) + {q};
  }

  /** Answering a request leaves the requesters and settles at least that request. */
  lemma RespondSpends(w: World, caller: UserId, rid: RideId, q: RequestId, accept: bool)
    requires Inv(w) && RespondToRequest(w, caller, rid, q, accept).reply.Done?
    ensures var w' := RespondToRequest(w, caller, rid, q, accept).w;
            && Requesters(w'.requests, rid) == Requesters(w.requests, rid)
            && |PendingIds(w'.requests, rid)| < |PendingIds(w.requests, rid)|
            && rid in w'.rides && RowPotential(w'.rides[rid]) == RowPotential(w.rides[rid])
  {
    var w' := RespondToRequest(w, caller, rid, q, accept).w;
    assert forall p :: p in w.requests <==> p in w'.requests;
    assert forall p :: p in w.requests ==>
      w'.requests[p].rideId == w.requests[p].rideId && w'.requests[p].passengerId == w.requests[p].passengerId;
    SameRequesters(w.requests, w'.requests, rid);
    var before, after := PendingIds(w.requests, rid), PendingIds(w'.requests, rid);
    assert q in before && q !in after && after <= before - {q};
    SubsetSize(after, before - {q});
  }

  lemma SameRequesters(requests: map<RequestId, RideRequest>, requests': map<RequestId, RideRequest>, rid: RideId)
    requires forall p :: p in requests <==> p in requests'
    requires forall p :: p in requests ==>
      requests'[p].rideId == requests[p].rideId && requests'[p].passengerId == requests[p].passengerId
    ensures Requesters(requests', rid) == Requesters(requests, rid)
  {
  }

  /** Cancelling, starting, confirming or expiring changes at most the row, and spends on it. */
  ghost predicate RowSpent(w: World, o: Outcome, rid: RideId, r: RideId) {
    && rid in w.rides && rid in o.w.rides
    && o.w.requests == w.requests
    && RowPotential(o.w.rides[rid]) + (if r == rid && o.w != w then 1 else 0) <= RowPotential(w.rides[rid])
  }

  lemma CancelSpends(w: World, caller: UserId, r: RideId, now: Time, rid: RideId)
    requires RidesOk(w.rides) && rid in w.rides
    ensures RowSpent(w, CancelRide(w, caller, r, now), rid, r)
  {
  }

  lemma StartSpends(w: World, caller: UserId, r: RideId, now: Time, rid: RideId)
    requires RidesOk(w.rides) && rid in w.rides
    ensures RowSpent(w, StartRide(w, caller, r, now), rid, r)
  {
  }

  lemma ExpireSpends(w: World, r: RideId, rid: RideId)
    requires rid in w.rides
    ensures RowSpent(w, ExpireRide(w, r), rid, r)
  {
  }

  lemma ConfirmSpends(w: World, caller: UserId, r: RideId, now: Time, rid: RideId)
    requires RidesOk(w.rides) && rid in w.rides
    ensures RowSpent(w, ConfirmRide(w, caller, r, now), rid, r)
  {
  }

  lemma RowCallSpends(w: World, c: Call, rid: RideId)
    requires Inv(w) && rid in w.rides
    requires c.Cancel? || c.Start? || c.Confirm? || c.Expire?
    ensures RowSpent(w, Perform(w, c), rid, Target(c).value)
  {
    match c
    case Cancel(caller, r, now) => CancelSpends(w, caller, r, now, rid);
    case Start(caller, r, now) => StartSpends(w, caller, r, now, rid);
    case Confirm(caller, r, now) => ConfirmSpends(w, caller, r, now, rid);
    case Expire(r) => ExpireSpends(w, r, rid);
  }

  lemma JoinOnRideSpends(w: World, rid: RideId, q: RequestId, caller: UserId, expiresAt: Time, users: set<UserId>)
    requires rid in w.rides && Requesters(w.requests, rid) <= users && caller in users
    requires q !in w.requests && !HasRequest(w.requests, rid, caller)
    ensures var w' := w.(requests := w.requests[q := RideRequest(rid, caller, Pending, expiresAt)]);
            && Requesters(w'.requests, rid) <= users
            && Potential(w', rid, users) + 1 <= Potential(w, rid, users)
  {
    JoinSpends(w.requests, rid, q, caller, expiresAt);
  }

  lemma JoinElsewhere(w: World, rid: RideId, q: RequestId, req: RideRequest, users: set<UserId>)
    requires rid in w.rides && Requesters(w.requests, rid) <= users && q !in w.requests && req.rideId != rid
    ensures var w' := w.(requests := w.requests[q := req]);
            && Requesters(w'.requests, rid) <= users
            && Potential(w', rid, users) == Potential(w, rid, users)
  {
    SameRowsSamePotential(w, w.(requests := w.requests[q := req]), rid, users);
  }

  lemma JoinStepSpends(w: World, caller: UserId, role: Role, r: RideId, q: RequestId, now: Time,
                       rid: RideId, users: set<UserId>)
    requires rid in w.rides && Requesters(w.requests, rid) <= users
    requires r == rid ==> caller == w.rides[rid].creatorId || caller in users
    ensures var o := RequestRide(w, caller, role, r, q, now);
            && Requesters(o.w.requests, rid) <= users
            && o.w.rides == w.rides
            && Potential(o.w, rid, users) + (if r == rid && o.w != w then 1 else 0) <= Potential(w, rid, users)
  {
    if RequestRide(w, caller, role, r, q, now).reply.Done? {
      if r == rid {
        JoinOnRideSpends(w, rid, q, caller, now + REQUEST_TTL, users);
      } else {
        JoinElsewhere(w, rid, q, RideRequest(r, caller, Pending, now + REQUEST_TTL), users);
      }
    }
  }

  lemma RespondStepSpends(w: World, caller: UserId, r: RideId, q: RequestId, accept: bool,
                          rid: RideId, users: set<UserId>)
    requires Inv(w) && rid in w.rides && Requesters(w.requests, rid) <= users
    ensures var o := RespondToRequest(w, caller, r, q, accept);
            && rid in o.w.rides && Requesters(o.w.requests, rid) <= users
            && Potential(o.w, rid, users) + (if r == rid && o.w != w then 1 else 0) <= Potential(w, rid, users)
  {
    var o := RespondToRequest(w, caller, r, q, accept);
    if o.reply.Done? {
      if r == rid {
        RespondSpends(w, caller, rid, q, accept);
      } else {
        SameRowsSamePotential(w, o.w, rid, users);
      }
    }
  }

  lemma EditStepSpends(w: World, c: Call, rid: RideId, users: set<UserId>)
    requires rid in w.rides && (c.Create? || c.Update?)
    ensures var w' := After(w, c);
            && rid in w'.rides && Requesters(w'.requests, rid) == Requesters(w.requests, rid)
            && Potential(w', rid, users) == Potential(w, rid, users)
            && !Effective(w, c, rid)
  {
  }

  /** Every effective call lowers the ride's potential; no call raises it. */
  lemma StepSpends(w: World, c: Call, rid: RideId, users: set<UserId>)
    requires Inv(w) && rid in w.rides && JoinsBy(c, rid, w.rides[rid].creatorId, users)
    requires Requesters(w.requests, rid) <= users
    ensures rid in After(w, c).rides
    ensures Requesters(After(w, c).requests, rid) <= users
    ensures Potential(After(w, c), rid, users) + (if Effective(w, c, rid) then 1 else 0) <= Potential(w, rid, users)
  {
    match c
    case Create(_, _, _, _, _) => EditStepSpends(w, c, rid, users);
    case Update(_, _, _, _) => EditStepSpends(w, c, rid, users);
    case Join(caller, role, r, q, now) => JoinStepSpends(w, caller, role, r, q, now, rid, users);
    case Respond(caller, r, q, accept) => RespondStepSpends(w, caller, r, q, accept, rid, users);
    case Cancel(_, _, _) => RowCallSpends(w, c, rid);
    case Start(_, _, _) => RowCallSpends(w, c, rid);
    case Confirm(_, _, _) => RowCallSpends(w, c, rid);
    case Expire(_) => RowCallSpends(w, c, rid);
  }

  lemma {:induction false} PotentialBoundsCalls(w: World, calls: seq<Call>, rid: RideId, users: set<UserId>)
    requires Inv(w) && rid in w.rides && Requesters(w.requests, rid) <= users
    requires forall i :: 0 <= i < |calls| ==> JoinsBy(calls[i], rid, w.rides[rid].creatorId, users)
    ensures EffectiveCalls(w, calls, rid) <= Potential(w, rid, users)
    decreases |calls|
  {
    if calls == [] {
      SubsetSize(Requesters(w.requests, rid), users);
    } else {
      var w1 := After(w, calls[0]);
      Step(w, calls[0]);
      assert Later(w.rides[rid], w1.rides[rid]);
      StepSpends(w, calls[0], rid, users);
      PotentialBoundsCalls(w1, calls[1..], rid, users);
    }
  }

  /** A ride that is just being created has no requests yet, so its potential is 2n + 3. */
  lemma FreshPotential(w: World, c: Call, rid: RideId, users: set<UserId>)
    requires Inv(w) && rid !in w.rides && rid in After(w, c).rides
    ensures var w' := After(w, c);
            Requesters(w'.requests, rid) == {} && Potential(w', rid, users) == 2 * |users| + 3
  {
    assert c.Create?;
    assert After(w, c).requests == w.requests;
    forall q | q in w.requests ensures w.requests[q].rideId != rid {
      assert RequestOk(w.rides, w.requests[q]);
    }
    assert Requesters(w.requests, rid) == {};
    assert PendingIds(w.requests, rid) == {};
  }

  /** With n users besides the creator, a newly created ride admits at most 2n + 3 effective
      request, respond, start, confirm, cancel or expire calls, whatever else happens. */
  lemma EffectiveCallsBounded(before: seq<Call>, c: Call, calls: seq<Call>, rid: RideId, users: set<UserId>)
    requires rid !in Run(EMPTY, before).rides && rid in After(Run(EMPTY, before), c).rides
    requires forall i :: 0 <= i < |calls| ==>
               JoinsBy(calls[i], rid, After(Run(EMPTY, before), c).rides[rid].creatorId, users)
    ensures EffectiveCalls(After(Run(EMPTY, before), c), calls, rid) <= 2 * |users| + 3
  {
    var w := Run(EMPTY, before);
    RunKeepsInv(EMPTY, before);
    Step(w, c);
    FreshPotential(w, c, rid, users);
    PotentialBoundsCalls(After(w, c), calls, rid, users);
  }
}
