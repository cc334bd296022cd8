/** The ride and request tables, the two ride queues, and each service call of
    src/modules/rides/rides.service.ts as a function from tables to tables. */
module Rides {
  import opened Domain

  const REQUEST_TTL: Time := 15 * 60 * 1000

  /** `expiryJobs` holds the delayed job `expire-<id>` of each ride with its firing time;
      `completionJobs` lists every completion job ever added, in order. */
  datatype World = World(
    rides: map<RideId, Ride>,
    requests: map<RequestId, RideRequest>,
    expiryJobs: map<RideId, Time>,
    completionJobs: seq<RideId>)

  const EMPTY := World(map[], map[], map[], [])

  datatype Outcome = Outcome(w: World, reply: Reply)

  datatype CreateRideDto = CreateRideDto(
    kind: RideType,
    origin: Place,
    dest: Place,
    fare: Cents,
    seatsAvailable: Option<nat>,
    genderPref: Option<GenderPref>,
    scheduledAt: Time)

  datatype UpdateRideDto = UpdateRideDto(
    fare: Option<Cents>,
    seatsAvailable: Option<nat>,
    scheduledAt: Option<Time>,
    genderPref: Option<GenderPref>)

  function GetOr<T>(o: Option<T>, default: T): T {
    if o.Some? then o.value else default
  }

  /** The row `createRide` inserts: the creator takes the side of their role. */
  function NewRide(caller: UserId, dto: CreateRideDto): Ride {
    Ride(caller,
         if dto.kind.Offer? then Some(caller) else None,
         if dto.kind.Offer? then None else Some(caller),
         dto.kind, Searching, dto.origin, dto.dest, dto.fare,
         GetOr(dto.seatsAvailable, 1), GetOr(dto.genderPref, Any), dto.scheduledAt,
         None, None, None, false, false)
  }

  function CreateRide(w: World, caller: UserId, role: Role, dto: CreateRideDto, id: RideId, now: Time): Outcome {
    if dto.kind.Offer? && role != Rider then Outcome(w, Failed(Forbidden))
    else if dto.kind.Request? && role != Passenger then Outcome(w, Failed(Forbidden))
    else if dto.scheduledAt <= now then Outcome(w, Failed(BadRequest))
    else if id in w.rides then Outcome(w, Failed(UniqueViolation))
    else
      Outcome(w.(rides := w.rides[id := NewRide(caller, dto)],
                 expiryJobs := w.expiryJobs[id := dto.scheduledAt]), Done)
  }

  function Edited(r: Ride, dto: UpdateRideDto): Ride {
    r.(fare := GetOr(dto.fare, r.fare),
       seatsAvailable := GetOr(dto.seatsAvailable, r.seatsAvailable),
       scheduledAt := GetOr(dto.scheduledAt, r.scheduledAt),
       genderPref := GetOr(dto.genderPref, r.genderPref))
  }

  function UpdateRide(w: World, caller: UserId, rid: RideId, dto: UpdateRideDto, now: Time): Outcome {
    if rid !in w.rides then Outcome(w, Failed(NotFound))
    else
      var ride := w.rides[rid];
      if ride.creatorId != caller then Outcome(w, Failed(Forbidden))
      else if ride.status != Searching then Outcome(w, Failed(Conflict))
      else if dto.scheduledAt.Some? && dto.scheduledAt.value <= now then Outcome(w, Failed(BadRequest))
      else Outcome(w.(rides := w.rides[rid := Edited(ride, dto)]), Done)
  }

  /** The statuses from which `cancelRide` goes ahead; an expired ride is one of them. */
  predicate Cancellable(s: RideStatus) {
    !(s.InProgress? || s.Completed? || s.Cancelled?)
  }

  function CancelRide(w: World, caller: UserId, rid: RideId, now: Time): Outcome {
    if rid !in w.rides then Outcome(w, Failed(NotFound))
    else
      var ride := w.rides[rid];
      if ride.creatorId != caller then Outcome(w, Failed(Forbidden))
      else if !Cancellable(ride.status) then Outcome(w, Failed(Conflict))
      else Outcome(w.(rides := w.rides[rid := ride.(status := Cancelled, cancelledAt := Some(now))]), Done)
  }

  /** `findRequest`: is there a row under the unique key (ride, passenger)? */
  predicate HasRequest(requests: map<RequestId, RideRequest>, rid: RideId, user: UserId) {
    exists q :: q in requests && requests[q].rideId == rid && requests[q].passengerId == user
  }

  function RequestRide(w: World, caller: UserId, role: Role, rid: RideId, id: RequestId, now: Time): Outcome {
    if rid !in w.rides then Outcome(w, Failed(NotFound))
    else
      var ride := w.rides[rid];
      if ride.creatorId == caller then Outcome(w, Failed(Forbidden))
      else if ride.status != Searching then Outcome(w, Failed(Conflict))
      else if ride.kind.Offer? && role != Passenger then Outcome(w, Failed(Forbidden))
      else if ride.kind.Request? && role != Rider then Outcome(w, Failed(Forbidden))
      else if HasRequest(w.requests, rid, caller) then Outcome(w, Failed(Duplicate))
      else if id in w.requests then Outcome(w, Failed(UniqueViolation))
      else Outcome(w.(requests := w.requests[id := RideRequest(rid, caller, Pending, now + REQUEST_TTL)]), Done)
  }

  /** The `updateMany` of `acceptRequestTx`: every other pending request of the ride is declined. */
  function DeclineOthers(requests: map<RequestId, RideRequest>, rid: RideId, keep: RequestId): map<RequestId, RideRequest> {
    map q | q in requests ::
      if requests[q].rideId == rid && requests[q].status.Pending? && q != keep
      then requests[q].(status := Declined)
      else requests[q]
  }

  /** The ride row after a match: the requester fills the side the post left empty. */
  function MatchedWith(r: Ride, requester: UserId): Ride {
    if r.kind.Offer?
    then r.(status := Matched, passengerId := Some(requester))
    else r.(status := Matched, riderId := Some(requester))
  }

  function RespondToRequest(w: World, caller: UserId, rid: RideId, q: RequestId, accept: bool): Outcome {
    if rid !in w.rides then Outcome(w, Failed(NotFound))
    else
      var ride := w.rides[rid];
      if ride.creatorId != caller then Outcome(w, Failed(Forbidden))
      else if ride.status != Searching then Outcome(w, Failed(Conflict))
      else if q !in w.requests || w.requests[q].rideId != rid then Outcome(w, Failed(NotFound))
      else
        var req := w.requests[q];
        if req.status != Pending then Outcome(w, Failed(Conflict))
        else if accept then
          Outcome(w.(requests := DeclineOthers(w.requests[q := req.(status := Accepted)], rid, q),
                     rides := w.rides[rid := MatchedWith(ride, req.passengerId)]), Done)
        else
          Outcome(w.(requests := w.requests[q := req.(status := Declined)]), Done)
  }

  function StartRide(w: World, caller: UserId, rid: RideId, now: Time): Outcome {
    if rid !in w.rides then Outcome(w, Failed(NotFound))
    else
      var ride := w.rides[rid];
      if ride.riderId != Some(caller) then Outcome(w, Failed(Forbidden))
      else if ride.status != Matched then Outcome(w, Failed(Conflict))
      else Outcome(w.(rides := w.rides[rid := ride.(status := InProgress, startedAt := Some(now))]), Done)
  }

  /** The columns `confirmRide` writes, computed from the row it read. */
  datatype ConfirmData = ConfirmData(riderConfirmed: bool, passengerConfirmed: bool, completes: bool)

  function ConfirmUpdate(seen: Ride, caller: UserId): ConfirmData {
    var isRider := seen.riderId == Some(caller);
    var isPassenger := seen.passengerId == Some(caller);
    ConfirmData(isRider, !isRider,
                (isRider || seen.riderConfirmed) && (isPassenger || seen.passengerConfirmed))
  }

  /** The row `update` with those columns leaves; a column not written keeps its value. */
  function WithConfirm(r: Ride, data: ConfirmData, now: Time): Ride {
    var flagged := r.(riderConfirmed := r.riderConfirmed || data.riderConfirmed,
                      passengerConfirmed := r.passengerConfirmed || data.passengerConfirmed);
    if data.completes then flagged.(status := Completed, completedAt := Some(now)) else flagged
  }

  /** Why `confirmRide` refuses the row it read, if it does. */
  function ConfirmRefusal(seen: Ride, caller: UserId): Option<Error> {
    var isRider := seen.riderId == Some(caller);
    var isPassenger := seen.passengerId == Some(caller);
    if !isRider && !isPassenger then Some(Forbidden)
    else if seen.status != InProgress then Some(Conflict)
    else if isRider && seen.riderConfirmed then Some(Conflict)
    else if !isRider && seen.passengerConfirmed then Some(Conflict)
    else None
  }

  function ConfirmRide(w: World, caller: UserId, rid: RideId, now: Time): Outcome {
    if rid !in w.rides then Outcome(w, Failed(NotFound))
    else
      var ride := w.rides[rid];
      var refusal := ConfirmRefusal(ride, caller);
      if refusal.Some? then Outcome(w, Failed(refusal.value))
      else
        var data := ConfirmUpdate(ride, caller);
        Outcome(w.(rides := w.rides[rid := WithConfirm(ride, data, now)],
                   completionJobs := w.completionJobs + if data.completes then [rid] else []), Done)
  }

  /** src/jobs/processors/ride-expiry.processor.ts. */
  function ExpireRide(w: World, rid: RideId): Outcome {
    if rid !in w.rides || w.rides[rid].status != Searching then Outcome(w, Done)
    else Outcome(w.(rides := w.rides[rid := w.rides[rid].(status := Expired)]), Done)
  }

  datatype Call =
    | Create(caller: UserId, role: Role, dto: CreateRideDto, id: RideId, now: Time)
    | Update(caller: UserId, rid: RideId, edit: UpdateRideDto, now: Time)
    | Cancel(caller: UserId, rid: RideId, now: Time)
    | Join(caller: UserId, role: Role, rid: RideId, q: RequestId, now: Time)
    | Respond(caller: UserId, rid: RideId, q: RequestId, accept: bool)
    | Start(caller: UserId, rid: RideId, now: Time)
    | Confirm(caller: UserId, rid: RideId, now: Time)
    | Expire(rid: RideId)

  function Perform(w: World, c: Call): Outcome {
    match c
    case Create(caller, role, dto, id, now) => CreateRide(w, caller, role, dto, id, now)
    case Update(caller, rid, edit, now) => UpdateRide(w, caller, rid, edit, now)
    case Cancel(caller, rid, now) => CancelRide(w, caller, rid, now)
    case Join(caller, role, rid, q, now) => RequestRide(w, caller, role, rid, q, now)
    case Respond(caller, rid, q, accept) => RespondToRequest(w, caller, rid, q, accept)
    case Start(caller, rid, now) => StartRide(w, caller, rid, now)
    case Confirm(caller, rid, now) => ConfirmRide(w, caller, rid, now)
    case Expire(rid) => ExpireRide(w, rid)
  }

  function After(w: World, c: Call): World {
    Perform(w, c).w
  }

  /** The tables after a run of calls, each one atomic. */
  function Run(w: World, calls: seq<Call>): World
    decreases |calls|
  {
    if calls == [] then w else Run(After(w, calls[0]), calls[1..])
  }
}
