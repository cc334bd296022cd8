/** The confirm protocol when a call's read and its write are separate database statements:
    confirm, start, cancel and the expiry worker each read the row, decide, and write later. A
    confirmation that completes the ride adds its job in a statement of its own. */
module ConfirmRace {
  import opened Domain
  import opened Rides
  import opened Lifecycle

  /** A call between its read and its write, or between its write and its job, with the row it read. */
  datatype InFlight =
    | Confirming(rid: RideId, caller: UserId, seen: Ride)
    | Starting(rid: RideId, seen: Ride)
    | Cancelling(rid: RideId, seen: Ride)
    | Expiring(rid: RideId, seen: Ride)
    | Adding(rid: RideId, seen: Ride)

  /** The tables and the calls that have read but not yet written. */
  datatype Machine = Machine(w: World, inFlight: map<nat, InFlight>)

  datatype Move =
    | Atomic(call: Call)
    | ReadForConfirm(id: nat, rid: RideId, caller: UserId)
    | ReadForStart(id: nat, rid: RideId, caller: UserId)
    | ReadForCancel(id: nat, rid: RideId, caller: UserId)
    | ReadForExpiry(id: nat, rid: RideId)
    | Write(id: nat, now: Time)
    | Add(id: nat)

  /** The four split calls never appear as atomic ones. */
  predicate Legal(m: Move) {
    m.Atomic? ==> m.call.Create? || m.call.Update? || m.call.Join? || m.call.Respond?
  }

  function WriteRow(r: Ride, f: InFlight, now: Time): Ride {
    match f
    case Confirming(_, caller, seen) => WithConfirm(r, ConfirmUpdate(seen, caller), now)
    case Starting(_, _) => r.(status := InProgress, startedAt := Some(now))
    case Cancelling(_, _) => r.(status := Cancelled, cancelledAt := Some(now))
    case Expiring(_, _) => r.(status := Expired)
    case Adding(_, _) => r
  }

  /** Has the call still to add the ride's job once it has written the row? */
  predicate Completes(f: InFlight) {
    f.Confirming? && ConfirmUpdate(f.seen, f.caller).completes
  }

  function Next(s: Machine, m: Move): Machine {
    match m
    case Atomic(call) => s.(w := After(s.w, call))
    case ReadForConfirm(id, rid, caller) =>
      if rid in s.w.rides && ConfirmRefusal(s.w.rides[rid], caller).None? && id !in s.inFlight
      then s.(inFlight := s.inFlight[id := Confirming(rid, caller, s.w.rides[rid])])
      else s
    case ReadForStart(id, rid, caller) =>
      if rid in s.w.rides && s.w.rides[rid].riderId == Some(caller) && s.w.rides[rid].status.Matched? && id !in s.inFlight
      then s.(inFlight := s.inFlight[id := Starting(rid, s.w.rides[rid])])
      else s
    case ReadForCancel(id, rid, caller) =>
      if rid in s.w.rides && s.w.rides[rid].creatorId == caller && Cancellable(s.w.rides[rid].status) && id !in s.inFlight
      then s.(inFlight := s.inFlight[id := Cancelling(rid, s.w.rides[rid])])
      else s
    case ReadForExpiry(id, rid) =>
      if rid in s.w.rides && s.w.rides[rid].status.Searching? && id !in s.inFlight
      then s.(inFlight := s.inFlight[id := Expiring(rid, s.w.rides[rid])])
      else s
    case Write(id, now) =>
      if id in s.inFlight && !s.inFlight[id].Adding? && s.inFlight[id].rid in s.w.rides then
        var f := s.inFlight[id];
        Machine(s.w.(rides := s.w.rides[f.rid := WriteRow(s.w.rides[f.rid], f, now)]),
                if Completes(f) then s.inFlight[id := Adding(f.rid, f.seen)] else s.inFlight - {id})
      else s
    case Add(id) =>
      if id in s.inFlight && s.inFlight[id].Adding?
      then Machine(s.w.(completionJobs := s.w.completionJobs + [s.inFlight[id].rid]), s.inFlight - {id})
      else s
  }

  function Play(s: Machine, moves: seq<Move>): Machine
    decreases |moves|
  {
    if moves == [] then s else Play(Next(s, moves[0]), moves[1..])
  }

  const START := Machine(EMPTY, map[])

  // ---- What survives every interleaving ----

  predicate RowSafe(r: Ride) {
    && (r.kind.Offer? ==> r.riderId == Some(r.creatorId))
    && (r.kind.Request? ==> r.passengerId == Some(r.creatorId))
    && Filled(r) != Some(r.creatorId)
    && (r.status.Completed? ==> r.riderConfirmed && r.passengerConfirmed)
  }

  /** A row read earlier: its flags are still set now. */
  predicate Stale(seen: Ride, r: Ride) {
    && RowSafe(seen)
    && (seen.riderConfirmed ==> r.riderConfirmed)
    && (seen.passengerConfirmed ==> r.passengerConfirmed)
  }

  ghost predicate RowsSafe(rides: map<RideId, Ride>) {
    forall rid :: rid in rides ==> RowSafe(rides[rid])
  }

  ghost predicate FromOthers(rides: map<RideId, Ride>, requests: map<RequestId, RideRequest>) {
    forall q :: q in requests ==>
      requests[q].rideId in rides && requests[q].passengerId != rides[requests[q].rideId].creatorId
  }

  ghost predicate ReadsSafe(rides: map<RideId, Ride>, inFlight: map<nat, InFlight>) {
    forall id :: id in inFlight ==> inFlight[id].rid in rides && Stale(inFlight[id].seen, rides[inFlight[id].rid])
  }

  ghost predicate Safe(s: Machine) {
    RowsSafe(s.w.rides) && FromOthers(s.w.rides, s.w.requests) && ReadsSafe(s.w.rides, s.inFlight)
  }

  /** Rows whose creator stays and whose flags only rise keep every earlier read stale, not wrong. */
  predicate Grows(r: Ride, r': Ride) {
    && r'.creatorId == r.creatorId
    && (r.riderConfirmed ==> r'.riderConfirmed)
    && (r.passengerConfirmed ==> r'.passengerConfirmed)
  }

  lemma ReadsKept(rides: map<RideId, Ride>, rides': map<RideId, Ride>, inFlight: map<nat, InFlight>)
    requires ReadsSafe(rides, inFlight)
    requires forall rid :: rid in rides ==> rid in rides' && Grows(rides[rid], rides'[rid])
    ensures ReadsSafe(rides', inFlight)
  {
  }

  ghost predicate SafelyGrown(w: World, w': World) {
    RowsSafe(w'.rides) && forall rid :: rid in w.rides ==> rid in w'.rides && Grows(w.rides[rid], w'.rides[rid])
  }

  lemma UpdateKeepsSafe(w: World, caller: UserId, rid: RideId, edit: UpdateRideDto, now: Time)
    requires RowsSafe(w.rides)
    ensures SafelyGrown(w, UpdateRide(w, caller, rid, edit, now).w)
  {
  }

  lemma RespondKeepsSafe(w: World, caller: UserId, rid: RideId, q: RequestId, accept: bool)
    requires RowsSafe(w.rides) && FromOthers(w.rides, w.requests)
    ensures SafelyGrown(w, RespondToRequest(w, caller, rid, q, accept).w)
  {
    if rid in w.rides {
      assert RowSafe(w.rides[rid]);
    }
  }

  lemma AtomicKeeps(w: World, c: Call)
    requires RowsSafe(w.rides) && FromOthers(w.rides, w.requests) && Legal(Atomic(c))
    ensures SafelyGrown(w, After(w, c))
  {
    match c
    case Create(_, _, _, _, _) =>
    case Update(caller, rid, edit, now) => UpdateKeepsSafe(w, caller, rid, edit, now);
    case Join(_, _, _, _, _) =>
    case Respond(caller, rid, q, accept) => RespondKeepsSafe(w, caller, rid, q, accept);
    case Cancel(_, _, _) =>
    case Start(_, _, _) =>
    case Confirm(_, _, _) =>
    case Expire(_) =>
  }

  lemma AtomicKeepsRequests(w: World, c: Call)
    requires FromOthers(w.rides, w.requests) && Legal(Atomic(c))
    ensures FromOthers(After(w, c).rides, After(w, c).requests)
  {
    match c
    case Create(_, _, _, _, _) =>
    case Update(_, _, _, _) =>
    case Join(_, _, _, _, _) =>
    case Respond(caller, rid, q, accept) =>
      var w' := After(w, c);
      forall p | p in w'.requests
        ensures w'.requests[p].rideId in w'.rides
          && w'.requests[p].passengerId != w'.rides[w'.requests[p].rideId].creatorId
      {
        assert p in w.requests;
      }
    case Cancel(_, _, _) =>
    case Start(_, _, _) =>
    case Confirm(_, _, _) =>
    case Expire(_) =>
  }

  /** The heart: a write decided on a stale row still cannot complete a ride with a flag missing. */
  lemma WriteKeepsRow(r: Ride, f: InFlight, now: Time)
    requires RowSafe(r) && Stale(f.seen, r)
    ensures RowSafe(WriteRow(r, f, now)) && Grows(r, WriteRow(r, f, now))
  {
  }

  lemma WriteKeeps(s: Machine, id: nat, now: Time)
    requires Safe(s) && id in s.inFlight && !s.inFlight[id].Adding?
    ensures Safe(Next(s, Write(id, now)))
  {
    var f := s.inFlight[id];
    assert Stale(f.seen, s.w.rides[f.rid]);
    assert RowSafe(s.w.rides[f.rid]);
    WriteKeepsRow(s.w.rides[f.rid], f, now);
    var rides' := s.w.rides[f.rid := WriteRow(s.w.rides[f.rid], f, now)];
    ReadsKept(s.w.rides, rides', s.inFlight);
    assert forall k :: k in s.inFlight - {id} ==> k in s.inFlight;
    assert Stale(f.seen, rides'[f.rid]);
    assert FromOthers(rides', s.w.requests);
  }

  lemma NextKeeps(s: Machine, m: Move)
    requires Safe(s) && Legal(m)
    ensures Safe(Next(s, m))
  {
    match m
    case Atomic(c) =>
      AtomicKeeps(s.w, c);
      AtomicKeepsRequests(s.w, c);
      ReadsKept(s.w.rides, After(s.w, c).rides, s.inFlight);
    case Write(id, now) =>
      if id in s.inFlight && !s.inFlight[id].Adding? {
        WriteKeeps(s, id, now);
      }
    case Add(_) =>
    case ReadForConfirm(_, _, _) =>
    case ReadForStart(_, _, _) =>
    case ReadForCancel(_, _, _) =>
    case ReadForExpiry(_, _) =>
  }

  lemma {:induction false} PlayKeeps(s: Machine, moves: seq<Move>)
    requires Safe(s) && forall i :: 0 <= i < |moves| ==> Legal(moves[i])
    ensures Safe(Play(s, moves))
    decreases |moves|
  {
    if moves == [] {
    } else {
      NextKeeps(s, moves[0]);
      PlayKeeps(Next(s, moves[0]), moves[1..]);
    }
  }

  /** In every interleaving of the split calls with everything else, a completed ride
      has both confirmations. */
  lemma CompletedHasBothFlags(moves: seq<Move>, rid: RideId)
    requires forall i :: 0 <= i < |moves| ==> Legal(moves[i])
    requires rid in Play(START, moves).w.rides
    ensures var r := Play(START, moves).w.rides[rid];
            r.status.Completed? ==> r.riderConfirmed && r.passengerConfirmed
  {
    PlayKeeps(START, moves);
    assert RowSafe(Play(START, moves).w.rides[rid]);
  }

  lemma BackToBackConfirm(s: Machine, id: nat, rid: RideId, caller: UserId, now: Time)
    requires id !in s.inFlight
    ensures Next(Next(Next(s, ReadForConfirm(id, rid, caller)), Write(id, now)), Add(id))
         == s.(w := After(s.w, Confirm(caller, rid, now)))
  {
    assert s.w.completionJobs + [] == s.w.completionJobs;
    if rid in s.w.rides {
      var r := s.w.rides[rid];
      assert s.inFlight[id := Confirming(rid, caller, r)] - {id} == s.inFlight;
      assert s.inFlight[id := Confirming(rid, caller, r)][id := Adding(rid, r)] - {id} == s.inFlight;
    }
  }

  /** A read followed at once by its write, and by its job if it has one to add, is the atomic call. */
  lemma BackToBackIsAtomic(s: Machine, id: nat, rid: RideId, caller: UserId, now: Time)
    requires id !in s.inFlight
    ensures Next(Next(Next(s, ReadForConfirm(id, rid, caller)), Write(id, now)), Add(id))
         == s.(w := After(s.w, Confirm(caller, rid, now)))
    ensures Next(Next(s, ReadForStart(id, rid, caller)), Write(id, now))
         == s.(w := After(s.w, Start(caller, rid, now)))
    ensures Next(Next(s, ReadForCancel(id, rid, caller)), Write(id, now))
         == s.(w := After(s.w, Cancel(caller, rid, now)))
    ensures Next(Next(s, ReadForExpiry(id, rid)), Write(id, now))
         == s.(w := After(s.w, Expire(rid)))
  {
    BackToBackConfirm(s, id, rid, caller, now);
    if rid in s.w.rides {
      var r := s.w.rides[rid];
      assert s.inFlight[id := Starting(rid, r)] - {id} == s.inFlight;
      assert s.inFlight[id := Cancelling(rid, r)] - {id} == s.inFlight;
      assert s.inFlight[id := Expiring(rid, r)] - {id} == s.inFlight;
    }
  }

  // ---- The pair, one call after the other ----

  predicate Started(w: World, rid: RideId, rider: UserId, passenger: UserId) {
    && rid in w.rides && w.rides[rid].status.InProgress?
    && w.rides[rid].riderId == Some(rider) && w.rides[rid].passengerId == Some(passenger)
    && rider != passenger
    && !w.rides[rid].riderConfirmed && !w.rides[rid].passengerConfirmed
  }

  /** Two atomic confirmations, in either order, complete a started ride and add its job. */
  lemma AtomicPairCompletes(w: World, rid: RideId, rider: UserId, passenger: UserId, riderFirst: bool, now: Time)
    requires Started(w, rid, rider, passenger)
    ensures
      var first, second := if riderFirst then rider else passenger, if riderFirst then passenger else rider;
      var w' := After(After(w, Confirm(first, rid, now)), Confirm(second, rid, now));
      && rid in w'.rides && w'.rides[rid].status.Completed?
      && w'.rides[rid].riderConfirmed && w'.rides[rid].passengerConfirmed
      && w'.completionJobs == w.completionJobs + [rid]
  {
  }
}
