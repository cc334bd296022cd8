/** What overlapping confirmations do, over every run of the split machine: how often the
    completion job is added, which write decides the status, and when a ride is stuck. */
module Overlap {
  import opened Domain
  import opened Rides
  import Sample
  import opened ConfirmRace

  // ---- Late reads ----

  /** A confirmation that read the row with the other party's flag already set. */
  predicate Late(f: InFlight) {
    f.Confirming?
    && ((f.seen.riderId == Some(f.caller) && f.seen.passengerConfirmed)
        || (f.seen.passengerId == Some(f.caller) && f.seen.riderConfirmed))
  }

  /** The late confirmations still to be written, and those written whose job is still to be added. */
  predicate OwesJob(f: InFlight) {
    Late(f) || f.Adding?
  }

  function OwingIds(inFlight: map<nat, InFlight>, rid: RideId): set<nat> {
    set id | id in inFlight && inFlight[id].rid == rid && OwesJob(inFlight[id])
  }

  function LateIds(inFlight: map<nat, InFlight>, rid: RideId): set<nat> {
    set id | id in inFlight && inFlight[id].rid == rid && Late(inFlight[id])
  }

  /** Is this move a read that lets the user's confirmation of the ride go ahead? */
  predicate AcceptedRead(s: Machine, m: Move, rid: RideId, user: UserId) {
    && m.ReadForConfirm? && m.rid == rid && m.caller == user && m.id !in s.inFlight
    && rid in s.w.rides && ConfirmRefusal(s.w.rides[rid], user).None?
  }

  predicate LateRead(s: Machine, m: Move, rid: RideId) {
    m.ReadForConfirm? && AcceptedRead(s, m, rid, m.caller) && Late(Confirming(rid, m.caller, s.w.rides[rid]))
  }

  function LateReads(s: Machine, moves: seq<Move>, rid: RideId): nat
    decreases |moves|
  {
    if moves == [] then 0
    else (if LateRead(s, moves[0], rid) then 1 else 0) + LateReads(Next(s, moves[0]), moves[1..], rid)
  }

  function ReadsBy(s: Machine, moves: seq<Move>, rid: RideId, user: UserId): nat
    decreases |moves|
  {
    if moves == [] then 0
    else (if AcceptedRead(s, moves[0], rid, user) then 1 else 0) + ReadsBy(Next(s, moves[0]), moves[1..], rid, user)
  }

  ghost predicate AllLegal(moves: seq<Move>) {
    forall i :: 0 <= i < |moves| ==> Legal(moves[i])
  }

  // ---- What a confirmation in flight knows ----

  /** The participants it read are still the row's, and its caller is one of them. */
  predicate InformedBy(f: InFlight, rides: map<RideId, Ride>) {
    f.Confirming? ==>
      && f.rid in rides && !rides[f.rid].status.Searching?
      && f.seen.riderId == rides[f.rid].riderId && f.seen.passengerId == rides[f.rid].passengerId
      && (f.seen.riderId == Some(f.caller) || f.seen.passengerId == Some(f.caller))
  }

  ghost predicate Informed(s: Machine) {
    forall id :: id in s.inFlight ==> InformedBy(s.inFlight[id], s.w.rides)
  }

  ghost predicate Sound(s: Machine) {
    Safe(s) && Informed(s)
  }

  /** A row past searching keeps its sides and never searches again. */
  predicate Settled(r: Ride, r': Ride) {
    !r.status.Searching? ==>
      !r'.status.Searching? && r'.riderId == r.riderId && r'.passengerId == r.passengerId
  }

  lemma NextSettles(s: Machine, m: Move, rid: RideId)
    requires Legal(m) && rid in s.w.rides
    ensures rid in Next(s, m).w.rides && Settled(s.w.rides[rid], Next(s, m).w.rides[rid])
  {
  }

  lemma NextInforms(s: Machine, m: Move)
    requires Sound(s) && Legal(m)
    ensures Informed(Next(s, m))
  {
    var s' := Next(s, m);
    forall id | id in s'.inFlight ensures InformedBy(s'.inFlight[id], s'.w.rides) {
      if id in s.inFlight {
        assert InformedBy(s.inFlight[id], s.w.rides);
        if s.inFlight[id].rid in s.w.rides {
          NextSettles(s, m, s.inFlight[id].rid);
        }
      }
    }
  }

  lemma NextSound(s: Machine, m: Move)
    requires Sound(s) && Legal(m)
    ensures Sound(Next(s, m))
  {
    NextKeeps(s, m);
    NextInforms(s, m);
  }

  lemma {:induction false} PlaySound(s: Machine, moves: seq<Move>)
    requires Sound(s) && AllLegal(moves)
    ensures Sound(Play(s, moves))
    decreases |moves|
  {
    if moves == [] {
    } else {
      NextSound(s, moves[0]);
      PlaySound(Next(s, moves[0]), moves[1..]);
    }
  }

  /** The late confirmations are the ones that write the status and add the job. */
  lemma LateCompletes(s: Machine, id: nat)
    requires Sound(s) && id in s.inFlight && s.inFlight[id].Confirming?
    ensures Late(s.inFlight[id]) <==> Completes(s.inFlight[id])
  {
    assert InformedBy(s.inFlight[id], s.w.rides);
    assert Stale(s.inFlight[id].seen, s.w.rides[s.inFlight[id].rid]);
  }

  // ---- Jobs: one a late read ----

  lemma ReadIds(inFlight: map<nat, InFlight>, id: nat, f: InFlight, rid: RideId)
    requires id !in inFlight && !f.Adding?
    ensures LateIds(inFlight[id := f], rid) == LateIds(inFlight, rid) + (if f.rid == rid && Late(f) then {id} else {})
    ensures OwingIds(inFlight[id := f], rid) == OwingIds(inFlight, rid) + (if f.rid == rid && Late(f) then {id} else {})
  {
  }

  /** A written entry is gone or has only its job to add. */
  lemma WrittenIds(inFlight: map<nat, InFlight>, id: nat, rid: RideId)
    ensures LateIds(inFlight - {id}, rid) == LateIds(inFlight, rid) - {id}
    ensures OwingIds(inFlight - {id}, rid) == OwingIds(inFlight, rid) - {id}
    ensures id in inFlight ==>
              var inFlight' := inFlight[id := Adding(inFlight[id].rid, inFlight[id].seen)];
              && LateIds(inFlight', rid) == LateIds(inFlight, rid) - {id}
              && OwingIds(inFlight', rid) == OwingIds(inFlight, rid) + (if inFlight[id].rid == rid then {id} else {})
  {
  }

  function JobsAndOwing(s: Machine, rid: RideId): nat {
    multiset(s.w.completionJobs)[rid] + |OwingIds(s.inFlight, rid)|
  }

  lemma JobReadStep(s: Machine, m: Move, rid: RideId)
    requires !m.Atomic? && !m.Write? && !m.Add?
    ensures JobsAndOwing(Next(s, m), rid) == JobsAndOwing(s, rid) + (if LateRead(s, m, rid) then 1 else 0)
  {
    if m.id in Next(s, m).inFlight && m.id !in s.inFlight {
      ReadIds(s.inFlight, m.id, Next(s, m).inFlight[m.id], rid);
    }
  }

  /** A write adds no job; what is in flight changes for its own entry alone. */
  lemma WriteInFlight(s: Machine, id: nat, now: Time)
    requires Sound(s)
    ensures
      var s' := Next(s, Write(id, now));
      && s'.w.completionJobs == s.w.completionJobs
      && s'.inFlight ==
           if id !in s.inFlight || s.inFlight[id].Adding? then s.inFlight
           else if Late(s.inFlight[id]) then s.inFlight[id := Adding(s.inFlight[id].rid, s.inFlight[id].seen)]
           else s.inFlight - {id}
  {
    if id in s.inFlight && s.inFlight[id].Confirming? {
      LateCompletes(s, id);
    }
  }

  lemma JobWriteStep(s: Machine, id: nat, now: Time, rid: RideId)
    requires Sound(s)
    ensures JobsAndOwing(Next(s, Write(id, now)), rid) == JobsAndOwing(s, rid)
  {
    WriteInFlight(s, id, now);
    WrittenIds(s.inFlight, id, rid);
    if id in s.inFlight {
      assert id in OwingIds(s.inFlight, rid) <==> s.inFlight[id].rid == rid && OwesJob(s.inFlight[id]);
    }
  }

  lemma JobAddStep(s: Machine, id: nat, rid: RideId)
    ensures JobsAndOwing(Next(s, Add(id)), rid) == JobsAndOwing(s, rid)
  {
    WrittenIds(s.inFlight, id, rid);
  }

  lemma JobStep(s: Machine, m: Move, rid: RideId)
    requires Sound(s) && Legal(m)
    ensures JobsAndOwing(Next(s, m), rid) == JobsAndOwing(s, rid) + (if LateRead(s, m, rid) then 1 else 0)
  {
    match m
    case Atomic(_) => assert Next(s, m).w.completionJobs == s.w.completionJobs;
    case Write(id, now) => JobWriteStep(s, id, now, rid);
    case Add(id) => JobAddStep(s, id, rid);
    case _ => JobReadStep(s, m, rid);
  }

  /** Every legal run conserves: jobs of the ride plus late confirmations that have still to add
      theirs grow by one with each late read, and with nothing else. */
  lemma {:induction false} JobsPerLateRead(s: Machine, moves: seq<Move>, rid: RideId)
    requires Sound(s) && AllLegal(moves)
    ensures JobsAndOwing(Play(s, moves), rid) == JobsAndOwing(s, rid) + LateReads(s, moves, rid)
    decreases |moves|
  {
    if moves == [] {
    } else {
      JobStep(s, moves[0], rid);
      NextSound(s, moves[0]);
      JobsPerLateRead(Next(s, moves[0]), moves[1..], rid);
    }
  }

  // ---- Flags: set by the party's own reads, once written ----

  predicate FlagOf(r: Ride, user: UserId) {
    (r.riderId == Some(user) && r.riderConfirmed) || (r.passengerId == Some(user) && r.passengerConfirmed)
  }

  ghost predicate ConfirmingBy(inFlight: map<nat, InFlight>, rid: RideId, user: UserId) {
    exists id :: id in inFlight && inFlight[id].Confirming? && inFlight[id].rid == rid && inFlight[id].caller == user
  }

  ghost predicate FlagComing(s: Machine, rid: RideId, user: UserId)
    requires rid in s.w.rides
  {
    FlagOf(s.w.rides[rid], user) || ConfirmingBy(s.inFlight, rid, user)
  }

  /** Rewriting the row for an entry sets that caller's flag and no other. */
  lemma WriteFlags(s: Machine, id: nat, now: Time, user: UserId)
    requires Sound(s) && id in s.inFlight && s.inFlight[id].rid in s.w.rides
    ensures
      var f := s.inFlight[id];
      FlagOf(WriteRow(s.w.rides[f.rid], f, now), user)
      <==> FlagOf(s.w.rides[f.rid], user) || (f.Confirming? && f.caller == user)
  {
    assert InformedBy(s.inFlight[id], s.w.rides);
    assert RowSafe(s.w.rides[s.inFlight[id].rid]);
  }

  lemma WriteFlagStep(s: Machine, id: nat, now: Time, rid: RideId, user: UserId)
    requires Sound(s) && id in s.inFlight && rid in s.w.rides && s.inFlight[id].rid in s.w.rides && !s.inFlight[id].Adding?
    ensures rid in Next(s, Write(id, now)).w.rides
    ensures FlagComing(Next(s, Write(id, now)), rid, user) <==> FlagComing(s, rid, user)
  {
    var f, s' := s.inFlight[id], Next(s, Write(id, now));
    WriteFlags(s, id, now, user);
    if ConfirmingBy(s.inFlight, rid, user) {
      var k :| k in s.inFlight && s.inFlight[k].Confirming? && s.inFlight[k].rid == rid && s.inFlight[k].caller == user;
      assert k != id ==> k in s'.inFlight && s'.inFlight[k] == s.inFlight[k];
    }
    if ConfirmingBy(s'.inFlight, rid, user) {
      var k :| k in s'.inFlight && s'.inFlight[k].Confirming? && s'.inFlight[k].rid == rid && s'.inFlight[k].caller == user;
      assert k in s.inFlight;
    }
  }

  lemma AddFlagStep(s: Machine, id: nat, rid: RideId, user: UserId)
    requires rid in s.w.rides
    ensures rid in Next(s, Add(id)).w.rides
    ensures FlagComing(Next(s, Add(id)), rid, user) <==> FlagComing(s, rid, user)
  {
    var s' := Next(s, Add(id));
    if ConfirmingBy(s.inFlight, rid, user) {
      var k :| k in s.inFlight && s.inFlight[k].Confirming? && s.inFlight[k].rid == rid && s.inFlight[k].caller == user;
      assert k in s'.inFlight && s'.inFlight[k] == s.inFlight[k];
    }
    if ConfirmingBy(s'.inFlight, rid, user) {
      var k :| k in s'.inFlight && s'.inFlight[k].Confirming? && s'.inFlight[k].rid == rid && s'.inFlight[k].caller == user;
      assert k in s.inFlight;
    }
  }

  lemma ReadFlagStep(s: Machine, m: Move, rid: RideId, user: UserId)
    requires rid in s.w.rides && !m.Atomic? && !m.Write? && !m.Add?
    ensures rid in Next(s, m).w.rides
    ensures FlagComing(Next(s, m), rid, user) <==> FlagComing(s, rid, user) || AcceptedRead(s, m, rid, user)
  {
    var s' := Next(s, m);
    if ConfirmingBy(s.inFlight, rid, user) {
      var k :| k in s.inFlight && s.inFlight[k].Confirming? && s.inFlight[k].rid == rid && s.inFlight[k].caller == user;
      assert k in s'.inFlight && s'.inFlight[k] == s.inFlight[k];
    }
    if AcceptedRead(s, m, rid, user) {
      assert m.id in s'.inFlight && s'.inFlight[m.id].Confirming?;
    }
    if ConfirmingBy(s'.inFlight, rid, user) {
      var k :| k in s'.inFlight && s'.inFlight[k].Confirming? && s'.inFlight[k].rid == rid && s'.inFlight[k].caller == user;
      assert k in s.inFlight ==> s.inFlight[k] == s'.inFlight[k];
    }
  }

  lemma FlagStep(s: Machine, m: Move, rid: RideId, user: UserId)
    requires Sound(s) && Legal(m) && rid in s.w.rides && !s.w.rides[rid].status.Searching?
    ensures rid in Next(s, m).w.rides
    ensures FlagComing(Next(s, m), rid, user) <==> FlagComing(s, rid, user) || AcceptedRead(s, m, rid, user)
  {
    match m
    case Atomic(_) =>
      NextSettles(s, m, rid);
      assert Next(s, m).w.rides[rid] == s.w.rides[rid];
    case Write(id, now) =>
      if id in s.inFlight && !s.inFlight[id].Adding? && s.inFlight[id].rid in s.w.rides {
        WriteFlagStep(s, id, now, rid, user);
      }
    case Add(id) => AddFlagStep(s, id, rid, user);
    case _ => ReadFlagStep(s, m, rid, user);
  }

  lemma {:induction false} FlagsFollowReads(s: Machine, moves: seq<Move>, rid: RideId, user: UserId)
    requires Sound(s) && AllLegal(moves) && rid in s.w.rides && !s.w.rides[rid].status.Searching?
    ensures rid in Play(s, moves).w.rides
    ensures FlagComing(Play(s, moves), rid, user) <==> FlagComing(s, rid, user) || ReadsBy(s, moves, rid, user) > 0
    decreases |moves|
  {
    if moves == [] {
    } else {
      FlagStep(s, moves[0], rid, user);
      NextSound(s, moves[0]);
      NextSettles(s, moves[0], rid);
      FlagsFollowReads(Next(s, moves[0]), moves[1..], rid, user);
    }
  }

  // ---- Status: the last deciding write ----

  /** The status this move writes to the ride, if it writes one. An early confirmation does not. */
  function Word(s: Machine, m: Move, rid: RideId): Option<RideStatus> {
    if m.Write? && m.id in s.inFlight && s.inFlight[m.id].rid == rid && rid in s.w.rides then
      match s.inFlight[m.id]
      case Confirming(_, _, _) => if Late(s.inFlight[m.id]) then Some(Completed) else None
      case Starting(_, _) => Some(InProgress)
      case Cancelling(_, _) => Some(Cancelled)
      case Expiring(_, _) => Some(Expired)
      case Adding(_, _) => None
    else None
  }

  function LastWord(s: Machine, moves: seq<Move>, rid: RideId): Option<RideStatus>
    decreases |moves|
  {
    if moves == [] then None
    else
      var later := LastWord(Next(s, moves[0]), moves[1..], rid);
      if later.Some? then later else Word(s, moves[0], rid)
  }

  lemma WriteStatus(s: Machine, id: nat, now: Time, rid: RideId)
    requires Sound(s) && rid in s.w.rides
    ensures rid in Next(s, Write(id, now)).w.rides
    ensures Next(s, Write(id, now)).w.rides[rid].status == GetOr(Word(s, Write(id, now), rid), s.w.rides[rid].status)
  {
    if id in s.inFlight && s.inFlight[id].Confirming? {
      LateCompletes(s, id);
    }
  }

  lemma StatusStep(s: Machine, m: Move, rid: RideId)
    requires Sound(s) && Legal(m) && rid in s.w.rides && !s.w.rides[rid].status.Searching?
    ensures rid in Next(s, m).w.rides
    ensures Next(s, m).w.rides[rid].status == GetOr(Word(s, m, rid), s.w.rides[rid].status)
  {
    if m.Write? {
      WriteStatus(s, m.id, m.now, rid);
    }
  }

  /** Whatever is in flight, starts and cancellations read long ago included: the status at the
      end is that of the last deciding write, or the one at the start if there was none. So a
      ride ends completed exactly when the last of them is a late confirmation's. */
  lemma {:induction false} LastWordDecides(s: Machine, moves: seq<Move>, rid: RideId)
    requires Sound(s) && AllLegal(moves) && rid in s.w.rides && !s.w.rides[rid].status.Searching?
    ensures rid in Play(s, moves).w.rides
    ensures Play(s, moves).w.rides[rid].status == GetOr(LastWord(s, moves, rid), s.w.rides[rid].status)
    decreases |moves|
  {
    if moves == [] {
    } else {
      StatusStep(s, moves[0], rid);
      NextSound(s, moves[0]);
      NextSettles(s, moves[0], rid);
      LastWordDecides(Next(s, moves[0]), moves[1..], rid);
    }
  }

  // ---- A started ride with only confirmations in flight ----

  ghost predicate OnlyConfirming(s: Machine, rid: RideId) {
    forall id :: id in s.inFlight && s.inFlight[id].rid == rid ==> s.inFlight[id].Confirming? || s.inFlight[id].Adding?
  }

  /** In progress or completed, and nothing but confirmations can still be written to it. */
  ghost predicate Finishing(s: Machine, rid: RideId) {
    && rid in s.w.rides && (s.w.rides[rid].status.InProgress? || s.w.rides[rid].status.Completed?)
    && OnlyConfirming(s, rid)
  }

  ghost predicate CompletionComing(s: Machine, rid: RideId)
    requires rid in s.w.rides
  {
    s.w.rides[rid].status.Completed? || LateIds(s.inFlight, rid) != {}
  }

  lemma FinishingStep(s: Machine, m: Move, rid: RideId)
    requires Sound(s) && Legal(m) && Finishing(s, rid)
    ensures Finishing(Next(s, m), rid)
  {
    StatusStep(s, m, rid);
  }

  lemma ComingStep(s: Machine, m: Move, rid: RideId)
    requires Sound(s) && Legal(m) && Finishing(s, rid) && Finishing(Next(s, m), rid)
    ensures CompletionComing(Next(s, m), rid) <==> CompletionComing(s, rid) || LateRead(s, m, rid)
  {
    StatusStep(s, m, rid);
    match m
    case Atomic(_) =>
    case Add(id) => WrittenIds(s.inFlight, id, rid);
    case Write(id, now) =>
      if id in s.inFlight && s.inFlight[id].rid in s.w.rides {
        WrittenIds(s.inFlight, id, rid);
        assert id in LateIds(s.inFlight, rid) <==> s.inFlight[id].rid == rid && Late(s.inFlight[id]);
      }
    case _ =>
      if m.id in Next(s, m).inFlight && m.id !in s.inFlight {
        ReadIds(s.inFlight, m.id, Next(s, m).inFlight[m.id], rid);
      }
  }

  lemma {:induction false} ComingFollowsLateReads(s: Machine, moves: seq<Move>, rid: RideId)
    requires Sound(s) && AllLegal(moves) && Finishing(s, rid)
    ensures Finishing(Play(s, moves), rid)
    ensures CompletionComing(Play(s, moves), rid) <==> CompletionComing(s, rid) || LateReads(s, moves, rid) > 0
    decreases |moves|
  {
    if moves == [] {
    } else {
      FinishingStep(s, moves[0], rid);
      ComingStep(s, moves[0], rid);
      NextSound(s, moves[0]);
      ComingFollowsLateReads(Next(s, moves[0]), moves[1..], rid);
    }
  }

  lemma Reachable(before: seq<Move>)
    requires AllLegal(before)
    ensures Sound(Play(START, before))
  {
    PlaySound(START, before);
  }

  ghost predicate Untouched(s: Machine, rid: RideId) {
    forall id :: id in s.inFlight ==> s.inFlight[id].rid != rid
  }

  /** A ride started with nothing of it in flight, in any reachable state of the machine, and any
      legal moves after which again nothing of it is in flight. Each party's flag is set exactly
      if a confirmation of theirs was accepted; the ride is completed exactly if one of them read
      the row with the other party's flag already set, and stays in progress otherwise; and its
      completion job was added once for each such read. */
  lemma CompletesUnlessOverlapping(before: seq<Move>, moves: seq<Move>, rid: RideId, rider: UserId, passenger: UserId)
    requires AllLegal(before) && AllLegal(moves)
    requires Started(Play(START, before).w, rid, rider, passenger) && Untouched(Play(START, before), rid)
    requires Untouched(Play(Play(START, before), moves), rid)
    ensures
      var s := Play(START, before);
      var s' := Play(s, moves);
      rid in s'.w.rides
      && var r := s'.w.rides[rid];
         && r.riderId == Some(rider) && r.passengerId == Some(passenger)
         && (r.riderConfirmed <==> ReadsBy(s, moves, rid, rider) > 0)
         && (r.passengerConfirmed <==> ReadsBy(s, moves, rid, passenger) > 0)
         && (r.status.Completed? <==> LateReads(s, moves, rid) > 0)
         && (!r.status.Completed? ==> r.status.InProgress?)
         && multiset(s'.w.completionJobs)[rid] == multiset(s.w.completionJobs)[rid] + LateReads(s, moves, rid)
  {
    var s := Play(START, before);
    Reachable(before);
    ComingFollowsLateReads(s, moves, rid);
    JobsPerLateRead(s, moves, rid);
    FlagsFollowReads(s, moves, rid, rider);
    FlagsFollowReads(s, moves, rid, passenger);
    SidesStay(s, moves, rid);
    assert LateIds(s.inFlight, rid) == {} && LateIds(Play(s, moves).inFlight, rid) == {};
    assert OwingIds(s.inFlight, rid) == {} && OwingIds(Play(s, moves).inFlight, rid) == {};
  }

  lemma {:induction false} SidesStay(s: Machine, moves: seq<Move>, rid: RideId)
    requires AllLegal(moves) && rid in s.w.rides
    ensures rid in Play(s, moves).w.rides && Settled(s.w.rides[rid], Play(s, moves).w.rides[rid])
    decreases |moves|
  {
    if moves == [] {
    } else {
      NextSettles(s, moves[0], rid);
      SidesStay(Next(s, moves[0]), moves[1..], rid);
    }
  }

  // ---- Stuck ----

  predicate BothFlagsInProgress(s: Machine, rid: RideId) {
    rid in s.w.rides && s.w.rides[rid].status.InProgress?
    && s.w.rides[rid].riderConfirmed && s.w.rides[rid].passengerConfirmed
  }

  /** A confirmation that read too early, or one that has only its job to add, writes nothing new. */
  predicate Harmless(f: InFlight) {
    (f.Confirming? && !Late(f)) || f.Adding?
  }

  ghost predicate OnlyHarmless(s: Machine, rid: RideId) {
    forall id :: id in s.inFlight && s.inFlight[id].rid == rid ==> Harmless(s.inFlight[id])
  }

  lemma StuckStep(s: Machine, m: Move, rid: RideId)
    requires Sound(s) && Legal(m) && BothFlagsInProgress(s, rid) && OnlyHarmless(s, rid)
    ensures rid in Next(s, m).w.rides && Next(s, m).w.rides[rid] == s.w.rides[rid] && OnlyHarmless(Next(s, m), rid)
  {
    if m.Write? && m.id in s.inFlight && s.inFlight[m.id].Confirming? {
      LateCompletes(s, m.id);
    }
  }

  lemma {:induction false} StuckRun(s: Machine, moves: seq<Move>, rid: RideId)
    requires Sound(s) && AllLegal(moves) && BothFlagsInProgress(s, rid) && OnlyHarmless(s, rid)
    ensures rid in Play(s, moves).w.rides && Play(s, moves).w.rides[rid] == s.w.rides[rid]
    decreases |moves|
  {
    if moves == [] {
    } else {
      StuckStep(s, moves[0], rid);
      NextSound(s, moves[0]);
      StuckRun(Next(s, moves[0]), moves[1..], rid);
    }
  }

  ghost predicate NeverChanges(s: Machine, rid: RideId)
    requires rid in s.w.rides
  {
    forall moves: seq<Move> :: AllLegal(moves) ==>
      rid in Play(s, moves).w.rides && Play(s, moves).w.rides[rid] == s.w.rides[rid]
  }

  /** One write of any other entry changes such a row. */
  lemma WriteUnsticks(s: Machine, rid: RideId, id: nat)
    requires Sound(s) && BothFlagsInProgress(s, rid)
    requires id in s.inFlight && s.inFlight[id].rid == rid && !Harmless(s.inFlight[id])
    ensures !NeverChanges(s, rid)
  {
    var now := if s.w.rides[rid].startedAt == Some(0) then 1 else 0;
    var moves := [Write(id, now)];
    if s.inFlight[id].Confirming? {
      LateCompletes(s, id);
    }
    assert Play(Next(s, moves[0]), moves[1..]) == Next(s, moves[0]);
    assert Play(s, moves) == Next(s, moves[0]);
    assert AllLegal(moves) && Play(s, moves).w.rides[rid] != s.w.rides[rid];
  }

  /** In any reachable state, a ride in progress with both flags set is stuck, unchanged by every
      legal run, exactly when nothing of it is in flight but confirmations that read too early or
      have only their job to add. */
  lemma StuckAfterOverlap(before: seq<Move>, rid: RideId)
    requires AllLegal(before) && BothFlagsInProgress(Play(START, before), rid)
    ensures NeverChanges(Play(START, before), rid) <==> OnlyHarmless(Play(START, before), rid)
  {
    var s := Play(START, before);
    Reachable(before);
    if OnlyHarmless(s, rid) {
      forall moves: seq<Move> | AllLegal(moves)
        ensures rid in Play(s, moves).w.rides && Play(s, moves).w.rides[rid] == s.w.rides[rid]
      {
        StuckRun(s, moves, rid);
      }
    } else {
      var id :| id in s.inFlight && s.inFlight[id].rid == rid && !Harmless(s.inFlight[id]);
      WriteUnsticks(s, rid, id);
    }
  }

  // ---- Runs from empty tables that show each failure ----

  ghost predicate Reached(moves: seq<Move>, s: Machine) {
    AllLegal(moves) && Play(START, moves) == s
  }

  lemma {:induction false} PlaySnoc(s: Machine, moves: seq<Move>, m: Move)
    ensures Play(s, moves + [m]) == Next(Play(s, moves), m)
    decreases |moves|
  {
    if moves == [] {
      assert Play(Next(s, m), [m][1..]) == Next(s, m);
      assert moves + [m] == [m];
    } else {
      assert (moves + [m])[1..] == moves[1..] + [m];
      PlaySnoc(Next(s, moves[0]), moves[1..], m);
    }
  }

  lemma Extend(moves: seq<Move>, s: Machine, m: Move) returns (moves': seq<Move>, s': Machine)
    requires Reached(moves, s) && Legal(m)
    ensures Reached(moves', s') && s' == Next(s, m)
  {
    PlaySnoc(START, moves, m);
    moves', s' := moves + [m], Next(s, m);
  }

  /** Calls that stay atomic take the machine where they take its tables. */
  lemma {:induction false} AtomicRun(moves: seq<Move>, s: Machine, calls: seq<Call>) returns (moves': seq<Move>, s': Machine)
    requires Reached(moves, s) && forall i :: 0 <= i < |calls| ==> Legal(Atomic(calls[i]))
    ensures Reached(moves', s') && s' == s.(w := Run(s.w, calls))
    decreases |calls|
  {
    if calls == [] {
      moves', s' := moves, s;
    } else {
      moves', s' := Extend(moves, s, Atomic(calls[0]));
      moves', s' := AtomicRun(moves', s', calls[1..]);
    }
  }

  /** An offer by user 0 with user 1 on board. */
  lemma MatchedRun() returns (moves: seq<Move>, s: Machine)
    ensures Reached(moves, s) && s.inFlight == map[] && s.w.completionJobs == []
    ensures 0 in s.w.rides && Sample.RideMatched(s.w.rides[0], 0)
  {
    Sample.MatchedAfter(EMPTY, 0, 0);
    moves, s := AtomicRun([], START, Sample.MatchCalls(0, 0));
  }

  /** The same ride started; another start that read the matched row may be left in flight. */
  lemma StartedRun(leftover: bool) returns (moves: seq<Move>, s: Machine)
    ensures Reached(moves, s) && Started(s.w, 0, 0, 1) && s.w.completionJobs == []
    ensures s.inFlight.Keys == (if leftover then {9} else {})
    ensures leftover ==> s.inFlight[9].Starting? && s.inFlight[9].rid == 0
  {
    moves, s := MatchedRun();
    moves, s := Extend(moves, s, ReadForStart(0, 0, 0));
    if leftover {
      moves, s := Extend(moves, s, ReadForStart(9, 0, 0));
    }
    moves, s := Extend(moves, s, Write(0, 0));
  }

  /** Overlapping confirmations: both flags, in progress, no job, nothing in flight. */
  lemma OverlapStalls()
    ensures exists moves :: AllLegal(moves) && BothFlagsInProgress(Play(START, moves), 0)
              && Play(START, moves).w.completionJobs == [] && OnlyHarmless(Play(START, moves), 0)
  {
    var moves, s := StartedRun(false);
    moves, s := Extend(moves, s, ReadForConfirm(0, 0, 0));
    moves, s := Extend(moves, s, ReadForConfirm(1, 0, 1));
    moves, s := Extend(moves, s, Write(0, 0));
    moves, s := Extend(moves, s, Write(1, 0));
  }

  /** The rider's confirmation, on its own. */
  lemma RiderConfirms(moves: seq<Move>, s: Machine) returns (moves': seq<Move>, s': Machine)
    requires Reached(moves, s) && Started(s.w, 0, 0, 1) && 0 !in s.inFlight
    ensures Reached(moves', s') && s'.inFlight == s.inFlight && s'.w.completionJobs == s.w.completionJobs
    ensures 0 in s'.w.rides && s'.w.rides[0] == s.w.rides[0].(riderConfirmed := true)
  {
    moves', s' := Extend(moves, s, ReadForConfirm(0, 0, 0));
    moves', s' := Extend(moves', s', Write(0, 0));
    assert s'.inFlight == s.inFlight;
  }

  predicate RiderIsDone(r: Ride) {
    r.status.InProgress? && r.riderConfirmed && !r.passengerConfirmed
    && r.riderId == Some(0) && r.passengerId == Some(1)
  }

  /** A late confirmation of the passenger, written: only its job is still to be added. */
  lemma PassengerWrites(moves: seq<Move>, s: Machine, k: nat) returns (moves': seq<Move>, s': Machine)
    requires Reached(moves, s) && k in s.inFlight && 0 in s.w.rides
    requires s.inFlight[k].Confirming? && s.inFlight[k].rid == 0 && s.inFlight[k].caller == 1 && RiderIsDone(s.inFlight[k].seen)
    ensures Reached(moves', s') && s'.w.completionJobs == s.w.completionJobs
    ensures s'.inFlight == s.inFlight[k := Adding(0, s.inFlight[k].seen)]
    ensures 0 in s'.w.rides && s'.w.rides[0].status.Completed? && s'.w.rides[0].passengerConfirmed
    ensures s'.w.rides[0].riderConfirmed == s.w.rides[0].riderConfirmed
  {
    moves', s' := Extend(moves, s, Write(k, 0));
  }

  lemma ConfirmedApart(moves: seq<Move>, s: Machine) returns (moves': seq<Move>, s': Machine)
    requires Reached(moves, s) && Started(s.w, 0, 0, 1) && 0 !in s.inFlight && 1 !in s.inFlight
    ensures Reached(moves', s') && s'.inFlight == s.inFlight
    ensures 0 in s'.w.rides && s'.w.rides[0].status.Completed?
    ensures s'.w.rides[0].riderConfirmed && s'.w.rides[0].passengerConfirmed
    ensures s'.w.completionJobs == s.w.completionJobs + [0]
  {
    moves', s' := RiderConfirms(moves, s);
    moves', s' := Extend(moves', s', ReadForConfirm(1, 0, 1));
    moves', s' := PassengerWrites(moves', s', 1);
    moves', s' := Extend(moves', s', Add(1));
    assert s'.inFlight == s.inFlight;
  }

  /** A start that read the matched row twice over writes last: a ride already completed, its job
      added, is in progress again, and stuck there. */
  lemma StaleStartReopens()
    ensures exists moves :: AllLegal(moves) && BothFlagsInProgress(Play(START, moves), 0)
              && Play(START, moves).w.completionJobs == [0] && OnlyHarmless(Play(START, moves), 0)
  {
    var moves, s := StartedRun(true);
    moves, s := ConfirmedApart(moves, s);
    moves, s := Extend(moves, s, Write(9, 0));
    assert s.w.completionJobs == [0] + [];
  }

  /** The second party's call submitted twice: both read the first party's flag, and the ride
      gets two completion jobs. */
  lemma DoubledCallAddsTwoJobs()
    ensures exists moves :: AllLegal(moves) && Play(START, moves).w.completionJobs == [0, 0]
              && Play(START, moves).inFlight == map[]
  {
    var moves, s := StartedRun(false);
    moves, s := RiderConfirms(moves, s);
    moves, s := Extend(moves, s, ReadForConfirm(1, 0, 1));
    moves, s := Extend(moves, s, ReadForConfirm(2, 0, 1));
    moves, s := PassengerWrites(moves, s, 1);
    moves, s := PassengerWrites(moves, s, 2);
    moves, s := Extend(moves, s, Add(1));
    moves, s := Extend(moves, s, Add(2));
    assert s.w.completionJobs == [0, 0];
    assert s.inFlight == map[];
  }
}
