/** Who can change a ride, and what must have happened, in this run, for it to be where it is. */
module Authority {
  import opened Domain
  import opened Rides
  import opened Lifecycle

  // ---- One call ----

  /** The party a call must come from to change this row. */
  predicate MayChange(r: Ride, c: Call, rid: RideId) {
    match c
    case Create(_, _, _, _, _) => false
    case Join(_, _, _, _, _) => false
    case Update(caller, id, _, _) => id == rid && caller == r.creatorId
    case Cancel(caller, id, _) => id == rid && caller == r.creatorId
    case Respond(caller, id, _, accept) => id == rid && caller == r.creatorId && accept
    case Start(caller, id, _) => id == rid && r.riderId == Some(caller)
    case Confirm(caller, id, _) => id == rid && (r.riderId == Some(caller) || r.passengerId == Some(caller))
    case Expire(id) => id == rid
  }

  /** No outsider changes a ride: every change of a row comes from the party it belongs to. */
  lemma ChangedByParty(w: World, c: Call, rid: RideId)
    requires rid in w.rides
    ensures rid in After(w, c).rides
    ensures After(w, c).rides[rid] != w.rides[rid] ==> MayChange(w.rides[rid], c, rid)
  {
  }

  /** Only the ride's creator, answering, changes a stored request. */
  lemma AnsweredByCreator(w: World, c: Call, q: RequestId)
    requires q in w.requests
    ensures q in After(w, c).requests
    ensures After(w, c).requests[q] != w.requests[q] ==>
              && c.Respond? && c.rid == w.requests[q].rideId
              && w.requests[q].rideId in w.rides && c.caller == w.rides[w.requests[q].rideId].creatorId
              && Perform(w, c).reply.Done?
              && After(w, c).requests[q].status == (if c.q == q && c.accept then Accepted else Declined)
              && (c.q != q ==> c.accept)
  {
  }

  /** A confirmation flag is raised only by the party it stands for. */
  lemma FlagRaised(w: World, c: Call, rid: RideId)
    requires rid in w.rides
    ensures
      var r' := After(w, c).rides[rid];
      rid in After(w, c).rides
      && (r'.riderConfirmed && !w.rides[rid].riderConfirmed ==>
            c.Confirm? && c.rid == rid && w.rides[rid].riderId == Some(c.caller) && Perform(w, c).reply.Done?)
      && (r'.passengerConfirmed && !w.rides[rid].passengerConfirmed ==>
            c.Confirm? && c.rid == rid && w.rides[rid].passengerId == Some(c.caller) && Perform(w, c).reply.Done?)
  {
  }

  // ---- Histories ----

  lemma {:induction false} RunSnoc(w: World, calls: seq<Call>)
    requires calls != []
    ensures Run(w, calls) == After(Run(w, calls[..|calls| - 1]), calls[|calls| - 1])
    decreases |calls|
  {
    if |calls| == 1 {
      assert calls[..0] == [];
      assert Run(After(w, calls[0]), calls[1..]) == After(w, calls[0]);
    } else {
      RunSnoc(After(w, calls[0]), calls[1..]);
      assert calls[..|calls| - 1][1..] == calls[1..][..|calls| - 2];
    }
  }

  /** Call i of the run was made and went through. */
  predicate EffectiveAt(calls: seq<Call>, i: int) {
    0 <= i < |calls| && Perform(Run(EMPTY, calls[..i]), calls[i]).reply.Done?
  }

  ghost predicate ConfirmedBy(calls: seq<Call>, rid: RideId, user: UserId) {
    exists i :: EffectiveAt(calls, i) && calls[i].Confirm? && calls[i].rid == rid && calls[i].caller == user
  }

  /** A call of the run that went through put this time on the ride's row. */
  ghost predicate StampedAt(calls: seq<Call>, rid: RideId, stamp: Stamp, time: Time) {
    exists i :: EffectiveAt(calls, i) && Stamps(calls[i], rid, stamp) && calls[i].now == time
  }

  ghost predicate StartedBy(calls: seq<Call>, rid: RideId, user: UserId) {
    exists i :: EffectiveAt(calls, i) && calls[i].Start? && calls[i].rid == rid && calls[i].caller == user
  }

  // The three times a ride's row can carry.
  datatype Stamp = Started | Ended | Called

  function StampOf(r: Ride, stamp: Stamp): Option<Time> {
    match stamp
    case Started => r.startedAt
    case Ended => r.completedAt
    case Called => r.cancelledAt
  }

  predicate Stamps(c: Call, rid: RideId, stamp: Stamp) {
    match stamp
    case Started => c.Start? && c.rid == rid
    case Ended => c.Confirm? && c.rid == rid
    case Called => c.Cancel? && c.rid == rid
  }

  predicate JoinsAt(calls: seq<Call>, i: int, rid: RideId, user: UserId, q: RequestId) {
    EffectiveAt(calls, i) && calls[i].Join? && calls[i].rid == rid && calls[i].caller == user && calls[i].q == q
  }

  predicate AcceptsAt(calls: seq<Call>, j: int, rid: RideId, creator: UserId, q: RequestId) {
    EffectiveAt(calls, j) && calls[j].Respond? && calls[j].rid == rid && calls[j].caller == creator
    && calls[j].q == q && calls[j].accept
  }

  /** The user joined with request q. */
  ghost predicate JoinedWith(calls: seq<Call>, rid: RideId, user: UserId, q: RequestId) {
    exists i :: JoinsAt(calls, i, rid, user, q)
  }

  /** The user joined with request q, and later the creator accepted that very request. */
  ghost predicate Consented(calls: seq<Call>, rid: RideId, user: UserId, creator: UserId, q: RequestId) {
    exists i, j :: i < j && JoinsAt(calls, i, rid, user, q) && AcceptsAt(calls, j, rid, creator, q)
  }

  /** A longer run keeps the history of the shorter one. */
  lemma Extends(calls: seq<Call>, c: Call, i: int)
    requires EffectiveAt(calls, i)
    ensures EffectiveAt(calls + [c], i) && (calls + [c])[i] == calls[i]
  {
    assert (calls + [c])[..i] == calls[..i];
  }

  lemma LastEffective(calls: seq<Call>, c: Call)
    requires Perform(Run(EMPTY, calls), c).reply.Done?
    ensures EffectiveAt(calls + [c], |calls|) && (calls + [c])[|calls|] == c
  {
    assert (calls + [c])[..|calls|] == calls;
  }

  lemma LongerHistory(calls: seq<Call>, c: Call, rid: RideId, user: UserId)
    ensures ConfirmedBy(calls, rid, user) ==> ConfirmedBy(calls + [c], rid, user)
    ensures StartedBy(calls, rid, user) ==> StartedBy(calls + [c], rid, user)
  {
    if i :| EffectiveAt(calls, i) && calls[i].Confirm? && calls[i].rid == rid && calls[i].caller == user {
      Extends(calls, c, i);
    }
    if i :| EffectiveAt(calls, i) && calls[i].Start? && calls[i].rid == rid && calls[i].caller == user {
      Extends(calls, c, i);
    }
  }

  lemma LongerConsent(calls: seq<Call>, c: Call, rid: RideId, user: UserId, creator: UserId, q: RequestId)
    ensures JoinedWith(calls, rid, user, q) ==> JoinedWith(calls + [c], rid, user, q)
    ensures Consented(calls, rid, user, creator, q) ==> Consented(calls + [c], rid, user, creator, q)
  {
    if i :| JoinsAt(calls, i, rid, user, q) {
      Extends(calls, c, i);
      assert JoinsAt(calls + [c], i, rid, user, q);
    }
    if i, j :| i < j && JoinsAt(calls, i, rid, user, q) && AcceptsAt(calls, j, rid, creator, q) {
      Extends(calls, c, i);
      Extends(calls, c, j);
      assert JoinsAt(calls + [c], i, rid, user, q) && AcceptsAt(calls + [c], j, rid, creator, q);
    }
  }

  // ---- Who brought a ride to its end ----

  ghost predicate FlagsTold(r: Ride, calls: seq<Call>, rid: RideId) {
    && (r.riderConfirmed ==> r.riderId.Some? && ConfirmedBy(calls, rid, r.riderId.value))
    && (r.passengerConfirmed ==> r.passengerId.Some? && ConfirmedBy(calls, rid, r.passengerId.value))
    && (r.startedAt.Some? ==> r.riderId.Some? && StartedBy(calls, rid, r.riderId.value))
  }

  /** A start goes on record only by a start call of the rider that goes through. */
  lemma StartRecorded(w: World, c: Call, rid: RideId)
    requires rid in w.rides
    ensures
      rid in After(w, c).rides
      && (After(w, c).rides[rid].startedAt.Some? && w.rides[rid].startedAt.None? ==>
            c.Start? && c.rid == rid && w.rides[rid].riderId == Some(c.caller) && Perform(w, c).reply.Done?)
  {
  }

  lemma FlagsStep(front: seq<Call>, c: Call, rid: RideId)
    requires rid in Run(EMPTY, front).rides && FlagsTold(Run(EMPTY, front).rides[rid], front, rid)
    ensures var w := Run(EMPTY, front);
            rid in After(w, c).rides && FlagsTold(After(w, c).rides[rid], front + [c], rid)
  {
    var w := Run(EMPTY, front);
    RunKeepsInv(EMPTY, front);
    Step(w, c);
    var r, r' := w.rides[rid], After(w, c).rides[rid];
    assert Later(r, r') && RideOk(r) && RideOk(r');
    FlagRaised(w, c, rid);
    StartRecorded(w, c, rid);
    if Perform(w, c).reply.Done? {
      LastEffective(front, c);
    }
    if r'.riderId.Some? {
      LongerHistory(front, c, rid, r'.riderId.value);
    }
    if r'.passengerId.Some? {
      LongerHistory(front, c, rid, r'.passengerId.value);
    }
  }

  lemma BornUnconfirmed(w: World, c: Call, rid: RideId, calls: seq<Call>)
    requires rid !in w.rides && rid in After(w, c).rides
    ensures FlagsTold(After(w, c).rides[rid], calls, rid)
  {
  }

  lemma {:induction false} FlagsHaveHistory(calls: seq<Call>, rid: RideId)
    requires rid in Run(EMPTY, calls).rides
    ensures FlagsTold(Run(EMPTY, calls).rides[rid], calls, rid)
    decreases |calls|
  {
    if calls == [] {
    } else {
      var front, last := calls[..|calls| - 1], calls[|calls| - 1];
      RunSnoc(EMPTY, calls);
      assert calls == front + [last];
      if rid in Run(EMPTY, front).rides {
        FlagsHaveHistory(front, rid);
        FlagsStep(front, last, rid);
      } else {
        BornUnconfirmed(Run(EMPTY, front), last, rid, calls);
      }
    }
  }

  /** A completed ride was, in this run and by calls that went through, started by its rider and
      confirmed by its rider and by its passenger, two different users. */
  lemma CompletedByBoth(calls: seq<Call>, rid: RideId)
    requires rid in Run(EMPTY, calls).rides && Run(EMPTY, calls).rides[rid].status.Completed?
    ensures
      var r := Run(EMPTY, calls).rides[rid];
      && r.riderId.Some? && r.passengerId.Some? && r.riderId != r.passengerId
      && StartedBy(calls, rid, r.riderId.value)
      && ConfirmedBy(calls, rid, r.riderId.value)
      && ConfirmedBy(calls, rid, r.passengerId.value)
  {
    RunKeepsInv(EMPTY, calls);
    assert RideOk(Run(EMPTY, calls).rides[rid]);
    FlagsHaveHistory(calls, rid);
  }

  // ---- Times ----

  lemma StampStep(w: World, c: Call, rid: RideId, stamp: Stamp)
    requires rid in w.rides
    ensures rid in After(w, c).rides
    ensures
      var time, time' := StampOf(w.rides[rid], stamp), StampOf(After(w, c).rides[rid], stamp);
      time' != time ==> Perform(w, c).reply.Done? && Stamps(c, rid, stamp) && time' == Some(c.now)
  {
  }

  lemma BornUnstamped(w: World, c: Call, rid: RideId, stamp: Stamp)
    requires rid !in w.rides && rid in After(w, c).rides
    ensures StampOf(After(w, c).rides[rid], stamp) == None
  {
  }

  /** The times on a row are those of the start, the completing confirmation and the cancellation
      that put them there, calls of this run that went through. */
  lemma {:induction false} TimesAreCallTimes(calls: seq<Call>, rid: RideId, stamp: Stamp)
    requires rid in Run(EMPTY, calls).rides
    ensures var time := StampOf(Run(EMPTY, calls).rides[rid], stamp);
            time.Some? ==> StampedAt(calls, rid, stamp, time.value)
    decreases |calls|
  {
    if calls == [] {
    } else {
      var front, last := calls[..|calls| - 1], calls[|calls| - 1];
      var w := Run(EMPTY, front);
      RunSnoc(EMPTY, calls);
      assert calls == front + [last];
      if rid in w.rides {
        TimesAreCallTimes(front, rid, stamp);
        StampStep(w, last, rid, stamp);
        StampHistory(front, last, rid, stamp);
      } else {
        BornUnstamped(w, last, rid, stamp);
      }
    }
  }

  lemma StampHistory(front: seq<Call>, c: Call, rid: RideId, stamp: Stamp)
    ensures forall time :: StampedAt(front, rid, stamp, time) ==> StampedAt(front + [c], rid, stamp, time)
    ensures Perform(Run(EMPTY, front), c).reply.Done? && Stamps(c, rid, stamp) ==> StampedAt(front + [c], rid, stamp, c.now)
  {
    forall time | StampedAt(front, rid, stamp, time) ensures StampedAt(front + [c], rid, stamp, time) {
      var i :| EffectiveAt(front, i) && Stamps(front[i], rid, stamp) && front[i].now == time;
      Extends(front, c, i);
    }
    if Perform(Run(EMPTY, front), c).reply.Done? && Stamps(c, rid, stamp) {
      LastEffective(front, c);
    }
  }

  // ---- Consent ----

  ghost predicate RequestsTold(requests: map<RequestId, RideRequest>, calls: seq<Call>) {
    forall q :: q in requests ==> JoinedWith(calls, requests[q].rideId, requests[q].passengerId, q)
  }

  /** A request is open for a quarter of an hour from the join that made it, and never extended. */
  lemma OpenQuarterHour(w: World, c: Call, q: RequestId)
    requires q in After(w, c).requests
    ensures After(w, c).requests[q].expiresAt
         == if q in w.requests then w.requests[q].expiresAt else (if c.Join? then c.now + 15 * 60 * 1000 else 0)
  {
  }

  ghost predicate SideTold(r: Ride, calls: seq<Call>, rid: RideId) {
    Filled(r).Some? ==> exists q :: Consented(calls, rid, Filled(r).value, r.creatorId, q)
  }

  ghost predicate SidesTold(rides: map<RideId, Ride>, calls: seq<Call>) {
    forall rid :: rid in rides ==> SideTold(rides[rid], calls, rid)
  }

  /** A request row is new only when its passenger joins. */
  lemma RequestCreated(w: World, c: Call, q: RequestId)
    requires q in After(w, c).requests && q !in w.requests
    ensures c.Join? && c.q == q && Perform(w, c).reply.Done?
    ensures After(w, c).requests[q].rideId == c.rid && After(w, c).requests[q].passengerId == c.caller
  {
  }

  lemma RequestsStep(front: seq<Call>, c: Call)
    requires RequestsTold(Run(EMPTY, front).requests, front)
    ensures RequestsTold(After(Run(EMPTY, front), c).requests, front + [c])
  {
    var w := Run(EMPTY, front);
    RunKeepsInv(EMPTY, front);
    Step(w, c);
    var requests' := After(w, c).requests;
    forall q | q in requests' ensures JoinedWith(front + [c], requests'[q].rideId, requests'[q].passengerId, q) {
      if q in w.requests {
        assert RequestLater(w.requests[q], requests'[q]);
        LongerConsent(front, c, requests'[q].rideId, requests'[q].passengerId, 0, q);
      } else {
        RequestCreated(w, c, q);
        LastEffective(front, c);
        assert JoinsAt(front + [c], |front|, requests'[q].rideId, requests'[q].passengerId, q);
      }
    }
  }

  /** The empty side is filled only by the creator's acceptance of the filler's own request. */
  lemma SideFilled(w: World, c: Call, rid: RideId)
    requires rid in After(w, c).rides && Filled(After(w, c).rides[rid]).Some?
    requires rid in w.rides ==> Filled(w.rides[rid]).None?
    ensures c.Respond? && c.accept && c.rid == rid && c.caller == After(w, c).rides[rid].creatorId
    ensures Perform(w, c).reply.Done? && c.q in w.requests && w.requests[c.q].rideId == rid
    ensures Filled(After(w, c).rides[rid]) == Some(w.requests[c.q].passengerId)
  {
  }

  /** A join on record, accepted by the call that is just going through. */
  lemma AcceptanceConsents(front: seq<Call>, c: Call, rid: RideId, user: UserId)
    requires c.Respond? && c.accept && c.rid == rid && Perform(Run(EMPTY, front), c).reply.Done?
    requires JoinedWith(front, rid, user, c.q)
    ensures Consented(front + [c], rid, user, c.caller, c.q)
  {
    var i :| JoinsAt(front, i, rid, user, c.q);
    Extends(front, c, i);
    LastEffective(front, c);
    assert JoinsAt(front + [c], i, rid, user, c.q) && AcceptsAt(front + [c], |front|, rid, c.caller, c.q);
  }

  lemma SideStep(front: seq<Call>, c: Call, rid: RideId)
    requires RequestsTold(Run(EMPTY, front).requests, front) && SidesTold(Run(EMPTY, front).rides, front)
    requires rid in After(Run(EMPTY, front), c).rides
    ensures SideTold(After(Run(EMPTY, front), c).rides[rid], front + [c], rid)
  {
    var w := Run(EMPTY, front);
    var r' := After(w, c).rides[rid];
    RunKeepsInv(EMPTY, front);
    Step(w, c);
    if Filled(r').Some? {
      if rid in w.rides && Filled(w.rides[rid]).Some? {
        assert Later(w.rides[rid], r') && SideTold(w.rides[rid], front, rid);
        var q :| Consented(front, rid, Filled(r').value, r'.creatorId, q);
        LongerConsent(front, c, rid, Filled(r').value, r'.creatorId, q);
      } else {
        SideFilled(w, c, rid);
        AcceptanceConsents(front, c, rid, Filled(r').value);
      }
    }
  }

  lemma {:induction false} ConsentHistory(calls: seq<Call>)
    ensures RequestsTold(Run(EMPTY, calls).requests, calls) && SidesTold(Run(EMPTY, calls).rides, calls)
    decreases |calls|
  {
    if calls == [] {
    } else {
      var front, last := calls[..|calls| - 1], calls[|calls| - 1];
      RunSnoc(EMPTY, calls);
      assert calls == front + [last];
      ConsentHistory(front);
      RequestsStep(front, last);
      forall rid | rid in After(Run(EMPTY, front), last).rides
        ensures SideTold(After(Run(EMPTY, front), last).rides[rid], calls, rid)
      {
        SideStep(front, last, rid);
      }
    }
  }

  /** Nobody is put on a ride unasked: the user on the filled side joined with some request, and
      later the ride's creator accepted that very request, both calls going through. */
  lemma MatchedByConsent(calls: seq<Call>, rid: RideId)
    requires rid in Run(EMPTY, calls).rides && Filled(Run(EMPTY, calls).rides[rid]).Some?
    ensures
      var r := Run(EMPTY, calls).rides[rid];
      exists q, i, j :: i < j && JoinsAt(calls, i, rid, Filled(r).value, q) && AcceptsAt(calls, j, rid, r.creatorId, q)
  {
    ConsentHistory(calls);
    var r := Run(EMPTY, calls).rides[rid];
    assert SideTold(r, calls, rid);
    var q :| Consented(calls, rid, Filled(r).value, r.creatorId, q);
    var i, j :| i < j && JoinsAt(calls, i, rid, Filled(r).value, q) && AcceptsAt(calls, j, rid, r.creatorId, q);
  }

  // ---- Answers ----

  /** Step j, by this creator, gave the request its answer: its acceptance, its refusal, or the
      acceptance of another request for the same ride. */
  predicate AnswersAt(calls: seq<Call>, j: int, rid: RideId, creator: UserId, q: RequestId, status: RequestStatus) {
    && EffectiveAt(calls, j) && calls[j].Respond? && calls[j].rid == rid && calls[j].caller == creator
    && status == (if calls[j].q == q && calls[j].accept then Accepted else Declined)
    && (calls[j].q != q ==> calls[j].accept)
  }

  ghost predicate AnswerTold(w: World, calls: seq<Call>, q: RequestId)
    requires q in w.requests
  {
    var req := w.requests[q];
    !req.status.Pending? ==>
      req.rideId in w.rides
      && exists j :: AnswersAt(calls, j, req.rideId, w.rides[req.rideId].creatorId, q, req.status)
  }

  lemma AnswerStep(front: seq<Call>, c: Call, q: RequestId)
    requires q in Run(EMPTY, front).requests && AnswerTold(Run(EMPTY, front), front, q)
    ensures q in After(Run(EMPTY, front), c).requests && AnswerTold(After(Run(EMPTY, front), c), front + [c], q)
  {
    var w := Run(EMPTY, front);
    var w' := After(w, c);
    RunKeepsInv(EMPTY, front);
    Step(w, c);
    AnsweredByCreator(w, c, q);
    var rid := w.requests[q].rideId;
    assert RequestOk(w.rides, w.requests[q]) && RequestLater(w.requests[q], w'.requests[q]);
    assert Later(w.rides[rid], w'.rides[rid]);
    if w'.requests[q] != w.requests[q] {
      LastEffective(front, c);
      assert AnswersAt(front + [c], |front|, rid, w'.rides[rid].creatorId, q, w'.requests[q].status);
    } else if !w.requests[q].status.Pending? {
      var j :| AnswersAt(front, j, rid, w.rides[rid].creatorId, q, w.requests[q].status);
      Extends(front, c, j);
      assert AnswersAt(front + [c], j, rid, w'.rides[rid].creatorId, q, w'.requests[q].status);
    }
  }

  lemma BornPending(w: World, c: Call, q: RequestId)
    requires q !in w.requests && q in After(w, c).requests
    ensures After(w, c).requests[q].status.Pending?
  {
  }

  lemma {:induction false} AnswersHaveHistory(calls: seq<Call>, q: RequestId)
    requires q in Run(EMPTY, calls).requests
    ensures AnswerTold(Run(EMPTY, calls), calls, q)
    decreases |calls|
  {
    if calls == [] {
    } else {
      var front, last := calls[..|calls| - 1], calls[|calls| - 1];
      RunSnoc(EMPTY, calls);
      assert calls == front + [last];
      if q in Run(EMPTY, front).requests {
        AnswersHaveHistory(front, q);
        AnswerStep(front, last, q);
      } else {
        BornPending(Run(EMPTY, front), last, q);
      }
    }
  }

  /** A request that is no longer pending was accepted or declined, by a call of this run that the
      ride's creator made and that went through: on this request, or, for a declined one, on
      another request that was accepted for the same ride. */
  lemma AnsweredByItsCreator(calls: seq<Call>, q: RequestId)
    requires q in Run(EMPTY, calls).requests && !Run(EMPTY, calls).requests[q].status.Pending?
    ensures
      var w := Run(EMPTY, calls);
      var req := w.requests[q];
      && (req.status.Accepted? || req.status.Declined?)
      && req.rideId in w.rides
      && exists j :: AnswersAt(calls, j, req.rideId, w.rides[req.rideId].creatorId, q, req.status)
  {
    AnswersHaveHistory(calls, q);
    var w := Run(EMPTY, calls);
    var req := w.requests[q];
    var j :| AnswersAt(calls, j, req.rideId, w.rides[req.rideId].creatorId, q, req.status);
  }
}
