/** The bound of Termination is reached: a run of one ride with 2n + 3 effective calls. */
module Attained {
  import opened Domain
  import opened Rides
  import opened Lifecycle
  import opened Termination
  import opened Progress
  import opened Sums

  lemma {:induction false} EffectiveConcat(w: World, a: seq<Call>, b: seq<Call>, rid: RideId)
    ensures EffectiveCalls(w, a + b, rid) == EffectiveCalls(w, a, rid) + EffectiveCalls(Run(w, a), b, rid)
    ensures Run(w, a + b) == Run(Run(w, a), b)
    decreases |a|
  {
    if a == [] {
      assert a + b == b;
    } else {
      assert (a + b)[1..] == a[1..] + b;
      EffectiveConcat(After(w, a[0]), a[1..], b, rid);
    }
  }

  lemma OneEffective(w: World, c: Call, rid: RideId)
    requires Target(c) == Some(rid) && !c.Update? && !c.Expire? && Perform(w, c).reply.Done?
    ensures EffectiveCalls(w, [c], rid) == 1 && Run(w, [c]) == After(w, c)
  {
    EffectiveIffDone(w, c);
    assert EffectiveCalls(After(w, c), [c][1..], rid) == 0 && Run(After(w, c), [c][1..]) == After(w, c);
  }

  // ---- Everybody asks ----

  function RoleFor(r: Ride): Role {
    if r.kind.Offer? then Passenger else Rider
  }

  function Joins(rid: RideId, role: Role, users: seq<UserId>, ids: seq<RequestId>): seq<Call>
    requires |users| == |ids|
  {
    seq(|users|, i requires 0 <= i < |users| => Join(users[i], role, rid, ids[i], 0))
  }

  /** Everybody's request is still to be made. */
  ghost predicate NobodyAsked(w: World, rid: RideId, users: seq<UserId>, ids: seq<RequestId>) {
    && (forall u :: u in users ==> !HasRequest(w.requests, rid, u))
    && (forall q :: q in ids ==> q !in w.requests)
  }

  /** Request p is the user's, and pending. */
  predicate Asked(requests: map<RequestId, RideRequest>, rid: RideId, q: RequestId, user: UserId) {
    q in requests && requests[q].rideId == rid && requests[q].passengerId == user && requests[q].status.Pending?
  }

  lemma FirstAsks(w: World, rid: RideId, users: seq<UserId>, ids: seq<RequestId>)
    requires rid in w.rides && w.rides[rid].status.Searching? && w.rides[rid].creatorId !in users
    requires users != [] && |users| == |ids| && NoDuplicates(users) && NoDuplicates(ids) && NobodyAsked(w, rid, users, ids)
    ensures
      var c := Join(users[0], RoleFor(w.rides[rid]), rid, ids[0], 0);
      var w' := After(w, c);
      && Perform(w, c).reply.Done? && w'.rides == w.rides
      && (forall q :: q in w.requests ==> q in w'.requests && w'.requests[q] == w.requests[q])
      && Asked(w'.requests, rid, ids[0], users[0])
      && NobodyAsked(w', rid, users[1..], ids[1..])
      && NoDuplicates(users[1..]) && NoDuplicates(ids[1..])
  {
    var w' := After(w, Join(users[0], RoleFor(w.rides[rid]), rid, ids[0], 0));
    assert users[0] in users && ids[0] in ids;
    forall u | u in users[1..] ensures !HasRequest(w'.requests, rid, u) {
      var i :| 0 <= i < |users[1..]| && users[1..][i] == u;
      assert users[i + 1] == u && u != users[0] && u in users;
    }
    forall q | q in ids[1..] ensures q !in w'.requests {
      var i :| 0 <= i < |ids[1..]| && ids[1..][i] == q;
      assert ids[i + 1] == q && q != ids[0] && q in ids;
    }
  }

  lemma {:induction false} AllAsk(w: World, rid: RideId, users: seq<UserId>, ids: seq<RequestId>)
    requires rid in w.rides && w.rides[rid].status.Searching? && w.rides[rid].creatorId !in users
    requires |users| == |ids| && NoDuplicates(users) && NoDuplicates(ids) && NobodyAsked(w, rid, users, ids)
    ensures
      var calls := Joins(rid, RoleFor(w.rides[rid]), users, ids);
      var w' := Run(w, calls);
      && EffectiveCalls(w, calls, rid) == |users| && w'.rides == w.rides
      && (forall q :: q in w.requests ==> q in w'.requests && w'.requests[q] == w.requests[q])
      && (forall i :: 0 <= i < |ids| ==> Asked(w'.requests, rid, ids[i], users[i]))
    decreases |users|
  {
    if users == [] {
    } else {
      var role := RoleFor(w.rides[rid]);
      var calls := Joins(rid, role, users, ids);
      var w1 := After(w, calls[0]);
      FirstAsks(w, rid, users, ids);
      EffectiveIffDone(w, calls[0]);
      assert calls[1..] == Joins(rid, role, users[1..], ids[1..]);
      assert forall u :: u in users[1..] ==> u in users;
      AllAsk(w1, rid, users[1..], ids[1..]);
      var w' := Run(w, calls);
      forall i | 0 <= i < |ids| ensures Asked(w'.requests, rid, ids[i], users[i]) {
        if i > 0 {
          assert Asked(w'.requests, rid, ids[1..][i - 1], users[1..][i - 1]);
        }
      }
    }
  }

  // ---- All but the first are refused ----

  function Refusals(rid: RideId, creator: UserId, ids: seq<RequestId>): seq<Call> {
    seq(|ids|, i requires 0 <= i < |ids| => Respond(creator, rid, ids[i], false))
  }

  ghost predicate AllPending(requests: map<RequestId, RideRequest>, rid: RideId, ids: seq<RequestId>) {
    forall q :: q in ids ==> q in requests && requests[q].rideId == rid && requests[q].status.Pending?
  }

  lemma {:induction false} AllRefused(w: World, rid: RideId, ids: seq<RequestId>)
    requires rid in w.rides && w.rides[rid].status.Searching? && NoDuplicates(ids) && AllPending(w.requests, rid, ids)
    ensures
      var calls := Refusals(rid, w.rides[rid].creatorId, ids);
      var w' := Run(w, calls);
      && EffectiveCalls(w, calls, rid) == |ids| && w'.rides == w.rides
      && (forall q :: q in w.requests && q !in ids ==> q in w'.requests && w'.requests[q] == w.requests[q])
    decreases |ids|
  {
    if ids == [] {
    } else {
      var calls := Refusals(rid, w.rides[rid].creatorId, ids);
      var w1 := After(w, calls[0]);
      assert ids[0] in ids;
      assert Perform(w, calls[0]).reply.Done?;
      EffectiveIffDone(w, calls[0]);
      assert calls[1..] == Refusals(rid, w.rides[rid].creatorId, ids[1..]);
      forall q | q in ids[1..] ensures q in w1.requests && w1.requests[q] == w.requests[q] && q in ids {
        var i :| 0 <= i < |ids[1..]| && ids[1..][i] == q;
        assert ids[i + 1] == q && q != ids[0];
      }
      assert NoDuplicates(ids[1..]);
      AllRefused(w1, rid, ids[1..]);
      assert forall q :: q !in ids ==> q !in ids[1..];
    }
  }

  // ---- The first rides ----

  function Ending(r: Ride, rid: RideId, user: UserId, q: RequestId): seq<Call> {
    [Respond(r.creatorId, rid, q, true)] + [Start(DriverOf(r, user), rid, 0)]
    + [Confirm(DriverOf(r, user), rid, 0)] + [Confirm(TravellerOf(r, user), rid, 0)]
  }

  lemma EndingGoesThrough(w: World, rid: RideId, user: UserId, q: RequestId)
    requires rid in w.rides && w.rides[rid].status.Searching? && RideOk(w.rides[rid])
    requires Asked(w.requests, rid, q, user) && user != w.rides[rid].creatorId
    ensures
      var r := w.rides[rid];
      var w1 := After(w, Respond(r.creatorId, rid, q, true));
      var w2 := After(w1, Start(DriverOf(r, user), rid, 0));
      var w3 := After(w2, Confirm(DriverOf(r, user), rid, 0));
      && Perform(w, Respond(r.creatorId, rid, q, true)).reply.Done?
      && Perform(w1, Start(DriverOf(r, user), rid, 0)).reply.Done?
      && Perform(w2, Confirm(DriverOf(r, user), rid, 0)).reply.Done?
      && Perform(w3, Confirm(TravellerOf(r, user), rid, 0)).reply.Done?
  {
    AcceptThenStart(w, rid, q, 0);
  }

  lemma EndingCounts(w: World, rid: RideId, user: UserId, q: RequestId)
    requires rid in w.rides && w.rides[rid].status.Searching? && RideOk(w.rides[rid])
    requires Asked(w.requests, rid, q, user) && user != w.rides[rid].creatorId
    ensures EffectiveCalls(w, Ending(w.rides[rid], rid, user, q), rid) == 4
  {
    var r := w.rides[rid];
    var accept, start := Respond(r.creatorId, rid, q, true), Start(DriverOf(r, user), rid, 0);
    var first, second := Confirm(DriverOf(r, user), rid, 0), Confirm(TravellerOf(r, user), rid, 0);
    var w1 := After(w, accept);
    var w2 := After(w1, start);
    EndingGoesThrough(w, rid, user, q);
    OneEffective(w, accept, rid);
    OneEffective(w1, start, rid);
    OneEffective(w2, first, rid);
    OneEffective(After(w2, first), second, rid);
    EffectiveConcat(w, [accept], [start], rid);
    EffectiveConcat(w, [accept] + [start], [first], rid);
    EffectiveConcat(w, [accept] + [start] + [first], [second], rid);
  }

  // ---- Together ----

  function WholeRun(r: Ride, rid: RideId, users: seq<UserId>, ids: seq<RequestId>): seq<Call>
    requires users != [] && |users| == |ids|
  {
    Joins(rid, RoleFor(r), users, ids) + Refusals(rid, r.creatorId, ids[1..]) + Ending(r, rid, users[0], ids[0])
  }

  lemma OnlyTheyJoin(r: Ride, rid: RideId, users: seq<UserId>, ids: seq<RequestId>, i: nat)
    requires users != [] && |users| == |ids| && i < |WholeRun(r, rid, users, ids)|
    ensures WholeRun(r, rid, users, ids)[i].Join? ==> WholeRun(r, rid, users, ids)[i].caller in users
  {
    if i < |users| {
      assert WholeRun(r, rid, users, ids)[i] == Joins(rid, RoleFor(r), users, ids)[i];
    } else if i < |users| + |ids[1..]| {
      assert WholeRun(r, rid, users, ids)[i] == Refusals(rid, r.creatorId, ids[1..])[i - |users|];
    } else {
      assert WholeRun(r, rid, users, ids)[i] == Ending(r, rid, users[0], ids[0])[i - |users| - |ids[1..]|];
    }
  }

  /** For any ride just created and any n >= 1 users besides its creator, with request ids not yet
      taken: all ask, all but the first are refused, the first is accepted, and the ride is started
      and confirmed twice. That is 2n + 3 effective calls, joined by those users only. */
  lemma BoundAttained(before: seq<Call>, c: Call, rid: RideId, users: seq<UserId>, ids: seq<RequestId>)
    requires rid !in Run(EMPTY, before).rides && rid in After(Run(EMPTY, before), c).rides
    requires users != [] && |users| == |ids| && NoDuplicates(users) && NoDuplicates(ids)
    requires After(Run(EMPTY, before), c).rides[rid].creatorId !in users
    requires forall q :: q in ids ==> q !in Run(EMPTY, before).requests
    ensures
      var w := After(Run(EMPTY, before), c);
      var calls := WholeRun(w.rides[rid], rid, users, ids);
      && EffectiveCalls(w, calls, rid) == 2 * |users| + 3
      && forall i :: 0 <= i < |calls| && calls[i].Join? && calls[i].rid == rid ==> calls[i].caller in users
  {
    var w0 := Run(EMPTY, before);
    var w := After(w0, c);
    RunKeepsInv(EMPTY, before);
    Step(w0, c);
    FreshPotential(w0, c, rid, {});
    BornSearching(w0, c, rid);
    assert RideOk(w.rides[rid]);
    forall u | u in users ensures !HasRequest(w.requests, rid, u) {
      assert u !in Requesters(w.requests, rid);
    }
    CountWholeRun(w, rid, users, ids);
    var calls := WholeRun(w.rides[rid], rid, users, ids);
    forall i | 0 <= i < |calls| && calls[i].Join? && calls[i].rid == rid ensures calls[i].caller in users {
      OnlyTheyJoin(w.rides[rid], rid, users, ids, i);
    }
  }

  lemma BornSearching(w: World, c: Call, rid: RideId)
    requires rid !in w.rides && rid in After(w, c).rides
    ensures After(w, c).rides[rid].status.Searching? && After(w, c).requests == w.requests
  {
  }

  lemma CountWholeRun(w: World, rid: RideId, users: seq<UserId>, ids: seq<RequestId>)
    requires rid in w.rides && w.rides[rid].status.Searching? && RideOk(w.rides[rid])
    requires users != [] && |users| == |ids| && NoDuplicates(users) && NoDuplicates(ids)
    requires w.rides[rid].creatorId !in users && NobodyAsked(w, rid, users, ids)
    ensures EffectiveCalls(w, WholeRun(w.rides[rid], rid, users, ids), rid) == 2 * |users| + 3
  {
    var r := w.rides[rid];
    var joins, refusals := Joins(rid, RoleFor(r), users, ids), Refusals(rid, r.creatorId, ids[1..]);
    var w1 := Run(w, joins);
    var w2 := Run(w1, refusals);
    AllAsk(w, rid, users, ids);
    assert Asked(w1.requests, rid, ids[0], users[0]);
    forall q | q in ids[1..] ensures q != ids[0] && q in w1.requests && w1.requests[q].rideId == rid && w1.requests[q].status.Pending? {
      var i :| 0 <= i < |ids[1..]| && ids[1..][i] == q;
      assert ids[i + 1] == q && Asked(w1.requests, rid, ids[i + 1], users[i + 1]);
    }
    assert NoDuplicates(ids[1..]);
    AllRefused(w1, rid, ids[1..]);
    assert users[0] in users;
    EndingCounts(w2, rid, users[0], ids[0]);
    EffectiveConcat(w, joins, refusals, rid);
    EffectiveConcat(w, joins + refusals, Ending(r, rid, users[0], ids[0]), rid);
  }
}
