/** How a user comes to drive: profile, approval, role, issued token, offer or accepted request. */
module Provenance {
  import opened Domain
  import opened Rides
  import opened Lifecycle

  datatype Verification = Pending | Approved | Rejected

  /** `tokens` holds every (subject, role) ever signed into an access token; `approvals` is a
      history of the users some verification approved, which no call reads. */
  datatype Campus = Campus(
    w: World,
    roles: map<UserId, Role>,
    profiles: map<UserId, Verification>,
    tokens: set<(UserId, Role)>,
    approvals: set<UserId>)

  datatype Act =
    | Register(user: UserId)
    | CreateProfile(user: UserId)
    | VerifyRider(user: UserId, approve: bool)
    | IssueToken(user: UserId)
    // A ride call arriving with an access token; expiry calls carry none.
    | Authorised(role: Role, call: Call)

  /** The subject and role the controller takes from the token are the caller and role of the call. */
  predicate CarriesToken(tokens: set<(UserId, Role)>, role: Role, c: Call) {
    match c
    case Create(caller, r, _, _, _) => (caller, role) in tokens && r == role
    case Update(caller, _, _, _) => (caller, role) in tokens
    case Cancel(caller, _, _) => (caller, role) in tokens
    case Join(caller, r, _, _, _) => (caller, role) in tokens && r == role
    case Respond(caller, _, _, _) => (caller, role) in tokens
    case Start(caller, _, _) => (caller, role) in tokens
    case Confirm(caller, _, _) => (caller, role) in tokens
    case Expire(_) => true
  }

  function Do(s: Campus, a: Act): Campus {
    match a
    case Register(user) =>
      if user in s.roles then s else s.(roles := s.roles[user := Passenger])
    case CreateProfile(user) =>
      if user !in s.roles || user in s.profiles then s
      else s.(profiles := s.profiles[user := Verification.Pending])
    case VerifyRider(user, approve) =>
      if user !in s.profiles || user !in s.roles then s
      else s.(profiles := s.profiles[user := if approve then Approved else Rejected],
              roles := s.roles[user := if approve then Rider else Passenger],
              approvals := if approve then s.approvals + {user} else s.approvals)
    case IssueToken(user) =>
      if user !in s.roles then s else s.(tokens := s.tokens + {(user, s.roles[user])})
    case Authorised(role, call) =>
      if CarriesToken(s.tokens, role, call) then s.(w := After(s.w, call)) else s
  }

  function DoAll(s: Campus, acts: seq<Act>): Campus
    decreases |acts|
  {
    if acts == [] then s else DoAll(Do(s, acts[0]), acts[1..])
  }

  const OPENING := Campus(EMPTY, map[], map[], {}, {})

  // ---- The chain of custody ----

  ghost predicate RolesOk(s: Campus) {
    && (forall u :: u in s.profiles ==> u in s.roles)
    && (forall u :: u in s.roles ==> s.roles[u] == if u in s.profiles && s.profiles[u].Approved? then Rider else Passenger)
    && (forall u :: u in s.profiles && s.profiles[u].Approved? ==> u in s.approvals)
  }

  ghost predicate TokensOk(s: Campus) {
    forall u: UserId :: (u, Rider) in s.tokens ==> u in s.approvals
  }

  ghost predicate DriversOk(rides: map<RideId, Ride>, approvals: set<UserId>) {
    forall rid :: rid in rides && rides[rid].riderId.Some? ==> rides[rid].riderId.value in approvals
  }

  /** Whoever asks to fulfil a passenger's post is a candidate driver. */
  ghost predicate CandidatesOk(rides: map<RideId, Ride>, requests: map<RequestId, RideRequest>, approvals: set<UserId>) {
    forall q :: q in requests && requests[q].rideId in rides && rides[requests[q].rideId].kind.Request?
      ==> requests[q].passengerId in approvals
  }

  ghost predicate Custody(s: Campus) {
    && Inv(s.w)
    && RolesOk(s) && TokensOk(s)
    && DriversOk(s.w.rides, s.approvals)
    && CandidatesOk(s.w.rides, s.w.requests, s.approvals)
  }

  lemma CreateKeepsDrivers(s: Campus, caller: UserId, role: Role, dto: CreateRideDto, id: RideId, now: Time)
    requires TokensOk(s) && DriversOk(s.w.rides, s.approvals) && (caller, role) in s.tokens
    ensures DriversOk(CreateRide(s.w, caller, role, dto, id, now).w.rides, s.approvals)
  {
  }

  /** Accepting a request puts a driver on a passenger's post, and only a candidate. */
  lemma RespondKeepsDrivers(w: World, approvals: set<UserId>, caller: UserId, rid: RideId, q: RequestId, accept: bool)
    requires DriversOk(w.rides, approvals) && CandidatesOk(w.rides, w.requests, approvals)
    ensures DriversOk(RespondToRequest(w, caller, rid, q, accept).w.rides, approvals)
  {
  }

  lemma CallKeepsDrivers(s: Campus, role: Role, c: Call)
    requires Custody(s) && CarriesToken(s.tokens, role, c)
    ensures DriversOk(After(s.w, c).rides, s.approvals)
  {
    match c
    case Create(caller, _, dto, id, now) => CreateKeepsDrivers(s, caller, role, dto, id, now);
    case Update(_, _, _, _) =>
    case Cancel(_, _, _) =>
    case Join(_, _, _, _, _) =>
    case Respond(caller, rid, q, accept) => RespondKeepsDrivers(s.w, s.approvals, caller, rid, q, accept);
    case Start(_, _, _) =>
    case Confirm(_, _, _) =>
    case Expire(_) =>
  }

  lemma JoinKeepsCandidates(s: Campus, caller: UserId, role: Role, rid: RideId, q: RequestId, now: Time)
    requires TokensOk(s) && CandidatesOk(s.w.rides, s.w.requests, s.approvals) && (caller, role) in s.tokens
    ensures var w' := RequestRide(s.w, caller, role, rid, q, now).w;
            CandidatesOk(w'.rides, w'.requests, s.approvals)
  {
  }

  lemma RespondKeepsCandidates(w: World, approvals: set<UserId>, caller: UserId, rid: RideId, q: RequestId, accept: bool)
    requires CandidatesOk(w.rides, w.requests, approvals)
    ensures var w' := RespondToRequest(w, caller, rid, q, accept).w;
            CandidatesOk(w'.rides, w'.requests, approvals)
  {
  }

  /** Calls that leave the requests alone leave the type of every requested ride alone. */
  lemma CandidatesFrame(w: World, w': World, approvals: set<UserId>)
    requires RequestsOk(w.rides, w.requests) && CandidatesOk(w.rides, w.requests, approvals)
    requires w'.requests == w.requests && RidesLater(w.rides, w'.rides)
    ensures CandidatesOk(w'.rides, w'.requests, approvals)
  {
  }

  lemma RequestsUntouched(w: World, c: Call)
    requires !c.Join? && !c.Respond?
    ensures After(w, c).requests == w.requests
  {
  }

  lemma RowCallKeepsCandidates(w: World, approvals: set<UserId>, c: Call)
    requires Inv(w) && CandidatesOk(w.rides, w.requests, approvals) && !c.Join? && !c.Respond?
    ensures CandidatesOk(After(w, c).rides, After(w, c).requests, approvals)
  {
    RequestsUntouched(w, c);
    Step(w, c);
    CandidatesFrame(w, After(w, c), approvals);
  }

  lemma CallKeepsCandidates(s: Campus, role: Role, c: Call)
    requires Custody(s) && CarriesToken(s.tokens, role, c)
    ensures CandidatesOk(After(s.w, c).rides, After(s.w, c).requests, s.approvals)
  {
    match c
    case Join(caller, _, rid, q, now) => JoinKeepsCandidates(s, caller, role, rid, q, now);
    case Respond(caller, rid, q, accept) => RespondKeepsCandidates(s.w, s.approvals, caller, rid, q, accept);
    case _ => RowCallKeepsCandidates(s.w, s.approvals, c);
  }

  lemma ActKeeps(s: Campus, a: Act)
    requires Custody(s)
    ensures Custody(Do(s, a))
  {
    if a.Authorised? && CarriesToken(s.tokens, a.role, a.call) {
      Step(s.w, a.call);
      CallKeepsDrivers(s, a.role, a.call);
      CallKeepsCandidates(s, a.role, a.call);
    }
  }

  /** Did the run approve this user, with effect, at step i? */
  ghost predicate ApprovedAt(s: Campus, acts: seq<Act>, user: UserId, i: nat) {
    && i < |acts| && acts[i] == VerifyRider(user, true)
    && user in DoAll(s, acts[..i]).profiles
    && DoAll(s, acts[..i + 1]).roles.Keys >= {user}
    && DoAll(s, acts[..i + 1]).roles[user] == Rider
  }

  lemma {:induction false} DoAllPrefix(s: Campus, acts: seq<Act>)
    requires acts != []
    ensures DoAll(s, acts) == Do(DoAll(s, acts[..|acts| - 1]), acts[|acts| - 1])
    decreases |acts|
  {
    if |acts| == 1 {
      assert DoAll(Do(s, acts[0]), acts[1..]) == Do(s, acts[0]);
      assert acts[..0] == [];
    } else {
      DoAllPrefix(Do(s, acts[0]), acts[1..]);
      assert acts[..|acts| - 1][1..] == acts[1..][..|acts| - 2];
    }
  }

  lemma {:induction false} ApprovalsHappened(acts: seq<Act>, user: UserId)
    requires user in DoAll(OPENING, acts).approvals
    ensures exists i: nat :: ApprovedAt(OPENING, acts, user, i)
    decreases |acts|
  {
    if acts == [] {
    } else {
      var front, last := acts[..|acts| - 1], acts[|acts| - 1];
      DoAllPrefix(OPENING, acts);
      if user in DoAll(OPENING, front).approvals {
        ApprovalsHappened(front, user);
        var i: nat :| ApprovedAt(OPENING, front, user, i);
        assert front[..i] == acts[..i] && front[..i + 1] == acts[..i + 1];
        assert ApprovedAt(OPENING, acts, user, i);
      } else {
        assert acts[..|acts|] == acts;
        assert ApprovedAt(OPENING, acts, user, |acts| - 1);
      }
    }
  }

  lemma {:induction false} RunKeepsCustody(s: Campus, acts: seq<Act>)
    requires Custody(s)
    ensures Custody(DoAll(s, acts))
    decreases |acts|
  {
    if acts == [] {
    } else {
      ActKeeps(s, acts[0]);
      RunKeepsCustody(Do(s, acts[0]), acts[1..]);
    }
  }

  // ---- The main results ----

  /** Starting from nobody, every user who appears as a ride's driver was approved by a
      verification at an earlier step of the run. */
  lemma DriversWereApproved(acts: seq<Act>, rid: RideId)
    requires rid in DoAll(OPENING, acts).w.rides && DoAll(OPENING, acts).w.rides[rid].riderId.Some?
    ensures exists i: nat :: ApprovedAt(OPENING, acts, DoAll(OPENING, acts).w.rides[rid].riderId.value, i)
  {
    RunKeepsCustody(OPENING, acts);
    ApprovalsHappened(acts, DoAll(OPENING, acts).w.rides[rid].riderId.value);
  }

  /** In every reachable state the rider role and an approved profile go together, and everybody
      else is a passenger. */
  lemma RiderIffApproved(acts: seq<Act>, user: UserId)
    requires user in DoAll(OPENING, acts).roles
    ensures var s := DoAll(OPENING, acts);
            s.roles[user] == if user in s.profiles && s.profiles[user].Approved? then Rider else Passenger
  {
    RunKeepsCustody(OPENING, acts);
  }

  /** The account tables the admin service writes. */
  class AdminService {
    var roles: map<UserId, Role>
    var profiles: map<UserId, Verification>
    ghost var approvals: set<UserId>

    /** One transaction: profile status and role change together or not at all. */
    method Verify(user: UserId, approve: bool) returns (reply: Reply)
      modifies this
      ensures forall w: World, tokens: set<(UserId, Role)> ::
        Campus(w, roles, profiles, tokens, approvals)
          == Do(Campus(w, old(roles), old(profiles), tokens, old(approvals)), VerifyRider(user, approve))
      ensures reply.Done? <==> user in old(profiles) && user in old(roles)
      ensures reply == Failed(NotFound) <==> user !in old(profiles)
      ensures reply.Done? ==> profiles == old(profiles)[user := if approve then Approved else Rejected]
      ensures reply.Done? ==> roles == old(roles)[user := if approve then Rider else Passenger]
      ensures !reply.Done? ==> profiles == old(profiles) && roles == old(roles)
    {
      if user !in profiles {
        return Failed(NotFound);
      }
      if user !in roles {
        return Failed(RecordMissing);
      }
      var newStatus := if approve then Approved else Rejected;
      profiles := profiles[user := newStatus];
      roles := roles[user := if approve then Rider else Passenger];
      if approve {
        approvals := approvals + {user};
      }
      return Done;
    }
  }
}
