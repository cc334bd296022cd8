/** Deliveries of completion jobs with the look for a payment and its creation as separate
    statements: how many payments a ride can get. */
module PaymentRace {
  import opened Domain
  import opened Rides
  import opened Platform
  import Sample

  /** The ride tables, the payments, and the payments that deliveries have found missing. */
  datatype Machine = Machine(w: World, payments: seq<Payment>, missing: map<nat, Payment>)

  const START := Machine(EMPTY, [], map[])

  datatype Move =
    | RideMove(call: Call)
    | Look(k: nat, rid: RideId, now: Time)
    | Pay(k: nat)
    | Die(k: nat)

  function Due(ride: Ride, rid: RideId, now: Time): Payment
    requires ride.passengerId.Some?
  {
    Payment(rid, ride.passengerId.value, ride.fare, PaymentStatus.Completed, now)
  }

  function Next(s: Machine, m: Move): Machine {
    match m
    case RideMove(call) => s.(w := After(s.w, call))
    case Look(k, rid, now) =>
      if k in s.missing || !Billable(s.w.rides, rid) || Paid(s.payments, rid) then s
      else s.(missing := s.missing[k := Due(s.w.rides[rid], rid, now)])
    case Pay(k) =>
      if k !in s.missing then s
      else s.(payments := s.payments + [s.missing[k]], missing := s.missing - {k})
    case Die(k) => s.(missing := s.missing - {k})
  }

  function Play(s: Machine, moves: seq<Move>): Machine
    decreases |moves|
  {
    if moves == [] then s else Play(Next(s, moves[0]), moves[1..])
  }

  /** A look and its payment with nothing in between are the delivery's. */
  lemma BackToBackPays(s: State, rid: RideId, now: Time, k: nat)
    ensures Next(Next(Machine(s.w, s.payments, map[]), Look(k, rid, now)), Pay(k))
         == Machine(s.w, ProcessCompletion(s, rid, now).payments, map[])
  {
    if Billable(s.w.rides, rid) && !Paid(s.payments, rid) {
      assert map[k := Due(s.w.rides[rid], rid, now)] - {k} == map[];
    }
  }

  // ---- How many payments ----

  function PaymentsFor(payments: seq<Payment>, rid: RideId): nat {
    if payments == [] then 0
    else PaymentsFor(payments[..|payments| - 1], rid) + if payments[|payments| - 1].rideId == rid then 1 else 0
  }

  /** The deliveries that have found no payment of the ride and not yet made one. */
  function Undecided(missing: map<nat, Payment>, rid: RideId): set<nat> {
    set k | k in missing && missing[k].rideId == rid
  }

  /** At no point of the run are more than n deliveries of the ride between look and payment. */
  predicate OverlapAtMost(s: Machine, moves: seq<Move>, rid: RideId, n: nat)
    decreases |moves|
  {
    |Undecided(s.missing, rid)| <= n && (moves == [] || OverlapAtMost(Next(s, moves[0]), moves[1..], rid, n))
  }

  lemma {:induction false} PaidCounts(payments: seq<Payment>, rid: RideId)
    ensures Paid(payments, rid) <==> PaymentsFor(payments, rid) > 0
  {
    if payments == [] {
    } else {
      var front, last := payments[..|payments| - 1], payments[|payments| - 1];
      PaidCounts(front, rid);
      assert payments == front + [last];
      if Paid(front, rid) {
        var i :| 0 <= i < |front| && front[i].rideId == rid;
        assert payments[i].rideId == rid;
      }
    }
  }

  lemma UndecidedWithout(missing: map<nat, Payment>, k: nat, rid: RideId)
    ensures Undecided(missing - {k}, rid) == Undecided(missing, rid) - {k}
  {
  }

  lemma LookedUp(missing: map<nat, Payment>, k: nat, p: Payment, rid: RideId)
    requires k !in missing
    ensures Undecided(missing[k := p], rid) == Undecided(missing, rid) + (if p.rideId == rid then {k} else {})
  {
  }

  lemma PaidAppend(payments: seq<Payment>, p: Payment, rid: RideId)
    ensures PaymentsFor(payments + [p], rid) == PaymentsFor(payments, rid) + (if p.rideId == rid then 1 else 0)
  {
    assert (payments + [p])[..|payments|] == payments;
  }

  lemma MoveCounts(s: Machine, m: Move, rid: RideId, n: nat)
    requires PaymentsFor(s.payments, rid) + |Undecided(s.missing, rid)| <= n
    requires |Undecided(Next(s, m).missing, rid)| <= n
    ensures PaymentsFor(Next(s, m).payments, rid) + |Undecided(Next(s, m).missing, rid)| <= n
  {
    match m
    case RideMove(_) =>
    case Look(k, r, now) =>
      PaidCounts(s.payments, r);
      if k !in s.missing && Billable(s.w.rides, r) {
        LookedUp(s.missing, k, Due(s.w.rides[r], r, now), rid);
      }
    case Pay(k) =>
      UndecidedWithout(s.missing, k, rid);
      if k in s.missing {
        PaidAppend(s.payments, s.missing[k], rid);
      }
    case Die(k) => UndecidedWithout(s.missing, k, rid);
  }

  lemma {:induction false} PlayCounts(s: Machine, moves: seq<Move>, rid: RideId, n: nat)
    requires PaymentsFor(s.payments, rid) + |Undecided(s.missing, rid)| <= n && OverlapAtMost(s, moves, rid, n)
    ensures PaymentsFor(Play(s, moves).payments, rid) + |Undecided(Play(s, moves).missing, rid)| <= n
    decreases |moves|
  {
    if moves == [] {
    } else {
      assert OverlapAtMost(Next(s, moves[0]), moves[1..], rid, n);
      MoveCounts(s, moves[0], rid, n);
      PlayCounts(Next(s, moves[0]), moves[1..], rid, n);
    }
  }

  /** A ride gets at most as many payments as deliveries of its job ever overlapped between look and
      payment: at most one if none did. */
  lemma PaymentsWithinOverlap(moves: seq<Move>, rid: RideId, n: nat)
    requires OverlapAtMost(START, moves, rid, n)
    ensures PaymentsFor(Play(START, moves).payments, rid) <= n
  {
    PlayCounts(START, moves, rid, n);
  }

  // ---- Reached ----

  lemma {:induction false} PlaySnoc(s: Machine, moves: seq<Move>, m: Move)
    ensures Play(s, moves + [m]) == Next(Play(s, moves), m)
    decreases |moves|
  {
    if moves == [] {
      assert moves + [m] == [m];
      assert Play(Next(s, m), [m][1..]) == Next(s, m);
    } else {
      assert (moves + [m])[1..] == moves[1..] + [m];
      PlaySnoc(Next(s, moves[0]), moves[1..], m);
    }
  }

  lemma {:induction false} OverlapSnoc(s: Machine, moves: seq<Move>, m: Move, rid: RideId, n: nat)
    requires OverlapAtMost(s, moves, rid, n) && |Undecided(Next(Play(s, moves), m).missing, rid)| <= n
    ensures OverlapAtMost(s, moves + [m], rid, n)
    decreases |moves|
  {
    if moves == [] {
      assert moves + [m] == [m] && [m][1..] == [];
      assert OverlapAtMost(Next(s, m), [], rid, n);
    } else {
      assert (moves + [m])[1..] == moves[1..] + [m];
      OverlapSnoc(Next(s, moves[0]), moves[1..], m, rid, n);
    }
  }

  /** These moves lead here with at most n deliveries of ride 0 overlapping on the way. */
  ghost predicate Reached(moves: seq<Move>, s: Machine, n: nat) {
    Play(START, moves) == s && OverlapAtMost(START, moves, 0, n)
  }

  lemma Extend(moves: seq<Move>, s: Machine, m: Move, n: nat) returns (moves': seq<Move>, s': Machine)
    requires Reached(moves, s, n) && |Undecided(Next(s, m).missing, 0)| <= n
    ensures Reached(moves', s', n) && s' == Next(s, m)
  {
    PlaySnoc(START, moves, m);
    OverlapSnoc(START, moves, m, 0, n);
    moves', s' := moves + [m], Next(s, m);
  }

  lemma {:induction false} RideMoves(moves: seq<Move>, s: Machine, calls: seq<Call>, n: nat)
    returns (moves': seq<Move>, s': Machine)
    requires Reached(moves, s, n) && s.missing == map[]
    ensures Reached(moves', s', n) && s' == s.(w := Run(s.w, calls))
    decreases |calls|
  {
    if calls == [] {
      moves', s' := moves, s;
    } else {
      assert Undecided(map[], 0) == {};
      moves', s' := Extend(moves, s, RideMove(calls[0]), n);
      moves', s' := RideMoves(moves', s', calls[1..], n);
    }
  }

  /** `count` deliveries look before any of them pays. */
  lemma {:induction false} AllLook(moves: seq<Move>, s: Machine, count: nat, n: nat)
    returns (moves': seq<Move>, s': Machine)
    requires Reached(moves, s, n) && Billable(s.w.rides, 0) && s.payments == [] && s.missing == map[] && count <= n
    ensures Reached(moves', s', n) && s'.w == s.w && s'.payments == [] && |Undecided(s'.missing, 0)| == count
    ensures forall k: nat :: (k in s'.missing <==> k < count) && (k in s'.missing ==> s'.missing[k].rideId == 0)
    decreases count
  {
    if count == 0 {
      assert Undecided(map[], 0) == {};
      moves', s' := moves, s;
    } else {
      moves', s' := AllLook(moves, s, count - 1, n);
      LookedUp(s'.missing, count - 1, Due(s.w.rides[0], 0, 0), 0);
      moves', s' := Extend(moves', s', Look(count - 1, 0, 0), n);
    }
  }

  lemma {:induction false} AllPay(moves: seq<Move>, s: Machine, count: nat, n: nat)
    returns (moves': seq<Move>, s': Machine)
    requires Reached(moves, s, n) && |Undecided(s.missing, 0)| <= n
    requires forall k: nat :: (k in s.missing <==> k < count) && (k in s.missing ==> s.missing[k].rideId == 0)
    ensures Reached(moves', s', n) && PaymentsFor(s'.payments, 0) == PaymentsFor(s.payments, 0) + count
    decreases count
  {
    if count == 0 {
      moves', s' := moves, s;
    } else {
      PaidAppend(s.payments, s.missing[count - 1], 0);
      UndecidedWithout(s.missing, count - 1, 0);
      moves', s' := Extend(moves, s, Pay(count - 1), n);
      moves', s' := AllPay(moves', s', count - 1, n);
    }
  }

  /** And the bound is reached for every overlap. */
  lemma OverlapBoundReached(n: nat)
    ensures exists moves :: OverlapAtMost(START, moves, 0, n) && PaymentsFor(Play(START, moves).payments, 0) == n
  {
    Sample.CompletedAfter(EMPTY, 0, 0);
    assert Undecided(map[], 0) == {};
    var moves, s := RideMoves([], START, Sample.CompleteCalls(0, 0), n);
    moves, s := AllLook(moves, s, n, n);
    moves, s := AllPay(moves, s, n, n);
  }
}
