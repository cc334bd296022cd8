/** The two-party rating handshake under every interleaving of its statements. */
module BlindReveal {
  import opened Domain
  import opened Rides
  import opened Lifecycle
  import opened Platform
  import opened Records
  import opened Statements

  ghost predicate BothRated(ratings: seq<Rating>, c: RatingCall) {
    Rated(ratings, c.rid, c.rater) && Rated(ratings, c.rid, c.ratee)
  }

  /** The call's parties are the two sides of a completed ride. */
  predicate PartiesOk(rides: map<RideId, Ride>, c: RatingCall) {
    RatingOk(rides, Rating(c.rid, c.rater, c.ratee, c.score, false))
  }

  /** A call past its insert has its rating in the table; one about to reveal has seen both. */
  predicate CallOk(rides: map<RideId, Ride>, ratings: seq<Rating>, c: RatingCall) {
    && PartiesOk(rides, c)
    && (Inserted(c.pc) ==> Rated(ratings, c.rid, c.rater))
    && (c.pc.RevealBoth? ==> Rated(ratings, c.rid, c.ratee))
  }

  ghost predicate CallsOk(rides: map<RideId, Ride>, ratings: seq<Rating>, calls: map<nat, RatingCall>) {
    forall k :: k in calls ==> CallOk(rides, ratings, calls[k])
  }

  /** Ratings of one ride carry the same flag, and a revealed one has its counterpart. */
  ghost predicate Together(ratings: seq<Rating>) {
    && (forall i, j :: 0 <= i < |ratings| && 0 <= j < |ratings| && ratings[i].rideId == ratings[j].rideId
          ==> ratings[i].isRevealed == ratings[j].isRevealed)
    && (forall i :: 0 <= i < |ratings| && ratings[i].isRevealed
          ==> Rated(ratings, ratings[i].rideId, ratings[i].rateeId))
  }

  /** A call that has inserted its rating and not yet got past the reveal. */
  predicate Responsible(c: RatingCall) {
    c.pc.LookOther? || c.pc.RevealBoth? || (c.pc.Stopped? && c.pc.inserted)
  }

  ghost predicate SomeoneWill(calls: map<nat, RatingCall>, rid: RideId) {
    exists k :: k in calls && calls[k].rid == rid && Responsible(calls[k])
  }

  /** An unrevealed rating whose counterpart exists is in the hands of some call. */
  ghost predicate Promised(ratings: seq<Rating>, calls: map<nat, RatingCall>) {
    forall i :: 0 <= i < |ratings| && !ratings[i].isRevealed && Rated(ratings, ratings[i].rideId, ratings[i].rateeId)
      ==> SomeoneWill(calls, ratings[i].rideId)
  }

  ghost predicate TablesOk(rides: map<RideId, Ride>, ratings: seq<Rating>, calls: map<nat, RatingCall>) {
    && RatingsOk(rides, ratings) && OnePerRater(ratings)
    && CallsOk(rides, ratings, calls)
    && Together(ratings)
    && Promised(ratings, calls)
  }

  ghost predicate HandshakeOk(s: Machine) {
    Inv(s.w) && TablesOk(s.w.rides, s.db.ratings, s.calls)
  }

  // ---- Insert ----

  lemma RatedGrows(ratings: seq<Rating>, r: Rating, rid: RideId, user: UserId)
    ensures Rated(ratings + [r], rid, user) <==> Rated(ratings, rid, user) || (r.rideId == rid && r.raterId == user)
  {
    var more := ratings + [r];
    if Rated(ratings, rid, user) {
      var i :| 0 <= i < |ratings| && ratings[i].rideId == rid && ratings[i].raterId == user;
      assert more[i] == ratings[i];
    }
    if r.rideId == rid && r.raterId == user {
      assert more[|ratings|] == r;
    }
    if Rated(more, rid, user) {
      var i :| 0 <= i < |more| && more[i].rideId == rid && more[i].raterId == user;
      assert i < |ratings| ==> more[i] == ratings[i];
    }
  }

  /** When a party inserts, the other party's rating, if any, is still unrevealed. */
  lemma NothingRevealedYet(rides: map<RideId, Ride>, ratings: seq<Rating>, c: RatingCall, i: nat)
    requires RatingsOk(rides, ratings) && Together(ratings) && PartiesOk(rides, c)
    requires !Rated(ratings, c.rid, c.rater)
    requires i < |ratings| && ratings[i].rideId == c.rid
    ensures !ratings[i].isRevealed && ratings[i].raterId == c.ratee
  {
  }

  lemma InsertTogether(rides: map<RideId, Ride>, ratings: seq<Rating>, c: RatingCall)
    requires RatingsOk(rides, ratings) && Together(ratings) && PartiesOk(rides, c) && !Rated(ratings, c.rid, c.rater)
    ensures Together(ratings + [Rating(c.rid, c.rater, c.ratee, c.score, false)])
  {
    var r := Rating(c.rid, c.rater, c.ratee, c.score, false);
    var more := ratings + [r];
    forall i, j | 0 <= i < |more| && 0 <= j < |more| && more[i].rideId == more[j].rideId
      ensures more[i].isRevealed == more[j].isRevealed
    {
      if i < |ratings| && j == |ratings| {
        NothingRevealedYet(rides, ratings, c, i);
      }
      if j < |ratings| && i == |ratings| {
        NothingRevealedYet(rides, ratings, c, j);
      }
    }
    forall i | 0 <= i < |more| && more[i].isRevealed ensures Rated(more, more[i].rideId, more[i].rateeId) {
      assert i < |ratings| && Rated(ratings, ratings[i].rideId, ratings[i].rateeId);
      RatedGrows(ratings, r, more[i].rideId, more[i].rateeId);
    }
  }

  lemma CallsAfterInsert(rides: map<RideId, Ride>, ratings: seq<Rating>, r: Rating, calls: map<nat, RatingCall>)
    requires CallsOk(rides, ratings, calls)
    ensures CallsOk(rides, ratings + [r], calls)
  {
    forall k | k in calls ensures CallOk(rides, ratings + [r], calls[k]) {
      assert CallOk(rides, ratings, calls[k]);
      RatedGrows(ratings, r, calls[k].rid, calls[k].rater);
      RatedGrows(ratings, r, calls[k].rid, calls[k].ratee);
    }
  }

  /** Replacing one call by a responsible version of itself keeps every promise. */
  lemma StillResponsible(calls: map<nat, RatingCall>, k: nat, c: RatingCall, rid: RideId)
    requires k in calls && c.rid == calls[k].rid && (Responsible(calls[k]) ==> Responsible(c))
    requires SomeoneWill(calls, rid)
    ensures SomeoneWill(calls[k := c], rid)
  {
    var w :| w in calls && calls[w].rid == rid && Responsible(calls[w]);
    assert Responsible(calls[k := c][w]);
  }

  lemma InsertPromised(rides: map<RideId, Ride>, ratings: seq<Rating>, calls: map<nat, RatingCall>, k: nat)
    requires Promised(ratings, calls) && k in calls && calls[k].pc.Insert?
    ensures var c := calls[k];
            Promised(ratings + [Rating(c.rid, c.rater, c.ratee, c.score, false)], calls[k := c.(pc := LookOther)])
  {
    var c := calls[k];
    var r := Rating(c.rid, c.rater, c.ratee, c.score, false);
    var more, calls' := ratings + [r], calls[k := c.(pc := LookOther)];
    forall i | 0 <= i < |more| && !more[i].isRevealed && Rated(more, more[i].rideId, more[i].rateeId)
      ensures SomeoneWill(calls', more[i].rideId)
    {
      if more[i].rideId == c.rid {
        assert Responsible(calls'[k]);
      } else {
        RatedGrows(ratings, r, more[i].rideId, more[i].rateeId);
        assert SomeoneWill(calls, more[i].rideId);
        StillResponsible(calls, k, c.(pc := LookOther), more[i].rideId);
      }
    }
  }

  // ---- Reveal ----

  lemma RatedRevealed(ratings: seq<Rating>, rid: RideId, ride: RideId, user: UserId)
    ensures Rated(Reveal(ratings, rid), ride, user) <==> Rated(ratings, ride, user)
  {
  }

  lemma RevealTogether(rides: map<RideId, Ride>, ratings: seq<Rating>, c: RatingCall)
    requires RatingsOk(rides, ratings) && Together(ratings) && PartiesOk(rides, c) && BothRated(ratings, c)
    ensures Together(Reveal(ratings, c.rid))
  {
    var revealed := Reveal(ratings, c.rid);
    forall i | 0 <= i < |revealed| && revealed[i].isRevealed
      ensures Rated(revealed, revealed[i].rideId, revealed[i].rateeId)
    {
      assert RatingOk(rides, ratings[i]);
      RatedRevealed(ratings, c.rid, revealed[i].rideId, revealed[i].rateeId);
    }
  }

  lemma RevealPromised(ratings: seq<Rating>, calls: map<nat, RatingCall>, k: nat)
    requires Promised(ratings, calls) && k in calls && calls[k].pc.RevealBoth?
    ensures Promised(Reveal(ratings, calls[k].rid), calls[k := calls[k].(pc := AggregateRatee)])
  {
    var c := calls[k];
    var revealed, calls' := Reveal(ratings, c.rid), calls[k := c.(pc := AggregateRatee)];
    forall i | 0 <= i < |revealed| && !revealed[i].isRevealed
               && Rated(revealed, revealed[i].rideId, revealed[i].rateeId)
      ensures SomeoneWill(calls', revealed[i].rideId)
    {
      assert revealed[i] == ratings[i] && ratings[i].rideId != c.rid;
      RatedRevealed(ratings, c.rid, ratings[i].rideId, ratings[i].rateeId);
      assert SomeoneWill(calls, ratings[i].rideId);
      var w :| w in calls && calls[w].rid == ratings[i].rideId && Responsible(calls[w]);
      assert calls'[w] == calls[w];
    }
  }

  // ---- Steps that leave the ratings alone ----

  /** A call that moves on without touching the ratings keeps every promise if it stays
      responsible, or if its ride is one rating short. */
  lemma MovePromised(rides: map<RideId, Ride>, ratings: seq<Rating>, calls: map<nat, RatingCall>, k: nat, pc: Pc)
    requires RatingsOk(rides, ratings) && Promised(ratings, calls) && CallsOk(rides, ratings, calls) && k in calls
    requires Responsible(calls[k]) ==> Responsible(calls[k].(pc := pc)) || !Rated(ratings, calls[k].rid, calls[k].ratee)
    ensures Promised(ratings, calls[k := calls[k].(pc := pc)])
  {
    var c := calls[k].(pc := pc);
    forall i | 0 <= i < |ratings| && !ratings[i].isRevealed && Rated(ratings, ratings[i].rideId, ratings[i].rateeId)
      ensures SomeoneWill(calls[k := c], ratings[i].rideId)
    {
      assert SomeoneWill(calls, ratings[i].rideId);
      var w :| w in calls && calls[w].rid == ratings[i].rideId && Responsible(calls[w]);
      if w == k {
        assert CallOk(rides, ratings, calls[k]) && RatingOk(rides, ratings[i]);
        assert Rated(ratings, ratings[i].rideId, ratings[i].raterId);
        assert Responsible(c);
        assert calls[k := c][k] == c;
      } else {
        assert calls[k := c][w] == calls[w];
      }
    }
  }

  // ---- One move ----

  lemma InsertedOk(rides: map<RideId, Ride>, ratings: seq<Rating>, c: RatingCall)
    requires RatingsOk(rides, ratings) && OnePerRater(ratings) && PartiesOk(rides, c)
    requires !Rated(ratings, c.rid, c.rater)
    ensures var more := ratings + [Rating(c.rid, c.rater, c.ratee, c.score, false)];
            RatingsOk(rides, more) && OnePerRater(more)
  {
  }

  lemma InserterMoves(rides: map<RideId, Ride>, ratings: seq<Rating>, calls: map<nat, RatingCall>, k: nat)
    requires CallsOk(rides, ratings, calls) && k in calls && calls[k].pc.Insert?
    ensures var c := calls[k];
            CallsOk(rides, ratings + [Rating(c.rid, c.rater, c.ratee, c.score, false)], calls[k := c.(pc := LookOther)])
  {
    var c := calls[k];
    var r := Rating(c.rid, c.rater, c.ratee, c.score, false);
    assert CallOk(rides, ratings, c);
    CallsAfterInsert(rides, ratings, r, calls);
    RatedGrows(ratings, r, c.rid, c.rater);
    assert CallOk(rides, ratings + [r], c.(pc := LookOther));
  }

  lemma InsertStep(rides: map<RideId, Ride>, ratings: seq<Rating>, calls: map<nat, RatingCall>, k: nat)
    requires TablesOk(rides, ratings, calls) && k in calls && calls[k].pc.Insert?
    requires !Rated(ratings, calls[k].rid, calls[k].rater)
    ensures var c := calls[k];
            TablesOk(rides, ratings + [Rating(c.rid, c.rater, c.ratee, c.score, false)], calls[k := c.(pc := LookOther)])
  {
    var c := calls[k];
    var r := Rating(c.rid, c.rater, c.ratee, c.score, false);
    assert CallOk(rides, ratings, c);
    InsertedOk(rides, ratings, c);
    InsertTogether(rides, ratings, c);
    InsertPromised(rides, ratings, calls, k);
    InserterMoves(rides, ratings, calls, k);
  }

  lemma RevealerMoves(rides: map<RideId, Ride>, ratings: seq<Rating>, calls: map<nat, RatingCall>, k: nat)
    requires CallsOk(rides, ratings, calls) && k in calls && calls[k].pc.RevealBoth?
    ensures CallsOk(rides, Reveal(ratings, calls[k].rid), calls[k := calls[k].(pc := AggregateRatee)])
  {
  }

  lemma RevealStep(rides: map<RideId, Ride>, ratings: seq<Rating>, calls: map<nat, RatingCall>, k: nat)
    requires TablesOk(rides, ratings, calls) && k in calls && calls[k].pc.RevealBoth?
    ensures TablesOk(rides, Reveal(ratings, calls[k].rid), calls[k := calls[k].(pc := AggregateRatee)])
  {
    assert CallOk(rides, ratings, calls[k]);
    RevealKeeps(rides, ratings, calls[k].rid);
    RevealTogether(rides, ratings, calls[k]);
    RevealPromised(ratings, calls, k);
    RevealerMoves(rides, ratings, calls, k);
  }

  /** A call that only changes its program counter, with what the new one asserts already true. */
  lemma MoveOn(rides: map<RideId, Ride>, ratings: seq<Rating>, calls: map<nat, RatingCall>, k: nat, pc: Pc)
    requires RatingsOk(rides, ratings) && Promised(ratings, calls) && CallsOk(rides, ratings, calls) && k in calls
    requires Inserted(pc) ==> Inserted(calls[k].pc)
    requires pc.RevealBoth? ==> Rated(ratings, calls[k].rid, calls[k].ratee)
    requires Responsible(calls[k]) ==> Responsible(calls[k].(pc := pc)) || !Rated(ratings, calls[k].rid, calls[k].ratee)
    ensures var calls' := calls[k := calls[k].(pc := pc)];
            Promised(ratings, calls') && CallsOk(rides, ratings, calls')
  {
    MovePromised(rides, ratings, calls, k, pc);
    assert CallOk(rides, ratings, calls[k]);
  }

  /** Every other statement leaves the ratings alone and weakens no promise. */
  lemma QuietStep(rides: map<RideId, Ride>, db: Db, calls: map<nat, RatingCall>, k: nat)
    requires TablesOk(rides, db.ratings, calls) && k in calls
    requires !calls[k].pc.RevealBoth?
    requires calls[k].pc.Insert? ==> Rated(db.ratings, calls[k].rid, calls[k].rater)
    ensures var a := Advance(db, calls[k]);
            a.db.ratings == db.ratings && TablesOk(rides, db.ratings, calls[k := a.call])
  {
    var c := calls[k];
    var a := Advance(db, c);
    assert a.call == c.(pc := a.call.pc);
    MoveOn(rides, db.ratings, calls, k, a.call.pc);
  }

  lemma AdvanceStep(rides: map<RideId, Ride>, db: Db, calls: map<nat, RatingCall>, k: nat)
    requires TablesOk(rides, db.ratings, calls) && k in calls
    ensures var a := Advance(db, calls[k]); TablesOk(rides, a.db.ratings, calls[k := a.call])
  {
    var c := calls[k];
    if c.pc.Insert? && !Rated(db.ratings, c.rid, c.rater) {
      InsertStep(rides, db.ratings, calls, k);
    } else if c.pc.RevealBoth? {
      RevealStep(rides, db.ratings, calls, k);
    } else {
      QuietStep(rides, db, calls, k);
    }
  }

  lemma SubmitOk(s: Machine, k: nat, rater: UserId, rid: RideId, score: Score)
    requires HandshakeOk(s) && k !in s.calls && RatingRefusal(s.w.rides, rater, rid).None?
    ensures HandshakeOk(Next(s, Submit(k, rater, rid, score)))
  {
    var c := RatingCall(rater, Counterpart(s.w.rides[rid], rater), rid, score, LookExisting);
    assert RideOk(s.w.rides[rid]);
    assert CallOk(s.w.rides, s.db.ratings, c);
    var calls' := s.calls[k := c];
    forall i | 0 <= i < |s.db.ratings| && !s.db.ratings[i].isRevealed
               && Rated(s.db.ratings, s.db.ratings[i].rideId, s.db.ratings[i].rateeId)
      ensures SomeoneWill(calls', s.db.ratings[i].rideId)
    {
      assert SomeoneWill(s.calls, s.db.ratings[i].rideId);
      var w :| w in s.calls && s.calls[w].rid == s.db.ratings[i].rideId && Responsible(s.calls[w]);
      assert calls'[w] == s.calls[w];
    }
  }

  lemma FrozenRides(rides: map<RideId, Ride>, rides': map<RideId, Ride>, ratings: seq<Rating>, calls: map<nat, RatingCall>)
    requires TablesOk(rides, ratings, calls) && Frozen(rides, rides')
    ensures TablesOk(rides', ratings, calls)
  {
  }

  lemma RideMoveKeeps(s: Machine, call: Call)
    requires HandshakeOk(s)
    ensures HandshakeOk(Next(s, RideMove(call)))
  {
    Step(s.w, call);
    EvolvingFreezes(s.w.rides, After(s.w, call).rides);
    FrozenRides(s.w.rides, After(s.w, call).rides, s.db.ratings, s.calls);
  }

  lemma StopKeeps(s: Machine, k: nat)
    requires HandshakeOk(s)
    ensures HandshakeOk(Next(s, StopCall(k)))
  {
    if k in s.calls && !s.calls[k].pc.Finished? {
      MoveOn(s.w.rides, s.db.ratings, s.calls, k, Stopped(Inserted(s.calls[k].pc), OwedByCall(s.calls[k])));
    }
  }

  /** Completion jobs and the trust worker touch neither rides, ratings nor rating calls. */
  lemma OthersKeep(s: Machine, m: Move)
    requires m.BeginJob? || m.AdvanceJob? || m.Take? || m.Compute? || m.Store? || m.Stall? || m.Throw?
    ensures Next(s, m).w == s.w && Next(s, m).calls == s.calls && Next(s, m).db.ratings == s.db.ratings
  {
  }

  lemma AdvanceKeeps(s: Machine, k: nat)
    requires HandshakeOk(s)
    ensures HandshakeOk(Next(s, AdvanceCall(k)))
  {
    if k in s.calls {
      AdvanceStep(s.w.rides, s.db, s.calls, k);
    }
  }

  lemma MoveKeeps(s: Machine, m: Move)
    requires HandshakeOk(s)
    ensures HandshakeOk(Next(s, m))
  {
    match m
    case RideMove(call) => RideMoveKeeps(s, call);
    case Submit(k, rater, rid, score) =>
      if k !in s.calls && RatingRefusal(s.w.rides, rater, rid).None? {
        SubmitOk(s, k, rater, rid, score);
      }
    case AdvanceCall(k) => AdvanceKeeps(s, k);
    case StopCall(k) => StopKeeps(s, k);
    case _ => OthersKeep(s, m);
  }

  lemma {:induction false} PlayKeepsHandshake(s: Machine, moves: seq<Move>)
    requires HandshakeOk(s)
    ensures HandshakeOk(Interleave(s, moves))
    decreases |moves|
  {
    if moves == [] {
    } else {
      MoveKeeps(s, moves[0]);
      PlayKeepsHandshake(Next(s, moves[0]), moves[1..]);
    }
  }

  // ---- The main results ----

  lemma CounterpartOf(rides: map<RideId, Ride>, ratings: seq<Rating>, i: nat) returns (j: nat)
    requires RatingsOk(rides, ratings) && i < |ratings| && Rated(ratings, ratings[i].rideId, ratings[i].rateeId)
    ensures j < |ratings| && j != i && ratings[j].rideId == ratings[i].rideId
      && ratings[j].raterId == ratings[i].rateeId && ratings[j].rateeId == ratings[i].raterId
  {
    assert RatingOk(rides, ratings[i]);
    j :| 0 <= j < |ratings| && ratings[j].rideId == ratings[i].rideId && ratings[j].raterId == ratings[i].rateeId;
    assert RatingOk(rides, ratings[j]);
  }

  /** No rating is revealed unless the counterpart's exists and is revealed too. */
  lemma RevealedOnlyTogether(moves: seq<Move>, i: nat)
    requires i < |Interleave(IDLE_SYSTEM, moves).db.ratings| && Interleave(IDLE_SYSTEM, moves).db.ratings[i].isRevealed
    ensures
      var ratings := Interleave(IDLE_SYSTEM, moves).db.ratings;
      exists j :: 0 <= j < |ratings| && j != i && ratings[j].rideId == ratings[i].rideId
        && ratings[j].raterId == ratings[i].rateeId && ratings[j].rateeId == ratings[i].raterId
        && ratings[j].isRevealed
  {
    PlayKeepsHandshake(IDLE_SYSTEM, moves);
    var s := Interleave(IDLE_SYSTEM, moves);
    assert Together(s.db.ratings);
    var j := CounterpartOf(s.w.rides, s.db.ratings, i);
  }

  /** If both parties of a ride have rated it, so has the subject of any of its ratings. */
  lemma SubjectHasRated(rides: map<RideId, Ride>, ratings: seq<Rating>, rid: RideId,
                        rater: UserId, ratee: UserId, i: nat)
    requires RatingsOk(rides, ratings) && rater != ratee
    requires Rated(ratings, rid, rater) && Rated(ratings, rid, ratee)
    requires i < |ratings| && ratings[i].rideId == rid
    ensures Rated(ratings, rid, ratings[i].rateeId)
  {
  }

  /** Once both parties' ratings exist and every call that inserted one for the ride has
      finished without error, both are revealed. */
  lemma BothRevealedWhenFinished(moves: seq<Move>, rid: RideId, rater: UserId, ratee: UserId)
    requires
      var s := Interleave(IDLE_SYSTEM, moves);
      && rater != ratee
      && Rated(s.db.ratings, rid, rater) && Rated(s.db.ratings, rid, ratee)
      && (forall k :: k in s.calls && s.calls[k].rid == rid && Inserted(s.calls[k].pc) ==> s.calls[k].pc.Finished?)
    ensures
      var ratings := Interleave(IDLE_SYSTEM, moves).db.ratings;
      forall i :: 0 <= i < |ratings| && ratings[i].rideId == rid ==> ratings[i].isRevealed
  {
    PlayKeepsHandshake(IDLE_SYSTEM, moves);
    var s := Interleave(IDLE_SYSTEM, moves);
    forall i | 0 <= i < |s.db.ratings| && s.db.ratings[i].rideId == rid ensures s.db.ratings[i].isRevealed {
      SubjectHasRated(s.w.rides, s.db.ratings, rid, rater, ratee, i);
      assert !SomeoneWill(s.calls, rid);
    }
  }
}
