/** Every message, rating and payment keeps matching the ride it belongs to. */
module Records {
  import opened Domain
  import opened Rides
  import opened Lifecycle
  import opened Platform

  /** A row whose two sides are set; from here on its participants and fare are frozen. */
  predicate BothSides(rides: map<RideId, Ride>, rid: RideId) {
    rid in rides && rides[rid].riderId.Some? && rides[rid].passengerId.Some?
  }

  predicate MessageOk(rides: map<RideId, Ride>, m: Message) {
    BothSides(rides, m.rideId)
    && (rides[m.rideId].riderId == Some(m.senderId) || rides[m.rideId].passengerId == Some(m.senderId))
  }

  /** Rater and ratee are the two participants of a completed ride. */
  predicate RatingOk(rides: map<RideId, Ride>, r: Rating) {
    && BothSides(rides, r.rideId) && rides[r.rideId].status.Completed?
    && ((rides[r.rideId].riderId == Some(r.raterId) && rides[r.rideId].passengerId == Some(r.rateeId))
        || (rides[r.rideId].passengerId == Some(r.raterId) && rides[r.rideId].riderId == Some(r.rateeId)))
    && r.raterId != r.rateeId
  }

  predicate PaymentOk(rides: map<RideId, Ride>, p: Payment) {
    && BothSides(rides, p.rideId) && rides[p.rideId].status.Completed?
    && rides[p.rideId].passengerId == Some(p.payerId)
    && p.amount == rides[p.rideId].fare
    && p.status.Completed?
  }

  ghost predicate MessagesOk(rides: map<RideId, Ride>, messages: seq<Message>) {
    forall i :: 0 <= i < |messages| ==> MessageOk(rides, messages[i])
  }

  ghost predicate RatingsOk(rides: map<RideId, Ride>, ratings: seq<Rating>) {
    forall i :: 0 <= i < |ratings| ==> RatingOk(rides, ratings[i])
  }

  /** The schema's unique key on ride and rater. */
  ghost predicate OnePerRater(ratings: seq<Rating>) {
    forall i, j :: (0 <= i < |ratings| && 0 <= j < |ratings|
      && ratings[i].rideId == ratings[j].rideId && ratings[i].raterId == ratings[j].raterId) ==> i == j
  }

  ghost predicate PaymentsOk(rides: map<RideId, Ride>, payments: seq<Payment>) {
    forall i :: 0 <= i < |payments| ==> PaymentOk(rides, payments[i])
  }

  ghost predicate RecordsOk(s: State) {
    && MessagesOk(s.w.rides, s.messages)
    && RatingsOk(s.w.rides, s.ratings)
    && OnePerRater(s.ratings)
    && PaymentsOk(s.w.rides, s.payments)
  }

  /** Rows with both sides set look the same later, and completed ones stay completed. */
  ghost predicate Frozen(rides: map<RideId, Ride>, rides': map<RideId, Ride>) {
    forall rid :: BothSides(rides, rid) ==>
      && BothSides(rides', rid)
      && rides'[rid].riderId == rides[rid].riderId
      && rides'[rid].passengerId == rides[rid].passengerId
      && rides'[rid].fare == rides[rid].fare
      && (rides[rid].status.Completed? ==> rides'[rid].status.Completed?)
  }

  lemma EvolvingFreezes(rides: map<RideId, Ride>, rides': map<RideId, Ride>)
    requires RidesLater(rides, rides')
    ensures Frozen(rides, rides')
  {
  }

  lemma RecordsFrame(rides: map<RideId, Ride>, rides': map<RideId, Ride>,
                     messages: seq<Message>, ratings: seq<Rating>, payments: seq<Payment>)
    requires Frozen(rides, rides')
    ensures MessagesOk(rides, messages) ==> MessagesOk(rides', messages)
    ensures RatingsOk(rides, ratings) ==> RatingsOk(rides', ratings)
    ensures PaymentsOk(rides, payments) ==> PaymentsOk(rides', payments)
  {
  }

  // ---- Rating steps ----

  lemma RevealKeeps(rides: map<RideId, Ride>, ratings: seq<Rating>, rid: RideId)
    requires RatingsOk(rides, ratings) && OnePerRater(ratings)
    ensures RatingsOk(rides, Reveal(ratings, rid)) && OnePerRater(Reveal(ratings, rid))
  {
  }

  lemma InsertKeeps(rides: map<RideId, Ride>, ratings: seq<Rating>, rater: UserId, rid: RideId, score: Score)
    requires RidesOk(rides) && RatingsOk(rides, ratings) && OnePerRater(ratings)
    requires RatingRefusal(rides, rater, rid).None? && !Rated(ratings, rid, rater)
    ensures var created := ratings + [Rating(rid, rater, Counterpart(rides[rid], rater), score, false)];
            RatingsOk(rides, created) && OnePerRater(created)
  {
  }

  lemma SubmitKeeps(s: State, rater: UserId, rid: RideId, score: Score)
    requires RidesOk(s.w.rides) && RatingsOk(s.w.rides, s.ratings) && OnePerRater(s.ratings)
    ensures var s' := SubmitRating(s, rater, rid, score).s;
            && s'.w == s.w && s'.messages == s.messages && s'.payments == s.payments && s'.delivered == s.delivered
            && RatingsOk(s'.w.rides, s'.ratings) && OnePerRater(s'.ratings)
  {
    if RatingRefusal(s.w.rides, rater, rid).None? && !Rated(s.ratings, rid, rater) {
      var created := s.ratings + [Rating(rid, rater, Counterpart(s.w.rides[rid], rater), score, false)];
      InsertKeeps(s.w.rides, s.ratings, rater, rid, score);
      RevealKeeps(s.w.rides, created, rid);
    }
  }

  // ---- Any event ----

  lemma EvolvesItself(w: World)
    ensures Evolves(w, w)
  {
  }

  lemma EventKeepsWorld(s: State, e: Event)
    requires Inv(s.w)
    ensures Inv(Apply(s, e).w) && Evolves(s.w, Apply(s, e).w)
  {
    if e.RideCall? {
      Step(s.w, e.call);
      assert Apply(s, e).w == After(s.w, e.call);
    } else {
      assert Apply(s, e).w == s.w;
      EvolvesItself(s.w);
    }
  }

  lemma EventKeepsRecords(s: State, e: Event)
    requires Inv(s.w) && RecordsOk(s)
    ensures RecordsOk(Apply(s, e))
  {
    match e
    case RideCall(call) =>
      Step(s.w, call);
      EvolvingFreezes(s.w.rides, After(s.w, call).rides);
      RecordsFrame(s.w.rides, After(s.w, call).rides, s.messages, s.ratings, s.payments);
    case Deliver(rid, now) =>
    case Rate(rater, rid, score) => SubmitKeeps(s, rater, rid, score);
    case Recalculate(_) =>
    case Say(sender, rid, content, now) =>
      if SendMessage(s, sender, rid, content, now).reply.Done? {
        assert RideOk(s.w.rides[rid]);
      }
  }

  lemma {:induction false} PlayKeepsRecords(s: State, events: seq<Event>)
    requires Inv(s.w) && RecordsOk(s)
    ensures Inv(Play(s, events).w) && RecordsOk(Play(s, events)) && Evolves(s.w, Play(s, events).w)
    decreases |events|
  {
    if events == [] {
    } else {
      EventKeepsWorld(s, events[0]);
      EventKeepsRecords(s, events[0]);
      PlayKeepsRecords(Apply(s, events[0]), events[1..]);
      EvolvesTransitive(s.w, Apply(s, events[0]).w, Play(s, events).w);
    }
  }

  /** Whatever has happened since a message was sent, a ride was rated or a payment was made,
      the record still names the ride's participants and its fare. */
  lemma ReachableRecords(events: seq<Event>)
    ensures
      var s := Play(START, events);
      && (forall i :: 0 <= i < |s.messages| ==>
            var m := s.messages[i];
            m.rideId in s.w.rides && (s.w.rides[m.rideId].riderId == Some(m.senderId)
                                      || s.w.rides[m.rideId].passengerId == Some(m.senderId)))
      && (forall i :: 0 <= i < |s.ratings| ==>
            var r := s.ratings[i];
            r.rideId in s.w.rides && r.raterId != r.rateeId
            && {Some(r.raterId), Some(r.rateeId)} == {s.w.rides[r.rideId].riderId, s.w.rides[r.rideId].passengerId})
      && (forall i :: 0 <= i < |s.payments| ==>
            var p := s.payments[i];
            p.rideId in s.w.rides && s.w.rides[p.rideId].passengerId == Some(p.payerId)
            && p.amount == s.w.rides[p.rideId].fare)
  {
    PlayKeepsRecords(START, events);
    var s := Play(START, events);
    forall i | 0 <= i < |s.ratings|
      ensures var r := s.ratings[i];
              r.rideId in s.w.rides && r.raterId != r.rateeId
              && {Some(r.raterId), Some(r.rateeId)} == {s.w.rides[r.rideId].riderId, s.w.rides[r.rideId].passengerId}
    {
      assert RatingOk(s.w.rides, s.ratings[i]);
    }
    assert forall i :: 0 <= i < |s.messages| ==> MessageOk(s.w.rides, s.messages[i]);
    assert forall i :: 0 <= i < |s.payments| ==> PaymentOk(s.w.rides, s.payments[i]);
  }

  /** The conversation opens with the match and closes with the end of the ride: in reachable
      states a message goes through exactly for one of the two participants of a ride that has
      both and has been neither completed nor cancelled; it is stored as sent, and a refused one
      leaves everything. */
  lemma ChatOpenWhileOn(events: seq<Event>, sender: UserId, rid: RideId, content: string, now: Time)
    ensures
      var s := Play(START, events);
      var o := SendMessage(s, sender, rid, content, now);
      if rid !in s.w.rides then o == Result(s, Reply.Failed(NotFound))
      else
        var r := s.w.rides[rid];
        if BothSides(s.w.rides, rid) && r.completedAt.None? && r.cancelledAt.None?
           && (r.riderId == Some(sender) || r.passengerId == Some(sender))
        then o == Result(s.(messages := s.messages + [Message(rid, sender, content, now)]), Done)
        else o == Result(s, Reply.Failed(Forbidden))
  {
    PlayKeepsRecords(START, events);
    if rid in Play(START, events).w.rides {
      assert RideOk(Play(START, events).w.rides[rid]);
    }
  }

  // ---- A rating, in full ----

  /** The other of the two participants. */
  ghost predicate Opposite(r: Ride, rater: UserId, ratee: UserId) {
    (r.riderId == Some(rater) && r.passengerId == Some(ratee)) || (r.passengerId == Some(rater) && r.riderId == Some(ratee))
  }

  /** The call stores this one rating, as given; both ratings of the ride are revealed if the other
      party's is there, and no flag of another ride changes. */
  ghost predicate Stored(ratings: seq<Rating>, ratings': seq<Rating>, rid: RideId, rater: UserId, ratee: UserId, score: Score) {
    var both := exists i :: 0 <= i < |ratings| && ratings[i].rideId == rid && ratings[i].raterId == ratee;
    && |ratings'| == |ratings| + 1
    && ratings'[|ratings|] == Rating(rid, rater, ratee, score, both)
    && forall i :: 0 <= i < |ratings| ==>
         ratings'[i] == if ratings[i].rideId == rid && both then ratings[i].(isRevealed := true) else ratings[i]
  }

  lemma StoredBySubmit(s: State, rater: UserId, rid: RideId, score: Score, ratee: UserId)
    requires RatingRefusal(s.w.rides, rater, rid).None? && !Rated(s.ratings, rid, rater)
    requires Opposite(s.w.rides[rid], rater, ratee) && rater != ratee
    ensures Stored(s.ratings, SubmitRating(s, rater, rid, score).s.ratings, rid, rater, ratee, score)
  {
    var created := s.ratings + [Rating(rid, rater, ratee, score, false)];
    assert Counterpart(s.w.rides[rid], rater) == ratee;
    assert Rated(created, rid, ratee) <==> Rated(s.ratings, rid, ratee) by {
      if i :| 0 <= i < |s.ratings| && s.ratings[i].rideId == rid && s.ratings[i].raterId == ratee {
        assert created[i] == s.ratings[i];
      }
      if i :| 0 <= i < |created| && created[i].rideId == rid && created[i].raterId == ratee {
        assert i < |s.ratings| && created[i] == s.ratings[i];
      }
    }
  }

  /** In reachable states a rating is stored exactly for a participant of a completed ride who has not
      rated it before; the ratee is the other participant, and the table then is `Stored`. Otherwise
      nothing changes, and the refusal says why. */
  lemma RatingStoredIff(events: seq<Event>, rater: UserId, rid: RideId, score: Score)
    ensures
      var s := Play(START, events);
      var o := SubmitRating(s, rater, rid, score);
      var rated := exists i :: 0 <= i < |s.ratings| && s.ratings[i].rideId == rid && s.ratings[i].raterId == rater;
      if rid !in s.w.rides then o == Result(s, Reply.Failed(NotFound))
      else if s.w.rides[rid].completedAt.None? then o == Result(s, Reply.Failed(BadRequest))
      else if s.w.rides[rid].riderId != Some(rater) && s.w.rides[rid].passengerId != Some(rater)
      then o == Result(s, Reply.Failed(Forbidden))
      else if rated then o == Result(s, Reply.Failed(Duplicate))
      else exists ratee :: Opposite(s.w.rides[rid], rater, ratee) && Stored(s.ratings, o.s.ratings, rid, rater, ratee, score)
  {
    PlayKeepsRecords(START, events);
    var s := Play(START, events);
    if rid in s.w.rides {
      assert RideOk(s.w.rides[rid]);
      if RatingRefusal(s.w.rides, rater, rid).None? && !Rated(s.ratings, rid, rater) {
        var ratee := if s.w.rides[rid].riderId == Some(rater) then s.w.rides[rid].passengerId.value
                     else s.w.rides[rid].riderId.value;
        StoredBySubmit(s, rater, rid, score, ratee);
      }
    }
  }
}
