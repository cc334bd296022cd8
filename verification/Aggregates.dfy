/** When a stats row shows the count and mean of the user's revealed ratings, over every run: with
    atomic calls, and with the statements of the rating calls interleaved. */
module Aggregates {
  import opened Domain
  import opened Rides
  import opened Lifecycle
  import opened Platform
  import opened Records
  import opened Reputation
  import Statements
  import BlindReveal
  import Sample

  // ---- Reveals ----

  /** A rating of the ride that the user has received and nobody has seen. */
  predicate Hidden(ratings: seq<Rating>, rid: RideId, user: UserId) {
    exists i :: 0 <= i < |ratings| && ratings[i].rideId == rid && ratings[i].rateeId == user && !ratings[i].isRevealed
  }

  /** A reveal adds to the user's revealed ratings exactly when something of theirs was hidden. */
  lemma {:induction false} RevealNews(ratings: seq<Rating>, rid: RideId, user: UserId)
    ensures |RevealedScores(Reveal(ratings, rid), user)| >= |RevealedScores(ratings, user)|
    ensures !Hidden(ratings, rid, user) ==> RevealedScores(Reveal(ratings, rid), user) == RevealedScores(ratings, user)
    ensures Hidden(ratings, rid, user) ==> |RevealedScores(Reveal(ratings, rid), user)| > |RevealedScores(ratings, user)|
  {
    if ratings == [] {
    } else {
      var front, last := ratings[..|ratings| - 1], ratings[|ratings| - 1];
      assert Reveal(ratings, rid)[..|ratings| - 1] == Reveal(front, rid);
      RevealNews(front, rid, user);
      if Hidden(front, rid, user) {
        var i :| 0 <= i < |front| && front[i].rideId == rid && front[i].rateeId == user && !front[i].isRevealed;
        assert ratings[i] == front[i];
      } else if Hidden(ratings, rid, user) {
        var i :| 0 <= i < |ratings| && ratings[i].rideId == rid && ratings[i].rateeId == user && !ratings[i].isRevealed;
        assert i < |front| ==> front[i] == ratings[i];
      } else {
        assert !(last.rideId == rid && last.rateeId == user && !last.isRevealed);
      }
    }
  }

  /** Columns taken from the ratings at some time: never ahead of them, and right if not behind. */
  predicate Behind(count: nat, average: real, ratings: seq<Rating>, user: UserId) {
    var scores := RevealedScores(ratings, user);
    count <= |scores| && (count == |scores| ==> average == Mean(scores))
  }

  // ---- Atomic calls ----

  /** The reveal of this event, if any, concerns the user. */
  predicate Concerns(s: State, e: Event, user: UserId) {
    e.Rate? && Reveals(s, e.rater, e.rid) && (user == e.rater || user == Counterpart(s.w.rides[e.rid], e.rater))
  }

  /** Did the last reveal that concerned the user find the rows it needs? The other party's row is
      rewritten first, so it must be there as well. */
  function LastRevealStored(s: State, events: seq<Event>, user: UserId, was: bool): bool
    decreases |events|
  {
    if events == [] then was
    else
      var e := events[0];
      var stored := if Concerns(s, e, user)
                    then user in s.stats && Counterpart(s.w.rides[e.rid], e.rater) in s.stats
                    else was;
      LastRevealStored(Apply(s, e), events[1..], user, stored)
  }

  ghost predicate TrailOk(s: State, user: UserId, was: bool) {
    && Inv(s.w) && RecordsOk(s) && BlindReveal.Together(s.ratings)
    && var row := StatsOf(s.stats, user);
       && Behind(row.totalRatings, row.averageRating, s.ratings, user)
       && (was <==> row.totalRatings == |RevealedScores(s.ratings, user)|)
  }

  /** What a rating call makes of the ratings table: nothing, one more row, or that and a reveal. */
  lemma SubmittedRatings(s: State, rater: UserId, rid: RideId, score: Score)
    ensures
      var o := SubmitRating(s, rater, rid, score).s;
      if RatingRefusal(s.w.rides, rater, rid).Some? || Rated(s.ratings, rid, rater) then o == s
      else
        var ratee := Counterpart(s.w.rides[rid], rater);
        var created := s.ratings + [Rating(rid, rater, ratee, score, false)];
        if Rated(created, rid, ratee) then o.ratings == Reveal(created, rid)
        else o == s.(ratings := created)
  {
  }

  lemma SubmittedTogether(s: State, rater: UserId, rid: RideId, score: Score)
    requires RidesOk(s.w.rides) && RatingsOk(s.w.rides, s.ratings) && OnePerRater(s.ratings)
    requires BlindReveal.Together(s.ratings)
    ensures BlindReveal.Together(SubmitRating(s, rater, rid, score).s.ratings)
  {
    SubmittedRatings(s, rater, rid, score);
    if RatingRefusal(s.w.rides, rater, rid).None? && !Rated(s.ratings, rid, rater) {
      CreatedTogether(s.w.rides, s.ratings, rater, rid, score);
    }
  }

  lemma CreatedTogether(rides: map<RideId, Ride>, ratings: seq<Rating>, rater: UserId, rid: RideId, score: Score)
    requires RidesOk(rides) && RatingsOk(rides, ratings) && OnePerRater(ratings) && BlindReveal.Together(ratings)
    requires RatingRefusal(rides, rater, rid).None? && !Rated(ratings, rid, rater)
    ensures
      var ratee := Counterpart(rides[rid], rater);
      var created := ratings + [Rating(rid, rater, ratee, score, false)];
      && BlindReveal.Together(created)
      && (Rated(created, rid, ratee) ==> BlindReveal.Together(Reveal(created, rid)))
  {
    var ratee := Counterpart(rides[rid], rater);
    var c := Statements.RatingCall(rater, ratee, rid, score, Statements.Insert);
    var mine := Rating(rid, rater, ratee, score, false);
    assert RideOk(rides[rid]);
    InsertKeeps(rides, ratings, rater, rid, score);
    BlindReveal.InsertTogether(rides, ratings, c);
    BlindReveal.RatedGrows(ratings, mine, rid, rater);
    if Rated(ratings + [mine], rid, ratee) {
      BlindReveal.RevealTogether(rides, ratings + [mine], c);
    }
  }

  /** Both parties of a revealing call have a hidden rating in the table it reveals. */
  lemma PartiesHidden(s: State, rater: UserId, rid: RideId, score: Score, user: UserId)
    requires RidesOk(s.w.rides) && RatingsOk(s.w.rides, s.ratings) && BlindReveal.Together(s.ratings)
    requires Reveals(s, rater, rid)
    ensures var ratee := Counterpart(s.w.rides[rid], rater);
            Hidden(s.ratings + [Rating(rid, rater, ratee, score, false)], rid, user) <==> user == rater || user == ratee
  {
    var ratee := Counterpart(s.w.rides[rid], rater);
    var c := Statements.RatingCall(rater, ratee, rid, score, Statements.Insert);
    var created := s.ratings + [Rating(rid, rater, ratee, score, false)];
    assert RideOk(s.w.rides[rid]);
    var i :| 0 <= i < |s.ratings| && s.ratings[i].rideId == rid && s.ratings[i].raterId == ratee;
    BlindReveal.NothingRevealedYet(s.w.rides, s.ratings, c, i);
    assert RatingOk(s.w.rides, s.ratings[i]);
    assert created[i].rateeId == rater && created[|s.ratings|].rateeId == ratee;
    if Hidden(created, rid, user) {
      var j :| 0 <= j < |created| && created[j].rideId == rid && created[j].rateeId == user && !created[j].isRevealed;
      assert j < |s.ratings| ==> RatingOk(s.w.rides, s.ratings[j]);
    }
  }

  lemma RevealingTrail(s: State, rater: UserId, rid: RideId, score: Score, user: UserId, was: bool)
    requires TrailOk(s, user, was) && Reveals(s, rater, rid)
    ensures
      var e := Rate(rater, rid, score);
      var row := StatsOf(Apply(s, e).stats, user);
      var stored := if Concerns(s, e, user) then user in s.stats && Counterpart(s.w.rides[rid], rater) in s.stats else was;
      && Behind(row.totalRatings, row.averageRating, Apply(s, e).ratings, user)
      && (stored <==> row.totalRatings == |RevealedScores(Apply(s, e).ratings, user)|)
  {
    var mine := Rating(rid, rater, Counterpart(s.w.rides[rid], rater), score, false);
    RevealingSubmitStats(s, rater, rid, score, user);
    PartiesHidden(s, rater, rid, score, user);
    UnrevealedAppend(s.ratings, mine, user);
    RevealNews(s.ratings + [mine], rid, user);
  }

  /** A call that reveals nothing leaves stats and revealed ratings alone. */
  lemma QuietSubmit(s: State, rater: UserId, rid: RideId, score: Score, user: UserId)
    requires RidesOk(s.w.rides) && !Reveals(s, rater, rid)
    ensures var o := SubmitRating(s, rater, rid, score).s;
            o.stats == s.stats && RevealedScores(o.ratings, user) == RevealedScores(s.ratings, user)
  {
    SubmittedRatings(s, rater, rid, score);
    if RatingRefusal(s.w.rides, rater, rid).None? {
      var mine := Rating(rid, rater, Counterpart(s.w.rides[rid], rater), score, false);
      assert RideOk(s.w.rides[rid]);
      UnrevealedAppend(s.ratings, mine, user);
      BlindReveal.RatedGrows(s.ratings, mine, rid, mine.rateeId);
    }
  }

  /** Nothing but a rating touches the ratings or a row's rating columns. */
  lemma OtherColumns(s: State, e: Event, user: UserId)
    requires !e.Rate?
    ensures
      var s' := Apply(s, e);
      && s'.ratings == s.ratings
      && StatsOf(s'.stats, user).totalRatings == StatsOf(s.stats, user).totalRatings
      && StatsOf(s'.stats, user).averageRating == StatsOf(s.stats, user).averageRating
  {
  }

  lemma QuietTrail(s: State, e: Event, user: UserId, was: bool)
    requires TrailOk(s, user, was) && !(e.Rate? && Reveals(s, e.rater, e.rid))
    ensures
      var row := StatsOf(Apply(s, e).stats, user);
      && Behind(row.totalRatings, row.averageRating, Apply(s, e).ratings, user)
      && (was <==> row.totalRatings == |RevealedScores(Apply(s, e).ratings, user)|)
  {
    if e.Rate? {
      QuietSubmit(s, e.rater, e.rid, e.score, user);
    } else {
      OtherColumns(s, e, user);
    }
  }

  lemma TogetherStep(s: State, e: Event)
    requires Inv(s.w) && RecordsOk(s) && BlindReveal.Together(s.ratings)
    ensures BlindReveal.Together(Apply(s, e).ratings)
  {
    if e.Rate? {
      SubmittedTogether(s, e.rater, e.rid, e.score);
    }
  }

  lemma {:induction false} TrailFollows(s: State, events: seq<Event>, user: UserId, was: bool)
    requires TrailOk(s, user, was)
    ensures TrailOk(Play(s, events), user, LastRevealStored(s, events, user, was))
    decreases |events|
  {
    if events == [] {
    } else {
      var e := events[0];
      EventKeepsWorld(s, e);
      EventKeepsRecords(s, e);
      TogetherStep(s, e);
      if e.Rate? && Reveals(s, e.rater, e.rid) {
        RevealingTrail(s, e.rater, e.rid, e.score, user, was);
      } else {
        QuietTrail(s, e, user, was);
      }
      var stored := if Concerns(s, e, user)
                    then user in s.stats && Counterpart(s.w.rides[e.rid], e.rater) in s.stats
                    else was;
      TrailFollows(Apply(s, e), events[1..], user, stored);
    }
  }

  /** Over any run of atomic calls: a user's row, or the defaults if there is none, shows the count
      and mean of the user's revealed ratings exactly when the last reveal that concerned the user
      found the rows of both parties it had to rewrite, or none concerned the user. */
  lemma AgreesIffLastRevealStored(events: seq<Event>, user: UserId)
    ensures Agrees(StatsOf(Play(START, events).stats, user), Play(START, events).ratings, user)
      <==> LastRevealStored(START, events, user, true)
  {
    TrailFollows(START, events, user, true);
  }

  // ---- A run that fails ----

  lemma {:induction false} PlaySnoc(s: State, events: seq<Event>, e: Event)
    ensures Play(s, events + [e]) == Apply(Play(s, events), e)
    decreases |events|
  {
    if events == [] {
      assert events + [e] == [e];
      assert Play(Apply(s, e), [e][1..]) == Apply(s, e);
    } else {
      assert (events + [e])[1..] == events[1..] + [e];
      PlaySnoc(Apply(s, events[0]), events[1..], e);
    }
  }

  lemma Extend(events: seq<Event>, s: State, e: Event) returns (events': seq<Event>, s': State)
    requires Play(START, events) == s
    ensures Play(START, events') == s' == Apply(s, e)
  {
    PlaySnoc(START, events, e);
    events', s' := events + [e], Apply(s, e);
  }

  /** The ride calls alone take the platform where they take its ride tables. */
  lemma {:induction false} RideCallsPlay(s: State, calls: seq<Call>) returns (events: seq<Event>)
    ensures Play(s, events) == s.(w := Run(s.w, calls))
    decreases |calls|
  {
    if calls == [] {
      events := [];
    } else {
      var s1 := s.(w := After(s.w, calls[0]));
      var rest := RideCallsPlay(s1, calls[1..]);
      events := [RideCall(calls[0])] + rest;
      assert events[1..] == rest;
    }
  }

  /** Ride 0, offered by user 0, taken by user 1, completed by both; its job not yet run. */
  lemma CompletedRun() returns (events: seq<Event>, s: State)
    ensures Play(START, events) == s && s.ratings == [] && s.stats == map[]
    ensures Billable(s.w.rides, 0) && s.w.rides[0].riderId == Some(0) && s.w.rides[0].passengerId == Some(1)
  {
    Sample.CompletedAfter(EMPTY, 0, 0);
    events := RideCallsPlay(START, Sample.CompleteCalls(0, 0));
    s := Play(START, events);
  }

  lemma FirstRating(s: State, score: Score)
    requires Billable(s.w.rides, 0) && s.w.rides[0].riderId == Some(0) && s.w.rides[0].passengerId == Some(1)
    requires s.ratings == [] && s.stats == map[]
    ensures SubmitRating(s, 0, 0, score).s == s.(ratings := [Rating(0, 0, 1, score, false)])
  {
    SubmittedRatings(s, 0, 0, score);
    assert s.ratings + [Rating(0, 0, 1, score, false)] == [Rating(0, 0, 1, score, false)];
  }

  lemma SecondRating(s: State, score: Score)
    requires Billable(s.w.rides, 0) && s.w.rides[0].riderId == Some(0) && s.w.rides[0].passengerId == Some(1)
    requires s.stats == map[] && s.ratings == [Rating(0, 0, 1, score, false)]
    ensures var o := SubmitRating(s, 1, 0, score);
            && o.reply == Reply.Failed(RecordMissing) && o.s.w == s.w && o.s.stats == map[]
            && RevealedScores(o.s.ratings, 0) == [score]
  {
    var created := [Rating(0, 0, 1, score, false), Rating(0, 1, 0, score, false)];
    assert s.ratings + [Rating(0, 1, 0, score, false)] == created;
    assert s.ratings[0].raterId == 0 && created[0].raterId == 0;
    assert Rated(created, 0, 0) && !Rated(s.ratings, 0, 1);
    var revealed := [Rating(0, 0, 1, score, true), Rating(0, 1, 0, score, true)];
    assert created[1].rideId == 0;
    assert Reveal(created, 0) == revealed;
    assert revealed[..1] == [revealed[0]] && [revealed[0]][..0] == [];
    assert RevealedScores([revealed[0]], 0) == RevealedScores([revealed[0]][..0], 0);
    assert RevealedScores(revealed, 0) == RevealedScores(revealed[..1], 0) + [score];
  }

  /** Both parties rate a completed ride before its job has run: the second call is refused for
      want of a stats row after it has revealed both ratings, and when the job has run at last,
      the row it creates shows none of them. */
  lemma RatedBeforeDelivery(score: Score)
    ensures exists events ::
      && SubmitRating(Play(START, events), 1, 0, score).reply == Reply.Failed(RecordMissing)
      && var late := Play(START, events + [Rate(1, 0, score)] + [Deliver(0, 0)]);
         && 0 in late.stats && RevealedScores(late.ratings, 0) == [score]
         && late.stats[0].totalRatings == 0 && !Agrees(late.stats[0], late.ratings, 0)
  {
    var events, s := CompletedRun();
    FirstRating(s, score);
    events, s := Extend(events, s, Rate(0, 0, score));
    SecondRating(s, score);
    PlaySnoc(START, events, Rate(1, 0, score));
    PlaySnoc(START, events + [Rate(1, 0, score)], Deliver(0, 0));
    var late := Play(START, events + [Rate(1, 0, score)] + [Deliver(0, 0)]);
    assert late == ProcessCompletion(SubmitRating(s, 1, 0, score).s, 0, 0);
    assert 0 in late.stats && late.stats[0].totalRatings == 0;
  }

  // ---- Statements interleaved ----

  /** The user whose aggregate this call is about to write, with what it will write. */
  datatype Pending = Nothing | Columns(user: UserId, average: real, count: nat)

  function PendingOf(c: Statements.RatingCall): Pending {
    match c.pc
    case WriteRatee(average, count) => Columns(c.ratee, average, count)
    case WriteRater(average, count) => Columns(c.rater, average, count)
    case _ => Nothing
  }

  /** What the moves so far say of one user: does the row hold an aggregate taken since the last
      reveal that was news to the user, and which calls have taken such an aggregate? */
  datatype Trail = Trail(row: bool, current: set<nat>)

  /** Is this call about to aggregate the user's ratings? */
  predicate Aggregates(c: Statements.RatingCall, user: UserId) {
    (c.pc.AggregateRatee? && c.ratee == user) || (c.pc.AggregateRater? && c.rater == user)
  }

  /** Is this call about to write the user's row? */
  predicate Writes(c: Statements.RatingCall, user: UserId) {
    (c.pc.WriteRatee? && c.ratee == user) || (c.pc.WriteRater? && c.rater == user)
  }

  /** A reveal of a hidden rating of the user leaves the row and every aggregate out of date; an
      aggregate is current when taken; a write passes on what its call has. */
  function TrailAfter(s: Statements.Machine, m: Statements.Move, user: UserId, t: Trail): Trail {
    if !m.AdvanceCall? || m.k !in s.calls then t
    else
      var c := s.calls[m.k];
      if c.pc.RevealBoth? && Hidden(s.db.ratings, c.rid, user) then Trail(false, {})
      else if Aggregates(c, user) then t.(current := t.current + {m.k})
      else if Writes(c, user) && user in s.db.stats then t.(row := m.k in t.current)
      else t
  }

  function TrailOf(s: Statements.Machine, moves: seq<Statements.Move>, user: UserId, t: Trail): Trail
    decreases |moves|
  {
    if moves == [] then t
    else TrailOf(Statements.Next(s, moves[0]), moves[1..], user, TrailAfter(s, moves[0], user, t))
  }

  const BLANK := Trail(true, {})

  /** A pending aggregate is complete exactly if its call is among the current ones. */
  predicate PendingOk(p: Pending, isCurrent: bool, ratings: seq<Rating>, user: UserId) {
    p.Columns? && p.user == user ==>
      Behind(p.count, p.average, ratings, user) && (isCurrent <==> p.count == |RevealedScores(ratings, user)|)
  }

  ghost predicate CallsOk(calls: map<nat, Statements.RatingCall>, ratings: seq<Rating>, user: UserId, current: set<nat>) {
    forall k :: k in calls ==> PendingOk(PendingOf(calls[k]), k in current, ratings, user)
  }

  ghost predicate FreshOk(s: Statements.Machine, user: UserId, t: Trail) {
    && CallsOk(s.calls, s.db.ratings, user, t.current)
    && var row := StatsOf(s.db.stats, user);
       && Behind(row.totalRatings, row.averageRating, s.db.ratings, user)
       && (t.row <==> row.totalRatings == |RevealedScores(s.db.ratings, user)|)
  }

  lemma RevealFresh(s: Statements.Machine, k: nat, user: UserId, t: Trail)
    requires FreshOk(s, user, t) && k in s.calls && s.calls[k].pc.RevealBoth?
    ensures FreshOk(Statements.Next(s, Statements.AdvanceCall(k)), user, TrailAfter(s, Statements.AdvanceCall(k), user, t))
  {
    RevealNews(s.db.ratings, s.calls[k].rid, user);
    var s' := Statements.Next(s, Statements.AdvanceCall(k));
    var t' := TrailAfter(s, Statements.AdvanceCall(k), user, t);
    forall j | j in s'.calls ensures PendingOk(PendingOf(s'.calls[j]), j in t'.current, s'.db.ratings, user) {
      if j != k {
        assert PendingOk(PendingOf(s.calls[j]), j in t.current, s.db.ratings, user);
      }
    }
  }

  /** Only the reveal adds to what has been revealed. */
  lemma StatementRevealed(db: Statements.Db, c: Statements.RatingCall, user: UserId)
    requires !c.pc.RevealBoth?
    ensures RevealedScores(Statements.Advance(db, c).db.ratings, user) == RevealedScores(db.ratings, user)
  {
    if c.pc.Insert? {
      UnrevealedAppend(db.ratings, Rating(c.rid, c.rater, c.ratee, c.score, false), user);
    } else {
      assert Statements.Advance(db, c).db.ratings == db.ratings;
    }
  }

  /** An aggregate is current when it is taken. */
  lemma StatementPending(db: Statements.Db, c: Statements.RatingCall, user: UserId)
    ensures
      var a := Statements.Advance(db, c);
      var p := PendingOf(a.call);
      && (p.Columns? ==> a.db.ratings == db.ratings)
      && (p.Columns? && p.user == user ==>
            Aggregates(c, user) && PendingOk(p, true, db.ratings, user))
  {
  }

  /** Only the writes touch a row, and they store what was aggregated. */
  lemma StatementRow(db: Statements.Db, c: Statements.RatingCall, user: UserId)
    ensures
      var p := PendingOf(c);
      var row, row' := StatsOf(db.stats, user), StatsOf(Statements.Advance(db, c).db.stats, user);
      if p.Columns? && p.user == user && user in db.stats
      then row'.totalRatings == p.count && row'.averageRating == p.average
      else row'.totalRatings == row.totalRatings && row'.averageRating == row.averageRating
  {
  }

  lemma AdvanceFresh(s: Statements.Machine, k: nat, user: UserId, t: Trail)
    requires FreshOk(s, user, t) && k in s.calls && !s.calls[k].pc.RevealBoth?
    ensures FreshOk(Statements.Next(s, Statements.AdvanceCall(k)), user, TrailAfter(s, Statements.AdvanceCall(k), user, t))
  {
    var c, a := s.calls[k], Statements.Advance(s.db, s.calls[k]);
    var t' := TrailAfter(s, Statements.AdvanceCall(k), user, t);
    StatementRevealed(s.db, c, user);
    StatementPending(s.db, c, user);
    StatementRow(s.db, c, user);
    assert PendingOk(PendingOf(c), k in t.current, s.db.ratings, user);
    forall j | j in s.calls[k := a.call]
      ensures PendingOk(PendingOf(s.calls[k := a.call][j]), j in t'.current, a.db.ratings, user)
    {
      if j != k {
        assert PendingOk(PendingOf(s.calls[j]), j in t.current, s.db.ratings, user);
      }
    }
  }

  lemma OthersFresh(s: Statements.Machine, m: Statements.Move, user: UserId, t: Trail)
    requires FreshOk(s, user, t) && !(m.AdvanceCall? && m.k in s.calls)
    ensures FreshOk(Statements.Next(s, m), user, t)
  {
  }

  lemma {:induction false} InterleavingFresh(s: Statements.Machine, moves: seq<Statements.Move>, user: UserId, t: Trail)
    requires FreshOk(s, user, t)
    ensures FreshOk(Statements.Interleave(s, moves), user, TrailOf(s, moves, user, t))
    decreases |moves|
  {
    if moves == [] {
    } else {
      var m := moves[0];
      if m.AdvanceCall? && m.k in s.calls {
        if s.calls[m.k].pc.RevealBoth? {
          RevealFresh(s, m.k, user, t);
        } else {
          AdvanceFresh(s, m.k, user, t);
        }
      } else {
        OthersFresh(s, m, user, t);
      }
      InterleavingFresh(Statements.Next(s, m), moves[1..], user, TrailAfter(s, m, user, t));
    }
  }

  /** In every interleaving of statements, whether or not calls are in flight: a user's row shows the
      count and mean of the user's revealed ratings exactly when the call that wrote it last took
      its aggregate after the last reveal that was news to the user (or nothing was ever revealed). */
  lemma AgreesIffFresh(moves: seq<Statements.Move>, user: UserId)
    ensures var s := Statements.Interleave(Statements.IDLE_SYSTEM, moves);
            Agrees(StatsOf(s.db.stats, user), s.db.ratings, user)
            <==> TrailOf(Statements.IDLE_SYSTEM, moves, user, BLANK).row
  {
    InterleavingFresh(Statements.IDLE_SYSTEM, moves, user, BLANK);
  }
}
