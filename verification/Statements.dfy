/** Ratings, completion jobs and the trust-score worker with every awaited database or queue
    statement a step of its own, interleaved in any order. */
module Statements {
  import opened Domain
  import opened Rides
  import opened Platform

  /** The tables and the waiting list of recalculate jobs. */
  datatype Db = Db(ratings: seq<Rating>, stats: map<UserId, Stats>, queue: seq<UserId>)

  /** The next statement of a `submitRating` call. `Stopped` is a call that ended with an
      exception: had it inserted its rating, and for whom had it rewritten stats without
      having added the recalculate job? */
  datatype Pc =
    | LookExisting
    | Insert
    | LookOther
    | RevealBoth
    | AggregateRatee
    | WriteRatee(average: real, count: nat)
    | AggregateRater
    | WriteRater(average: real, count: nat)
    | AddRatee
    | AddRater
    | Finished
    | Stopped(inserted: bool, owed: set<UserId>)

  datatype RatingCall = RatingCall(rater: UserId, ratee: UserId, rid: RideId, score: Score, pc: Pc)

  predicate Inserted(pc: Pc) {
    match pc
    case LookExisting => false
    case Insert => false
    case Stopped(inserted, _) => inserted
    case _ => true
  }

  /** The users whose stats the call has rewritten and not yet queued. */
  function OwedByCall(c: RatingCall): set<UserId> {
    match c.pc
    case AggregateRater => {c.ratee}
    case WriteRater(_, _) => {c.ratee}
    case AddRatee => {c.ratee, c.rater}
    case AddRater => {c.rater}
    case Stopped(_, owed) => owed
    case _ => {}
  }

  function WriteAggregate(stats: map<UserId, Stats>, user: UserId, average: real, count: nat): map<UserId, Stats>
    requires user in stats
  {
    stats[user := stats[user].(averageRating := average, totalRatings := count)]
  }

  datatype Advanced = Advanced(db: Db, call: RatingCall)

  /** The call's next statement. */
  function Advance(db: Db, c: RatingCall): Advanced {
    match c.pc
    case LookExisting =>
      Advanced(db, c.(pc := if Rated(db.ratings, c.rid, c.rater) then Stopped(false, {}) else Insert))
    case Insert =>
      if Rated(db.ratings, c.rid, c.rater) then Advanced(db, c.(pc := Stopped(false, {})))
      else Advanced(db.(ratings := db.ratings + [Rating(c.rid, c.rater, c.ratee, c.score, false)]), c.(pc := LookOther))
    case LookOther =>
      Advanced(db, c.(pc := if Rated(db.ratings, c.rid, c.ratee) then RevealBoth else Finished))
    case RevealBoth =>
      Advanced(db.(ratings := Reveal(db.ratings, c.rid)), c.(pc := AggregateRatee))
    case AggregateRatee =>
      var scores := RevealedScores(db.ratings, c.ratee);
      Advanced(db, c.(pc := WriteRatee(Mean(scores), |scores|)))
    case WriteRatee(average, count) =>
      if c.ratee !in db.stats then Advanced(db, c.(pc := Stopped(true, {})))
      else Advanced(db.(stats := WriteAggregate(db.stats, c.ratee, average, count)), c.(pc := AggregateRater))
    case AggregateRater =>
      var scores := RevealedScores(db.ratings, c.rater);
      Advanced(db, c.(pc := WriteRater(Mean(scores), |scores|)))
    case WriteRater(average, count) =>
      if c.rater !in db.stats then Advanced(db, c.(pc := Stopped(true, OwedByCall(c))))
      else Advanced(db.(stats := WriteAggregate(db.stats, c.rater, average, count)), c.(pc := AddRatee))
    case AddRatee => Advanced(db.(queue := db.queue + [c.ratee]), c.(pc := AddRater))
    case AddRater => Advanced(db.(queue := db.queue + [c.rater]), c.(pc := Finished))
    case Finished => Advanced(db, c)
    case Stopped(_, _) => Advanced(db, c)
  }

  /** A completion job past its guard and its payment. Its two upserts run concurrently, and
      so do its two adds, which wait for both upserts. */
  datatype CompletionJob = CompletionJob(
    rider: UserId, passenger: UserId, fare: Cents,
    creditedRider: bool, creditedPassenger: bool, addedRider: bool, addedPassenger: bool, failed: bool)

  function OwedByJob(j: CompletionJob): set<UserId> {
    (if j.creditedRider && !j.addedRider then {j.rider} else {})
    + (if j.creditedPassenger && !j.addedPassenger then {j.passenger} else {})
  }

  /** The single trust-score worker: a job taken off the list, then the score computed from
      the row it read. */
  datatype Worker = Idle | Taken(user: UserId) | Computed(user: UserId, score: int)

  /** `lost` holds the users whose recalculate job the worker last took and failed at; the queue
      gives a job one attempt. */
  datatype Machine = Machine(
    w: World, db: Db, calls: map<nat, RatingCall>, jobs: map<nat, CompletionJob>, worker: Worker, lost: set<UserId>)

  const IDLE_SYSTEM := Machine(EMPTY, Db([], map[], []), map[], map[], Idle, {})

  datatype JobStep = CreditRider | CreditPassenger | AddRiderJob | AddPassengerJob | FailJob

  datatype Move =
    | RideMove(call: Call)
    | Submit(k: nat, rater: UserId, rid: RideId, score: Score)
    | AdvanceCall(k: nat)
    | StopCall(k: nat)
    | BeginJob(k: nat, rid: RideId)
    | AdvanceJob(k: nat, step: JobStep)
    | Take(i: nat)
    | Compute
    | Store
    | Stall
    | Throw

  function AfterJobStep(db: Db, j: CompletionJob, step: JobStep): (Db, CompletionJob) {
    if j.failed then (db, j)
    else match step
      case CreditRider =>
        if j.creditedRider then (db, j)
        else (db.(stats := Credit(db.stats, j.rider, j.fare)), j.(creditedRider := true))
      case CreditPassenger =>
        if j.creditedPassenger then (db, j)
        else (db.(stats := Credit(db.stats, j.passenger, 0)), j.(creditedPassenger := true))
      case AddRiderJob =>
        if !j.creditedRider || !j.creditedPassenger || j.addedRider then (db, j)
        else (db.(queue := db.queue + [j.rider]), j.(addedRider := true))
      case AddPassengerJob =>
        if !j.creditedRider || !j.creditedPassenger || j.addedPassenger then (db, j)
        else (db.(queue := db.queue + [j.passenger]), j.(addedPassenger := true))
      case FailJob => (db, j.(failed := true))
  }

  function Next(s: Machine, m: Move): Machine {
    match m
    case RideMove(call) => s.(w := After(s.w, call))
    case Submit(k, rater, rid, score) =>
      if k in s.calls || RatingRefusal(s.w.rides, rater, rid).Some? then s
      else s.(calls := s.calls[k := RatingCall(rater, Counterpart(s.w.rides[rid], rater), rid, score, LookExisting)])
    case AdvanceCall(k) =>
      if k !in s.calls then s
      else
        var a := Advance(s.db, s.calls[k]);
        s.(db := a.db, calls := s.calls[k := a.call])
    case StopCall(k) =>
      // A statement failed: the call ends there, whatever it has done so far stays done.
      if k !in s.calls || s.calls[k].pc.Finished? then s
      else
        var c := s.calls[k];
        s.(calls := s.calls[k := c.(pc := Stopped(Inserted(c.pc), OwedByCall(c)))])
    case BeginJob(k, rid) =>
      if k in s.jobs || !Billable(s.w.rides, rid) then s
      else
        var r := s.w.rides[rid];
        s.(jobs := s.jobs[k := CompletionJob(r.riderId.value, r.passengerId.value, r.fare, false, false, false, false, false)])
    case AdvanceJob(k, step) =>
      if k !in s.jobs then s
      else
        var (db', j') := AfterJobStep(s.db, s.jobs[k], step);
        s.(db := db', jobs := s.jobs[k := j'])
    case Take(i) =>
      if s.worker != Idle || i >= |s.db.queue| then s
      else s.(worker := Taken(s.db.queue[i]), lost := s.lost - {s.db.queue[i]},
              db := s.db.(queue := s.db.queue[..i] + s.db.queue[i + 1..]))
    case Compute =>
      if !s.worker.Taken? then s
      else if s.worker.user !in s.db.stats then s.(worker := Idle)
      else s.(worker := Computed(s.worker.user, TrustScore(s.db.stats[s.worker.user])))
    case Store =>
      if !s.worker.Computed? then s
      else
        var u := s.worker.user;
        s.(worker := Idle,
           db := if u in s.db.stats then s.db.(stats := s.db.stats[u := s.db.stats[u].(trustScore := s.worker.score)])
                 else s.db)
    case Stall =>
      // The worker dies; the queue hands its job out again.
      if s.worker == Idle then s
      else s.(worker := Idle, db := s.db.(queue := s.db.queue + [s.worker.user]))
    case Throw =>
      // A statement of the worker failed: the job has had its one attempt.
      if s.worker == Idle then s
      else s.(worker := Idle, lost := s.lost + {s.worker.user})
  }

  function Interleave(s: Machine, moves: seq<Move>): Machine
    decreases |moves|
  {
    if moves == [] then s else Interleave(Next(s, moves[0]), moves[1..])
  }

  // ---- The statements of one call, run without interference, are the atomic call ----

  function StepsLeft(pc: Pc): nat {
    match pc
    case LookExisting => 10
    case Insert => 9
    case LookOther => 8
    case RevealBoth => 7
    case AggregateRatee => 6
    case WriteRatee(_, _) => 5
    case AggregateRater => 4
    case WriteRater(_, _) => 3
    case AddRatee => 2
    case AddRater => 1
    case Finished => 0
    case Stopped(_, _) => 0
  }

  /** Advance a call to its end with nothing in between. */
  function Complete(db: Db, c: RatingCall): Advanced
    decreases StepsLeft(c.pc)
  {
    if StepsLeft(c.pc) == 0 then Advanced(db, c)
    else
      var a := Advance(db, c);
      Complete(a.db, a.call)
  }

  function FromAggregate(db: Db, c: RatingCall): Advanced {
    if c.ratee !in db.stats then Advanced(db, c.(pc := Stopped(true, {})))
    else
      var stats1 := db.stats[c.ratee := Recalculated(db.stats[c.ratee], db.ratings, c.ratee)];
      if c.rater !in stats1 then Advanced(db.(stats := stats1), c.(pc := Stopped(true, {c.ratee})))
      else
        Advanced(db.(stats := stats1[c.rater := Recalculated(stats1[c.rater], db.ratings, c.rater)],
                  queue := db.queue + [c.ratee] + [c.rater]),
              c.(pc := Finished))
  }

  lemma CompleteFromAggregate(db: Db, c: RatingCall)
    requires c.pc.AggregateRatee?
    ensures Complete(db, c) == FromAggregate(db, c)
  {
    var a1 := Advance(db, c);
    var a2 := Advance(a1.db, a1.call);
    assert Complete(db, c) == Complete(a2.db, a2.call);
    if c.ratee in db.stats {
      var a3 := Advance(a2.db, a2.call);
      var a4 := Advance(a3.db, a3.call);
      assert Complete(a2.db, a2.call) == Complete(a4.db, a4.call);
      if c.rater in a2.db.stats {
        var a5 := Advance(a4.db, a4.call);
        var a6 := Advance(a5.db, a5.call);
        assert Complete(a4.db, a4.call) == Complete(a6.db, a6.call);
      }
    }
  }

  lemma CompleteIsSubmit(s: State, rater: UserId, rid: RideId, score: Score)
    requires RatingRefusal(s.w.rides, rater, rid).None?
    ensures
      var ratee := Counterpart(s.w.rides[rid], rater);
      var o := SubmitRating(s, rater, rid, score);
      var a := Complete(Db(s.ratings, s.stats, s.trustJobs), RatingCall(rater, ratee, rid, score, LookExisting));
      && a.db == Db(o.s.ratings, o.s.stats, o.s.trustJobs)
      && (a.call.pc.Finished? <==> o.reply.Done?)
  {
    var ratee := Counterpart(s.w.rides[rid], rater);
    var db := Db(s.ratings, s.stats, s.trustJobs);
    var c := RatingCall(rater, ratee, rid, score, LookExisting);
    if !Rated(s.ratings, rid, rater) {
      var a1 := Advance(db, c);
      var a2 := Advance(a1.db, a1.call);
      var a3 := Advance(a2.db, a2.call);
      assert Complete(db, c) == Complete(a2.db, a2.call);
      assert Complete(a2.db, a2.call) == Complete(a3.db, a3.call);
      if Rated(a2.db.ratings, rid, ratee) {
        var a4 := Advance(a3.db, a3.call);
        assert Complete(a3.db, a3.call) == Complete(a4.db, a4.call);
        CompleteFromAggregate(a4.db, a4.call);
        assert s.trustJobs + [ratee] + [rater] == s.trustJobs + [ratee, rater];
      }
    }
  }

  // ---- So are the statements of one completion job ----

  function AfterJobSteps(db: Db, j: CompletionJob, steps: seq<JobStep>): (Db, CompletionJob)
    decreases |steps|
  {
    if steps == [] then (db, j)
    else
      var (db', j') := AfterJobStep(db, j, steps[0]);
      AfterJobSteps(db', j', steps[1..])
  }

  /** Either upsert may go first; the adds follow. */
  lemma JobIsDelivery(s: State, rid: RideId, now: Time, riderFirst: bool)
    requires Billable(s.w.rides, rid) && s.w.rides[rid].riderId != s.w.rides[rid].passengerId
    ensures
      var r := s.w.rides[rid];
      var j := CompletionJob(r.riderId.value, r.passengerId.value, r.fare, false, false, false, false, false);
      var steps := (if riderFirst then [CreditRider, CreditPassenger] else [CreditPassenger, CreditRider])
                   + [AddRiderJob, AddPassengerJob];
      var o := ProcessCompletion(s, rid, now);
      AfterJobSteps(Db(s.ratings, s.stats, s.trustJobs), j, steps).0 == Db(o.ratings, o.stats, o.trustJobs)
  {
    var r := s.w.rides[rid];
    var rider, passenger := r.riderId.value, r.passengerId.value;
    var j := CompletionJob(rider, passenger, r.fare, false, false, false, false, false);
    var first, second := if riderFirst then CreditRider else CreditPassenger, if riderFirst then CreditPassenger else CreditRider;
    var db := Db(s.ratings, s.stats, s.trustJobs);
    FourJobSteps(db, j, first, second, AddRiderJob, AddPassengerJob);
    CreditsCommute(s.stats, rider, passenger, r.fare);
    assert s.trustJobs + [rider] + [passenger] == s.trustJobs + [rider, passenger];
  }

  lemma CreditsCommute(stats: map<UserId, Stats>, rider: UserId, passenger: UserId, fare: Cents)
    requires rider != passenger
    ensures Credit(Credit(stats, rider, fare), passenger, 0) == Credit(Credit(stats, passenger, 0), rider, fare)
  {
  }

  lemma FourJobSteps(db: Db, j: CompletionJob, a: JobStep, b: JobStep, c: JobStep, d: JobStep)
    ensures
      var o1 := AfterJobStep(db, j, a);
      var o2 := AfterJobStep(o1.0, o1.1, b);
      var o3 := AfterJobStep(o2.0, o2.1, c);
      AfterJobSteps(db, j, [a, b] + [c, d]) == AfterJobStep(o3.0, o3.1, d)
  {
    var o1 := AfterJobStep(db, j, a);
    var o2 := AfterJobStep(o1.0, o1.1, b);
    var o3 := AfterJobStep(o2.0, o2.1, c);
    var steps := [a, b] + [c, d];
    assert steps[1..] == [b, c, d] && [b, c, d][1..] == [c, d] && [c, d][1..] == [d];
    assert AfterJobSteps(db, j, steps) == AfterJobSteps(o1.0, o1.1, [b, c, d]);
    assert AfterJobSteps(o1.0, o1.1, [b, c, d]) == AfterJobSteps(o2.0, o2.1, [c, d]);
    assert AfterJobSteps(o2.0, o2.1, [c, d]) == AfterJobSteps(o3.0, o3.1, [d]);
    var o4 := AfterJobStep(o3.0, o3.1, d);
    assert AfterJobSteps(o3.0, o3.1, [d]) == AfterJobSteps(o4.0, o4.1, []);
  }
}
