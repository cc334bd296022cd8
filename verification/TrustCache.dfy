/** The cached trust score under every interleaving of its writers and its single worker. */
module TrustCache {
  import opened Domain
  import opened Platform
  import opened Statements

  predicate UpToDate(row: Stats) {
    row.trustScore == TrustScore(row)
  }

  /** What the worker has in hand leaves the user's score current once it is done. A score it
      computed from an older row counts against the user even if the stored one is right. */
  predicate OnTrack(worker: Worker, stats: map<UserId, Stats>, user: UserId)
    requires user in stats
  {
    if worker.Taken? && worker.user == user then true
    else if worker.Computed? && worker.user == user then worker.score == TrustScore(stats[user])
    else UpToDate(stats[user])
  }

  ghost predicate OwedSomewhere(calls: map<nat, RatingCall>, jobs: map<nat, CompletionJob>, user: UserId) {
    (exists k :: k in calls && user in OwedByCall(calls[k])) || (exists k :: k in jobs && user in OwedByJob(jobs[k]))
  }

  /** The user's score is current, or something pending will make it so. */
  ghost predicate Covered(s: Machine, user: UserId) {
    user in s.db.stats ==>
      || OnTrack(s.worker, s.db.stats, user)
      || user in s.db.queue
      || OwedSomewhere(s.calls, s.jobs, user)
      || user in s.lost
  }

  // ---- Bookkeeping for the debts ----

  /** Rewriting one call keeps every debt it does not settle. */
  lemma CallDebts(calls: map<nat, RatingCall>, jobs: map<nat, CompletionJob>, k: nat, c: RatingCall, user: UserId)
    requires OwedSomewhere(calls, jobs, user)
    requires k in calls && user in OwedByCall(calls[k]) ==> user in OwedByCall(c)
    ensures OwedSomewhere(calls[k := c], jobs, user)
  {
    if w :| w in calls && user in OwedByCall(calls[w]) {
      assert user in OwedByCall(calls[k := c][w]);
    }
  }

  lemma NewCallDebt(calls: map<nat, RatingCall>, jobs: map<nat, CompletionJob>, k: nat, c: RatingCall, user: UserId)
    requires user in OwedByCall(c)
    ensures OwedSomewhere(calls[k := c], jobs, user)
  {
    assert user in OwedByCall(calls[k := c][k]);
  }

  lemma JobDebts(calls: map<nat, RatingCall>, jobs: map<nat, CompletionJob>, k: nat, j: CompletionJob, user: UserId)
    requires OwedSomewhere(calls, jobs, user)
    requires k in jobs && user in OwedByJob(jobs[k]) ==> user in OwedByJob(j)
    ensures OwedSomewhere(calls, jobs[k := j], user)
  {
    if w :| w in jobs && user in OwedByJob(jobs[w]) {
      assert user in OwedByJob(jobs[k := j][w]);
    }
  }

  lemma NewJobDebt(calls: map<nat, RatingCall>, jobs: map<nat, CompletionJob>, k: nat, j: CompletionJob, user: UserId)
    requires user in OwedByJob(j)
    ensures OwedSomewhere(calls, jobs[k := j], user)
  {
    assert user in OwedByJob(jobs[k := j][k]);
  }

  // ---- What one statement of a producer does to one user ----

  /** A rating call changes a user's row only by taking on the debt, and drops a debt only by
      queueing the user. */
  lemma AdvanceDebt(db: Db, c: RatingCall, user: UserId)
    ensures var a := Advance(db, c);
            && a.db.stats.Keys == db.stats.Keys
            && (user in db.stats && a.db.stats[user] != db.stats[user] ==> user in OwedByCall(a.call))
            && (user in OwedByCall(c) ==> user in OwedByCall(a.call) || user in a.db.queue)
            && (user in db.queue ==> user in a.db.queue)
  {
  }

  lemma CallKeeps(s: Machine, k: nat, user: UserId)
    requires Covered(s, user) && k in s.calls
    ensures Covered(Next(s, AdvanceCall(k)), user)
  {
    var a := Advance(s.db, s.calls[k]);
    AdvanceDebt(s.db, s.calls[k], user);
    if user in s.db.stats && user !in a.db.queue {
      if user in OwedByCall(a.call) {
        NewCallDebt(s.calls, s.jobs, k, a.call, user);
      } else if OwedSomewhere(s.calls, s.jobs, user) {
        CallDebts(s.calls, s.jobs, k, a.call, user);
      }
    }
  }

  /** A job's own flags: it adds a recalculate job only after both upserts. */
  predicate JobOk(j: CompletionJob) {
    j.addedRider || j.addedPassenger ==> j.creditedRider && j.creditedPassenger
  }

  /** A completion job too; a row it creates comes with the debt. */
  lemma JobDebt(db: Db, j: CompletionJob, step: JobStep, user: UserId)
    requires JobOk(j)
    ensures var (db', j') := AfterJobStep(db, j, step);
            && (user in db.stats ==> user in db'.stats)
            && (user in db'.stats ==> (user in db.stats && db'.stats[user] == db.stats[user]) || user in OwedByJob(j')
                                      || user in db'.queue)
            && (user in OwedByJob(j) ==> user in OwedByJob(j') || user in db'.queue)
            && (user in db.queue ==> user in db'.queue)
  {
  }

  lemma JobKeeps(s: Machine, k: nat, step: JobStep, user: UserId)
    requires Covered(s, user) && k in s.jobs && JobOk(s.jobs[k])
    ensures Covered(Next(s, AdvanceJob(k, step)), user)
    ensures JobOk(Next(s, AdvanceJob(k, step)).jobs[k])
  {
    var (db', j') := AfterJobStep(s.db, s.jobs[k], step);
    JobDebt(s.db, s.jobs[k], step, user);
    if user in db'.stats && user !in db'.queue {
      if user in OwedByJob(j') {
        NewJobDebt(s.calls, s.jobs, k, j', user);
      } else if OwedSomewhere(s.calls, s.jobs, user) {
        JobDebts(s.calls, s.jobs, k, j', user);
      }
    }
  }

  lemma StopKeeps(s: Machine, k: nat, user: UserId)
    requires Covered(s, user)
    ensures Covered(Next(s, StopCall(k)), user)
  {
    if k in s.calls && !s.calls[k].pc.Finished? && OwedSomewhere(s.calls, s.jobs, user) {
      var c := s.calls[k];
      CallDebts(s.calls, s.jobs, k, c.(pc := Stopped(Inserted(c.pc), OwedByCall(c))), user);
    }
  }

  lemma SubmitKeeps(s: Machine, k: nat, rater: UserId, rid: RideId, score: Score, user: UserId)
    requires Covered(s, user)
    ensures Covered(Next(s, Submit(k, rater, rid, score)), user)
  {
    var s' := Next(s, Submit(k, rater, rid, score));
    if s' != s && OwedSomewhere(s.calls, s.jobs, user) {
      CallDebts(s.calls, s.jobs, k, s'.calls[k], user);
    }
  }

  lemma BeginKeeps(s: Machine, k: nat, rid: RideId, user: UserId)
    requires Covered(s, user)
    ensures Covered(Next(s, BeginJob(k, rid)), user)
  {
    var s' := Next(s, BeginJob(k, rid));
    if s' != s && OwedSomewhere(s.calls, s.jobs, user) {
      JobDebts(s.calls, s.jobs, k, s'.jobs[k], user);
    }
  }

  // ---- The worker ----

  lemma TakeKeeps(s: Machine, i: nat, user: UserId)
    requires Covered(s, user)
    ensures Covered(Next(s, Take(i)), user)
  {
  }

  lemma ComputeKeeps(s: Machine, user: UserId)
    requires Covered(s, user)
    ensures Covered(Next(s, Compute), user)
  {
  }

  /** A stale score may be stored, but never over the last hope of a correct one. */
  lemma StoreKeeps(s: Machine, user: UserId)
    requires Covered(s, user)
    ensures Covered(Next(s, Store), user)
  {
  }

  lemma StallKeeps(s: Machine, user: UserId)
    requires Covered(s, user)
    ensures Covered(Next(s, Stall), user)
  {
  }

  lemma ThrowKeeps(s: Machine, user: UserId)
    requires Covered(s, user)
    ensures Covered(Next(s, Throw), user)
  {
  }

  lemma MoveKeeps(s: Machine, m: Move, user: UserId)
    requires Covered(s, user) && forall k :: k in s.jobs ==> JobOk(s.jobs[k])
    ensures Covered(Next(s, m), user)
  {
    match m
    case RideMove(_) =>
    case Submit(k, rater, rid, score) => SubmitKeeps(s, k, rater, rid, score, user);
    case AdvanceCall(k) =>
      if k in s.calls {
        CallKeeps(s, k, user);
      }
    case StopCall(k) => StopKeeps(s, k, user);
    case BeginJob(k, rid) => BeginKeeps(s, k, rid, user);
    case AdvanceJob(k, step) =>
      if k in s.jobs {
        JobKeeps(s, k, step, user);
      }
    case Take(i) => TakeKeeps(s, i, user);
    case Compute => ComputeKeeps(s, user);
    case Store => StoreKeeps(s, user);
    case Stall => StallKeeps(s, user);
    case Throw => ThrowKeeps(s, user);
  }

  lemma JobsStayOk(s: Machine, m: Move)
    requires forall k :: k in s.jobs ==> JobOk(s.jobs[k])
    ensures forall k :: k in Next(s, m).jobs ==> JobOk(Next(s, m).jobs[k])
  {
  }

  lemma {:induction false} InterleavingCovers(s: Machine, moves: seq<Move>, user: UserId)
    requires Covered(s, user) && forall k :: k in s.jobs ==> JobOk(s.jobs[k])
    ensures Covered(Interleave(s, moves), user)
    decreases |moves|
  {
    if moves == [] {
    } else {
      MoveKeeps(s, moves[0], user);
      JobsStayOk(s, moves[0]);
      InterleavingCovers(Next(s, moves[0]), moves[1..], user);
    }
  }

  // ---- The main results ----

  /** In every interleaving, a user's cached score is the formula on the current row, or the
      worker has the user's job and will store that score, or a job for the user waits, or a
      call that rewrote the row has yet to add the job (or stopped with an error before that), or
      the worker failed at the last job it took for the user. */
  lemma ScoreCurrentOrPending(moves: seq<Move>, user: UserId)
    requires user in Interleave(IDLE_SYSTEM, moves).db.stats
    ensures
      var s := Interleave(IDLE_SYSTEM, moves);
      || s.db.stats[user].trustScore == TrustScore(s.db.stats[user])
      || s.worker == Taken(user)
      || s.worker == Computed(user, TrustScore(s.db.stats[user]))
      || user in s.db.queue
      || OwedSomewhere(s.calls, s.jobs, user)
      || user in s.lost
  {
    InterleavingCovers(IDLE_SYSTEM, moves, user);
  }

  /** Hence a user's cached score is current whenever the queue is drained and the worker idle, no
      call or job owes the user a recalculation, and the worker did not fail at the user's last. */
  lemma ScoreCurrentWhenQuiet(moves: seq<Move>, user: UserId)
    requires
      var s := Interleave(IDLE_SYSTEM, moves);
      && user in s.db.stats
      && s.db.queue == [] && s.worker == Idle && user !in s.lost
      && (forall k :: k in s.calls ==> user !in OwedByCall(s.calls[k]))
      && (forall k :: k in s.jobs ==> user !in OwedByJob(s.jobs[k]))
    ensures
      var s := Interleave(IDLE_SYSTEM, moves);
      s.db.stats[user].trustScore == TrustScore(s.db.stats[user])
  {
    ScoreCurrentOrPending(moves, user);
  }

  /** Draining the list one job at a time, with nobody else running, settles every user on it:
      the worker's three statements leave that user's score current. */
  lemma WorkerSettles(s: Machine, i: nat)
    requires s.worker == Idle && i < |s.db.queue|
    ensures
      var u := s.db.queue[i];
      var s' := Next(Next(Next(s, Take(i)), Compute), Store);
      && s'.worker == Idle
      && |s'.db.queue| == |s.db.queue| - 1
      && (u in s'.db.stats ==> UpToDate(s'.db.stats[u]))
      && (u in s.db.stats ==> s'.db.stats == RecalculateTrust(State(s.w, [], [], [], s.db.stats, [], []), u).stats)
  {
  }
}
