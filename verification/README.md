# Campus ride sharing: a verified model

This project models the server of a campus ride-sharing platform and proves what its services
and background workers keep, over every run. The tables and queues are maps and sequences; the
service calls and jobs are steps over them.

- **Rides** (`Domain`, `Rides`, `Lifecycle`, `Termination`, `Attained`, `Authority`, `Edits`,
  `Progress`): posting, requesting, accepting, starting, confirming, cancelling and expiring a
  ride. `Rides` holds each call as a function from tables to tables; `Lifecycle` the invariant
  over any run; `Termination` how much can still happen to one ride, and `Attained` a run in
  which that much does; `Authority`, `Edits` and `Progress` who can change what, what must have
  happened before, and what always remains possible.
- **Confirmation race** (`ConfirmRace`, `Overlap`): the confirm, start, cancel and expiry calls
  with their read and their write as separate statements.
- **Money** (`Platform`, `Records`, `Sums`, `Ledger`, `PaymentRace`): the completion worker's
  payment rows and incremental counters against the sums recomputed from the payments, with
  redeliveries.
- **Ratings and trust** (`Reputation`, `Aggregates`, `StaleAggregate`, `Statements`,
  `BlindReveal`, `TrustCache`): the two-party blind reveal, the derived statistics and the cached
  trust score. `Reputation` works with atomic calls, `Statements` with every awaited statement a
  step of its own.
- **Accounts** (`Auth`, `AuthInvariants`, `AuthHistory`, `Sessions`, `CodeRace`, `TokenRace`, `Cleanup`,
  `Journeys`, `Provenance`): one-time codes, refresh tokens, the hourly cleaner, and how a user
  comes to drive.
- **Listing and text** (`Pages`, `Chat`, `Feed`, `KeyText`): pagination, the conversation, the
  search feed against the guards of the request call, and the private-key clean-up.
- **Runs that fail** (`Sample`, `FailingRuns`, and beside the theorems they limit).
- **Objects** (`Services`, `AuthServices`, `Provenance.AdminService`,
  `KeyText.NormalizePrivateKey`): the services, repositories and workers as classes whose methods
  update shared tables in the order the code does. Each is proved to do exactly what the function
  of its call says, so the run properties hold of the methods, and to keep the invariants.

Money is a whole number of hundredths, averages are real numbers, time is a number of
milliseconds, and ids are numbers handed out once. Fare and score bounds, and page and limit
being integers, are what the request validation guarantees.

## Where the code and its documentation differ

The model follows the code.

- The repository's design document says, under JWT flow and again under security, that replaying a
  refresh token revokes all sessions. `refreshTokens` only refuses it
  (`src/modules/auth/auth.service.ts:156-158`, `AuthHistory.ReplayRevokesNothing`).
- Its queue table says a ride expires 30 minutes after creation. The job is delayed to the
  scheduled time given at creation (`src/modules/rides/rides.service.ts:84-92`), and `updateRide`
  does not move it.
- The same table says a ride completes by itself two hours after the start. Only the two
  confirmations complete it (`src/modules/rides/rides.service.ts:423-435`).

Properties one might expect and that do not hold, each with its exact limit:

- An expired ride can still be cancelled (`Progress.CancelUntilStarted`,
  `FailingRuns.ExpiredIsCancelled`), so EXPIRED is not final.
- The expiry job fires at the ride's scheduled time exactly if the last time an edit named is the
  posted one, or none named any (`Edits.RowIsPostPlusEdits`, `FailingRuns.EditLeavesJobBehind`).
- The counters agree with the payments exactly when no ride with a fare was delivered twice
  (`Ledger.AgreesUnlessRedelivered`, `FailingRuns.RedeliveryPartsCounter`).
- A rating keeps the statistics in agreement exactly when it reveals nothing or both parties have
  a statistics row (`Reputation.SubmitAgreesIff`); over a whole run the last reveal decides
  (`Aggregates.AgreesIffLastRevealStored`). `Aggregates.RatedBeforeDelivery` is a run that fails.
  With calls interleaved, an older aggregate can be written over a newer one
  (`Aggregates.AgreesIffFresh`, `StaleAggregate.OlderAggregateWins`).
- Confirmations that overlap leave the ride in progress with both flags set: the ride is
  completed exactly if some confirmation read the other party's flag, and gets one job for each
  that did (`Overlap.CompletesUnlessOverlapping`). The ride then stays as it is for ever exactly
  if nothing of it is in flight but confirmations that read too early or have only their job to
  add (`Overlap.StuckAfterOverlap`). A start, cancellation or expiry that read the row long before
  can still overwrite the status (`Overlap.LastWordDecides`, `Overlap.StaleStartReopens`), and a
  call submitted twice adds its job twice (`Overlap.DoubledCallAddsTwoJobs`).
- A used code can make an older one current again; `AuthHistory.OlderCodeAcceptedIff` says
  exactly when it is accepted, and `AuthHistory.OlderCodeResetsAgain` is such a run.
- The bounds of five comparisons a code, one live token a family and one payment a ride hold of
  atomic calls. With overlap they grow by exactly as much as the calls overlap
  (`CodeRace.ComparisonsWithinOverlap`, `TokenRace.LiveWithinDoubles`,
  `PaymentRace.PaymentsWithinOverlap`), and each of the larger bounds is reached.

## Model

| member | source | states |
|---|---|---|
| Lifecycle.ReachableLifecycle | src/modules/rides/rides.service.ts:44-454 | In every reachable state, for every ride: an offer's rider and a request's passenger is the creator; rider and passenger differ; the other side is empty exactly when no request is accepted; a matched, running or completed ride has exactly one accepted request, its requester on the filled side, and none pending; searching and expired rides have none accepted |
| Lifecycle.FrozenParticipants | src/modules/rides/rides.service.ts:205-227 | Whatever calls follow, creator and type stay; once a ride is matched its rider, passenger and fare stay; completed and cancelled are final |
| Lifecycle.ConfirmProtocol | src/modules/rides/rides.service.ts:399-454 | With atomic calls a ride is completed exactly when both flags are set, and exactly one completion job was ever added for each completed ride and none for any other id |
| Lifecycle.Step | src/modules/rides/rides.service.ts:231-454 | Any one call keeps the lifecycle invariant, raises a ride's status rank whenever it changes the status, and never loses a flag, a filled side or an answered request |
| Lifecycle.AcceptKeeps | src/modules/rides/rides.repository.ts:132-157 | The three-way accept transaction keeps the whole invariant: one accepted request per filled ride, the rest of the ride's requests answered |
| Termination.AtMostThreeStatusChanges | src/modules/rides/rides.service.ts:231-454 | A ride changes status at most three times in any run |
| Termination.ExpiryIsFinal | src/jobs/processors/ride-expiry.processor.ts:19-31 | Once the ride's expiry job has run the ride is never searching again |
| Termination.StepSpends | src/modules/rides/rides.service.ts:231-454 | Every call that changes a ride's rows lowers its potential by at least one, and no other call raises it |
| Termination.EffectiveCallsBounded | src/modules/rides/rides.service.ts:231-454 | With n users besides the creator a ride admits at most 2n + 3 effective request, respond, start, confirm, cancel or expire calls in any run |
| Attained.BoundAttained | src/modules/rides/rides.service.ts:256-454 | For every n of at least one, every ride just created has a run with exactly 2n + 3 effective calls: all ask, all but the first are refused, the first is accepted, and the ride is started and confirmed twice |
| Authority.ChangedByParty | src/modules/rides/rides.service.ts:205-454 | Every change of a ride row comes from the party the call belongs to: creator for edits, cancellations and acceptances, rider for the start, the two participants for confirmations |
| Authority.CompletedByBoth | src/modules/rides/rides.service.ts:371-435 | A completed ride was, by calls of this run that went through, started by its rider and confirmed by its rider and by its passenger, two different users |
| Authority.TimesAreCallTimes | src/modules/rides/rides.service.ts:245-427 | The start, completion and cancellation times on a row are those of calls of that kind, on that ride, that went through in this run |
| Authority.MatchedByConsent | src/modules/rides/rides.service.ts:256-367 | Nobody is put on a ride unasked: the user on the filled side joined with some request, and at a later step the ride's creator accepted that very request, both calls going through |
| Authority.OpenQuarterHour | src/modules/rides/rides.service.ts:287-294 | A request's expiry is a quarter of an hour after the join that made it, and no later call moves it |
| Authority.AnsweredByItsCreator | src/modules/rides/rides.service.ts:319-367 | Every request no longer pending was accepted or declined by a call of this run that its ride's creator made and that went through: on this request, or, for a declined one, on another request accepted for the same ride |
| Edits.JobNeverMoves | src/modules/rides/rides.service.ts:205-227 | The expiry job of an existing ride keeps its firing time through every call |
| Edits.JobMatchesUnlessRescheduled | src/modules/rides/rides.service.ts:205-226 | A ride whose job fires at its scheduled time loses that exactly by an edit of its creator, while it is searching, that names a different time in the future |
| Edits.RowIsPostPlusEdits | src/modules/rides/rides.service.ts:44-227 | Over every run each ride was posted at some step, by its creator in the role its type asks for, for a time then in the future; its row is that post with the edits it admitted since, the later winning column by column; its job fires at the posted time, which is the row's time exactly if the last time an admitted edit named is the posted one or none named any |
| FailingRuns.EditLeavesJobBehind | src/modules/rides/rides.service.ts:219-226 | A run from empty tables that ends with a ride at time 5 and its job at time 1 |
| FailingRuns.ExpiredIsCancelled | src/modules/rides/rides.service.ts:235-239 | A run from empty tables in which an expired ride is cancelled |
| Progress.EffectiveIffDone | src/modules/rides/rides.service.ts:44-454 | A refused call changes nothing; a call other than an edit or the expiry job changes something exactly when it is not refused |
| Progress.RefusedInOrder | src/modules/rides/rides.service.ts:205-454 | Every call on a ride is refused for the first that applies of: no such ride, not this user's call, not in this status, and then its own causes, among them an earlier request of the same user for the same ride; otherwise it goes through |
| Progress.AnswerReach | src/modules/rides/rides.service.ts:319-367 | An acceptance fills the empty side with the requester, leaves exactly that request of the ride accepted, declines the pending ones, and touches no other ride or its requests; a refusal concerns that one request |
| Progress.OneRequestEver | src/modules/rides/rides.service.ts:279-285 | One request per user and ride for ever: whatever became of it and whatever happened since, no later one goes through |
| Progress.CancelUntilStarted | src/modules/rides/rides.service.ts:231-252 | In reachable states a cancellation goes through exactly when it comes from the creator and the ride has been neither started nor cancelled, so also after expiry |
| Progress.AnyoneCanRide | src/modules/rides/rides.service.ts:256-454 | From any reachable state a searching ride and any other user who has not asked before can be brought to completion: join, accept, start and both confirmations in either order go through and add one job |
| ConfirmRace.CompletedHasBothFlags | src/modules/rides/rides.service.ts:399-435 | With reads and writes split, in every interleaving with start, cancel, expiry and all other calls, a completed ride has both flags |
| ConfirmRace.BackToBackIsAtomic | src/modules/rides/rides.service.ts:371-435 | A split call whose write, and whose job if it has one to add, follow its read at once is the atomic call |
| Overlap.CompletesUnlessOverlapping | src/modules/rides/rides.service.ts:399-435 | In any reachable state of the split machine with a ride started and nothing of it in flight, and any legal moves after which again nothing of it is in flight: each flag is set exactly if a confirmation of that party was accepted, the ride is completed exactly if one of them read the other party's flag already set, it is in progress otherwise, and its job was added once for each such read |
| Overlap.JobsPerLateRead | src/modules/rides/rides.service.ts:430-435 | With the row update and the queue add as two statements: over every legal run, completion jobs of a ride plus confirmations that still owe theirs grow by one with each read that sees the other party's flag, and with nothing else |
| Overlap.LastWordDecides | src/modules/rides/rides.service.ts:231-435 | With anything in flight, starts, cancellations and expiries read long ago included, the status of a ride past searching is that of the last deciding write: a late confirmation, a start, a cancellation or an expiry |
| Overlap.StuckAfterOverlap | src/modules/rides/rides.service.ts:231-418 | In any reachable state a ride in progress with both flags set stays unchanged by every legal run exactly when nothing of it is in flight but confirmations that read the other flag unset or have only their job to add |
| Overlap.OverlapStalls | src/modules/rides/rides.service.ts:399-435 | A run from empty tables in which two overlapping confirmations leave both flags set, the ride in progress and no job |
| Overlap.StaleStartReopens | src/modules/rides/rides.service.ts:371-435 | A run in which a start that read the matched row writes after the completion: the job is added, and the ride is in progress again and stuck |
| Overlap.DoubledCallAddsTwoJobs | src/modules/rides/rides.service.ts:399-435 | A run in which the second party's confirmation, submitted twice, adds two completion jobs |
| Records.ReachableRecords | src/jobs/processors/ride-completion.processor.ts:40-51 | At every later time each message's sender, each rating's two parties and each payment's payer and amount match the ride's participants and fare |
| Records.SubmitKeeps | src/modules/ratings/ratings.service.ts:31-63 | A rating call adds at most one rating per ride and rater, between the two participants of a completed ride |
| Records.RatingStoredIff | src/modules/ratings/ratings.service.ts:31-71 | In reachable states a rating is stored exactly for a participant of a completed ride who has not rated it: this score, about the other participant, both of the ride's ratings revealed if the other's is there and no other flag changed; each refusal has its cause and changes nothing |
| Records.ChatOpenWhileOn | src/modules/chat/chat.service.ts:41-58 | In reachable states a message is stored, with its sender, text and time, exactly for a participant of a ride that has both and has been neither completed nor cancelled; otherwise nothing changes and the refusal says whether the ride exists |
| Ledger.AtLeastOnceDelivery | src/jobs/processors/ride-completion.processor.ts:39-73 | Whatever the number and order of deliveries, a ride has at most one payment, and a user's earnings counter exceeds the recomputed earnings by exactly the sum over rides of (deliveries - 1) fares |
| Ledger.DeliveryGoesThrough | src/jobs/processors/ride-completion.processor.ts:23-83 | In every reachable state the job of a completed ride goes through: it pays the fare from the passenger now unless the ride is paid, gives the rider a trip and the fare and the passenger a trip, touching no other column or row, starts a missing row from the defaults, and adds a recalculation for each; any other job does nothing |
| Ledger.AgreesUnlessRedelivered | src/jobs/processors/ride-completion.processor.ts:39-73 | Counter and recomputed earnings agree exactly when no ride with a fare the user drove was delivered twice |
| Ledger.LedgerAgreement | src/modules/payments/payments.repository.ts:35-73 | With each completion job delivered once, every user's counter is the recomputed sum, their total is the sum of the amounts in the payments table and of the fares of the paid rides, and exactly the completed rides are paid |
| Ledger.Conservation | src/jobs/processors/ride-completion.processor.ts:54-73 | Over all users, total earnings are the fares of the processed rides, and completed trips are two for each delivery |
| Ledger.TripsAgree | src/modules/payments/payments.repository.ts:27-64 | With no job delivered twice, the trips counter is the rides the user drove plus the rides the user paid for |
| Ledger.TripsExcess | src/jobs/processors/ride-completion.processor.ts:40-73 | Whatever the number and order of deliveries, a user's trips counter exceeds the two payment counts by exactly (deliveries - 1) for each ride of theirs |
| Ledger.RecomputedIsSum | src/modules/payments/payments.repository.ts:40-44 | The aggregate over payments is the sum of the fares of the paid rides the user drove |
| Ledger.PeriodsPartition | src/modules/payments/payments.repository.ts:45-60 | The time before last month, last month and this month, each the sum over the payments with its ends written out, add up to the total |
| Ledger.PeriodIsSum | src/modules/payments/payments.repository.ts:53-60 | The aggregate of a period is the sum of the amounts of the completed payments made in it, first end included and last end not, for rides the user drove |
| Ledger.DrivenIsSum | src/modules/payments/payments.repository.ts:61-63 | The count is the number of completed payments for rides the user drove |
| Ledger.RedeliveryCreditsAgain | src/jobs/processors/ride-completion.processor.ts:40-73 | A second delivery of a job pays nothing and credits the fare again |
| FailingRuns.RedeliveryPartsCounter | src/jobs/processors/ride-completion.processor.ts:40-73 | A run from empty tables in which the job of a ride with fare 7 is delivered twice: earnings recomputed as 7, and a counter of 14 |
| PaymentRace.PaymentsWithinOverlap | src/jobs/processors/ride-completion.processor.ts:39-52 | With the look for a payment and its creation as two statements, a ride gets at most as many payments as deliveries of its job ever overlapped between the two, over every run: at most one if none did |
| PaymentRace.OverlapBoundReached | src/jobs/processors/ride-completion.processor.ts:39-52 | For every n a run with overlap at most n in which a ride gets n payments |
| PaymentRace.BackToBackPays | src/jobs/processors/ride-completion.processor.ts:39-52 | A look and its payment with nothing in between leave the payments of the atomic delivery |
| Reputation.ReachableScores | src/jobs/processors/trust-score.processor.ts:25-39 | In every reachable state an average is a mean of scores in [1, 5], no cancellation is on record, and every trust score is in [31, 90] |
| Reputation.TrustInRange | src/jobs/processors/trust-score.processor.ts:25-34 | With no cancellations on record the raw score is in [30, 90], so the clamps at 0 and 100 never fire, and the score is it rounded to nearest, halves up |
| Reputation.TrustMonotone | src/jobs/processors/trust-score.processor.ts:25-38 | More rides, a better average and fewer cancellations never lower the score |
| Reputation.TrustWeights | src/jobs/processors/trust-score.processor.ts:25-34 | A ride is worth one point up to the twentieth, a cancellation minus two up to the tenth, a star ten from three up; with averages of scores the total stays within 10 and 90, so the clamps never fire |
| Reputation.SubmitAgreesIff | src/modules/ratings/ratings.service.ts:65-79 | A rating keeps every user's count and mean in agreement with the revealed ratings exactly when it reveals nothing or both parties already have a statistics row |
| Reputation.StatsFollowRatings | src/modules/ratings/ratings.service.ts:126-137 | If completion jobs precede ratings, every row's count is the number of the user's revealed ratings in the table and its average times that count their sum, 0 if there are none |
| Aggregates.AgreesIffLastRevealStored | src/modules/ratings/ratings.service.ts:70-79 | Over any run of atomic calls a user's row agrees with the revealed ratings exactly when the last reveal that concerned the user found the rows of both parties it rewrites, or none concerned the user |
| Aggregates.RatedBeforeDelivery | src/modules/ratings/ratings.repository.ts:46-51 | A run from empty tables: both parties rate before the completion job, the second call fails for want of a row after revealing both ratings, and the row the late job creates shows none of them |
| Aggregates.AgreesIffFresh | src/modules/ratings/ratings.service.ts:70-79 | At statement level, whether or not calls are in flight, a row agrees exactly when the call that wrote it last took its aggregate after the last reveal that was news to the user, or nothing was ever revealed |
| StaleAggregate.OlderAggregateWins | src/modules/ratings/ratings.service.ts:70-79 | A run of statements from empty tables: a user's row agrees, then another call writes the smaller count it had read before, and the row no longer agrees |
| Reputation.ScoreFromRecords | src/jobs/processors/trust-score.processor.ts:19-39 | If jobs precede ratings and none runs twice, the score a recalculation stores is, to the nearest whole number, fifty, a point for each payment of a ride driven or paid for up to twenty, and ten times what the sum of the revealed scores over their number exceeds three |
| Reputation.LateJobDisagrees | src/modules/ratings/ratings.repository.ts:46-51 | A completion job that runs after its user was rated creates a row that disagrees with the ratings |
| Reputation.RevealReach | src/modules/ratings/ratings.repository.ts:39-44 | A reveal changes what the two participants have been given, and nobody else |
| Statements.CompleteIsSubmit | src/modules/ratings/ratings.service.ts:48-80 | The statements of one rating call run without interference do what the atomic call does, and finish exactly when it succeeds |
| Statements.JobIsDelivery | src/jobs/processors/ride-completion.processor.ts:54-83 | The four statements of a completion job, either upsert first, do to stats and queue what the atomic delivery does |
| BlindReveal.RevealedOnlyTogether | src/modules/ratings/ratings.service.ts:46-71 | At statement level, for any number of concurrent calls: a revealed rating's counterpart exists and is revealed as well |
| BlindReveal.BothRevealedWhenFinished | src/modules/ratings/ratings.service.ts:55-71 | Once both parties' ratings exist and all calls that inserted one for the ride have finished without error, all ratings of the ride are revealed |
| TrustCache.ScoreCurrentOrPending | src/jobs/processors/trust-score.processor.ts:19-39 | In every interleaving, a worker that dies and one that throws included, a cached score is the formula on the current row, or the worker holds or has computed it, or a job waits, or a producer that rewrote the row has yet to add its job or stopped before, or the worker failed at the last job it took for the user |
| TrustCache.ScoreCurrentWhenQuiet | src/jobs/processors/trust-score.processor.ts:19-39 | Hence a user's score is current whenever the queue is drained, the worker is idle, no call or job owes the user a recalculation, and the worker did not fail at the user's last job |
| TrustCache.WorkerSettles | src/jobs/processors/trust-score.processor.ts:19-39 | The worker's three statements run alone settle one waiting job, as the atomic recalculation does |
| AuthInvariants.TokenRotation | src/modules/auth/auth.service.ts:102-168 | In every reachable state the tokens descending from one login or verification include at most one unrevoked token, and every stored token belongs to an email-verified user |
| AuthInvariants.ResetEndsSessions | src/modules/auth/auth.service.ts:195-206 | No refresh token issued to a user before a successful password reset is accepted at any time after it |
| AuthInvariants.PresentedOnce | src/modules/auth/auth.service.ts:152-177 | A refresh token presented once, whatever came of it, or logged out, is refused for ever |
| Sessions.SessionLastsUntilEnded | src/modules/auth/auth.service.ts:122-206 | Over every run, a live refresh token is accepted at the end exactly if no call presented it, logged it out or was its owner's successful reset, it has not expired, and its owner's account is available; other logins, devices, users and cleanups make no difference |
| Sessions.TokenAfter | src/modules/auth/auth.service.ts:122-206 | What any call leaves of a stored token: owner and expiry always; its revocation unless this call ends it, now; its place unless the cleaner finds it due |
| Sessions.AccountAfter | src/modules/auth/auth.service.ts:45-206 | What any call leaves of an account, column by column: who creates it, what renews the password, what verifies it, and that only the administration suspends and deletes |
| Sessions.AnswerAfter | src/modules/auth/auth.service.ts:45-206 | Which calls are refused, and as what: credentials and tokens as unauthorized, inactive accounts as forbidden, taken addresses as a conflict, codes as a bad request; logout and forgotten password are always answered alike |
| AuthHistory.ReplayRevokesNothing | src/modules/auth/auth.service.ts:152-160 | Presenting a revoked token is refused, changes nothing, and leaves every token answered as before |
| AuthHistory.SessionSurvivesReplay | src/modules/auth/auth.service.ts:152-168 | A run from empty tables in which a rotated token is replayed and its successor is accepted afterwards |
| TokenRace.LiveWithinDoubles | src/modules/auth/auth.service.ts:152-168 | With look-up, revocation and new token as three statements: over every run, whenever no refresh of a family is under way, the family holds at most one live token more than there were look-ups of a token that another refresh had found and not yet revoked; so at most one if refreshes of one token never overlap |
| TokenRace.DoublesBoundReached | src/modules/auth/auth.service.ts:152-168 | For every n a run with n such look-ups that ends with n + 1 live tokens in the family |
| TokenRace.BackToBackIsAtomic | src/modules/auth/auth.service.ts:152-168 | The three statements with nothing in between are the atomic refresh |
| AuthInvariants.OtpBound | src/modules/auth/auth.service.ts:232-253 | Over any run at most five hash comparisons are made against one record, at most one matches, none is made after expiry, and attempts never exceed five |
| CodeRace.ComparisonsWithinOverlap | src/modules/auth/auth.service.ts:232-253 | With the comparison and the write of its cost as two statements: if at most n checks of a record ever overlap, at most 4 + n comparisons are made against it and at most n match, over every run; n = 1 gives the five and the one |
| CodeRace.OverlapBoundsReached | src/modules/auth/auth.service.ts:232-253 | For every n of at least one, runs with overlap at most n that make 4 + n comparisons, and that accept n codes |
| CodeRace.BackToBackIsAtomic | src/modules/auth/auth.service.ts:232-253 | A comparison whose cost is written at once is the atomic check |
| AuthInvariants.AcceptedIffNewest | src/modules/auth/auth.repository.ts:36-44 | In reachable states a code is accepted exactly when it is that of the newest unused record for the purpose, which is neither locked nor expired |
| AuthHistory.OlderCodeAcceptedIff | src/modules/auth/auth.repository.ts:36-51 | In any reachable state where a code is accepted, a second code is accepted some time later exactly when it is that of the newest unused record but for the one just used, neither locked nor expired by then |
| AuthHistory.OlderCodeResetsAgain | src/modules/auth/auth.service.ts:179-253 | A run from empty tables: two codes are mailed, the newer resets the password, and the older resets it once more |
| AuthHistory.EveryTokenEarned | src/modules/auth/auth.service.ts:102-168 | Every stored token was earned at some step of the run: by a matching code of an unverified account, the password of an active one, or a live unexpired token of the same user on an active one |
| AuthHistory.EveryCodeMailed | src/modules/auth/auth.service.ts:45-230 | Every stored code was mailed at some step of the run, for the sign-up of an unverified account or a forgotten password, to an account not deleted, and expires ten minutes after that step |
| Journeys.ResetCodeWorksIff | src/modules/auth/auth.service.ts:179-253 | A reset code works after a delay and some wrong guesses exactly when it is at most ten minutes old and fewer than five guesses came before |
| Journeys.OnlyNewPasswordWorks | src/modules/auth/auth.service.ts:122-206 | After a reset a password logs in exactly when it is the new one and the account is active |
| Journeys.SignUpWorksIff | src/modules/auth/auth.service.ts:45-168 | A sign-up followed by its code verifies exactly within ten minutes, a suspended account included; then the refresh token and the password are good exactly if the account is not suspended, and before it the password is not |
| Cleanup.CleanupIsInvisible | src/jobs/cleanup.service.ts:11-33 | A run with cleanups inserted anywhere accepts and refuses exactly what the run without them does, refusing with the same exception class |
| Cleanup.CleanupIsExact | src/jobs/cleanup.service.ts:11-33 | Exactly the unexpired codes are left, and exactly the unexpired tokens that are live or were revoked in the last seven days |
| Cleanup.LatestAgrees | src/modules/auth/auth.repository.ts:36-44 | Where the latest code is unexpired the cleaned table has the same latest; otherwise its latest, if any, is expired too |
| Provenance.DriversWereApproved | src/modules/admin/admin.service.ts:183-210 | Every user who ever appears as a ride's rider was approved at an earlier step of the run |
| Provenance.RiderIffApproved | src/modules/admin/admin.service.ts:192-210 | In every reachable state a user with an approved profile has the rider role and every other user the passenger role |
| Provenance.AdminService.Verify | src/modules/admin/admin.service.ts:183-210 | An approval makes the profile approved and the user a rider, a rejection the profile rejected and the user a passenger, both together; nobody else's role or profile changes, and a refused call changes nothing |
| Pages.GetPaginationParams | src/shared/utils/pagination.util.ts:13-22 | The page is the one asked for, or 1 if none or one below 1 was; the limit is the one asked for, 20 if none was, and the nearer end of 1 to 100 if it lies outside; the window skips the earlier pages exactly |
| Pages.WindowIsPage | src/shared/utils/pagination.util.ts:13-30 | The window and the counts of a request select rows (page - 1) * limit and on, at most limit of them, and the least number of pages that hold all rows |
| Pages.PagesPartition | src/shared/utils/pagination.util.ts:13-30 | Pages 1 to totalPages give the list exactly, every later page is empty, and no smaller number of pages would do |
| Chat.ReachableReadsUpwards | src/modules/chat/chat.service.ts:30-58 | In every state that a run with a forward clock reaches, the reversed pages from the last to the first give the ride's messages of the last seven days, every one once, in ascending time order |
| Chat.ShownIsReversedPage | src/modules/chat/chat.service.ts:20-39 | Exactly the two participants are answered, others are refused by cause; the page asked for is the p-th of those reversed pages, row by row, with its counts |
| Chat.RecentIn | src/modules/chat/chat.repository.ts:15-34 | The window holds exactly the ride's messages of the last seven days, each as often as it was sent |
| Feed.WhereMeaning | src/modules/rides/rides.service.ts:107-148 | The built search record asks for searching posts of the complementary type by others that pass the date, seat, gender and distance filters |
| Feed.FeedAgreesWithGuards | src/modules/rides/rides.service.ts:99-178 | For passengers and riders all search pages together are exactly the rides that pass the filters and that the request call would let through up to its duplicate check, none repeated, by scheduled time |
| Feed.FeedOfAdministrators | src/modules/rides/rides.service.ts:99-279 | For administrators all search pages together are exactly the other users' searching offers that pass the filters, and the request call refuses every one of them |
| KeyText.RawRoundTrip | src/config/configuration.ts:1-40 | A key text comes out with its carriage returns dropped and nothing else changed |
| KeyText.QuotedRoundTrip | src/config/configuration.ts:5-25 | So does the text wrapped in either quote with its line breaks escaped |
| KeyText.PaddedRoundTrip | src/config/configuration.ts:2-11 | Blanks around the raw text, around the quotes and inside them make no difference |
| KeyText.KeyInDocument | src/config/configuration.ts:14-21 | A document with a private_key member gives that key, line breaks escaped or not |
| KeyText.KeyInBase64 | src/config/configuration.ts:28-37 | A text without BEGIN whose decoding is a key gives that key |
| KeyText.NothingToNormalize | src/config/configuration.ts:1-40 | No variable gives no key, and a text that is a key in none of these ways is left as it is |
| KeyText.NormalizeTwice | src/config/configuration.ts:1-40 | Normalising a normalised key changes nothing |
| KeyText.NormalizePrivateKey | src/config/configuration.ts:1-40 | The step-by-step rewriting is the function the round trips are about |
| Services.RidesRepository.AcceptRequestTx | src/modules/rides/rides.repository.ts:132-157 | The three statements together accept the request, match the ride with the given side filled, and decline the ride's other pending requests; for a pending request on a searching ride they keep every invariant |
| Services.RidesService.CreateRide | src/modules/rides/rides.service.ts:44-95 | Tables and reply after the call are those of the posting step on the tables before it, refusals included, and the lifecycle, the records, the books and the score range are kept; the same two promises hold of every method below that changes the database |
| Services.RidesService.UpdateRide | src/modules/rides/rides.service.ts:205-227 | The same for the editing step; only the ride table changes, so the expiry job stays where it was (Authority.JobNeverMoves) |
| Services.RidesService.CancelRide | src/modules/rides/rides.service.ts:231-252 | The same for the cancelling step (Progress.CancelUntilStarted) |
| Services.RidesService.RequestRide | src/modules/rides/rides.service.ts:256-306 | The same for the joining step (Feed.FeedAgreesWithGuards, Progress.OneRequestEver) |
| Services.RidesService.RespondToRequest | src/modules/rides/rides.service.ts:319-367 | The same for the answering step, whose acceptance goes through the three-statement transaction (Progress.AnswerReach) |
| Services.RidesService.StartRide | src/modules/rides/rides.service.ts:371-395 | The same for the starting step (Authority.ChangedByParty) |
| Services.RidesService.ConfirmRide | src/modules/rides/rides.service.ts:399-454 | An update record built column by column, then a conditional job, give the confirming step (Lifecycle.ConfirmProtocol, Authority.CompletedByBoth) |
| Services.RidesService.SearchRides | src/modules/rides/rides.service.ts:99-178 | Building the filter in place returns, for the page and limit of the request, exactly those rows of the matching rides, and their page counts (Feed.FeedAgreesWithGuards, Pages.WindowIsPage) |
| Services.RideExpiryProcessor.Process | src/jobs/processors/ride-expiry.processor.ts:19-31 | The worker gives the expiring step (Termination.ExpiryIsFinal) |
| Services.RideCompletionProcessor.Process | src/jobs/processors/ride-completion.processor.ts:23-88 | The worker gives the delivery step, payment guard and unguarded counters included, and keeps the invariants (Ledger.AtLeastOnceDelivery) |
| Services.TrustScoreProcessor.Process | src/jobs/processors/trust-score.processor.ts:19-43 | The worker rewrites the score of this row alone, with the formula of Reputation.TrustWeights, and does nothing without a row |
| Services.RatingsService.RecalculateStats | src/modules/ratings/ratings.service.ts:126-137 | The new count is the number of revealed ratings of the user in the table, the new average times that count is their sum, no other column or row changes, and it fails without a row |
| Services.RatingsService.SubmitRating | src/modules/ratings/ratings.service.ts:31-91 | Create, look for the other, reveal, two rewrites and two jobs in sequence give the rating step, and a call that fails midway leaves exactly what it had written (Reputation.SubmitAgreesIff) |
| Services.ChatService.SendMessage | src/modules/chat/chat.service.ts:41-58 | Appends this message, with its sender, text and time, exactly if the call goes through, and otherwise leaves everything (Records.ChatOpenWhileOn) |
| Services.ChatService.ReverseFetched | src/modules/chat/chat.service.ts:36-36 | Turns the fetched array around in place |
| Services.ChatService.GetMessages | src/modules/chat/chat.service.ts:20-39 | Shown exactly to participants; for the page and limit asked for, the reply reversed is exactly those rows of the window, newest first, with the page counts (Chat.ShownIsReversedPage) |
| Services.PaymentsRepository.GetRiderEarnings | src/modules/payments/payments.repository.ts:35-73 | Total, this month and last month are the sums over the payments of completed ones for rides the user drove, with each month's two ends written out, and the count counts them; the months and the time before add up to the total |
| AuthServices.AuthService.SendEmailOtp | src/modules/auth/auth.service.ts:210-230 | The new record becomes the newest unused one for its user and purpose, its code is good at every time of the next ten minutes, every older record stays as it is, and the invariants are kept (AuthHistory.OlderCodeAcceptedIff) |
| AuthServices.AuthService.Validate | src/modules/auth/auth.service.ts:232-253 | Counts a wrong code, marks a right one used, and compares nothing when the record is missing, locked or expired (AuthInvariants.OtpBound) |
| AuthServices.AuthService.Issue | src/modules/auth/auth.service.ts:255-274 | The new token has an id no stored token has, would be accepted at once if the account is active, and leaves every other token as it is; the one-live-token rule survives if the family it joins has no live token (AuthInvariants.TokenRotation) |
| AuthServices.AuthService.RegisterUser | src/modules/auth/auth.service.ts:45-90 | State and reply are those of the sign-up step, an unverified account being registered again included (Journeys.SignUpWorksIff) |
| AuthServices.AuthService.VerifyUserEmail | src/modules/auth/auth.service.ts:102-120 | State and reply are those of the verification step (Journeys.SignUpWorksIff) |
| AuthServices.AuthService.LogIn | src/modules/auth/auth.service.ts:122-150 | Goes through exactly for the right password of an active account; leaves every stored token as it is and adds one that would be accepted at once; refused, it changes nothing (Sessions.SessionLastsUntilEnded) |
| AuthServices.AuthService.RefreshTokens | src/modules/auth/auth.service.ts:152-168 | State and reply are those of the refresh step: the token is revoked before the account is looked at, and no other token changes (AuthInvariants.PresentedOnce) |
| AuthServices.AuthService.LogOut | src/modules/auth/auth.service.ts:170-177 | The presented token is live no longer, every other token stays as it is, and the reply is always success (AuthInvariants.PresentedOnce) |
| AuthServices.AuthService.RevokeAllRefreshTokens | src/modules/auth/auth.repository.ts:77-82 | No token of the user is live afterwards, every token of anybody else stays as it is, and the invariants are kept |
| AuthServices.AuthService.ForgotUserPassword | src/modules/auth/auth.service.ts:179-193 | State and reply are those of the forgotten-password step: the reply never tells whether the account exists (Journeys.ResetCodeWorksIff) |
| AuthServices.AuthService.ResetUserPassword | src/modules/auth/auth.service.ts:195-206 | State and reply are those of the reset step: new password, and every live token of the user revoked (AuthInvariants.ResetEndsSessions) |
| AuthServices.CleanupService.CleanExpiredOtps | src/jobs/cleanup.service.ts:11-17 | Exactly the unexpired records remain, unchanged, and no code of any user or purpose is answered differently afterwards (Cleanup.CleanupIsInvisible) |
| AuthServices.CleanupService.CleanStaleRefreshTokens | src/jobs/cleanup.service.ts:19-33 | Exactly the unexpired tokens that are live or were revoked in the last seven days remain, unchanged, and no token is answered differently afterwards (Cleanup.CleanupIsInvisible) |

## Left out

- Controllers, guards, validation objects, interceptors and the other framework wiring; the caller and role of a call are parameters.
- Prisma, PostgreSQL, BullMQ and Redis: only the two unique keys, the atomicity of a transaction, and delivery as stated in each property are used.
- Notifications, e-mail, push, file storage, sockets, logging and audit rows.
- Columns no decision reads: addresses, notes, cancel reasons, reviews, tags, currency, names and devices.
- Calls at statement level other than confirm, start, cancel, expiry, ratings, code checks, refreshes, the worker's payment and upserts, and the trust-score job: two accepts, or an accept and an expiry, are atomic calls, because the code reads and writes there without a guard.
- Ledger.AtLeastOnceDelivery: takes deliveries one after another; PaymentRace.PaymentsWithinOverlap bounds the payments of overlapping ones.
- Overlap.JobsPerLateRead: a confirmation that dies between its row update and its queue add loses its job, which the machine does not do.
- Floating point: averages and scores are real numbers, and the score is rounded half up.
- Ledger.LedgerAgreement: assumes that each completion job was delivered exactly once; other deliveries are covered by Ledger.AtLeastOnceDelivery.
- TrustCache.ScoreCurrentOrPending: only one worker runs; a stalled job is handed out again and a failed one is not; a producer that fails between its write and its add, or a worker that fails, leaves the score stale, and the statement says so.
- Provenance.DriversWereApproved: access tokens never expire here, which only allows more runs; only the ride calls and the steps that lead to a token are acts.
- Cleanup.CleanupIsInvisible: answers are exception classes; the message of a refused code may differ, because an expired record that has been cleaned away is reported as missing.
- Feed.FeedAgreesWithGuards: the table and the order among equal scheduled times are fixed while the pages are read; a date is a day number.
- Chat.ReachableReadsUpwards: the conversation and the window are fixed while the pages are read; the job that deletes old messages is not modelled.
- KeyText.RawRoundTrip: the JSON and base64 decoders are parameters that a key text does not reach; a decoder that throws is one that gives nothing.
- Services.PaymentsRepository.GetRiderEarnings: the month boundaries are parameters.
- An account is one id: the lookup by e-mail and by user id find the same row.
- Hashes and random tokens are the secrets and fresh ids they stand for.
- Access tokens that stay valid for fifteen minutes after a reset, a logout or a suspension.
- Listings, reports, dashboard figures, profile editing, encryption, distance and matching scores, and the anonymisation queue.
