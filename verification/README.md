# Container tracking backend: verified model

A Dafny model of the backend that looks up shipping containers at a provider, charges an
organization one credit per lookup, keeps what it learned in a row per container and tells webhook
endpoints about changes. `dafny verify dfyconfig.toml` checks everything.

| file | what it models |
|---|---|
| `EventMerge.dfy`, `MergeProperties.dfy`, `MergeAnswers.dfy` | merging a provider result into a container row |
| `GoCometPoll.dfy`, `GoCometLookup.dfy`, `GoCometAnswers.dfy`, `GoCometTracker.dfy` | the create-then-poll client with its retry budgets |
| `ResumeProtocol.dfy` | what the client costs over a container's whole history, crashes included |
| `Credits.dfy` | balances and ledger, and all interleavings of charges, purchases and resets |
| `Lifecycle.dfy`, `LifecycleProperties.dfy`, `LifecycleAnswers.dfy` | one container shared by API calls, worker, sweep and customers |
| `ScrapeSession.dfy` | the inside of one scrape: uncommitted changes, commits on the way, a fault at any call |
| `BulkQueue.dfy` | bulk submission |
| `SessionPool.dfy`, `FanOut.dfy` | the tracker pool and the workers draining one queue |
| `Webhooks.dfy` | delivery fan-out and retries with capped exponential backoff |
| `Billing.dfy` | what the payment provider's webhooks do to plans and credits |
| `Text.dfy` | optional strings as the backend treats them |

Provider replies, the clock, the job queue and crashes are inputs: claims about runs hold for every
sequence of them. Each stretch of a coroutine between two awaits is one atomic step of an API
process. Objects the source updates in place are classes; each of their methods is proved equal to a
step function on the object's value, and the claims over runs are lemmas about those step functions.
The `...Answers` modules say what each step does field by field, without those functions.

## Where the code differs from what it says

- A charge commits its deduction and its ledger line separately. A plan reset in between breaks the
  identity "credits left + charges since the reset = allotment + top-ups" by exactly that charge
  (`CreditsAreConserved`, `AChargeCanStraddleAReset`). It takes a second API process to get there:
  within one, nothing awaits between the two commits, and the identity holds in every run
  (`OneProcessConservesCredits`).
- The comment in `refill_credits_for_invoice` says that a new subscription's own event makes up for
  an invoice that came too early. It does not for an organization that already has a row on the same
  plan (`InvoicedThenCreated`).
- An upsert commits the new plan before the credits. After a crash in between, redelivery of the event
  grants them only if another plan came in meanwhile (`RedeliveryAfterACrash`,
  `OnlyAnotherPlanRepairsACrash`).
- A container's location can move back to an earlier event (`LocationCanGoBack`), exactly when it is
  unmasked as a vessel's name with nothing as late to take its place (`LocationOverHistory`); vessel
  and voyage cannot.
- A row past the stuck threshold may still have a live lookup, which a second one then doubles
  (`AStuckLookupIsDoubled`); `AtMostOneScrape` gives all the ways in which two scrapes of a container
  can meet. A scrape cancelled while sending webhooks turns a completed row, or one
  the next scrape owns, into a failed one (`ACancelledNotificationFreesAnOwnedRow`).
- `track` and `get_or_refresh` leave the previous message in place while a row is in progress, so the
  message invariant says nothing about that status.
- A found answer that echoes an empty string as its id overwrites the stored id and so costs one more
  create (`EmptyIdsBreakThePlainBound`). `CreatesAreAccountedFor` is the exact account of all creates,
  and `PlainBoundIff` says when the bound without such answers holds.
- The carrier a miss resolves is documented to enrich the row, but the registry's own miss result
  carries neither carrier nor tracking id (app/providers/registry.py:640); the model allows both.
- `_enqueue_scrapes` says that no background sweep exists; `sweep_stuck_scrapes` does, and is modelled.

## Model

Results first: lemmas over all inputs, runs and histories. The operations, methods proved against the
step functions those lemmas speak about, fill the end of the table.

| member | source | states |
|---|---|---|
| `EventMerge.Latest` | app/repositories/containers.py:54-62 | The event a summary field is taken from: an actual event with a meaningful, not excluded value and the greatest normalized time among all such events; none exactly when there is no such event. |
| `MergeProperties.LatestIsFirstOfItsInstant` | app/repositories/containers.py:61 | Among qualifying events of the greatest instant the first in list order is taken, as Python's max does. |
| `MergeProperties.LatestSurvivesReread` | app/repositories/containers.py:41-62 | Re-reading the events sorted by time, ties in the same relative order, does not change which event is taken. |
| `MergeProperties.DistinctIffOccursOnce` | app/repositories/containers.py:182-189 | Keys are pairwise distinct exactly when every stored key occurs once: distinctness does not depend on list order. |
| `MergeProperties.FreshAddsEachNewKeyOnce` | app/repositories/containers.py:180-210 | A batch contributes exactly its unknown keys, each once, always with an event of the batch. |
| `MergeProperties.MergeKeepsKeys` | app/repositories/containers.py:178-210 | One merge keeps stored keys distinct, keeps every stored event, and leaves the union of old and incoming keys. |
| `MergeProperties.HistoryKeepsExactlyTheKeysSeen` | app/repositories/containers.py:178-230 | Over any history of results with re-reads in between: keys stay distinct, are exactly the keys ever seen, and an event once stored is still stored unaltered. |
| `MergeProperties.SummaryIsTheLatestActualValue` | app/repositories/containers.py:214-228 | Each field is the value of a latest qualifying actual event whatever estimates or guesses come along; without one it is the guess or the old value; a non-empty value never becomes empty. |
| `MergeProperties.ReapplyingChangesNothing` | app/repositories/containers.py:171-230 | Applying the same result again after a re-read adds no event and leaves the row as it is. |
| `MergeProperties.ReapplyingNeverAnnouncesAnUpdate` | app/services/container_service.py:54-78 | The second application of a result never announces container.updated. |
| `MergeProperties.UpdateAnnouncedIffChanged` | app/services/container_service.py:66-69 | container.updated is announced exactly when the result names another status or adds an event. |
| `MergeProperties.MergeIsConfluent` | app/repositories/containers.py:178-228 | If equally keyed events agree, two results applied in either order store the same events, and agree on every field for which some event qualifies and same-instant qualifiers name one value. |
| `MergeProperties.GuessesCommuteIff` | app/repositories/containers.py:226-228 | For a field no event can decide, two results applied in either order agree exactly when they do not both report a value, and different ones. |
| `MergeProperties.GuessesDoNotCommute` | app/repositories/containers.py:226-228 | Two event-less results that leave different locations in the two orders. |
| `MergeProperties.VesselAndVoyageNeverGoBack` | app/repositories/containers.py:222-228 | Once an actual event supplied a vessel or voyage, over the rest of any history the time of the event it is taken from never decreases, and the field is that event's value. |
| `MergeProperties.LocationCanGoBack` | app/repositories/containers.py:220-226 | For location the same is false: a run in which a later result reveals that the stored location is a vessel's name, and the location falls back to an earlier event. |
| `MergeProperties.LocationGoesBackIffUnmasked` | app/repositories/containers.py:214-228 | One result takes the location back (or leaves no event to take it from) exactly when an event it adds names the stored location as a vessel and no stored event of the same instant nor added one of that instant or later qualifies; otherwise the field is the chosen event's location. |
| `MergeProperties.LocationOverHistory` | app/repositories/containers.py:178-228 | The same equivalence between any two points of any history, with all the events added in between. |
| `MergeProperties.AVesselNameNeedNotTakeTheLocationBack` | app/repositories/containers.py:214-228 | Why both halves are needed: a stored location is named as a vessel by an event that itself brings a later place. |
| `MergeAnswers.ReportedStatusAndCarrierWin` | app/repositories/containers.py:171-176 | After a merge status and carrier are what the result reports when it reports something, else what was stored. |
| `MergeAnswers.LastReportedIsKept` | app/repositories/containers.py:171-176 | Over any history each of the two is the last non-empty one reported since the start, or the first row's if there was none. |
| `MergeAnswers.EachFieldIsItsOwn` | app/repositories/containers.py:222-228 | Location, vessel and voyage are the same field of the event chosen for them; without one, what the result says of that field, else what was stored. |
| `MergeAnswers.ChosenSupplies` | app/repositories/containers.py:14-62 | The event chosen is one that has happened, whose value is neither blank nor unknown, n/a or none in any case or padding, and for a location is no event's vessel name; it is of the greatest time among these, and there is one exactly when some event is like that. |
| `MergeAnswers.OneEventAddsItself` | app/repositories/containers.py:181-190 | A known key adds nothing, an unknown one its event. |
| `MergeAnswers.BatchIsTakenInOrder` | app/repositories/containers.py:181-210 | A batch is taken in order, each event against all keys before it, so that the first of two with one key counts. |
| `MergeAnswers.LosingTheZoneChangesNothing` | app/repositories/containers.py:22-38 | If stored instants come back without their zone the same incoming events are known and all summary fields come out the same. |
| `MergeAnswers.MilestonesAreHeard` | app/services/container_service.py:63-76 | Arrival, discharge and delay are announced exactly when the new status, the old one or a code just added speaks of them, in any letter case. |
| `GoCometPoll.TallyIsHonest` | app/providers/gocomet_http.py:241-284 | `elapsed` is never negative, never more than the real time passed, and grows with every round. |
| `GoCometPoll.GetsAreBounded` | app/providers/gocomet_http.py:241-284 | However slow or broken the network, no poll sends more than MaxGets requests, a closed form of timeout, fast interval, fast window, slow interval and the error nap. |
| `GoCometPoll.DefaultMaxGets` | app/providers/gocomet_http.py:137-140 | That bound is 30 at the default settings. |
| `GoCometPoll.DefaultMaxGetsIsReached` | app/providers/gocomet_http.py:241-284 | And 30 requests are sent when replies are instant and never final: the bound is tight. |
| `GoCometPoll.PollIsDetermined` | app/providers/gocomet_http.py:241-284 | Replies and clock leave one outcome and one number of requests: the declarative meaning of a poll is a function. |
| `GoCometAnswers.PollAnswersItsReplies` | app/providers/gocomet_http.py:117-128 | In terms of codes, texts and statuses: every round before the last was a network error or a good reply still pending; the last reply decides: 404 is not found; else 429, 503, too many requests, captcha or a 422 with quota words is a limit; else a success code with a final status resolves; else it is an error. |
| `GoCometAnswers.OneOutcomePerReply` | app/providers/gocomet_http.py:267-278 | A reply calls for one outcome only, so each comes from exactly those replies. |
| `GoCometAnswers.NapsBetweenRounds` | app/providers/gocomet_http.py:264-282 | After a network error the slow interval but at most 5 seconds, else the fast interval while the tally is within the fast window and the slow one after it. |
| `GoCometLookup.LookupStaysWithinBudget` | app/providers/gocomet_http.py:323-443 | For every sequence of answers: rotations at most max_rotations, waiting at most max_wait_total_s with every nap non-negative, creates at most max_rotations + 1, polls at most max_rotations + 2, and an end after 2 * max_rotations + 3 calls. |
| `GoCometLookup.StepMakesOneCall` | app/providers/gocomet_http.py:361-443 | Every turn makes exactly one create or one poll. |
| `GoCometLookup.IdsAreReportedBeforePolled` | app/providers/gocomet_http.py:395-417 | Every polled id is the resumed one or went through on_created before its first poll. |
| `GoCometLookup.RateLimitedPollKeepsItsId` | app/providers/gocomet_http.py:419-427 | A rate limit while polling a fresh id polls the same id again or gives up; it never creates. |
| `GoCometAnswers.CreateAnswersItsReply` | app/providers/gocomet_http.py:222-238 | Without a carrier, given or suggested, nothing is sent; else each kind of answer comes from exactly the replies whose code, text and body call for it. |
| `GoCometAnswers.StartsByResuming` | app/providers/gocomet_http.py:337-358 | A lookup starts by polling a stored non-empty id, else by creating. |
| `GoCometAnswers.StepFollows` | app/providers/gocomet_http.py:337-443 | Every answer in every phase: how the lookup ends, or where it goes on, after which rotation and nap, and at what cost; told on the fields of the answer. |
| `GoCometAnswers.EndsOrGoesOn` | app/providers/gocomet_http.py:337-443 | An answer either ends a lookup in one way or lets it go on. |
| `GoCometAnswers.LookupEndsWithItsLastAnswer` | app/providers/gocomet_http.py:446-457 | However it got there: a final body is answered with its own id field if present, else the id polled; a timed-out poll answers its id as not found; a 404 on a fresh id or a limit ends it only when rotations or waiting are used up. |
| `GoCometAnswers.FoundIffDataAtLast` | app/providers/gocomet_http.py:535-544 | A lookup finds something exactly when its last answer is a final body whose lower-cased status is none of the four misses and whose operational status is not marked_invalid. |
| `GoCometAnswers.HeardIsAnswered` | app/providers/gocomet_http.py:415-443 | The answer a lookup hears from a poll is the one that poll's replies call for. |
| `GoCometLookup.LookupIsDetermined` | app/providers/gocomet_http.py:287-443 | Replies and clock leave a lookup one course and one ending, so what the client is proved to do is all it can do. |
| `GoCometLookup.StepPersists` | app/services/container_service.py:394-416 | The row's id changes exactly when a create returns an id, to that id, and each such create counts once. |
| `ResumeProtocol.LookupBalances` | app/providers/gocomet_http.py:337-443 | The exact account of one lookup at any point: creates paid for + a lost id not yet replaced + an id missing now = an id missing at the start + the ids lost. |
| `ResumeProtocol.LookupStoresItsAnswer` | app/providers/gocomet_http.py:395-413 | An answer that carries an id finds one in the row already, stored by the callback or before. |
| `ResumeProtocol.StoredAfterAnAttempt` | app/services/container_service.py:470-477 | After an attempt the row has the id of a found answer that was stored, else the last id reported, else what it had. |
| `ResumeProtocol.CreatesAreAccountedFor` | app/services/container_service.py:462-477 | The exact account of any history of attempts, each cut short anywhere: creates that returned an id + lost ids never replaced + an id missing at the end = 1 + 404s on stored or fresh ids and rate-limited resume polls + stored ids erased by empty ones. |
| `ResumeProtocol.PlainBoundIff` | app/services/container_service.py:462-477 | So creates number at most 1 + the ids lost exactly when the erased ids are no more than the lost ids never replaced, plus one if none is stored at the end. |
| `ResumeProtocol.CreatesArePaidForByLosses` | app/services/container_service.py:462-477 | And in every history at most 1 + the ids lost + the found answers echoing an empty id. |
| `ResumeProtocol.EveryLossCanCostACreate` | app/providers/gocomet_http.py:337-356 | The bound is met: for any sequence of 404s on resumed ids, rate-limited resume polls and empty echoed ids there is a history that pays for one create each. |
| `ResumeProtocol.EmptyIdsBreakThePlainBound` | app/services/container_service.py:476-477 | Without the term for empty ids the bound is false: a history with two creates and no id lost. |
| `CreditHistories.RunKeepsBalance` | app/repositories/usage.py:53-81 | The audit of every organization holds after every interleaving of openings, deductions, ledger writes, purchases and resets. |
| `CreditHistories.CreditsAreConserved` | app/services/usage_service.py:72-84 | In every interleaving credits never go negative, and credits left + ledger charges since the last reset + deductions not yet recorded = that allotment + top-ups since + exactly the charges straddling the reset. |
| `CreditHistories.StraddlingIsWhatResetCaught` | app/services/usage_service.py:72-84 | What straddles the last reset is, in every run and whatever is written since, what the organization had in flight at that reset. |
| `CreditHistories.PlainIdentityIffNothingStraddles` | app/services/usage_service.py:72-84 | Without that last term the identity holds exactly when the organization had no credits between their two commits at its last reset. |
| `CreditHistories.AChargeCanStraddleAReset` | app/repositories/usage.py:40-81 | A run in which it fails: a reset between the two commits of a charge, as a second API process can bring about. |
| `CreditHistories.WholeRuns` | app/services/usage_service.py:61-84 | When each deduction is directly followed by its ledger line, as in one API process, the two-commit form leaves the same books as charging in one step, and every reset is quiet. |
| `CreditHistories.OneProcessConservesCredits` | app/services/usage_service.py:61-84 | There the plain identity holds in every run: credits left + ledger charges since the last reset = that allotment + top-ups since. |
| `CreditHistories.QuietResetsNeverStraddle` | app/repositories/usage.py:40-51 | If every reset finds none of the organization's charges between their two commits, nothing ever straddles. |
| `CreditHistories.IncludedIsTheAllotment` | app/repositories/usage.py:40-81 | In every interleaving the included credits are those of the opening or of the last reset, whatever is charged or bought. |
| `LifecycleProperties.PendingRowIsLeftAlone` | app/services/container_service.py:194-236 | On a pending row track, get and refresh change nothing at all. |
| `LifecycleAnswers.TrackAnswers` | app/services/container_service.py:113-154 | One credit and one lookup, on a row IN_PROGRESS as of now, exactly for an unknown container or one that is free and not polled within the cache time, given a credit; else nothing changes. |
| `LifecycleAnswers.GetAnswers` | app/services/container_service.py:167-189 | The same for a read of a known container. |
| `LifecycleAnswers.RefreshAnswers` | app/services/container_service.py:309-333 | One credit and one job to enqueue, on a row QUEUED without a message, exactly for an active row that is free, given a credit. |
| `LifecycleAnswers.BulkAnswers` | app/services/container_service.py:268-294 | The same for any row at all, given a credit. |
| `LifecycleAnswers.PickUpAnswers` | app/services/container_service.py:374-392 | A job of an active container becomes a lookup on a row IN_PROGRESS as of now; any other is dropped. |
| `LifecycleAnswers.EndOfALookupSettlesTheRow` | app/services/container_service.py:462-512 | The end of a lookup leaves exactly the fields that data, a miss or a failure call for, and webhooks to send only for data. |
| `LifecycleAnswers.ReportedIdIsStored` | app/services/container_service.py:394-416 | During a lookup a reported id is in the row at once and nothing else changes. |
| `LifecycleAnswers.StoppedMeansStopped` | app/services/container_service.py:531-537 | A stopped container keeps its row, takes no refresh, and its jobs come to nothing. |
| `LifecycleAnswers.WebhooksEnd` | app/services/container_service.py:433-460 | A scrape cancelled in its webhooks fails its row; one that gets through leaves it. |
| `LifecycleAnswers.ClockAndSweep` | app/workers/tasks/scrape.py:75-86 | The sweep fails exactly a row that has waited past the threshold, with its own message. |
| `LifecycleAnswers.EveryJobIsAccountedFor` | app/services/container_service.py:336-392 | Over any run: jobs scheduled = on their way + taken by the queue + refused; taken = waiting + become scrapes + dropped; scrapes = under way + ended; and the same for lookups of the API. |
| `LifecycleAnswers.NoJobIsDroppedWhileActive` | app/services/container_service.py:374-377 | As long as nobody stops the container every job taken waits or became a scrape. |
| `LifecycleProperties.NoSecondChargeWhilePending` | app/services/container_service.py:113-192 | In every interleaving with worker, sweep, clock and other spending, while the row stays pending nothing is charged for it, no lookup starts and no job is scheduled. |
| `LifecycleProperties.EveryChargeBuysOneScrape` | app/services/container_service.py:360-392 | In every interleaving, stuck rows and bulk submissions included: credits charged for the container = lookups the API started + jobs it scheduled. Worker and sweep charge nothing. |
| `LifecycleProperties.BackgroundLeavesTheBooks` | app/services/container_service.py:360-392 | Worker, sweep, clock and the ends of lookups leave balances and ledger unchanged. |
| `LifecycleProperties.StepKeepsExclusiveIff` | app/services/container_service.py:194-236 | From a state with at most one scrape, on a row shown as waiting, a step leads out of it exactly when it meets an owner and is: a track or get that needs a lookup, a refresh of a stuck active row, or a bulk submission, with a credit to spend; a sweep of a stuck row; or a scrape cancelled in its webhooks. |
| `LifecycleProperties.AtMostOneScrape` | app/services/container_service.py:194-236 | Over any run: there is never more than one scrape queued or under way, on a row shown as waiting, if and only if no step is of that kind. |
| `LifecycleProperties.AStuckLookupIsDoubled` | app/services/container_service.py:195-211 | Why the threshold matters: a lookup past it is still running when a second one is charged and started. |
| `LifecycleProperties.ACancelledNotificationFreesAnOwnedRow` | app/services/container_service.py:433-460 | Why cancellation matters: one that hits a scrape in its webhooks overwrites a row the next scrape already owns, which then is charged for again. |
| `ScrapeSession.CommittedIsAllOrNothing` | app/services/container_service.py:430-529 | At every point of a scrape the committed row is the old one but for reported ids, or what the result makes of it; the first delivery commits the row along, and none is stored before. |
| `ScrapeSession.EveryScrapeEndsInAFinalStatus` | app/services/container_service.py:430-460 | Without a fault the committed row has exactly the fields the outcome calls for. Wherever a fault or cancellation strikes (lookup, apply, flush, any delivery, last commit) it is failed with its message; before the first commit of the result status text, location, events and poll time are kept and nobody is notified, after it the merged data are kept. |
| `LifecycleProperties.StatusAlwaysFitsMessage` | app/services/container_service.py:479-512 | In every reachable state: queued or completed has no message, no_data or failed has one, completed or no_data has a poll time. |
| `LifecycleProperties.AlwaysClocked` | app/repositories/containers.py:122-153 | In every reachable state a waiting row was touched no earlier than the stuck threshold before the last sweep. |
| `LifecycleProperties.WaitingTimeIsBounded` | app/workers/tasks/scrape.py:50-86 | With sweeps at most p apart no row has been waiting untouched for longer than threshold + p, for any threshold: 780 seconds by default. |
| `LifecycleProperties.SweepAndRefreshAgree` | app/services/container_service.py:213-219 | What the sweep would fail is what a refresh of an active row accepts, swept or not, given a credit; on a waiting row the sweep leaves, a refresh does nothing. |
| `BulkQueue.Unique` | app/services/container_service.py:263 | The distinct numbers and no others. |
| `BulkQueue.UniqueKeepsFirstSeenOrder` | app/services/container_service.py:263 | Each number once; the distinct numbers of any prefix come first. |
| `BulkQueue.SpellingDoesNotMatter` | app/services/container_service.py:263 | Padding and letter case do not make another number; a number has neither padding nor small letters. |
| `BulkQueue.AFaultStaysItsOwn` | app/services/container_service.py:288-292 | A fault in storing one number costs its credit; it is not accepted, so it gets no row and no job. |
| `BulkQueue.WithOnlyTheQuotaToFail` | app/services/container_service.py:263-297 | With only the quota to fail on and the queue up: exactly the first min(balance, distinct) numbers are accepted, get a queued row and one job each, and no other number gets a row or changes one. |
| `BulkQueue.FirstOnesAreAccepted` | app/services/container_service.py:267-294 | The accepted numbers are the affordable prefix. |
| `BulkQueue.BooksAfter` | app/services/usage_service.py:72-84 | After any number of items: the balance is lowered by as many as it affords, with one ledger line each, and no other balance changes. |
| `BulkQueue.ItemsAfter` | app/services/container_service.py:267-294 | Each item's verdict is decided by the balance before the batch, and the accepted ones are queued in order. |
| `BulkQueue.OnlyAcceptedRowsChange` | app/services/container_service.py:278-283 | Rows appear or change for accepted numbers only; those are queued without a message and keep their data. |
| `BulkQueue.OneJobEach` | app/services/container_service.py:349-353 | With the queue up, one job per accepted number, in order. |
| `SessionPool.AcquireKeepsSound` | app/providers/gocomet_pool.py:88-99 | Acquiring, from the queue or by a fallback build, keeps the pool sound and never hands out a discarded tracker. |
| `SessionPool.QueueIsFirstInFirstOut` | app/providers/gocomet_pool.py:60-114 | The oldest queued tracker is handed out first and only a drained queue costs a build on the spot; what is given back or built goes to the end; what is discarded never does. |
| `SessionPool.PoolStaysSound` | app/providers/gocomet_pool.py:60-114 | For any interleaving of any holders: no tracker has two holders or is both queued and held, a discarded one is never queued or held again, and queued + held + being built = initial fills + fallback builds. |
| `FanOut.EveryRunIsGood` | app/services/bulk_tracking_service.py:106-186 | In every interleaving: what is queued is the rest of the list; every busy worker is at a number of the list under its own index; the log of attempts has no index twice and each at its own number; a slot is filled exactly when its index was attempted; workers hold a tracker exactly while they work; the pool is sound. |
| `FanOut.EveryRunEnds` | app/services/bulk_tracking_service.py:210-223 | Worker steps number at most 2 * numbers + 2 * workers, and reach that exactly when all workers have finished. |
| `FanOut.NoRunGetsStuck` | app/services/bulk_tracking_service.py:119-123 | While a worker has not finished, some worker can take a step. |
| `FanOut.FinishedRunIsComplete` | app/services/bulk_tracking_service.py:117-186 | When all have finished: for every i exactly one attempt was made for slot i, it was made at numbers[i], and results[i] reports it, whichever worker made it; no worker holds a tracker. |
| `FanOut.AttemptsAreFinal` | app/services/bulk_tracking_service.py:180 | The log of attempts only grows and a filled slot never changes. |
| `FanOut.SlotsSayWhatHappened` | app/services/bulk_tracking_service.py:149-180 | A slot holds the tracker's own result, or the number with status error, not found, and the message. |
| `FanOut.SuccessIffDataCameBack` | app/services/bulk_tracking_service.py:226-235 | A slot counts as a success exactly when its attempt came back with data not marked an error. |
| `FanOut.FailedTrackerIsOut` | app/services/bulk_tracking_service.py:137-146 | After a failed attempt the tracker is discarded and the worker has another one; after any other it keeps its own. |
| `FanOut.IdleWorkerTakesOrLeaves` | app/services/bulk_tracking_service.py:119-123 | An idle worker takes the front of the queue, or hands its tracker back and is done when there is nothing left. |
| `FanOut.WorkersFitTheWork` | app/services/bulk_tracking_service.py:211 | Between one and the smaller of batch size and numbers, which it reaches. |
| `Webhooks.TotalBackoffClosedForm` | app/workers/tasks/webhook_delivery.py:30-31 | The summed delay of n retries is 30 * (2^n - 1) for n up to 5 and 930 + 600 * (n - 5) beyond. |
| `Webhooks.ChainIsWellRun` | app/workers/tasks/webhook_delivery.py:34-93 | Along one delivery's jobs: attempts within webhook_max_attempts (one is always made), posts within attempts, delays as scheduled, at most one job, none once final; with the queue up, one exactly while pending or failed. |
| `Webhooks.ChainEnds` | app/workers/tasks/webhook_delivery.py:73-93 | As many jobs as attempts are allowed settle any delivery. |
| `Webhooks.ChainDelayIsBounded` | app/workers/tasks/webhook_delivery.py:82-93 | All the waiting of one delivery is bounded by the retries allowed: 930 seconds at the default of six attempts. |
| `Webhooks.JobAttempts` | app/workers/tasks/webhook_delivery.py:34-93 | One job: recorded once with its code; a success for a response in the 200s; exhausted when the endpoint is gone or the attempts have reached the maximum; else failed, due after the backoff, with a job when the queue is up. |
| `Webhooks.LastAttemptDecides` | app/workers/tasks/webhook_delivery.py:68-93 | Along every chain: success exactly if the last attempt was answered in the 200s, exhausted exactly if it was not and found the endpoint gone or was the last allowed, else due again; every attempt with an endpoint posted once. |
| `Webhooks.RebuffedIsRetried` | app/workers/tasks/webhook_delivery.py:73-93 | Under unsuccessful replies only, with the queue up: after n jobs exactly min(n, allowed) posts, with all the backoffs in between, a job until then, and exhausted exactly at the last. |
| `Webhooks.BeginsPending` | app/repositories/webhooks.py:49-61 | A delivery begins pending and untried, with a job if the queue takes one. |
| `Webhooks.ListenersAreTheSubscribers` | app/repositories/webhooks.py:29-35 | An event goes to exactly the active endpoints of the organization that asked for it, each once, in order. |
| `Billing.RunKeepsSameMoney` | app/services/billing_service.py:387-457 | Two states that agree on books, plans and subscription ids stay so under any events, whatever customers and statuses they store. |
| `Billing.UpsertAnswers` | app/services/billing_service.py:387-419 | An unknown price or status changes nothing; else the row has the plan, id, customer and status of the object, the credits are the plan's exactly if the organization was not on it, and nobody else is touched. |
| `Billing.InvoiceAnswers` | app/services/billing_service.py:421-457 | The one organization with that subscription gets its plan's credits; no id or no match is no error, several are. |
| `Billing.PurchaseAnswers` | app/services/billing_service.py:320-327 | A purchase stacks on what is left and leaves the included credits alone. |
| `Billing.RedeliveryIsInvisible` | app/services/billing_service.py:398-417 | Deleting a redelivered subscription event (same subscription, plan already on) from any trace changes no balance, ledger line, plan or subscription id at its end. |
| `Billing.OnlyRedeliveryIsInvisible` | app/services/billing_service.py:398-417 | Exactly such events, and those refused for their price or status, are without effect. |
| `Billing.RedeliveryAfterACrash` | app/services/billing_service.py:398-417 | After a crash between the two commits of an upsert and any events in between, redelivery leaves the books alone exactly when the organization is still on that plan by then or has its allotment anyway. |
| `Billing.OnlyAnotherPlanRepairsACrash` | app/services/billing_service.py:398-417 | As long as no event moves the organization to another plan, redelivery never grants the credits, whatever else comes in between. |
| `Billing.AnotherPlanCanRepairACrash` | app/services/billing_service.py:398-417 | A run in which it does: after a move to another plan, redelivery resets the credits. |
| `Billing.CreatedThenInvoiced` | app/services/billing_service.py:421-457 | A subscription's created and then invoice.paid event always end at the plan's allotment. |
| `Billing.InvoicedThenCreated` | app/services/billing_service.py:444-453 | In the other order they end there exactly when the organization was not already on that plan through another subscription, or had the allotment before. |
| `Billing.AReturningCustomerCanMissTheRefill` | app/services/billing_service.py:444-453 | A run in which they do not: a cancelled customer comes back to the same plan and keeps a balance of 0. |
| `EventMerge.TrackedContainer.Unrecorded` | app/repositories/containers.py:178-210 | The loop over incoming events adds exactly the ones whose key is neither stored nor seen earlier in the batch, in order. |
| `EventMerge.TrackedContainer.ApplyProviderResult` | app/repositories/containers.py:155-230 | The six modelled fields end as the merge of the old row and the result; stored events stay in place and what is returned is what was appended. |
| `GoCometTracker.Tracker.Poll` | app/providers/gocomet_http.py:241-284 | The loop terminates with the outcome its replies call for, all earlier rounds pending, within MaxGets requests, and its `elapsed` is within real time. |
| `GoCometTracker.Tracker.Track` | app/providers/gocomet_http.py:287-443 | Resume first, then create as long as there is no id and poll the one there is: the loop terminates, answers what the last answer heard calls for, does what the machine does on all of them, keeps the budgets above, reports every new id before polling it, and leaves the last reported one in the row. |
| `GoCometTracker.Tracker.Ask` | app/providers/gocomet_http.py:417 | A poll as a lookup hears it. |
| `GoCometTracker.Tracker.CreateTurn` | app/providers/gocomet_http.py:361-413 | One create of that loop keeps it on the machine's course, and an id to be polled next is in the row. |
| `GoCometTracker.Tracker.PollTurn` | app/providers/gocomet_http.py:415-443 | One poll, of the resumed id or of a new one, which it requires to be in the row, likewise. |
| `GoCometTracker.Lookup.RotateOrGiveUp` | app/providers/gocomet_http.py:371-379 | Gives up once rotations or waiting are used up, else burns a rotation, perhaps with a new session and a nap cut to what is left of the waiting. |
| `GoCometTracker.Lookup.HearResume` | app/providers/gocomet_http.py:337-356 | Each way the resumed poll can end leads to the state the machine prescribes. |
| `GoCometTracker.Lookup.HearCreate` | app/providers/gocomet_http.py:361-413 | Each reply to a create likewise; an id it carries goes into the row through the callback, and before it is polled. |
| `GoCometTracker.Lookup.HearPoll` | app/providers/gocomet_http.py:415-443 | Each way a poll of a fresh id can end likewise. |
| `ResumeProtocol.Refresh` | app/services/container_service.py:462-477 | A whole attempt: resume the stored id, every new id stored as it is reported, then the id of the registry's result if it carries one. |
| `Credits.UsageStore.GetOrCreateBalance` | app/repositories/usage.py:26-38 | Leaves an existing balance alone, else stores one of the default amount. |
| `Credits.UsageStore.SetPlanAllotment` | app/repositories/usage.py:40-51 | Remaining and included credits both become the allotment; no other balance and no ledger line changes. |
| `Credits.UsageStore.TryDeductCredits` | app/repositories/usage.py:69-81 | Deducts and says so exactly when the balance covers the amount; otherwise nothing changes. |
| `Credits.UsageStore.AddCredits` | app/services/usage_service.py:92-98 | Adds to the balance, creating an empty one first if needed. |
| `Credits.UsageStore.RecordEvent` | app/repositories/usage.py:83-105 | Appends one line and nothing else. |
| `Credits.UsageStore.ChargeCredits` | app/services/usage_service.py:61-84 | Deducts and records, or refuses and records nothing. |
| `Lifecycle.ContainerService.BeginLookup` | app/services/container_service.py:150-152 | Commits IN_PROGRESS, keeping the old message, and starts one lookup. |
| `Lifecycle.ContainerService.Track` | app/services/container_service.py:113-154 | Serves a fresh or pending row; else charges and starts one lookup; a refused charge leaves no new row behind. |
| `Lifecycle.ContainerService.GetOrRefresh` | app/services/container_service.py:167-189 | The same for a read, an unknown number being not found. |
| `Lifecycle.ContainerService.RequestRefresh` | app/services/container_service.py:309-334 | An inactive or unknown container is not found, a pending one is served, else one charge and one scheduled job. |
| `Lifecycle.ContainerService.EnqueueScrape` | app/services/container_service.py:336-358 | A queue that is down loses the job but nothing else. |
| `Lifecycle.ContainerService.ProcessQueuedScrape` | app/services/container_service.py:374-392 | A job of a stopped container is dropped; else the row is IN_PROGRESS and one worker lookup starts; nothing is charged. |
| `Lifecycle.ContainerService.PersistTrackingIdEarly` | app/services/container_service.py:394-416 | During a lookup only the tracking id (and the time of the update) changes. |
| `Lifecycle.ContainerService.FinishLookup` | app/services/container_service.py:418-529 | What the end of a scrape leaves for everyone else: data, a miss or a failure, and webhooks still to send. That the call's commits come to this is shown in ScrapeSession. |
| `Lifecycle.SweepStuckScrapes` | app/workers/tasks/scrape.py:75-86 | Exactly the waiting rows past the threshold become failed; none past it is left waiting; all others stay. |
| `ScrapeSession.Scraper.RefreshAndApplySafely` | app/services/container_service.py:418-460 | The call itself, rollback, re-fetch and second commit included, ends in exactly that session state and raises exactly if something struck. |
| `ScrapeSession.Scraper.RefreshAndApply` | app/services/container_service.py:462-529 | The try block performs its calls in order and stops at the fault, leaving uncommitted what was uncommitted. |
| `ScrapeSession.Scraper.Notify` | app/services/webhook_service.py:58-79 | Each listener's delivery is stored by a commit that takes the row along, in order, up to the fault. |
| `BulkQueue.Submissions.QueueOne` | app/services/container_service.py:268-292 | One item: charged then stored; a refused charge stores nothing, a storage failure keeps the charge. |
| `BulkQueue.Submissions.QueueBulk` | app/services/container_service.py:246-297 | The whole call: one entry per distinct number with its verdict, the balance lowered by min(balance, distinct), one ledger line each, rows and jobs of the accepted ones. |
| `BulkQueue.Submissions.EnqueueScrapes` | app/services/container_service.py:336-358 | A job for every row the queue takes, in order. |
| `SessionPool.GoCometSessionPool.StartFilling` | app/providers/gocomet_pool.py:79-86 | Submits target_size builds. |
| `SessionPool.GoCometSessionPool.Build` | app/providers/gocomet_pool.py:60-66 | One submitted build puts one new tracker at the end of the queue. |
| `SessionPool.GoCometSessionPool.Take` | app/providers/gocomet_pool.py:88-99 | The oldest queued tracker, or a new one when there is none. |
| `SessionPool.GoCometSessionPool.GiveBack` | app/providers/gocomet_pool.py:101-104 | The tracker goes to the end of the queue and is no longer held. |
| `SessionPool.GoCometSessionPool.Drop` | app/providers/gocomet_pool.py:106-114 | The tracker is gone and a build replaces it. |
| `FanOut.Summarize` | app/services/bulk_tracking_service.py:232-236 | success_count is the number of slots that found data without an error; success_count + error_count = total. |
| `Webhooks.WebhookService.Trigger` | app/services/webhook_service.py:58-79 | One pending delivery per listener, with a job where the queue takes it; earlier deliveries are untouched. |
| `Webhooks.WebhookService.DeliverWebhook` | app/workers/tasks/webhook_delivery.py:34-93 | One job changes its own delivery as the chain prescribes and no other. |
| `Billing.BillingService.UpsertSubscription` | app/services/billing_service.py:387-419 | An unknown price or status changes nothing; else the row mirrors the object, and credits are reset exactly when the plan changes. |
| `Billing.BillingService.RefillCreditsForInvoice` | app/services/billing_service.py:421-457 | Resets the credits of the one organization with that subscription; none is no error, several are. |
| `Billing.BillingService.ApplyCreditPurchase` | app/services/billing_service.py:320-327 | Tops up, and changes nothing else. |

## Left out

- Lifecycle.ContainerService.PersistTrackingIdEarly: the ORM sends only attributes whose value changed, so storing the id or status a row already has would not touch `updated_at`; the model always does, and an attempt's stale in-memory fields never overwrite another session's commit.
- Lifecycle.ContainerService.Track: await-free stretches of one API process are atomic with respect to each other and, here, also to the worker's steps; several API processes take no lock and are not modelled.
- ScrapeSession.EveryScrapeEndsInAFinalStatus: a fault in the recovery itself (its re-fetch or its commit) leaves the row as the process found it, which is for the sweep to correct; a row deleted meanwhile is not recovered, and another session's writes to it during the scrape, other than reported ids, are in Lifecycle only.
- LifecycleProperties.WaitingTimeIsBounded: the threshold and the cache lifetime are any durations that are not negative, the same throughout a run.
- LifecycleProperties.NoSecondChargeWhilePending: bulk submission is excluded, since `queue_bulk` does not look at what is pending.
- ResumeProtocol.CreatesArePaidForByLosses: attempts do not overlap, the thread that `wait_for` leaves running after a timeout is not modelled, and a crash between a create's response and the commit in its callback is not either.
- ResumeProtocol.Refresh: providers after or before the create-then-poll client appear only as attempts without calls to it, and a callback that cannot reach the database is not modelled.
- ResumeProtocol.EveryLossCanCostACreate: rate limits are included only if the client may rotate at all; one that may not gives up instead of creating.
- EventMerge.TrackedContainer.ApplyProviderResult: `raw_data` and event descriptions, which nothing else depends on, and the parsing of provider payloads into events.
- MergeProperties.HistoryKeepsExactlyTheKeysSeen: a re-read reorders events of different instants and returns stamps as stored; that a zone lost on the way makes no difference is shown for one merge (MergeAnswers.LosingTheZoneChangesNothing).
- Text.Strip: only the blank, tab, line feed and carriage return count as white space and only ASCII letters change case.
- GoCometTracker.Tracker.Poll: times are real numbers, with any delay between iterations part of a nap's overrun; a configuration with a zero or negative interval, for which the bound does not exist, is excluded.
- GoCometTracker.Tracker.Track: the timings reported with a result, session and proxy details, and the flattening of the payload beyond id and found flag.
- Credits.UsageStore.ChargeCredits: the wording of the quota error; a database error between the two commits leaves the deduction in flight for good (in CreditHistories; OneProcessConservesCredits excludes it).
- CreditHistories.CreditsAreConserved: amounts deducted, bought and included are not negative.
- BulkQueue.Submissions.QueueBulk: a storage fault is one that strikes after the charge, and no other spender comes in between.
- SessionPool.PoolStaysSound: building a tracker never fails, and holders give back only what they hold; cancellation of a worker is not modelled.
- FanOut.EveryRunEnds: no cancellation of workers, and every attempt ends, as its timeout promises.
- FanOut.FinishedRunIsComplete: durations, throughput and the payload of a report beyond number, status, found flag and message.
- Webhooks.WebhookService.DeliverWebhook: one clock reading per job, response bodies and request signatures; a job whose retry cannot be queued leaves its delivery failed for good. A worker cancelled between the post and the record of the attempt, which the code does not catch, is not modelled: its post has no attempt.
- Billing.BillingService.UpsertSubscription: plans and their credits do not change during a run and a price stands for one plan; events without an organization are ignored before they get here, and signatures are not modelled.
- Billing.BillingService.ApplyCreditPurchase: redelivered purchases add again, in the code as in the model; nothing is claimed about them.
- The cache of the bulk route (app/repositories/container_cache.py), the other clients' retry loops and the hedged race of app/providers/registry.py: the first adds only a time comparison, and the default registry does not use the race.
- Browser scraping, HTTP, proxies, the payment provider's checkout, accounts, keys, e-mail, routers, schemas and migrations: foreign calls or one-branch code.
