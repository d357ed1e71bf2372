# Verified model of the event booking system

This project models the seat-booking backend of an event platform and proves what its parts
keep together: no seat is sold twice, nobody is charged twice, seat inventory survives edits,
every view of availability agrees, background jobs end where they should, and the assistant
executes nothing a human did not click.

## What is modelled

**The engine** (`Rows`, `Engine`). The tables for bookings, booking-seat claims, payments, seats
and events are one state; every function of `Engine` is one committed database step. A booking
creation is split where other transactions can get in: locks and availability read
(`BeginCreate`), insert and commit or integrity error (`FinishCreate`), and the lookup in the
error handler (`LookupExisting`). An event edit is split the same way (`BeginEdit`,
`FinishEdit`). Cancelling is split into the unlocked read of the booking and the write that
trusts it. A *run* is any sequence of enabled actions from an empty database, with a clock that
rises strictly from one transaction to the next. Row locks are the `creates` and `edits` tables:
an action that needs a locked seat is not enabled.

**The invariant** (`Invariant`, `Preservation`) and **what follows over runs** (`Safety`,
`Inventory`, `Availability`, `CacheModel`, `LiveSeatMap`).

**What each operation comes to** (`Replies`, `Outcomes`, `EditOutcomes`, `JobOutcomes`,
`GraphOutcomes`, `ChunkForms`). For every step of every run these say what is answered and what
the rows are afterwards, in statuses, counts, deadlines and keys, without the functions that
compute it; `SeatLayout` reads labels back, and `ChunkForms` describes chunks by the paragraphs
an author wrote. `NoDeadlock` shows that every call can be served.

**The background** (`Jobs`, `ExpiryJobs`, `JobRetries`, `ConfirmationJobs`). Jobs, broker
messages delivered any number of times but never early, live workers, crashes, requeues, stuck
resets and manual retries run on top of the engine. `JobRecovery` shows that none of these loses a job.

**The assistant** (`Graphs`, `Assistant`, `DraftDesk`, `DraftSeats`, `ClickBooks`, `BookingTool`,
`CancelDesk`, `RetryDesk`). `Graphs` interprets the three pausing graphs node by node: a plain
invoke restarts a thread at its entry, a resume runs on from its stored checkpoint, and the
nodes that act take engine steps. In `Assistant` every tool call is an invoke and every click a
resume, any number of invocations run at once beside all other traffic, and one may die
anywhere. The desks describe the marker row of each user and are about every sequence of
stagings, clicks, reads and clean-ups, with a click taken as one step.

**Two algorithms** (`SeatLayout`, `Chunking`): seat labels and layouts, and document chunking.

**The code in its own form** (`Database`, `CacheStore`, `SeatChannel`, `JobRunner`, and the
classes in the desk modules). The services' methods are methods of classes over mutable tables,
each proved to take exactly the step its model function describes. `Database.Tables.Execute`
and `JobRunner.WorkflowTables.Execute` show that together they are the engine and the job system
of the theorems. Operations of the engine that other
transactions can split are functions on states as well, so that lemmas can speak about runs.

**Promises that are false of the code**, each with a run or the exact condition:

- `events/services.py:386-389` promises that a seat listed as available is never rejected when
  booked. `LapsedHold.AvailableSeatRefused` is a run where it is; `Safety.RefusedExactlyFor`
  says exactly when.
- `bookings/models.py:50-52` and `bookings/services.py:422` call a confirmed booking permanent and its
  deadline meaningless. `ConfirmedLost.ConfirmedBookingExpires` is a run in which it expires;
  `Safety.ConfirmedKeptIff` says exactly when a payment call takes it away, and
  `Outcomes.ConfirmedEndsIff` that nothing else does but a cancellation.
- `workflows/services.py:55-60` calls double processing after a stuck reset harmless.
  `SlowWorker.SlowWorkerUndoes` is a run where it puts a completed job back in the queue;
  `JobRetries.CompletedUndoneIff` gives the exact steps.
- Releasing broadcasts "available" for every row a booking ever had. `LateRetry.LateRetryMisleads`
  is a run where that is wrong; `LiveSeatMap.AnnouncedReleaseIff` says exactly when it is right.
- `workflows/tasks.py:402-409` says the worst case of a failing flag write is a stale flag, never a
  duplicate send. `TwoMails.MailedTwice` is a run with two mails; `ConfirmationJobs.MailsAgainIff`
  says exactly when a claim mails again.
- `workflows/views.py:122-127` promises that a manual retry lets the worker attempt the job again.
  `RetryRace.RetryIsLost` is a run where nothing does, as a worker the retry has overtaken
  completes the job with what it did before; `JobOutcomes.CompletedSinceRetry` and
  `RetryRace.OvertakenRetryIsLost` say when it can, exactly.
- `ai_assistant/actions/booking_actions.py:135-136` promises that cancelling only discards an
  unconfirmed draft. A resumed graph runs the node it was stopped in again, so
  `ClickBooks.DiscardingBooks` is a run in which that click books the draft;
  `DraftDesk.DiscardRunsConfirmIff` says exactly when it can.

Some checks of the code never decide anything: the duplicate-seat error of `create_booking`
(`Preservation.DistinctOnceCounted`), the confirmed-seat test of `Event.clean`
(`Inventory.EarlyCheckAgrees`) and the guard against a second confirmation job
(`ConfirmationJobs.GuardNeverFires`). And a document's last window may only repeat the end of the
one before it (`Chunking.LastWindowRedundantIff`).

Times are integers in microseconds, money is an integer, identifiers are natural numbers. The
payment outcome, a worker's failure or death, the mail server's answer and the status a graph
reads back are inputs, so every theorem holds for all of them.

## Model

| member | source | states |
|---|---|---|
| `Preservation.StepKeepsInv` | bookings/models.py:114-161 | every committed step of every service keeps the full invariant: foreign keys, one active claim per seat, flags in step with statuses, unique keys, payment bookkeeping, exact seat numbers, and what transactions in flight rely on |
| `Preservation.RunKeepsInv` | bookings/services.py:144-292 | the invariant holds in every state of every interleaving |
| `Preservation.CleanReadLeavesOnlyLapsed` | bookings/services.py:192-233 | after an availability read that found nothing taken, an active claim on the read seats belongs to an open booking whose hold is over |
| `Preservation.DistinctOnceCounted` | bookings/services.py:165-170 | when as many seat rows are found as ids were given, the ids are distinct, so the duplicate error is unreachable |
| `Preservation.CommitCreateInserts` | bookings/services.py:213-233 | an allowed commit adds one pending booking with the request's user, event and key, its price times the seats, and the deadline a hold away, and one active claim per requested seat, and nothing else changes |
| `Preservation.CommitCreateRefused` | bookings/services.py:286-292 | a refused commit leaves every row as it was and holds no locks |
| `Invariant.LapsedStaysLapsed` | payments/services.py:67-83 | while a creation is open, paying, sweeping or cancelling any booking cannot revive a hold the creation saw as over |
| `Invariant.RowChangeKeepsInv` | bookings/models.py:59-84 | any legal change of one booking row with its release keeps the invariant, including a cancellation decided on a stale read |
| `Preservation.PayRowsLegal` | payments/services.py:67-194 | whatever branch a payment call takes, the booking and payment rows end in a legal combination and a dead booking is not revived |
| `Safety.NoDoubleBooking` | bookings/models.py:157-161 | in every run a claim is active exactly while its booking is pending, failed or confirmed, a seat has at most one active claim, and no two confirmed bookings share a seat |
| `Safety.HoldTestRefinesClaims` | bookings/services.py:65-81 | at any instant a seat the time test calls taken has exactly one active claim, and an active claim not counted as taken is a lapsed unswept hold |
| `Safety.RefusedExactlyFor` | bookings/services.py:192-292 | after a clean read, whatever ran in between, the insert is refused if and only if the key is missing, the key is a duplicate, or such a lapsed hold is on the seats |
| `LapsedHold.AvailableSeatRefused` | events/services.py:383-404 | a concrete run in which a seat reads as available, the key is new, and the insert is refused |
| `Safety.OneKeyOneBooking` | bookings/services.py:184-321 | for any interleaving of requests with one user and key, over any seats, every call that returns a booking returns the same one, by the fast path, the locked check, the insert or the error handler |
| `Safety.BookingTerms` | bookings/services.py:213-233 | from creation on a booking keeps owner, event, key, deadline, its exact seats, and amount = price times seat count; its payment is for that amount |
| `Safety.ChargesAreCounted` | payments/services.py:121-194 | the number of real attempts in a run equals the stored retry count plus one for a successful payment |
| `Safety.ChargedAtMostOnce` | payments/services.py:85-194 | at most three attempts and one success per booking, with what each status says about retry count and payment |
| `Safety.SuccessIsAbsorbing` | payments/services.py:132-135 | a successful payment is never undone, whatever happens to the booking |
| `Safety.ConfirmedOnce` | payments/services.py:67-146 | a booking becomes confirmed in at most one step of a run |
| `Safety.ConfirmedKeptIff` | payments/services.py:67-119 | a payment call on a confirmed booking leaves it confirmed if and only if it comes by the deadline; otherwise the booking expires and loses its seats though it stays paid |
| `ConfirmedLost.ConfirmedBookingExpires` | payments/services.py:67-83 | a concrete run in which a confirmed, paid booking is called once more after its deadline and expires with its claims off and its payment successful |
| `Safety.RunEvolves` | bookings/services.py:353-371 | over any stretch of a run bookings keep their terms, claims are never deleted or moved, and dead bookings stay dead |
| `Replies.RequestAnswered` | bookings/services.py:144-203 | which reply a locked creation gives, if and only if, on the rows of any run: no seats, unknown or repeated ids, a foreign seat, the booking with the user's key before availability is looked at, exactly the requested seats held by a confirmed or an unlapsed open booking, or the locks on exactly the requested seats |
| `Replies.CommitAnswered` | bookings/services.py:213-292 | a commit creates if and only if the key is there and new and no requested seat has an active claim, and then adds exactly the booking and its claims; otherwise it leaves the rows alone and is caught exactly for a usable key |
| `Replies.RepeatedRequestFindsBooking` | bookings/services.py:184-321 | once a booking carries a user's key, every later request with both is answered with that booking, by the fast path, by the locked check for any valid seats, free or taken, and by the error handler |
| `Outcomes.PaymentOutcome` | payments/services.py:67-194 | a payment call in any run: after the deadline the booking expires; by the deadline a pending or failed booking is confirmed with its seats by a successful charge, and by a declined one fails with one retry more or, at the third, expires without its seats; any other is untouched, and so is every other booking |
| `Outcomes.MissingPayment` | payments/services.py:50-64 | a payment call for no booking changes nothing |
| `Outcomes.SweepOutcome` | workflows/tasks.py:440-460 | the expiry handler expires a pending or failed booking whose deadline has come and releases its seats; a confirmed or dead booking, and every other, keeps every row |
| `Outcomes.CancelOutcome` | bookings/services.py:353-371 | a cancellation follows an earlier read of the booking as confirmed, and then cancels the booking and releases its seats whatever its status has become |
| `Outcomes.ConfirmedEndsIff` | workflows/tasks.py:448-451 | in every run a confirmed booking stops being confirmed in a step if and only if that step cancels it or is a payment call for it after its deadline; its expiry job never does it |
| `NoDeadlock.LocksClear` | bookings/services.py:213-292 | from every state of every run the open creations and edits can end one after another until no lock is held |
| `NoDeadlock.EveryCallIsServed` | bookings/services.py:146-153 | in every state of every run any call about something that exists can be served after nothing but the ends of transactions already open |
| `Inventory.NumbersStayExact` | events/services.py:112-139 | in every run each event's seats are numbered exactly 1 to total_seats and each claim is on a seat of its booking's event |
| `Inventory.BookedSeatsStay` | events/services.py:222-258 | a seat with any booking history is never deleted, renumbered or relabelled |
| `Inventory.CheckedEditsCommit` | events/services.py:129-139 | once an edit has passed its check under the seat locks, its commit meets neither PROTECT nor a duplicate seat number |
| `Inventory.EarlyCheckAgrees` | events/models.py:70-108 | the early validation and the check under the locks refuse the same edits, exactly those that would remove a seat with history |
| `Inventory.UnrelatedEditKeepsSeats` | events/services.py:142-177 | saving an event with its space and plain total unchanged leaves every seat and the total alone, even if the space's layout has changed |
| `EditOutcomes.EditRefusedIff` | events/services.py:112-177 | an edit is refused if and only if it re-syncs an event without a space, leaves no seats or a negative price, or would delete a seat that any booking ever had |
| `EditOutcomes.EditOutcome` | events/services.py:112-258 | an edit opened in one state and committed in another, whatever ran in between: the event has the new price, archived flag, start, space and total; the seats that stay are unchanged, those to go are gone, and the new ones are what the layout makes |
| `EditOutcomes.CreateOutcome` | events/views.py:79-105 | a new event is stored if and only if its totals are positive and its price is not negative, with its row and every seat of its layout |
| `EditOutcomes.DeleteOutcome` | events/views.py:148-176 | an event is deleted, with exactly its seats, if and only if none of them was ever booked |
| `Preservation.RenumberedExact` | events/services.py:242-258 | removing the seats above a number and adding the planned ones leaves the numbers exact for the new total |
| `Availability.AvailabilityAgrees` | events/services.py:327-404 | at any instant the annotated count, the seat query and the seat map agree on how many seats are available, between zero and the total |
| `Availability.AvailabilityGrows` | bookings/services.py:73-81 | over unchanged rows the available count can only grow with time |
| `CacheModel.CacheIsCoherent` | events/caching.py:48-83 | in every run without admin re-syncs each cached entry equals its query on the current rows at the clock of its fill |
| `CacheModel.ReadsNeverOverstate` | events/caching.py:48-65 | a cached or fresh answer is the event's current row with a count that was exact less than five minutes ago and is not too high now |
| `CacheModel.UninvalidatedLooksSame` | payments/services.py:153-177 | a step that invalidates nothing for an event changes no answer about it at any past instant, although pending to failed changes rows |
| `CacheModel.ListingsAnswer` | events/services.py:306-313 | in every run, hit or miss, a listing has exactly the events that are not archived and start within its inclusive range, each with its current row and a recent count that is not too high |
| `CacheModel.SecondReadIsCached` | events/caching.py:12-65 | less than five minutes after a read that filled, the next one gives the same answer whatever has become of the rows |
| `LiveSeatMap.ViewMatchesRows` | events/consumers.py:26-66 | with guarded callers, join, snapshot and in-order messages show for every seat not under a lapsed hold the status the rows give it, however the snapshot overlaps the messages |
| `LiveSeatMap.StepFaithful` | bookings/services.py:241-247 | every guarded step announces the stored status where it speaks and speaks wherever a seat changes holder or status |
| `LiveSeatMap.ReleaseAccurateIff` | bookings/models.py:78-84 | the release broadcast is true of a seat if and only if no other booking holds it, and always for a live booking |
| `LiveSeatMap.AnnouncedReleaseIff` | events/broadcasts.py:54-65 | in every run, when a step announces seats as available, that is true of a seat exactly when no booking but the released one held it |
| `LateRetry.LateRetryMisleads` | ai_assistant/langgraph_flows/payment_retry_graph.py:20-30 | a concrete run in which an unguarded retry on an expired booking announces a seat as free that another user holds |
| `ExpiryJobs.SysStepKeepsInv` | workflows/tasks.py:37-152 | every step of jobs, workers and operators keeps the engine's invariant and the job invariant: dispatches at or after the deadline, completed means settled |
| `ExpiryJobs.CompletedExpiryIsFinal` | workflows/tasks.py:434-460 | in every run a completed expiry job means its booking is past its deadline, cannot be paid for any more, and owns seats only if confirmed |
| `ExpiryJobs.ExpiryNeverEarly` | workflows/tasks.py:444-446 | no handler ever runs before its booking's deadline, whatever dispatched it |
| `ExpiryJobs.RowsAdvance` | workflows/tasks.py:440-460 | no job step disturbs the engine: bookings evolve only as the engine allows |
| `JobRetries.FailuresAreCounted` | workflows/tasks.py:110-152 | in every run the stored retry count is the number of failed runs since the last manual retry |
| `JobRetries.OneWorkerPerJob` | workflows/tasks.py:46-61 | for any number of duplicate messages, if recovery hits the job only when no live worker holds it, it has at most one live worker, at most three failures, and is given up exactly at three |
| `JobRetries.CompletedUndoneIff` | workflows/views.py:140-177 | a step undoes a completed job if and only if it is a failing finish of a second worker or a manual retry write |
| `JobRetries.CompletedIsFinal` | workflows/tasks.py:83-96 | under the same care completed is absorbing |
| `SlowWorker.SlowWorkerUndoes` | workflows/services.py:45-75 | a concrete run in which a stuck reset of a slow worker's job leads from completed back to queued |
| `ConfirmationJobs.OneJobPerBooking` | bookings/signals.py:63-95 | in every run each booking has exactly one expiry job, and a booking has a confirmation job, exactly one, if and only if it was paid for |
| `ConfirmationJobs.GuardNeverFires` | bookings/signals.py:66-71 | when a booking becomes confirmed it has no confirmation job yet, and then it has one |
| `ConfirmationJobs.PaidWhenConfirmed` | bookings/signals.py:45-63 | the steps that turn a booking confirmed are exactly the steps that make it paid |
| `ConfirmationJobs.OneMailPerJob` | workflows/tasks.py:294-422 | a job mails at most once, through crashes, failures and resets, unless it is retried by hand or a worker that mailed neither wrote the flag nor completed the job |
| `ConfirmationJobs.FlagTellsMails` | workflows/tasks.py:410-422 | in every run the row's flag says exactly whether some mail wrote it since the last manual retry |
| `ConfirmationJobs.MailsAgainIff` | workflows/tasks.py:287-422 | however a job was claimed again, after a failed write, a crash, a manual retry or a stuck reset of a live worker, that claim mails if and only if no mail had written its flag between the last manual retry and the claim |
| `JobOutcomes.FinishOutcome` | workflows/tasks.py:83-152 | a worker's end in any run, told from what its handler did: completed if and only if the handler returned and the last write went through; otherwise one failure more, with a message 5, 10, ... seconds later, or given up at three |
| `JobOutcomes.BackoffDoubles` | workflows/tasks.py:145-152 | the delay before retry n is 5 seconds times 2 to the n - 1 |
| `JobOutcomes.CompletedBecause` | workflows/tasks.py:83-96 | in every run a completed job had a handler that returned (for a confirmation: mailed, had no mail server, or had seen the flag), in a worker that lived on to write the completion, with no manual retry since that write |
| `JobOutcomes.CompletedSinceRetry` | workflows/views.py:162-184 | that handler returned since the last manual retry, if no retry was written while a worker whose handler had returned was still to end |
| `RetryRace.OvertakenRetryIsLost` | workflows/views.py:162-184 | that condition is exact: every run that ends with a retry written while there is such a worker goes on, in one step, to a completed job whose handler has not run since |
| `RetryRace.RetryIsLost` | workflows/views.py:142-184 | a concrete run from an empty system in which a confirmation job is retried by hand and completed, and no handler of it ran since the retry |
| `JobOutcomes.ClaimOutcome` | workflows/tasks.py:46-76 | a delivered message claims its job exactly when the job waits, and the worker's copy has the flag as it was then |
| `JobOutcomes.MailOutcomes` | workflows/tasks.py:294-422 | a confirmation handler touches no row of the engine, and writes the flag exactly when it mails and the write is not lost |
| `JobOutcomes.ExpiryOutcome` | workflows/tasks.py:434-460 | an expiry handler that returns expires its own booking with its seats if that is open and due, and otherwise changes nothing; one that raises changes nothing |
| `JobOutcomes.RequeueOutcome` | workflows/services.py:23-40 | the requeue sends a message for every waiting confirmation job, for every waiting expiry job whose booking's deadline has come, and for nothing else |
| `JobOutcomes.ResetOutcome` | workflows/services.py:45-75 | the stuck reset puts back exactly the jobs claimed more than five minutes ago, with a message each |
| `JobOutcomes.RetryOutcome` | workflows/views.py:162-184 | the manual retry's write makes the row as new and sends a message at once |
| `JobOutcomes.RetryWasOffered` | workflows/views.py:142-160 | every manual retry follows a look that found the job given up or claimed for more than five minutes |
| `JobOutcomes.ScheduleOutcome` | bookings/services.py:266-284 | the jobs a service call leaves behind in any run: the timer of a booking just created, for exactly its deadline; the mail of a booking just confirmed, at once; nothing else |
| `JobRecovery.NoJobIsLost` | workflows/services.py:14-75 | from every state of every run, whatever crashed or failed, a job that waits or is in progress can still be completed by the requeue, the stuck reset and a worker alone |
| `JobRecovery.GivenUpCanBeRetried` | workflows/views.py:122-136 | a job given up can be completed after one manual retry |
| `TwoMails.MailedTwice` | workflows/tasks.py:399-422 | a concrete run, with no crash, retry or reset, in which one job mails twice |
| `CancelDesk.ServiceReachedIff` | ai_assistant/actions/cancellation_actions.py:91-192 | an event calls the cancelling service for a booking if and only if it is a confirming click by a user whose latest, unexpired staging was of that booking, after exactly one other confirming click and no keeping click |
| `CancelDesk.DeskTracks` | ai_assistant/langgraph_flows/cancel_booking_graph.py:15-74 | marker and graph stage always agree with the user's own stagings and clicks; restaging always returns to the first pause |
| `CancelDesk.ClickFollowsGraph` | ai_assistant/langgraph_flows/cancel_booking_graph.py:48-74 | interpreting the graph for one click leads where the desk says: to the next pause, the end, or the cancelling node |
| `CancelDesk.StagedThenConfirmed` | ai_assistant/langchain_tools/booking_tools.py:145-160 | the tracked progress spelled out: a staging, later one confirming click, and nothing else of that user's in between or after |
| `CancelDesk.ClicksAnswered` | ai_assistant/actions/cancellation_actions.py:35-192 | over every sequence of moves, what a click is answered: asked again at the first confirmation within fifteen minutes, cancelled or refused at the second by whether the booking is still confirmed, kept by a keeping click; and the controls are shown exactly while such a staging lasts |
| `CancelDesk.CancellationDesk.ResumeGraph` | ai_assistant/langgraph_flows/cancel_booking_graph.py:28-54 | resuming the graph moves its stored stage to the next pause, the end, or the failed cancelling node |
| `CancelDesk.CancellationDesk.PrepareCancelBooking` | ai_assistant/langchain_tools/booking_tools.py:137-160 | only a found, confirmed booking is staged; its graph restarts and the user's marker points at it |
| `CancelDesk.CancellationDesk.ConfirmCancellation` | ai_assistant/actions/cancellation_actions.py:91-159 | the confirming click changes marker and stage as the desk model says, in every branch |
| `CancelDesk.CancellationDesk.DismissCancellation` | ai_assistant/actions/cancellation_actions.py:162-192 | the keeping click ends the graph and drops the marker |
| `CancelDesk.CancellationDesk.PendingActions` | ai_assistant/actions/cancellation_actions.py:35-56 | the controls are shown exactly when a click would reach the graph, and a useless marker is dropped |
| `CancelDesk.CancellationDesk.CleanUpExpired` | workflows/tasks.py:195-217 | the clean-up deletes exactly the expired markers and counts them |
| `RetryDesk.RetryPaysLatest` | ai_assistant/actions/payment_actions.py:43-128 | a retry click pays for a booking if and only if it is the one most recently staged for that user, by the tool or automatically, unexpired and neither dismissed nor resolved since |
| `RetryDesk.LatestIsLast` | ai_assistant/langchain_tools/booking_tools.py:80-102 | the latest staging is a real one and no later staging of the user's overrode it |
| `RetryDesk.ShownIsLatest` | ai_assistant/actions/payment_actions.py:43-141 | the controls are shown for a booking, and a dismissing click ends its graph, exactly while it is the user's latest staging and less than fifteen minutes old |
| `RetryDesk.RetryLoopEnds` | ai_assistant/langgraph_flows/payment_retry_graph.py:40-64 | for every sequence of outcomes the graph returns to its pause at most 2 - retry_count times, so it leaves the loop within 3 - retry_count attempts |
| `RetryDesk.PaymentRetryDesk.MarkedBooking` | ai_assistant/actions/payment_actions.py:43-63 | the marked booking, with stale markers dropped |
| `RetryDesk.PaymentRetryDesk.ConfirmRetry` | ai_assistant/actions/payment_actions.py:102-117 | the retry click pays for the marked booking and keeps the pause exactly while it is failed |
| `RetryDesk.PaymentRetryDesk.DismissRetry` | ai_assistant/actions/payment_actions.py:131-141 | dismissing ends the graph and drops the marker |
| `RetryDesk.PaymentRetryDesk.PrepareRetry` | ai_assistant/langchain_tools/booking_tools.py:80-102 | only a found, open booking is staged |
| `RetryDesk.PaymentRetryDesk.StageAfterFailure` | ai_assistant/actions/booking_actions.py:104-121 | a booking that fails at once is staged automatically while retries are left |
| `Graphs.InvokePausesFirst` | ai_assistant/langgraph_flows/payment_retry_graph.py:48-64 | an invoke of any of the three graphs, whatever its thread had stored, takes no engine step and pauses in front of the entry |
| `Graphs.RoutingStays` | ai_assistant/langgraph_flows/booking_graph.py:80-98 | routing never leaves the graph of the thread |
| `Graphs.DeeperByClicks` | ai_assistant/langgraph_flows/cancel_booking_graph.py:48-54 | only an affirming answer brings an invocation one deeper towards a node that acts |
| `Assistant.ProposingChangesNothing` | ai_assistant/langchain_tools/booking_tools.py:56-306 | in any run, however many preparing tool calls in a row, with their graphs interpreted over whatever checkpoints were stored, change no row of the database |
| `Assistant.ActingTakesClicks` | ai_assistant/models.py:1-13 | in every run, with any number of invocations at once, an invocation that takes an engine step stands in an acting node whose thread was reached by affirming clicks before: one for a booking or a payment, two for a cancellation |
| `GraphOutcomes.ConfirmingNode` | bookings/services.py:311-350 | in every run the rows decide how the confirming node goes on after each of its engine steps: a created booking is paid for next, one found by its key only while it is pending, a lost insert is looked up, and an error leaves the thread in front of the node |
| `GraphOutcomes.CreatedIsPaidNext` | bookings/services.py:340-342 | whatever comes between, the next engine step of an invocation that has just created a booking pays for that booking |
| `GraphOutcomes.CancellingNode` | ai_assistant/langgraph_flows/cancel_booking_graph.py:28-38 | the cancelling node reads its booking and cancels it next if it is confirmed; otherwise it raises and the thread stays in front of it |
| `GraphOutcomes.RetryingNode` | ai_assistant/langgraph_flows/payment_retry_graph.py:20-45 | the retrying node pays once and then reads the row again: failed goes back to the pause, anything else ends the graph |
| `GraphOutcomes.AnswersDecide` | ai_assistant/langgraph_flows/cancel_booking_graph.py:48-54 | an affirming answer leads exactly one deeper, to an acting node or the next pause, and any other answer to a node that does nothing |
| `ClickBooks.ResumingBooks` | ai_assistant/actions/booking_actions.py:69-91 | a concrete run in which a tool call and its pause book nothing, and the resume of one click does |
| `ClickBooks.DiscardingBooks` | ai_assistant/actions/booking_actions.py:135-156 | a concrete run in which a click on Cancel Draft resumes a thread stopped inside its confirming node, and that books the draft |
| `DraftDesk.DroppedIsNeverBooked` | ai_assistant/langchain_tools/booking_tools.py:266-298 | a draft discarded or replaced while nobody had confirmed it is never booked, however the run goes on |
| `DraftDesk.DiscardRunsConfirmIff` | ai_assistant/actions/booking_actions.py:135-156 | the invocation of a discarding click runs the confirming node if and only if the thread was stopped in front of it; an undecided draft is dropped |
| `DraftDesk.OneBookingPerDraft` | ai_assistant/langgraph_flows/booking_graph.py:34-73 | in every run a draft yields at most one booking, for its own user and only after a confirming click on it, and different drafts yield different bookings |
| `DraftDesk.BookingsWithinClicks` | ai_assistant/actions/booking_actions.py:69-91 | bookings made by the assistant never outnumber confirming clicks, however often nodes run again |
| `DraftSeats.BookedAsDrafted` | ai_assistant/langgraph_flows/booking_graph.py:41-68 | what was proposed is what is booked: whatever edits and bookings come between proposal, click and commit, a draft's booking is for the draft's event and exactly its seat numbers |
| `DraftSeats.HeldSeatsStay` | bookings/services.py:147-153 | no step of any service deletes, renumbers or moves a seat that an open creation has locked |
| `DraftSeats.LockedAreDrafted` | ai_assistant/langgraph_flows/booking_graph.py:43-51 | if the looked-up seats are all there when they are locked, they are exactly the drafted numbers |
| `DraftDesk.DraftKeyInjective` | ai_assistant/langgraph_flows/booking_graph.py:57-66 | different drafts have different idempotency keys |
| `DraftDesk.BookingOrigin` | bookings/services.py:297-350 | every booking carries the user and key of the creation that committed it |
| `DraftDesk.BookingDrafts.StageDraft` | ai_assistant/langchain_tools/booking_tools.py:266-298 | staging invokes the conversation's graph anew with a fresh draft and points the user's marker at it |
| `DraftDesk.BookingDrafts.ConfirmPending` | ai_assistant/actions/booking_actions.py:69-89 | the click reaches the confirming node exactly when an unexpired marker leads to a waiting thread, and for that thread's draft |
| `DraftDesk.BookingDrafts.CancelDraft` | ai_assistant/actions/booking_actions.py:135-156 | the click resumes the stored thread with a refusal exactly when it still waits, and otherwise drops the marker |
| `DraftDesk.BookingDrafts.PendingActions` | ai_assistant/actions/booking_actions.py:21-36 | the controls are shown exactly while the marker is unexpired, and an expired one is dropped |
| `BookingTool.ChooseSeats` | ai_assistant/langchain_tools/booking_tools.py:221-264 | when a request is accepted, both ways: quantity within supply for general admission; distinct, existing, free labels otherwise; the numbers staged; and which refusal comes when, with exactly the unknown labels or taken numbers |
| `BookingTool.ChosenAreNamed` | ai_assistant/langchain_tools/booking_tools.py:245-264 | the numbers staged are those of exactly the seats the user named, all free, all different |
| `BookingTool.UniqueCount` | ai_assistant/langchain_tools/booking_tools.py:242-243 | comparing a list's length with its set's is a test for repeats |
| `SeatLayout.RowLabelRoundTrip` | events/services.py:35-55 | a base-26 decoder recovers every row number from its letters |
| `SeatLayout.RowNumberRoundTrip` | events/services.py:35-55 | every non-empty string of capital letters is the label of exactly the row it decodes to |
| `SeatLayout.AlphaRowLabel` | events/services.py:51-55 | the divmod loop computes that label |
| `SeatLayout.SeatLabelInjective` | events/services.py:83-90 | two cells of a grid never share a label, in either label style |
| `SeatLayout.SeatLabelIsNotANumber` | events/services.py:83-90 | a grid label is never a plain seat number |
| `SeatLayout.DecimalRoundTrip` | events/services.py:83-90 | reading a numeral's digits gives the number back |
| `SeatLayout.LabelReadsBack` | events/services.py:80-91 | a label reads back as its cell: letters of the row's number then the column's digits where rows are lettered, else the row's digits, a hyphen and the column's |
| `SeatLayout.OtherStyleUnread` | events/services.py:80-91 | a label of one style never reads as one of the other |
| `SeatLayout.GridReads` | events/services.py:79-99 | every seat of a grid, found at index (row - 1) * columns + column - 1, has a label that reads as its row and column in the style of the space |
| `SeatLayout.DocumentedRowLabels` | events/services.py:35-55 | the documented examples: 1 is A, 26 is Z, 27 is AA |
| `SeatLayout.GridBijection` | events/services.py:79-99 | row, column and number (r-1)*columns + c determine one another on the grid |
| `SeatLayout.SpecNumbers` | events/services.py:58-101 | every layout numbers its seats 1, 2, 3, ... up to the total it reports |
| `SeatLayout.AppendRow` | events/services.py:88-99 | the inner loop adds one row of the grid in order, every label reading as its row and column in the style of the space |
| `SeatLayout.BuildSeatSpecs` | events/services.py:58-101 | the nested loops build exactly those specifications and that total, and every grid label reads as its row and column in the style of the space |
| `SeatLayout.LabelLookupInvertible` | ai_assistant/langchain_tools/booking_tools.py:245-253 | for every layout the label dictionary finds each seat under its public name and nothing else |
| `SeatLayout.LabelIndexFaithful` | ai_assistant/langchain_tools/booking_tools.py:245-248 | with distinct names a dictionary built seat by seat loses and invents no seat |
| `Chunking.ChunkText` | knowledge/services.py:37-58 | the loops compute the chunks of the model, none longer than 1000 characters |
| `Chunking.MergeShort` | knowledge/services.py:40-45 | the merging loop computes the merged paragraphs |
| `Chunking.SlideWindow` | knowledge/services.py:51-56 | the window loop terminates and computes the windows |
| `Chunking.MergeKeepsText` | knowledge/services.py:40-45 | merged paragraphs rejoin to the original sequence, and all but the last have at least 100 characters |
| `Chunking.RestoredIsParagraph` | knowledge/services.py:47-56 | a paragraph is its first window followed by each later one without its first 150 characters; a long one gives ceil(length / 850) windows of at most 1000 |
| `Chunking.ChunksLoseNothing` | knowledge/services.py:37-58 | end to end the chunks restore the document apart from whitespace: nothing lost, added or moved |
| `Chunking.JoinSplit` | knowledge/services.py:37-38 | splitting at blank lines is inverted by joining |
| `Chunking.PiecesUnbroken` | knowledge/services.py:37-38 | no piece of a split contains a blank line |
| `Chunking.LastWindowRedundantIff` | knowledge/services.py:51-56 | the last window adds nothing exactly when at most 150 characters are left at its start |
| `ChunkForms.LineEndingsIgnored` | knowledge/services.py:30-38 | a text is cut the same way whichever of its line breaks are typed with a carriage return |
| `ChunkForms.WrittenParagraphsFound` | knowledge/services.py:37-38 | paragraphs written with blank lines between them are found again, however the line breaks were typed |
| `ChunkForms.ParagraphsTrimmed` | knowledge/services.py:38-38 | whatever the text, no paragraph is blank, has space at its ends or a blank line inside |
| `ChunkForms.MergedStretches` | knowledge/services.py:40-45 | each merged piece joins a stretch of consecutive paragraphs that goes on exactly as long as it has fewer than 100 characters |
| `ChunkForms.StretchesAgree` | knowledge/services.py:40-45 | there is only one way to cut the paragraphs by that rule |
| `ChunkForms.WindowAt` | knowledge/services.py:51-56 | window k of a long paragraph is its characters 850 k to 850 k + 1000, or to its end |
| `ChunkForms.ChunksAreParagraphs` | knowledge/services.py:21-58 | a document whose paragraphs have 100 to 1000 characters, the last perhaps fewer, is cut into exactly its paragraphs |
| `ChunkForms.HeadingJoinsNext` | knowledge/services.py:25-27 | a heading of fewer than 100 characters goes in front of the paragraph that follows it |
| `Database.Tables.BeginBooking` | bookings/services.py:146-203 | the first half of a creation, check by check, takes the engine's step and gives its reply |
| `Database.Tables.CommitBooking` | bookings/services.py:213-292 | the inserts and the commit, or the rollback on either uniqueness constraint or a missing key |
| `Database.Tables.LookUpAfterConflict` | bookings/services.py:286-292 | the error handler returns the existing booking or raises |
| `Database.Tables.ExistingBookingFor` | bookings/services.py:31-44 | the lookup finds the one booking with this user and key, or none |
| `Database.Tables.UnavailableSeatIds` | bookings/services.py:100-119 | a requested seat is unavailable if and only if its one active claim is of a booking that still holds it |
| `Database.Tables.SeatStatuses` | bookings/services.py:415-459 | the filled dictionary has every seat number of the event with its status, and nothing else |
| `Database.Tables.SeatStatusOf` | bookings/services.py:428-438 | one seat is booked, locked or available as its held claims say |
| `Database.Tables.ProcessPayment` | payments/services.py:50-194 | every branch of a payment call, row by row |
| `Database.Tables.ReleaseSeats` | bookings/models.py:59-84 | releasing switches off exactly this booking's claims |
| `Database.Tables.HandleExpiry` | workflows/tasks.py:434-460 | the handler expires an open booking that is due and leaves every other alone |
| `Database.Tables.CancelBooking` | bookings/services.py:353-371 | cancelling trusts the caller's possibly stale status and writes whatever the row says now |
| `Database.Tables.InsertSeats` | events/services.py:103-109 | bulk creation adds one seat per specification under fresh ids |
| `Database.Tables.CreateEvent` | events/views.py:79-105 | a new event is stored with its derived total and seats, or rejected |
| `Database.Tables.BeginUpdate` | events/views.py:107-146 | an update or re-sync is planned and checked under its locks |
| `Database.Tables.CommitUpdate` | events/services.py:137-139 | deleting and inserting the planned seats, with the database's own two refusals |
| `Database.Tables.HasBookingHistory` | events/services.py:202-211 | the unlocked check finds exactly the events one of whose seats was ever claimed |
| `Database.Tables.DeleteEvent` | events/views.py:148-176 | after a clear check an event goes with its seats, unless a booking came meanwhile and its seat is protected; without one nothing changes |
| `Database.Tables.Execute` | bookings/services.py:144-292 | whatever service runs when it may, the tables take exactly the engine's step and keep the invariant |
| `CacheStore.SharedCache.GetEventDetail` | events/caching.py:48-65 | a live hit is returned untouched; a miss is queried, filled and returned; a missing event is not cached |
| `CacheStore.SharedCache.GetEventsList` | events/caching.py:12-45 | the same for listings |
| `CacheStore.SharedCache.InvalidateEvent` | events/caching.py:68-83 | deletes the event's entry, and every listing when the backend can delete by pattern |
| `SeatChannel.SpelledOut` | events/broadcasts.py:54-65 | one message per seat, in whatever order, amounts to the announcement laid over a client's view |
| `SeatChannel.ChannelLayer.BroadcastForBooking` | events/broadcasts.py:54-65 | the loop sends one message for every seat the booking ever had, all with the same status |
| `SeatChannel.ChannelLayer.BroadcastSeatUpdate` | events/broadcasts.py:26-51 | one message is appended to the group's traffic |
| `SeatChannel.SeatConsumer.CatchUp` | events/consumers.py:60-66 | a consumer that receives in order shows its snapshot with all messages laid over it |
| `JobRunner.WorkflowTables.ScheduleJob` | workflows/services.py:78-87 | a new job row and its dispatch, at once or delayed |
| `JobRunner.WorkflowTables.ClaimJob` | workflows/tasks.py:46-76 | a job is claimed exactly when it is pending; any other delivery is skipped |
| `JobRunner.WorkflowTables.HandleConfirmation` | workflows/tasks.py:287-422 | when the handler mails, what it remembers, and that a failing flag write is swallowed |
| `JobRunner.WorkflowTables.Delay` | workflows/tasks.py:145-152 | the backoff is five seconds doubled per earlier failure |
| `JobRunner.WorkflowTables.FinishJob` | workflows/tasks.py:90-152 | completed, or one failure more with a delayed retry, or given up at three |
| `JobRunner.WorkflowTables.DispatchDue` | workflows/services.py:23-40 | dispatches exactly the pending jobs that are immediate or due |
| `JobRunner.WorkflowTables.RequeuePendingJobs` | workflows/services.py:14-42 | dispatches what is due and then recovers what is stuck |
| `JobRunner.WorkflowTables.ResetStuckJobs` | workflows/services.py:45-75 | resets and dispatches exactly the jobs in progress for more than five minutes |
| `JobRunner.WorkflowTables.MayRetry` | workflows/views.py:142-160 | a job given up is always offered for a retry, a waiting or completed one never, and one in progress if and only if it was claimed more than five minutes ago |
| `JobRunner.WorkflowTables.RetryJob` | workflows/views.py:162-184 | the retry overwrites the row with a fresh one and dispatches it |
| `JobRunner.WorkflowTables.ServeRows` | bookings/services.py:266-284 | a service call through the engine's tables schedules the timer of a new booking and the mail of a newly confirmed one, and nothing else |
| `JobRunner.WorkflowTables.HandleExpiry` | workflows/tasks.py:434-460 | the handler of an expiry job sweeps its booking in the engine's tables, or fails and leaves them alone |
| `JobRunner.WorkflowTables.Execute` | workflows/tasks.py:37-152 | whatever job, worker or operator action runs when it may, the tables of jobs and engine take exactly the system's step and keep both invariants |

## Left out

- Commit and callbacks: a commit and its on-commit callbacks (broadcasts, cache invalidation, confirmation job) are one step; a crash between them is not modelled.
- Clock: transactions read strictly increasing times after taking their locks; a booking swept and paid at the same microsecond is not modelled.
- NoDeadlock.EveryCallIsServed: a call takes its row locks in one step; the order in which one call locks its rows is not modelled.
- Concurrent edits of one event: serialised per event by the event lock; edits interleave with everything else.
- Admin writes other than the re-sync action, and archiving from the admin: they bypass the services.
- CacheModel.CacheIsCoherent: assumes no admin re-sync, which does not invalidate the cache; listings need a cache backend that deletes by pattern; a miss with its query and fill is one step.
- CacheModel.ListingsAnswer: the same two assumptions.
- JobOutcomes.CompletedSinceRetry: assumes no manual retry is written while a worker whose handler has returned is still to end; `RetryRace.OvertakenRetryIsLost` shows that this cannot be dropped.
- JobRecovery.NoJobIsLost: says what can happen next, not that the beat and a worker will in fact run.
- LiveSeatMap.ViewMatchesRows: assumes no payment call on an expired or cancelled booking and no cancellation from a stale read; the exact failing condition is `LiveSeatMap.ReleaseAccurateIff`.
- JobRetries.OneWorkerPerJob: assumes recovery hits the job only when no live worker holds it and the manual retry's check still holds at its write; both are heuristics in the source.
- DraftDesk.BookingsWithinClicks, like all results about drafts, assumes no other client sends an idempotency key of the assistant's form, as such keys carry a fresh random id.
- DraftSeats.BookedAsDrafted: says nothing about the amount, because the confirming node reads the event's price anew and may find another than the draft showed.
- DraftDesk.DraftKeyInjective: the fresh random draft id is a counter.
- Chunking.ChunkText: Python's stripping is the listed whitespace code points; a string is a sequence of characters.
- Event fields without effect on seats or bookings (name, description, end time, venue, creator) and the venue checks of the early validation.
- Orderings of listings and seat queries, JSON shapes, seat labels inside snapshots.
- Transaction ids, decimal rounding and overflow of amounts.
- Knowledge-document jobs, embeddings and search.
- CancelDesk.ServiceReachedIff: a click is one step here, as it is in RetryDesk.RetryPaysLatest; invocations that overlap are in the module Assistant.
- Assistant.ActingTakesClicks: counts the clicks since the thread was first staged, because an invocation started before a restaging may still be running after it.
- CacheStore.SharedCache.GetEventsList: the answer is the listed events without their order.
- LangGraph itself: a checkpoint is the node to run next with its values, and a resume of a thread stopped inside a node is taken to run that node again.
- Checkpoint clean-up, and the order in which checkpoints of overlapping invocations are written other than last write wins.
- Authentication, permissions, throttling, pagination and date parsing.
