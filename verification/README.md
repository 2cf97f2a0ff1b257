# A verified model of the service scheduler's booking protocol

The scheduler books service appointments at car dealerships. A request places a short *hold* on a
technician and a bay (a pending appointment with a reservation), a confirm made before the hold expires
turns it into a confirmed appointment, and a confirmed appointment can be cancelled. The service exists
so that no technician and no bay of a dealership is booked twice. No single piece of its code gives that
guarantee: it comes from the SQL busy query, the status guards of the domain, the reservation's time to
live, the candidate picker, the retry wrapper and two isolation levels together. This project models
those pieces and proves what they add up to.

## The three layers

1. **Tables and rules** (`Domain`, `Tables`, `Workforce`, `Booking`). The status machine, the booking
   factory and the builder, the busy query's predicate, the roster filters, and what each command decides
   as a function of the snapshot, of `now()` and of the application clock.
2. **Interleaved transactions** (`Protocol`, `Invariants`, `Preservation`, `Commits`, then the theorems in
   `Safety`, `Claims`, `Records`, `Assignments`, `Deadlines`, `Atomic`, `Answers`, `Stub`). Any number of requests,
   confirms and cancels, each cut into its steps (validate, fast path, prepare, begin, snapshot, decide,
   commit, unique violation, backstop, abort, fail) with clock ticks in between. `Reachable` means: some
   trace of enabled steps from empty tables leads there.
3. **The imperative code** (`Messages`, `Database`, `Repository`, and the classes of `Domain`). The
   transaction closures, `createFn`, the busy-map loop, the attempt with its rollback, the retry loop and
   `RequestBooking`, each a method with state and loops, proved against layer 1 for whatever circumstances
   it meets. `Refinement` then takes those circumstances from a run of layer 2, with any steps of other
   sessions in between, and proves that the same run goes on to a world whose session ends as the call does:
   same outcome, same answer, same tables. `CallWitnesses` shows that such circumstances occur: undisturbed,
   after up to nine serialization failures, and through the unique violation and the backstop.

## What is assumed

- One clock serves Postgres `now()` and Go `time.Now()`; it never goes back. Instants are integers.
- Of PostgreSQL only this (PostgreSQL 17 documentation, sections 13.2.2 and 13.2.3), as guards of the
  `Commit` step: two concurrent serializable bookings of which each missed the other's row do not both
  commit; a repeatable-read update does not commit when its row differs from the snapshot's; the
  idempotency key is unique. Concurrent means that one committed after the other's snapshot. A confirm or
  cancel is not serializable, so nothing relates it to a booking's read. A transaction may also abort, and
  any command may also fail, at any point and for no reason given.
- A new UUID is one that was not issued before.

## What was found

- **Exclusion needs a deadline the code does not enforce.** `docs/SYSTEM_DESIGN.md:204` says that confirm
  and cancel carry no concurrent write-skew risk at RepeatableRead. The code checks the expiry when
  `Confirm` runs, not when it commits. A confirm that decides in time and commits at the very instant its
  hold expires leaves a technician and a bay claimed twice if another booking of the slot has committed at
  that instant. `Safety.NeverDoubleBooked` proves exclusion for all runs in which every confirm commits
  before its hold's expiry; `Deadlines.ConfirmDeadlineIsExact` proves the bound exact (with slack `s`
  exclusion holds in all runs if and only if `s <= 0`), for every dealership, service and start that can be
  booked at all; `Stub.SoloCanBeDoubleBooked` gives the run on the repository's own fixtures.
- **A booking's own commit has the same kind of deadline.** What a request decided on its snapshot is
  still right when it commits as long as its own hold is still live then, and again that bound is exact
  (`Safety.DecisionStillRight`, `Deadlines.CommitDeadlineIsExact`). A booking that misses this deadline
  breaks no exclusion: it commits a hold that is already over.
- With confirms timely, a commit does at once, against the current tables and clock, just what its command
  asks of the very rows it names, if and only if it is in time: a booking's own hold live, the confirmed
  hold live, the cancelled appointment not started (`Atomic.InterleavingsAreAtomic`). A run whose commits
  are all in time is, step for step, a run of the atomic machine (`Atomic.InTimeRunsAreAtomic`), which keeps
  exclusion by itself (`Atomic.AtomicRunsExclude`).
- **A service type can look like a serialization failure.** The retry loop looks for the phrase "could not
  serialize access" in the whole text of an error, and the unknown-service-type error quotes the caller's
  text with `%q`. It reads as retryable if and only if the service type contains the phrase, where the first
  letter may also be any character that Go shows in hex and whose last hex digit is c, such as the file
  separator (`\x1c`) or the zero-width non-joiner (`\u200c`); `Database.UnknownServiceTypeIsRetryableIff`
  proves it for every table of printable characters. That error is made before any transaction, so it is
  never retried; of the errors a transaction can end with, none can mimic the phrase
  (`Database.RefusalsArePermanent`).

## Model

| member | source | states |
|---|---|---|
| Safety.NeverDoubleBooked | internal/appointments/adapters/db/appointment_repository.go:48-213 | In every reachable state of every interleaving whose confirms all committed before their holds expired, no two distinct claims of a dealership share a technician or a bay at any instant |
| Safety.DoubleBookingNeedsLateConfirm | internal/appointments/adapters/db/appointment_repository.go:150-189 | With no hypothesis on timing: two conflicting appointments claimed at once imply that one of those two was confirmed at or after its own hold's expiry |
| Safety.DecisionStillRight | internal/appointments/adapters/db/appointment_repository.go:58-130 | At the commit of a booking whose hold is still live, the technician and bay chosen on the old snapshot are absent from the busy query asked again of the committed tables |
| Deadlines.ConfirmDeadlineIsExact | docs/SYSTEM_DESIGN.md:204 | Exclusion holds in all runs whose confirms commit before expiry plus a slack if and only if the slack is not positive, for every command that can be booked |
| Deadlines.LateConfirmDoubleBooks | internal/appointments/domain/appointment.go:86-90 | The witness: a reachable run in which a confirm decides in time, commits at the instant of expiry, and one technician and one bay are claimed twice for the command's own service and start |
| Deadlines.CommitDeadlineIsExact | internal/appointments/adapters/db/appointment_repository.go:76-130 | A booking's decision is right at commit, in all runs with timely confirms and bookings that commit before their own expiry plus a slack, if and only if the slack is not positive |
| Deadlines.StalledDecisionIsWrong | internal/appointments/adapters/db/appointment_repository.go:76-130 | The witness: a stalled booking may commit at the instant its hold expires although its technician or bay is by then taken |
| Deadlines.Propose | internal/appointments/app/request_booking.go:76-200 | Progress: a booking that passes its checks, with an unused key, for whose window some listed technician and some listed bay are not busy, reaches its commit point with the best-scored of the free technicians and the first of the free bays |
| Answers.BookingAnswers | internal/appointments/adapters/db/appointment_repository.go:58-130 | On all reachable tables the transaction of a request replays a reservation if and only if that reservation has the key; with an unused key it books if and only if some listed technician and some listed bay are in no claim that shares an instant with the window and the key is not blank, and takes the best-scored such technician and the first such bay; it is refused for no availability if and only if there is none |
| Answers.ConfirmAnswers | internal/appointments/adapters/db/appointment_repository.go:157-183 | On all reachable tables, for every caller: reservation-not-found if and only if none is stored under the UUID, appointment-not-found if and only if it is another user's; to the owner not-pending by the status, expired with its expiry from that instant on, and otherwise just that appointment is confirmed |
| Answers.CancelAnswers | internal/appointments/adapters/db/appointment_repository.go:196-212 | On all reachable tables, for every caller: appointment-not-found if and only if none is stored under the UUID or it is another user's; to the owner already-cancelled or not-confirmed by the status, in-the-past if and only if confirmed and started, and otherwise it is cancelled |
| Answers.ConfirmCommits | internal/appointments/adapters/db/appointment_repository.go:150-189 | Progress: from any reachable state the owner's confirm of a pending appointment with a live hold, run alone, succeeds and changes that status only |
| Answers.CancelCommits | internal/appointments/adapters/db/appointment_repository.go:191-213 | Progress: from any reachable state the owner's cancel of a confirmed appointment up to its start, run alone, succeeds and changes that status only |
| Answers.LifeRuns | internal/appointments/domain/appointment.go:77-109 | From any reachable state in which a request can be booked, some run books it, confirms it and cancels it, each command answered as done |
| Stub.SoloIsBookable | internal/appointments/adapters/workforce/stub_workforce_service.go:50-88 | On the fixture roster and catalog with default settings, a well-formed request inside the lead times at the single-technician dealership can be booked if and only if it asks for the oil change or the brake service |
| Stub.DealerOneLists | internal/appointments/adapters/workforce/stub_workforce_service.go:56-60 | On the fixtures, dealer-1 lists tech-1, tech-2 and tech-3 for no certification, tech-1 and tech-2 for the brakes, tech-2 for the diagnostics, and both bays |
| Stub.UnavailableLists | internal/appointments/adapters/workforce/stub_workforce_service.go:64-88 | On the fixtures, an unknown dealership lists nobody and no bay, and the two dealerships with an always-off technician or bay list none for any window that touches 1970 to 3000 |
| Stub.NextBestIsBooked | internal/appointments/app/request_booking.go:157-198 | On the fixtures, an oil change at dealer-1 with tech-2 and bay-1 busy gets tech-3 on bay-2 |
| Stub.SoloCanBeDoubleBooked | internal/appointments/adapters/workforce/stub_workforce_service.go:60-64 | On the repository's own fixtures, for either service and every start at least an hour and five minutes away, a reachable run claims the solo technician and bay twice for that very service and start |
| Atomic.InterleavingsAreAtomic | internal/appointments/adapters/db/appointment_repository.go:48-213 | With timely confirms, any step of any interleaving leaves the tables alone, or is a commit that does at once just what its command asks of the very rows it names, if and only if it is in time |
| Atomic.InTimeRunsAreAtomic | internal/appointments/adapters/db/appointment_repository.go:48-213 | A whole run whose commits are all in time is, moment for moment, a run of the atomic machine, and excludes double-booking throughout; that confirms are timely follows |
| Atomic.AtomicKeepsExclusion | docs/SYSTEM_DESIGN.md:41 | One atomic booking, confirm or cancel keeps exclusion, so the atomic machine is a correct reference for the interleaved one |
| Atomic.AtomicRunsExclude | docs/SYSTEM_DESIGN.md:41 | Every run of the atomic machine from empty tables, ticks included, excludes double-booking at every moment |
| Commits.ConcurrentApart | docs/SYSTEM_DESIGN.md:196 | Two concurrent bookings that SSI lets both commit cannot both hold a claim on a shared technician or bay: one's hold was over when the other began |
| Commits.SeenApart | internal/appointments/adapters/db/dbmodels/appointment.sql.go:100-115 | A booking visible in the snapshot either kept the picker away from its technician and bay or was no claim any more at the query's now() |
| Commits.StepKeeps | internal/appointments/adapters/db/appointment_repository.go:48-213 | Every enabled step of every session, and the clock, keeps the global invariant, and no row, history entry or log entry is ever taken back |
| Commits.ReachableOk | internal/appointments/adapters/db/appointment_repository.go:48-213 | The invariant holds after every interleaving from empty tables |
| Preservation.CreateFnOk | internal/appointments/app/request_booking.go:157-198 | What createFn stages avoids the busy sets, stores the window, user and vehicle of the command it was prepared for, and passes every builder, roster and start-time rule |
| Claims.LostClaimReturnsOnlyLate | internal/appointments/adapters/db/dbmodels/appointment.sql.go:107-114 | An appointment that is no claim at one point of a run is a claim at a later one if and only if it is then confirmed and its confirm was late, and then that confirm was decided while the hold was live |
| Claims.LostClaimStaysLost | internal/appointments/adapters/db/dbmodels/appointment.sql.go:107-114 | With timely confirms a claim once lost is never regained |
| Claims.ExpiryIsOneBoundary | internal/appointments/domain/reservation.go:39-41 | For an appointment's one reservation, the SQL liveness test and IsExpired are complements at every instant, the boundary instant included |
| Claims.WhatEndsAClaim | internal/appointments/adapters/db/dbmodels/appointment.sql.go:111-114 | Of all steps only the clock, or the commit that cancels that very appointment, can end a claim |
| Claims.ReleaseIsComplete | internal/appointments/adapters/db/appointment_repository.go:191-241 | With timely confirms: at the step that ends a claim, by cancel or by expiry, its technician and its bay are both absent from the busy sets for its own window |
| Claims.CapacityNeverExceeded | internal/appointments/app/request_booking.go:157-179 | With timely confirms: at any time and service instant a dealership's claims covering the instant number at most its bays and at most its technicians |
| Claims.Pigeonhole | internal/appointments/app/request_booking.go:157-179 | Claims that map injectively into a finite set of resources are no more than the resources |
| Records.OneReservationPerKey | internal/appointments/adapters/db/migrations/0003_create_reservation_table.up.sql:10 | In every reachable state a key has at most one reservation |
| Records.SameKeySameReservation | internal/appointments/adapters/db/appointment_repository.go:61-144 | Whichever of fast path, in-transaction check and backstop answered, all successes for a key return one reservation, and it is that key's row |
| Records.ReplayAddsNothing | internal/appointments/adapters/db/appointment_repository.go:61-71 | Once a key is booked, no step of any booking session for it changes a table, however its attempts are interleaved |
| Records.BackstopFinds | internal/appointments/adapters/db/appointment_repository.go:131-144 | The lookup after a unique violation never misses and answers with the row of the key |
| Records.AnswersAreCommitted | internal/common/db.go:59-77 | At most ten attempts, the number written out; the captured UUID of a staged attempt is that attempt's own; every booking that succeeded answers with a committed reservation |
| Records.StatusHistory | internal/appointments/domain/appointment.go:77-109 | Every committed history is a prefix of pending, confirmed, cancelled and the row shows its last status; the confirm was decided while the hold was live, the cancel no later than the start |
| Records.OneConfirmOneCancel | internal/appointments/adapters/db/appointment_repository.go:150-213 | A confirm succeeded if and only if it is its appointment's second event, a cancel if and only if it is the third: no update is lost and none happens twice |
| Records.RepeatsAreAnswered | docs/SYSTEM_DESIGN.md:195 | After a command succeeded, the same request decided on any later tables is replayed with the same UUID (booking), refused as not pending (confirm) or as already cancelled (cancel) |
| Records.FailuresLeaveNoTrace | internal/common/db.go:96-105 | A session that has not succeeded has no row in any table and no committed status change |
| Records.RowsOnlyChangeStatus | internal/appointments/adapters/db/dbmodels/appointment.sql.go:152-156 | Along any run no row disappears, only an appointment's status changes, and it only moves forward |
| Records.StepFrame | internal/appointments/adapters/db/appointment_repository.go:92-128 | Every step leaves the tables alone, or is the commit of a session that thereby succeeds: one new row in each table holding what the booking asked for, or the status of the very row that the confirm's reservation or the cancel names, owned by the caller |
| Records.RowsInBijection | internal/appointments/adapters/db/appointment_repository.go:92-128 | Vehicles, appointments and reservations are in bijection, one each for every distinct key booked; each appointment has exactly one reservation, and a vehicle of its own user that no other has |
| Records.OwnersConfirm | internal/appointments/adapters/db/appointment_repository.go:157-183 | On reachable tables the owner's confirm of a stored reservation succeeds if and only if the appointment is pending and its hold live, and otherwise is refused for exactly the status or the expiry |
| Records.MismatchIsUnreachable | internal/appointments/domain/appointment.go:78-80 | No command ever ends with the reservation-mismatch error |
| Assignments.EveryBookingIsFit | internal/appointments/adapters/workforce/stub_workforce_service.go:90-152 | Every stored appointment: technician and bay on that dealership's roster, the required certifications a subset of those held, no blackout reaching into the stored window, window as long as the catalog says and non-empty, IDs non-empty, start within the lead times in force as of validation, window queried equal to window stored |
| Assignments.EveryPickIsBest | internal/appointments/app/request_booking.go:143-175 | In every run a staged booking's technician is listed, free in its snapshot and of the best score of all that are; its bay is the first listed one that is free |
| Assignments.ExpiriesNest | internal/appointments/domain/factory.go:192-236 | If validation-to-hold delay plus TTL is within the minimum lead time, the hold ends by the start, a live hold is never a no-show, and the confirm was decided before the start |
| Assignments.DefaultExpiriesNest | internal/appointments/domain/factory.go:11-46 | With the defaults this covers every hold created within 55 minutes of its validation |
| Refinement.BookingIsRun | internal/appointments/app/request_booking.go:76-200 | Whatever other sessions do while a call of RequestBooking runs, and whatever fails, the run it is taken from goes on to a world with a session for that command, done with exactly the outcome that checks, refusals, retries, backstop and failures determine, with the call's very answer and the tables it committed |
| Refinement.RequestIsRun | internal/appointments/adapters/db/appointment_repository.go:48-148 | The same for RequestAppointment with its retries: the key's row after a unique violation, else refused with e if and only if the domain refuses with e, and exhausted if and only if nothing refuses and the tenth attempt fails retryably; the backstop's own failure cannot happen |
| Refinement.StatusChangeIsRun | internal/appointments/adapters/db/appointment_repository.go:150-213 | The same for ConfirmAppointment and CancelAppointment |
| Refinement.TransactionIsRun | internal/common/db.go:47-108 | The retry loop's attempts are aborted attempts of the session followed by one that ends with exactly the outcome of the loop's last, with the same tables, on the same run |
| Refinement.AnswerIsTheKeysReservation | internal/appointments/adapters/db/appointment_repository.go:61-147 | An answer of RequestBooking is, in every later world of the run, the key's one reservation |
| Refinement.CallsOfOneRunAnswerAlike | internal/appointments/adapters/db/appointment_repository.go:61-147 | Two calls for a key on one run, overlapping or not, that both answer a reservation answer the same one |
| Refinement.LaterCallAnswersAlike | internal/appointments/adapters/db/appointment_repository.go:61-147 | Once RequestBooking has answered a reservation, any later call for the key on that run that answers a reservation, from whichever layer, answers the same one |
| Refinement.AttemptIsDecide | internal/appointments/adapters/db/appointment_repository.go:58-212 | A closure whose reads succeed stages, captures or refuses exactly what the protocol's decide step does |
| CallWitnesses.UndisturbedCallBooks | internal/appointments/app/request_booking.go:76-200 | For any reachable world and command that passes its checks, with an unused key, some listed technician and some listed bay free, and any n below ten: the circumstances of a call whose first n attempts meet a serialization failure are those of a run, and the call books at attempt n + 1, with the best-scored free technician and the first free bay |
| CallWitnesses.CollidingCallReplays | internal/appointments/adapters/db/appointment_repository.go:131-144 | So are those of a call whose key a rival books between its decision and its insert: it fails with the unique violation and answers the rival's reservation |
| Refinement.SnapshotsAreOrderly | internal/appointments/adapters/db/migrations/0003_create_reservation_table.up.sql:3-11 | Every table state a transaction can get as its snapshot meets the preconditions of the imperative methods |
| Repository.RequestBooking | internal/appointments/app/request_booking.go:76-200 | The whole command: start-time error first, then the fast path, then the checks and outside failures in order, each with the database untouched and no attempt made; else the repository's answer for the plan just made, after at most ten attempts |
| Repository.EarlyAnswers | internal/appointments/app/request_booking.go:76-135 | A transaction is opened if and only if the start is acceptable, the key unused, the request in form, the service known, some roster entry suits and some bay is in service, and nothing failed on the way; a reservation is answered early if and only if the start is acceptable and the key used; each failure and each refusal in its own case |
| Repository.RequestAppointmentTx | internal/appointments/adapters/db/appointment_repository.go:48-148 | Success is the last attempt's captured UUID with its whole write applied once; a unique violation of the key becomes the stored reservation; any other error passes through with nothing committed |
| Repository.ChangeStatusTx | internal/appointments/adapters/db/appointment_repository.go:150-213 | Confirm and cancel end as their last attempt did, with its write applied once or nothing committed |
| Repository.UpdateInTxWithRetry | internal/common/db.go:47-80 | For every sequence of attempt outcomes: between one and ten attempts, each but the last failed retryably; a loop that ends before the tenth ends with success, a non-retryable error or a back-off that gave up; at most one commit and it is the last attempt's, whose own answer is the captured one |
| Repository.UpdateInTx | internal/common/db.go:82-108 | One attempt commits its whole write or nothing, and the error is that of begin, of the closure joined with a failed rollback, or of commit |
| Repository.FailuresKeepTheirClass | internal/common/db.go:82-105 | The first failure of the database that an attempt meets, at begin, at either read, at a write or at commit, stays retryable and stays the key's unique violation through every wrapping and through a failed rollback; an attempt that meets none ends as its decision says |
| Repository.SerializationFailuresAreRetried | internal/common/db.go:59-77 | A serialization failure, wherever the attempt meets it, ends the loop only at the tenth attempt or when the back-off gives up; an attempt that the database does not fail is not repeated unless its rollback fails with one |
| Repository.DuplicateKeysAreAnswered | internal/appointments/adapters/db/appointment_repository.go:131-147 | A request whose last attempt meets the duplicate key answers the reservation stored under the key and has written nothing; one that meets no failure answers its refusal, or its captured UUID with the whole write applied once |
| Repository.Call.Fn | internal/appointments/adapters/db/appointment_repository.go:58-212 | The closure of any of the three commands stages the statements, captures the UUID or returns the error that the decision function says |
| Repository.Call.Request | internal/appointments/adapters/db/appointment_repository.go:58-130 | The request closure: replay, failed read, refusal or the three inserts, whatever an earlier attempt left in the builder and the captured variable |
| Repository.Call.Confirm | internal/appointments/adapters/db/appointment_repository.go:157-183 | The confirm closure: failed reads and refusals in the code's order, else one status update |
| Repository.Call.Cancel | internal/appointments/adapters/db/appointment_repository.go:196-212 | The cancel closure: the refusals in the code's order, else one status update |
| Repository.StatementsAreTheWrite | internal/appointments/adapters/db/appointment_repository.go:92-126 | The statements in the order sent, run on any tables, have the effect the protocol commits |
| Repository.StatementsKeepForeignKeys | internal/appointments/adapters/db/migrations/0003_create_reservation_table.up.sql:5 | After each statement, in the order sent, every appointment's vehicle and every reservation's appointment is stored |
| Repository.GetBusyCandidates | internal/appointments/adapters/db/appointment_repository.go:215-241 | The two maps' key sets are exactly the busy bays and the busy technicians, although rows overwrite each other's values |
| Repository.Tx.GetBusyServiceBaysAndTechnicians | internal/appointments/adapters/db/dbmodels/appointment.sql.go:132-150 | The row loop over the joined, filtered and projected rows returns every busy pair once and no other, in some order |
| Repository.Tx.GetReservationByIdempotencyKey | internal/appointments/adapters/db/dbmodels/reservation.sql.go:39-55 | Finds the key's row exactly when there is one |
| Repository.RunCreateFn | internal/appointments/app/request_booking.go:157-198 | With the shared builder in whatever state earlier attempts left it, appointment and hold are those of this attempt's own picks, or the error is createFn's |
| Repository.PickTechnician | internal/appointments/app/request_booking.go:161-167 | The first technician in list order that is not busy, or the empty ID |
| Repository.PickServiceBay | internal/appointments/app/request_booking.go:169-175 | The first bay in list order that is not busy, or the empty ID |
| Booking.PickedTechnicianIsBest | internal/appointments/app/request_booking.go:143-167 | Over any stable or unstable descending sort, the picked technician is eligible, free, and of the highest score among all that are |
| Booking.FirstFreeIsFree | internal/appointments/app/request_booking.go:161-175 | If any ID is free, the pick is a listed free one with only busy ones before it; if none is, it is empty |
| Booking.NothingFreeIff | internal/appointments/app/request_booking.go:177-179 | The pick is empty if and only if all IDs are busy or the first free ID is itself empty |
| Booking.NoAvailabilityIff | internal/appointments/app/request_booking.go:177-179 | With non-empty IDs createFn answers no-availability if and only if all technicians or all bays are busy |
| Booking.CreateFnAnswers | internal/appointments/app/request_booking.go:157-198 | With non-empty IDs: no-availability if and only if no listed technician or no listed bay is free; the duration's or the key's error if and only if some are and just that is wrong; otherwise, and only then, it stages the first free technician and the first free bay with the command's window, user, vehicle and key and a hold for the TTL |
| Booking.PrepareAnswers | internal/appointments/app/request_booking.go:100-141 | Between the fast path and the transaction a request is refused for its form, for an unknown service, or for a roster with nobody suitable or no bay in service, each if and only if that is the first thing wrong; form, lead times and roster are written out |
| Tables.OverlapIsASharedInstant | internal/appointments/adapters/db/dbmodels/appointment.sql.go:109-110 | For non-empty half-open windows the two SQL comparisons hold if and only if some instant lies in both, so back-to-back bookings do not clash |
| Tables.BusyAreTheClaims | internal/appointments/adapters/db/dbmodels/appointment.sql.go:100-115 | Over non-empty windows a technician or a bay is busy if and only if it is in an appointment of that dealership that shares an instant with the window and is confirmed, or pending with a reservation whose expiry is still to come |
| Tables.FirstVehicleStays | internal/appointments/adapters/db/dbmodels/vehicle.sql.go:33-37 | The upsert stores a row under a new UUID, keeps the one under a used UUID, and touches no other |
| Tables.JoinFindsTheClaims | internal/appointments/adapters/db/dbmodels/appointment.sql.go:100-115 | The left join, filtered and projected row by row with NULL for a missing reservation, gives the pairs of exactly the claims in the window |
| Tables.FindByKey | internal/appointments/adapters/db/dbmodels/reservation.sql.go:39-55 | The lookup succeeds if and only if a row has the key, and returns such a row |
| Workforce.ListTechnicians | internal/appointments/adapters/workforce/stub_workforce_service.go:90-109 | The loop with its two continues computes the filter of the dealership's roster, empty for an unknown dealership |
| Workforce.ListServiceBays | internal/appointments/adapters/workforce/stub_workforce_service.go:111-124 | The loop computes the filter of the dealership's bays |
| Workforce.IsOnDuty | internal/appointments/adapters/workforce/stub_workforce_service.go:129-137 | True if and only if every blackout is over when the window starts or begins when it has ended |
| Workforce.HoldsAllCertifications | internal/appointments/adapters/workforce/stub_workforce_service.go:139-152 | True if and only if the set of the required certifications is a subset of the technician's |
| Workforce.EligibleTechnicianIff | internal/appointments/adapters/workforce/stub_workforce_service.go:96-106 | A technician is listed if and only if some roster entry of theirs has the required certifications as a subset of the held ones and no blackout that reaches into the window |
| Workforce.EligibleBayIff | internal/appointments/adapters/workforce/stub_workforce_service.go:117-121 | A bay is listed if and only if some roster entry of it has no blackout that reaches into the window |
| Workforce.InServiceSharesNoInstant | internal/appointments/adapters/workforce/stub_workforce_service.go:126-137 | For non-empty blackouts and windows, none reaches into the window if and only if no instant is in both |
| Workforce.EligibleTechniciansKeepOrder | internal/appointments/adapters/workforce/stub_workforce_service.go:94-108 | The list is the roster with the unqualified positions struck out: roster order, each qualified entry once |
| Workforce.EligibleBaysKeepOrder | internal/appointments/adapters/workforce/stub_workforce_service.go:115-123 | The same for bays |
| Workforce.QualifiedPositions | internal/appointments/adapters/workforce/stub_workforce_service.go:96-106 | The reference for that order: strictly increasing, and containing a position if and only if its entry qualifies |
| Workforce.OpenPositions | internal/appointments/adapters/workforce/stub_workforce_service.go:117-121 | The reference for the order of bays |
| Database.JoinKeepsClass | internal/common/db.go:96-103 | An error joined with a rollback error is retried if and only if one of the two would be, and is the unique violation if and only if the first of the two to hold a driver's error is; a prefix of context changes neither |
| Database.ClassesAre | internal/common/db.go:68-121 | An error is retryable if and only if its text is something, "could not serialize access", and something; a driver's error is the key's unique violation if and only if its code is 23505 and its constraint uq_reservation_idempotency_key |
| Database.RefusalsArePermanent | internal/common/errors.go:25-36 | No refusal that a transaction can end with is ever retried or taken for a unique violation, whatever fields or expiry its text tells of |
| Database.UnknownServiceTypeIsRetryableIff | internal/appointments/adapters/catalog/stub_catalog_service.go:46-57 | For every table of printable characters: the error quoting the caller's service type reads as retryable if and only if the text has the phrase, its first letter possibly a character shown in hex that ends in c |
| Database.ServiceTypesThatMimic | internal/appointments/adapters/catalog/stub_catalog_service.go:46-57 | The inputs: the phrase itself, and the phrase with a file separator, or an unprintable zero-width non-joiner, for its first letter |
| Database.QuotedContains | internal/appointments/adapters/catalog/stub_catalog_service.go:49-53 | Quoting a text makes a plain phrase that begins with c stand in it exactly where the text has the phrase, or the rest of it after a character whose hex escape ends in c |
| Domain.Appointment.Confirm | internal/appointments/domain/appointment.go:77-92 | Mismatch, status, expiry are checked in that order; the status becomes confirmed if and only if the reservation is the appointment's, the status pending and the expiry still to come, and nothing else changes |
| Domain.Appointment.Cancel | internal/appointments/domain/appointment.go:94-109 | Already-cancelled, not-confirmed and in-the-past if and only if the status is cancelled, pending, or confirmed with a start that has passed; otherwise the status becomes cancelled, and nothing else changes |
| Domain.SettingsInForce | internal/appointments/domain/factory.go:30-236 | Whatever is configured, a positive setting is in force and any other is replaced by its default, in nanoseconds: a start is accepted if and only if it is from the minimum to the maximum lead time ahead (an hour and thirty days), refused as required, too soon or too late exactly as it is missing, before or after; a hold is made if and only if trimming leaves something of the key, and is live for the TTL (five minutes) |
| Domain.BuilderErrorsTell | internal/appointments/domain/factory.go:72-110 | The builder names exactly the fields that are missing and the start's own error, each once, in the order of the fields |
| Domain.BuildErrorsTell | internal/appointments/domain/factory.go:127-158 | Build names exactly the IDs that are missing and a duration that is not positive, each once, in the order of the fields |
| Domain.BlankIsTrimmedAway | internal/appointments/domain/factory.go:222-225 | A key is blank if and only if trimming Unicode's space characters, given by code point, from both ends leaves nothing |
| Domain.NewAppointmentBuilder | internal/appointments/domain/factory.go:72-110 | Fails exactly when some field is refused, with all the details in the code's order; else an empty builder over the data |
| Domain.AppointmentBuilder.Build | internal/appointments/domain/factory.go:127-174 | Fails exactly when a resource ID is empty or the duration is not positive, with all the details; else a fresh pending appointment over the builder's current fields |

## Left out

- HTTP handlers, the OpenAPI server and client, middlewares, logging, configuration, module wiring and `main`: plumbing.
- The reservation read model and the other read-only queries that no command uses.
- The pgx driver, the connection pool, contexts and timeouts; in particular a commit whose acknowledgement is lost is not modelled: an attempt commits or it does not.
- How Postgres implements SSI: only the guarantee for pairs of bookings is used, with conflicts taken row by row from the WHERE clause; the coarser conflicts it reports in practice are among the unexplained aborts.
- The back-off's intervals and jitter and its elapsed-time limit: kept are the bound of ten attempts, the classification of errors, and that the loop may give up early.
- UUIDv7's bits: a UUID is a number that was not issued before.
- Clock skew between Go and Postgres, and the rounding of nanoseconds to microseconds on the way into a TIMESTAMPTZ column.
- Review scores are reals, so there is no NaN and no rounding.
- `sort.Slice` is Go's, not the repository's: it appears as some descending permutation of the listed technicians, passed in as a parameter, so its in-place update of the slice is not captured.
- A technician shared between dealerships: the busy query is per dealership, so nothing is claimed across dealerships.
- A replay that arrives too late: the start-time check precedes the key lookup, so it may be refused; idempotency is stated for successful answers.
- What makes a vehicle valid, the trimming of its fields, the narrowing of the model year to 16 bits and the VARCHAR limits. That validation fails, or that the workforce or the catalog does, is an input of a call, and in a run the step that fails for no reason given.
- The roster and the catalog do not change during a run; the two lookups made concurrently are two calls in a row.
- Times in error texts are rendered in UTC. Go's table of printable characters beyond ASCII is a parameter. A string is one of Unicode characters, so bytes that are not UTF-8, which Go would quote as hex escapes, have no place in it; decoding the request's JSON leaves none.
- Repository.RequestBooking: takes the sorted list as an input, for the reason given for `sort.Slice`, and the outcomes of vehicle validation and of the two other services as inputs too.
- The isolation level is a guard of the protocol's commit step, not a parameter of the imperative retry loop, which takes the outcome of each attempt from outside.
- The cancel command answers only that it succeeded; the model also records for which appointment.
- The wording of errors: `Messages` has the texts because the retry loop reads them, and only what it reads in them is stated.
- Safety.NeverDoubleBooked: needs confirms to commit before their holds expire, because the code does not exclude double-booking otherwise; the deadline is proved exact by Deadlines.ConfirmDeadlineIsExact.
- Safety.DecisionStillRight: needs in addition that the booking commits before its own hold expires; the deadline is proved exact by Deadlines.CommitDeadlineIsExact.
- Atomic.InterleavingsAreAtomic: needs timely confirms for the same reason as Safety.NeverDoubleBooked; Atomic.InTimeRunsAreAtomic derives them.
- Refinement.BookingIsRun: an attempt that will be retried counts as aborted in the run from its snapshot on; the UUIDs it generated are not accounted for, since nothing keeps them.
