# Appointment booking: a verified model

A client books a consultation with a consultant. The consultant publishes working hours in a time
zone, the service turns them into slots, and several requests may write bookings at once on a
database without transactions. This project models the service in Dafny and proves what its
calendar, its reminders, its meetings and its logins keep.

How the parts build on each other:

- `Datetime` models instants, wall clocks and zones, and the loop that lists the days of a range.
  A zone is a pair of functions: wall time to instant (a skipped wall time moves forward) and
  instant to wall clock. What a theorem needs of the zone is a named hypothesis (`Coherent`,
  `PushesForward`, `BeginsOnce`, `MidnightsExist`, `NonContracting`). `FixedOffset` meets them all;
  `SpringForward` is a zone with a one-hour gap, which breaks some of them.
- `Availability` and `Sorting` model a schedule and its validation.
- `Slots` gives the declarative set of offered starts and proves that the nested loops return its
  ascending listing. `Listing` has its two uses, the public listing and the gate on writes, and
  `SlotTimes` says what both offer in hours, minutes and dates alone; `SlotLaws` and `Windows` hold
  the laws of spacing, filtering and composition.
- `Bookings` is the stored document, the unique index and the overlap query. `BookingProtocol`
  takes every request apart into atomic database steps that interleave freely; `DoubleBooking`
  says when no double booking can happen, `Sweeps` what the overlap sweep achieves whichever match
  its query returns, `InFlight` how many requests may be in flight before checks that are read first
  and written later give way, `Races` gives interleavings that double-book, and `CalendarSafety` and
  `Marks` join the protocol to real schedules.
- `BookingRequests` specifies the requests one at a time, with schedules, reminders and the
  lifecycle sweep; `BookingAnswers` says what each answers and leaves behind in ids, instants and
  statuses, and `Reminders` proves what the reminder queue keeps; `BookingService` is the
  stateful service proved against the specification, and `SequentialRuns` shows that each request,
  and each history of requests, is a run of the protocol.
- `Meetings`, `Lockout`, `Sessions` and `BookingLists` model conferences against a provider that
  may fail, login lockout, refresh-token rotation and pagination. `LoginRaces` and `RefreshRaces`
  take logins and refreshes apart into their reads and writes.

## Where the code does less than its documentation says

- `src/utils/datetime.ts:42` promises an inclusive list of days. The loop carries its cursor's wall
  time from day to day, so after a midnight that the clocks skip the cursor stands at 01:00 and the
  last day is dropped. `KeysCoverRangeIff` says exactly when the list is complete, and
  `AgreesIffMidnightsExist` and `WindowsComposeIff` what it costs: among ordinary zones, listing and
  gate agree, and windows compose, in exactly those that skip no midnight.
- `src/config/constants.ts:135-136` says the unique index makes double booking impossible. It does
  so for equal starts only. Under an unchanging schedule `SafeIffSpaced` names exactly the zones
  in which that is enough for every schedule of a slot length, and `SafeScheduleIff` names the single
  schedules. A spring-forward gap breaks it for 45-minute slots (`SpringForwardDoubleBooks`), and
  not for schedules kept on marks, such as half-hour slots on the half hour
  (`SpringForwardMarksSafe`).
- `docs/architecture.md:276-277` says the newer booking deletes itself when a lower id conflicts.
  The sweep asks for any one conflict. `PromiseKeptIff` says that the promise is kept, whatever the
  query returns, exactly when there are not conflicts with a smaller and a greater id both;
  `SweepSafeIff` and `ExposedIff` say when a sweep can leave a booking on a settled one: exactly
  when a settled conflict and a conflict with a greater id are there. A reschedule has no sweep at
  all (`MoveSafeIff`). `SettledAlwaysDisjointIff` extends the two to any interleaving,
  over all the answers its queries can return, `SettledNeverOverlap` gives three rules that suffice, and each of the three double-booking runs in
  `Races` keeps two of the rules and breaks the third.
- `src/queues/reminder.queue.ts:29-32` says that scheduling a reminder again replaces the previous
  one. Adding a job under an id that is still there changes nothing, so the reminder follows a
  reschedule exactly when the removal before it worked or there was none (`ReminderRightIff`);
  `StaleReminder` is a move from ten to eleven after which the reminder for ten is still pending.

- `docs/architecture.md:283` promises at most three reschedules, and `docs/architecture.md:266-268`
  that a client has no overlapping booking. Both are read before they are relied on by a later
  write. `LimitKeptIff` and `ClientsKeptIff` say that each holds in every interleaving exactly when
  at most one reschedule of a booking, or one create or reschedule of a client, is in flight at once;
  `FourthReschedule` and `TwoConsultantsDoubleBook` are the runs with two.
- The limit of five wrong passwords and the single unrevoked token of a session are read and written
  apart in the same way: `AtMostFiveIff` and `OneTokenAtRestIff` say exactly when they hold, and
  `WrongPasswordsBounded` and `LiveTokensBounded` what holds in every interleaving.

## Model

| member | source | states |
|---|---|---|
| Datetime.MinutesRoundTrip | src/utils/datetime.ts:9-18 | A minute of the day survives being written as `HH:mm` and read back |
| Datetime.TimeRoundTrip | src/utils/datetime.ts:9-18 | Every valid `HH:mm` string survives being read and written back |
| Datetime.WeekdayOf | src/utils/datetime.ts:26-28 | The first of January 1970 was a Thursday, and each day's weekday is the next one |
| Datetime.OverlapsIff | src/utils/datetime.ts:64-66 | Two stretches of positive length overlap exactly when they have an instant in common |
| Datetime.DateKeysBetween | src/utils/datetime.ts:43-54 | In a coherent zone the cursor loop ends, and returns each local day of the range once and in order, less the last day when the cursor overshoots its start |
| Datetime.CursorAtMidnight | src/utils/datetime.ts:48-51 | While no midnight is skipped the cursor stands at the start of each day |
| Datetime.CursorLate | src/utils/datetime.ts:48-51 | Once a midnight is skipped the cursor never gets back to midnight |
| Datetime.LastDayReachedIff | src/utils/datetime.ts:48-51 | The loop reaches the last day exactly when every midnight before it exists or the cursor comes with the very wall time at which that day begins; when that day has its midnight, exactly when every midnight before it exists |
| Datetime.KeysCoverRangeIff | src/utils/datetime.ts:42-54 | The promised inclusive list is returned exactly when the cursor arrives in time; when the last day has its midnight, exactly when no midnight before it is skipped |
| Datetime.KeysAfterSkipIff | src/utils/datetime.ts:48-51 | After a first skipped midnight whose wall time the later days have, the list is complete exactly when the last day begins at that very wall time |
| Datetime.SpringForwardKeysIff | src/utils/datetime.ts:42-54 | In a zone with one gap the list is short exactly when the gap is at midnight and the range goes from that day or an earlier one to a later one |
| Datetime.SkippedMidnightDropsADay | src/utils/datetime.ts:42-54 | A concrete zone and range for which the last day is missing |
| Datetime.FixedOffsetIsRegular | src/utils/datetime.ts:34-40 | A zone at a fixed offset meets every hypothesis on zones |
| Sorting.SortBySorts | src/services/slot.service.ts:123 | Sorting by a key permutes the list and orders it |
| Availability.OverlapCheckIff | src/validators/availability.validator.ts:112-118 | Sorting by start and comparing neighbours finds an overlap exactly when some two intervals of positive length overlap, in whatever order they are stored |
| Availability.ValidatedIff | src/validators/availability.validator.ts:21-94 | A schedule is saved exactly within the limits, with one entry a weekday, intervals disjoint pairwise, and blocks of whole days or of positive length |
| Slots.IntervalStep | src/services/slot.service.ts:92-118 | One turn of the innermost loop adds exactly the offset's start, and skips no multiple of the step |
| Slots.TryOffset | src/services/slot.service.ts:97-118 | An offset is kept exactly when unblocked, resolvable, inside the clamped window, unseen and clear of busy time; `seen` and `slots` stay in step |
| Slots.ScanInterval | src/services/slot.service.ts:88-119 | An interval contributes the start of every multiple of the step that leaves room for a slot and is accepted |
| Slots.ScanDay | src/services/slot.service.ts:83-120 | A day contributes what its intervals contribute, and nothing when it is blocked as a whole |
| Slots.FullDayOffersNothing | src/services/slot.service.ts:84-86 | Skipping a fully blocked day loses no offered start |
| Slots.IndexByWeekday | src/services/slot.service.ts:58-61 | The weekday map answers with the last entry for a weekday, or none |
| Slots.IndexByDate | src/services/slot.service.ts:63-71 | The block map answers with all blocks of a day, in order |
| Slots.StartsOfDay | src/services/slot.service.ts:77-121 | In a coherent zone the starts found on a day are exactly the offered instants of that local day |
| Slots.RangeStartsAreOffered | src/services/slot.service.ts:77-121 | What the loops collect over the enumerated days is the declarative set of offered starts |
| Slots.SortedCollection | src/services/slot.service.ts:110-123 | Sorting the collected slots gives each start once, in ascending order |
| Slots.GenerateSlots | src/services/slot.service.ts:47-124 | The result is the ascending listing of exactly the offered starts: on the grid, in the clamped window, clear of busy time, on an enumerated day |
| SlotTimes.OffersIff | src/services/slot.service.ts:73-118 | A minute of a day is offered exactly when it is a whole number of slots with buffers into an interval of the weekday's last entry, a slot still fits, no block of the day lacks a time, and the slot is over before or begins after each block |
| SlotTimes.GateOpenIff | src/services/slot.service.ts:168-181 | The gate takes an instant exactly when it resolves from an offered minute of a day, with its notice and within the horizon |
| SlotTimes.GeneratedIff | src/services/slot.service.ts:47-124 | A span is generated exactly when it has the slot's length, starts at such an instant in the range, and is over before or begins after every busy span, on an enumerated day |
| SlotTimes.PartDayBlock | src/services/slot.service.ts:195-204 | A block from ten to eleven closes the half-hour slots at ten and half past and not the one at eleven |
| Listing.SlotIff | src/services/slot.service.ts:47-124 | A span is in the generated list exactly when its start is offered and it lasts a slot |
| Listing.SlotsAscend | src/services/slot.service.ts:110-123 | Generated slots are strictly increasing |
| Listing.IsOfferedSlot | src/services/slot.service.ts:168-181 | The one-minute query accepts an instant exactly when it is on the grid with notice and within the horizon, and never fails through the day enumeration |
| Listing.FindBusy | src/services/slot.service.ts:142-149 | The busy list holds exactly the spans of the consultant's active bookings that touch the range |
| Listing.GetAvailableSlots | src/services/slot.service.ts:135-165 | Both range errors exactly when due; otherwise an ascending list of exactly the gate's instants in the range that no fetched booking overlaps, on enumerated days |
| Listing.ListingAgreesWithGate | src/services/slot.service.ts:135-181 | At the same moment the listing shows an instant exactly when the gate takes it and no fetched booking overlaps it; for a slot ending inside the range, no active booking at all |
| Listing.AllDaysEnumerated | src/services/slot.service.ts:77 | With no skipped midnight the enumeration misses no day of the window |
| SlotLaws.SameWeekdaySpacing | src/services/slot.service.ts:88-96 | Two different offers of a validated schedule on one weekday are a slot apart on the wall clock, in one interval or in two |
| SlotLaws.NonContractingIsSpaced | src/utils/datetime.ts:34-40 | A non-contracting zone keeps compatible wall times a slot apart |
| SlotLaws.GridSpacing | src/services/slot.service.ts:73-107 | Any two instants a validated schedule offers are at least a slot apart |
| SlotLaws.NonContractingGridDisjoint | src/services/slot.service.ts:73-107 | In a non-contracting zone offered slots leave room for each other |
| SlotLaws.SlotsNeverOverlap | src/services/slot.service.ts:88-123 | On a disjoint grid no generated slot begins before its predecessors end |
| SlotLaws.DisjointIffSpaced | src/services/slot.service.ts:73-107 | Every validated schedule of a slot length has disjoint slots exactly when the zone keeps compatible wall times a slot apart |
| SlotLaws.SpringForwardOverlaps | src/utils/datetime.ts:34-40 | 45-minute slots come too close across a one-hour spring-forward gap |
| Windows.BusyOnlyFilters | src/services/slot.service.ts:110-118 | More busy time gives the old list with the overlapping slots removed; no slot moves |
| Windows.WindowsCompose | src/services/slot.service.ts:51-123 | With no skipped midnight the slots of [a, e) are those of [a, b) followed by those of [b, e) |
| Windows.CursorOvershoots | src/utils/datetime.ts:48-51 | After a skipped midnight the cursor reaches the next day after its start |
| Windows.SkippedMidnightHidesSlot | src/services/slot.service.ts:77-121 | A schedule and a range that hide a slot the gate accepts and a later range shows |
| Windows.AgreesIffMidnightsExist | src/services/slot.service.ts:135-181 | In an ordinary zone (no two midnights in a row skipped, no two days longer than three), the empty calendar's listing agrees with the gate for every schedule, range and moment exactly when the zone skips no midnight |
| Windows.WindowsComposeIff | src/services/slot.service.ts:51-123 | In an ordinary zone, windows compose for every schedule, range and busy list exactly when the zone skips no midnight |
| Windows.OrdinaryZones | src/utils/datetime.ts:34-54 | The hypotheses of the two equivalences hold of zones of both kinds |
| Bookings.FindOverlappingBooking | src/services/booking.service.ts:496-512 | Some overlapping active booking of the owner other than the excluded one, or none exactly when there is none |
| BookingProtocol.RunSound | src/services/booking.service.ts:68-346 | Every interleaving keeps keys consistent and unique, parties fixed and ends in line with starts and durations |
| BookingProtocol.SlotKeyInEveryRun | src/models/Booking.ts:37-43 | In every interleaving, stale cancel saves included, a booking has a slot key exactly while it is active, and the key names its stored consultant and start |
| BookingProtocol.NoSharedStartInAnyRun | src/models/Booking.ts:138 | In every interleaving two active bookings of a consultant never share a start |
| BookingProtocol.NeverReactivated | src/services/booking.service.ts:204-210 | From any state on, a booking that is inactive or gone never becomes active again |
| BookingProtocol.NobodyBooksThemselves | src/services/booking.service.ts:83-86 | In every interleaving client and consultant of a booking are two people |
| DoubleBooking.NoOverlapUnderFixedSchedules | src/services/booking.service.ts:88-109 | With schedules whose starts are a slot apart and that do not change, no interleaving of creates, reschedules, cancels and completions makes two active bookings of a consultant overlap |
| DoubleBooking.OnlySweepsStandDown | src/services/booking.service.ts:457-467 | A request begins to stand down only at its own sweep, and only when that reports a match with a smaller id |
| DoubleBooking.OnlyStandingDownDeletes | src/services/booking.service.ts:464-467 | No other step removes a booking, and that one removes its own |
| DoubleBooking.DeletionJustified | src/services/booking.service.ts:457-467 | In any interleaving, reschedules and cancels included, every deleted booking had an active overlapping booking with a strictly smaller id at the sweep of its create |
| DoubleBooking.SmallestSurvives | src/services/booking.service.ts:457-469 | Among competing creates a booking no smaller id overlaps stays unchanged, in any order of ids and inserts and whichever match the sweeps report |
| DoubleBooking.NeverAllStandDown | src/services/booking.service.ts:457-469 | From every inserted booking a chain of overlaps with falling ids leads to one that stayed |
| DoubleBooking.SettledNeverOverlap | src/services/booking.service.ts:432-470 | With schedules changing at will, two settled active bookings of a consultant never overlap, if ids follow insertion order, sweeps report a lower overlap and nothing is rescheduled |
| Sweeps.SureToStandDownIff | src/services/booking.service.ts:457-467 | Whatever the query returns, a create stands down exactly when some match has a smaller id and none a greater |
| Sweeps.PromiseKeptIff | src/services/booking.service.ts:457-467 | Standing down before a smaller id is certain exactly when there are not matches on both sides |
| Sweeps.SweepSafeIff | src/services/booking.service.ts:457-469 | Whatever the query returns, a sweep keeps settled bookings disjoint exactly when its booking is not both on a settled one and free to stay |
| Sweeps.ExposedIff | src/services/booking.service.ts:457-469 | A booking as inserted is in that danger exactly when a settled match and a match with a greater id exist |
| Sweeps.MoveSafeIff | src/services/booking.service.ts:312-327 | One conditional update keeps settled bookings disjoint exactly when it does not move a settled booking onto another |
| Sweeps.SettledAlwaysDisjointIff | src/services/booking.service.ts:432-470 | An interleaving, reschedules and schedule changes included, keeps settled bookings disjoint throughout and under every answer its sweeps' queries can return, exactly when under none of those answers an exposed booking is swept or a settled booking moved onto another |
| InFlight.RescheduleLimit | src/services/booking.service.ts:290-326 | With at most n reschedules of a booking in flight at once, no interleaving passes the limit by more than n - 1 |
| InFlight.LimitKeptIff | src/services/booking.service.ts:290-326 | The limit of three holds in every interleaving with at most n reschedules of a booking in flight at once, exactly when n is at most one |
| InFlight.FourthReschedule | src/services/booking.service.ts:290-326 | A run in which two reschedules that both read a count of two leave a count of four |
| InFlight.StepClientsSafe | src/services/booking.service.ts:96-99 | With one create or reschedule of a client in flight, every step keeps clients' bookings disjoint and what was checked about a client true until its write |
| InFlight.ClientsKeptIff | src/services/booking.service.ts:484-494 | No client's active bookings overlap in every interleaving with at most n creates and reschedules of a client awaiting their write, exactly when n is at most one |
| InFlight.TwoConsultantsDoubleBook | src/services/booking.service.ts:96-99 | A run in which two creates of one client with two consultants are both stored at one time |
| Races.CloseStartsRace | src/services/booking.service.ts:88-109 | Two starts less than a slot apart can both be booked by two racing creates |
| Races.NoOverlapIffSpaced | src/services/booking.service.ts:88-109 | An unchanging schedule is safe in every interleaving exactly when its starts are a slot apart or its notice reaches its horizon, so that it takes no booking |
| Races.OutOfOrderIdsDoubleBook | src/services/booking.service.ts:440-467 | A run in which an id made early and inserted late leaves two settled bookings overlapping, though every sweep reports a lower match when there is one and nothing is rescheduled |
| Races.ArbitraryMatchDoubleBooks | src/services/booking.service.ts:457-511 | A run in which the sweep reports the later of two overlaps and keeps a booking over a settled one, though ids follow insertion and nothing is rescheduled |
| Races.RescheduleRaceDoubleBooks | src/services/booking.service.ts:308-327 | A run in which a reschedule checked before a create's insert lands on top of it, though ids follow insertion and sweeps report every lower match |
| CalendarSafety.GateIsOfferedSlot | src/services/slot.service.ts:168-181 | The protocol's gate is the slot gate |
| CalendarSafety.NeverDoubleBooked | src/services/booking.service.ts:88-109 | With one schedule per consultant, each validated in a non-contracting zone or kept on marks that its zone keeps, no interleaving double-books a consultant |
| CalendarSafety.SafeScheduleIff | src/services/booking.service.ts:88-109 | A schedule is safe in every interleaving exactly when its slots are disjoint or it takes no booking at all |
| CalendarSafety.SpringForwardMarksSafe | src/services/booking.service.ts:88-109 | A schedule on marks that divide the hour is safe in every interleaving across a one-hour gap |
| Marks.MarksGridDisjoint | src/services/slot.service.ts:73-107 | Slots of a schedule kept on marks are disjoint in every zone whose wall times on marks are whole marks apart |
| Marks.SpringForwardKeepsMarks | src/utils/datetime.ts:34-40 | A one-hour gap keeps every mark that divides the hour |
| CalendarSafety.SafeIffSpaced | src/services/booking.service.ts:88-109 | Every validated schedule of a slot length is safe in every interleaving exactly when the zone keeps compatible wall times a slot apart |
| CalendarSafety.SpringForwardDoubleBooks | src/services/booking.service.ts:88-109 | A validated schedule of 45-minute slots is not safe in a zone with a one-hour spring-forward gap |
| BookingRequests.CreateSafe | src/services/booking.service.ts:68-119 | A create, accepted or refused, keeps the calendar safe and the reminders in agreement |
| BookingRequests.CancelSafe | src/services/booking.service.ts:176-228 | A cancellation keeps the calendar safe, and the reminders in agreement when the removal works |
| BookingRequests.RescheduleSafe | src/services/booking.service.ts:273-346 | A reschedule keeps the calendar safe, and the reminders in agreement when the removal works |
| BookingRequests.HistorySafe | src/services/booking.service.ts:68-346 | Over any history of single requests and schedule changes, active bookings are disjoint per consultant and per client, ends match starts and durations, moves number at most three and keys match |
| BookingAnswers.CreateAnswers | src/services/booking.service.ts:72-107 | A create is refused for the first reason that applies, in the source's order and in terms of stored documents, and accepted when none does |
| BookingAnswers.RoleIff | src/services/booking.service.ts:514-525 | Client before consultant before administrator, by id; anybody else has no part in the booking |
| BookingAnswers.CancelAnswers | src/services/booking.service.ts:181-202 | A stranger is told there is no such booking and changes nothing; a client cancels with an hour's notice, others until the start; the role is the actor's |
| BookingAnswers.RescheduleAnswers | src/services/booking.service.ts:278-309 | The same for a reschedule, with three moves at most, another time, an offered slot and both parties free besides the booking itself |
| BookingAnswers.CreateLeaves | src/services/booking.service.ts:440-469 | An accepted create stores one confirmed booking of the slot's length under its key and changes no other |
| BookingAnswers.CancelLeaves | src/services/booking.service.ts:204-210 | A cancellation changes the booking's status and key and nothing else |
| BookingAnswers.RescheduleLeaves | src/services/booking.service.ts:311-326 | A reschedule moves the booking, its end, length and key, records the former start and counts itself |
| BookingAnswers.SweepLeaves | src/jobs/lifecycle.job.ts:33-39 | After the sweep no open booking has ended; exactly those became completed and lost their key |
| BookingAnswers.MailsIff | src/jobs/reminder.job.ts:17-75 | Client and then consultant are mailed exactly about an open booking that has not ended and whose participants are found |
| BookingAnswers.HistoryStatus | src/services/booking.service.ts:176-228 | Over any history a booking is cancelled exactly if it was once cancelled, completed exactly if a sweep found it ended, and confirmed otherwise |
| BookingRequests.HistoryRemembered | src/services/booking.service.ts:311-326 | Over any history a booking's count is the number of times its start has changed, and its previous start the one before the latest change |
| BookingRequests.ProtectionNeverFires | src/services/booking.service.ts:454-467 | In a sequential world neither the index nor the sweep ever refuses a create that passed its checks |
| BookingRequests.FreeLeavesKey | src/services/booking.service.ts:309-327 | In a safe calendar a time that is free has a key that is free |
| BookingRequests.MoveKeyFree | src/services/booking.service.ts:312-327 | In a sequential world the index never refuses a reschedule that passed its checks |
| BookingRequests.CreateThenCancelRestores | src/services/booking.service.ts:204-210 | A create and a permitted cancel of it give back the identical listing of every range at the same moment |
| Reminders.HistoryRemindersAgree | src/services/booking.service.ts:569-631 | While removals work, every pending reminder is for a booking not cancelled and fires 30 minutes before its stored start |
| Reminders.ServeComplete | src/services/booking.service.ts:569-631 | A request served on a clock that does not run backwards leaves no active booking without a reminder that still lies ahead |
| Reminders.HistoryReminded | src/services/booking.service.ts:569-631 | While removals work, each active booking of a history has its one pending reminder, 30 minutes before its stored start, until that moment |
| Reminders.FiringTakes | src/jobs/reminder.job.ts:15-24 | A due reminder leaves the queue, and only that one |
| Reminders.FiresOncePerStart | src/queues/reminder.queue.ts:29-35 | Over any history, whether or not removals work, a booking's reminder fires twice only if the booking was moved in between |
| Reminders.ReminderRightIff | src/queues/reminder.queue.ts:29-35 | After a reschedule the booking has the reminder its new start asks for exactly when the old one could be removed or there was none |
| Reminders.StaleReminder | src/queues/reminder.queue.ts:29-35 | An accepted reschedule from ten to eleven whose failed removal leaves the reminder for ten in place |
| BookingService.Service.GetAvailability | src/services/availability.service.ts:38-41 | The stored schedule, or a well-formed default under which nothing is bookable |
| BookingService.Service.InsertBooking | src/services/booking.service.ts:439-470 | The booking is stored, or the store is left as it was; refused under a taken key, kept when nothing overlaps, and withdrawn for certain when all overlaps have smaller ids |
| BookingService.Service.CreateBooking | src/services/booking.service.ts:68-119 | The answer and the new state are those of the specification, error by error, and the calendar stays safe |
| BookingService.Service.CancelBooking | src/services/booking.service.ts:176-228 | The answer and the new state are those of the specification, error by error, and the calendar stays safe |
| BookingService.Service.RescheduleBooking | src/services/booking.service.ts:273-346 | The answer and the new state are those of the specification, error by error, and the calendar stays safe |
| BookingService.Service.UpdateEnded | src/jobs/lifecycle.job.ts:33-39 | Document by document, in any order, exactly the ended active bookings are completed and lose their key |
| BookingService.Service.CompleteEndedBookings | src/jobs/lifecycle.job.ts:31-47 | The sweep keeps the calendar safe |
| BookingService.Service.UpdateAvailability | src/services/availability.service.ts:19-35 | A validated schedule replaces the old one and no booking becomes unsafe |
| BookingService.Service.RunReminder | src/jobs/reminder.job.ts:15-77 | Mails go out only about a booking active and unfinished at that moment, and not before 30 minutes ahead of its start while reminders agree |
| SequentialRuns.SameGate | src/services/booking.service.ts:88-91 | Both models put the same gate in front of a write |
| SequentialRuns.CreateIsProtocolRun | src/services/booking.service.ts:68-119 | A create request served alone, refused for its profile or not, leaves the store as the protocol's uninterrupted create does |
| SequentialRuns.CancelIsProtocolRun | src/services/booking.service.ts:176-228 | The same for a cancellation, a stranger's included |
| SequentialRuns.RescheduleIsProtocolRun | src/services/booking.service.ts:273-346 | The same for a reschedule, a stranger's included |
| SequentialRuns.CompleteRun | src/jobs/lifecycle.job.ts:33-39 | Completing documents one at a time, each as its own step, completes exactly the ended ones among them |
| SequentialRuns.HistoryIsProtocolRun | src/services/booking.service.ts:68-346 | Every world of a history is reached by one protocol run, request after request, the lifecycle sweep as single completions and a schedule update as a change of schedule |
| Meetings.JobsAccount | src/services/meeting.service.ts:22-142 | Every run of ensure, sync and cancel jobs keeps the account of live events, and a created meeting knows its live event and its calendar |
| Meetings.LiveEventsCounted | src/services/meeting.service.ts:22-142 | Live provider events number one for a created meeting, plus failed updates, plus failed deletes |
| Meetings.EnsureAfterSuccess | src/services/meeting.service.ts:28-32 | A created meeting has both external ids, and ensuring it again changes nothing and calls nobody |
| Meetings.CancelClearsIff | src/services/meeting.service.ts:114-142 | A cancel job leaves no live event exactly when no update or delete ever failed |
| Meetings.RetryAfterFailedUpdate | src/services/meeting.service.ts:91-110 | The retry after a failed update adds a second live event and forgets the first |
| Meetings.TimesFollowIff | src/services/meeting.service.ts:28-111 | After a sync the stored times are the booking's; after an ensure exactly unless a conference created for other times was left alone |
| Meetings.RetryRepairsIff | src/services/meeting.service.ts:174-182 | A retry offered to the participants ends the offer exactly when the provider is supported and makes the event, and adds that one event and no other |
| Meetings.StoredAsNoted | src/services/meeting.service.ts:49-53 | Over any run of jobs a created meeting has the calendar its event was made in, and the link given then or by the latest update of that event that brought one |
| Meetings.AttemptsCounted | src/services/meeting.service.ts:202-214 | Over any run the stored attempts are the failed jobs, and the provider was called for exactly the jobs that had to |
| Meetings.StatusTold | src/services/meeting.service.ts:22-142 | A failed job stores its message, cut to 300 characters, and a failed meeting; a successful one a created meeting and no message; a cancellation a cancelled one and no message |
| Meetings.MeetingService.EnsureMeetingForBooking | src/services/meeting.service.ts:22-65 | The job's new state is the specification's, and the account is kept |
| Meetings.MeetingService.SyncMeetingTimes | src/services/meeting.service.ts:68-111 | The job's new state is the specification's, and the account is kept |
| Meetings.MeetingService.CancelMeetingForBooking | src/services/meeting.service.ts:114-142 | The job's new state is the specification's, and the account is kept |
| Lockout.CounterStaysBelow | src/services/auth.service.ts:350-357 | Over any run the stored counter stays below five |
| Lockout.WindowBudget | src/services/auth.service.ts:168-180 | In a window of the lockout's length wrong passwords draw on a budget that a lock empties and only correct passwords and reactivations refill |
| Lockout.AtMostFivePerWindow | src/services/auth.service.ts:168-180 | Any 15-minute window compares at most five wrong passwords, four more per correct one and five more per reactivation |
| Lockout.AtMostFivePerWindowOverSpan | src/services/auth.service.ts:168-180 | A span of k windows compares at most 5k, with the same additions |
| Lockout.FiveInOneWindow | src/services/auth.service.ts:350-357 | The bound is reached |
| Lockout.LoginAnswers | src/services/auth.service.ts:164-180 | Suspended, then locked, then the password; with each answer's exact effect on counter and lock |
| Lockout.SuspendedUntilReactivated | src/services/auth.service.ts:164-166 | From a suspension to the next reactivation every login answers suspended, no password is compared, and counter and lock stay |
| Lockout.ReactivationRestores | src/services/admin-user.service.ts:118-125 | A reactivation restores a suspended account with a clean record and touches no other |
| Lockout.LockedUntilItEnds | src/services/auth.service.ts:168-172 | Until a lock runs out every login is refused, the right password included, and changes nothing |
| Lockout.FiveInARowLock | src/services/auth.service.ts:350-357 | Five wrong passwords in a row lock a clean account for exactly fifteen minutes from the fifth's save |
| LoginRaces.WrongPasswordsBounded | src/services/auth.service.ts:168-180 | In every interleaving within a window without a correct password or a reactivation, at most five wrong passwords are compared and four more for each login that began beside another |
| LoginRaces.AtMostFiveIff | src/services/auth.service.ts:350-357 | The bound of five holds in every interleaving with at most n such logins exactly when n is zero |
| LoginRaces.SixthComparison | src/services/auth.service.ts:350-357 | A run with one login beside another compares six |
| LoginRaces.AloneIsLogin | src/services/auth.service.ts:168-180 | A login nothing interrupts does to counter and lock what a whole login does |
| Lockout.User.TryLogin | src/services/auth.service.ts:157-180 | Suspension, lock, wrong and correct password in that order, each with its effect on the stored counter and lock |
| Lockout.User.ResetFailedAttempts | src/services/auth.service.ts:359-365 | Counter and lock are cleared, whether or not a write was needed |
| Sessions.ServeAllSound | src/services/auth.service.ts:198-348 | Every run of logins, refreshes, logouts, resets, suspensions and expiries keeps the token store sound |
| Sessions.OneLiveTokenPerSession | src/services/auth.service.ts:341-345 | At most one unrevoked token descends from each login |
| Sessions.LinksFormChains | src/services/auth.service.ts:341-345 | Replacement links never lead back to where they began, and a token replaces at most one other |
| Sessions.DeadStaysDead | src/services/auth.service.ts:206-215 | A token once issued and then revoked or deleted is never accepted again |
| Sessions.RotatedTokenRefused | src/services/auth.service.ts:206-225 | A token that was rotated is refused from then on, whatever happens in between |
| Sessions.ResetEndsEverySession | src/services/auth.service.ts:293-296 | A password reset leaves the user no token, and none the user held is accepted again |
| Sessions.AcceptedForSevenDays | src/services/auth.service.ts:206-221 | A token issued by a login or a rotation and unrevoked since is accepted exactly while its user is active and seven days have not passed; presented later it is refused and deleted |
| Sessions.RefusedUnlessLive | src/services/auth.service.ts:202-210 | A missing, unknown or revoked token is refused at any time and nothing changes |
| Sessions.RotationHandsOver | src/services/auth.service.ts:332-345 | An accepted refresh adds one token of the same user and session, revokes and links the old one, and touches no other |
| Sessions.SuspendedHasNoToken | src/services/admin-user.service.ts:91-94 | From a suspension to the next reactivation the user has no token, whatever is tried |
| Sessions.LoginStartsSessionIff | src/services/auth.service.ts:164-194 | A login starts a session of its own exactly for a user who is not suspended |
| Sessions.LeftAfter | src/services/auth.service.ts:227-296 | Logout leaves all other tokens, a reset or a suspension those of other users, expiry those that have not run out |
| RefreshRaces.LiveTokensBounded | src/services/auth.service.ts:206-223 | In every interleaving a session has at most one unrevoked token, one more for each refresh begun beside another, and one for each that has issued and is yet to revoke |
| RefreshRaces.OneTokenAtRestIff | src/services/auth.service.ts:332-345 | With nothing in flight a session has one unrevoked token at most, in every interleaving with at most n such refreshes, exactly when n is zero |
| RefreshRaces.TwoRefreshes | src/services/auth.service.ts:332-345 | A run in which two refreshes of one token leave two |
| RefreshRaces.AloneIsRotation | src/services/auth.service.ts:206-223 | A refresh nothing interrupts replaces the token it presented by a new one |
| RefreshRaces.DeletedForGood | src/services/auth.service.ts:227-233 | A deleted token is never unrevoked again, whatever is in flight |
| Sessions.TokenStore.IssueTokens | src/services/auth.service.ts:323-348 | The new token is stored and the previous one, if any, revoked and linked to it |
| Sessions.TokenStore.RefreshTokens | src/services/auth.service.ts:198-225 | Each refusal in order, an expired token deleted, and the store stays sound |
| Sessions.TokenStore.LogOut | src/services/auth.service.ts:227-233 | The presented token alone is deleted |
| BookingLists.ScopesPartitionIff | src/services/booking.service.ts:130-139 | Upcoming and past are together all bookings of the requested status, or all without one, and share one exactly when that status is an inactive one and the booking has not started |
| BookingLists.UpcomingIff | src/services/booking.service.ts:131-139 | Upcoming bookings have not started and have the requested status, or an active one without it |
| BookingLists.PagesPartition | src/services/booking.service.ts:141-149 | All pages together list every element once and in order |
| BookingLists.PagesFull | src/services/booking.service.ts:141-149 | Every page but the last is full |
| BookingLists.ListPage | src/services/booking.service.ts:141-157 | A requested page is clamped to an existing one, which is empty only when there is nothing to show |

## Left out

Modelled more abstractly than in the code:

- Slots.GenerateSlots: does not cover a zone that once skipped a whole calendar day, nor one whose
  local date ran backwards at a fall-back just after midnight; what is said of bookings, histories
  and interleavings does.
- Time zones: the IANA database and the date library are replaced by a zone with named hypotheses.
  Wall times have minute or millisecond resolution, and calendar days are day numbers, not
  `YYYY-MM-DD` strings.
- The slot key is the pair of consultant and start instead of their text, and ids are natural
  numbers ordered like the 24 hexadecimal digits they stand for.
- MongoDB is a map with atomic single-document operations and one unique sparse index; a query for
  one document returns any match. Redis and BullMQ are a map of pending jobs by id. That a finished
  job still holds its id until it is trimmed is not modelled, nor is an insertion into the queue
  that fails after the booking was written.
- A request reads the clock once, and a second time when it schedules its reminder. Lookups of the
  profile and of the mail recipients are parameters.
- Meetings: each job is atomic and its provider outcomes are parameters. A create that fails leaves
  no event, and saving the meeting does not fail. Event ids are never issued twice. That the queued
  job retries, or that a create job may run after the cancel job, appears only as an order of jobs.
- `Lockout` and `Sessions` take logins and refreshes as atomic requests. `LoginRaces` and
  `RefreshRaces` take them apart, for one account within a window shorter than a lockout and for one
  session. Refresh-token hashes are fresh values.
- A login of `Sessions` stands for one whose password and verified address let it get as far as
  issuing tokens; verifying the address is left out.
- Bookings.FindOverlappingBooking: does not model errors of the database.

Claims the code does not support, and which are therefore made only under their exact conditions:

- Disjoint bookings of one client, and the limit of three moves, when requests interleave
  (`InFlight`).
- Settled bookings disjoint when a reschedule races a create after a schedule change; `Races` has
  the run and `SettledAlwaysDisjointIff` the condition.

Not modelled, because only easy properties are at stake or the code is a foreign call:

- Routing, controllers, middleware, request parsing and rate limits.
- Google clients, OAuth, encryption, JSON web tokens, password hashing and mail verification.
- Mail templates, logging, audit records, response shapes, price proration and dashboards.
- The consultant profile workflow, reports, specializations, user deletion and the role and query
  filters of the listings.
