/** The conference of a booking, kept against a provider that may fail
    (src/services/meeting.service.ts). */
module Meetings {
  import opened Wrappers

  datatype MeetingStatus = Pending | Created | Failed | Cancelled

  datatype Provider = GoogleMeet | Zoom

  datatype Meeting = Meeting(
    provider: Provider,
    status: MeetingStatus,
    externalMeetingId: Option<nat>,
    externalCalendarId: Option<nat>,
    meetingUrl: Option<string>,
    startTime: int,
    endTime: int,
    lastError: Option<string>,
    attempts: nat)

  /** What the jobs read of the booking. */
  datatype BookingView = BookingView(provider: Provider, startAt: int, endAt: int)

  datatype CreateOutcome = Made(eventId: nat, calendarId: nat, url: Option<string>) | NotMade(message: string)

  datatype UpdateOutcome = Updated(newUrl: Option<string>) | NotUpdated(message: string)

  datatype DeleteOutcome = Deleted | NotDeleted

  /** The stored meeting, and a record of the provider: the live calendar events, every event id
      it ever issued, the calls made to it, and the updates and deletes that failed. */
  datatype World = World(
    meeting: Option<Meeting>,
    live: set<nat>,
    issued: set<nat>,
    calls: nat,
    failedUpdates: nat,
    failedDeletes: nat)

  const ERROR_MAX_LENGTH := 300

  predicate Supported(p: Provider) {
    p.GoogleMeet?
  }

  function Truncate(message: string): string {
    if |message| <= ERROR_MAX_LENGTH then message else message[..ERROR_MAX_LENGTH]
  }

  function RecordFailure(m: Meeting, message: string): Meeting {
    m.(status := Failed, lastError := Some(Truncate(message)), attempts := m.attempts + 1)
  }

  /** An existing record with the booking's times and provider, or a new pending one. */
  function Upsert(meeting: Option<Meeting>, b: BookingView): Meeting {
    match meeting
    case Some(m) => m.(startTime := b.startAt, endTime := b.endAt, provider := b.provider)
    case None => Meeting(b.provider, Pending, None, None, None, b.startAt, b.endAt, None, 0)
  }

  const UNSUPPORTED := "ZOOM meetings are not supported yet."

  const NO_ADAPTER := "No meeting adapter is registered for ZOOM."

  /** An existing conference is left alone, changed times and all. */
  function Ensure(w: World, booking: Option<BookingView>, outcome: CreateOutcome): World {
    if booking.None? then w
    else
      var m := Upsert(w.meeting, booking.value);
      if m.status.Created? && m.externalMeetingId.Some? then w
      else if !Supported(booking.value.provider) then w.(meeting := Some(RecordFailure(m, UNSUPPORTED)))
      else
        match outcome
        case NotMade(message) =>
          w.(meeting := Some(RecordFailure(m, message)), calls := w.calls + 1)
        case Made(event, calendar, url) =>
          w.(meeting := Some(m.(status := Created, externalMeetingId := Some(event),
               externalCalendarId := Some(calendar), meetingUrl := url, lastError := None)),
             live := w.live + {event}, issued := w.issued + {event}, calls := w.calls + 1)
  }

  function Sync(w: World, booking: Option<BookingView>, update: UpdateOutcome, create: CreateOutcome): World {
    if booking.None? then w
    else if w.meeting.None? then Ensure(w, booking, create)
    else
      var m := w.meeting.value.(startTime := booking.value.startAt, endTime := booking.value.endAt);
      if !m.status.Created? || m.externalMeetingId.None? || m.externalCalendarId.None?
      then Ensure(w.(meeting := Some(m)), booking, create)
      else if !Supported(booking.value.provider)
      then w.(meeting := Some(RecordFailure(m, NO_ADAPTER)), failedUpdates := w.failedUpdates + 1)
      else
        match update
        case Updated(url) =>
          w.(meeting := Some(m.(meetingUrl := if url.Some? then url else m.meetingUrl, lastError := None)),
             calls := w.calls + 1)
        case NotUpdated(message) =>
          w.(meeting := Some(RecordFailure(m, message)), calls := w.calls + 1,
             failedUpdates := w.failedUpdates + 1)
  }

  /** Tries to delete the event of a created meeting; the meeting is cancelled either way. */
  function Cancel(w: World, booking: Option<BookingView>, outcome: DeleteOutcome): World {
    if booking.None? || w.meeting.None? then w
    else
      var m := w.meeting.value;
      var w' := w.(meeting := Some(m.(status := Cancelled, lastError := None)));
      if !(m.status.Created? && m.externalMeetingId.Some?) then w'
      else if !Supported(booking.value.provider) then w'.(failedDeletes := w.failedDeletes + 1)
      else if outcome.Deleted?
      then w'.(live := w.live - {m.externalMeetingId.value}, calls := w.calls + 1)
      else w'.(calls := w.calls + 1, failedDeletes := w.failedDeletes + 1)
  }

  datatype Job =
    | EnsureJob(booking: Option<BookingView>, create: CreateOutcome)
    | SyncJob(booking: Option<BookingView>, update: UpdateOutcome, create: CreateOutcome)
    | CancelJob(booking: Option<BookingView>, delete: DeleteOutcome)

  function Perform(w: World, job: Job): World {
    match job
    case EnsureJob(booking, create) => Ensure(w, booking, create)
    case SyncJob(booking, update, create) => Sync(w, booking, update, create)
    case CancelJob(booking, delete) => Cancel(w, booking, delete)
  }

  function PerformAll(w: World, jobs: seq<Job>): World
    decreases |jobs|
  {
    if jobs == [] then w else PerformAll(Perform(w, jobs[0]), jobs[1..])
  }

  predicate FreshOutcome(w: World, outcome: CreateOutcome) {
    outcome.Made? ==> outcome.eventId !in w.issued
  }

  /** The provider never issues an event id twice. */
  predicate FreshEvents(w: World, jobs: seq<Job>)
    decreases |jobs|
  {
    jobs == [] || (
      && (jobs[0].EnsureJob? || jobs[0].SyncJob? ==> FreshOutcome(w, jobs[0].create))
      && FreshEvents(Perform(w, jobs[0]), jobs[1..]))
  }

  // ----- Accounting ---------------------------------------------------------------------------

  predicate IsCreated(w: World) {
    w.meeting.Some? && w.meeting.value.status.Created?
  }

  /** Live events are the created meeting's, plus one for each update or delete that failed. */
  predicate Accounts(w: World) {
    && w.live <= w.issued
    && (IsCreated(w) ==>
          && w.meeting.value.externalMeetingId.Some? && w.meeting.value.externalCalendarId.Some?
          && w.meeting.value.externalMeetingId.value in w.live)
    && |w.live| == (if IsCreated(w) then 1 else 0) + w.failedUpdates + w.failedDeletes
    && (w.meeting.Some? ==> (w.meeting.value.lastError.Some? <==> w.meeting.value.status.Failed?))
  }

  const EMPTY := World(None, {}, {}, 0, 0, 0)

  lemma EnsureAccounts(w: World, booking: Option<BookingView>, outcome: CreateOutcome)
    requires Accounts(w) && FreshOutcome(w, outcome)
    ensures Accounts(Ensure(w, booking, outcome))
  {
  }

  lemma UpdateAccounts(w: World, b: BookingView, update: UpdateOutcome, create: CreateOutcome)
    requires Accounts(w) && IsCreated(w)
    ensures Accounts(Sync(w, Some(b), update, create))
  {
  }

  lemma SyncAccounts(w: World, booking: Option<BookingView>, update: UpdateOutcome, create: CreateOutcome)
    requires Accounts(w) && FreshOutcome(w, create)
    ensures Accounts(Sync(w, booking, update, create))
  {
    if booking.Some? && w.meeting.Some? {
      if IsCreated(w) {
        UpdateAccounts(w, booking.value, update, create);
      } else {
        var m := w.meeting.value.(startTime := booking.value.startAt, endTime := booking.value.endAt);
        EnsureAccounts(w.(meeting := Some(m)), booking, create);
      }
    } else {
      EnsureAccounts(w, booking, create);
    }
  }

  lemma CancelAccounts(w: World, booking: Option<BookingView>, outcome: DeleteOutcome)
    requires Accounts(w)
    ensures Accounts(Cancel(w, booking, outcome))
  {
  }

  lemma JobAccounts(w: World, job: Job)
    requires Accounts(w) && (!job.CancelJob? ==> FreshOutcome(w, job.create))
    ensures Accounts(Perform(w, job))
  {
    match job
    case EnsureJob(booking, create) => EnsureAccounts(w, booking, create);
    case SyncJob(booking, update, create) => SyncAccounts(w, booking, update, create);
    case CancelJob(booking, delete) => CancelAccounts(w, booking, delete);
  }

  lemma {:induction false} JobsAccount(w: World, jobs: seq<Job>)
    requires Accounts(w) && FreshEvents(w, jobs)
    ensures Accounts(PerformAll(w, jobs))
    decreases |jobs|
  {
    if jobs != [] {
      JobAccounts(w, jobs[0]);
      JobsAccount(Perform(w, jobs[0]), jobs[1..]);
    }
  }

  /** Over any run of jobs the live events of a booking number one for a created meeting, plus
      the failed updates, plus the failed deletes. */
  lemma LiveEventsCounted(jobs: seq<Job>)
    requires FreshEvents(EMPTY, jobs)
    ensures var w := PerformAll(EMPTY, jobs);
      |w.live| == (if IsCreated(w) then 1 else 0) + w.failedUpdates + w.failedDeletes
  {
    JobsAccount(EMPTY, jobs);
  }

  /** A created meeting always knows its event, so ensuring it again does nothing at all. */
  lemma EnsureAfterSuccess(jobs: seq<Job>, booking: Option<BookingView>, outcome: CreateOutcome)
    requires FreshEvents(EMPTY, jobs) && IsCreated(PerformAll(EMPTY, jobs))
    ensures var w := PerformAll(EMPTY, jobs);
      && w.meeting.value.externalMeetingId.Some? && w.meeting.value.externalCalendarId.Some?
      && Ensure(w, booking, outcome) == w
  {
    JobsAccount(EMPTY, jobs);
  }

  /** A cancel job leaves the calendar empty exactly when no update or delete ever failed. */
  lemma CancelClearsIff(jobs: seq<Job>, booking: BookingView, outcome: DeleteOutcome)
    requires FreshEvents(EMPTY, jobs) && PerformAll(EMPTY, jobs).meeting.Some?
    ensures var w := Cancel(PerformAll(EMPTY, jobs), Some(booking), outcome);
      w.live == {} <==> w.failedUpdates == 0 && w.failedDeletes == 0
  {
    JobsAccount(EMPTY, jobs);
    CancelAccounts(PerformAll(EMPTY, jobs), Some(booking), outcome);
  }

  /** A failed update leaves its event behind: the retry that follows makes a second one. */
  lemma RetryAfterFailedUpdate(w: World, b: BookingView, message: string, create: CreateOutcome)
    requires Accounts(w) && IsCreated(w) && Supported(b.provider)
    requires create.Made? && create.eventId !in w.issued
    ensures var w' := Ensure(Sync(w, Some(b), NotUpdated(message), create), Some(b), create);
      && IsCreated(w') && w'.live == w.live + {create.eventId} && |w'.live| == |w.live| + 1
      && w.meeting.value.externalMeetingId.value in w'.live
  {
  }

  predicate AtTimes(w: World, b: BookingView) {
    w.meeting.Some? && w.meeting.value.startTime == b.startAt && w.meeting.value.endTime == b.endAt
  }

  /** After a sync the stored times are the booking's, come what may of the provider; after an
      ensure they are unless a conference created for other times was left alone. */
  lemma TimesFollowIff(w: World, b: BookingView, update: UpdateOutcome, create: CreateOutcome)
    requires Accounts(w)
    ensures AtTimes(Sync(w, Some(b), update, create), b)
    ensures AtTimes(Ensure(w, Some(b), create), b) <==> !IsCreated(w) || AtTimes(w, b)
  {
  }

  /** Whether the participants are offered to have the conference created again. */
  predicate IsRetryable(meeting: Option<Meeting>, active: bool, ended: bool) {
    active && !ended && (meeting.None? || meeting.value.status.Pending? || meeting.value.status.Failed?)
  }

  /** After any run of jobs, a retry settles the matter exactly when the provider is supported
      and makes the event; it then adds just that event, and otherwise none. */
  lemma RetryRepairsIff(jobs: seq<Job>, b: BookingView, active: bool, ended: bool, outcome: CreateOutcome)
    requires FreshEvents(EMPTY, jobs) && FreshOutcome(PerformAll(EMPTY, jobs), outcome)
    requires IsRetryable(PerformAll(EMPTY, jobs).meeting, active, ended)
    ensures var w := PerformAll(EMPTY, jobs); var w' := Ensure(w, Some(b), outcome);
      && (!IsRetryable(w'.meeting, active, ended) <==> Supported(b.provider) && outcome.Made?)
      && |w'.live| == |w.live| + if IsRetryable(w'.meeting, active, ended) then 0 else 1
  {
    JobsAccount(EMPTY, jobs);
    EnsureAccounts(PerformAll(EMPTY, jobs), Some(b), outcome);
  }

  // ----- What is stored, against what the provider was asked and said ------------------------

  /** The job asks the provider for a new event. */
  predicate AsksCreate(w: World, job: Job) {
    && !job.CancelJob? && job.booking.Some? && job.booking.value.provider == GoogleMeet
    && !IsCreated(w)
  }

  /** The job asks the provider to move the created meeting's event. */
  predicate AsksUpdate(w: World, job: Job) {
    job.SyncJob? && job.booking.Some? && job.booking.value.provider == GoogleMeet && IsCreated(w)
  }

  predicate AsksDelete(w: World, job: Job) {
    job.CancelJob? && job.booking.Some? && job.booking.value.provider == GoogleMeet && IsCreated(w)
  }

  /** No adapter serves the booking's provider, and the job needs one. */
  predicate Unserved(w: World, job: Job) {
    && job.booking.Some? && job.booking.value.provider != GoogleMeet
    && match job
       case EnsureJob(_, _) => !IsCreated(w)
       case SyncJob(_, _, _) => true
       case CancelJob(_, _) => IsCreated(w)
  }

  /** The calendar an event was made in, and the latest link the provider gave for it. */
  datatype Conference = Conference(calendarId: nat, url: Option<string>)

  /** Everything the provider has said, by event. */
  function Noted(w: World, job: Job, notes: map<nat, Conference>): map<nat, Conference> {
    if AsksCreate(w, job) && job.create.Made? then
      notes[job.create.eventId := Conference(job.create.calendarId, job.create.url)]
    else if AsksUpdate(w, job) && job.update.Updated? && job.update.newUrl.Some?
      && w.meeting.value.externalMeetingId.Some? && w.meeting.value.externalMeetingId.value in notes then
      var event := w.meeting.value.externalMeetingId.value;
      notes[event := notes[event].(url := job.update.newUrl)]
    else notes
  }

  function NotedAll(w: World, jobs: seq<Job>, notes: map<nat, Conference>): map<nat, Conference>
    decreases |jobs|
  {
    if jobs == [] then notes else NotedAll(Perform(w, jobs[0]), jobs[1..], Noted(w, jobs[0], notes))
  }

  /** A created meeting stores the calendar and the link that belong to its event. */
  predicate AsNoted(w: World, notes: map<nat, Conference>) {
    IsCreated(w) ==>
      && w.meeting.value.externalMeetingId.Some? && w.meeting.value.externalMeetingId.value in notes
      && var conference := notes[w.meeting.value.externalMeetingId.value];
         && w.meeting.value.externalCalendarId == Some(conference.calendarId)
         && w.meeting.value.meetingUrl == conference.url
  }

  lemma EnsureNoted(w: World, booking: Option<BookingView>, create: CreateOutcome, notes: map<nat, Conference>)
    requires Accounts(w) && AsNoted(w, notes)
    ensures AsNoted(Ensure(w, booking, create), Noted(w, EnsureJob(booking, create), notes))
  {
  }

  lemma UpdateNoted(w: World, job: Job, notes: map<nat, Conference>)
    requires Accounts(w) && AsNoted(w, notes) && job.SyncJob? && IsCreated(w)
    ensures AsNoted(Perform(w, job), Noted(w, job, notes))
  {
  }

  lemma SyncNoted(w: World, job: Job, notes: map<nat, Conference>)
    requires Accounts(w) && AsNoted(w, notes) && job.SyncJob? && !IsCreated(w)
    ensures AsNoted(Perform(w, job), Noted(w, job, notes))
  {
  }

  lemma NotedNext(w: World, job: Job, notes: map<nat, Conference>)
    requires Accounts(w) && AsNoted(w, notes)
    ensures AsNoted(Perform(w, job), Noted(w, job, notes))
  {
    match job
    case EnsureJob(booking, create) => EnsureNoted(w, booking, create, notes);
    case SyncJob(_, _, _) =>
      if IsCreated(w) {
        UpdateNoted(w, job, notes);
      } else {
        SyncNoted(w, job, notes);
      }
    case CancelJob(_, _) =>
  }

  lemma {:induction false} AllNoted(w: World, jobs: seq<Job>, notes: map<nat, Conference>)
    requires Accounts(w) && FreshEvents(w, jobs) && AsNoted(w, notes)
    ensures AsNoted(PerformAll(w, jobs), NotedAll(w, jobs, notes))
    decreases |jobs|
  {
    if jobs != [] {
      JobAccounts(w, jobs[0]);
      NotedNext(w, jobs[0], notes);
      AllNoted(Perform(w, jobs[0]), jobs[1..], Noted(w, jobs[0], notes));
    }
  }

  /** Over any run of jobs a created meeting's calendar is the one its event was made in, and its
      link the one given then, or the one from the latest update of that event that brought one. */
  lemma StoredAsNoted(jobs: seq<Job>)
    requires FreshEvents(EMPTY, jobs)
    ensures AsNoted(PerformAll(EMPTY, jobs), NotedAll(EMPTY, jobs, map[]))
  {
    AllNoted(EMPTY, jobs, map[]);
  }

  /** A job fails when the provider does, or when there is none to ask; a cancellation does not. */
  predicate Fails(w: World, job: Job) {
    && !job.CancelJob?
    && (Unserved(w, job) || (AsksCreate(w, job) && job.create.NotMade?) || (AsksUpdate(w, job) && job.update.NotUpdated?))
  }

  predicate FailsUpdate(w: World, job: Job) {
    job.SyncJob? && IsCreated(w) && Fails(w, job)
  }

  predicate FailsDelete(w: World, job: Job) {
    job.CancelJob? && (Unserved(w, job) || (AsksDelete(w, job) && job.delete.NotDeleted?))
  }

  predicate Calls(w: World, job: Job) {
    AsksCreate(w, job) || AsksUpdate(w, job) || AsksDelete(w, job)
  }

  /** How many jobs of a run made a call, failed, failed to update and failed to delete. */
  datatype Tally = Tally(calls: nat, failures: nat, updates: nat, deletes: nat)

  function One(b: bool): nat {
    if b then 1 else 0
  }

  function TallyOf(w: World, jobs: seq<Job>): Tally
    decreases |jobs|
  {
    if jobs == [] then Tally(0, 0, 0, 0)
    else
      var job, rest := jobs[0], TallyOf(Perform(w, jobs[0]), jobs[1..]);
      Tally(One(Calls(w, job)) + rest.calls, One(Fails(w, job)) + rest.failures,
        One(FailsUpdate(w, job)) + rest.updates, One(FailsDelete(w, job)) + rest.deletes)
  }

  function Attempts(w: World): nat {
    if w.meeting.Some? then w.meeting.value.attempts else 0
  }

  lemma Tallied(w: World, job: Job)
    requires Accounts(w)
    ensures var w' := Perform(w, job);
      && w'.calls == w.calls + One(Calls(w, job))
      && Attempts(w') == Attempts(w) + One(Fails(w, job))
      && w'.failedUpdates == w.failedUpdates + One(FailsUpdate(w, job))
      && w'.failedDeletes == w.failedDeletes + One(FailsDelete(w, job))
  {
  }

  lemma {:induction false} AllTallied(w: World, jobs: seq<Job>)
    requires Accounts(w) && FreshEvents(w, jobs)
    ensures var w', t := PerformAll(w, jobs), TallyOf(w, jobs);
      && w'.calls == w.calls + t.calls && Attempts(w') == Attempts(w) + t.failures
      && w'.failedUpdates == w.failedUpdates + t.updates && w'.failedDeletes == w.failedDeletes + t.deletes
    decreases |jobs|
  {
    if jobs != [] {
      Tallied(w, jobs[0]);
      JobAccounts(w, jobs[0]);
      AllTallied(Perform(w, jobs[0]), jobs[1..]);
    }
  }

  /** Over any run the stored attempts are the failures, and the provider was called for the jobs
      that had to and for no others. */
  lemma AttemptsCounted(jobs: seq<Job>)
    requires FreshEvents(EMPTY, jobs)
    ensures var w, t := PerformAll(EMPTY, jobs), TallyOf(EMPTY, jobs);
      && w.calls == t.calls && Attempts(w) == t.failures
      && w.failedUpdates == t.updates && w.failedDeletes == t.deletes
  {
    AllTallied(EMPTY, jobs);
  }

  /** The stored text is the start of the message, 300 characters at most and all of a shorter one. */
  predicate Cut(text: string, message: string) {
    text <= message && |text| == if |message| < 300 then |message| else 300
  }

  /** A failed job leaves its message and a retryable meeting; a job that made or moved the event
      leaves a created one and no message; a cancellation leaves a cancelled one and no message. */
  lemma StatusTold(w: World, job: Job)
    requires Accounts(w) && job.booking.Some?
    ensures var w' := Perform(w, job);
      && (Fails(w, job) ==> w'.meeting.Some? && w'.meeting.value.status == MeetingStatus.Failed)
      && (Fails(w, job) ==> w'.meeting.value.lastError.Some?)
      && (Fails(w, job) && Unserved(w, job) ==> w'.meeting.value.lastError == Some(
            if IsCreated(w) then "No meeting adapter is registered for ZOOM."
            else "ZOOM meetings are not supported yet."))
      && (!job.CancelJob? && !IsCreated(w) ==> w'.meeting.value.provider == job.booking.value.provider)
      && (AsksCreate(w, job) && job.create.NotMade? ==> Cut(w'.meeting.value.lastError.value, job.create.message))
      && (AsksUpdate(w, job) && job.update.NotUpdated? ==> Cut(w'.meeting.value.lastError.value, job.update.message))
      && (!job.CancelJob? && !Fails(w, job) ==> IsCreated(w') && w'.meeting.value.lastError == None)
      && (job.CancelJob? && w.meeting.Some? ==>
            w'.meeting == Some(w.meeting.value.(status := MeetingStatus.Cancelled, lastError := None)))
      && (job.CancelJob? && w.meeting.None? ==> w' == w)
  {
  }

  /** A job for a booking that is gone does nothing. */
  lemma NoBookingNoJob(w: World, job: Job)
    requires job.booking.None?
    ensures Perform(w, job) == w
  {
  }

  /** The jobs as methods on the stored meeting. */
  class MeetingService {
    var meeting: Option<Meeting>
    ghost var live: set<nat>
    ghost var issued: set<nat>
    ghost var calls: nat
    ghost var failedUpdates: nat
    ghost var failedDeletes: nat

    ghost function State(): World
      reads this
    {
      World(meeting, live, issued, calls, failedUpdates, failedDeletes)
    }

    constructor ()
      ensures State() == EMPTY
    {
      meeting := None;
      live, issued, calls, failedUpdates, failedDeletes := {}, {}, 0, 0, 0;
    }

    method SaveFailure(m: Meeting, message: string)
      modifies this`meeting
      ensures meeting == Some(RecordFailure(m, message))
    {
      var stored := m.(status := Failed, lastError := Some(Truncate(message)));
      meeting := Some(stored.(attempts := stored.attempts + 1));
    }

    method EnsureMeetingForBooking(booking: Option<BookingView>, outcome: CreateOutcome)
      modifies this
      ensures State() == Ensure(old(State()), booking, outcome)
      ensures Accounts(old(State())) && FreshOutcome(old(State()), outcome) ==> Accounts(State())
    {
      if Accounts(State()) && FreshOutcome(State(), outcome) {
        EnsureAccounts(State(), booking, outcome);
      }
      if booking.None? {
        return;
      }
      var b := booking.value;
      var m := Upsert(meeting, b);
      if m.status.Created? && m.externalMeetingId.Some? {
        return;
      }
      if !Supported(b.provider) {
        SaveFailure(m, UNSUPPORTED);
        return;
      }
      calls := calls + 1;
      match outcome {
        case Made(event, calendar, url) =>
          live, issued := live + {event}, issued + {event};
          m := m.(status := Created, externalMeetingId := Some(event), externalCalendarId := Some(calendar));
          m := m.(meetingUrl := url, lastError := None);
          meeting := Some(m);
        case NotMade(message) =>
          SaveFailure(m, message);
      }
    }

    method SyncMeetingTimes(booking: Option<BookingView>, update: UpdateOutcome, create: CreateOutcome)
      modifies this
      ensures State() == Sync(old(State()), booking, update, create)
      ensures Accounts(old(State())) && FreshOutcome(old(State()), create) ==> Accounts(State())
    {
      if Accounts(State()) && FreshOutcome(State(), create) {
        SyncAccounts(State(), booking, update, create);
      }
      if booking.None? {
        return;
      }
      if meeting.None? {
        EnsureMeetingForBooking(booking, create);
        return;
      }
      var b := booking.value;
      var m := meeting.value.(startTime := b.startAt, endTime := b.endAt);
      if !m.status.Created? || m.externalMeetingId.None? || m.externalCalendarId.None? {
        meeting := Some(m);
        EnsureMeetingForBooking(booking, create);
        return;
      }
      if !Supported(b.provider) {
        failedUpdates := failedUpdates + 1;
        SaveFailure(m, NO_ADAPTER);
        return;
      }
      calls := calls + 1;
      match update {
        case Updated(url) =>
          meeting := Some(m.(meetingUrl := if url.Some? then url else m.meetingUrl, lastError := None));
        case NotUpdated(message) =>
          failedUpdates := failedUpdates + 1;
          SaveFailure(m, message);
      }
    }

    method CancelMeetingForBooking(booking: Option<BookingView>, outcome: DeleteOutcome)
      modifies this
      ensures State() == Cancel(old(State()), booking, outcome)
      ensures Accounts(old(State())) ==> Accounts(State())
    {
      if Accounts(State()) {
        CancelAccounts(State(), booking, outcome);
      }
      if booking.None? || meeting.None? {
        return;
      }
      var m := meeting.value;
      if m.status.Created? && m.externalMeetingId.Some? {
        if !Supported(booking.value.provider) {
          failedDeletes := failedDeletes + 1;
        } else {
          calls := calls + 1;
          if outcome.Deleted? {
            live := live - {m.externalMeetingId.value};
          } else {
            failedDeletes := failedDeletes + 1;
          }
        }
      }
      meeting := Some(m.(status := Cancelled, lastError := None));
    }
  }
}
