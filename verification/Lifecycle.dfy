/** One container of one organization: what the API calls, the worker, the sweep and customers do
    to its row, to the credits and to the job queue (app/services/container_service.py,
    app/workers/tasks/scrape.py, app/repositories/containers.py). Each stretch of a coroutine
    between two awaits is one step; in between, anything else may happen. */
module Lifecycle {
  import opened Text
  import EventMerge
  import Credits

  datatype Status = Queued | InProgress | Completed | NoData | Failed

  /** What the customer is told: which of the four message texts a row carries. */
  datatype Notice = NoDataYet | Unsupported | UpdateFailed | TimedOut

  datatype Row = Row(
    status: Status,
    message: Option<Notice>,
    updatedAt: real,
    lastPolledAt: Option<real>,
    active: bool,
    trackingId: Option<string>,
    data: EventMerge.Record)

  /** Seconds. */
  type Duration = d: real | d >= 0.0

  /** `scrape_stuck_threshold_s` and `container_cache_ttl_seconds`. */
  datatype Settings = Settings(stuckAfter: Duration, cacheTtl: Duration)

  const DEFAULTS := Settings(480.0, 21600.0)

  predicate Waiting(status: Status) {
    status.Queued? || status.InProgress?
  }

  predicate IsStuck(cfg: Settings, updatedAt: real, now: real) {
    now - updatedAt > cfg.stuckAfter
  }

  predicate IsPending(cfg: Settings, row: Row, now: real) {
    Waiting(row.status) && !IsStuck(cfg, row.updatedAt, now)
  }

  predicate IsStale(cfg: Settings, lastPolledAt: Option<real>, now: real) {
    lastPolledAt.None? || now - lastPolledAt.value > cfg.cacheTtl
  }

  predicate NeedsLiveLookup(cfg: Settings, row: Row, now: real) {
    !IsPending(cfg, row, now) && IsStale(cfg, row.lastPolledAt, now)
  }

  /** How the provider lookup of one scrape ends: data, nothing, or an exception or cancellation. */
  datatype Outcome =
    | Found(res: EventMerge.Result, id: Option<string>)
    | Missed(carrier: Option<string>, id: Option<string>, unsupported: bool)
    | Raised

  // ---- what each stretch does to the row ------------------------------------------------

  function NewRow(now: real): Row {
    Row(Queued, None, now, None, true, None, EventMerge.Record(None, None, None, None, None, []))
  }

  function MarkedInProgress(row: Row, now: real): Row {
    row.(status := InProgress, updatedAt := now)
  }

  function MarkedQueued(row: Row, now: real): Row {
    row.(status := Queued, message := None, updatedAt := now)
  }

  function MarkedFailed(row: Row, now: real): Row {
    row.(status := Failed, message := Some(UpdateFailed), updatedAt := now)
  }

  function KeptId(id: Option<string>, known: Option<string>): Option<string> {
    if id.Some? then id else known
  }

  /** The row after a scrape; every way a lookup can end leaves a final status. */
  function Scraped(row: Row, now: real, outcome: Outcome): Row {
    match outcome
    case Found(res, id) =>
      row.(status := Completed, message := None, updatedAt := now, lastPolledAt := Some(now),
           trackingId := KeptId(id, row.trackingId), data := EventMerge.Merge(row.data, res))
    case Missed(carrier, id, unsupported) =>
      row.(status := NoData, message := Some(if unsupported then Unsupported else NoDataYet),
           updatedAt := now, lastPolledAt := Some(now), trackingId := KeptId(id, row.trackingId),
           data := row.data.(carrier := Or(carrier, row.data.carrier)))
    case Raised => MarkedFailed(row, now)
  }

  function Swept(cfg: Settings, row: Row, now: real): Row {
    if Waiting(row.status) && row.updatedAt < now - cfg.stuckAfter
    then row.(status := Failed, message := Some(TimedOut), updatedAt := now)
    else row
  }

  // ---- the whole system -------------------------------------------------------------------

  /** Who is working: coroutines awaiting the provider for the API and for the worker, API calls
      about to enqueue, jobs in the queue, and scrapes that have stored a found result and are
      still sending webhooks. `lookups` and `schedules` count the API's lookups and enqueue
      attempts ever started. */
  datatype System = System(
    settings: Settings,
    org: Credits.Org,
    number: string,
    now: real,
    row: Option<Row>,
    books: Credits.Books,
    apiLookups: nat,
    workerLookups: nat,
    enqueuing: nat,
    jobs: nat,
    notifying: nat,
    lookups: nat,
    schedules: nat,
    lastSweep: real)

  datatype Op =
    | Pass(seconds: real)
    | Track
    | Get
    | Refresh
    | Bulk
    | Enqueued(ok: bool)
    | PickUp
    | ReportId(id: string)
    | ApiDone(outcome: Outcome, notifies: bool)
    | WorkerDone(outcome: Outcome, notifies: bool)
    | Notified(ok: bool)
    | ApiDies
    | WorkerDies
    | Sweep
    | StopTracking
    | Fund(amount: nat)
    | Renew(included: nat)
    | SpendElsewhere(other: string)

  function Line(s: System): Credits.Entry {
    Credits.Entry(s.org, 1, s.number)
  }

  function StartLookup(s: System, row: Row, books: Credits.Books): System {
    s.(books := books, row := Some(MarkedInProgress(row, s.now)), apiLookups := s.apiLookups + 1,
        lookups := s.lookups + 1)
  }

  function Schedule(s: System, row: Row, books: Credits.Books): System {
    s.(books := books, row := Some(MarkedQueued(row, s.now)), enqueuing := s.enqueuing + 1,
        schedules := s.schedules + 1)
  }

  /** `track`: serve the row, or charge and look it up; a new row goes away if the charge fails. */
  function DoTrack(s: System): System {
    if s.row.Some? && !NeedsLiveLookup(s.settings, s.row.value, s.now) then s
    else
      var (books, ok) := Credits.Charge(s.books, Line(s));
      if !ok then s.(books := books)
      else StartLookup(s, if s.row.Some? then s.row.value else NewRow(s.now), books)
  }

  /** `get_or_refresh` */
  function DoGet(s: System): System {
    if s.row.None? || !NeedsLiveLookup(s.settings, s.row.value, s.now) then s
    else
      var (books, ok) := Credits.Charge(s.books, Line(s));
      if !ok then s.(books := books) else StartLookup(s, s.row.value, books)
  }

  /** `request_refresh`, up to the point where it turns to the job queue */
  function DoRefresh(s: System): System {
    if s.row.None? || !s.row.value.active || IsPending(s.settings, s.row.value, s.now) then s
    else
      var (books, ok) := Credits.Charge(s.books, Line(s));
      if !ok then s.(books := books) else Schedule(s, s.row.value, books)
  }

  /** `queue_bulk` on this number: no look at what is pending. */
  function DoBulk(s: System): System {
    var (books, ok) := Credits.Charge(s.books, Line(s));
    if !ok then s.(books := books) else Schedule(s, if s.row.Some? then s.row.value else NewRow(s.now), books)
  }

  function DoEnqueued(s: System, ok: bool): System {
    if s.enqueuing == 0 then s
    else s.(enqueuing := s.enqueuing - 1, jobs := s.jobs + (if ok then 1 else 0))
  }

  function DoPickUp(s: System): System {
    if s.jobs == 0 then s
    else if s.row.None? || !s.row.value.active then s.(jobs := s.jobs - 1)
    else s.(jobs := s.jobs - 1, row := Some(MarkedInProgress(s.row.value, s.now)), workerLookups := s.workerLookups + 1)
  }

  function DoReportId(s: System, id: string): System {
    if s.row.None? || s.apiLookups + s.workerLookups == 0 then s
    else s.(row := Some(s.row.value.(trackingId := Some(id), updatedAt := s.now)))
  }

  /** The end of a lookup: what it stores, and webhooks still to send after a found result. */
  function Settle(s: System, outcome: Outcome, notifies: bool): System {
    var row := if s.row.Some? then Some(Scraped(s.row.value, s.now, outcome)) else None;
    s.(row := row, notifying := s.notifying + (if outcome.Found? && notifies then 1 else 0))
  }

  /** Cancelled while sending webhooks, a scrape overwrites what it stored with a failure. */
  function DoNotified(s: System, ok: bool): System {
    if s.notifying == 0 then s
    else if ok || s.row.None? then s.(notifying := s.notifying - 1)
    else s.(notifying := s.notifying - 1, row := Some(MarkedFailed(s.row.value, s.now)))
  }

  function Step(s: System, op: Op): System {
    match op
    case Pass(seconds) => if seconds < 0.0 then s else s.(now := s.now + seconds)
    case Track => DoTrack(s)
    case Get => DoGet(s)
    case Refresh => DoRefresh(s)
    case Bulk => DoBulk(s)
    case Enqueued(ok) => DoEnqueued(s, ok)
    case PickUp => DoPickUp(s)
    case ReportId(id) => DoReportId(s, id)
    case ApiDone(outcome, notifies) =>
      if s.apiLookups == 0 then s else Settle(s.(apiLookups := s.apiLookups - 1), outcome, notifies)
    case WorkerDone(outcome, notifies) =>
      if s.workerLookups == 0 then s else Settle(s.(workerLookups := s.workerLookups - 1), outcome, notifies)
    case Notified(ok) => DoNotified(s, ok)
    case ApiDies => if s.apiLookups == 0 then s else s.(apiLookups := s.apiLookups - 1)
    case WorkerDies => if s.workerLookups == 0 then s else s.(workerLookups := s.workerLookups - 1)
    case Sweep => s.(row := if s.row.Some? then Some(Swept(s.settings, s.row.value, s.now)) else None,
        lastSweep := s.now)
    case StopTracking =>
      if s.row.None? || !s.row.value.active then s
      else s.(row := Some(s.row.value.(active := false, updatedAt := s.now)))
    case Fund(amount) => s.(books := Credits.TopUp(s.books, s.org, amount))
    case Renew(included) => s.(books := Credits.SetAllotment(s.books, s.org, included))
    case SpendElsewhere(other) =>
      if other == s.number then s else s.(books := Credits.Charge(s.books, Credits.Entry(s.org, 1, other)).0)
  }

  function Run(s: System, ops: seq<Op>): System {
    if ops == [] then s else Step(Run(s, ops[..|ops| - 1]), ops[|ops| - 1])
  }

  function Start(cfg: Settings, org: Credits.Org, number: string, books: Credits.Books): System {
    System(cfg, org, number, 0.0, None, books, 0, 0, 0, 0, 0, 0, 0, 0.0)
  }

  // ---- the service itself -----------------------------------------------------------------

  datatype Answer = Served | Refused | NotTracked | LookingUp | Scheduled

  class ContainerService {
    const settings: Settings
    const org: Credits.Org
    const number: string
    const usage: Credits.UsageStore
    var now: real
    var row: Option<Row>
    var apiLookups: nat
    var workerLookups: nat
    var enqueuing: nat
    var jobs: nat
    var notifying: nat
    var lookups: nat
    var schedules: nat
    var lastSweep: real

    function View(): System
      reads this, usage
    {
      System(settings, org, number, now, row, usage.View(), apiLookups, workerLookups, enqueuing, jobs, notifying,
             lookups, schedules, lastSweep)
    }

    constructor (settings: Settings, org: Credits.Org, number: string, usage: Credits.UsageStore)
      ensures View() == Start(settings, org, number, usage.View()) && this.usage == usage
    {
      this.settings, this.org, this.number, this.usage := settings, org, number, usage;
      now, row, lastSweep := 0.0, None, 0.0;
      apiLookups, workerLookups, enqueuing, jobs, notifying, lookups, schedules := 0, 0, 0, 0, 0, 0, 0;
    }

    /** Commit IN_PROGRESS and go off to the provider. */
    method BeginLookup()
      requires row.Some?
      modifies this
      ensures View() == StartLookup(old(View()), old(row.value), usage.View())
    {
      row := Some(row.value.(status := InProgress, updatedAt := now));
      apiLookups := apiLookups + 1;
      lookups := lookups + 1;
    }

    method Track() returns (answer: Answer)
      modifies this, usage
      ensures View() == DoTrack(old(View()))
      ensures answer.LookingUp? <==> lookups == old(lookups) + 1
      ensures answer.Served? <==> old(row.Some? && !NeedsLiveLookup(settings, row.value, now))
    {
      var created := row.None?;
      if created {
        row := Some(NewRow(now));
      }
      if !created && !NeedsLiveLookup(settings, row.value, now) {
        return Served;
      }
      var ok := usage.ChargeCredits(Credits.Entry(org, 1, number));
      if !ok {
        if created {
          row := None;
        }
        return Refused;
      }
      BeginLookup();
      answer := LookingUp;
    }

    method GetOrRefresh() returns (answer: Answer)
      modifies this, usage
      ensures View() == DoGet(old(View()))
      ensures answer.LookingUp? <==> lookups == old(lookups) + 1
      ensures answer.NotTracked? <==> old(row.None?)
    {
      if row.None? {
        return NotTracked;
      }
      if !NeedsLiveLookup(settings, row.value, now) {
        return Served;
      }
      var ok := usage.ChargeCredits(Credits.Entry(org, 1, number));
      if !ok {
        return Refused;
      }
      BeginLookup();
      answer := LookingUp;
    }

    method RequestRefresh() returns (answer: Answer)
      modifies this, usage
      ensures View() == DoRefresh(old(View()))
      ensures answer.Scheduled? <==> schedules == old(schedules) + 1
      ensures answer.NotTracked? <==> old(row.None? || !row.value.active)
    {
      if row.None? || !row.value.active {
        return NotTracked;
      }
      if IsPending(settings, row.value, now) {
        return Served;
      }
      var ok := usage.ChargeCredits(Credits.Entry(org, 1, number));
      if !ok {
        return Refused;
      }
      row := Some(row.value.(status := Queued, message := None, updatedAt := now));
      enqueuing := enqueuing + 1;
      schedules := schedules + 1;
      answer := Scheduled;
    }

    /** `_enqueue_scrapes` for one row: a queue that is down is nobody's error. */
    method EnqueueScrape(queueUp: bool)
      modifies this
      ensures View() == DoEnqueued(old(View()), queueUp)
    {
      if enqueuing == 0 {
        return;
      }
      enqueuing := enqueuing - 1;
      if queueUp {
        jobs := jobs + 1;
      }
    }

    /** The worker takes a job; a stopped container's job is dropped. */
    method ProcessQueuedScrape()
      modifies this
      ensures View() == DoPickUp(old(View()))
    {
      if jobs == 0 {
        return;
      }
      jobs := jobs - 1;
      if row.None? || !row.value.active {
        return;
      }
      row := Some(row.value.(status := InProgress, updatedAt := now));
      workerLookups := workerLookups + 1;
    }

    method PersistTrackingIdEarly(id: string)
      modifies this
      ensures View() == DoReportId(old(View()), id)
    {
      if row.Some? && apiLookups + workerLookups > 0 {
        row := Some(row.value.(trackingId := Some(id), updatedAt := now));
      }
    }

    /** What the end of `_refresh_and_apply_safely` leaves for others to see; its inside is ScrapeSession. */
    method FinishLookup(outcome: Outcome, notifies: bool)
      modifies this
      ensures View() == Settle(old(View()), outcome, notifies)
    {
      if row.Some? {
        var r := row.value;
        match outcome {
          case Raised =>
            r := r.(status := Failed, message := Some(UpdateFailed));
          case Missed(carrier, id, unsupported) =>
            if id.Some? {
              r := r.(trackingId := id);
            }
            r := r.(lastPolledAt := Some(now), status := NoData,
                data := r.data.(carrier := Or(carrier, r.data.carrier)));
            r := r.(message := Some(if unsupported then Unsupported else NoDataYet));
          case Found(res, id) =>
            if id.Some? {
              r := r.(trackingId := id);
            }
            r := r.(data := EventMerge.Merge(r.data, res), lastPolledAt := Some(now), status := Completed,
                message := None);
        }
        row := Some(r.(updatedAt := now));
      }
      if outcome.Found? && notifies {
        notifying := notifying + 1;
      }
    }
  }

  /** `sweep_stuck_scrapes`: waiting rows past the threshold fail, all others stay as they are. */
  method SweepStuckScrapes(cfg: Settings, rows: seq<Row>, now: real) returns (after: seq<Row>, corrected: nat)
    ensures |after| == |rows| && forall i | 0 <= i < |rows| :: after[i] == Swept(cfg, rows[i], now)
    ensures forall i | 0 <= i < |rows| ::
              after[i] == if Waiting(rows[i].status) && now - rows[i].updatedAt > cfg.stuckAfter
                          then rows[i].(status := Failed, message := Some(TimedOut), updatedAt := now)
                          else rows[i]
    ensures forall i | 0 <= i < |rows| :: !(Waiting(after[i].status) && IsStuck(cfg, after[i].updatedAt, now))
    ensures corrected == 0 <==> after == rows
  {
    after, corrected := [], 0;
    for i := 0 to |rows|
      invariant |after| == i && forall k | 0 <= k < i :: after[k] == Swept(cfg, rows[k], now)
      invariant corrected == 0 <==> after == rows[..i]
    {
      var row := rows[i];
      if Waiting(row.status) && row.updatedAt < now - cfg.stuckAfter {
        row := row.(status := Failed, message := Some(TimedOut), updatedAt := now);
        corrected := corrected + 1;
      }
      after := after + [row];
      assert rows[..i + 1] == rows[..i] + [rows[i]];
    }
    assert rows[..|rows|] == rows;
  }
}
