/** What every call, job and ending does to the shared state, field by field, and the account of jobs
    and lookups over whole runs (app/services/container_service.py, app/workers/tasks/scrape.py). */
module LifecycleAnswers {
  import opened Text
  import opened Lifecycle
  import Credits
  import EventMerge

  // ---- what a call buys ---------------------------------------------------------------------

  predicate CreditLeft(s: System) {
    s.org in s.books.balances && s.books.balances[s.org].remaining >= 1
  }

  /** Somebody is at work on the row, and not for too long. */
  predicate InHand(s: System, row: Row) {
    (row.status.Queued? || row.status.InProgress?) && s.now - row.updatedAt <= s.settings.stuckAfter
  }

  /** The row is free, and what it says is missing or older than the cache allows. */
  predicate Outdated(s: System, row: Row) {
    !InHand(s, row) && (row.lastPolledAt.None? || s.now - row.lastPolledAt.value > s.settings.cacheTtl)
  }

  /** From s to s': one credit of the organization spent on a line for this container. */
  predicate Paid(s: System, s': System) {
    && CreditLeft(s) && s.org in s'.books.balances
    && s'.books.balances[s.org] == s.books.balances[s.org].(remaining := s.books.balances[s.org].remaining - 1)
    && s'.books.balances - {s.org} == s.books.balances - {s.org}
    && s'.books.ledger == s.books.ledger + [Credits.Entry(s.org, 1, s.number)]
  }

  /** Nothing spent, nothing recorded; at most an empty balance was opened. */
  predicate Unpaid(s: System, s': System) {
    && s'.books.ledger == s.books.ledger && s'.books.balances - {s.org} == s.books.balances - {s.org}
    && Credits.Remaining(s'.books, s.org) == Credits.Remaining(s.books, s.org)
  }

  /** A paid lookup is under way on a row that says so. */
  predicate LookupBought(s: System, row: Row, s': System) {
    && Paid(s, s') && s'.row == Some(row.(status := InProgress, updatedAt := s.now))
    && s' == s.(books := s'.books, row := s'.row, apiLookups := s.apiLookups + 1, lookups := s.lookups + 1)
  }

  /** A paid job is about to be enqueued for a row that says so. */
  predicate JobBought(s: System, row: Row, s': System) {
    && Paid(s, s') && s'.row == Some(row.(status := Queued, message := None, updatedAt := s.now))
    && s' == s.(books := s'.books, row := s'.row, enqueuing := s.enqueuing + 1, schedules := s.schedules + 1)
  }

  predicate NothingBought(s: System, s': System) {
    Unpaid(s, s') && s' == s.(books := s'.books)
  }

  /** The row an unknown number starts with. */
  function Untracked(now: real): Row {
    Row(Queued, None, now, None, true, None, EventMerge.Record(None, None, None, None, None, []))
  }

  lemma ChargeIs(s: System)
    ensures var (books, ok) := Credits.Charge(s.books, Line(s));
            && (ok <==> CreditLeft(s))
            && (ok ==> Paid(s, s.(books := books)))
            && (!ok ==> Unpaid(s, s.(books := books)))
  {
  }

  /** A call to track looks up exactly an unknown container or an outdated row, given a credit. */
  lemma TrackAnswers(s: System)
    ensures var row := if s.row.Some? then s.row.value else Untracked(s.now);
            if CreditLeft(s) && (s.row.None? || Outdated(s, row)) then LookupBought(s, row, DoTrack(s))
            else NothingBought(s, DoTrack(s))
  {
    ChargeIs(s);
  }

  /** A read looks up exactly an outdated row, given a credit. */
  lemma GetAnswers(s: System)
    ensures if CreditLeft(s) && s.row.Some? && Outdated(s, s.row.value) then LookupBought(s, s.row.value, DoGet(s))
            else NothingBought(s, DoGet(s))
  {
    ChargeIs(s);
  }

  /** A refresh schedules a job exactly for an active row that is free, given a credit. */
  lemma RefreshAnswers(s: System)
    ensures if CreditLeft(s) && s.row.Some? && s.row.value.active && !InHand(s, s.row.value)
            then JobBought(s, s.row.value, DoRefresh(s))
            else NothingBought(s, DoRefresh(s))
  {
    ChargeIs(s);
  }

  /** A bulk submission schedules one whatever the row says, given a credit. */
  lemma BulkAnswers(s: System)
    ensures var row := if s.row.Some? then s.row.value else Untracked(s.now);
            if CreditLeft(s) then JobBought(s, row, DoBulk(s)) else NothingBought(s, DoBulk(s))
  {
    ChargeIs(s);
  }

  // ---- what a lookup leaves -----------------------------------------------------------------

  /** The row after each way a lookup can end. */
  predicate Leaves(row: Row, now: real, outcome: Outcome, row': Row) {
    match outcome
    case Found(res, id) =>
      && row'.status == Completed && row'.message == None && row'.lastPolledAt == Some(now)
      && row'.data == EventMerge.Merge(row.data, res)
      && row'.trackingId == (if id.Some? then id else row.trackingId)
      && row'.updatedAt == now && row'.active == row.active
    case Missed(carrier, id, unsupported) =>
      && row'.status == NoData && row'.lastPolledAt == Some(now)
      && row'.message == Some(if unsupported then Unsupported else NoDataYet)
      && row'.data.carrier == (if carrier.Some? && carrier.value != "" then carrier else row.data.carrier)
      && row'.data == row.data.(carrier := row'.data.carrier)
      && row'.trackingId == (if id.Some? then id else row.trackingId)
      && row'.updatedAt == now && row'.active == row.active
    case Raised =>
      row' == row.(status := Failed, message := Some(UpdateFailed), updatedAt := now)
  }

  lemma ScrapedLeaves(row: Row, now: real, outcome: Outcome)
    ensures Leaves(row, now, outcome, Scraped(row, now, outcome))
  {
  }

  /** The end of a lookup, for the API or the worker, settles the row, and owes webhooks only for
      found data that somebody listens to. */
  lemma EndOfALookupSettlesTheRow(s: System, outcome: Outcome, notifies: bool)
    requires s.row.Some?
    ensures s.apiLookups > 0 ==>
              var s' := Step(s, ApiDone(outcome, notifies));
              && s'.row.Some? && Leaves(s.row.value, s.now, outcome, s'.row.value)
              && s' == s.(row := s'.row, apiLookups := s.apiLookups - 1, notifying := s'.notifying)
              && s'.notifying == s.notifying + (if outcome.Found? && notifies then 1 else 0)
    ensures s.workerLookups > 0 ==>
              var s' := Step(s, WorkerDone(outcome, notifies));
              && s'.row.Some? && Leaves(s.row.value, s.now, outcome, s'.row.value)
              && s' == s.(row := s'.row, workerLookups := s.workerLookups - 1, notifying := s'.notifying)
              && s'.notifying == s.notifying + (if outcome.Found? && notifies then 1 else 0)
  {
    ScrapedLeaves(s.row.value, s.now, outcome);
  }

  /** A job of an active container becomes a lookup on a row that says so; any other is dropped. */
  lemma PickUpAnswers(s: System)
    requires s.jobs > 0
    ensures var s' := Step(s, PickUp);
            if s.row.Some? && s.row.value.active then
              s' == s.(jobs := s.jobs - 1, workerLookups := s.workerLookups + 1,
                       row := Some(s.row.value.(status := InProgress, updatedAt := s.now)))
            else s' == s.(jobs := s.jobs - 1)
  {
  }

  /** During a lookup a reported id is in the row at once, and nothing else changes. */
  lemma ReportedIdIsStored(s: System, id: string)
    ensures Step(s, ReportId(id)) ==
            if s.row.Some? && s.apiLookups + s.workerLookups > 0
            then s.(row := Some(s.row.value.(trackingId := Some(id), updatedAt := s.now))) else s
  {
  }

  /** A stopped container keeps its row, takes no refresh, and its jobs come to nothing. */
  lemma StoppedMeansStopped(s: System)
    requires s.row.Some?
    ensures var stopped := Step(s, StopTracking);
            && stopped.row.Some? && !stopped.row.value.active
            && stopped.row.value == s.row.value.(active := false, updatedAt := stopped.row.value.updatedAt)
            && Step(stopped, Refresh) == stopped
            && Step(stopped, PickUp).workerLookups == s.workerLookups
  {
  }

  /** A scrape cancelled in its webhooks fails its row; one that gets through leaves it. */
  lemma WebhooksEnd(s: System, ok: bool)
    requires s.notifying > 0 && s.row.Some?
    ensures Step(s, Notified(ok)) ==
            s.(notifying := s.notifying - 1,
               row := if ok then s.row
                      else Some(s.row.value.(status := Failed, message := Some(UpdateFailed), updatedAt := s.now)))
  {
  }

  /** The clock only moves forward; the sweep fails exactly what has waited past the threshold. */
  lemma ClockAndSweep(s: System, seconds: real)
    ensures Step(s, Pass(seconds)) == if seconds < 0.0 then s else s.(now := s.now + seconds)
    ensures Step(s, Sweep) ==
            s.(lastSweep := s.now,
               row := if s.row.Some? && Waiting(s.row.value.status)
                         && s.now - s.row.value.updatedAt > s.settings.stuckAfter
                      then Some(s.row.value.(status := Failed, message := Some(TimedOut), updatedAt := s.now))
                      else s.row)
  {
  }

  /** Money comes in, is renewed, or goes on other containers, and nothing else changes. */
  lemma MoneyAnswers(s: System, credits: nat, other: string)
    ensures var s' := Step(s, Fund(credits));
            && s' == s.(books := s'.books) && s'.books.ledger == s.books.ledger
            && Credits.Remaining(s'.books, s.org) == Credits.Remaining(s.books, s.org) + credits
    ensures var s' := Step(s, Renew(credits));
            && s' == s.(books := s'.books) && s'.books.ledger == s.books.ledger
            && Credits.Remaining(s'.books, s.org) == credits
    ensures other != s.number ==>
              var s' := Step(s, SpendElsewhere(other));
              && s' == s.(books := s'.books)
              && s'.books.ledger == s.books.ledger + (if CreditLeft(s) then [Credits.Entry(s.org, 1, other)] else [])
  {
  }

  // ---- the account of jobs and lookups -------------------------------------------------------

  /** What a step can be, to the account. */
  datatype Kind = JobTaken | JobRefused | ScrapeStarted | JobDropped | ScrapeEnded | LookupEnded

  predicate Is(kind: Kind, s: System, op: Op) {
    match kind
    case JobTaken => s.enqueuing > 0 && op == Enqueued(true)
    case JobRefused => s.enqueuing > 0 && op == Enqueued(false)
    case ScrapeStarted => s.jobs > 0 && op == PickUp && s.row.Some? && s.row.value.active
    case JobDropped => s.jobs > 0 && op == PickUp && !(s.row.Some? && s.row.value.active)
    case ScrapeEnded => s.workerLookups > 0 && (op.WorkerDone? || op.WorkerDies?)
    case LookupEnded => s.apiLookups > 0 && (op.ApiDone? || op.ApiDies?)
  }

  /** How many steps of a run are of a kind. */
  function Times(s: System, ops: seq<Op>, kind: Kind): nat {
    if ops == [] then 0
    else
      var before := ops[..|ops| - 1];
      Times(s, before, kind) + (if Is(kind, Run(s, before), ops[|ops| - 1]) then 1 else 0)
  }

  function One(kind: Kind, s: System, op: Op): int {
    if Is(kind, s, op) then 1 else 0
  }

  lemma StepAccountsForJobs(s: System, op: Op)
    ensures var s' := Step(s, op);
            && s'.schedules - s.schedules == s'.enqueuing - s.enqueuing + One(JobTaken, s, op) + One(JobRefused, s, op)
            && One(JobTaken, s, op) == s'.jobs - s.jobs + One(ScrapeStarted, s, op) + One(JobDropped, s, op)
  {
  }

  lemma StepAccountsForLookups(s: System, op: Op)
    ensures var s' := Step(s, op);
            && One(ScrapeStarted, s, op) == s'.workerLookups - s.workerLookups + One(ScrapeEnded, s, op)
            && s'.lookups - s.lookups == s'.apiLookups - s.apiLookups + One(LookupEnded, s, op)
  {
  }

  /** Over any run: every job scheduled was taken by the queue, refused, or is still on its way there;
      every job taken waits, became a scrape or was dropped; every scrape is under way or has ended;
      and so has every lookup of the API. */
  lemma {:induction false} EveryJobIsAccountedFor(s: System, ops: seq<Op>)
    ensures var s' := Run(s, ops);
            && s'.schedules - s.schedules
               == s'.enqueuing - s.enqueuing + Times(s, ops, JobTaken) + Times(s, ops, JobRefused)
            && Times(s, ops, JobTaken) == s'.jobs - s.jobs + Times(s, ops, ScrapeStarted) + Times(s, ops, JobDropped)
            && Times(s, ops, ScrapeStarted) == s'.workerLookups - s.workerLookups + Times(s, ops, ScrapeEnded)
            && s'.lookups - s.lookups == s'.apiLookups - s.apiLookups + Times(s, ops, LookupEnded)
  {
    if ops != [] {
      var n := |ops| - 1;
      EveryJobIsAccountedFor(s, ops[..n]);
      StepAccountsForJobs(Run(s, ops[..n]), ops[n]);
      StepAccountsForLookups(Run(s, ops[..n]), ops[n]);
    }
  }

  predicate Active(s: System) {
    s.row.Some? && s.row.value.active
  }

  predicate NeverStopped(ops: seq<Op>) {
    forall op | op in ops :: op != StopTracking
  }

  lemma {:induction false} StaysActive(s: System, ops: seq<Op>)
    requires Active(s) && NeverStopped(ops)
    ensures Active(Run(s, ops)) && Times(s, ops, JobDropped) == 0
  {
    if ops != [] {
      var n := |ops| - 1;
      assert ops[n] in ops && forall op | op in ops[..n] :: op in ops;
      StaysActive(s, ops[..n]);
      StepStaysActive(Run(s, ops[..n]), ops[n]);
    }
  }

  lemma StepStaysActive(s: System, op: Op)
    requires Active(s) && op != StopTracking
    ensures Active(Step(s, op))
  {
  }

  /** As long as nobody stops the container no job is lost: each one taken waits or became a scrape. */
  lemma NoJobIsDroppedWhileActive(s: System, ops: seq<Op>)
    requires Active(s) && NeverStopped(ops)
    ensures Times(s, ops, JobTaken) == Run(s, ops).jobs - s.jobs + Times(s, ops, ScrapeStarted)
  {
    EveryJobIsAccountedFor(s, ops);
    StaysActive(s, ops);
  }
}
