/** What holds in every interleaving of the calls on one container. */
module LifecycleProperties {
  import opened Text
  import opened Lifecycle
  import Credits
  import EventMerge

  // ---- no double charge -------------------------------------------------------------------

  /** A pending row is served as it is: no charge, no lookup, no job. */
  lemma PendingRowIsLeftAlone(s: System, op: Op)
    requires s.row.Some? && IsPending(s.settings, s.row.value, s.now)
    requires op.Track? || op.Get? || op.Refresh?
    ensures Step(s, op) == s
  {
  }

  /** The row is pending before every step, and nobody submits it in bulk. */
  predicate StaysPending(s: System, ops: seq<Op>) {
    ops == [] ||
    (var before := Run(s, ops[..|ops| - 1]);
     && StaysPending(s, ops[..|ops| - 1])
     && before.row.Some? && IsPending(before.settings, before.row.value, before.now)
     && !ops[|ops| - 1].Bulk?)
  }

  /** The ledger lines of one container. */
  function ChargesFor(ledger: seq<Credits.Entry>, e: Credits.Entry): nat {
    if ledger == [] then 0
    else ChargesFor(ledger[..|ledger| - 1], e) + (if ledger[|ledger| - 1] == e then 1 else 0)
  }

  function Charges(s: System): nat {
    ChargesFor(s.books.ledger, Line(s))
  }

  /** From s to s': nothing charged for the container, no lookup begun, no job scheduled. */
  predicate NothingBought(s: System, s': System) {
    && Line(s') == Line(s) && Charges(s') == Charges(s)
    && s'.lookups == s.lookups && s'.schedules == s.schedules
    && s'.apiLookups <= s.apiLookups
    && s'.jobs + s'.workerLookups + s'.enqueuing <= s.jobs + s.workerLookups + s.enqueuing
  }

  lemma StepBuysNothing(s: System, op: Op)
    requires s.row.Some? && IsPending(s.settings, s.row.value, s.now) && !op.Bulk?
    ensures NothingBought(s, Step(s, op))
  {
    if op.SpendElsewhere? {
      LedgerAfterCharge(s.books, Credits.Entry(s.org, 1, op.other), Line(s));
    }
  }

  /** While the row stays pending, whoever calls, in whatever interleaving with worker, sweep and
      clock: no credit is charged for it, no further lookup is started and no further job is
      scheduled. Jobs can only come from calls that were already on their way to the queue. */
  lemma {:induction false} NoSecondChargeWhilePending(s: System, ops: seq<Op>)
    requires StaysPending(s, ops)
    ensures NothingBought(s, Run(s, ops))
  {
    if ops != [] {
      var n := |ops| - 1;
      NoSecondChargeWhilePending(s, ops[..n]);
      StepBuysNothing(Run(s, ops[..n]), ops[n]);
    }
  }

  lemma LedgerAfterCharge(books: Credits.Books, e: Credits.Entry, line: Credits.Entry)
    ensures var (books', ok) := Credits.Charge(books, e);
            ChargesFor(books'.ledger, line) == ChargesFor(books.ledger, line) + (if ok && e == line then 1 else 0)
  {
    assert (books.ledger + [e])[..|books.ledger|] == books.ledger;
  }

  /** s' is s after buying as many lookups and jobs as it was charged for. */
  predicate Balanced(s: System, s': System) {
    Line(s') == Line(s) && Charges(s') - Charges(s) == (s'.lookups - s.lookups) + (s'.schedules - s.schedules)
  }

  lemma TrackBuysWhatItCharges(s: System)
    ensures Balanced(s, DoTrack(s))
  {
    LedgerAfterCharge(s.books, Line(s), Line(s));
  }

  lemma GetBuysWhatItCharges(s: System)
    ensures Balanced(s, DoGet(s))
  {
    LedgerAfterCharge(s.books, Line(s), Line(s));
  }

  lemma RefreshBuysWhatItCharges(s: System)
    ensures Balanced(s, DoRefresh(s))
  {
    LedgerAfterCharge(s.books, Line(s), Line(s));
  }

  lemma BulkBuysWhatItCharges(s: System)
    ensures Balanced(s, DoBulk(s))
  {
    LedgerAfterCharge(s.books, Line(s), Line(s));
  }

  lemma StepBuysWhatItCharges(s: System, op: Op)
    ensures Balanced(s, Step(s, op))
  {
    match op
    case Track => TrackBuysWhatItCharges(s);
    case Get => GetBuysWhatItCharges(s);
    case Refresh => RefreshBuysWhatItCharges(s);
    case Bulk => BulkBuysWhatItCharges(s);
    case SpendElsewhere(other) => LedgerAfterCharge(s.books, Credits.Entry(s.org, 1, other), Line(s));
    case _ =>
  }

  /** Every credit charged for the container bought exactly one lookup or one scheduled job, and
      there are no others: worker and sweep charge nothing. */
  lemma {:induction false} EveryChargeBuysOneScrape(s: System, ops: seq<Op>)
    ensures var s' := Run(s, ops);
            && Line(s') == Line(s)
            && Charges(s') - Charges(s) == (s'.lookups - s.lookups) + (s'.schedules - s.schedules)
  {
    if ops != [] {
      var n := |ops| - 1;
      EveryChargeBuysOneScrape(s, ops[..n]);
      StepBuysWhatItCharges(Run(s, ops[..n]), ops[n]);
    }
  }

  /** The steps of the worker, the sweep and the clock, and the ends of API lookups. */
  predicate Background(op: Op) {
    !(op.Track? || op.Get? || op.Refresh? || op.Bulk? || op.Fund? || op.Renew? || op.SpendElsewhere?)
  }

  /** None of them touches balances or ledger. */
  lemma {:induction false} BackgroundLeavesTheBooks(s: System, ops: seq<Op>)
    requires forall op | op in ops :: Background(op)
    ensures Run(s, ops).books == s.books
  {
    if ops != [] {
      var n := |ops| - 1;
      assert ops[n] in ops;
      BackgroundLeavesTheBooks(s, ops[..n]);
    }
  }

  // ---- at most one scrape at a time -------------------------------------------------------

  /** Who may still scrape the container: lookups under way, jobs queued or about to be. */
  function Owners(s: System): nat {
    s.apiLookups + s.workerLookups + s.enqueuing + s.jobs
  }

  predicate Exclusive(s: System) {
    Owners(s) == 0 || (Owners(s) == 1 && s.row.Some? && Waiting(s.row.value.status))
  }

  predicate HasCredit(s: System) {
    Credits.Remaining(s.books, s.org) >= 1
  }

  /** A call that takes the row over from somebody still at work on it: one that finds the row stuck,
      or a bulk submission, each with a credit to spend; a sweep of a stuck row; or a scrape
      cancelled in its webhooks. */
  predicate Breaks(s: System, op: Op) {
    Owners(s) > 0 && s.row.Some? &&
    match op
    case Track => NeedsLiveLookup(s.settings, s.row.value, s.now) && HasCredit(s)
    case Get => NeedsLiveLookup(s.settings, s.row.value, s.now) && HasCredit(s)
    case Refresh => s.row.value.active && IsStuck(s.settings, s.row.value.updatedAt, s.now) && HasCredit(s)
    case Bulk => HasCredit(s)
    case Sweep => IsStuck(s.settings, s.row.value.updatedAt, s.now)
    case Notified(ok) => !ok && s.notifying > 0
    case _ => false
  }

  lemma ChargeNeedsCredit(s: System)
    ensures Credits.Charge(s.books, Line(s)).1 <==> HasCredit(s)
  {
  }

  /** These steps, and no others, give a row two owners, or its owner a row that looks free. */
  lemma StepKeepsExclusiveIff(s: System, op: Op)
    requires Exclusive(s)
    ensures Exclusive(Step(s, op)) <==> !Breaks(s, op)
  {
    ChargeNeedsCredit(s);
  }

  predicate AlwaysExclusive(s: System, ops: seq<Op>) {
    Exclusive(Run(s, ops)) && (ops == [] || AlwaysExclusive(s, ops[..|ops| - 1]))
  }

  predicate NeverBroken(s: System, ops: seq<Op>) {
    ops == [] || (NeverBroken(s, ops[..|ops| - 1]) && !Breaks(Run(s, ops[..|ops| - 1]), ops[|ops| - 1]))
  }

  /** Over any run: there is never more than one scrape of the container queued or under way, on a
      row everyone can see is waiting, exactly if no step takes the row over from an owner. */
  lemma {:induction false} AtMostOneScrape(s: System, ops: seq<Op>)
    requires Exclusive(s)
    ensures AlwaysExclusive(s, ops) <==> NeverBroken(s, ops)
  {
    if ops != [] {
      var n := |ops| - 1;
      AtMostOneScrape(s, ops[..n]);
      if AlwaysExclusive(s, ops[..n]) {
        StillExclusive(s, ops[..n]);
        StepKeepsExclusiveIff(Run(s, ops[..n]), ops[n]);
      }
    }
  }

  lemma StillExclusive(s: System, ops: seq<Op>)
    requires AlwaysExclusive(s, ops)
    ensures Exclusive(Run(s, ops))
  {
  }

  /** Past the threshold a lookup still under way is doubled, and charged for again. */
  lemma AStuckLookupIsDoubled(cfg: Settings, org: Credits.Org, number: string)
    ensures var books := Credits.SetAllotment(Credits.Books(map[], []), org, 2);
            var one := Step(Start(cfg, org, number, books), Track);
            var two := Step(Step(one, Pass(cfg.stuckAfter + 1.0)), Get);
            && Owners(one) == 1 && Credits.Remaining(one.books, org) == 1
            && Owners(two) == 2 && Credits.Remaining(two.books, org) == 0
  {
  }

  /** And a scrape cancelled in its webhooks frees a row that the next scrape already owns. */
  lemma ACancelledNotificationFreesAnOwnedRow(cfg: Settings, org: Credits.Org, number: string, res: EventMerge.Result)
    ensures var books := Credits.SetAllotment(Credits.Books(map[], []), org, 3);
            var scraped := Step(Step(Start(cfg, org, number, books), Track), ApiDone(Found(res, None), true));
            var owned := Step(scraped, Refresh);
            var freed := Step(Step(owned, Notified(false)), Refresh);
            && Owners(owned) == 1 && Owners(freed) == 2 && Credits.Remaining(freed.books, org) == 0
  {
  }

  // ---- final states -----------------------------------------------------------------------

  predicate StatusFitsMessage(row: Row) {
    && (row.status.Queued? || row.status.Completed? ==> row.message.None?)
    && (row.status.NoData? || row.status.Failed? ==> row.message.Some?)
    && (row.status.Completed? || row.status.NoData? ==> row.lastPolledAt.Some?)
  }

  lemma ScrapedIsFinal(row: Row, now: real, outcome: Outcome)
    ensures var row' := Scraped(row, now, outcome);
            && !Waiting(row'.status) && StatusFitsMessage(row')
            && row'.active == row.active
            && (!outcome.Found? ==> row'.data == row.data.(carrier := row'.data.carrier))
            && (outcome.Raised? ==> row'.lastPolledAt == row.lastPolledAt && row'.data == row.data)
            && (row.trackingId.Some? ==> row'.trackingId.Some?)
  {
  }

  lemma StepFitsMessage(s: System, op: Op)
    requires s.row.Some? ==> StatusFitsMessage(s.row.value)
    ensures Step(s, op).row.Some? ==> StatusFitsMessage(Step(s, op).row.value)
  {
  }

  /** In every reachable state, bulk submissions, overlaps and crashes included: queued and
      completed rows carry no message, no-data and failed rows carry one, and a row whose scrape
      reached the provider's answer knows when. */
  lemma {:induction false} StatusAlwaysFitsMessage(s: System, ops: seq<Op>)
    requires s.row.Some? ==> StatusFitsMessage(s.row.value)
    ensures Run(s, ops).row.Some? ==> StatusFitsMessage(Run(s, ops).row.value)
  {
    if ops != [] {
      var n := |ops| - 1;
      StatusAlwaysFitsMessage(s, ops[..n]);
      StepFitsMessage(Run(s, ops[..n]), ops[n]);
    }
  }

  // ---- bounded pending time ---------------------------------------------------------------

  /** The sweep is scheduled every five minutes. */
  const SWEEP_PERIOD := 300.0

  /** No state is more than `period` away from the last sweep. */
  predicate SweptEvery(s: System, ops: seq<Op>, period: real) {
    && Run(s, ops).now <= Run(s, ops).lastSweep + period
    && (ops == [] || SweptEvery(s, ops[..|ops| - 1], period))
  }

  predicate Clocked(s: System) {
    && s.lastSweep <= s.now
    && (s.row.Some? ==> s.row.value.updatedAt <= s.now)
    && (s.row.Some? && Waiting(s.row.value.status) ==> s.row.value.updatedAt >= s.lastSweep - s.settings.stuckAfter)
  }

  lemma StepKeepsClocked(s: System, op: Op)
    requires Clocked(s)
    ensures Clocked(Step(s, op))
  {
  }

  lemma {:induction false} AlwaysClocked(s: System, ops: seq<Op>)
    requires Clocked(s)
    ensures Clocked(Run(s, ops))
  {
    if ops != [] {
      AlwaysClocked(s, ops[..|ops| - 1]);
      StepKeepsClocked(Run(s, ops[..|ops| - 1]), ops[|ops| - 1]);
    }
  }

  lemma StepKeepsSettings(s: System, op: Op)
    ensures Step(s, op).settings == s.settings
  {
  }

  lemma {:induction false} SettingsStay(s: System, ops: seq<Op>)
    ensures Run(s, ops).settings == s.settings
  {
    if ops != [] {
      SettingsStay(s, ops[..|ops| - 1]);
      StepKeepsSettings(Run(s, ops[..|ops| - 1]), ops[|ops| - 1]);
    }
  }

  /** With sweeps at most `period` apart, no row waits longer than the stuck threshold and one
      period, whatever died or was never enqueued. */
  lemma WaitingTimeIsBounded(s: System, ops: seq<Op>, period: real)
    requires Clocked(s) && SweptEvery(s, ops, period)
    ensures var s' := Run(s, ops);
            s'.row.Some? && Waiting(s'.row.value.status) ==>
              && s'.now - s'.row.value.updatedAt <= s.settings.stuckAfter + period
              && (s.settings == DEFAULTS && period <= SWEEP_PERIOD ==> s'.now - s'.row.value.updatedAt <= 780.0)
  {
    AlwaysClocked(s, ops);
    SettingsStay(s, ops);
  }

  /** Sweep and API agree on what is stuck: a row the sweep would fail is one on which, swept or
      not, a refresh of an active row is accepted, given a credit; a waiting row it would leave is
      one on which a refresh does nothing. */
  lemma SweepAndRefreshAgree(s: System)
    requires s.row.Some? && Waiting(s.row.value.status)
    ensures Swept(s.settings, s.row.value, s.now) != s.row.value ==>
              s.row.value.active && Credits.Remaining(s.books, s.org) >= 1 ==>
                && Step(s, Refresh).schedules == s.schedules + 1 && Step(s, Refresh).row.value.status.Queued?
                && Step(Step(s, Sweep), Refresh).schedules == s.schedules + 1
    ensures Swept(s.settings, s.row.value, s.now) == s.row.value ==> Step(s, Refresh) == s
  {
  }
}
