/** One whole lookup of the create-then-poll client (app/providers/gocomet_http.py) as a machine
    that hears the answer to one call at a time. A lookup that crashes has heard no more answers. */
module GoCometLookup {
  import opened Text
  import opened GoCometPoll

  datatype CreateReply = CreateLimited | CreateNetwork | CreateBroken | Created(body: Body)

  /** No carrier and no suggestion means there is nothing to create; a failing HTTP status counts
      as a network error. */
  function ClassifyCreate(carrier: Option<string>, suggested: Option<string>, reply: Option<Response>): CreateReply {
    if !Truthy(Or(carrier, suggested)) then CreateBroken
    else match reply
      case None => CreateNetwork
      case Some(resp) =>
        if LooksRateLimited(resp) || LooksQuotaExceeded(resp) then CreateLimited
        else if !IsOk(resp) then CreateNetwork
        else if resp.body.None? then CreateBroken
        else Created(resp.body.value)
  }

  datatype Reason = RateLimit | Expired | Network | Crash

  /** How a lookup ends: an answer with the tracking id it carries, or an exception. */
  datatype Ending = Answered(id: Option<string>, found: bool) | GaveUp(reason: Reason)

  datatype Phase = Resuming(id: string) | Creating | Polling(id: string) | Done(ending: Ending)

  datatype Action = CallCreate | CallPoll(id: string) | Report(id: string) | Rotate | Sleep(nap: real)

  datatype Machine = Machine(phase: Phase, rotations: nat, waited: real, trace: seq<Action>)

  /** The answer to one call, whichever of the two it is. */
  datatype Turn = Turn(create: CreateReply, poll: PollOutcome)

  predicate Exhausted(cfg: Config, rotations: nat, waited: real) {
    rotations >= cfg.maxRotations || waited >= cfg.maxWaitTotal
  }

  function CreatedId(body: Body): Option<string> {
    if body.id.Present? then body.id.id else None
  }

  /** The id in the answer: the body's own id field wins, even a null one. */
  function Finalize(body: Body, id: Option<string>): Ending {
    Answered(if body.id.Present? then body.id.id else id, IsFound(body.status, body.opsStatus))
  }

  function Start(resume: Option<string>): Machine {
    Machine(if Truthy(resume) then Resuming(resume.value) else Creating, 0, 0.0, [])
  }

  function Stop(m: Machine, ending: Ending): Machine {
    m.(phase := Done(ending))
  }

  function Called(m: Machine, action: Action): Machine {
    m.(trace := m.trace + [action])
  }

  /** What a retry does before it goes on: perhaps a fresh session, perhaps a nap. */
  function Pausing(rotate: bool, nap: Option<real>): seq<Action> {
    (if rotate then [Rotate] else []) + (if nap.Some? then [Sleep(nap.value)] else [])
  }

  /** The nap is cut to what is left of the waiting. */
  function NapWithin(cfg: Config, waited: real, pause: Option<real>): Option<real> {
    if pause.Some? then Some(Min(pause.value, cfg.maxWaitTotal - waited)) else None
  }

  /** Burn one rotation, perhaps with a fresh session and a nap; or give up for `reason`. */
  function Retry(cfg: Config, m: Machine, next: Phase, reason: Reason, rotate: bool, pause: Option<real>): Machine {
    if Exhausted(cfg, m.rotations, m.waited) then Stop(m, GaveUp(reason))
    else
      var nap := NapWithin(cfg, m.waited, pause);
      Machine(next, m.rotations + 1, m.waited + (if nap.Some? then nap.value else 0.0), m.trace + Pausing(rotate, nap))
  }

  function AfterCreate(cfg: Config, m: Machine, reply: CreateReply): Machine {
    match reply
    case CreateLimited => Retry(cfg, m, Creating, RateLimit, true, Some(cfg.rotatePause))
    case CreateNetwork => Retry(cfg, m, Creating, Network, false, Some(NETWORK_PAUSE))
    case CreateBroken => Stop(m, GaveUp(Crash))
    case Created(body) =>
      var id := CreatedId(body);
      var reported := if Truthy(id) then Called(m, Report(id.value)) else m;
      if Settled(body.status) then Stop(reported, Finalize(body, id))
      else if Truthy(id) then reported.(phase := Polling(id.value))
      else Stop(m, GaveUp(Crash))
  }

  function AfterResume(cfg: Config, m: Machine, id: string, outcome: PollOutcome): Machine {
    match outcome
    case Resolved(body) => Stop(m, Finalize(body, Some(id)))
    case TimedOut => Stop(m, Answered(Some(id), false))
    case NotFound => m.(phase := Creating)
    case Limited => Retry(cfg, m, Creating, RateLimit, true, None)
    case Broken => Stop(m, GaveUp(Crash))
  }

  function AfterPoll(cfg: Config, m: Machine, id: string, outcome: PollOutcome): Machine {
    match outcome
    case Resolved(body) => Stop(m, Finalize(body, Some(id)))
    case TimedOut => Stop(m, Answered(Some(id), false))
    case NotFound => Retry(cfg, m, Creating, Expired, false, None)
    case Limited => Retry(cfg, m, Polling(id), RateLimit, true, Some(cfg.rotatePause))
    case Broken => Stop(m, GaveUp(Crash))
  }

  function Step(cfg: Config, m: Machine, t: Turn): Machine {
    match m.phase
    case Done(_) => m
    case Resuming(id) => AfterResume(cfg, Called(m, CallPoll(id)), id, t.poll)
    case Creating => AfterCreate(cfg, Called(m, CallCreate), t.create)
    case Polling(id) => AfterPoll(cfg, Called(m, CallPoll(id)), id, t.poll)
  }

  /** The machine after the calls answered so far; a lookup that crashed has simply heard no more. */
  function Run(cfg: Config, m: Machine, script: seq<Turn>): Machine {
    if script == [] then m
    else Step(cfg, Run(cfg, m, script[..|script| - 1]), script[|script| - 1])
  }

  /** Everything outside the client during one call. */
  datatype Weather = Weather(suggested: Option<string>, create: Option<Response>, ticks: nat -> Tick)

  /** The answer heard in a turn is what the weather of that turn says. */
  ghost predicate Heard(cfg: Config, carrier: Option<string>, phase: Phase, w: Weather, t: Turn) {
    match phase
    case Done(_) => true
    case Creating => t.create == ClassifyCreate(carrier, w.suggested, w.create)
    case _ => exists gets: nat :: gets <= MaxGetsOrZero(cfg) && PollMeans(cfg, w.ticks, t.poll, gets)
  }

  ghost function MaxGetsOrZero(cfg: Config): nat {
    if Sane(cfg) then MaxGets(cfg) else 0
  }

  /** The answers heard are those of the weather, turn by turn. */
  ghost predicate Consistent(cfg: Config, carrier: Option<string>, m: Machine, world: nat -> Weather,
                             script: seq<Turn>)
  {
    script == [] ||
    (var n := |script| - 1;
     Consistent(cfg, carrier, m, world, script[..n])
     && Heard(cfg, carrier, Run(cfg, m, script[..n]).phase, world(n), script[n]))
  }

  lemma RunSnoc(cfg: Config, m: Machine, script: seq<Turn>, t: Turn)
    ensures Run(cfg, m, script + [t]) == Step(cfg, Run(cfg, m, script), t)
  {
    assert (script + [t])[..|script|] == script;
  }

  lemma ConsistentSnoc(cfg: Config, carrier: Option<string>, m: Machine, world: nat -> Weather, script: seq<Turn>,
                       t: Turn)
    requires Consistent(cfg, carrier, m, world, script)
    requires Heard(cfg, carrier, Run(cfg, m, script).phase, world(|script|), t)
    ensures Consistent(cfg, carrier, m, world, script + [t])
  {
    assert (script + [t])[..|script|] == script;
  }

  /** One more answer heard. */
  lemma Hear(cfg: Config, carrier: Option<string>, resume: Option<string>, world: nat -> Weather, script: seq<Turn>,
             t: Turn)
    requires Sane(cfg) && Consistent(cfg, carrier, Start(resume), world, script)
    requires Heard(cfg, carrier, Run(cfg, Start(resume), script).phase, world(|script|), t)
    ensures Consistent(cfg, carrier, Start(resume), world, script + [t])
    ensures Run(cfg, Start(resume), script + [t]) == Step(cfg, Run(cfg, Start(resume), script), t)
    ensures !Run(cfg, Start(resume), script).phase.Done? ==> |script| <= 2 * cfg.maxRotations + 2
  {
    RunSnoc(cfg, Start(resume), script, t);
    ConsistentSnoc(cfg, carrier, Start(resume), world, script, t);
    LookupStaysWithinBudget(cfg, resume, script);
  }

  // ---- budgets ----------------------------------------------------------------------------

  function Creates(trace: seq<Action>): nat {
    if trace == [] then 0
    else Creates(trace[..|trace| - 1]) + (if trace[|trace| - 1].CallCreate? then 1 else 0)
  }

  function Polls(trace: seq<Action>): nat {
    if trace == [] then 0
    else Polls(trace[..|trace| - 1]) + (if trace[|trace| - 1].CallPoll? then 1 else 0)
  }

  function Slept(trace: seq<Action>): real {
    if trace == [] then 0.0
    else Slept(trace[..|trace| - 1]) + (if trace[|trace| - 1].Sleep? then trace[|trace| - 1].nap else 0.0)
  }

  predicate NapsForward(trace: seq<Action>) {
    trace == [] || (NapsForward(trace[..|trace| - 1]) && (trace[|trace| - 1].Sleep? ==> trace[|trace| - 1].nap >= 0.0))
  }

  lemma CountSnoc(trace: seq<Action>, a: Action)
    ensures Creates(trace + [a]) == Creates(trace) + (if a.CallCreate? then 1 else 0)
    ensures Polls(trace + [a]) == Polls(trace) + (if a.CallPoll? then 1 else 0)
    ensures Slept(trace + [a]) == Slept(trace) + (if a.Sleep? then a.nap else 0.0)
    ensures NapsForward(trace + [a]) <==> NapsForward(trace) && (a.Sleep? ==> a.nap >= 0.0)
  {
    assert (trace + [a])[..|trace|] == trace;
  }

  /** The counts of a machine that keeps its rotations and its waiting within limits. */
  predicate Counts(cfg: Config, m: Machine, creates: nat, polls: nat) {
    && Creates(m.trace) == creates && Polls(m.trace) == polls
    && Slept(m.trace) == m.waited <= cfg.maxWaitTotal && NapsForward(m.trace)
    && m.rotations <= cfg.maxRotations
  }

  /** Each failed call but the resumed poll costs a rotation; each nap counts as waiting. */
  predicate WithinBudget(cfg: Config, resume: Option<string>, m: Machine) {
    var resumed := if Truthy(resume) then 1 else 0;
    var creates, polls := Creates(m.trace), Polls(m.trace);
    && Counts(cfg, m, creates, polls)
    && (match m.phase
        case Resuming(_) => creates == polls == 0
        case Creating => creates <= m.rotations && polls <= m.rotations + resumed
        case Polling(_) => creates <= m.rotations + 1 && polls <= m.rotations + resumed
        case Done(_) => creates <= m.rotations + 1 && polls <= m.rotations + resumed + 1)
  }

  lemma CalledCounts(cfg: Config, m: Machine, a: Action, creates: nat, polls: nat)
    requires Counts(cfg, m, creates, polls) && !a.Sleep?
    ensures Counts(cfg, Called(m, a), creates + (if a.CallCreate? then 1 else 0),
            polls + (if a.CallPoll? then 1 else 0))
  {
    CountSnoc(m.trace, a);
  }

  /** Pausing makes no call and sleeps the nap, forward if it is. */
  lemma PausingCounts(trace: seq<Action>, rotate: bool, nap: Option<real>)
    ensures var after := trace + Pausing(rotate, nap);
            && Creates(after) == Creates(trace) && Polls(after) == Polls(trace)
            && Slept(after) == Slept(trace) + (if nap.Some? then nap.value else 0.0)
            && (NapsForward(after) <==> NapsForward(trace) && (nap.Some? ==> nap.value >= 0.0))
  {
    var rotated := trace + Pausing(rotate, None);
    if rotate {
      assert rotated == trace + [Rotate];
      CountSnoc(trace, Rotate);
    } else {
      assert rotated == trace;
    }
    if nap.Some? {
      assert trace + Pausing(rotate, nap) == rotated + [Sleep(nap.value)];
      CountSnoc(rotated, Sleep(nap.value));
    } else {
      assert trace + Pausing(rotate, nap) == rotated;
    }
  }

  lemma PausedCounts(cfg: Config, m: Machine, after: Machine, nap: Option<real>, creates: nat, polls: nat)
    requires Counts(cfg, m, creates, polls)
    requires Creates(after.trace) == Creates(m.trace) && Polls(after.trace) == Polls(m.trace)
    requires Slept(after.trace) == Slept(m.trace) + (if nap.Some? then nap.value else 0.0) == after.waited
    requires nap.Some? ==> nap.value >= 0.0
    requires NapsForward(after.trace) <==> NapsForward(m.trace) && (nap.Some? ==> nap.value >= 0.0)
    requires after.waited <= cfg.maxWaitTotal && after.rotations <= cfg.maxRotations
    ensures Counts(cfg, after, creates, polls)
  {
  }

  lemma RetryCounts(cfg: Config, m: Machine, next: Phase, reason: Reason, rotate: bool, pause: Option<real>,
                    creates: nat, polls: nat)
    requires pause.Some? ==> pause.value >= 0.0
    requires Counts(cfg, m, creates, polls)
    ensures Counts(cfg, Retry(cfg, m, next, reason, rotate, pause), creates, polls)
  {
    if !Exhausted(cfg, m.rotations, m.waited) {
      var nap := NapWithin(cfg, m.waited, pause);
      PausingCounts(m.trace, rotate, nap);
      PausedCounts(cfg, m, Retry(cfg, m, next, reason, rotate, pause), nap, creates, polls);
    }
  }

  lemma StepKeepsBudget(cfg: Config, resume: Option<string>, m: Machine, t: Turn)
    requires Sane(cfg) && WithinBudget(cfg, resume, m)
    requires m.phase.Resuming? ==> Truthy(resume)
    ensures WithinBudget(cfg, resume, Step(cfg, m, t))
  {
    match m.phase
    case Done(_) =>
    case Creating =>
      CreateKeepsBudget(cfg, resume, m, t, Creates(m.trace), Polls(m.trace));
    case Resuming(_) =>
      ResumeKeepsBudget(cfg, resume, m, t);
    case Polling(_) =>
      PollKeepsBudget(cfg, resume, m, t, Creates(m.trace), Polls(m.trace));
  }

  lemma ResumeKeepsBudget(cfg: Config, resume: Option<string>, m: Machine, t: Turn)
    requires Sane(cfg) && WithinBudget(cfg, resume, m) && m.phase.Resuming? && Truthy(resume)
    ensures WithinBudget(cfg, resume, Step(cfg, m, t))
  {
    var called := Called(m, CallPoll(m.phase.id));
    CalledCounts(cfg, m, CallPoll(m.phase.id), 0, 0);
    if t.poll.Limited? {
      RetryCounts(cfg, called, Creating, RateLimit, true, None, 0, 1);
    }
  }

  lemma PollKeepsBudget(cfg: Config, resume: Option<string>, m: Machine, t: Turn, creates: nat, polls: nat)
    requires Sane(cfg) && WithinBudget(cfg, resume, m) && m.phase.Polling?
    requires creates == Creates(m.trace) && polls == Polls(m.trace)
    ensures WithinBudget(cfg, resume, Step(cfg, m, t))
  {
    var called := Called(m, CallPoll(m.phase.id));
    CalledCounts(cfg, m, CallPoll(m.phase.id), creates, polls);
    if t.poll.NotFound? {
      RetryCounts(cfg, called, Creating, Expired, false, None, creates, polls + 1);
    } else if t.poll.Limited? {
      RetryCounts(cfg, called, m.phase, RateLimit, true, Some(cfg.rotatePause), creates, polls + 1);
    }
  }

  lemma CreateKeepsBudget(cfg: Config, resume: Option<string>, m: Machine, t: Turn, creates: nat, polls: nat)
    requires Sane(cfg) && WithinBudget(cfg, resume, m) && m.phase.Creating?
    requires creates == Creates(m.trace) && polls == Polls(m.trace)
    ensures WithinBudget(cfg, resume, Step(cfg, m, t))
  {
    CalledCounts(cfg, m, CallCreate, creates, polls);
    var called := Called(m, CallCreate);
    match t.create
    case CreateLimited =>
      RetryCounts(cfg, called, Creating, RateLimit, true, Some(cfg.rotatePause), creates + 1, polls);
    case CreateNetwork =>
      RetryCounts(cfg, called, Creating, Network, false, Some(NETWORK_PAUSE), creates + 1, polls);
    case CreateBroken =>
    case Created(body) =>
      if Truthy(CreatedId(body)) {
        CalledCounts(cfg, called, Report(CreatedId(body).value), creates + 1, polls);
      }
  }

  lemma {:induction false} LookupInvariant(cfg: Config, resume: Option<string>, script: seq<Turn>)
    requires Sane(cfg)
    ensures WithinBudget(cfg, resume, Run(cfg, Start(resume), script))
    ensures Run(cfg, Start(resume), script).phase.Resuming? ==> Truthy(resume)
  {
    if script != [] {
      var n := |script| - 1;
      var m := Run(cfg, Start(resume), script[..n]);
      LookupInvariant(cfg, resume, script[..n]);
      StepKeepsBudget(cfg, resume, m, script[n]);
      if !m.phase.Done? {
        NeverResumesAgain(cfg, m, script[n]);
      }
    }
  }

  /** Every turn before the end is a call. */
  lemma {:induction false} TurnsAreCalls(cfg: Config, resume: Option<string>, script: seq<Turn>)
    ensures var m := Run(cfg, Start(resume), script);
            !m.phase.Done? ==> |script| == Creates(m.trace) + Polls(m.trace)
  {
    if script != [] {
      var n := |script| - 1;
      var m := Run(cfg, Start(resume), script[..n]);
      TurnsAreCalls(cfg, resume, script[..n]);
      if !m.phase.Done? {
        StepMakesOneCall(cfg, m, script[n]);
      }
    }
  }

  lemma NeverResumesAgain(cfg: Config, m: Machine, t: Turn)
    requires !m.phase.Done?
    ensures !Step(cfg, m, t).phase.Resuming?
  {
  }

  /** Whatever the answers: at most maxRotations rotations and maxRotations + 1 creates, at most
      maxRotations + 2 polls, no more waiting than allowed, and an end after 2 * maxRotations + 3
      calls at the latest. */
  lemma LookupStaysWithinBudget(cfg: Config, resume: Option<string>, script: seq<Turn>)
    requires Sane(cfg)
    ensures var m := Run(cfg, Start(resume), script);
            && m.rotations <= cfg.maxRotations
            && 0.0 <= m.waited == Slept(m.trace) <= cfg.maxWaitTotal && NapsForward(m.trace)
            && Creates(m.trace) <= cfg.maxRotations + 1 && Polls(m.trace) <= cfg.maxRotations + 2
            && (|script| >= 2 * cfg.maxRotations + 3 ==> m.phase.Done?)
  {
    LookupInvariant(cfg, resume, script);
    TurnsAreCalls(cfg, resume, script);
    SleptForward(Run(cfg, Start(resume), script).trace);
  }

  lemma {:induction false} SleptForward(trace: seq<Action>)
    requires NapsForward(trace)
    ensures Slept(trace) >= 0.0
  {
    if trace != [] {
      SleptForward(trace[..|trace| - 1]);
    }
  }

  lemma RetryMakesNoCall(cfg: Config, m: Machine, next: Phase, reason: Reason, rotate: bool, pause: Option<real>)
    ensures var m' := Retry(cfg, m, next, reason, rotate, pause);
            Creates(m'.trace) == Creates(m.trace) && Polls(m'.trace) == Polls(m.trace)
  {
    PausingCounts(m.trace, rotate, NapWithin(cfg, m.waited, pause));
  }

  lemma StepMakesOneCall(cfg: Config, m: Machine, t: Turn)
    requires !m.phase.Done?
    ensures Creates(Step(cfg, m, t).trace) == Creates(m.trace) + (if m.phase.Creating? then 1 else 0)
    ensures Polls(Step(cfg, m, t).trace) == Polls(m.trace) + (if m.phase.Creating? then 0 else 1)
  {
    if m.phase.Creating? {
      CountSnoc(m.trace, CallCreate);
      AfterCreateMakesNoCall(cfg, Called(m, CallCreate), t.create);
    } else {
      CountSnoc(m.trace, CallPoll(m.phase.id));
      AfterPollMakesNoCall(cfg, Called(m, CallPoll(m.phase.id)), m.phase.id, t.poll);
    }
  }

  lemma AfterCreateMakesNoCall(cfg: Config, m: Machine, reply: CreateReply)
    ensures var m' := AfterCreate(cfg, m, reply);
            Creates(m'.trace) == Creates(m.trace) && Polls(m'.trace) == Polls(m.trace)
  {
    match reply
    case CreateLimited => RetryMakesNoCall(cfg, m, Creating, RateLimit, true, Some(cfg.rotatePause));
    case CreateNetwork => RetryMakesNoCall(cfg, m, Creating, Network, false, Some(NETWORK_PAUSE));
    case CreateBroken =>
    case Created(body) =>
      if Truthy(CreatedId(body)) {
        CountSnoc(m.trace, Report(CreatedId(body).value));
      }
  }

  lemma AfterPollMakesNoCall(cfg: Config, m: Machine, id: string, outcome: PollOutcome)
    ensures var m' := AfterResume(cfg, m, id, outcome);
            Creates(m'.trace) == Creates(m.trace) && Polls(m'.trace) == Polls(m.trace)
    ensures var m' := AfterPoll(cfg, m, id, outcome);
            Creates(m'.trace) == Creates(m.trace) && Polls(m'.trace) == Polls(m.trace)
  {
    RetryMakesNoCall(cfg, m, Creating, RateLimit, true, None);
    RetryMakesNoCall(cfg, m, Creating, Expired, false, None);
    RetryMakesNoCall(cfg, m, Polling(id), RateLimit, true, Some(cfg.rotatePause));
  }

  // ---- ids --------------------------------------------------------------------------------

  /** Every polled id is the resumed one or was reported earlier in the same lookup. */
  predicate ReportedBeforePolled(resume: Option<string>, trace: seq<Action>) {
    trace == [] ||
    (var before, last := trace[..|trace| - 1], trace[|trace| - 1];
     ReportedBeforePolled(resume, before)
     && (last.CallPoll? ==> resume == Some(last.id) || Report(last.id) in before))
  }

  lemma ReportedSnoc(resume: Option<string>, trace: seq<Action>, a: Action)
    requires ReportedBeforePolled(resume, trace)
    requires a.CallPoll? ==> resume == Some(a.id) || Report(a.id) in trace
    ensures ReportedBeforePolled(resume, trace + [a])
  {
    assert (trace + [a])[..|trace|] == trace;
  }

  /** The id a machine is about to poll is the resumed one or has been reported. */
  predicate IdsKnown(resume: Option<string>, m: Machine) {
    && ReportedBeforePolled(resume, m.trace)
    && (m.phase.Polling? ==> Report(m.phase.id) in m.trace)
    && (m.phase.Resuming? ==> resume == Some(m.phase.id))
  }

  lemma PausingReportsBefore(resume: Option<string>, trace: seq<Action>, rotate: bool, nap: Option<real>)
    requires ReportedBeforePolled(resume, trace)
    ensures ReportedBeforePolled(resume, trace + Pausing(rotate, nap))
  {
    var rotated := trace + Pausing(rotate, None);
    if rotate {
      assert rotated == trace + [Rotate];
      ReportedSnoc(resume, trace, Rotate);
    } else {
      assert rotated == trace;
    }
    if nap.Some? {
      assert trace + Pausing(rotate, nap) == rotated + [Sleep(nap.value)];
      ReportedSnoc(resume, rotated, Sleep(nap.value));
    } else {
      assert trace + Pausing(rotate, nap) == rotated;
    }
  }

  lemma RetryKeepsIds(cfg: Config, resume: Option<string>, m: Machine, next: Phase, reason: Reason, rotate: bool,
                      pause: Option<real>)
    requires ReportedBeforePolled(resume, m.trace) && !next.Resuming?
    requires next.Polling? ==> Report(next.id) in m.trace
    ensures IdsKnown(resume, Retry(cfg, m, next, reason, rotate, pause))
  {
    PausingReportsBefore(resume, m.trace, rotate, NapWithin(cfg, m.waited, pause));
  }

  lemma CreatedKeepsIds(cfg: Config, resume: Option<string>, m: Machine, body: Body)
    requires ReportedBeforePolled(resume, m.trace) && !m.phase.Resuming?
    ensures IdsKnown(resume, AfterCreate(cfg, m, Created(body)))
  {
    var id := CreatedId(body);
    if Truthy(id) {
      ReportedSnoc(resume, m.trace, Report(id.value));
      var reported := Called(m, Report(id.value));
      assert reported.trace == m.trace + [Report(id.value)];
      assert AfterCreate(cfg, m, Created(body)).trace == reported.trace;
    } else {
      assert AfterCreate(cfg, m, Created(body)).trace == m.trace;
    }
  }

  lemma CreateKeepsIds(cfg: Config, resume: Option<string>, m: Machine, reply: CreateReply)
    requires ReportedBeforePolled(resume, m.trace) && !m.phase.Resuming?
    ensures IdsKnown(resume, AfterCreate(cfg, m, reply))
  {
    match reply
    case CreateLimited => RetryKeepsIds(cfg, resume, m, Creating, RateLimit, true, Some(cfg.rotatePause));
    case CreateNetwork => RetryKeepsIds(cfg, resume, m, Creating, Network, false, Some(NETWORK_PAUSE));
    case CreateBroken =>
    case Created(body) => CreatedKeepsIds(cfg, resume, m, body);
  }

  lemma ResumeKeepsIds(cfg: Config, resume: Option<string>, m: Machine, id: string, outcome: PollOutcome)
    requires ReportedBeforePolled(resume, m.trace)
    ensures !AfterResume(cfg, m, id, outcome).phase.Resuming? ==> IdsKnown(resume, AfterResume(cfg, m, id, outcome))
  {
    if outcome.Limited? {
      RetryKeepsIds(cfg, resume, m, Creating, RateLimit, true, None);
    }
  }

  lemma PollKeepsIds(cfg: Config, resume: Option<string>, m: Machine, id: string, outcome: PollOutcome)
    requires ReportedBeforePolled(resume, m.trace) && Report(id) in m.trace
    ensures !AfterPoll(cfg, m, id, outcome).phase.Resuming? ==> IdsKnown(resume, AfterPoll(cfg, m, id, outcome))
  {
    if outcome.NotFound? {
      RetryKeepsIds(cfg, resume, m, Creating, Expired, false, None);
    } else if outcome.Limited? {
      RetryKeepsIds(cfg, resume, m, Polling(id), RateLimit, true, Some(cfg.rotatePause));
    }
  }

  lemma StepKeepsIds(cfg: Config, resume: Option<string>, m: Machine, t: Turn)
    requires IdsKnown(resume, m)
    ensures IdsKnown(resume, Step(cfg, m, t))
  {
    if !m.phase.Done? {
      NeverResumesAgain(cfg, m, t);
    }
    match m.phase
    case Done(_) =>
    case Creating =>
      ReportedSnoc(resume, m.trace, CallCreate);
      CreateKeepsIds(cfg, resume, Called(m, CallCreate), t.create);
    case Resuming(id) =>
      ReportedSnoc(resume, m.trace, CallPoll(id));
      ResumeKeepsIds(cfg, resume, Called(m, CallPoll(id)), id, t.poll);
    case Polling(id) =>
      ReportedSnoc(resume, m.trace, CallPoll(id));
      PollKeepsIds(cfg, resume, Called(m, CallPoll(id)), id, t.poll);
  }

  /** Every id is reported before its first poll, in every lookup, finished or cut short. */
  lemma {:induction false} IdsAreReportedBeforePolled(cfg: Config, resume: Option<string>, script: seq<Turn>)
    ensures IdsKnown(resume, Run(cfg, Start(resume), script))
  {
    if script != [] {
      var n := |script| - 1;
      IdsAreReportedBeforePolled(cfg, resume, script[..n]);
      StepKeepsIds(cfg, resume, Run(cfg, Start(resume), script[..n]), script[n]);
    }
  }

  /** Rate limits while polling a fresh id, however many, never lead to another create. */
  lemma {:induction false} RateLimitedPollKeepsItsId(cfg: Config, m: Machine, script: seq<Turn>)
    requires m.phase.Polling? && forall t | t in script :: t.poll.Limited?
    ensures var m' := Run(cfg, m, script);
            && (m'.phase == m.phase || m'.phase == Done(GaveUp(RateLimit)))
            && Creates(m'.trace) == Creates(m.trace)
  {
    if script != [] {
      var n := |script| - 1;
      var before := Run(cfg, m, script[..n]);
      RateLimitedPollKeepsItsId(cfg, m, script[..n]);
      assert script[n] in script;
      if before.phase.Polling? {
        StepMakesOneCall(cfg, before, script[n]);
      }
    }
  }

  // ---- what the callback stores ------------------------------------------------------------

  /** The id left in the row by the callbacks of a lookup. */
  function Persisted(stored: Option<string>, trace: seq<Action>): Option<string> {
    if trace == [] then stored
    else
      var last := trace[|trace| - 1];
      if last.Report? then Some(last.id) else Persisted(stored, trace[..|trace| - 1])
  }

  /** The number of creates that returned an id. */
  function Paid(trace: seq<Action>): nat {
    if trace == [] then 0
    else Paid(trace[..|trace| - 1]) + (if trace[|trace| - 1].Report? then 1 else 0)
  }

  function Given(reply: CreateReply): Option<string> {
    if reply.Created? then CreatedId(reply.body) else None
  }

  lemma ReportSnoc(stored: Option<string>, trace: seq<Action>, a: Action)
    ensures Persisted(stored, trace + [a]) == if a.Report? then Some(a.id) else Persisted(stored, trace)
    ensures Paid(trace + [a]) == Paid(trace) + (if a.Report? then 1 else 0)
  {
    assert (trace + [a])[..|trace|] == trace;
  }

  lemma PausingReportsNothing(stored: Option<string>, trace: seq<Action>, rotate: bool, nap: Option<real>)
    ensures var after := trace + Pausing(rotate, nap);
            Persisted(stored, after) == Persisted(stored, trace) && Paid(after) == Paid(trace)
  {
    var rotated := trace + Pausing(rotate, None);
    if rotate {
      assert rotated == trace + [Rotate];
      ReportSnoc(stored, trace, Rotate);
    } else {
      assert rotated == trace;
    }
    if nap.Some? {
      assert trace + Pausing(rotate, nap) == rotated + [Sleep(nap.value)];
      ReportSnoc(stored, rotated, Sleep(nap.value));
    } else {
      assert trace + Pausing(rotate, nap) == rotated;
    }
  }

  lemma RetryReportsNothing(cfg: Config, stored: Option<string>, m: Machine, next: Phase, reason: Reason,
                            rotate: bool, pause: Option<real>)
    ensures var m' := Retry(cfg, m, next, reason, rotate, pause);
            Persisted(stored, m'.trace) == Persisted(stored, m.trace) && Paid(m'.trace) == Paid(m.trace)
  {
    PausingReportsNothing(stored, m.trace, rotate, NapWithin(cfg, m.waited, pause));
  }

  /** An id is persisted exactly when a create returns one, and then it is that id. */
  lemma StepPersists(cfg: Config, stored: Option<string>, m: Machine, t: Turn)
    ensures var m', given := Step(cfg, m, t), Given(t.create);
            if m.phase.Creating? && Truthy(given) then
              Persisted(stored, m'.trace) == given && Paid(m'.trace) == Paid(m.trace) + 1
            else
              Persisted(stored, m'.trace) == Persisted(stored, m.trace) && Paid(m'.trace) == Paid(m.trace)
  {
    match m.phase
    case Done(_) =>
    case Creating =>
      ReportSnoc(stored, m.trace, CallCreate);
      CreatePersists(cfg, stored, Called(m, CallCreate), t.create);
    case Resuming(id) =>
      ReportSnoc(stored, m.trace, CallPoll(id));
      PollPersistsNothing(cfg, stored, Called(m, CallPoll(id)), id, t.poll);
    case Polling(id) =>
      ReportSnoc(stored, m.trace, CallPoll(id));
      PollPersistsNothing(cfg, stored, Called(m, CallPoll(id)), id, t.poll);
  }

  lemma CreatePersists(cfg: Config, stored: Option<string>, m: Machine, reply: CreateReply)
    ensures var m' := AfterCreate(cfg, m, reply);
            if Truthy(Given(reply)) then
              Persisted(stored, m'.trace) == Given(reply) && Paid(m'.trace) == Paid(m.trace) + 1
            else
              Persisted(stored, m'.trace) == Persisted(stored, m.trace) && Paid(m'.trace) == Paid(m.trace)
  {
    match reply
    case CreateLimited => RetryReportsNothing(cfg, stored, m, Creating, RateLimit, true, Some(cfg.rotatePause));
    case CreateNetwork => RetryReportsNothing(cfg, stored, m, Creating, Network, false, Some(NETWORK_PAUSE));
    case CreateBroken =>
    case Created(body) =>
      if Truthy(CreatedId(body)) {
        ReportSnoc(stored, m.trace, Report(CreatedId(body).value));
      }
  }

  lemma PollPersistsNothing(cfg: Config, stored: Option<string>, m: Machine, id: string, outcome: PollOutcome)
    ensures var m' := AfterResume(cfg, m, id, outcome);
            Persisted(stored, m'.trace) == Persisted(stored, m.trace) && Paid(m'.trace) == Paid(m.trace)
    ensures var m' := AfterPoll(cfg, m, id, outcome);
            Persisted(stored, m'.trace) == Persisted(stored, m.trace) && Paid(m'.trace) == Paid(m.trace)
  {
    RetryReportsNothing(cfg, stored, m, Creating, RateLimit, true, None);
    RetryReportsNothing(cfg, stored, m, Creating, Expired, false, None);
    RetryReportsNothing(cfg, stored, m, Polling(id), RateLimit, true, Some(cfg.rotatePause));
  }

  // ---- determinism ------------------------------------------------------------------------

  /** What is heard in one turn leaves the machine one next state. */
  lemma StepIsDetermined(cfg: Config, carrier: Option<string>, m: Machine, w: Weather, s: Turn, t: Turn)
    requires Heard(cfg, carrier, m.phase, w, s) && Heard(cfg, carrier, m.phase, w, t)
    ensures Step(cfg, m, s) == Step(cfg, m, t)
  {
    if m.phase.Resuming? || m.phase.Polling? {
      var i: nat :| PollMeans(cfg, w.ticks, s.poll, i);
      var j: nat :| PollMeans(cfg, w.ticks, t.poll, j);
      PollIsDetermined(cfg, w.ticks, s.poll, i, t.poll, j);
    }
  }

  /** The network and the clock leave a lookup one course and one ending. */
  lemma {:induction false} LookupIsDetermined(cfg: Config, carrier: Option<string>, m: Machine,
                                              world: nat -> Weather, a: seq<Turn>, b: seq<Turn>)
    requires Consistent(cfg, carrier, m, world, a) && Consistent(cfg, carrier, m, world, b)
    requires |a| == |b| || (|a| < |b| && Run(cfg, m, a).phase.Done?)
    ensures Run(cfg, m, a) == Run(cfg, m, b)
    decreases |b|
  {
    if b != [] {
      var n := |b| - 1;
      if |a| == |b| {
        LookupIsDetermined(cfg, carrier, m, world, a[..n], b[..n]);
        StepIsDetermined(cfg, carrier, Run(cfg, m, a[..n]), world(n), a[n], b[n]);
      } else {
        LookupIsDetermined(cfg, carrier, m, world, a, b[..n]);
      }
    }
  }
}
