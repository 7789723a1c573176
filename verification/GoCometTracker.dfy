/** The client itself: the loops of `poll` and `track` (app/providers/gocomet_http.py). */
module GoCometTracker {
  import opened Text
  import opened GoCometPoll
  import opened GoCometLookup
  import opened GoCometAnswers

  /** A round before the deadline is within the bound, and the tally behind the clock. */
  lemma RoundIsAllowed(cfg: Config, ticks: nat -> Tick, n: nat)
    requires Sane(cfg) && Forward(ticks) && Passed(cfg, ticks, n) < cfg.pollTimeout
    ensures n + 1 <= MaxGets(cfg)
    ensures 0.0 <= Elapsed(cfg, ticks, n) <= Passed(cfg, ticks, n)
  {
    GetsAreBounded(cfg, ticks, n + 1);
    TallyIsHonest(cfg, ticks, n);
  }

  lemma RoundDecides(cfg: Config, ticks: nat -> Tick, n: nat, outcome: PollOutcome)
    requires StillPolling(cfg, ticks, n) && Passed(cfg, ticks, n) < cfg.pollTimeout
    requires ticks(n).reply.Some? && Classify(ticks(n).reply.value) == Some(outcome)
    ensures PollMeans(cfg, ticks, outcome, n + 1) && PollAnswers(ticks, outcome, n + 1)
  {
    ClassifyEnds(ticks(n).reply.value);
    PollAnswersItsReplies(cfg, ticks, outcome, n + 1);
  }

  /** One turn more: what was heard, where the machine is, and what is in the row. */
  lemma NextTurn(cfg: Config, carrier: Option<string>, resume: Option<string>, stored: Option<string>,
                 world: nat -> Weather, script: seq<Turn>, t: Turn)
    requires Sane(cfg) && Consistent(cfg, carrier, Start(resume), world, script)
    requires !Run(cfg, Start(resume), script).phase.Done?
    requires Heard(cfg, carrier, Run(cfg, Start(resume), script).phase, world(|script|), t)
    ensures var before, heard := Run(cfg, Start(resume), script), script + [t];
            var after := Run(cfg, Start(resume), heard);
            && Consistent(cfg, carrier, Start(resume), world, heard)
            && after == Step(cfg, before, t) && !after.phase.Resuming?
            && heard[..|heard| - 1] == script && |heard| <= 2 * cfg.maxRotations + 3
            && Persisted(stored, after.trace)
               == (if before.phase.Creating? && Truthy(Given(t.create)) then Given(t.create)
                   else Persisted(stored, before.trace))
  {
    var before := Run(cfg, Start(resume), script);
    Hear(cfg, carrier, resume, world, script, t);
    NeverResumesAgain(cfg, before, t);
    StepPersists(cfg, stored, before, t);
  }

  /** Where the callback of a lookup puts a new id: the container's row, committed at once. */
  class StoredId {
    var id: Option<string>

    constructor ()
      ensures id == None
    {
      id := None;
    }

    method PersistEarly(newId: string)
      modifies this
      ensures id == Some(newId)
    {
      id := Some(newId);
    }
  }

  class Tracker {
    const cfg: Config

    constructor (cfg: Config)
      ensures this.cfg == cfg
    {
      this.cfg := cfg;
    }

    /** Ask until the answer is final, from `start` on; `finish` is when the outcome is known and
        `elapsed` the tally of naps, which never runs ahead of the clock. */
    method Poll(ticks: nat -> Tick, start: real) returns (outcome: PollOutcome, gets: nat, elapsed: real, finish: real)
      requires Sane(cfg) && Forward(ticks)
      ensures PollMeans(cfg, ticks, outcome, gets) && PollAnswers(ticks, outcome, gets)
      ensures gets <= MaxGets(cfg)
      ensures elapsed == Elapsed(cfg, ticks, if outcome.TimedOut? then gets else gets - 1)
      ensures 0.0 <= elapsed <= finish - start
    {
      var deadline := start + cfg.pollTimeout;
      elapsed := 0.0;
      finish := start;
      gets := 0;
      while finish < deadline
        invariant gets <= MaxGets(cfg)
        invariant StillPolling(cfg, ticks, gets)
        invariant elapsed == Elapsed(cfg, ticks, gets)
        invariant finish == start + Passed(cfg, ticks, gets)
        decreases MaxGets(cfg) - gets
      {
        var tick := ticks(gets);
        RoundIsAllowed(cfg, ticks, gets);
        finish := finish + tick.spent;
        gets := gets + 1;
        var interval;
        if tick.reply.None? {
          interval := Min(cfg.pollInterval, POLL_ERROR_CAP);
        } else {
          var verdict := Classify(tick.reply.value);
          if verdict.Some? {
            outcome := verdict.value;
            RoundDecides(cfg, ticks, gets - 1, outcome);
            return;
          }
          interval := if elapsed < cfg.pollFastWindow then cfg.pollFastInterval else cfg.pollInterval;
        }
        finish := finish + interval + tick.overrun;
        elapsed := elapsed + interval;
      }
      TallyIsHonest(cfg, ticks, gets);
      outcome := TimedOut;
      PollAnswersItsReplies(cfg, ticks, outcome, gets);
    }

    /** Whether a lookup so far has done what the machine does on the answers in `script`, with every
        id reported so far in the row. */
    ghost predicate OnCourse(lookup: Lookup, resume: Option<string>, carrier: Option<string>, world: nat -> Weather,
                             script: seq<Turn>)
      reads lookup, lookup.row
    {
      && lookup.cfg == cfg && Consistent(cfg, carrier, Start(resume), world, script)
      && lookup.View() == Run(cfg, Start(resume), script)
      && lookup.row.id == Persisted(lookup.stored, lookup.actions)
      && (script != [] ==> !Run(cfg, Start(resume), script[..|script| - 1]).phase.Done?)
      && |script| <= 2 * cfg.maxRotations + 3
    }

    /** One create, as the next turn of a lookup; an id it returns is stored before anything else. */
    method CreateTurn(lookup: Lookup, ghost resume: Option<string>, carrier: Option<string>, world: nat -> Weather,
                      turn: nat, ghost script: seq<Turn>)
      returns (ghost heard: seq<Turn>)
      requires Sane(cfg) && OnCourse(lookup, resume, carrier, world, script) && turn == |script|
      requires lookup.phase.Creating?
      modifies lookup, lookup.row
      ensures OnCourse(lookup, resume, carrier, world, heard) && |heard| == turn + 1
      ensures !lookup.phase.Resuming? && lookup.IdIsStored()
    {
      var reply := ClassifyCreate(carrier, world(turn).suggested, world(turn).create);
      ghost var t := Turn(reply, TimedOut);
      NextTurn(cfg, carrier, resume, lookup.stored, world, script, t);
      lookup.HearCreate(reply, t);
      heard := script + [t];
    }

    /** One poll, started whenever it may be. */
    method Ask(ghost phase: Phase, ghost carrier: Option<string>, w: Weather) returns (outcome: PollOutcome)
      requires Sane(cfg) && Forward(w.ticks) && (phase.Resuming? || phase.Polling?)
      ensures Heard(cfg, carrier, phase, w, Turn(CreateBroken, outcome))
    {
      var gets, elapsed, finish;
      outcome, gets, elapsed, finish := Poll(w.ticks, 0.0);
    }

    /** One poll as the next turn: of the resumed id, or of a new one, which is in the row. */
    method PollTurn(lookup: Lookup, ghost resume: Option<string>, ghost carrier: Option<string>,
                    world: nat -> Weather, turn: nat, ghost script: seq<Turn>)
      returns (ghost heard: seq<Turn>)
      requires Sane(cfg) && OnCourse(lookup, resume, carrier, world, script) && turn == |script|
      requires lookup.IdIsStored()
      requires Forward(world(turn).ticks) && (lookup.phase.Resuming? || lookup.phase.Polling?)
      modifies lookup
      ensures OnCourse(lookup, resume, carrier, world, heard) && |heard| == turn + 1
      ensures !lookup.phase.Resuming? && lookup.IdIsStored()
    {
      var outcome := Ask(lookup.phase, carrier, world(turn));
      ghost var t := Turn(CreateBroken, outcome);
      NextTurn(cfg, carrier, resume, lookup.stored, world, script, t);
      if lookup.phase.Resuming? {
        lookup.HearResume(outcome, t);
      } else {
        lookup.HearPoll(outcome, t);
      }
      heard := script + [t];
    }

    /** Resolve one number: resume a known id if there is one, else create and poll, rotating past
        limits. `script` is what was heard, call by call; new ids go into `row`. */
    method Track(resume: Option<string>, carrier: Option<string>, world: nat -> Weather, row: StoredId)
      returns (ending: Ending, actions: seq<Action>, ghost script: seq<Turn>)
      requires Sane(cfg) && forall k: nat :: Forward(world(k).ticks)
      modifies row
      ensures Consistent(cfg, carrier, Start(resume), world, script)
      ensures Run(cfg, Start(resume), script).phase == Done(ending)
      ensures Run(cfg, Start(resume), script).trace == actions
      ensures |script| <= 2 * cfg.maxRotations + 3
      ensures EndsAt(cfg, resume, script)
      ensures EndsWith(cfg, Run(cfg, Start(resume), script[..|script| - 1]), script[|script| - 1], ending)
      ensures Creates(actions) <= cfg.maxRotations + 1 && Polls(actions) <= cfg.maxRotations + 2
      ensures Slept(actions) <= cfg.maxWaitTotal && NapsForward(actions)
      ensures ReportedBeforePolled(resume, actions)
      ensures row.id == Persisted(old(row.id), actions)
    {
      var lookup := new Lookup(cfg, resume, row);
      var turn := 0;
      script := [];
      if lookup.phase.Resuming? {
        script := PollTurn(lookup, resume, carrier, world, turn, script);
        turn := turn + 1;
      }
      while !lookup.phase.Done?
        invariant fresh(lookup) && lookup.row == row && lookup.stored == old(row.id)
        invariant !lookup.phase.Resuming? && lookup.IdIsStored()
        invariant turn == |script| && OnCourse(lookup, resume, carrier, world, script)
        decreases 2 * cfg.maxRotations + 3 - turn
      {
        if lookup.phase.Creating? {
          script := CreateTurn(lookup, resume, carrier, world, turn, script);
          turn := turn + 1;
          if !lookup.phase.Polling? {
            continue;
          }
        }
        script := PollTurn(lookup, resume, carrier, world, turn, script);
        turn := turn + 1;
      }
      LookupEndsWithItsLastAnswer(cfg, resume, script);
      LookupStaysWithinBudget(cfg, resume, script);
      IdsAreReportedBeforePolled(cfg, resume, script);
      return lookup.phase.ending, lookup.actions, script;
    }
  }

  /** The variables of one lookup in progress. */
  class Lookup {
    const cfg: Config
    const row: StoredId
    /** What the row held to begin with. */
    ghost const stored: Option<string>
    var phase: Phase
    var rotations: nat
    var waited: real
    var actions: seq<Action>

    function View(): Machine
      reads this
    {
      Machine(phase, rotations, waited, actions)
    }

    /** A new id being polled is in the row. */
    predicate IdIsStored()
      reads this, row
    {
      phase.Polling? ==> row.id == Some(phase.id)
    }

    constructor (cfg: Config, resume: Option<string>, row: StoredId)
      ensures this.cfg == cfg && this.row == row && stored == row.id && View() == Start(resume)
    {
      this.cfg, this.row, stored := cfg, row, row.id;
      phase := if Truthy(resume) then Resuming(resume.value) else Creating;
      rotations, waited, actions := 0, 0.0, [];
    }

    /** Give up when the rotations or the waiting are used up; else burn a rotation and go on. */
    method RotateOrGiveUp(next: Phase, reason: Reason, rotate: bool, pause: Option<real>)
      modifies this
      ensures View() == Retry(cfg, old(View()), next, reason, rotate, pause)
    {
      if rotations >= cfg.maxRotations || waited >= cfg.maxWaitTotal {
        phase := Done(GaveUp(reason));
        return;
      }
      rotations := rotations + 1;
      if rotate {
        actions := actions + [Rotate];
      }
      if pause.Some? {
        var nap := Min(pause.value, cfg.maxWaitTotal - waited);
        actions := actions + [Sleep(nap)];
        waited := waited + nap;
      }
      phase := next;
    }

    method HearResume(outcome: PollOutcome, ghost t: Turn)
      requires phase.Resuming? && t.poll == outcome
      modifies this
      ensures View() == Step(cfg, old(View()), t)
    {
      var id := phase.id;
      actions := actions + [CallPoll(id)];
      match outcome {
        case Resolved(body) =>
          phase := Done(Finalize(body, Some(id)));
        case NotFound =>
          phase := Creating;
        case TimedOut =>
          phase := Done(Answered(Some(id), false));
        case Limited =>
          RotateOrGiveUp(Creating, RateLimit, true, None);
        case Broken =>
          phase := Done(GaveUp(Crash));
      }
    }

    method HearCreate(reply: CreateReply, ghost t: Turn)
      requires phase.Creating? && t.create == reply
      modifies this, row
      ensures View() == Step(cfg, old(View()), t)
      ensures row.id == if Truthy(Given(reply)) then Given(reply) else old(row.id)
      ensures IdIsStored()
    {
      actions := actions + [CallCreate];
      match reply {
        case CreateLimited =>
          RotateOrGiveUp(Creating, RateLimit, true, Some(cfg.rotatePause));
        case CreateNetwork =>
          RotateOrGiveUp(Creating, Network, false, Some(NETWORK_PAUSE));
        case CreateBroken =>
          phase := Done(GaveUp(Crash));
        case Created(body) =>
          var newId := CreatedId(body);
          if Settled(body.status) {
            if Truthy(newId) {
              row.PersistEarly(newId.value);
              actions := actions + [Report(newId.value)];
            }
            phase := Done(Finalize(body, newId));
          } else if !Truthy(newId) {
            phase := Done(GaveUp(Crash));
          } else {
            row.PersistEarly(newId.value);
            actions := actions + [Report(newId.value)];
            phase := Polling(newId.value);
          }
      }
    }

    method HearPoll(outcome: PollOutcome, ghost t: Turn)
      requires phase.Polling? && t.poll == outcome
      modifies this
      ensures View() == Step(cfg, old(View()), t)
      ensures phase.Polling? ==> phase == old(phase)
    {
      var id := phase.id;
      actions := actions + [CallPoll(id)];
      match outcome {
        case Resolved(body) =>
          phase := Done(Finalize(body, Some(id)));
        case Limited =>
          RotateOrGiveUp(Polling(id), RateLimit, true, Some(cfg.rotatePause));
        case NotFound =>
          RotateOrGiveUp(Creating, Expired, false, None);
        case TimedOut =>
          phase := Done(Answered(Some(id), false));
        case Broken =>
          phase := Done(GaveUp(Crash));
      }
    }
  }
}
