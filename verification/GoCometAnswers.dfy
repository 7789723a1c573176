/** What the client makes of what it hears, told in terms of the replies themselves: status codes,
    texts and JSON fields (app/providers/gocomet_http.py). */
module GoCometAnswers {
  import opened Text
  import opened GoCometPoll
  import opened GoCometLookup

  // ---- single replies -----------------------------------------------------------------------

  ghost predicate Mentions(text: string, words: string) {
    exists i: nat :: StandsAt(Lower(text), words, i)
  }

  ghost predicate SpeaksOfQuota(text: string) {
    Mentions(text, "limit") && (Mentions(text, "month") || Mentions(text, "upgrade") || Mentions(text, "reached"))
  }

  /** A reply that says to come back later or from elsewhere. */
  ghost predicate TurnsAway(resp: Response) {
    || resp.code == 429 || resp.code == 503
    || Mentions(resp.text, "too many requests") || Mentions(resp.text, "captcha")
    || (resp.code == 422 && SpeaksOfQuota(resp.text))
  }

  lemma TurnsAwayIff(resp: Response)
    ensures TurnsAway(resp) <==> LooksRateLimited(resp) || LooksQuotaExceeded(resp)
  {
    var text := Lower(resp.text);
    ContainsIff(text, "too many requests");
    ContainsIff(text, "captcha");
    ContainsIff(text, "limit");
    ContainsIff(text, "month");
    ContainsIff(text, "upgrade");
    ContainsIff(text, "reached");
  }

  /** A body with a final status. */
  predicate Final(body: Body) {
    body.status.Some? && body.status.value != "" && body.status.value != "pending"
  }

  /** A good reply: not a refusal, a success code, the JSON object expected. */
  ghost predicate Good(resp: Response) {
    !TurnsAway(resp) && 200 <= resp.code <= 399 && resp.body.Some?
  }

  /** Real tracking data, rather than one of the ways to have none. */
  predicate HasData(body: Body) {
    && body.status.Some? && body.status.value != ""
    && (var status := Lower(body.status.value);
        status != "pending" && status != "data_not_found" && status != "invalid" && status != "invalid_tracking")
    && !(body.opsStatus.Some? && Lower(body.opsStatus.value) == "marked_invalid")
  }

  // ---- a poll ---------------------------------------------------------------------------------

  /** The reply that ends a poll, and how. */
  ghost predicate Ends(resp: Response, outcome: PollOutcome) {
    match outcome
    case NotFound => resp.code == 404
    case Limited => resp.code != 404 && TurnsAway(resp)
    case Resolved(body) => resp.code != 404 && Good(resp) && resp.body == Some(body) && Final(body)
    case Broken => resp.code != 404 && !TurnsAway(resp) && !Good(resp)
    case TimedOut => false
  }

  /** A round that leaves the poll as it was: no reply, or a good one that is still pending. */
  ghost predicate StillPending(t: Tick) {
    t.reply.Some? ==>
      var resp := t.reply.value;
      resp.code != 404 && Good(resp) && !Final(resp.body.value)
  }

  lemma ClassifyEnds(resp: Response)
    ensures match Classify(resp)
            case Some(outcome) => Ends(resp, outcome)
            case None => resp.code != 404 && Good(resp) && !Final(resp.body.value)
  {
    TurnsAwayIff(resp);
  }

  lemma {:induction false} EarlierRoundsArePending(cfg: Config, ticks: nat -> Tick, n: nat)
    requires StillPolling(cfg, ticks, n)
    ensures forall k: nat | k < n :: StillPending(ticks(k))
  {
    if n > 0 {
      EarlierRoundsArePending(cfg, ticks, n - 1);
      if ticks(n - 1).reply.Some? {
        ClassifyEnds(ticks(n - 1).reply.value);
      }
    }
  }

  /** The whole of a poll: every round before the last left it pending, and the last reply ends it
      as its code, its text and its status say; or time ran out on pending rounds alone. */
  ghost predicate PollAnswers(ticks: nat -> Tick, outcome: PollOutcome, gets: nat) {
    if outcome.TimedOut? then forall k: nat | k < gets :: StillPending(ticks(k))
    else
      && gets > 0 && (forall k: nat | k < gets - 1 :: StillPending(ticks(k)))
      && ticks(gets - 1).reply.Some? && Ends(ticks(gets - 1).reply.value, outcome)
  }

  lemma PollAnswersItsReplies(cfg: Config, ticks: nat -> Tick, outcome: PollOutcome, gets: nat)
    requires PollMeans(cfg, ticks, outcome, gets)
    ensures PollAnswers(ticks, outcome, gets)
  {
    if outcome.TimedOut? {
      EarlierRoundsArePending(cfg, ticks, gets);
    } else {
      EarlierRoundsArePending(cfg, ticks, gets - 1);
      ClassifyEnds(ticks(gets - 1).reply.value);
    }
  }

  /** Each outcome comes from exactly the replies that call for it. */
  lemma OneOutcomePerReply(resp: Response, a: PollOutcome, b: PollOutcome)
    requires Ends(resp, a) && Ends(resp, b)
    ensures a == b
  {
  }

  /** How long each round of a poll naps. */
  lemma NapsBetweenRounds(cfg: Config, ticks: nat -> Tick, n: nat)
    ensures var nap := Elapsed(cfg, ticks, n + 1) - Elapsed(cfg, ticks, n);
            && (ticks(n).reply.None? ==> nap == if cfg.pollInterval > 5.0 then 5.0 else cfg.pollInterval)
            && (ticks(n).reply.Some? && Elapsed(cfg, ticks, n) < cfg.pollFastWindow ==> nap == cfg.pollFastInterval)
            && (ticks(n).reply.Some? && Elapsed(cfg, ticks, n) >= cfg.pollFastWindow ==> nap == cfg.pollInterval)
            && Passed(cfg, ticks, n + 1) == Passed(cfg, ticks, n) + ticks(n).spent + nap + ticks(n).overrun
  {
  }

  // ---- a create -------------------------------------------------------------------------------

  predicate Known(carrier: Option<string>) {
    carrier.Some? && carrier.value != ""
  }

  /** No carrier, given or suggested, and nothing is sent; else the reply decides. */
  lemma CreateAnswersItsReply(carrier: Option<string>, suggested: Option<string>, reply: Option<Response>)
    ensures var answer := ClassifyCreate(carrier, suggested, reply);
            if !Known(carrier) && !Known(suggested) then answer.CreateBroken?
            else if reply.None? then answer.CreateNetwork?
            else
              var resp := reply.value;
              && (answer.CreateLimited? <==> TurnsAway(resp))
              && (answer.CreateNetwork? <==> !TurnsAway(resp) && !(200 <= resp.code <= 399))
              && (answer.CreateBroken? <==> !TurnsAway(resp) && 200 <= resp.code <= 399 && resp.body.None?)
              && (answer.Created? <==> Good(resp))
              && (answer.Created? ==> Some(answer.body) == resp.body)
  {
    if reply.Some? {
      TurnsAwayIff(reply.value);
    }
  }

  // ---- a lookup ---------------------------------------------------------------------------------

  /** No more retries: the rotations or the waiting are used up. */
  predicate UsedUp(cfg: Config, m: Machine) {
    m.rotations >= cfg.maxRotations || m.waited >= cfg.maxWaitTotal
  }

  /** The id in a body's own field, even a null one; else the one that was asked for. */
  function OwnId(body: Body, asked: Option<string>): Option<string> {
    if body.id.Present? then body.id.id else asked
  }

  /** The answer to the last call, and what the lookup ends with. */
  predicate EndsWith(cfg: Config, before: Machine, t: Turn, ending: Ending) {
    match before.phase
    case Done(_) => false
    case Creating => CreateEndsWith(cfg, before, t.create, ending)
    case Resuming(id) => PollEndsWith(cfg, before, id, t.poll, ending)
    case Polling(id) => PollEndsWith(cfg, before, id, t.poll, ending)
  }

  predicate PollEndsWith(cfg: Config, before: Machine, id: string, outcome: PollOutcome, ending: Ending) {
    match outcome
    case Resolved(body) => ending == Answered(OwnId(body, Some(id)), HasData(body))
    case TimedOut => ending == Answered(Some(id), false)
    case NotFound => before.phase.Polling? && UsedUp(cfg, before) && ending == GaveUp(Expired)
    case Limited => UsedUp(cfg, before) && ending == GaveUp(RateLimit)
    case Broken => ending == GaveUp(Crash)
  }

  predicate CreateEndsWith(cfg: Config, before: Machine, reply: CreateReply, ending: Ending) {
    match reply
    case CreateLimited => UsedUp(cfg, before) && ending == GaveUp(RateLimit)
    case CreateNetwork => UsedUp(cfg, before) && ending == GaveUp(Network)
    case CreateBroken => ending == GaveUp(Crash)
    case Created(body) =>
      if Final(body) then ending == Answered(OwnId(body, None), HasData(body))
      else !(body.id.Present? && Known(body.id.id)) && ending == GaveUp(Crash)
  }

  /** A nap is cut to the waiting that is left. */
  function Nap(cfg: Config, before: Machine, pause: real): real {
    var left := cfg.maxWaitTotal - before.waited;
    if left < pause then left else pause
  }

  /** Where a lookup goes on after an answer that does not end it, what it does first, how long that
      takes, and whether it costs a rotation. */
  predicate GoesOn(cfg: Config, before: Machine, t: Turn, next: Phase, did: seq<Action>, waits: real, rotates: bool) {
    match before.phase
    case Done(_) => false
    case Creating =>
      (match t.create
       case CreateLimited =>
         var nap := Nap(cfg, before, cfg.rotatePause);
         !UsedUp(cfg, before) && next == Creating && did == [CallCreate, Rotate, Sleep(nap)] && waits == nap && rotates
       case CreateNetwork =>
         var nap := Nap(cfg, before, 15.0);
         !UsedUp(cfg, before) && next == Creating && did == [CallCreate, Sleep(nap)] && waits == nap && rotates
       case CreateBroken => false
       case Created(body) =>
         && !Final(body) && body.id.Present? && Known(body.id.id)
         && next == Polling(body.id.id.value) && did == [CallCreate, Report(body.id.id.value)]
         && waits == 0.0 && !rotates)
    case Resuming(id) =>
      (match t.poll
       case NotFound => next == Creating && did == [CallPoll(id)] && waits == 0.0 && !rotates
       case Limited =>
         && !UsedUp(cfg, before) && next == Creating && did == [CallPoll(id), Rotate]
         && waits == 0.0 && rotates
       case _ => false)
    case Polling(id) =>
      (match t.poll
       case NotFound => !UsedUp(cfg, before) && next == Creating && did == [CallPoll(id)] && waits == 0.0 && rotates
       case Limited =>
         var nap := Nap(cfg, before, cfg.rotatePause);
         && !UsedUp(cfg, before) && next == Polling(id) && did == [CallPoll(id), Rotate, Sleep(nap)]
         && waits == nap && rotates
       case _ => false)
  }

  /** What a turn that ends the lookup does: its one call, and the report of an id created for good. */
  function LastActs(before: Machine, t: Turn): seq<Action> {
    match before.phase
    case Done(_) => []
    case Creating =>
      if t.create.Created? && t.create.body.id.Present? && Known(t.create.body.id.id)
      then [CallCreate, Report(t.create.body.id.id.value)] else [CallCreate]
    case Resuming(id) => [CallPoll(id)]
    case Polling(id) => [CallPoll(id)]
  }

  /** One turn: the lookup ends as the answer calls for, or goes on as it calls for. */
  ghost predicate Follows(cfg: Config, before: Machine, t: Turn, after: Machine) {
    if after.phase.Done? then
      && EndsWith(cfg, before, t, after.phase.ending)
      && after.trace == before.trace + LastActs(before, t)
      && after.rotations == before.rotations && after.waited == before.waited
    else
      && before.trace <= after.trace && before.rotations <= after.rotations <= before.rotations + 1
      && GoesOn(cfg, before, t, after.phase, after.trace[|before.trace|..], after.waited - before.waited,
                after.rotations == before.rotations + 1)
  }

  lemma CreateFollows(cfg: Config, m: Machine, t: Turn)
    requires m.phase.Creating?
    ensures Follows(cfg, m, t, Step(cfg, m, t))
  {
    var after := Step(cfg, m, t);
    if !after.phase.Done? {
      assert after.trace == m.trace + after.trace[|m.trace|..];
    }
  }

  lemma ResumeFollows(cfg: Config, m: Machine, t: Turn)
    requires m.phase.Resuming?
    ensures Follows(cfg, m, t, Step(cfg, m, t))
  {
  }

  lemma PollFollows(cfg: Config, m: Machine, t: Turn)
    requires m.phase.Polling?
    ensures Follows(cfg, m, t, Step(cfg, m, t))
  {
  }

  lemma StepFollows(cfg: Config, m: Machine, t: Turn)
    requires !m.phase.Done?
    ensures Follows(cfg, m, t, Step(cfg, m, t))
  {
    match m.phase
    case Creating => CreateFollows(cfg, m, t);
    case Resuming(_) => ResumeFollows(cfg, m, t);
    case Polling(_) => PollFollows(cfg, m, t);
  }

  /** An answer leaves no choice: between ending and going on, and between endings. */
  lemma EndsOrGoesOn(cfg: Config, m: Machine, t: Turn, a: Ending, b: Ending)
    ensures EndsWith(cfg, m, t, a) && EndsWith(cfg, m, t, b) ==> a == b
    ensures EndsWith(cfg, m, t, a) ==>
              forall next, did, waits, rotates :: !GoesOn(cfg, m, t, next, did, waits, rotates)
  {
  }

  /** A lookup that ends with the last of the answers heard. */
  predicate EndsAt(cfg: Config, resume: Option<string>, script: seq<Turn>) {
    && script != [] && Run(cfg, Start(resume), script).phase.Done?
    && !Run(cfg, Start(resume), script[..|script| - 1]).phase.Done?
  }

  /** A lookup starts by polling a stored id, if there is one, and by creating otherwise. */
  lemma StartsByResuming(resume: Option<string>)
    ensures var m := Start(resume);
            && m.rotations == 0 && m.waited == 0.0 && m.trace == []
            && m.phase == if resume.Some? && resume.value != "" then Resuming(resume.value) else Creating
  {
  }

  /** However it got there, a lookup ends with what its last answer calls for. */
  lemma LookupEndsWithItsLastAnswer(cfg: Config, resume: Option<string>, script: seq<Turn>)
    requires EndsAt(cfg, resume, script)
    ensures EndsWith(cfg, Run(cfg, Start(resume), script[..|script| - 1]), script[|script| - 1],
                     Run(cfg, Start(resume), script).phase.ending)
  {
    StepFollows(cfg, Run(cfg, Start(resume), script[..|script| - 1]), script[|script| - 1]);
  }

  /** The final body in an answer, if it is one. */
  function FinalBody(before: Machine, t: Turn): Option<Body> {
    match before.phase
    case Done(_) => None
    case Creating => if t.create.Created? && Final(t.create.body) then Some(t.create.body) else None
    case Resuming(_) => if t.poll.Resolved? then Some(t.poll.body) else None
    case Polling(_) => if t.poll.Resolved? then Some(t.poll.body) else None
  }

  /** So a lookup finds something exactly when its last answer is a final body with real data. */
  lemma FoundIffDataAtLast(cfg: Config, resume: Option<string>, script: seq<Turn>)
    requires EndsAt(cfg, resume, script)
    ensures var ending := Run(cfg, Start(resume), script).phase.ending;
            var body := FinalBody(Run(cfg, Start(resume), script[..|script| - 1]), script[|script| - 1]);
            ending.Answered? && ending.found <==> body.Some? && HasData(body.value)
  {
    LookupEndsWithItsLastAnswer(cfg, resume, script);
  }

  /** And the answer of a poll turn is what the replies of that poll call for. */
  lemma HeardIsAnswered(cfg: Config, carrier: Option<string>, phase: Phase, w: Weather, t: Turn)
    requires Heard(cfg, carrier, phase, w, t) && (phase.Resuming? || phase.Polling?)
    ensures exists gets: nat :: PollAnswers(w.ticks, t.poll, gets)
  {
    var gets: nat :| PollMeans(cfg, w.ticks, t.poll, gets);
    PollAnswersItsReplies(cfg, w.ticks, t.poll, gets);
  }
}
