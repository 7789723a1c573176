/** How many creates a container costs over its whole history, attempts cut short by crashes
    included: the early commit of a new tracking id (app/services/container_service.py) together
    with the client's resume rules. Attempts follow one another; they do not overlap. */
module ResumeProtocol {
  import opened Text
  import opened GoCometPoll
  import opened GoCometLookup
  import opened GoCometTracker

  /** One attempt: the answers its lookup heard, and whether it lived to commit its result. A
      lookup that never ended, or was never reached because another provider answered, has heard
      fewer answers or none. */
  datatype Attempt = Attempt(script: seq<Turn>, committed: bool)

  /** Only a found answer carries its id through the provider registry. */
  function RegistryId(phase: Phase): Option<string> {
    match phase
    case Done(Answered(id, true)) => id
    case _ => None
  }

  function Lookup(cfg: Config, stored: Option<string>, a: Attempt): Machine {
    Run(cfg, Start(stored), a.script)
  }

  /** The id stored after an attempt. */
  function After(cfg: Config, stored: Option<string>, a: Attempt): Option<string> {
    var m := Lookup(cfg, stored, a);
    if a.committed && RegistryId(m.phase).Some? then RegistryId(m.phase) else Persisted(stored, m.trace)
  }

  predicate FoundWithId(phase: Phase) {
    phase.Done? && phase.ending.Answered? && phase.ending.found && phase.ending.id.Some?
  }

  /** After an attempt the row has the id of a found answer, if the attempt got to store it; else the
      last id reported; else what it had. A miss or a failure brings no id of its own. */
  lemma StoredAfterAnAttempt(cfg: Config, stored: Option<string>, a: Attempt)
    ensures var m := Lookup(cfg, stored, a);
            var id := After(cfg, stored, a);
            if a.committed && FoundWithId(m.phase) then id == m.phase.ending.id else id == Persisted(stored, m.trace)
  {
  }

  /** An answer through which an id in hand is lost: a 404, or a rate limit on a resumed poll. */
  function Loss(phase: Phase, t: Turn): nat {
    match phase
    case Resuming(_) => if t.poll.NotFound? || t.poll.Limited? then 1 else 0
    case Polling(_) => if t.poll.NotFound? then 1 else 0
    case _ => 0
  }

  function Losses(cfg: Config, m: Machine, script: seq<Turn>): nat {
    if script == [] then 0
    else
      var before := script[..|script| - 1];
      Losses(cfg, m, before) + Loss(Run(cfg, m, before).phase, script[|script| - 1])
  }

  /** An answer that overwrites the stored id with an empty string. */
  function Blanked(cfg: Config, stored: Option<string>, a: Attempt): nat {
    if a.committed && RegistryId(Lookup(cfg, stored, a).phase) == Some("") then 1 else 0
  }

  // ---- totals over a history -------------------------------------------------------------

  function StoredAfter(cfg: Config, history: seq<Attempt>): Option<string> {
    if history == [] then None
    else After(cfg, StoredAfter(cfg, history[..|history| - 1]), history[|history| - 1])
  }

  function TotalPaid(cfg: Config, history: seq<Attempt>): nat {
    if history == [] then 0
    else
      var before, last := history[..|history| - 1], history[|history| - 1];
      TotalPaid(cfg, before) + Paid(Lookup(cfg, StoredAfter(cfg, before), last).trace)
  }

  function TotalLosses(cfg: Config, history: seq<Attempt>): nat {
    if history == [] then 0
    else
      var before, last := history[..|history| - 1], history[|history| - 1];
      TotalLosses(cfg, before) + Losses(cfg, Start(StoredAfter(cfg, before)), last.script)
  }

  function TotalBlanked(cfg: Config, history: seq<Attempt>): nat {
    if history == [] then 0
    else
      var before, last := history[..|history| - 1], history[|history| - 1];
      TotalBlanked(cfg, before) + Blanked(cfg, StoredAfter(cfg, before), last)
  }

  // ---- one attempt ------------------------------------------------------------------------

  /** 1 while no id is at hand. */
  function Missing(stored: Option<string>): nat {
    if Truthy(stored) then 0 else 1
  }

  /** 1 while the last id lost in a lookup has not been replaced by a create that returned one. */
  function Unreplaced(cfg: Config, m: Machine, script: seq<Turn>): nat {
    if script == [] then 0
    else
      var before, t := script[..|script| - 1], script[|script| - 1];
      var phase := Run(cfg, m, before).phase;
      if Loss(phase, t) == 1 then 1
      else if phase.Creating? && Truthy(Given(t.create)) then 0
      else Unreplaced(cfg, m, before)
  }

  /** An id in hand is neither missing nor unreplaced; without one, one thing is the matter. */
  predicate Accounted(phase: Phase, missing: nat, unreplaced: nat) {
    match phase
    case Resuming(_) => missing == unreplaced == 0
    case Polling(_) => missing == unreplaced == 0
    case Creating => missing + unreplaced == 1
    case Done(_) => true
  }

  lemma StepBalances(cfg: Config, stored: Option<string>, m: Machine, t: Turn, unreplaced: nat)
    requires Accounted(m.phase, Missing(Persisted(stored, m.trace)), unreplaced)
    ensures var m' := Step(cfg, m, t);
            var missing, missing' := Missing(Persisted(stored, m.trace)), Missing(Persisted(stored, m'.trace));
            var unreplaced' := if Loss(m.phase, t) == 1 then 1
                               else if m.phase.Creating? && Truthy(Given(t.create)) then 0 else unreplaced;
            && Paid(m'.trace) + unreplaced' + missing' == Paid(m.trace) + unreplaced + missing + Loss(m.phase, t)
            && Accounted(m'.phase, missing', unreplaced')
  {
    StepPersists(cfg, stored, m, t);
    match m.phase
    case Done(_) =>
    case Creating => CreateMovesOn(cfg, Called(m, CallCreate), t.create);
    case Resuming(id) => ResumeMovesOn(cfg, Called(m, CallPoll(id)), id, t.poll);
    case Polling(id) => PollMovesOn(cfg, Called(m, CallPoll(id)), id, t.poll);
  }

  lemma CreateMovesOn(cfg: Config, m: Machine, reply: CreateReply)
    ensures var next := AfterCreate(cfg, m, reply).phase;
            && !(next.Resuming? && m.phase != next)
            && (Truthy(Given(reply)) ==> next.Done? || next == Polling(Given(reply).value))
            && (!Truthy(Given(reply)) ==> next.Done? || next.Creating?)
  {
  }

  lemma ResumeMovesOn(cfg: Config, m: Machine, id: string, outcome: PollOutcome)
    ensures var next := AfterResume(cfg, m, id, outcome).phase;
            next.Done? || (next.Creating? && (outcome.NotFound? || outcome.Limited?))
  {
  }

  lemma PollMovesOn(cfg: Config, m: Machine, id: string, outcome: PollOutcome)
    ensures var next := AfterPoll(cfg, m, id, outcome).phase;
            next.Done? || (next == Polling(id) && outcome.Limited?) || (next.Creating? && outcome.NotFound?)
  {
  }

  /** The account of one lookup, at any point of it: creates paid for, a lost id not replaced and an
      id missing at the end make up the id missing at the start and the ids lost. */
  lemma {:induction false} LookupBalances(cfg: Config, stored: Option<string>, script: seq<Turn>)
    ensures var m := Run(cfg, Start(stored), script);
            var missing, unreplaced := Missing(Persisted(stored, m.trace)), Unreplaced(cfg, Start(stored), script);
            && Paid(m.trace) + unreplaced + missing == Missing(stored) + Losses(cfg, Start(stored), script)
            && Accounted(m.phase, missing, unreplaced)
  {
    if script != [] {
      var n := |script| - 1;
      LookupBalances(cfg, stored, script[..n]);
      StepBalances(cfg, stored, Run(cfg, Start(stored), script[..n]), script[n],
                   Unreplaced(cfg, Start(stored), script[..n]));
    }
  }

  /** An answer that carries an id leaves one in the row, if only because the callback stored it. */
  predicate AnswerIsStored(stored: Option<string>, m: Machine) {
    m.phase.Done? && m.phase.ending.Answered? && Truthy(m.phase.ending.id) ==> Truthy(Persisted(stored, m.trace))
  }

  lemma StepStoresAnswer(cfg: Config, stored: Option<string>, m: Machine, t: Turn)
    requires m.phase.Resuming? || m.phase.Polling? ==> Truthy(Persisted(stored, m.trace))
    requires AnswerIsStored(stored, m)
    ensures AnswerIsStored(stored, Step(cfg, m, t))
  {
    StepPersists(cfg, stored, m, t);
    if m.phase.Creating? {
      CreateAnswersGiven(cfg, Called(m, CallCreate), t.create);
    }
  }

  lemma CreateAnswersGiven(cfg: Config, m: Machine, reply: CreateReply)
    ensures var next := AfterCreate(cfg, m, reply).phase;
            next.Done? && next.ending.Answered? ==> next.ending.id == Given(reply)
  {
  }

  lemma {:induction false} LookupStoresItsAnswer(cfg: Config, stored: Option<string>, script: seq<Turn>)
    ensures AnswerIsStored(stored, Run(cfg, Start(stored), script))
  {
    if script != [] {
      var n := |script| - 1;
      LookupStoresItsAnswer(cfg, stored, script[..n]);
      LookupBalances(cfg, stored, script[..n]);
      StepStoresAnswer(cfg, stored, Run(cfg, Start(stored), script[..n]), script[n]);
    }
  }

  // ---- whole histories ----------------------------------------------------------------------

  /** A committed empty id that overwrites one. */
  function Erased(cfg: Config, stored: Option<string>, a: Attempt): nat {
    if Blanked(cfg, stored, a) == 1 && Truthy(Persisted(stored, Lookup(cfg, stored, a).trace)) then 1 else 0
  }

  /** The attempts whose last loss was not made up for. */
  function TotalUnreplaced(cfg: Config, history: seq<Attempt>): nat {
    if history == [] then 0
    else
      var before, last := history[..|history| - 1], history[|history| - 1];
      TotalUnreplaced(cfg, before) + Unreplaced(cfg, Start(StoredAfter(cfg, before)), last.script)
  }

  function TotalErased(cfg: Config, history: seq<Attempt>): nat {
    if history == [] then 0
    else
      var before, last := history[..|history| - 1], history[|history| - 1];
      TotalErased(cfg, before) + Erased(cfg, StoredAfter(cfg, before), last)
  }

  lemma AttemptBalances(cfg: Config, stored: Option<string>, a: Attempt)
    ensures Paid(Lookup(cfg, stored, a).trace) + Unreplaced(cfg, Start(stored), a.script) +
            Missing(After(cfg, stored, a))
            == Missing(stored) + Losses(cfg, Start(stored), a.script) + Erased(cfg, stored, a)
  {
    LookupBalances(cfg, stored, a.script);
    LookupStoresItsAnswer(cfg, stored, a.script);
  }

  /** The exact account of any history of attempts, each possibly cut short anywhere. */
  lemma {:induction false} CreatesAreAccountedFor(cfg: Config, history: seq<Attempt>)
    ensures TotalPaid(cfg, history) + TotalUnreplaced(cfg, history) + Missing(StoredAfter(cfg, history))
            == 1 + TotalLosses(cfg, history) + TotalErased(cfg, history)
  {
    if history != [] {
      var before, last := history[..|history| - 1], history[|history| - 1];
      CreatesAreAccountedFor(cfg, before);
      AttemptBalances(cfg, StoredAfter(cfg, before), last);
    }
  }

  /** So creates number at most one more than the ids lost exactly when the ids erased by empty ones
      are no more than the lost ids never replaced, the first of all counting as one while none is
      stored. */
  lemma PlainBoundIff(cfg: Config, history: seq<Attempt>)
    ensures TotalPaid(cfg, history) <= 1 + TotalLosses(cfg, history)
            <==> TotalErased(cfg, history) <= TotalUnreplaced(cfg, history) + Missing(StoredAfter(cfg, history))
  {
    CreatesAreAccountedFor(cfg, history);
  }

  lemma {:induction false} ErasedIsBlanked(cfg: Config, history: seq<Attempt>)
    ensures TotalErased(cfg, history) <= TotalBlanked(cfg, history)
  {
    if history != [] {
      ErasedIsBlanked(cfg, history[..|history| - 1]);
    }
  }

  /** And always at most that and the found answers naming the empty string as their id. */
  lemma CreatesArePaidForByLosses(cfg: Config, history: seq<Attempt>)
    ensures TotalPaid(cfg, history) + Missing(StoredAfter(cfg, history))
            <= 1 + TotalLosses(cfg, history) + TotalBlanked(cfg, history)
  {
    CreatesAreAccountedFor(cfg, history);
    ErasedIsBlanked(cfg, history);
  }

  // ---- the bound is met, whatever the mishaps ------------------------------------------------

  /** How an id in hand can be lost on the next attempt: to a 404, to a rate limit, or to a found
      answer that names the empty string as its id. */
  datatype Mishap = Vanished | RateLimited | Blank

  function ReturnsId(id: string): CreateReply {
    Created(Body(Present(Some(id)), None, None))
  }

  const BLANK_BODY := Body(Present(Some("")), Some("ok"), None)

  /** The attempts by which the mishap happens and `id` is paid for; the last one dies while polling. */
  function Costing(mishap: Mishap, id: string): seq<Attempt> {
    match mishap
    case Vanished => [Attempt([Turn(CreateBroken, NotFound), Turn(ReturnsId(id), TimedOut)], false)]
    case RateLimited => [Attempt([Turn(CreateBroken, Limited), Turn(ReturnsId(id), TimedOut)], false)]
    case Blank => [Attempt([Turn(CreateBroken, Resolved(BLANK_BODY))], true), First(id)]
  }

  /** The attempt that pays for `id` when nothing is stored. */
  function First(id: string): Attempt {
    Attempt([Turn(ReturnsId(id), TimedOut)], false)
  }

  lemma FirstPays(cfg: Config, stored: Option<string>, id: string)
    requires id != "" && !Truthy(stored)
    ensures var a := First(id);
            && Paid(Lookup(cfg, stored, a).trace) == 1 && Losses(cfg, Start(stored), a.script) == 0
            && Blanked(cfg, stored, a) == 0 && After(cfg, stored, a) == Some(id)
  {
    var t := Turn(ReturnsId(id), TimedOut);
    assert [t][..0] == [];
    RunOne(cfg, Start(stored), t);
    StepPersists(cfg, stored, Start(stored), t);
  }

  lemma RunOne(cfg: Config, m: Machine, t: Turn)
    ensures Run(cfg, m, [t]) == Step(cfg, m, t) && Losses(cfg, m, [t]) == Loss(m.phase, t)
  {
    assert [t][..0] == [];
    assert Run(cfg, m, [t][..0]) == m && Losses(cfg, m, [t][..0]) == 0;
  }

  lemma RunPair(cfg: Config, m: Machine, t: Turn, u: Turn)
    ensures Run(cfg, m, [t, u]) == Step(cfg, Step(cfg, m, t), u)
    ensures Losses(cfg, m, [t, u]) == Loss(m.phase, t) + Loss(Step(cfg, m, t).phase, u)
  {
    RunOne(cfg, m, t);
    assert [t, u][..1] == [t];
  }

  /** A resumed id that is lost costs one create in the same attempt. */
  lemma LosingPays(cfg: Config, stored: Option<string>, outcome: PollOutcome, id: string)
    requires Truthy(stored) && id != "" && (outcome.NotFound? || outcome.Limited?)
    requires outcome.Limited? ==> !Exhausted(cfg, 0, 0.0)
    ensures var a := Attempt([Turn(CreateBroken, outcome), Turn(ReturnsId(id), TimedOut)], false);
            && Paid(Lookup(cfg, stored, a).trace) == 1 && Losses(cfg, Start(stored), a.script) == 1
            && Blanked(cfg, stored, a) == 0 && After(cfg, stored, a) == Some(id)
  {
    var t, u := Turn(CreateBroken, outcome), Turn(ReturnsId(id), TimedOut);
    RunPair(cfg, Start(stored), t, u);
    StepPersists(cfg, stored, Start(stored), t);
    StepPersists(cfg, stored, Step(cfg, Start(stored), t), u);
  }

  lemma BlankBodyIsFound(id: Option<string>)
    ensures Finalize(BLANK_BODY, id) == Answered(Some(""), true)
  {
    assert Lower("ok") == "ok";
  }

  lemma BlankingPaysNothing(cfg: Config, stored: Option<string>, body: Body)
    requires Truthy(stored) && Finalize(body, stored) == Answered(Some(""), true)
    ensures var a := Attempt([Turn(CreateBroken, Resolved(body))], true);
            && Paid(Lookup(cfg, stored, a).trace) == 0 && Losses(cfg, Start(stored), a.script) == 0
            && Blanked(cfg, stored, a) == 1 && After(cfg, stored, a) == Some("")
  {
    var t := Turn(CreateBroken, Resolved(body));
    RunOne(cfg, Start(stored), t);
    StepPersists(cfg, stored, Start(stored), t);
    assert Step(cfg, Start(stored), t).phase == Done(Answered(Some(""), true));
  }

  lemma TotalSnoc(cfg: Config, history: seq<Attempt>, a: Attempt)
    ensures var longer, stored := history + [a], StoredAfter(cfg, history);
            && StoredAfter(cfg, longer) == After(cfg, stored, a)
            && TotalPaid(cfg, longer) == TotalPaid(cfg, history) + Paid(Lookup(cfg, stored, a).trace)
            && TotalLosses(cfg, longer) == TotalLosses(cfg, history) + Losses(cfg, Start(stored), a.script)
            && TotalBlanked(cfg, longer) == TotalBlanked(cfg, history) + Blanked(cfg, stored, a)
  {
    assert (history + [a])[..|history|] == history;
  }

  /** What a mishap adds to a history that has an id in hand. */
  lemma MishapCosts(cfg: Config, history: seq<Attempt>, mishap: Mishap, id: string)
    requires Truthy(StoredAfter(cfg, history)) && id != ""
    requires mishap.RateLimited? ==> !Exhausted(cfg, 0, 0.0)
    ensures var longer := history + Costing(mishap, id);
            && StoredAfter(cfg, longer) == Some(id)
            && TotalPaid(cfg, longer) == TotalPaid(cfg, history) + 1
            && TotalLosses(cfg, longer) == TotalLosses(cfg, history) + (if mishap.Blank? then 0 else 1)
            && TotalBlanked(cfg, longer) == TotalBlanked(cfg, history) + (if mishap.Blank? then 1 else 0)
  {
    var stored := StoredAfter(cfg, history);
    match mishap
    case Vanished =>
      LosingPays(cfg, stored, NotFound, id);
      TotalSnoc(cfg, history, Costing(mishap, id)[0]);
    case RateLimited =>
      LosingPays(cfg, stored, Limited, id);
      TotalSnoc(cfg, history, Costing(mishap, id)[0]);
    case Blank =>
      var blanking := Costing(mishap, id)[0];
      BlankBodyIsFound(stored);
      BlankingPaysNothing(cfg, stored, BLANK_BODY);
      TotalSnoc(cfg, history, blanking);
      FirstPays(cfg, Some(""), id);
      TotalSnoc(cfg, history + [blanking], First(id));
      assert history + Costing(mishap, id) == history + [blanking] + [First(id)];
  }

  function Blanks(mishaps: seq<Mishap>): nat {
    if mishaps == [] then 0
    else Blanks(mishaps[..|mishaps| - 1]) + (if mishaps[|mishaps| - 1].Blank? then 1 else 0)
  }

  /** The bound is met: any mix of mishaps, in any order, can cost one create each. A rate limit
      needs a client that may rotate at all. */
  lemma {:induction false} EveryLossCanCostACreate(cfg: Config, mishaps: seq<Mishap>) returns (history: seq<Attempt>)
    requires RateLimited in mishaps ==> !Exhausted(cfg, 0, 0.0)
    ensures TotalPaid(cfg, history) == 1 + |mishaps| == 1 + TotalLosses(cfg, history) + TotalBlanked(cfg, history)
    ensures TotalBlanked(cfg, history) == Blanks(mishaps)
    ensures Truthy(StoredAfter(cfg, history))
  {
    if mishaps == [] {
      history := [] + [First("id")];
      FirstPays(cfg, None, "id");
      TotalSnoc(cfg, [], First("id"));
    } else {
      var n := |mishaps| - 1;
      assert mishaps[n] in mishaps;
      var before := EveryLossCanCostACreate(cfg, mishaps[..n]);
      MishapCosts(cfg, before, mishaps[n], "id");
      history := before + Costing(mishaps[n], "id");
    }
  }

  /** So without the term for empty ids the bound would be false: two creates, nothing lost. */
  lemma EmptyIdsBreakThePlainBound(cfg: Config) returns (history: seq<Attempt>)
    ensures TotalPaid(cfg, history) == 2 && TotalLosses(cfg, history) == 0 && TotalBlanked(cfg, history) == 1
  {
    history := EveryLossCanCostACreate(cfg, [Blank]);
    assert [Blank][..0] == [];
    assert Blanks([Blank]) == 1;
  }

  /** One attempt that runs to its end: resume what is stored, the callback committing every new id as
      it is reported, then store whatever id the registry's result carries. */
  method Refresh(row: StoredId, tracker: Tracker, carrier: Option<string>, world: nat -> Weather)
    returns (ending: Ending, ghost script: seq<Turn>)
    requires Sane(tracker.cfg) && forall k: nat :: Forward(world(k).ticks)
    modifies row
    ensures Consistent(tracker.cfg, carrier, Start(old(row.id)), world, script)
    ensures Lookup(tracker.cfg, old(row.id), Attempt(script, true)).phase == Done(ending)
    ensures row.id == After(tracker.cfg, old(row.id), Attempt(script, true))
  {
    var actions;
    ending, actions, script := tracker.Track(row.id, carrier, world, row);
    if RegistryId(Done(ending)).Some? {
      row.id := RegistryId(Done(ending));
    }
  }
}
