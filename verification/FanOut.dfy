/** The bounded fan-out over many numbers (app/services/bulk_tracking_service.py): workers pull from
    one queue, each with a tracker from the shared pool. Any interleaving, no cancellation. */
module FanOut {
  import opened Text
  import SessionPool

  /** How one attempt ends: a result, or an exception with its message. */
  datatype Outcome = Returned(status: Option<string>, found: bool) | Failed(message: string)

  datatype Report = Report(number: Option<string>, status: Option<string>, found: bool, message: Option<string>)

  function ReportOf(number: string, outcome: Outcome): Report {
    match outcome
    case Returned(status, found) => Report(None, status, found, None)
    case Failed(message) => Report(Some(number), Some("error"), false, Some(message))
  }

  /** A busy worker holds the queue item it took. */
  datatype Worker = Waiting | Idle | Busy(index: nat, number: string) | Finished

  /** One attempt: who made it, for which slot, at which number, and how it ended. */
  datatype Attempt = Attempt(worker: nat, index: nat, number: string, outcome: Outcome)

  /** `attempts` is the log of all attempts that have ended, in order. */
  datatype Run = Run(
    numbers: seq<string>,
    todo: seq<(nat, string)>,
    workers: seq<Worker>,
    pool: SessionPool.Pool,
    results: seq<Option<Report>>,
    attempts: seq<Attempt>)

  function Enumerated(numbers: seq<string>): seq<(nat, string)> {
    seq(|numbers|, i requires 0 <= i < |numbers| => (i, numbers[i]))
  }

  function WorkerCount(batchSize: int, n: nat): nat {
    var least := if batchSize < n then batchSize else n;
    if least < 1 then 1 else least
  }

  function Begin(numbers: seq<string>, batchSize: int, pool: SessionPool.Pool): Run {
    Run(numbers, Enumerated(numbers), seq(WorkerCount(batchSize, |numbers|), _ => Waiting), pool,
        seq(|numbers|, _ => None), [])
  }

  /** A worker acquires, takes, or finishes; or the pool moves for other reasons: a build
      completes, or another request, whose holder number is none of the workers', uses it. */
  datatype Op = Start(w: nat) | Take(w: nat) | Finish(w: nat, outcome: Outcome) | Elsewhere(op: SessionPool.Op)

  predicate Foreign(r: Run, op: SessionPool.Op) {
    match op
    case Filling(_) => true
    case Built => true
    case Acquiring(h) => h >= |r.workers|
    case Releasing(h) => h >= |r.workers|
    case Discarding(h) => h >= |r.workers|
  }

  predicate Enabled(r: Run, op: Op) {
    match op
    case Start(w) => w < |r.workers| && r.workers[w].Waiting?
    case Take(w) => w < |r.workers| && r.workers[w].Idle?
    case Finish(w, _) => w < |r.workers| && r.workers[w].Busy?
    case Elsewhere(op) => Foreign(r, op)
  }

  function Started(r: Run, w: nat): Run
    requires w < |r.workers|
  {
    r.(workers := r.workers[w := Idle], pool := SessionPool.Acquire(r.pool, w))
  }

  function Took(r: Run, w: nat): Run
    requires w < |r.workers|
  {
    if r.todo == [] then r.(workers := r.workers[w := Finished], pool := SessionPool.Release(r.pool, w))
    else r.(workers := r.workers[w := Busy(r.todo[0].0, r.todo[0].1)], todo := r.todo[1..])
  }

  /** The attempt at the item taken has ended. A failed one costs the tracker; either way the slot
      of the item is filled. */
  function Answered(r: Run, w: nat, outcome: Outcome): Run
    requires w < |r.workers| && r.workers[w].Busy?
  {
    var Busy(i, number) := r.workers[w];
    r.(workers := r.workers[w := Idle],
       pool := if outcome.Failed? then SessionPool.Acquire(SessionPool.Discard(r.pool, w), w) else r.pool,
       results := if i < |r.results| then r.results[i := Some(ReportOf(number, outcome))] else r.results,
       attempts := r.attempts + [Attempt(w, i, number, outcome)])
  }

  /** A step that is not enabled does not happen. */
  function Step(r: Run, op: Op): Run {
    if !Enabled(r, op) then r
    else match op
      case Start(w) => Started(r, w)
      case Take(w) => Took(r, w)
      case Finish(w, outcome) => Answered(r, w, outcome)
      case Elsewhere(op) => r.(pool := SessionPool.Step(r.pool, op))
  }

  function After(r: Run, ops: seq<Op>): Run {
    if ops == [] then r else Step(After(r, ops[..|ops| - 1]), ops[|ops| - 1])
  }

  // ---- the invariant ----------------------------------------------------------------------

  function Taken(r: Run): int {
    |r.numbers| - |r.todo|
  }

  predicate BusyWith(r: Run, i: nat) {
    exists w | 0 <= w < |r.workers| :: r.workers[w].Busy? && r.workers[w].index == i
  }

  predicate Attempted(r: Run, i: nat) {
    exists k | 0 <= k < |r.attempts| :: r.attempts[k].index == i
  }

  predicate HasTracker(w: Worker) {
    w.Idle? || w.Busy?
  }

  /** What is still queued is the rest of the list. */
  ghost predicate Queued(r: Run) {
    && |r.results| == |r.numbers| && |r.todo| <= |r.numbers|
    && r.todo == Enumerated(r.numbers)[Taken(r)..]
    && (r.todo != [] ==> forall w | 0 <= w < |r.workers| :: !r.workers[w].Finished?)
  }

  /** Every busy worker is at a number of the list, taken under its own index and by nobody else. */
  ghost predicate AtWork(r: Run) {
    && (forall w | 0 <= w < |r.workers| && r.workers[w].Busy? ::
          r.workers[w].index < Taken(r) <= |r.numbers| && r.workers[w].number == r.numbers[r.workers[w].index])
    && (forall v, w | 0 <= v < w < |r.workers| && r.workers[v].Busy? && r.workers[w].Busy? ::
          r.workers[v].index != r.workers[w].index)
  }

  /** No index is attempted twice, each attempt was at the number of its index, and its slot holds
      the report of it. */
  ghost predicate LogHolds(r: Run) {
    && |r.results| == |r.numbers|
    && (forall j, k | 0 <= j < k < |r.attempts| :: r.attempts[j].index != r.attempts[k].index)
    && (forall k | 0 <= k < |r.attempts| ::
          var a := r.attempts[k];
          && a.index < |r.numbers| && a.number == r.numbers[a.index] && a.worker < |r.workers|
          && r.results[a.index] == Some(ReportOf(a.number, a.outcome)))
  }

  /** A slot is filled exactly when its index has been attempted, and that is when it was taken and
      nobody is at it any more. */
  ghost predicate SlotsMatch(r: Run) {
    && |r.results| == |r.numbers|
    && (forall i: nat | i < |r.numbers| :: r.results[i].Some? <==> Attempted(r, i))
    && (forall i: nat | i < |r.numbers| :: r.results[i].Some? <==> i < Taken(r) && !BusyWith(r, i))
  }

  ghost predicate Orderly(r: Run) {
    Queued(r) && AtWork(r) && LogHolds(r) && SlotsMatch(r)
  }

  /** Workers hold a tracker exactly while they work. */
  ghost predicate Equipped(r: Run) {
    && SessionPool.Sound(r.pool)
    && (forall w | 0 <= w < |r.workers| :: w in r.pool.held <==> HasTracker(r.workers[w]))
  }

  /** Before the first step: everything queued, nobody at work, nothing logged, no slot filled. */
  lemma UntouchedIsOrderly(r: Run)
    requires r.todo == Enumerated(r.numbers) && r.attempts == []
    requires forall w | 0 <= w < |r.workers| :: r.workers[w] == Waiting
    requires |r.results| == |r.numbers| && forall i | 0 <= i < |r.results| :: r.results[i] == None
    ensures Orderly(r)
  {
    assert Taken(r) == 0 && Enumerated(r.numbers)[0..] == r.todo;
    assert Queued(r);
    assert AtWork(r) && LogHolds(r);
    assert forall i: nat :: !Attempted(r, i);
    assert SlotsMatch(r);
  }

  lemma BeginIsOrderly(numbers: seq<string>, batchSize: int, pool: SessionPool.Pool)
    ensures Orderly(Begin(numbers, batchSize, pool)) && |Begin(numbers, batchSize, pool).workers| >= 1
  {
    UntouchedIsOrderly(Begin(numbers, batchSize, pool));
  }

  /** A worker that neither leaves nor takes index i changes nothing about who is at i. */
  lemma OthersStayBusy(r: Run, r': Run, w: nat, x: Worker, i: nat)
    requires w < |r.workers| && r'.workers == r.workers[w := x]
    requires !(x.Busy? && x.index == i) && !(r.workers[w].Busy? && r.workers[w].index == i)
    ensures BusyWith(r', i) <==> BusyWith(r, i)
  {
    if BusyWith(r, i) {
      var v :| 0 <= v < |r.workers| && r.workers[v].Busy? && r.workers[v].index == i;
      assert r'.workers[v] == r.workers[v];
    }
    if BusyWith(r', i) {
      var v :| 0 <= v < |r'.workers| && r'.workers[v].Busy? && r'.workers[v].index == i;
      assert r.workers[v] == r'.workers[v];
    }
  }

  lemma TakeKeepsQueued(r: Run, w: nat)
    requires Orderly(r) && Enabled(r, Take(w))
    ensures Queued(Took(r, w)) && AtWork(Took(r, w))
  {
    if r.todo != [] {
      var k := Taken(r);
      assert r.todo[0] == Enumerated(r.numbers)[k] == (k, r.numbers[k]);
      assert r.todo[1..] == Enumerated(r.numbers)[k + 1..];
    }
  }

  lemma TakeKeepsSlots(r: Run, w: nat)
    requires Orderly(r) && Enabled(r, Take(w))
    ensures SlotsMatch(Took(r, w))
  {
    var r' := Took(r, w);
    var x := r'.workers[w];
    forall i: nat | i < |r.numbers|
      ensures r'.results[i].Some? <==> Attempted(r', i)
      ensures r'.results[i].Some? <==> i < Taken(r') && !BusyWith(r', i)
    {
      assert Attempted(r', i) <==> Attempted(r, i);
      if r.todo != [] && i == Taken(r) {
        assert r.todo[0] == Enumerated(r.numbers)[i];
        assert x.Busy? && x.index == i && BusyWith(r', i);
      } else {
        assert r.todo != [] ==> r.todo[0] == Enumerated(r.numbers)[Taken(r)];
        OthersStayBusy(r, r', w, x, i);
      }
    }
  }

  lemma FinishKeepsLog(r: Run, w: nat, outcome: Outcome)
    requires Orderly(r) && Enabled(r, Finish(w, outcome))
    ensures LogHolds(Answered(r, w, outcome))
  {
    var k := r.workers[w].index;
    assert BusyWith(r, k);
    assert r.results[k].None? && !Attempted(r, k);
    assert forall j | 0 <= j < |r.attempts| :: r.attempts[j].index != k;
  }

  lemma FinishKeepsSlots(r: Run, w: nat, outcome: Outcome)
    requires Orderly(r) && Enabled(r, Finish(w, outcome))
    ensures SlotsMatch(Answered(r, w, outcome))
  {
    var r' := Answered(r, w, outcome);
    var k := r.workers[w].index;
    forall i: nat | i < |r.numbers|
      ensures r'.results[i].Some? <==> Attempted(r', i)
      ensures r'.results[i].Some? <==> i < Taken(r') && !BusyWith(r', i)
    {
      assert r'.attempts[|r.attempts|].index == k;
      assert Attempted(r', i) <==> Attempted(r, i) || i == k by {
        assert forall j | 0 <= j < |r.attempts| :: r'.attempts[j] == r.attempts[j];
      }
      if i != k {
        OthersStayBusy(r, r', w, Idle, i);
      } else {
        assert !BusyWith(r', i);
      }
    }
  }

  lemma FinishKeepsOrderly(r: Run, w: nat, outcome: Outcome)
    requires Orderly(r) && Enabled(r, Finish(w, outcome))
    ensures Orderly(Answered(r, w, outcome))
  {
    FinishKeepsLog(r, w, outcome);
    FinishKeepsSlots(r, w, outcome);
  }

  lemma StartKeepsOrderly(r: Run, w: nat)
    requires Orderly(r) && Enabled(r, Start(w))
    ensures Orderly(Started(r, w))
  {
    var r' := Started(r, w);
    forall i: nat
      ensures (BusyWith(r', i) <==> BusyWith(r, i)) && (Attempted(r', i) <==> Attempted(r, i))
    {
      OthersStayBusy(r, r', w, Idle, i);
    }
  }

  lemma StepKeepsOrderly(r: Run, op: Op)
    requires Orderly(r)
    ensures Orderly(Step(r, op))
  {
    if Enabled(r, op) {
      match op
      case Start(w) => StartKeepsOrderly(r, w);
      case Take(w) =>
        TakeKeepsQueued(r, w);
        TakeKeepsSlots(r, w);
      case Finish(w, outcome) => FinishKeepsOrderly(r, w, outcome);
      case Elsewhere(_) =>
        assert forall i: nat :: BusyWith(Step(r, op), i) <==> BusyWith(r, i);
        assert forall i: nat :: Attempted(Step(r, op), i) <==> Attempted(r, i);
    }
  }

  lemma FinishKeepsEquipped(r: Run, w: nat, outcome: Outcome)
    requires Equipped(r) && w < |r.workers| && r.workers[w].Busy?
    ensures Equipped(Answered(r, w, outcome))
  {
    SessionPool.DiscardKeepsSound(r.pool, w);
    SessionPool.AcquireKeepsSound(SessionPool.Discard(r.pool, w), w);
  }

  lemma TakeKeepsEquipped(r: Run, w: nat)
    requires Equipped(r) && w < |r.workers| && r.workers[w].Idle?
    ensures Equipped(Took(r, w))
  {
    SessionPool.ReleaseKeepsSound(r.pool, w);
  }

  lemma StartKeepsEquipped(r: Run, w: nat)
    requires Equipped(r) && w < |r.workers| && r.workers[w].Waiting?
    ensures Equipped(Started(r, w))
  {
    SessionPool.AcquireKeepsSound(r.pool, w);
  }

  lemma ElsewhereKeepsEquipped(r: Run, op: SessionPool.Op)
    requires Equipped(r) && Foreign(r, op)
    ensures Equipped(r.(pool := SessionPool.Step(r.pool, op)))
  {
    SessionPool.StepKeepsSound(r.pool, op);
  }

  lemma StepKeepsEquipped(r: Run, op: Op)
    requires Equipped(r)
    ensures Equipped(Step(r, op))
  {
    if Enabled(r, op) {
      match op
      case Start(w) => StartKeepsEquipped(r, w);
      case Take(w) => TakeKeepsEquipped(r, w);
      case Finish(w, outcome) => FinishKeepsEquipped(r, w, outcome);
      case Elsewhere(op) => ElsewhereKeepsEquipped(r, op);
    }
  }

  // ---- termination ------------------------------------------------------------------------

  function Weight(w: Worker): nat {
    match w
    case Waiting => 2
    case Idle => 1
    case Busy(_, _) => 2
    case Finished => 0
  }

  function Weights(workers: seq<Worker>): nat {
    if workers == [] then 0 else Weights(workers[..|workers| - 1]) + Weight(workers[|workers| - 1])
  }

  lemma {:induction false} WeightsUpdate(workers: seq<Worker>, w: nat, x: Worker)
    requires w < |workers|
    ensures Weights(workers[w := x]) + Weight(workers[w]) == Weights(workers) + Weight(x)
  {
    var n := |workers| - 1;
    if w < n {
      WeightsUpdate(workers[..n], w, x);
      assert workers[w := x][..n] == workers[..n][w := x];
    } else {
      assert workers[w := x][..n] == workers[..n];
    }
  }

  lemma {:induction false} WeightsAllWaiting(n: nat)
    ensures Weights(seq(n, _ => Waiting)) == 2 * n
  {
    if n > 0 {
      WeightsAllWaiting(n - 1);
      assert seq(n, _ => Waiting)[..n - 1] == seq(n - 1, _ => Waiting);
    }
  }

  lemma {:induction false} NoWeightNobodyLeft(workers: seq<Worker>)
    ensures Weights(workers) == 0 <==> forall w | 0 <= w < |workers| :: workers[w].Finished?
  {
    if workers != [] {
      NoWeightNobodyLeft(workers[..|workers| - 1]);
    }
  }

  function WorkLeft(r: Run): nat {
    2 * |r.todo| + Weights(r.workers)
  }

  /** Whether a step is a worker's and really happens. */
  predicate Works(r: Run, op: Op) {
    !op.Elsewhere? && Enabled(r, op)
  }

  lemma StepDoesItsShare(r: Run, op: Op)
    ensures WorkLeft(Step(r, op)) == WorkLeft(r) - (if Works(r, op) then 1 else 0)
  {
    if Works(r, op) {
      match op
      case Start(w) => WeightsUpdate(r.workers, w, Idle);
      case Take(w) => WeightsUpdate(r.workers, w, if r.todo == [] then Finished else Busy(r.todo[0].0, r.todo[0].1));
      case Finish(w, _) => WeightsUpdate(r.workers, w, Idle);
    }
  }

  function WorkerSteps(r: Run, ops: seq<Op>): nat {
    if ops == [] then 0
    else
      var before := ops[..|ops| - 1];
      WorkerSteps(r, before) + (if Works(After(r, before), ops[|ops| - 1]) then 1 else 0)
  }

  /** A run may begin with any sound pool none of whose holders is one of the new workers. */
  ghost predicate Ready(pool: SessionPool.Pool, workers: nat) {
    SessionPool.Sound(pool) && forall h | h in pool.held :: h >= workers
  }

  ghost predicate Good(r: Run) {
    Orderly(r) && Equipped(r)
  }

  lemma BeginIsGood(numbers: seq<string>, batchSize: int, pool: SessionPool.Pool)
    requires Ready(pool, WorkerCount(batchSize, |numbers|))
    ensures var start := Begin(numbers, batchSize, pool);
            Good(start)
  {
    BeginIsOrderly(numbers, batchSize, pool);
  }

  lemma StepKeepsGood(r: Run, op: Op)
    requires Good(r)
    ensures var r' := Step(r, op);
            Good(r') && r'.numbers == r.numbers && |r'.workers| == |r.workers|
  {
    StepKeepsOrderly(r, op);
    StepKeepsEquipped(r, op);
  }

  /** The invariant in every interleaving. */
  lemma {:induction false} EveryRunIsGood(numbers: seq<string>, batchSize: int, pool: SessionPool.Pool, ops: seq<Op>)
    requires Ready(pool, WorkerCount(batchSize, |numbers|))
    ensures var start := Begin(numbers, batchSize, pool);
            var r := After(start, ops);
            r.numbers == numbers && |r.workers| == WorkerCount(batchSize, |numbers|) && Good(r)
  {
    var start := Begin(numbers, batchSize, pool);
    if ops == [] {
      BeginIsGood(numbers, batchSize, pool);
    } else {
      var n := |ops| - 1;
      EveryRunIsGood(numbers, batchSize, pool, ops[..n]);
      StepKeepsGood(After(start, ops[..n]), ops[n]);
    }
  }

  predicate AllFinished(r: Run) {
    forall w | 0 <= w < |r.workers| :: r.workers[w].Finished?
  }

  ghost predicate CanWork(r: Run) {
    exists op :: Works(r, op)
  }

  lemma SomeStepOf(r: Run, w: nat)
    requires Orderly(r) && w < |r.workers| && !r.workers[w].Finished?
    ensures CanWork(r)
  {
    var op := match r.workers[w]
      case Waiting => Start(w)
      case Idle => Take(w)
      case _ => Finish(w, Failed(""));
    assert Works(r, op);
  }

  lemma FinishedIffNoWorkLeft(r: Run)
    requires Orderly(r) && r.workers != []
    ensures AllFinished(r) <==> WorkLeft(r) == 0
  {
    NoWeightNobodyLeft(r.workers);
    if AllFinished(r) {
      assert r.workers[0].Finished?;
    }
  }

  lemma SomebodyCanWork(r: Run)
    requires Orderly(r) && !AllFinished(r)
    ensures CanWork(r)
  {
    var w :| 0 <= w < |r.workers| && !r.workers[w].Finished?;
    SomeStepOf(r, w);
  }

  /** What the worker steps so far leave of the work. */
  lemma {:induction false} WorkIsCounted(numbers: seq<string>, batchSize: int, pool: SessionPool.Pool, ops: seq<Op>)
    ensures var start := Begin(numbers, batchSize, pool);
            WorkLeft(After(start, ops)) + WorkerSteps(start, ops) == 2 * |numbers| + 2 * |start.workers|
  {
    var start := Begin(numbers, batchSize, pool);
    if ops == [] {
      WeightsAllWaiting(|start.workers|);
      assert start.workers == seq(|start.workers|, _ => Waiting);
    } else {
      var n := |ops| - 1;
      WorkIsCounted(numbers, batchSize, pool, ops[..n]);
      StepDoesItsShare(After(start, ops[..n]), ops[n]);
    }
  }

  lemma AllFinishedIffNoWorkLeft(numbers: seq<string>, batchSize: int, pool: SessionPool.Pool, ops: seq<Op>)
    requires Ready(pool, WorkerCount(batchSize, |numbers|))
    ensures var r := After(Begin(numbers, batchSize, pool), ops);
            AllFinished(r) <==> WorkLeft(r) == 0
  {
    EveryRunIsGood(numbers, batchSize, pool, ops);
    FinishedIffNoWorkLeft(After(Begin(numbers, batchSize, pool), ops));
  }

  /** No run goes on forever: the workers take exactly 2 * numbers + 2 * workers steps until all
      have finished. */
  lemma EveryRunEnds(numbers: seq<string>, batchSize: int, pool: SessionPool.Pool, ops: seq<Op>)
    requires Ready(pool, WorkerCount(batchSize, |numbers|))
    ensures var start := Begin(numbers, batchSize, pool);
            var steps, all := WorkerSteps(start, ops), 2 * |numbers| + 2 * |start.workers|;
            steps <= all && (AllFinished(After(start, ops)) <==> steps == all)
  {
    WorkIsCounted(numbers, batchSize, pool, ops);
    AllFinishedIffNoWorkLeft(numbers, batchSize, pool, ops);
  }

  /** And as long as one worker has not, some worker has a step to take. */
  lemma NoRunGetsStuck(numbers: seq<string>, batchSize: int, pool: SessionPool.Pool, ops: seq<Op>)
    requires Ready(pool, WorkerCount(batchSize, |numbers|))
    ensures var r := After(Begin(numbers, batchSize, pool), ops);
            AllFinished(r) || CanWork(r)
  {
    EveryRunIsGood(numbers, batchSize, pool, ops);
    var r := After(Begin(numbers, batchSize, pool), ops);
    if !AllFinished(r) {
      SomebodyCanWork(r);
    }
  }

  /** The k-th attempt was made at the i-th number, the slot reports it, and it is the only one made
      for that slot. */
  ghost predicate ReportsOnly(r: Run, i: nat, k: nat)
    requires i < |r.numbers| == |r.results|
  {
    && k < |r.attempts| && r.attempts[k].index == i && r.attempts[k].number == r.numbers[i]
    && r.results[i] == Some(ReportOf(r.numbers[i], r.attempts[k].outcome))
    && forall j | 0 <= j < |r.attempts| && r.attempts[j].index == i :: j == k
  }

  ghost predicate ReportsItsOnlyAttempt(r: Run, i: nat)
    requires i < |r.numbers| == |r.results|
  {
    exists k: nat :: ReportsOnly(r, i, k)
  }

  lemma FilledSlotReportsItsOnlyAttempt(r: Run, i: nat)
    requires Orderly(r) && i < |r.numbers| && r.results[i].Some?
    ensures ReportsItsOnlyAttempt(r, i)
  {
    assert Attempted(r, i);
    var k :| 0 <= k < |r.attempts| && r.attempts[k].index == i;
    assert ReportsOnly(r, i, k);
  }

  lemma NobodyLeftAllFilled(r: Run)
    requires Orderly(r) && AllFinished(r) && r.workers != []
    ensures r.todo == [] && forall i: nat | i < |r.numbers| :: r.results[i].Some?
  {
    assert r.workers[0].Finished?;
    assert forall i: nat :: !BusyWith(r, i);
  }

  /** When all workers have finished, every slot reports the one attempt made for it, at its own
      number, whichever worker made it; and the workers' trackers are all back or replaced. */
  lemma FinishedRunIsComplete(numbers: seq<string>, batchSize: int, pool: SessionPool.Pool, ops: seq<Op>)
    requires Ready(pool, WorkerCount(batchSize, |numbers|))
    requires AllFinished(After(Begin(numbers, batchSize, pool), ops))
    ensures var r := After(Begin(numbers, batchSize, pool), ops);
            && r.numbers == numbers && r.todo == [] && |r.results| == |numbers|
            && (forall i: nat | i < |numbers| :: ReportsItsOnlyAttempt(r, i))
            && (forall w | 0 <= w < |r.workers| :: w !in r.pool.held)
  {
    EveryRunIsGood(numbers, batchSize, pool, ops);
    var r := After(Begin(numbers, batchSize, pool), ops);
    NobodyLeftAllFilled(r);
    forall i: nat | i < |numbers|
      ensures ReportsItsOnlyAttempt(r, i)
    {
      FilledSlotReportsItsOnlyAttempt(r, i);
    }
  }

  /** The log only grows, and a filled slot never changes. */
  lemma AttemptsAreFinal(r: Run, op: Op)
    requires Orderly(r)
    ensures r.attempts <= Step(r, op).attempts
    ensures forall i: nat | i < |r.numbers| && r.results[i].Some? :: Step(r, op).results[i] == r.results[i]
  {
    if op.Finish? && Enabled(r, op) {
      assert BusyWith(r, r.workers[op.w].index);
    }
  }

  /** What a slot says after its attempt: the tracker's own result as it is, or the number with the
      error, marked as not found. */
  lemma SlotsSayWhatHappened(r: Run, i: nat, k: nat)
    requires i < |r.numbers| == |r.results| && ReportsOnly(r, i, k)
    ensures match r.attempts[k].outcome
            case Returned(status, found) => r.results[i] == Some(Report(None, status, found, None))
            case Failed(message) =>
              r.results[i] == Some(Report(Some(r.numbers[i]), Some("error"), false, Some(message)))
  {
  }

  /** So a slot counts as a success exactly when its attempt came back with data, not marked an error. */
  lemma SuccessIffDataCameBack(r: Run, i: nat, k: nat)
    requires i < |r.numbers| == |r.results| && ReportsOnly(r, i, k)
    ensures var outcome := r.attempts[k].outcome;
            Success(r.results[i]) <==> outcome.Returned? && outcome.found && outcome.status != Some("error")
  {
  }

  /** A tracker whose attempt failed is out for good, and its worker goes on with another one; after
      any other attempt the worker keeps its tracker. */
  lemma FailedTrackerIsOut(r: Run, w: nat, outcome: Outcome)
    requires Equipped(r) && Enabled(r, Finish(w, outcome))
    ensures var r' := Step(r, Finish(w, outcome));
            && w in r.pool.held && w in r'.pool.held && r'.workers[w] == Idle
            && (outcome.Failed? ==> r.pool.held[w] in r'.pool.gone && r'.pool.held[w] != r.pool.held[w])
            && (outcome.Returned? ==> r'.pool == r.pool)
  {
    if outcome.Failed? {
      SessionPool.DiscardKeepsSound(r.pool, w);
      SessionPool.AcquireKeepsSound(SessionPool.Discard(r.pool, w), w);
    }
  }

  /** An idle worker takes the front of the queue; with the queue drained it hands its tracker back
      and is done. */
  lemma IdleWorkerTakesOrLeaves(r: Run, w: nat)
    requires Equipped(r) && Enabled(r, Take(w))
    ensures var r' := Step(r, Take(w));
            if r.todo != [] then
              r'.workers[w] == Busy(r.todo[0].0, r.todo[0].1) && r'.todo == r.todo[1..] && r'.pool == r.pool
            else
              r'.workers[w] == Finished && w in r.pool.held && r'.pool.queue == r.pool.queue + [r.pool.held[w]]
  {
  }

  /** As many workers as allowed and useful, and always one. */
  lemma WorkersFitTheWork(batchSize: int, n: nat)
    ensures 1 <= WorkerCount(batchSize, n) && (n >= 1 ==> WorkerCount(batchSize, n) <= n)
    ensures batchSize >= 1 ==> WorkerCount(batchSize, n) <= batchSize
    ensures WorkerCount(batchSize, n) < n ==> WorkerCount(batchSize, n) >= batchSize
  {
  }

  // ---- the summary ------------------------------------------------------------------------

  predicate Success(slot: Option<Report>) {
    slot.Some? && slot.value.found && slot.value.status != Some("error")
  }

  function SuccessesAmong(results: seq<Option<Report>>, n: nat): set<nat>
    requires n <= |results|
  {
    set k: nat | k < n && Success(results[k])
  }

  lemma OneMoreSlot(results: seq<Option<Report>>, n: nat)
    requires n < |results|
    ensures |SuccessesAmong(results, n + 1)| == |SuccessesAmong(results, n)| + (if Success(results[n]) then 1 else 0)
  {
    var more := if Success(results[n]) then {n} else {};
    assert SuccessesAmong(results, n + 1) == SuccessesAmong(results, n) + more;
  }

  /** The batch totals: every slot counts once, as a success or as an error. */
  method Summarize(results: seq<Option<Report>>) returns (total: nat, successes: nat, errors: nat)
    ensures total == |results| == successes + errors
    ensures successes == |SuccessesAmong(results, |results|)|
  {
    total, successes := |results|, 0;
    for i := 0 to |results|
      invariant successes == |SuccessesAmong(results, i)| <= i
    {
      OneMoreSlot(results, i);
      if Success(results[i]) {
        successes := successes + 1;
      }
    }
    errors := total - successes;
  }
}
