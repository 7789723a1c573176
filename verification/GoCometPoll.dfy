/** Responses and polling in the create-then-poll client (app/providers/gocomet_http.py). What the
    network and the clock do in one round of a poll is an input, a `Tick`. */
module GoCometPoll {
  import opened Text

  datatype Config = Config(
    maxRotations: nat,
    rotatePause: real,
    maxWaitTotal: real,
    pollInterval: real,
    pollFastInterval: real,
    pollFastWindow: real,
    pollTimeout: real)

  const DEFAULT := Config(5, 5.0, 10800.0, 3.0, 2.0, 15.0, 80.0)
  const NETWORK_PAUSE := 15.0
  const POLL_ERROR_CAP := 5.0

  /** Pauses do not run backwards and a poll round takes some time. */
  predicate Sane(cfg: Config) {
    cfg.rotatePause >= 0.0 && cfg.maxWaitTotal >= 0.0 && cfg.pollInterval > 0.0 && cfg.pollFastInterval > 0.0
  }

  function Min(a: real, b: real): real {
    if b < a then b else a
  }

  // ---- responses --------------------------------------------------------------------------

  /** A JSON field that may be missing, null, or a string. */
  datatype IdField = Absent | Present(id: Option<string>)

  datatype Body = Body(id: IdField, status: Option<string>, opsStatus: Option<string>)

  /** `body` is None when the payload is not the JSON object expected. */
  datatype Response = Response(code: int, text: string, body: Option<Body>)

  function LooksRateLimited(resp: Response): bool {
    var txt := Lower(resp.text);
    resp.code == 429 || resp.code == 503 || Contains(txt, "too many requests") || Contains(txt, "captcha")
  }

  function LooksQuotaExceeded(resp: Response): bool {
    var txt := Lower(resp.text);
    resp.code == 422 && Contains(txt, "limit")
    && (Contains(txt, "month") || Contains(txt, "upgrade") || Contains(txt, "reached"))
  }

  function IsOk(resp: Response): bool {
    200 <= resp.code < 400
  }

  predicate Settled(status: Option<string>) {
    Truthy(status) && status.value != "pending"
  }

  const MISS_STATUSES: set<string> := {"pending", "data_not_found", "invalid", "invalid_tracking"}

  predicate IsFound(status: Option<string>, opsStatus: Option<string>) {
    && Truthy(status) && Lower(status.value) !in MISS_STATUSES
    && !(opsStatus.Some? && Lower(opsStatus.value) == "marked_invalid")
  }

  // ---- polling ----------------------------------------------------------------------------

  datatype PollOutcome = Resolved(body: Body) | NotFound | Limited | TimedOut | Broken

  /** What one reply means for the poll; None means "ask again". */
  function Classify(resp: Response): Option<PollOutcome> {
    if resp.code == 404 then Some(NotFound)
    else if LooksRateLimited(resp) || LooksQuotaExceeded(resp) then Some(Limited)
    else if !IsOk(resp) || resp.body.None? then Some(Broken)
    else if Settled(resp.body.value.status) then Some(Resolved(resp.body.value))
    else None
  }

  /** One round of a poll: the reply (None: a network error), the time the request took and the
      time by which the nap after it overran. */
  datatype Tick = Tick(reply: Option<Response>, spent: real, overrun: real)

  ghost predicate Forward(ticks: nat -> Tick) {
    forall k: nat :: ticks(k).spent >= 0.0 && ticks(k).overrun >= 0.0
  }

  predicate Undecided(t: Tick) {
    t.reply.Some? ==> Classify(t.reply.value).None?
  }

  function NapAfter(cfg: Config, elapsed: real, t: Tick): real {
    if t.reply.None? then Min(cfg.pollInterval, POLL_ERROR_CAP)
    else if elapsed < cfg.pollFastWindow then cfg.pollFastInterval
    else cfg.pollInterval
  }

  /** The poll's own tally of time after n undecided rounds. */
  function Elapsed(cfg: Config, ticks: nat -> Tick, n: nat): real {
    if n == 0 then 0.0
    else Elapsed(cfg, ticks, n - 1) + NapAfter(cfg, Elapsed(cfg, ticks, n - 1), ticks(n - 1))
  }

  /** Real time passed after n undecided rounds. */
  function Passed(cfg: Config, ticks: nat -> Tick, n: nat): real {
    if n == 0 then 0.0
    else
      var t := ticks(n - 1);
      Passed(cfg, ticks, n - 1) + t.spent + NapAfter(cfg, Elapsed(cfg, ticks, n - 1), t) + t.overrun
  }

  /** The first n rounds all started before the deadline and went undecided. */
  predicate StillPolling(cfg: Config, ticks: nat -> Tick, n: nat) {
    n == 0 || (StillPolling(cfg, ticks, n - 1) && Passed(cfg, ticks, n - 1) < cfg.pollTimeout &&
        Undecided(ticks(n - 1)))
  }

  /** What a poll that sent `gets` requests and ended with `outcome` has seen. */
  predicate PollMeans(cfg: Config, ticks: nat -> Tick, outcome: PollOutcome, gets: nat) {
    if outcome.TimedOut? then
      StillPolling(cfg, ticks, gets) && Passed(cfg, ticks, gets) >= cfg.pollTimeout
    else
      && gets > 0 && StillPolling(cfg, ticks, gets - 1) && Passed(cfg, ticks, gets - 1) < cfg.pollTimeout
      && ticks(gets - 1).reply.Some? && Classify(ticks(gets - 1).reply.value) == Some(outcome)
  }

  /** n steps, added up. */
  function Times(n: nat, step: real): real {
    if n == 0 then 0.0 else Times(n - 1, step) + step
  }

  lemma {:induction false} TimesIsProduct(n: nat, step: real)
    ensures Times(n, step) == n as real * step
  {
    if n > 0 {
      TimesIsProduct(n - 1, step);
      assert n as real * step == (n - 1) as real * step + step;
    }
  }

  lemma {:induction false} TimesGrows(m: nat, n: nat, step: real)
    requires m <= n && step >= 0.0
    ensures Times(m, step) <= Times(n, step)
  {
    if m < n {
      TimesGrows(m, n - 1, step);
    }
  }

  /** x / step, rounded up; 0 for what is not positive. */
  ghost function CeilDiv(x: real, step: real): (n: nat)
    requires step > 0.0
    ensures Times(n, step) >= x
    ensures n > 0 ==> Times(n - 1, step) < x
  {
    CeilDivExists(x, step);
    var n: nat :| IsCeilDiv(n, x, step);
    n
  }

  ghost predicate IsCeilDiv(n: nat, x: real, step: real) {
    Times(n, step) >= x && (n > 0 ==> Times(n - 1, step) < x)
  }

  lemma CeilDivExists(x: real, step: real)
    requires step > 0.0
    ensures exists n: nat :: IsCeilDiv(n, x, step)
  {
    if x <= 0.0 {
      assert IsCeilDiv(0, x, step);
    } else {
      QuotientFloor(x, step);
      var f := (x / step).Floor;
      assert IsCeilDiv(if Times(f, step) == x then f else f + 1, x, step);
    }
  }

  lemma QuotientFloor(x: real, step: real)
    requires x > 0.0 && step > 0.0
    ensures var f := (x / step).Floor;
            && f >= 0 && Times(f, step) <= x < Times(f + 1, step)
            && (f > 0 ==> Times(f - 1, step) < x)
  {
    var q := x / step;
    var f := q.Floor;
    QuotientScales(x, step);
    BelowQuotient(f, q, x, step);
    AboveQuotient(f + 1, q, x, step);
  }

  lemma BelowQuotient(f: nat, q: real, x: real, step: real)
    requires step > 0.0 && q * step == x && f as real <= q
    ensures Times(f, step) <= x && (f > 0 ==> Times(f - 1, step) < x)
  {
    TimesIsProduct(f, step);
    ScaleOrder(f as real, q, step);
  }

  lemma AboveQuotient(g: nat, q: real, x: real, step: real)
    requires step > 0.0 && q * step == x && q < g as real
    ensures x < Times(g, step)
  {
    TimesIsProduct(g, step);
    ScaleStrict(q, g as real, step);
  }

  lemma QuotientScales(x: real, step: real)
    requires x > 0.0 && step > 0.0
    ensures x / step > 0.0 && (x / step) * step == x
  {
    if x / step <= 0.0 {
      ScaleOrder(x / step, 0.0, step);
    }
  }

  lemma ScaleOrder(a: real, b: real, step: real)
    requires a <= b && step > 0.0
    ensures a * step <= b * step
  {
  }

  lemma ScaleStrict(a: real, b: real, step: real)
    requires a < b && step > 0.0
    ensures a * step < b * step
  {
  }

  /** The most requests one poll can send: one per fast nap while the fast window lasts, one per
      slow nap afterwards, a network error's nap counting as the shortest there is. */
  ghost function MaxGets(cfg: Config): nat
    requires Sane(cfg)
  {
    var errorNap := Min(cfg.pollInterval, POLL_ERROR_CAP);
    CeilDiv(cfg.pollFastWindow, Min(cfg.pollFastInterval, errorNap))
    + CeilDiv(cfg.pollTimeout - (if cfg.pollFastWindow > 0.0 then cfg.pollFastWindow else 0.0), errorNap)
  }

  lemma {:induction false} TallyIsHonest(cfg: Config, ticks: nat -> Tick, n: nat)
    requires Sane(cfg) && Forward(ticks)
    ensures 0.0 <= Elapsed(cfg, ticks, n) <= Passed(cfg, ticks, n)
    ensures n > 0 ==> Elapsed(cfg, ticks, n - 1) < Elapsed(cfg, ticks, n)
  {
    if n > 0 {
      TallyIsHonest(cfg, ticks, n - 1);
    }
  }

  /** While the fast window lasts the tally grows by a fast nap (or an error's) per round. */
  lemma {:induction false} FastRounds(cfg: Config, ticks: nat -> Tick, n: nat)
    requires Sane(cfg) && Forward(ticks)
    requires n > 0 ==> Elapsed(cfg, ticks, n - 1) < cfg.pollFastWindow
    ensures Times(n, Min(cfg.pollFastInterval, Min(cfg.pollInterval, POLL_ERROR_CAP))) <= Elapsed(cfg, ticks, n)
  {
    if n > 0 {
      if n > 1 {
        TallyIsHonest(cfg, ticks, n - 1);
      }
      FastRounds(cfg, ticks, n - 1);
    }
  }

  /** From round `first` on, past the fast window, it grows by a slow nap (or an error's). */
  lemma {:induction false} SlowRounds(cfg: Config, ticks: nat -> Tick, first: nat, n: nat)
    requires Sane(cfg) && Forward(ticks) && first <= n
    requires Elapsed(cfg, ticks, first) >= cfg.pollFastWindow
    ensures Elapsed(cfg, ticks, first) +
            Times(n - first, Min(cfg.pollInterval, POLL_ERROR_CAP)) <= Elapsed(cfg, ticks, n)
  {
    if n > first {
      SlowRounds(cfg, ticks, first, n - 1);
      TimesGrows(0, n - 1 - first, Min(cfg.pollInterval, POLL_ERROR_CAP));
    }
  }

  lemma FastWindowIsOver(cfg: Config, ticks: nat -> Tick, fast: nat)
    requires Sane(cfg) && Forward(ticks)
    requires Times(fast, Min(cfg.pollFastInterval, Min(cfg.pollInterval, POLL_ERROR_CAP))) >= cfg.pollFastWindow
    ensures Elapsed(cfg, ticks, fast) >= cfg.pollFastWindow
  {
    if fast > 0 {
      TallyIsHonest(cfg, ticks, fast);
    }
    if Elapsed(cfg, ticks, fast) < cfg.pollFastWindow {
      FastRounds(cfg, ticks, fast);
    }
  }

  /** However slowly or badly the network answers, a poll sends at most MaxGets requests. */
  lemma GetsAreBounded(cfg: Config, ticks: nat -> Tick, gets: nat)
    requires Sane(cfg) && Forward(ticks)
    requires gets > 0 ==> Passed(cfg, ticks, gets - 1) < cfg.pollTimeout
    ensures gets <= MaxGets(cfg)
  {
    if gets > 0 {
      var k := gets - 1;
      var errorNap := Min(cfg.pollInterval, POLL_ERROR_CAP);
      var fast := CeilDiv(cfg.pollFastWindow, Min(cfg.pollFastInterval, errorNap));
      if k >= fast {
        FastWindowIsOver(cfg, ticks, fast);
        SlowRounds(cfg, ticks, fast, k);
        TallyIsHonest(cfg, ticks, fast);
        TallyIsHonest(cfg, ticks, k);
        var left := cfg.pollTimeout - (if cfg.pollFastWindow > 0.0 then cfg.pollFastWindow else 0.0);
        var slow := CeilDiv(left, errorNap);
        if k - fast >= slow {
          TimesGrows(slow, k - fast, errorNap);
          assert false;
        }
      }
    }
  }

  lemma CeilDivIsUnique(x: real, step: real, n: nat)
    requires step > 0.0 && IsCeilDiv(n, x, step)
    ensures CeilDiv(x, step) == n
  {
    var c := CeilDiv(x, step);
    if c < n {
      TimesGrows(c, n - 1, step);
    } else if n < c {
      TimesGrows(n, c - 1, step);
    }
  }

  /** Thirty requests at the defaults. */
  lemma DefaultMaxGets()
    ensures MaxGets(DEFAULT) == 30
  {
    TimesIsProduct(8, 2.0);
    TimesIsProduct(7, 2.0);
    CeilDivIsUnique(15.0, 2.0, 8);
    TimesIsProduct(22, 3.0);
    TimesIsProduct(21, 3.0);
    CeilDivIsUnique(65.0, 3.0, 22);
  }

  /** And an instant, never-deciding network makes a poll send all thirty. */
  lemma DefaultMaxGetsIsReached(ticks: nat -> Tick)
    requires forall k: nat :: ticks(k).reply.Some? && Undecided(ticks(k)) && ticks(k).spent == ticks(k).overrun == 0.0
    ensures PollMeans(DEFAULT, ticks, TimedOut, 30)
  {
    AllInstantRounds(ticks, 30);
    InstantRounds(ticks, 30);
  }

  lemma {:induction false} AllInstantRounds(ticks: nat -> Tick, n: nat)
    requires forall k: nat :: ticks(k).reply.Some? && Undecided(ticks(k)) && ticks(k).spent == ticks(k).overrun == 0.0
    requires n <= 30
    ensures StillPolling(DEFAULT, ticks, n)
  {
    if n > 0 {
      AllInstantRounds(ticks, n - 1);
      InstantRounds(ticks, n - 1);
    }
  }

  lemma {:induction false} InstantRounds(ticks: nat -> Tick, n: nat)
    requires forall k: nat :: ticks(k).reply.Some? && ticks(k).spent == ticks(k).overrun == 0.0
    ensures Passed(DEFAULT, ticks, n) == Elapsed(DEFAULT, ticks, n) ==
            if n <= 8 then 2.0 * n as real else 16.0 + 3.0 * (n - 8) as real
  {
    if n > 0 {
      InstantRounds(ticks, n - 1);
    }
  }

  /** The replies and the clock leave a poll no choice. */
  lemma PollIsDetermined(cfg: Config, ticks: nat -> Tick, a: PollOutcome, m: nat, b: PollOutcome, n: nat)
    requires PollMeans(cfg, ticks, a, m) && PollMeans(cfg, ticks, b, n)
    ensures a == b && m == n
  {
    if m < n {
      NotEndedYet(cfg, ticks, a, m, b, n);
    } else if n < m {
      NotEndedYet(cfg, ticks, b, n, a, m);
    }
  }

  lemma {:induction false} NotEndedYet(cfg: Config, ticks: nat -> Tick, a: PollOutcome, m: nat, b: PollOutcome, n: nat)
    requires m < n && PollMeans(cfg, ticks, b, n)
    ensures !PollMeans(cfg, ticks, a, m)
  {
    StillPollingBefore(cfg, ticks, m, n - 1);
    if m > 0 {
      StillPollingBefore(cfg, ticks, m - 1, n - 1);
    }
  }

  lemma {:induction false} StillPollingBefore(cfg: Config, ticks: nat -> Tick, m: nat, n: nat)
    requires m <= n && StillPolling(cfg, ticks, n)
    ensures StillPolling(cfg, ticks, m)
    ensures m < n ==> Passed(cfg, ticks, m) < cfg.pollTimeout && Undecided(ticks(m))
  {
    if m < n - 1 {
      StillPollingBefore(cfg, ticks, m, n - 1);
    }
  }
}
