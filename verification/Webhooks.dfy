/** Webhook fan-out and delivery with retries (app/services/webhook_service.py,
    app/workers/tasks/webhook_delivery.py, app/repositories/webhooks.py). */
module Webhooks {
  import opened Text

  /** `settings.webhook_max_attempts` unless configured otherwise. */
  const DEFAULT_MAX_ATTEMPTS := 6
  const BACKOFF_CAP := 600

  function Pow2(n: nat): nat {
    if n == 0 then 1 else 2 * Pow2(n - 1)
  }

  /** Seconds to wait after failed attempt number n, counting from 0. */
  function BackoffSeconds(n: nat): nat {
    var doubled := 30 * Pow2(n);
    if doubled < BACKOFF_CAP then doubled else BACKOFF_CAP
  }

  datatype Status = Pending | Success | Failed | Exhausted

  datatype Delivery = Delivery(
    status: Status,
    attemptCount: nat,
    lastAttemptedAt: Option<real>,
    nextAttemptAt: Option<real>,
    responseCode: Option<int>)

  const FRESH := Delivery(Pending, 0, None, None, None)

  function RecordAttempt(d: Delivery, status: Status, code: Option<int>, next: Option<real>, now: real): Delivery {
    Delivery(status, d.attemptCount + 1, Some(now), next, code)
  }

  /** What one delivery job meets: its row or its endpoint gone, a response, or no response. */
  datatype Reply = RowGone | EndpointGone | Answered(code: int) | NoAnswer

  /** A delivery with the jobs outstanding for it, the requests posted and the delays its retries
      were scheduled with. */
  datatype Chain = Chain(delivery: Option<Delivery>, jobs: nat, posts: nat, delayed: nat)

  predicate IsSuccess(reply: Reply) {
    reply.Answered? && 200 <= reply.code < 300
  }

  /** One job of the chain; `queueUp` says whether a retry can be scheduled. */
  function Deliver(c: Chain, maxAttempts: nat, reply: Reply, now: real, queueUp: bool): Chain {
    if c.jobs == 0 then c
    else if c.delivery.None? || reply.RowGone? then c.(delivery := None, jobs := c.jobs - 1)
    else
      var d := c.delivery.value;
      var code := if reply.Answered? then Some(reply.code) else None;
      if reply.EndpointGone? then
        c.(delivery := Some(RecordAttempt(d, Exhausted, None, None, now)), jobs := c.jobs - 1)
      else if IsSuccess(reply) then
        c.(delivery := Some(RecordAttempt(d, Success, code, None, now)), jobs := c.jobs - 1, posts := c.posts + 1)
      else if d.attemptCount + 1 >= maxAttempts then
        c.(delivery := Some(RecordAttempt(d, Exhausted, code, None, now)), jobs := c.jobs - 1, posts := c.posts + 1)
      else
        var backoff := BackoffSeconds(d.attemptCount);
        Chain(Some(RecordAttempt(d, Failed, code, Some(now + backoff as real), now)),
              c.jobs - 1 + (if queueUp then 1 else 0), c.posts + 1, c.delayed + backoff)
  }

  datatype Turn = Turn(reply: Reply, now: real, queueUp: bool)

  function Run(c: Chain, maxAttempts: nat, turns: seq<Turn>): Chain {
    if turns == [] then c
    else
      var last := turns[|turns| - 1];
      Deliver(Run(c, maxAttempts, turns[..|turns| - 1]), maxAttempts, last.reply, last.now, last.queueUp)
  }

  function Begin(queueUp: bool): Chain {
    Chain(Some(FRESH), if queueUp then 1 else 0, 0, 0)
  }

  // ---- along one chain --------------------------------------------------------------------

  /** The delays of the first n retries together. */
  function TotalBackoff(n: nat): nat {
    if n == 0 then 0 else TotalBackoff(n - 1) + BackoffSeconds(n - 1)
  }

  lemma {:induction false} Pow2Grows(n: nat)
    ensures Pow2(n) >= 1 && Pow2(n + 5) >= 32
  {
    if n > 0 {
      Pow2Grows(n - 1);
    } else {
      assert Pow2(5) == 2 * Pow2(4) == 4 * Pow2(3) == 8 * Pow2(2) == 16 * Pow2(1);
    }
  }

  /** Doubling from half a minute until the cap, then the cap: in closed form. */
  lemma {:induction false} TotalBackoffClosedForm(n: nat)
    ensures TotalBackoff(n) == if n <= 5 then 30 * (Pow2(n) - 1) else 930 + 600 * (n - 5)
  {
    if n > 0 {
      TotalBackoffClosedForm(n - 1);
      if n <= 5 {
        SmallPowers();
      } else {
        Pow2Grows(n - 6);
        SmallPowers();
      }
    }
  }

  lemma SmallPowers()
    ensures Pow2(0) == 1 && Pow2(1) == 2 && Pow2(2) == 4 && Pow2(3) == 8 && Pow2(4) == 16 && Pow2(5) == 32
  {
    assert Pow2(2) == 2 * Pow2(1);
    assert Pow2(3) == 2 * Pow2(2);
    assert Pow2(4) == 2 * Pow2(3);
    assert Pow2(5) == 2 * Pow2(4);
  }

  predicate Open(status: Status) {
    status.Pending? || status.Failed?
  }

  /** The retries scheduled so far: every attempt but a final one. */
  function Retries(d: Delivery): int {
    if Open(d.status) then d.attemptCount else d.attemptCount - 1
  }

  predicate RetriedAfterBackoff(d: Delivery) {
    && d.attemptCount > 0 && d.lastAttemptedAt.Some? && d.nextAttemptAt.Some?
    && d.nextAttemptAt.value == d.lastAttemptedAt.value + BackoffSeconds(d.attemptCount - 1) as real
  }

  /** One attempt is always made, however few are allowed. */
  function Allowed(maxAttempts: nat): nat {
    if maxAttempts == 0 then 1 else maxAttempts
  }

  predicate WellRun(c: Chain, maxAttempts: nat) {
    && c.jobs <= 1
    && (c.delivery.None? ==> c.jobs == 0)
    && (c.delivery.Some? ==>
          var d := c.delivery.value;
          && d.attemptCount <= Allowed(maxAttempts) && c.posts <= d.attemptCount
          && (d.status.Pending? <==> d.attemptCount == 0)
          && (d.status.Failed? ==> d.attemptCount < maxAttempts)
          && (d.status.Failed? <==> d.nextAttemptAt.Some?)
          && (d.status.Failed? ==> RetriedAfterBackoff(d))
          && (!Open(d.status) ==> c.jobs == 0)
          && c.delayed == TotalBackoff(Retries(d)))
  }

  lemma DeliverKeepsWellRun(c: Chain, maxAttempts: nat, t: Turn)
    requires WellRun(c, maxAttempts)
    ensures WellRun(Deliver(c, maxAttempts, t.reply, t.now, t.queueUp), maxAttempts)
  {
  }

  predicate QueueAlwaysUp(turns: seq<Turn>) {
    forall t | t in turns :: t.queueUp
  }

  /** However endpoints behave: never more attempts than allowed, no more posts than attempts, never
      more than one job, none once the delivery is final, and the delays as scheduled. */
  lemma {:induction false} ChainIsWellRun(maxAttempts: nat, turns: seq<Turn>, queueUp: bool)
    ensures var c := Run(Begin(queueUp), maxAttempts, turns);
            && WellRun(c, maxAttempts)
            && (queueUp && QueueAlwaysUp(turns) && c.delivery.Some? ==>
                 (c.jobs == 1 <==> Open(c.delivery.value.status)))
  {
    if turns != [] {
      var n := |turns| - 1;
      ChainIsWellRun(maxAttempts, turns[..n], queueUp);
      DeliverKeepsWellRun(Run(Begin(queueUp), maxAttempts, turns[..n]), maxAttempts, turns[n]);
      assert turns[n] in turns && forall t | t in turns[..n] :: t in turns;
    }
  }

  /** As many jobs as attempts are allowed settle any delivery. */
  lemma {:induction false} ChainEnds(maxAttempts: nat, turns: seq<Turn>, queueUp: bool)
    ensures var c := Run(Begin(queueUp), maxAttempts, turns);
            && (c.jobs > 0 ==> c.delivery.Some? && c.delivery.value.attemptCount == |turns|)
            && (|turns| >= Allowed(maxAttempts) ==> c.jobs == 0)
  {
    ChainIsWellRun(maxAttempts, turns, queueUp);
    if turns != [] {
      ChainEnds(maxAttempts, turns[..|turns| - 1], queueUp);
      ChainIsWellRun(maxAttempts, turns[..|turns| - 1], queueUp);
    }
  }

  lemma {:induction false} TotalBackoffGrows(m: nat, n: nat)
    requires m <= n
    ensures TotalBackoff(m) <= TotalBackoff(n)
  {
    if m < n {
      TotalBackoffGrows(m, n - 1);
    }
  }

  /** All the waiting one delivery can be given: a quarter of an hour and half a minute by default. */
  lemma ChainDelayIsBounded(maxAttempts: nat, turns: seq<Turn>, queueUp: bool)
    ensures var c := Run(Begin(queueUp), maxAttempts, turns);
            c.delivery.Some? ==>
              && c.delayed <= TotalBackoff(Allowed(maxAttempts) - 1)
              && (maxAttempts == DEFAULT_MAX_ATTEMPTS ==> c.delayed <= 930)
  {
    var c := Run(Begin(queueUp), maxAttempts, turns);
    ChainIsWellRun(maxAttempts, turns, queueUp);
    if c.delivery.Some? {
      TotalBackoffGrows(Retries(c.delivery.value), Allowed(maxAttempts) - 1);
      TotalBackoffClosedForm(5);
      SmallPowers();
    }
  }

  // ---- what each attempt comes to ----------------------------------------------------------

  /** A response in the 200s. */
  predicate Welcomed(reply: Reply) {
    reply.Answered? && 200 <= reply.code <= 299
  }

  function CodeOf(reply: Reply): Option<int> {
    if reply.Answered? then Some(reply.code) else None
  }

  /** One attempt at a delivery that is still there: recorded once, with its code; a success, or given
      up with its endpoint gone or its attempts used up; else failed, due again after the backoff. */
  predicate Attempted(d: Delivery, maxAttempts: nat, reply: Reply, now: real, d': Delivery) {
    && d'.attemptCount == d.attemptCount + 1 && d'.lastAttemptedAt == Some(now) && d'.responseCode == CodeOf(reply)
    && (Welcomed(reply) ==> d'.status.Success? && d'.nextAttemptAt.None?)
    && (reply.EndpointGone? ==> d'.status.Exhausted? && d'.nextAttemptAt.None?)
    && (!Welcomed(reply) && !reply.EndpointGone? && d'.attemptCount >= maxAttempts ==>
          d'.status.Exhausted? && d'.nextAttemptAt.None?)
    && (!Welcomed(reply) && !reply.EndpointGone? && d'.attemptCount < maxAttempts ==>
          d'.status.Failed? && d'.nextAttemptAt == Some(now + BackoffSeconds(d.attemptCount) as real))
  }

  lemma JobAttempts(c: Chain, maxAttempts: nat, reply: Reply, now: real, queueUp: bool)
    requires c.jobs > 0 && c.delivery.Some?
    ensures var c' := Deliver(c, maxAttempts, reply, now, queueUp);
            if reply.RowGone? then c' == c.(delivery := None, jobs := c.jobs - 1)
            else
              && c'.delivery.Some? && Attempted(c.delivery.value, maxAttempts, reply, now, c'.delivery.value)
              && c'.posts == c.posts + (if reply.EndpointGone? then 0 else 1)
              && (c'.delivery.value.status.Failed? ==>
                    && c'.jobs == c.jobs - 1 + (if queueUp then 1 else 0)
                    && c'.delayed == c.delayed + BackoffSeconds(c.delivery.value.attemptCount))
              && (!c'.delivery.value.status.Failed? ==> c'.jobs == c.jobs - 1 && c'.delayed == c.delayed)
  {
  }

  /** A delivery begins pending and untried, with a job if the queue takes one. */
  lemma BeginsPending(queueUp: bool)
    ensures Begin(queueUp).delivery == Some(Delivery(Pending, 0, None, None, None))
    ensures Begin(queueUp).jobs == (if queueUp then 1 else 0) && Begin(queueUp).posts == Begin(queueUp).delayed == 0
  {
  }

  /** How many of the first n turns post: all but those whose endpoint is gone. */
  function Posts(turns: seq<Turn>, n: nat): nat
    requires n <= |turns|
  {
    if n == 0 then 0 else Posts(turns, n - 1) + (if turns[n - 1].reply.EndpointGone? then 0 else 1)
  }

  /** The delivery after n attempts is what the last of these turns made of it. */
  predicate LastTurnDecides(c: Chain, maxAttempts: nat, turns: seq<Turn>) {
    c.delivery.Some? ==>
      var d := c.delivery.value;
      && d.attemptCount <= |turns|
      && c.posts == Posts(turns, d.attemptCount)
      && (d.attemptCount == 0 ==> d == FRESH)
      && (d.attemptCount > 0 ==>
            var t := turns[d.attemptCount - 1];
            && d.responseCode == CodeOf(t.reply) && d.lastAttemptedAt == Some(t.now)
            && (d.status.Success? <==> Welcomed(t.reply))
            && (d.status.Exhausted? <==>
                  !Welcomed(t.reply) && (t.reply.EndpointGone? || d.attemptCount >= maxAttempts))
            && (d.status.Failed? ==> d.nextAttemptAt == Some(t.now + BackoffSeconds(d.attemptCount - 1) as real)))
  }

  lemma {:induction false} PostsOfPrefix(turns: seq<Turn>, n: nat)
    requires n < |turns|
    ensures Posts(turns[..|turns| - 1], n) == Posts(turns, n)
  {
    if n > 0 {
      PostsOfPrefix(turns, n - 1);
    }
  }

  /** Along every chain: a delivery is a success exactly if its last attempt was welcomed, exhausted
      exactly if that attempt was not and found the endpoint gone or was the last allowed, and else
      due again after the backoff; every attempt with an endpoint posted once. */
  lemma {:induction false} LastAttemptDecides(maxAttempts: nat, turns: seq<Turn>, queueUp: bool)
    ensures LastTurnDecides(Run(Begin(queueUp), maxAttempts, turns), maxAttempts, turns)
  {
    if turns != [] {
      var n := |turns| - 1;
      var before, t := Run(Begin(queueUp), maxAttempts, turns[..n]), turns[n];
      LastAttemptDecides(maxAttempts, turns[..n], queueUp);
      ChainEnds(maxAttempts, turns[..n], queueUp);
      ChainIsWellRun(maxAttempts, turns[..n], queueUp);
      if before.delivery.Some? {
        if before.delivery.value.attemptCount < |turns| {
          PostsOfPrefix(turns, before.delivery.value.attemptCount);
        }
        if before.jobs > 0 {
          JobAttempts(before, maxAttempts, t.reply, t.now, t.queueUp);
          assert Run(Begin(queueUp), maxAttempts, turns) == Deliver(before, maxAttempts, t.reply, t.now, t.queueUp);
        }
      }
    }
  }

  /** An attempt posted and not welcomed. */
  predicate Rebuffed(t: Turn) {
    (t.reply.Answered? && !Welcomed(t.reply)) || t.reply.NoAnswer?
  }

  function Least(a: nat, b: nat): nat {
    if a < b then a else b
  }

  /** Nobody welcomes the delivery and the queue is up: it is tried as often as allowed, no less and no
      more, with all the waiting in between. */
  lemma {:induction false} RebuffedIsRetried(maxAttempts: nat, turns: seq<Turn>)
    requires forall t | t in turns :: Rebuffed(t) && t.queueUp
    ensures var c := Run(Begin(true), maxAttempts, turns);
            var tries := Least(|turns|, Allowed(maxAttempts));
            && c.delivery.Some? && c.delivery.value.attemptCount == c.posts == tries
            && c.jobs == (if tries < Allowed(maxAttempts) then 1 else 0)
            && c.delayed == TotalBackoff(Least(tries, Allowed(maxAttempts) - 1))
            && (c.delivery.value.status.Exhausted? <==> tries == Allowed(maxAttempts))
  {
    if turns != [] {
      var n := |turns| - 1;
      var before, t := Run(Begin(true), maxAttempts, turns[..n]), turns[n];
      assert t in turns && forall u | u in turns[..n] :: u in turns;
      RebuffedIsRetried(maxAttempts, turns[..n]);
      ChainIsWellRun(maxAttempts, turns[..n], true);
      if before.jobs > 0 {
        JobAttempts(before, maxAttempts, t.reply, t.now, t.queueUp);
      }
    }
  }

  // ---- the stored delivery and the fan-out ----------------------------------------------

  datatype Endpoint = Endpoint(org: string, active: bool, eventTypes: seq<string>)

  predicate Subscribed(e: Endpoint, org: string, eventType: string) {
    e.org == org && e.active && eventType in e.eventTypes
  }

  /** The positions of the active endpoints that asked for the event. */
  function Listeners(endpoints: seq<Endpoint>, org: string, eventType: string): seq<nat> {
    if endpoints == [] then []
    else
      var n := |endpoints| - 1;
      Listeners(endpoints[..n], org, eventType) + (if Subscribed(endpoints[n], org, eventType) then [n] else [])
  }

  lemma {:induction false} ListenersAreTheSubscribers(endpoints: seq<Endpoint>, org: string, eventType: string)
    ensures forall i :: i in Listeners(endpoints, org, eventType) <==>
                        && 0 <= i < |endpoints| && endpoints[i].org == org && endpoints[i].active
                        && eventType in endpoints[i].eventTypes
    ensures forall i, j | 0 <= i < j < |Listeners(endpoints, org, eventType)| ::
              Listeners(endpoints, org, eventType)[i] < Listeners(endpoints, org, eventType)[j]
  {
    if endpoints != [] {
      var before := Listeners(endpoints[..|endpoints| - 1], org, eventType);
      ListenersAreTheSubscribers(endpoints[..|endpoints| - 1], org, eventType);
      assert forall i | 0 <= i < |before| :: before[i] in before;
    }
  }

  class WebhookService {
    const maxAttempts: nat
    var endpoints: seq<Endpoint>
    /** Deliveries by number, each with its endpoint. */
    var deliveries: seq<(nat, Chain)>

    constructor (endpoints: seq<Endpoint>, maxAttempts: nat)
      ensures this.endpoints == endpoints && this.maxAttempts == maxAttempts && deliveries == []
    {
      this.endpoints, this.maxAttempts, deliveries := endpoints, maxAttempts, [];
    }

    /** One delivery per subscribed endpoint; what the queue does not take stays pending. */
    method Trigger(org: string, eventType: string, queueUp: nat -> bool)
      modifies this`deliveries
      ensures var to := Listeners(endpoints, org, eventType);
              && |deliveries| == |old(deliveries)| + |to|
              && deliveries[..|old(deliveries)|] == old(deliveries)
              && forall i | 0 <= i < |to| :: deliveries[|old(deliveries)| + i] == (to[i], Begin(queueUp(i)))
    {
      var to := Listeners(endpoints, org, eventType);
      for i := 0 to |to|
        invariant |deliveries| == |old(deliveries)| + i
        invariant deliveries[..|old(deliveries)|] == old(deliveries)
        invariant forall k | 0 <= k < i :: deliveries[|old(deliveries)| + k] == (to[k], Begin(queueUp(k)))
      {
        var chain := Chain(Some(FRESH), 0, 0, 0);
        if queueUp(i) {
          chain := chain.(jobs := 1);
        }
        deliveries := deliveries + [(to[i], chain)];
      }
    }

    /** One `deliver_webhook` job for delivery n. */
    method DeliverWebhook(n: nat, reply: Reply, now: real, queueUp: bool)
      requires n < |deliveries| && deliveries[n].1.jobs > 0
      modifies this`deliveries
      ensures deliveries == old(deliveries)[n := (old(deliveries)[n].0,
              Deliver(old(deliveries)[n].1, maxAttempts, reply, now, queueUp))]
    {
      var (endpoint, chain) := deliveries[n];
      chain := chain.(jobs := chain.jobs - 1);
      if chain.delivery.None? || reply.RowGone? {
        deliveries := deliveries[n := (endpoint, chain.(delivery := None))];
        return;
      }
      var d := chain.delivery.value;
      if reply.EndpointGone? {
        chain := chain.(delivery := Some(RecordAttempt(d, Exhausted, None, None, now)));
        deliveries := deliveries[n := (endpoint, chain)];
        return;
      }
      chain := chain.(posts := chain.posts + 1);
      var code := if reply.Answered? then Some(reply.code) else None;
      if IsSuccess(reply) {
        chain := chain.(delivery := Some(RecordAttempt(d, Success, code, None, now)));
      } else if d.attemptCount + 1 >= maxAttempts {
        chain := chain.(delivery := Some(RecordAttempt(d, Exhausted, code, None, now)));
      } else {
        var backoff := BackoffSeconds(d.attemptCount);
        chain := chain.(delivery := Some(RecordAttempt(d, Failed, code, Some(now + backoff as real), now)));
        chain := chain.(delayed := chain.delayed + backoff);
        if queueUp {
          chain := chain.(jobs := chain.jobs + 1);
        }
      }
      deliveries := deliveries[n := (endpoint, chain)];
    }
  }
}
