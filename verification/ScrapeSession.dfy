/** The inside of `_refresh_and_apply_safely` (app/services/container_service.py): one database
    session with its uncommitted changes, the commits on the way, and a fault or cancellation that
    may strike at any of its calls. */
module ScrapeSession {
  import opened Text
  import opened Lifecycle
  import EventMerge
  import opened LifecycleAnswers
  import opened LifecycleProperties

  /** Assigned but uncommitted attributes of the row; None is "not assigned". */
  datatype Dirty = Dirty(
    status: Option<Status>,
    message: Option<Option<Notice>>,
    lastPolledAt: Option<real>,
    trackingId: Option<string>,
    data: Option<EventMerge.Record>)

  const CLEAN := Dirty(None, None, None, None, None)

  function Pick<T>(later: Option<T>, earlier: Option<T>): Option<T> {
    if later.Some? then later else earlier
  }

  /** Assignments d, then assignments e. */
  function Assigned(d: Dirty, e: Dirty): Dirty {
    Dirty(Pick(e.status, d.status), Pick(e.message, d.message), Pick(e.lastPolledAt, d.lastPolledAt),
          Pick(e.trackingId, d.trackingId), Pick(e.data, d.data))
  }

  function Else<T>(o: Option<T>, otherwise: T): T {
    if o.Some? then o.value else otherwise
  }

  /** The row after a commit: only what was assigned is sent. */
  function Written(row: Row, d: Dirty, now: real): Row {
    if d == CLEAN then row
    else
      row.(status := Else(d.status, row.status), message := Else(d.message, row.message), updatedAt := now,
           lastPolledAt := if d.lastPolledAt.Some? then d.lastPolledAt else row.lastPolledAt,
           trackingId := KeptId(d.trackingId, row.trackingId), data := Else(d.data, row.data))
  }

  /** The row as everyone else sees it, this session's assignments, and the webhook deliveries
      stored along the way. */
  datatype Session = Session(committed: Row, dirty: Dirty, deliveries: nat)

  /** What the code does, call by call. `Call` touches nothing: the provider lookup, a flush, a
      query, an enqueue; `Reports` is the early commit of a new id, in a session of its own; and
      `Delivers` stores a delivery, whose commit takes this session's assignments along. */
  datatype Act = Call | Reports(id: string, at: real) | Assigns(dirty: Dirty) | Delivers | Commits

  function Do(s: Session, a: Act, now: real): Session {
    match a
    case Call => s
    case Reports(id, at) => s.(committed := s.committed.(trackingId := Some(id), updatedAt := at))
    case Assigns(dirty) => s.(dirty := Assigned(s.dirty, dirty))
    case Delivers => Session(Written(s.committed, s.dirty, now), CLEAN, s.deliveries + 1)
    case Commits => Session(Written(s.committed, s.dirty, now), CLEAN, s.deliveries)
  }

  /** The first `n` acts, all of them if there are fewer. */
  function Exec(s: Session, acts: seq<Act>, n: nat, now: real): Session
    decreases acts
  {
    if acts == [] || n == 0 then s else Exec(Do(s, acts[0], now), acts[1..], n - 1, now)
  }

  /** The lookup, with the ids it reports as it goes. */
  function LookupActs(ids: seq<(string, real)>): seq<Act> {
    if ids == [] then [Call] else [Call, Reports(ids[0].0, ids[0].1)] + LookupActs(ids[1..])
  }

  function IdOf(outcome: Outcome): Dirty {
    if outcome.Raised? then CLEAN else CLEAN.(trackingId := outcome.id)
  }

  /** What the result assigns, flushes in between. */
  function StoreActs(data: EventMerge.Record, outcome: Outcome, now: real): seq<Act> {
    match outcome
    case Found(res, _) =>
      [Assigns(IdOf(outcome)), Assigns(CLEAN.(data := Some(EventMerge.Merge(data, res)))), Call,
       Assigns(CLEAN.(lastPolledAt := Some(now), status := Some(Completed), message := Some(None))), Call]
    case Missed(carrier, _, unsupported) =>
      [Assigns(IdOf(outcome)),
       Assigns(CLEAN.(lastPolledAt := Some(now), status := Some(NoData),
                      data := Some(data.(carrier := Or(carrier, data.carrier))))),
       Assigns(CLEAN.(message := Some(Some(if unsupported then Unsupported else NoDataYet)))), Call]
    case Raised => []
  }

  /** Per listening endpoint: look it up, store the delivery, hand over its job. */
  function NotifyActs(listeners: nat): seq<Act> {
    if listeners == 0 then [] else [Call, Delivers, Call] + NotifyActs(listeners - 1)
  }

  /** The whole `try` block up to its commit; after a lookup that raises there is nothing. */
  function TryActs(data: EventMerge.Record, ids: seq<(string, real)>, outcome: Outcome, listeners: nat,
                   now: real): seq<Act>
  {
    LookupActs(ids) + StoreActs(data, outcome, now)
    + (if outcome.Found? then NotifyActs(listeners) else []) + (if outcome.Raised? then [] else [Commits])
  }

  /** One scrape: the row it starts from, the ids the lookup reports, how it ends and when, and the
      endpoints that listen to what a found result announces. */
  datatype Scrape = Scrape(row: Row, ids: seq<(string, real)>, outcome: Outcome, now: real, listeners: nat)

  function Acts(c: Scrape): seq<Act> {
    TryActs(c.row.data, c.ids, c.outcome, c.listeners, c.now)
  }

  function Opening(c: Scrape): Session {
    Session(c.row, CLEAN, 0)
  }

  predicate Survives(c: Scrape, fault: nat) {
    !c.outcome.Raised? && |Acts(c)| <= fault
  }

  /** Roll back, fetch the row again, fail it, commit. */
  function Recovered(s: Session, later: real): Session {
    s.(committed := MarkedFailed(s.committed, later), dirty := CLEAN)
  }

  /** The session when the call returns or re-raises: a fault strikes the act after the first
      `fault` ones, if there is one. */
  function Ended(c: Scrape, fault: nat, later: real): Session {
    var s := Exec(Opening(c), Acts(c), fault, c.now);
    if Survives(c, fault) then s else Recovered(s, later)
  }

  // ---- runs of acts -----------------------------------------------------------------------

  lemma {:induction false} ExecAppend(s: Session, a: seq<Act>, b: seq<Act>, n: nat, now: real)
    ensures Exec(s, a + b, n, now) ==
            if n <= |a| then Exec(s, a, n, now) else Exec(Exec(s, a, |a|, now), b, n - |a|, now)
    decreases a
  {
    if a == [] {
      assert a + b == b;
    } else if n > 0 {
      assert (a + b)[1..] == a[1..] + b;
      ExecAppend(Do(s, a[0], now), a[1..], b, n - 1, now);
    }
  }

  /** The row after the first k ids of a list. */
  function WithIds(row: Row, ids: seq<(string, real)>): Row
    decreases ids
  {
    if ids == [] then row else WithIds(row.(trackingId := Some(ids[0].0), updatedAt := ids[0].1), ids[1..])
  }

  /** r is row up to the tracking id and the time of its last touch. */
  predicate SameButId(row: Row, r: Row) {
    r == row.(trackingId := r.trackingId, updatedAt := r.updatedAt) && (row.trackingId.Some? ==> r.trackingId.Some?)
  }

  lemma {:induction false} LookupKeepsRow(s: Session, ids: seq<(string, real)>, n: nat, now: real)
    ensures var s' := Exec(s, LookupActs(ids), n, now);
            && s'.dirty == s.dirty && s'.deliveries == s.deliveries && SameButId(s.committed, s'.committed)
            && (n >= |LookupActs(ids)| ==> s'.committed == WithIds(s.committed, ids))
    decreases ids
  {
    if ids == [] {
      assert LookupActs(ids)[1..] == [];
    } else {
      var acts, rest := LookupActs(ids), LookupActs(ids[1..]);
      assert acts[1..] == [Reports(ids[0].0, ids[0].1)] + rest;
      assert acts[1..][1..] == rest;
      if n >= 2 {
        LookupKeepsRow(Do(s, acts[1], now), ids[1..], n - 2, now);
      }
    }
  }

  /** All that a result assigns. */
  function Result(data: EventMerge.Record, outcome: Outcome, now: real): Dirty {
    match outcome
    case Found(res, id) => Dirty(Some(Completed), Some(None), Some(now), id, Some(EventMerge.Merge(data, res)))
    case Missed(carrier, id, unsupported) =>
      Dirty(Some(NoData), Some(Some(if unsupported then Unsupported else NoDataYet)), Some(now), id,
            Some(data.(carrier := Or(carrier, data.carrier))))
    case Raised => CLEAN
  }

  predicate OnlyAssigns(acts: seq<Act>) {
    forall a | a in acts :: a.Call? || a.Assigns?
  }

  lemma {:induction false} AssigningCommitsNothing(s: Session, acts: seq<Act>, n: nat, now: real)
    requires OnlyAssigns(acts)
    ensures var s' := Exec(s, acts, n, now);
            s'.committed == s.committed && s'.deliveries == s.deliveries
    decreases acts
  {
    if acts != [] && n > 0 {
      assert acts[0] in acts;
      AssigningCommitsNothing(Do(s, acts[0], now), acts[1..], n - 1, now);
    }
  }

  lemma ExecSnoc(s: Session, acts: seq<Act>, a: Act, now: real)
    ensures Exec(s, acts + [a], |acts| + 1, now) == Do(Exec(s, acts, |acts|, now), a, now)
  {
    ExecAppend(s, acts, [a], |acts| + 1, now);
    assert [a][1..] == [];
  }

  lemma StoringAssigns(row: Row, outcome: Outcome, now: real)
    requires !outcome.Raised?
    ensures var acts := StoreActs(row.data, outcome, now);
            OnlyAssigns(acts) && Exec(Session(row, CLEAN, 0), acts, |acts|, now).dirty == Result(row.data, outcome, now)
  {
    var s := Session(row, CLEAN, 0);
    var acts := StoreActs(row.data, outcome, now);
    assert acts[..1] == [] + [acts[0]];
    assert acts[..2] == acts[..1] + [acts[1]] && acts[..3] == acts[..2] + [acts[2]] &&
           acts[..4] == acts[..3] + [acts[3]];
    ExecSnoc(s, [], acts[0], now);
    ExecSnoc(s, acts[..1], acts[1], now);
    ExecSnoc(s, acts[..2], acts[2], now);
    ExecSnoc(s, acts[..3], acts[3], now);
    if outcome.Found? {
      assert acts == acts[..4] + [acts[4]];
      ExecSnoc(s, acts[..4], acts[4], now);
    } else {
      assert acts == acts[..4];
    }
  }

  /** Nothing is left to commit: whatever else happens, the row stays as it is. */
  lemma {:induction false} NotifyingCleanKeepsRow(s: Session, listeners: nat, n: nat, now: real)
    requires s.dirty == CLEAN
    ensures var s' := Exec(s, NotifyActs(listeners), n, now);
            s'.committed == s.committed && s'.dirty == CLEAN && s'.deliveries >= s.deliveries
            && (n >= |NotifyActs(listeners)| ==> s'.deliveries == s.deliveries + listeners)
    decreases listeners
  {
    if listeners > 0 {
      NotifyStep(s, listeners, n, now);
      if n >= 3 {
        NotifyingCleanKeepsRow(Do(s, Delivers, now), listeners - 1, n - 3, now);
      }
    }
  }

  lemma NotifyStep(s: Session, listeners: nat, n: nat, now: real)
    requires listeners > 0
    ensures Exec(s, NotifyActs(listeners), n, now) ==
            if n <= 1 then s
            else if n <= 3 then Do(s, Delivers, now)
            else Exec(Do(s, Delivers, now), NotifyActs(listeners - 1), n - 3, now)
    ensures |NotifyActs(listeners)| == 3 + |NotifyActs(listeners - 1)|
  {
    var acts, rest := [Call, Delivers, Call], NotifyActs(listeners - 1);
    ExecAppend(s, acts, rest, n, now);
    assert acts[1..] == [Delivers, Call] && acts[1..][1..] == [Call] && acts[1..][1..][1..] == [];
    assert Exec(s, acts, 3, now) == Do(s, Delivers, now);
  }

  // ---- where a fault can strike ------------------------------------------------------------

  /** The number of acts before the one that first commits the result: the first delivery if there
      is one, else the commit at the end. */
  function BeforeCommit(c: Scrape): nat {
    |LookupActs(c.ids)| + |StoreActs(c.row.data, c.outcome, c.now)| +
        (if c.outcome.Found? && c.listeners > 0 then 1 else 0)
  }

  /** Whether the first n acts include it. */
  predicate Stored(c: Scrape, n: nat) {
    !c.outcome.Raised? && BeforeCommit(c) < n
  }

  /** The row as the lookup leaves it: with the ids it reported. */
  function LookedUp(c: Scrape): Row {
    WithIds(c.row, c.ids)
  }

  function ClosingActs(c: Scrape): seq<Act> {
    (if c.outcome.Found? then NotifyActs(c.listeners) else []) + (if c.outcome.Raised? then [] else [Commits])
  }

  function DeliveriesDue(c: Scrape): nat {
    if c.outcome.Found? then c.listeners else 0
  }

  /** Up to the end of the store phase nothing of the result is committed. */
  lemma NothingCommittedBefore(c: Scrape, n: nat)
    ensures var before := LookupActs(c.ids) + StoreActs(c.row.data, c.outcome, c.now);
            var s := Exec(Opening(c), before, n, c.now);
            && SameButId(c.row, s.committed) && s.deliveries == 0
            && (n >= |before| ==> s == Session(LookedUp(c), Result(c.row.data, c.outcome, c.now), 0))
  {
    var lookup, store := LookupActs(c.ids), StoreActs(c.row.data, c.outcome, c.now);
    ExecAppend(Opening(c), lookup, store, n, c.now);
    LookupKeepsRow(Opening(c), c.ids, n, c.now);
    LookupKeepsRow(Opening(c), c.ids, |lookup|, c.now);
    WithIdsKeepsData(c.row, c.ids);
    var s := Session(LookedUp(c), CLEAN, 0);
    if n > |lookup| {
      if c.outcome.Raised? {
        assert store == [];
      } else {
        StoringAssigns(LookedUp(c), c.outcome, c.now);
        AssigningCommitsNothing(s, store, n - |lookup|, c.now);
        if n >= |lookup| + |store| {
          ExecBeyond(s, store, n - |lookup|, c.now);
        }
      }
    } else if n == |lookup| + |store| {
      assert store == [];
    }
  }

  lemma {:induction false} ExecBeyond(s: Session, acts: seq<Act>, n: nat, now: real)
    requires |acts| <= n
    ensures Exec(s, acts, n, now) == Exec(s, acts, |acts|, now)
    decreases acts
  {
    if acts != [] {
      ExecBeyond(Do(s, acts[0], now), acts[1..], n - 1, now);
    }
  }

  /** Doing the first part, then the second with the calls that are left. */
  lemma ExecSplit(s: Session, a: seq<Act>, b: seq<Act>, n: nat, now: real)
    ensures n < |a| ==> Exec(s, a + b, n, now) == Exec(s, a, n, now)
    ensures n >= |a| ==> Exec(s, a + b, n, now) == Exec(Exec(s, a, n, now), b, n - |a|, now)
  {
    ExecAppend(s, a, b, n, now);
    if n >= |a| {
      ExecBeyond(s, a, n, now);
    }
  }

  lemma {:induction false} WithIdsKeepsData(row: Row, ids: seq<(string, real)>)
    ensures SameButId(row, WithIds(row, ids))
    decreases ids
  {
    if ids != [] {
      WithIdsKeepsData(row.(trackingId := Some(ids[0].0), updatedAt := ids[0].1), ids[1..]);
    }
  }

  /** What the commit of a result leaves is what the shared model says a scrape stores. */
  lemma CommitIsScraped(row: Row, outcome: Outcome, now: real)
    requires !outcome.Raised?
    ensures Written(row, Result(row.data, outcome, now), now) == Scraped(row, now, outcome)
  {
  }

  /** The closing acts commit it all at once, at the first of them that commits. */
  lemma ClosingCommits(c: Scrape, n: nat)
    requires !c.outcome.Raised?
    ensures var s := Session(LookedUp(c), Result(c.row.data, c.outcome, c.now), 0);
            var s' := Exec(s, ClosingActs(c), n, c.now);
            var first := if DeliveriesDue(c) > 0 then 1 else 0;
            && (n <= first ==> s' == s)
            && (n > first ==> s'.committed == Scraped(LookedUp(c), c.now, c.outcome) && s'.dirty == CLEAN)
            && (n >= |ClosingActs(c)| ==> s'.deliveries == DeliveriesDue(c))
  {
    var s := Session(LookedUp(c), Result(c.row.data, c.outcome, c.now), 0);
    var notify := NotifyActs(DeliveriesDue(c));
    assert ClosingActs(c) == notify + [Commits];
    ExecAppend(s, notify, [Commits], n, c.now);
    assert [Commits][1..] == [];
    WithIdsKeepsData(c.row, c.ids);
    CommitIsScraped(LookedUp(c), c.outcome, c.now);
    if DeliveriesDue(c) > 0 {
      NotifyStep(s, c.listeners, n, c.now);
      NotifyStep(s, c.listeners, |notify|, c.now);
      var stored := Do(s, Delivers, c.now);
      if n > 3 {
        NotifyingCleanKeepsRow(stored, c.listeners - 1, n - 3, c.now);
      }
      NotifyingCleanKeepsRow(stored, c.listeners - 1, |notify| - 3, c.now);
    }
  }

  /** At every point of a scrape the row everyone sees is either the old one, but for the ids
      reported, or what the result makes of it; and deliveries are stored only with the latter. */
  lemma CommittedIsAllOrNothing(c: Scrape, n: nat)
    ensures var s := Exec(Opening(c), Acts(c), n, c.now);
            && (!Stored(c, n) ==> SameButId(c.row, s.committed) && s.deliveries == 0)
            && (Stored(c, n) ==> s.committed == Scraped(LookedUp(c), c.now, c.outcome))
            && (Survives(c, n) ==> Stored(c, n) && s.deliveries == DeliveriesDue(c) && s.dirty == CLEAN)
  {
    var before := LookupActs(c.ids) + StoreActs(c.row.data, c.outcome, c.now);
    assert Acts(c) == before + ClosingActs(c);
    ExecAppend(Opening(c), before, ClosingActs(c), n, c.now);
    NothingCommittedBefore(c, n);
    NothingCommittedBefore(c, |before|);
    if n > |before| {
      if c.outcome.Raised? {
        assert ClosingActs(c) == [];
      } else {
        ClosingCommits(c, n - |before|);
      }
    }
  }

  /** Wherever a fault or cancellation strikes, be it the lookup, the apply, a flush, any delivery or
      the last commit, the row everyone sees is final, with its message. Before the first commit of
      the result status text, location, events and poll time stay as they were and nobody is
      notified; after it the merged data stay. */
  lemma EveryScrapeEndsInAFinalStatus(c: Scrape, fault: nat, later: real)
    ensures var s := Ended(c, fault, later);
            && !Waiting(s.committed.status) && StatusFitsMessage(s.committed) && s.dirty == CLEAN
            && s.committed.active == c.row.active && (c.row.trackingId.Some? ==> s.committed.trackingId.Some?)
            && (Survives(c, fault) ==>
                  s.committed == Scraped(LookedUp(c), c.now, c.outcome) && s.deliveries == DeliveriesDue(c))
            && (Survives(c, fault) ==> Leaves(LookedUp(c), c.now, c.outcome, s.committed))
            && (!Survives(c, fault) ==> s.committed.status.Failed? && s.committed.message == Some(UpdateFailed))
            && (!Stored(c, fault) ==>
                  s.committed.data == c.row.data && s.committed.lastPolledAt == c.row.lastPolledAt && s.deliveries == 0)
            && (Stored(c, fault) ==>
                  && s.committed.data == Scraped(LookedUp(c), c.now, c.outcome).data
                  && s.committed.lastPolledAt == Some(c.now))
            && (Stored(c, fault) && !Survives(c, fault) ==>
                  s.committed == MarkedFailed(Scraped(LookedUp(c), c.now, c.outcome), later))
  {
    CommittedIsAllOrNothing(c, fault);
    ScrapedIsFinal(LookedUp(c), c.now, c.outcome);
    ScrapedLeaves(LookedUp(c), c.now, c.outcome);
    WithIdsKeepsData(c.row, c.ids);
  }

  // ---- the call itself ----------------------------------------------------------------------

  /** The session of one scrape; `left` calls still succeed before the fault. */
  class Scraper {
    var committed: Row
    var dirty: Dirty
    var deliveries: nat
    var left: nat

    function View(): Session
      reads this
    {
      Session(committed, dirty, deliveries)
    }

    constructor (row: Row, fault: nat)
      ensures View() == Session(row, CLEAN, 0) && left == fault
    {
      committed, dirty, deliveries, left := row, CLEAN, 0, fault;
    }

    /** One call; false stands for the exception it raises. */
    method Perform(a: Act, now: real) returns (ok: bool)
      modifies this
      ensures ok <==> old(left) > 0
      ensures ok ==> View() == Do(old(View()), a, now) && left == old(left) - 1
      ensures !ok ==> View() == old(View()) && left == 0
    {
      ok := left > 0;
      if !ok {
        return;
      }
      left := left - 1;
      match a {
        case Call =>
        case Reports(id, at) =>
          committed := committed.(trackingId := Some(id), updatedAt := at);
        case Assigns(more) =>
          dirty := Assigned(dirty, more);
        case Delivers =>
          committed, dirty, deliveries := Written(committed, dirty, now), CLEAN, deliveries + 1;
        case Commits =>
          committed, dirty := Written(committed, dirty, now), CLEAN;
      }
    }

    /** The provider lookup with its callback. */
    method Lookup(ids: seq<(string, real)>, now: real) returns (ok: bool)
      modifies this
      ensures View() == Exec(old(View()), LookupActs(ids), old(left), now)
      ensures ok <==> old(left) >= |LookupActs(ids)|
      ensures ok ==> left == old(left) - |LookupActs(ids)|
    {
      var i := 0;
      while i < |ids|
        invariant 0 <= i <= |ids|
        invariant Exec(View(), LookupActs(ids[i..]), left, now) == Exec(old(View()), LookupActs(ids), old(left), now)
        invariant left + |LookupActs(ids)| == old(left) + |LookupActs(ids[i..])|
      {
        ghost var acts := LookupActs(ids[i..]);
        assert ids[i..][1..] == ids[i + 1..];
        assert acts[1..] == [Reports(ids[i].0, ids[i].1)] + LookupActs(ids[i + 1..]);
        assert acts[1..][1..] == LookupActs(ids[i + 1..]);
        ok := Perform(Call, now);
        if !ok {
          return;
        }
        ok := Perform(Reports(ids[i].0, ids[i].1), now);
        if !ok {
          return;
        }
        i := i + 1;
      }
      assert LookupActs(ids[|ids|..])[1..] == [];
      ok := Perform(Call, now);
    }

    /** What the result assigns and flushes. */
    method Store(data: EventMerge.Record, outcome: Outcome, now: real) returns (ok: bool)
      requires !outcome.Raised?
      modifies this
      ensures View() == Exec(old(View()), StoreActs(data, outcome, now), old(left), now)
      ensures ok <==> old(left) >= |StoreActs(data, outcome, now)|
      ensures ok ==> left == old(left) - |StoreActs(data, outcome, now)|
    {
      ghost var acts := StoreActs(data, outcome, now);
      ghost var goal := Exec(View(), acts, left, now);
      ok := Perform(Assigns(IdOf(outcome)), now);
      if !ok {
        return;
      }
      assert Exec(View(), acts[1..], left, now) == goal;
      assert acts[1..][1..] == acts[2..] && acts[2..][1..] == acts[3..];
      match outcome {
        case Found(res, _) =>
          ok := Perform(Assigns(CLEAN.(data := Some(EventMerge.Merge(data, res)))), now);
          if !ok {
            return;
          }
          assert Exec(View(), acts[2..], left, now) == goal;
          ok := Perform(Call, now);
          if !ok {
            return;
          }
          assert Exec(View(), acts[3..], left, now) == goal;
          ok := Perform(Assigns(CLEAN.(lastPolledAt := Some(now), status := Some(Completed), message := Some(None))),
                        now);
          if !ok {
            return;
          }
          assert acts[3..][1..] == [Call];
        case Missed(carrier, _, unsupported) =>
          ok := Perform(Assigns(CLEAN.(lastPolledAt := Some(now), status := Some(NoData),
                                       data := Some(data.(carrier := Or(carrier, data.carrier))))), now);
          if !ok {
            return;
          }
          assert Exec(View(), acts[2..], left, now) == goal;
          ok := Perform(Assigns(CLEAN.(message := Some(Some(if unsupported then Unsupported else NoDataYet)))), now);
          if !ok {
            return;
          }
          assert acts[2..][1..] == [Call];
      }
      assert Exec(View(), [Call], left, now) == goal;
      assert [Call][1..] == [];
      ok := Perform(Call, now);
    }

    /** The webhook triggers. */
    method Notify(listeners: nat, now: real) returns (ok: bool)
      modifies this
      ensures View() == Exec(old(View()), NotifyActs(listeners), old(left), now)
      ensures ok <==> old(left) >= |NotifyActs(listeners)|
      ensures ok ==> left == old(left) - |NotifyActs(listeners)|
    {
      var i := 0;
      ok := true;
      while i < listeners
        invariant 0 <= i <= listeners && ok
        invariant Exec(View(), NotifyActs(listeners - i), left, now) ==
                  Exec(old(View()), NotifyActs(listeners), old(left), now)
        invariant left + |NotifyActs(listeners)| == old(left) + |NotifyActs(listeners - i)|
      {
        NotifyStep(View(), listeners - i, left, now);
        ok := Perform(Call, now);
        if !ok {
          return;
        }
        ok := Perform(Delivers, now);
        if !ok {
          return;
        }
        ok := Perform(Call, now);
        if !ok {
          return;
        }
        i := i + 1;
      }
    }

    /** The `try` block. */
    method RefreshAndApply(c: Scrape) returns (ok: bool)
      requires View() == Opening(c)
      modifies this
      ensures View() == Exec(Opening(c), Acts(c), old(left), c.now)
      ensures ok <==> Survives(c, old(left))
    {
      ghost var lookup, store := LookupActs(c.ids), StoreActs(c.row.data, c.outcome, c.now);
      ghost var goal := Exec(View(), Acts(c), left, c.now);
      assert Acts(c) == lookup + (store + ClosingActs(c));
      ExecSplit(View(), lookup, store + ClosingActs(c), left, c.now);
      ok := Lookup(c.ids, c.now);
      if !ok {
        return;
      }
      assert goal == Exec(View(), store + ClosingActs(c), left, c.now);
      if c.outcome.Raised? {
        return false;
      }
      ExecSplit(View(), store, ClosingActs(c), left, c.now);
      ok := Store(c.row.data, c.outcome, c.now);
      if !ok {
        return;
      }
      assert goal == Exec(View(), ClosingActs(c), left, c.now);
      ghost var notify := if c.outcome.Found? then NotifyActs(c.listeners) else [];
      ExecSplit(View(), notify, [Commits], left, c.now);
      if c.outcome.Found? {
        ok := Notify(c.listeners, c.now);
        if !ok {
          return;
        }
      }
      assert goal == Exec(View(), [Commits], left, c.now) && [Commits][1..] == [];
      ok := Perform(Commits, c.now);
    }

    /** The whole call: on an exception or a cancellation roll back, fetch the row, fail it, commit,
        and raise again. */
    method RefreshAndApplySafely(c: Scrape, later: real) returns (ok: bool)
      requires View() == Opening(c)
      modifies this
      ensures View() == Ended(c, old(left), later)
      ensures ok <==> Survives(c, old(left))
    {
      ok := RefreshAndApply(c);
      if !ok {
        dirty := CLEAN;
        committed := committed.(status := Failed, message := Some(UpdateFailed), updatedAt := later);
      }
    }
  }
}
