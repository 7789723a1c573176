/** Bulk submission: `queue_bulk` (app/services/container_service.py). */
module BulkQueue {
  import opened Text
  import opened Lifecycle
  import Credits

  function Normalized(numbers: seq<string>): seq<string> {
    seq(|numbers|, i requires 0 <= i < |numbers| => Upper(Strip(numbers[i])))
  }

  /** Each number once, in the order first seen. */
  function Unique(numbers: seq<string>): (r: seq<string>)
    ensures forall n :: n in r <==> n in numbers
  {
    if numbers == [] then []
    else
      var before, last := numbers[..|numbers| - 1], numbers[|numbers| - 1];
      assert numbers == before + [last];
      if last in before then Unique(before) else Unique(before) + [last]
  }

  /** No number twice, and what was submitted first stands first. */
  lemma {:induction false} UniqueKeepsFirstSeenOrder(numbers: seq<string>, k: nat)
    requires k <= |numbers|
    ensures forall i, j | 0 <= i < j < |Unique(numbers)| :: Unique(numbers)[i] != Unique(numbers)[j]
    ensures Unique(numbers[..k]) <= Unique(numbers)
    ensures forall n :: n in Unique(numbers[..k]) <==> n in numbers[..k]
  {
    if k < |numbers| {
      var before := numbers[..|numbers| - 1];
      UniqueKeepsFirstSeenOrder(before, k);
      assert before[..k] == numbers[..k];
    } else {
      assert numbers[..k] == numbers;
      if numbers != [] {
        UniqueKeepsFirstSeenOrder(numbers[..|numbers| - 1], 0);
      }
    }
  }

  /** `QuotaExceeded` before anything was charged, `StorageFailed` after. */
  datatype Verdict = Accepted | QuotaExceeded | StorageFailed

  datatype Item = Item(number: string, verdict: Verdict)

  /** Whether storing a number's row fails, and whether the queue takes its job. */
  datatype Mishaps = Mishaps(storageFails: string -> bool, queueUp: string -> bool)

  function Afforded(balance: int, n: nat): nat {
    if balance <= 0 then 0 else if balance < n then balance else n
  }

  /** With `balance` credits at hand, what becomes of the i-th distinct number. */
  function VerdictAt(balance: int, m: Mishaps, numbers: seq<string>, i: nat): Verdict
    requires i < |numbers|
  {
    if i >= balance then QuotaExceeded
    else if m.storageFails(numbers[i]) then StorageFailed
    else Accepted
  }

  function Lines(org: Credits.Org, numbers: seq<string>): seq<Credits.Entry> {
    seq(|numbers|, i requires 0 <= i < |numbers| => Credits.Entry(org, 1, numbers[i]))
  }

  /** Those of the first n numbers that are accepted, in order. */
  function AcceptedOf(balance: int, m: Mishaps, numbers: seq<string>, n: nat): seq<string>
    requires n <= |numbers|
  {
    if n == 0 then []
    else AcceptedOf(balance, m, numbers, n - 1)
         + (if VerdictAt(balance, m, numbers, n - 1).Accepted? then [numbers[n - 1]] else [])
  }

  function QueuedRow(rows: map<string, Row>, number: string, now: real): Row {
    MarkedQueued(if number in rows then rows[number] else NewRow(now), now)
  }

  function RowsAfter(rows: map<string, Row>, queued: seq<string>, now: real): map<string, Row> {
    if queued == [] then rows
    else
      var before, n := RowsAfter(rows, queued[..|queued| - 1], now), queued[|queued| - 1];
      before[n := QueuedRow(before, n, now)]
  }

  function JobsFor(m: Mishaps, queued: seq<string>): seq<string> {
    if queued == [] then []
    else
      JobsFor(m, queued[..|queued| - 1])
      + (if m.queueUp(queued[|queued| - 1]) then [queued[|queued| - 1]] else [])
  }

  // ---- what that comes to -----------------------------------------------------------------

  /** When only the quota can refuse, exactly the first min(balance, count) are accepted. */
  lemma {:induction false} FirstOnesAreAccepted(balance: int, m: Mishaps, numbers: seq<string>, n: nat)
    requires n <= |numbers| && forall x | x in numbers :: !m.storageFails(x)
    ensures AcceptedOf(balance, m, numbers, n) == numbers[..Afforded(balance, n)]
  {
    if n > 0 {
      FirstOnesAreAccepted(balance, m, numbers, n - 1);
      assert numbers[n - 1] in numbers;
      if n - 1 < balance {
        assert numbers[..n] == numbers[..n - 1] + [numbers[n - 1]];
      }
    }
  }

  /** Accepted numbers are queued without a message; no row appears or changes for any other. */
  lemma {:induction false} OnlyAcceptedRowsChange(rows: map<string, Row>, queued: seq<string>, now: real)
    ensures var after := RowsAfter(rows, queued, now);
            && after.Keys == rows.Keys + (set n | n in queued)
            && (forall n | n in queued :: after[n].status.Queued? && after[n].message.None? && after[n].updatedAt == now
                  && (n in rows ==> after[n].data == rows[n].data && after[n].active == rows[n].active))
            && (forall n | n in rows && n !in queued :: after[n] == rows[n])
  {
    if queued != [] {
      var last := queued[|queued| - 1];
      assert queued == queued[..|queued| - 1] + [last];
      OnlyAcceptedRowsChange(rows, queued[..|queued| - 1], now);
    }
  }

  /** With the queue up, one job per accepted number, in order. */
  lemma {:induction false} OneJobEach(m: Mishaps, queued: seq<string>)
    requires forall n | n in queued :: m.queueUp(n)
    ensures JobsFor(m, queued) == queued
  {
    if queued != [] {
      OneJobEach(m, queued[..|queued| - 1]);
      assert queued[|queued| - 1] in queued;
    }
  }

  lemma ChargeOfOne(books: Credits.Books, org: Credits.Org, number: string)
    ensures var (after, ok) := Credits.Charge(books, Credits.Entry(org, 1, number));
            && (ok <==> Credits.Remaining(books, org) >= 1)
            && Credits.Remaining(after, org) == Credits.Remaining(books, org) - (if ok then 1 else 0)
            && after.balances - {org} == books.balances - {org}
            && after.ledger == books.ledger + (if ok then [Credits.Entry(org, 1, number)] else [])
  {
  }

  lemma LinesSnoc(org: Credits.Org, numbers: seq<string>, i: nat)
    requires i < |numbers|
    ensures Lines(org, numbers[..i + 1]) == Lines(org, numbers[..i]) + [Credits.Entry(org, 1, numbers[i])]
  {
  }

  /** Padding and letter case do not make another number. */
  lemma SpellingDoesNotMatter(before: string, number: string, after: string)
    requires Blank(before) && Blank(after)
    ensures Normalized([before + number + after]) == Normalized([number])
    ensures Normalized([Lower(Strip(number))]) == Normalized([number])
    ensures var n := Normalized([number])[0];
            (forall c | c in n :: !('a' <= c <= 'z')) && (n != "" ==> !IsSpace(n[0]) && !IsSpace(n[|n| - 1]))
  {
    StripOfPadded(before, number, after);
    UpperForgetsCase(Strip(number));
    LowerKeepsStripped(Strip(number));
  }

  lemma LowerKeepsStripped(s: string)
    requires s == "" || (!IsSpace(s[0]) && !IsSpace(s[|s| - 1]))
    ensures Strip(Lower(s)) == Lower(s)
  {
  }

  /** A fault in storing one number's row costs its credit and nothing else: no row, no job. */
  lemma AFaultStaysItsOwn(balance: int, m: Mishaps, numbers: seq<string>, i: nat, n: nat)
    requires i < |numbers| && n <= |numbers| && m.storageFails(numbers[i])
    ensures VerdictAt(balance, m, numbers, i) == if i < balance then StorageFailed else QuotaExceeded
    ensures numbers[i] !in AcceptedOf(balance, m, numbers, n)
  {
    if n > 0 {
      AFaultStaysItsOwn(balance, m, numbers, i, n - 1);
    }
  }

  // ---- item by item -----------------------------------------------------------------------

  datatype Batch = Batch(books: Credits.Books, rows: map<string, Row>, items: seq<Item>, queued: seq<string>)

  function VerdictOf(charged: bool, m: Mishaps, number: string): Verdict {
    if !charged then QuotaExceeded else if m.storageFails(number) then StorageFailed else Accepted
  }

  function NextVerdict(books: Credits.Books, org: Credits.Org, number: string, m: Mishaps): Verdict {
    VerdictOf(Credits.Charge(books, Credits.Entry(org, 1, number)).1, m, number)
  }

  /** Charge for one number, then store its row. */
  function SubmitOne(b: Batch, org: Credits.Org, number: string, now: real, m: Mishaps): Batch {
    var verdict := NextVerdict(b.books, org, number, m);
    Batch(Credits.Charge(b.books, Credits.Entry(org, 1, number)).0,
          if verdict.Accepted? then b.rows[number := QueuedRow(b.rows, number, now)] else b.rows,
          b.items + [Item(number, verdict)],
          if verdict.Accepted? then b.queued + [number] else b.queued)
  }

  function SubmitFirst(b: Batch, org: Credits.Org, numbers: seq<string>, n: nat, now: real, m: Mishaps): Batch
    requires n <= |numbers|
  {
    if n == 0 then b else SubmitOne(SubmitFirst(b, org, numbers, n - 1, now, m), org, numbers[n - 1], now, m)
  }

  /** The books after n items: as many charged as the balance affords, one ledger line each. */
  lemma {:induction false} BooksAfter(b: Batch, org: Credits.Org, numbers: seq<string>, n: nat, now: real, m: Mishaps)
    requires n <= |numbers|
    ensures var balance, books := Credits.Remaining(b.books, org), SubmitFirst(b, org, numbers, n, now, m).books;
            && Credits.Remaining(books, org) == balance - Afforded(balance, n)
            && books.ledger == b.books.ledger + Lines(org, numbers[..Afforded(balance, n)])
            && books.balances - {org} == b.books.balances - {org}
  {
    if n > 0 {
      BooksAfter(b, org, numbers, n - 1, now, m);
      ChargeOfOne(SubmitFirst(b, org, numbers, n - 1, now, m).books, org, numbers[n - 1]);
      if n - 1 < Credits.Remaining(b.books, org) {
        LinesSnoc(org, numbers, n - 1);
      }
    }
  }

  /** The n-th item is decided by the balance before the batch. */
  lemma VerdictIsAt(b: Batch, org: Credits.Org, numbers: seq<string>, n: nat, now: real, m: Mishaps)
    requires n < |numbers|
    ensures var balance, books := Credits.Remaining(b.books, org), SubmitFirst(b, org, numbers, n, now, m).books;
            NextVerdict(books, org, numbers[n], m) == VerdictAt(balance, m, numbers, n)
  {
    BooksAfter(b, org, numbers, n, now, m);
    ChargeOfOne(SubmitFirst(b, org, numbers, n, now, m).books, org, numbers[n]);
  }

  function ItemsOf(balance: int, m: Mishaps, numbers: seq<string>, n: nat): seq<Item>
    requires n <= |numbers|
  {
    if n == 0 then []
    else ItemsOf(balance, m, numbers, n - 1) + [Item(numbers[n - 1], VerdictAt(balance, m, numbers, n - 1))]
  }

  lemma {:induction false} ItemsOfAt(balance: int, m: Mishaps, numbers: seq<string>, n: nat)
    requires n <= |numbers|
    ensures |ItemsOf(balance, m, numbers, n)| == n
    ensures forall i | 0 <= i < n ::
            ItemsOf(balance, m, numbers, n)[i] == Item(numbers[i], VerdictAt(balance, m, numbers, i))
  {
    if n > 0 {
      ItemsOfAt(balance, m, numbers, n - 1);
    }
  }

  lemma SubmitSnoc(b: Batch, org: Credits.Org, number: string, now: real, m: Mishaps)
    ensures var after, verdict := SubmitOne(b, org, number, now, m), NextVerdict(b.books, org, number, m);
            && after.items == b.items + [Item(number, verdict)]
            && after.queued == b.queued + (if verdict.Accepted? then [number] else [])
            && after.rows == if verdict.Accepted? then b.rows[number := QueuedRow(b.rows, number, now)] else b.rows
  {
  }

  lemma RowsSnoc(rows: map<string, Row>, queued: seq<string>, number: string, now: real)
    ensures var before := RowsAfter(rows, queued, now);
            RowsAfter(rows, queued + [number], now) == before[number := QueuedRow(before, number, now)]
  {
    assert (queued + [number])[..|queued|] == queued;
  }

  /** Each item gets its verdict, and the accepted ones are queued in order. */
  lemma {:induction false} ItemsAfter(b: Batch, org: Credits.Org, numbers: seq<string>, n: nat, now: real, m: Mishaps)
    requires n <= |numbers| && b.items == [] && b.queued == []
    ensures var balance, after := Credits.Remaining(b.books, org), SubmitFirst(b, org, numbers, n, now, m);
            after.items == ItemsOf(balance, m, numbers, n) && after.queued == AcceptedOf(balance, m, numbers, n)
  {
    if n > 0 {
      ItemsAfter(b, org, numbers, n - 1, now, m);
      VerdictIsAt(b, org, numbers, n - 1, now, m);
      SubmitSnoc(SubmitFirst(b, org, numbers, n - 1, now, m), org, numbers[n - 1], now, m);
    }
  }

  lemma {:induction false} RowsAreAfter(b: Batch, org: Credits.Org, numbers: seq<string>, n: nat, now: real, m: Mishaps)
    requires n <= |numbers| && b.queued == []
    ensures var after := SubmitFirst(b, org, numbers, n, now, m);
            after.rows == RowsAfter(b.rows, after.queued, now)
  {
    if n > 0 {
      RowsAreAfter(b, org, numbers, n - 1, now, m);
      var before := SubmitFirst(b, org, numbers, n - 1, now, m);
      SubmitSnoc(before, org, numbers[n - 1], now, m);
      RowsSnoc(b.rows, before.queued, numbers[n - 1], now);
    }
  }

  /** When nothing but the quota can fail: the first min(balance, count) numbers, and no others, get
      a verdict of acceptance, a queued row and a job. */
  lemma WithOnlyTheQuotaToFail(balance: int, m: Mishaps, numbers: seq<string>, rows: map<string, Row>, now: real)
    requires forall x | x in numbers :: !m.storageFails(x) && m.queueUp(x)
    ensures var first, queued := numbers[..Afforded(balance, |numbers|)], AcceptedOf(balance, m, numbers, |numbers|);
            && queued == first && JobsFor(m, queued) == first
            && (forall i | 0 <= i < |numbers| ::
                 VerdictAt(balance, m, numbers, i) == if i < |first| then Accepted else QuotaExceeded)
            && RowsAfter(rows, queued, now).Keys == rows.Keys + (set x | x in first)
            && (forall x | x in rows && x !in first :: RowsAfter(rows, queued, now)[x] == rows[x])
            && (forall x | x in first :: RowsAfter(rows, queued, now)[x].status.Queued?)
  {
    FirstOnesAreAccepted(balance, m, numbers, |numbers|);
    OneJobEach(m, numbers[..Afforded(balance, |numbers|)]);
    OnlyAcceptedRowsChange(rows, numbers[..Afforded(balance, |numbers|)], now);
    assert forall i | 0 <= i < |numbers| :: numbers[i] in numbers;
  }

  class Submissions {
    const org: Credits.Org
    const usage: Credits.UsageStore
    var rows: map<string, Row>
    var jobs: seq<string>

    constructor (org: Credits.Org, usage: Credits.UsageStore)
      ensures this.org == org && this.usage == usage && rows == map[] && jobs == []
    {
      this.org, this.usage := org, usage;
      rows, jobs := map[], [];
    }

    /** One item: charge, then store the row; a failing item never spoils the batch. */
    method QueueOne(number: string, now: real, m: Mishaps) returns (verdict: Verdict)
      modifies this`rows, usage
      ensures var (books, ok) := Credits.Charge(old(usage.View()), Credits.Entry(org, 1, number));
              && usage.View() == books
              && verdict == VerdictOf(ok, m, number)
      ensures rows == if verdict.Accepted? then old(rows)[number := QueuedRow(old(rows), number, now)] else old(rows)
    {
      var ok := usage.ChargeCredits(Credits.Entry(org, 1, number));
      if !ok {
        return QuotaExceeded;
      }
      if m.storageFails(number) {
        return StorageFailed;
      }
      var row := if number in rows then rows[number] else NewRow(now);
      rows := rows[number := row.(status := Queued, message := None, updatedAt := now)];
      verdict := Accepted;
    }

    /** Charge for each distinct number, store its row, then enqueue what was stored. */
    method QueueBulk(numbers: seq<string>, now: real, m: Mishaps) returns (results: seq<Item>)
      modifies this, usage
      ensures var ns, balance := Unique(Normalized(numbers)), old(Credits.Remaining(usage.View(), org));
              var queued := AcceptedOf(balance, m, ns, |ns|);
              && |results| == |ns|
              && (forall i | 0 <= i < |ns| :: results[i] == Item(ns[i], VerdictAt(balance, m, ns, i)))
              && Credits.Remaining(usage.View(), org) == balance - Afforded(balance, |ns|)
              && usage.ledger == old(usage.ledger) + Lines(org, ns[..Afforded(balance, |ns|)])
              && usage.balances - {org} == old(usage.balances) - {org}
              && rows == RowsAfter(old(rows), queued, now)
              && jobs == old(jobs) + JobsFor(m, queued)
    {
      var ns := Unique(Normalized(numbers));
      ghost var start := Batch(usage.View(), rows, [], []);
      results := [];
      var queued := [];
      for i := 0 to |ns|
        invariant Batch(usage.View(), rows, results, queued) == SubmitFirst(start, org, ns, i, now, m)
        invariant jobs == old(jobs)
      {
        var verdict := QueueOne(ns[i], now, m);
        results := results + [Item(ns[i], verdict)];
        if verdict.Accepted? {
          queued := queued + [ns[i]];
        }
      }
      BooksAfter(start, org, ns, |ns|, now, m);
      ItemsAfter(start, org, ns, |ns|, now, m);
      ItemsOfAt(Credits.Remaining(start.books, org), m, ns, |ns|);
      RowsAreAfter(start, org, ns, |ns|, now, m);
      EnqueueScrapes(queued, m);
    }

    /** A job the queue does not take is left to its row. */
    method EnqueueScrapes(queued: seq<string>, m: Mishaps)
      modifies this`jobs
      ensures jobs == old(jobs) + JobsFor(m, queued)
    {
      for i := 0 to |queued|
        invariant jobs == old(jobs) + JobsFor(m, queued[..i])
      {
        assert queued[..i + 1][..i] == queued[..i];
        if m.queueUp(queued[i]) {
          jobs := jobs + [queued[i]];
        }
      }
      assert queued[..|queued|] == queued;
    }
  }
}
