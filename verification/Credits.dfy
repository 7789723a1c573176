/** Credit balances and the usage ledger (app/repositories/usage.py, app/services/usage_service.py). */
module Credits {
  type Org = string

  datatype Balance = Balance(remaining: int, included: int)

  /** One line of the append-only ledger. */
  datatype Entry = Entry(org: Org, credits: nat, number: string)

  datatype Books = Books(balances: map<Org, Balance>, ledger: seq<Entry>)

  function Remaining(b: Books, org: Org): int {
    if org in b.balances then b.balances[org].remaining else 0
  }

  function GetOrCreate(b: Books, org: Org, defaultCredits: int): Books {
    if org in b.balances then b
    else b.(balances := b.balances[org := Balance(defaultCredits, defaultCredits)])
  }

  /** One conditional UPDATE: take the credits if they are there. */
  function TryDeduct(b: Books, org: Org, amount: nat): (Books, bool) {
    if org in b.balances && b.balances[org].remaining >= amount then
      (b.(balances := b.balances[org := b.balances[org].(remaining := b.balances[org].remaining - amount)]), true)
    else (b, false)
  }

  function Add(b: Books, org: Org, amount: nat): Books {
    if org in b.balances then
      b.(balances := b.balances[org := b.balances[org].(remaining := b.balances[org].remaining + amount)])
    else b
  }

  function SetAllotment(b: Books, org: Org, included: nat): Books {
    b.(balances := b.balances[org := Balance(included, included)])
  }

  function TopUp(b: Books, org: Org, amount: nat): Books {
    Add(GetOrCreate(b, org, 0), org, amount)
  }

  function Record(b: Books, e: Entry): Books {
    b.(ledger := b.ledger + [e])
  }

  /** The first commit of a charge, and whether there is a second. */
  function BeginCharge(b: Books, e: Entry): (Books, bool) {
    TryDeduct(GetOrCreate(b, e.org, 0), e.org, e.credits)
  }

  /** A whole charge by itself; refused, it leaves at most an empty balance row. */
  function Charge(b: Books, e: Entry): (Books, bool) {
    var (paid, ok) := BeginCharge(b, e);
    (if ok then Record(paid, e) else paid, ok)
  }

  class UsageStore {
    var balances: map<Org, Balance>
    var ledger: seq<Entry>

    function View(): Books
      reads this
    {
      Books(balances, ledger)
    }

    constructor ()
      ensures View() == Books(map[], [])
    {
      balances, ledger := map[], [];
    }

    method GetOrCreateBalance(org: Org, defaultCredits: int) returns (balance: Balance)
      modifies this`balances
      ensures View() == GetOrCreate(old(View()), org, defaultCredits)
      ensures org in balances && balance == balances[org]
    {
      if org !in balances {
        balances := balances[org := Balance(defaultCredits, defaultCredits)];
      }
      balance := balances[org];
    }

    method SetPlanAllotment(org: Org, included: nat)
      modifies this`balances
      ensures View() == SetAllotment(old(View()), org, included)
    {
      var balance := GetOrCreateBalance(org, included);
      balances := balances[org := balance.(remaining := included, included := included)];
    }

    method TryDeductCredits(org: Org, amount: nat) returns (deducted: bool)
      modifies this`balances
      ensures (View(), deducted) == TryDeduct(old(View()), org, amount)
    {
      deducted := org in balances && balances[org].remaining >= amount;
      if deducted {
        balances := balances[org := balances[org].(remaining := balances[org].remaining - amount)];
      }
    }

    method AddCredits(org: Org, amount: nat)
      modifies this`balances
      ensures View() == TopUp(old(View()), org, amount)
    {
      var balance := GetOrCreateBalance(org, 0);
      balances := balances[org := balance.(remaining := balance.remaining + amount)];
    }

    method RecordEvent(e: Entry)
      modifies this`ledger
      ensures View() == Record(old(View()), e)
    {
      ledger := ledger + [e];
    }

    /** False stands for the quota error. */
    method ChargeCredits(e: Entry) returns (ok: bool)
      modifies this
      ensures (View(), ok) == Charge(old(View()), e)
    {
      var _ := GetOrCreateBalance(e.org, 0);
      ok := TryDeductCredits(e.org, e.credits);
      if ok {
        RecordEvent(e);
      }
    }
  }
}

/** Charges, top-ups and plan resets interleaved in any order. A charge commits twice, first the
    deduction and later its ledger line, so anything may come in between. */
module CreditHistories {
  import opened Credits

  /** A deduction; `straddles` once the balance has been reset before its line was written. */
  datatype Deduction = Deduction(entry: Entry, straddles: bool)

  /** What an organization's balance was last set to, the top-ups since, and where the ledger
      stood then. */
  datatype Account = Account(base: int, toppedUp: int, mark: nat)

  /** The books with what is needed to audit them: deductions whose line is still to be written,
      those already in the ledger, and the accounts. */
  datatype World = World(books: Books, inFlight: seq<Deduction>, written: seq<Deduction>, accounts: map<Org, Account>)

  const EMPTY := World(Books(map[], []), [], [], map[])

  datatype Op =
    | Open(org: Org, credits: nat)
    | Deduct(entry: Entry)
    | Write(i: nat)
    | Buy(org: Org, credits: nat)
    | Reset(org: Org, credits: nat)

  function Opened(w: World, org: Org, credits: nat): World {
    if org in w.books.balances then w
    else w.(books := GetOrCreate(w.books, org, credits),
            accounts := w.accounts[org := Account(credits, 0, |w.written|)])
  }

  function Straddled(ds: seq<Deduction>, org: Org): seq<Deduction> {
    seq(|ds|, i requires 0 <= i < |ds| => if ds[i].entry.org == org then ds[i].(straddles := true) else ds[i])
  }

  function Bought(w: World, org: Org, credits: nat): World {
    w.(books := Add(w.books, org, credits),
       accounts := if org in w.accounts
                   then w.accounts[org := w.accounts[org].(toppedUp := w.accounts[org].toppedUp + credits)]
                   else w.accounts)
  }

  function Deducted(w: World, e: Entry): World {
    var (books, ok) := TryDeduct(w.books, e.org, e.credits);
    if ok then w.(books := books, inFlight := w.inFlight + [Deduction(e, false)]) else w
  }

  function Written(w: World, i: nat): World
    requires i < |w.inFlight|
  {
    w.(books := Record(w.books, w.inFlight[i].entry),
       inFlight := w.inFlight[..i] + w.inFlight[i + 1..],
       written := w.written + [w.inFlight[i]])
  }

  function WasReset(w: World, org: Org, credits: nat): World {
    w.(books := SetAllotment(w.books, org, credits),
       inFlight := Straddled(w.inFlight, org),
       accounts := w.accounts[org := Account(credits, 0, |w.written|)])
  }

  function Apply(w: World, op: Op): World {
    match op
    case Open(org, credits) => Opened(w, org, credits)
    case Deduct(e) => Deducted(Opened(w, e.org, 0), e)
    case Write(i) => if i < |w.inFlight| then Written(w, i) else w
    case Buy(org, credits) => Bought(Opened(w, org, 0), org, credits)
    case Reset(org, credits) => WasReset(w, org, credits)
  }

  function Run(w: World, ops: seq<Op>): World {
    if ops == [] then w else Apply(Run(w, ops[..|ops| - 1]), ops[|ops| - 1])
  }

  /** Credits of one organization in a list of deductions, all of them or the straddling ones. */
  function Sum(ds: seq<Deduction>, org: Org, straddlingOnly: bool): nat {
    if ds == [] then 0
    else
      var d := ds[|ds| - 1];
      Sum(ds[..|ds| - 1], org, straddlingOnly)
      + (if d.entry.org == org && (straddlingOnly ==> d.straddles) then d.entry.credits else 0)
  }

  /** Credits on an organization's ledger lines from position `from` on. */
  function Charged(ledger: seq<Entry>, org: Org, from: nat): nat {
    if |ledger| <= from then 0
    else
      var e := ledger[|ledger| - 1];
      Charged(ledger[..|ledger| - 1], org, from) + (if e.org == org then e.credits else 0)
  }

  /** The ledger lines of deductions written since the organization's last reset. */
  function Since(w: World, org: Org): seq<Deduction> {
    if org in w.accounts && w.accounts[org].mark <= |w.written| then w.written[w.accounts[org].mark..] else []
  }

  /** What was deducted before the last reset but not yet in the ledger then. */
  function Straddling(w: World, org: Org): nat {
    Sum(Since(w, org), org, true) + Sum(w.inFlight, org, true)
  }

  /** The audit of one organization. */
  predicate Balanced(w: World, org: Org) {
    if org !in w.accounts then
      org !in w.books.balances && Sum(w.inFlight, org, false) == 0
    else
      && org in w.books.balances && w.books.balances[org].remaining >= 0
      && w.accounts[org].mark <= |w.written|
      && w.books.balances[org].remaining + Sum(Since(w, org), org, false) + Sum(w.inFlight, org, false)
         == w.accounts[org].base + w.accounts[org].toppedUp + Straddling(w, org)
  }

  predicate LedgerMatches(w: World) {
    |w.written| == |w.books.ledger| && forall i | 0 <= i < |w.written| :: w.written[i].entry == w.books.ledger[i]
  }

  // ---- sums -------------------------------------------------------------------------------

  lemma {:induction false} SumAppend(a: seq<Deduction>, b: seq<Deduction>, org: Org, only: bool)
    ensures Sum(a + b, org, only) == Sum(a, org, only) + Sum(b, org, only)
  {
    if b == [] {
      assert a + b == a;
    } else {
      assert (a + b)[..|a + b| - 1] == a + b[..|b| - 1];
      SumAppend(a, b[..|b| - 1], org, only);
    }
  }

  lemma SumRemove(ds: seq<Deduction>, i: nat, org: Org, only: bool)
    requires i < |ds|
    ensures Sum(ds, org, only) == Sum(ds[..i] + ds[i + 1..], org, only) + Sum([ds[i]], org, only)
  {
    assert ds == ds[..i] + [ds[i]] + ds[i + 1..];
    SumAppend(ds[..i] + [ds[i]], ds[i + 1..], org, only);
    SumAppend(ds[..i], [ds[i]], org, only);
    SumAppend(ds[..i], ds[i + 1..], org, only);
  }

  lemma {:induction false} SumStraddled(ds: seq<Deduction>, org: Org, other: Org, only: bool)
    ensures Sum(Straddled(ds, org), org, only) == Sum(ds, org, false)
    ensures other != org ==> Sum(Straddled(ds, org), other, only) == Sum(ds, other, only)
  {
    if ds != [] {
      SumStraddled(ds[..|ds| - 1], org, other, only);
      assert Straddled(ds, org)[..|ds| - 1] == Straddled(ds[..|ds| - 1], org);
    }
  }

  lemma {:induction false} LedgerSum(ledger: seq<Entry>, written: seq<Deduction>, org: Org, from: nat)
    requires |ledger| == |written| && from <= |written|
    requires forall i | 0 <= i < |written| :: written[i].entry == ledger[i]
    ensures Charged(ledger, org, from) == Sum(written[from..], org, false)
  {
    if from < |ledger| {
      var n := |ledger| - 1;
      LedgerSum(ledger[..n], written[..n], org, from);
      assert written[from..][..n - from] == written[..n][from..];
    }
  }

  lemma {:induction false} StraddlingIsPartOfAll(ds: seq<Deduction>, org: Org)
    ensures Sum(ds, org, true) <= Sum(ds, org, false)
  {
    if ds != [] {
      StraddlingIsPartOfAll(ds[..|ds| - 1], org);
    }
  }

  // ---- every step keeps the books balanced -------------------------------------------------

  lemma OpenedKeepsBalance(w: World, o: Org, credits: nat, org: Org)
    requires Balanced(w, org)
    ensures Balanced(Opened(w, o, credits), org) && (o == org ==> org in Opened(w, o, credits).accounts)
  {
    StraddlingIsPartOfAll(w.inFlight, org);
  }

  lemma DeductedKeepsBalance(w: World, e: Entry, org: Org)
    requires Balanced(w, org) && (e.org == org ==> org in w.accounts)
    ensures Balanced(Deducted(w, e), org)
  {
    SumAppend(w.inFlight, [Deduction(e, false)], org, true);
    SumAppend(w.inFlight, [Deduction(e, false)], org, false);
  }

  lemma WrittenKeepsBalance(w: World, i: nat, org: Org)
    requires Balanced(w, org) && i < |w.inFlight|
    ensures Balanced(Written(w, i), org)
  {
    var d := w.inFlight[i];
    SumRemove(w.inFlight, i, org, true);
    SumRemove(w.inFlight, i, org, false);
    SumAppend(Since(w, org), [d], org, true);
    SumAppend(Since(w, org), [d], org, false);
    if org in w.accounts {
      assert Since(Written(w, i), org) == Since(w, org) + [d];
    }
  }

  lemma ResetKeepsBalance(w: World, o: Org, credits: nat, org: Org)
    requires Balanced(w, org)
    ensures Balanced(WasReset(w, o, credits), org)
  {
    SumStraddled(w.inFlight, o, org, true);
    SumStraddled(w.inFlight, o, org, false);
  }

  lemma BoughtKeepsBalance(w: World, o: Org, credits: nat, org: Org)
    requires Balanced(w, org) && (o == org ==> org in w.accounts)
    ensures Balanced(Bought(w, o, credits), org)
  {
  }

  lemma {:induction false} RunKeepsBalance(ops: seq<Op>, org: Org)
    ensures LedgerMatches(Run(EMPTY, ops)) && Balanced(Run(EMPTY, ops), org)
  {
    if ops != [] {
      var n := |ops| - 1;
      RunKeepsBalance(ops[..n], org);
      ApplyKeepsBalance(Run(EMPTY, ops[..n]), ops[n], org);
      ApplyKeepsLedger(Run(EMPTY, ops[..n]), ops[n]);
    }
  }

  lemma ApplyKeepsLedger(w: World, op: Op)
    requires LedgerMatches(w)
    ensures LedgerMatches(Apply(w, op))
  {
  }

  lemma ApplyKeepsBalance(w: World, op: Op, org: Org)
    requires Balanced(w, org)
    ensures Balanced(Apply(w, op), org)
  {
    match op
    case Open(o, credits) => OpenedKeepsBalance(w, o, credits, org);
    case Deduct(e) =>
      OpenedKeepsBalance(w, e.org, 0, org);
      DeductedKeepsBalance(Opened(w, e.org, 0), e, org);
    case Write(i) =>
      if i < |w.inFlight| {
        WrittenKeepsBalance(w, i, org);
      }
    case Buy(o, credits) =>
      OpenedKeepsBalance(w, o, 0, org);
      BoughtKeepsBalance(Opened(w, o, 0), o, credits, org);
    case Reset(o, credits) => ResetKeepsBalance(w, o, credits, org);
  }

  /** In every interleaving a balance is never negative, and what is left, plus what the ledger
      charges since the last reset, plus deductions still to be written, is the allotment plus the
      top-ups since, plus exactly the charges that straddle that reset. */
  lemma CreditsAreConserved(ops: seq<Op>, org: Org)
    requires org in Run(EMPTY, ops).books.balances
    ensures var w := Run(EMPTY, ops);
            && org in w.accounts
            && Remaining(w.books, org) >= 0
            && Remaining(w.books, org) + Charged(w.books.ledger, org, w.accounts[org].mark) +
                 Sum(w.inFlight, org, false)
               == w.accounts[org].base + w.accounts[org].toppedUp + Straddling(w, org)
  {
    RunKeepsBalance(ops, org);
    var w := Run(EMPTY, ops);
    LedgerSum(w.books.ledger, w.written, org, w.accounts[org].mark);
  }

  /** A reset between the two commits of a charge, for which it takes a second API process, is enough
      to break it: ten credits granted, ten left, one on the ledger. */
  lemma AChargeCanStraddleAReset(org: Org)
    ensures var deducted := Apply(Apply(EMPTY, Open(org, 5)), Deduct(Entry(org, 1, "")));
            var w := Apply(Apply(deducted, Reset(org, 10)), Write(0));
            && Remaining(w.books, org) == 10 && w.books.ledger == [Entry(org, 1, "")]
            && w.accounts == map[org := Account(10, 0, 0)]
  {
    var deducted := Apply(Apply(EMPTY, Open(org, 5)), Deduct(Entry(org, 1, "")));
    assert deducted.inFlight == [Deduction(Entry(org, 1, ""), false)];
    var reset := Apply(deducted, Reset(org, 10));
    assert reset.inFlight == [Deduction(Entry(org, 1, ""), true)];
    assert reset.accounts == map[org := Account(10, 0, 0)];
  }

  /** What an account includes per period is what it was last opened with or reset to: charges and
      purchases leave it alone. */
  lemma {:induction false} IncludedIsTheAllotment(ops: seq<Op>, org: Org)
    ensures var w := Run(EMPTY, ops);
            && (org in w.accounts <==> org in w.books.balances)
            && (org in w.accounts ==> w.books.balances[org].included == w.accounts[org].base)
  {
    if ops != [] {
      IncludedIsTheAllotment(ops[..|ops| - 1], org);
    }
  }

  /** The organization's credits between their two commits when it was last reset; 0 if it never was. */
  function CaughtByReset(ops: seq<Op>, org: Org): nat {
    if ops == [] then 0
    else
      var before, last := ops[..|ops| - 1], ops[|ops| - 1];
      if last.Reset? && last.org == org then Sum(Run(EMPTY, before).inFlight, org, false)
      else CaughtByReset(before, org)
  }

  /** What straddles the last reset is what that reset caught, written by now or not. */
  lemma {:induction false} StraddlingIsWhatResetCaught(ops: seq<Op>, org: Org)
    ensures Straddling(Run(EMPTY, ops), org) == CaughtByReset(ops, org)
  {
    if ops != [] {
      var n := |ops| - 1;
      StraddlingIsWhatResetCaught(ops[..n], org);
      RunKeepsBalance(ops[..n], org);
      StepStraddles(Run(EMPTY, ops[..n]), ops[n], org);
    }
  }

  /** So the plain identity holds exactly when the organization had nothing in flight at its last
      reset. */
  lemma PlainIdentityIffNothingStraddles(ops: seq<Op>, org: Org)
    requires org in Run(EMPTY, ops).books.balances
    ensures var w := Run(EMPTY, ops);
            && org in w.accounts
            && (Remaining(w.books, org) + Charged(w.books.ledger, org, w.accounts[org].mark)
                + Sum(w.inFlight, org, false)
                == w.accounts[org].base + w.accounts[org].toppedUp
                <==> CaughtByReset(ops, org) == 0)
  {
    CreditsAreConserved(ops, org);
    StraddlingIsWhatResetCaught(ops, org);
  }

  /** Every reset of the organization finds none of its charges between their two commits. */
  predicate QuietResets(ops: seq<Op>, org: Org) {
    ops == [] ||
    (var before, last := ops[..|ops| - 1], ops[|ops| - 1];
     QuietResets(before, org)
     && (last.Reset? && last.org == org ==> Sum(Run(EMPTY, before).inFlight, org, false) == 0))
  }

  lemma {:induction false} QuietResetsCatchNothing(ops: seq<Op>, org: Org)
    requires QuietResets(ops, org)
    ensures CaughtByReset(ops, org) == 0
  {
    if ops != [] {
      QuietResetsCatchNothing(ops[..|ops| - 1], org);
    }
  }

  /** Then nothing ever straddles, and the plain identity holds throughout. */
  lemma QuietResetsNeverStraddle(ops: seq<Op>, org: Org)
    requires QuietResets(ops, org)
    ensures Straddling(Run(EMPTY, ops), org) == 0
  {
    QuietResetsCatchNothing(ops, org);
    StraddlingIsWhatResetCaught(ops, org);
  }

  lemma StepStraddles(w: World, op: Op, org: Org)
    requires Balanced(w, org)
    ensures Straddling(Apply(w, op), org) ==
            if op.Reset? && op.org == org then Sum(w.inFlight, org, false) else Straddling(w, org)
  {
    match op
    case Open(o, credits) => OpenedStraddles(w, o, credits, org);
    case Deduct(e) =>
      OpenedStraddles(w, e.org, 0, org);
      OpenedKeepsBalance(w, e.org, 0, org);
      DeductedStraddles(Opened(w, e.org, 0), e, org);
    case Write(i) =>
      if i < |w.inFlight| {
        WrittenStraddles(w, i, org);
        StrangersStraddleNothing(w, org);
      }
    case Buy(o, credits) =>
      OpenedStraddles(w, o, 0, org);
      BoughtStraddles(Opened(w, o, 0), o, credits, org);
    case Reset(o, credits) => ResetStraddles(w, o, credits, org);
  }

  lemma StrangersStraddleNothing(w: World, org: Org)
    requires Balanced(w, org)
    ensures org !in w.accounts ==> Straddling(w, org) == 0
  {
    StraddlingIsPartOfAll(w.inFlight, org);
  }

  lemma BoughtStraddles(w: World, o: Org, credits: nat, org: Org)
    ensures Straddling(Bought(w, o, credits), org) == Straddling(w, org)
  {
  }

  lemma DeductedStraddles(w: World, e: Entry, org: Org)
    ensures Straddling(Deducted(w, e), org) == Straddling(w, org)
  {
    SumAppend(w.inFlight, [Deduction(e, false)], org, true);
  }

  lemma ResetStraddles(w: World, o: Org, credits: nat, org: Org)
    requires Balanced(w, org)
    ensures Straddling(WasReset(w, o, credits), org) ==
            if o == org then Sum(w.inFlight, org, false) else Straddling(w, org)
  {
    SumStraddled(w.inFlight, o, org, true);
  }

  lemma OpenedStraddles(w: World, o: Org, credits: nat, org: Org)
    requires Balanced(w, org)
    ensures Straddling(Opened(w, o, credits), org) == Straddling(w, org)
  {
  }

  lemma WrittenStraddles(w: World, i: nat, org: Org)
    requires Balanced(w, org) && i < |w.inFlight|
    ensures Straddling(Written(w, i), org) == if org in w.accounts then Straddling(w, org) else 0
  {
    var d := w.inFlight[i];
    SumRemove(w.inFlight, i, org, true);
    if org in w.accounts {
      SumAppend(Since(w, org), [d], org, true);
      assert Since(Written(w, i), org) == Since(w, org) + [d];
    } else {
      StraddlingIsPartOfAll(w.inFlight, org);
    }
  }

  // ---- one process ------------------------------------------------------------------------

  /** In one API process a charge is not interrupted: its two commits follow one another. */
  datatype Whole =
    | Charging(entry: Entry)
    | Opening(org: Org, credits: nat)
    | Buying(org: Org, credits: nat)
    | Resetting(org: Org, credits: nat)

  function Commits(whole: Whole): seq<Op> {
    match whole
    case Charging(e) => [Deduct(e), Write(0)]
    case Opening(org, credits) => [Open(org, credits)]
    case Buying(org, credits) => [Buy(org, credits)]
    case Resetting(org, credits) => [Reset(org, credits)]
  }

  function AllCommits(wholes: seq<Whole>): seq<Op> {
    if wholes == [] then [] else AllCommits(wholes[..|wholes| - 1]) + Commits(wholes[|wholes| - 1])
  }

  /** The same on the books alone, a charge being one step. */
  function WholeBooks(books: Books, whole: Whole): Books {
    match whole
    case Charging(e) => Charge(books, e).0
    case Opening(org, credits) => GetOrCreate(books, org, credits)
    case Buying(org, credits) => TopUp(books, org, credits)
    case Resetting(org, credits) => SetAllotment(books, org, credits)
  }

  function BooksAfter(books: Books, wholes: seq<Whole>): Books {
    if wholes == [] then books else WholeBooks(BooksAfter(books, wholes[..|wholes| - 1]), wholes[|wholes| - 1])
  }

  lemma RunSnoc(w: World, ops: seq<Op>, op: Op)
    ensures Run(w, ops + [op]) == Apply(Run(w, ops), op)
  {
    assert (ops + [op])[..|ops|] == ops;
  }

  lemma QuietSnoc(ops: seq<Op>, op: Op, org: Org)
    requires QuietResets(ops, org)
    requires op.Reset? && op.org == org ==> Sum(Run(EMPTY, ops).inFlight, org, false) == 0
    ensures QuietResets(ops + [op], org)
  {
    assert (ops + [op])[..|ops|] == ops;
  }

  lemma ChargeInTwo(w: World, e: Entry)
    requires w.inFlight == []
    ensures var after := Apply(Apply(w, Deduct(e)), Write(0));
            after.inFlight == [] && after.books == Charge(w.books, e).0
  {
    assert Opened(w, e.org, 0).inFlight == [];
  }

  lemma OtherInOne(w: World, whole: Whole)
    requires w.inFlight == [] && !whole.Charging?
    ensures var after := Apply(w, Commits(whole)[0]);
            after.inFlight == [] && after.books == WholeBooks(w.books, whole)
  {
  }

  /** Between two whole steps: nothing in flight, and every reset so far was quiet. */
  predicate AtRest(ops: seq<Op>, org: Org) {
    Run(EMPTY, ops).inFlight == [] && QuietResets(ops, org)
  }

  lemma ChargeStep(ops: seq<Op>, e: Entry, org: Org)
    requires AtRest(ops, org)
    ensures AtRest(ops + [Deduct(e)] + [Write(0)], org)
    ensures Run(EMPTY, ops + [Deduct(e)] + [Write(0)]).books == Charge(Run(EMPTY, ops).books, e).0
  {
    RunSnoc(EMPTY, ops, Deduct(e));
    QuietSnoc(ops, Deduct(e), org);
    RunSnoc(EMPTY, ops + [Deduct(e)], Write(0));
    QuietSnoc(ops + [Deduct(e)], Write(0), org);
    ChargeInTwo(Run(EMPTY, ops), e);
  }

  lemma OtherStep(ops: seq<Op>, whole: Whole, org: Org)
    requires AtRest(ops, org) && !whole.Charging?
    ensures AtRest(ops + [Commits(whole)[0]], org)
    ensures Run(EMPTY, ops + [Commits(whole)[0]]).books == WholeBooks(Run(EMPTY, ops).books, whole)
  {
    RunSnoc(EMPTY, ops, Commits(whole)[0]);
    QuietSnoc(ops, Commits(whole)[0], org);
    OtherInOne(Run(EMPTY, ops), whole);
  }

  /** A whole step leaves nothing in flight, and the books as the one-step form has them. */
  lemma WholeStep(ops: seq<Op>, whole: Whole, org: Org)
    requires AtRest(ops, org)
    ensures AtRest(ops + Commits(whole), org)
    ensures Run(EMPTY, ops + Commits(whole)).books == WholeBooks(Run(EMPTY, ops).books, whole)
  {
    if whole.Charging? {
      assert ops + Commits(whole) == ops + [Deduct(whole.entry)] + [Write(0)];
      ChargeStep(ops, whole.entry, org);
    } else {
      assert ops + Commits(whole) == ops + [Commits(whole)[0]];
      OtherStep(ops, whole, org);
    }
  }

  /** So whatever one process does, the two-commit form and the one-step form agree on the books and
      no reset meets a charge half way. */
  lemma {:induction false} WholeRuns(wholes: seq<Whole>, org: Org)
    ensures var ops := AllCommits(wholes);
            AtRest(ops, org) && Run(EMPTY, ops).books == BooksAfter(EMPTY.books, wholes)
  {
    if wholes != [] {
      var n := |wholes| - 1;
      WholeRuns(wholes[..n], org);
      WholeStep(AllCommits(wholes[..n]), wholes[n], org);
    }
  }

  /** And there the plain identity always holds: credits left and ledger charges since the last
      reset make up that allotment and the top-ups since. */
  lemma OneProcessConservesCredits(wholes: seq<Whole>, org: Org)
    requires org in Run(EMPTY, AllCommits(wholes)).books.balances
    ensures var w := Run(EMPTY, AllCommits(wholes));
            && org in w.accounts
            && Remaining(w.books, org) + Charged(w.books.ledger, org, w.accounts[org].mark)
               == w.accounts[org].base + w.accounts[org].toppedUp
  {
    WholeRuns(wholes, org);
    QuietResetsNeverStraddle(AllCommits(wholes), org);
    CreditsAreConserved(AllCommits(wholes), org);
  }
}
