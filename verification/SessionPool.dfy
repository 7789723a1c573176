/** The pool of pre-warmed trackers (app/providers/gocomet_pool.py), for any number of holders and
    builder threads in any interleaving. Waiting for a tracker that a builder finishes in time is a
    build followed by an acquire. */
module SessionPool {
  /** Trackers are numbered as they are built. */
  type Tracker = nat
  type Holder = nat

  /** `building` counts submitted builds; `held`, `gone`, `initial` and `fallbacks` are for the
      record: who holds what, what was discarded, and how many builds were asked for. */
  datatype Pool = Pool(
    queue: seq<Tracker>,
    building: nat,
    next: Tracker,
    held: map<Holder, Tracker>,
    gone: set<Tracker>,
    initial: nat,
    fallbacks: nat)

  const EMPTY := Pool([], 0, 0, map[], {}, 0, 0)

  function Fill(p: Pool, n: nat): Pool {
    p.(building := p.building + n, initial := p.initial + n)
  }

  function BuildOne(p: Pool): Pool {
    if p.building == 0 then p
    else p.(queue := p.queue + [p.next], next := p.next + 1, building := p.building - 1)
  }

  /** The oldest queued tracker, or one built on the spot. */
  function Acquire(p: Pool, h: Holder): Pool {
    if h in p.held then p
    else if p.queue != [] then p.(queue := p.queue[1..], held := p.held[h := p.queue[0]])
    else p.(held := p.held[h := p.next], next := p.next + 1, fallbacks := p.fallbacks + 1)
  }

  function Release(p: Pool, h: Holder): Pool {
    if h !in p.held then p
    else p.(queue := p.queue + [p.held[h]], held := p.held - {h})
  }

  /** Dropped for good; a build is submitted in its place. */
  function Discard(p: Pool, h: Holder): Pool {
    if h !in p.held then p
    else p.(held := p.held - {h}, gone := p.gone + {p.held[h]}, building := p.building + 1)
  }

  datatype Op = Filling(n: nat) | Built | Acquiring(h: Holder) | Releasing(h: Holder) | Discarding(h: Holder)

  function Step(p: Pool, op: Op): Pool {
    match op
    case Filling(n) => Fill(p, n)
    case Built => BuildOne(p)
    case Acquiring(h) => Acquire(p, h)
    case Releasing(h) => Release(p, h)
    case Discarding(h) => Discard(p, h)
  }

  function Run(p: Pool, ops: seq<Op>): Pool {
    if ops == [] then p else Step(Run(p, ops[..|ops| - 1]), ops[|ops| - 1])
  }

  /** No tracker in two places, and none lost: queued, held and under construction make up all the
      builds ever asked for beyond replacements. */
  ghost predicate Sound(p: Pool) {
    && (forall i, j | 0 <= i < j < |p.queue| :: p.queue[i] != p.queue[j])
    && (forall g, h | g in p.held && h in p.held && g != h :: p.held[g] != p.held[h])
    && (forall t | t in p.queue :: t < p.next && t !in p.gone)
    && (forall h | h in p.held :: p.held[h] < p.next && p.held[h] !in p.queue && p.held[h] !in p.gone)
    && (forall t | t in p.gone :: t < p.next)
    && |p.queue| + |p.held| + p.building == p.initial + p.fallbacks
  }

  lemma AcquireKeepsSound(p: Pool, h: Holder)
    requires Sound(p)
    ensures Sound(Acquire(p, h))
    ensures h !in p.held ==> Acquire(p, h).held[h] !in p.gone
  {
    if h !in p.held && p.queue != [] {
      PopKeepsSound(p, h);
    } else if h !in p.held {
      FallbackKeepsSound(p, h);
    }
  }

  /** What each operation does to the queue: the oldest tracker is taken first, and only a drained
      queue costs a build on the spot; what is given back or built goes to the end. */
  lemma QueueIsFirstInFirstOut(p: Pool, h: Holder)
    ensures h !in p.held && p.queue != [] ==>
              var p' := Acquire(p, h);
              h in p'.held && p'.held[h] == p.queue[0] && p'.queue == p.queue[1..] && p'.fallbacks == p.fallbacks
    ensures h !in p.held && p.queue == [] ==>
              h in Acquire(p, h).held && Acquire(p, h).held[h] == p.next && Acquire(p, h).fallbacks == p.fallbacks + 1
    ensures h in p.held ==>
              && Release(p, h).queue == p.queue + [p.held[h]] && h !in Release(p, h).held
              && Discard(p, h).queue == p.queue && h !in Discard(p, h).held && p.held[h] in Discard(p, h).gone
              && Discard(p, h).building == p.building + 1
    ensures p.building > 0 ==> BuildOne(p).queue == p.queue + [p.next] && BuildOne(p).building == p.building - 1
  {
  }

  lemma PopKeepsSound(p: Pool, h: Holder)
    requires Sound(p) && h !in p.held && p.queue != []
    ensures Sound(Acquire(p, h))
  {
    var first, rest := p.queue[0], p.queue[1..];
    assert p.queue == [first] + rest && first in p.queue;
    assert first !in rest;
    forall g | g in p.held
      ensures p.held[g] != first && p.held[g] !in rest
    {
      assert p.held[g] !in p.queue;
    }
    HeldGrows(p, h, first);
  }

  lemma FallbackKeepsSound(p: Pool, h: Holder)
    requires Sound(p) && h !in p.held && p.queue == []
    ensures Sound(Acquire(p, h))
  {
    HeldGrows(p, h, p.next);
  }

  lemma HeldGrows(p: Pool, h: Holder, t: Tracker)
    requires h !in p.held
    ensures |p.held[h := t]| == |p.held| + 1
  {
    assert p.held[h := t].Keys == p.held.Keys + {h};
    assert |p.held[h := t].Keys| == |p.held.Keys| + 1;
  }

  lemma ReleaseKeepsSound(p: Pool, h: Holder)
    requires Sound(p)
    ensures Sound(Release(p, h))
  {
    if h in p.held {
      HeldShrinks(p, h);
    }
  }

  lemma DiscardKeepsSound(p: Pool, h: Holder)
    requires Sound(p)
    ensures Sound(Discard(p, h))
    ensures h in p.held ==> p.held[h] in Discard(p, h).gone
  {
    if h in p.held {
      HeldShrinks(p, h);
    }
  }

  lemma HeldShrinks(p: Pool, h: Holder)
    requires h in p.held
    ensures |p.held - {h}| == |p.held| - 1
  {
    assert (p.held - {h}).Keys == p.held.Keys - {h};
    assert |(p.held - {h}).Keys| == |p.held.Keys| - 1;
  }

  lemma BuildKeepsSound(p: Pool)
    requires Sound(p)
    ensures Sound(BuildOne(p))
  {
    assert forall i | 0 <= i < |p.queue| :: p.queue[i] in p.queue;
  }

  lemma StepKeepsSound(p: Pool, op: Op)
    requires Sound(p)
    ensures Sound(Step(p, op)) && p.gone <= Step(p, op).gone
  {
    match op
    case Filling(n) =>
    case Built => BuildKeepsSound(p);
    case Acquiring(h) => AcquireKeepsSound(p, h);
    case Releasing(h) => ReleaseKeepsSound(p, h);
    case Discarding(h) => DiscardKeepsSound(p, h);
  }

  /** Whatever the interleaving: no tracker has two holders or is both queued and held, a discarded
      one is never seen again, and queued + held + being built = initial fills + fallback builds. */
  lemma {:induction false} PoolStaysSound(p: Pool, ops: seq<Op>)
    requires Sound(p)
    ensures Sound(Run(p, ops))
    ensures forall t | t in p.gone :: t !in Run(p, ops).queue && t !in Run(p, ops).held.Values
    ensures p.gone <= Run(p, ops).gone
  {
    if ops != [] {
      var n := |ops| - 1;
      PoolStaysSound(p, ops[..n]);
      StepKeepsSound(Run(p, ops[..n]), ops[n]);
    }
  }

  class GoCometSessionPool {
    const targetSize: nat
    var queue: seq<Tracker>
    var building: nat
    var next: Tracker
    ghost var held: map<Holder, Tracker>
    ghost var gone: set<Tracker>
    ghost var initial: nat
    ghost var fallbacks: nat

    ghost function View(): Pool
      reads this
    {
      Pool(queue, building, next, held, gone, initial, fallbacks)
    }

    constructor (targetSize: nat)
      ensures View() == EMPTY && this.targetSize == targetSize
    {
      this.targetSize := targetSize;
      queue, building, next := [], 0, 0;
      held, gone, initial, fallbacks := map[], {}, 0, 0;
    }

    method StartFilling()
      modifies this
      ensures View() == Fill(old(View()), targetSize) && building == old(building) + targetSize
    {
      for i := 0 to targetSize
        invariant View() == Fill(old(View()), i)
      {
        building := building + 1;
        initial := initial + 1;
      }
    }

    /** What one submitted build does when its thread gets to it. */
    method Build()
      requires building > 0
      modifies this
      ensures View() == BuildOne(old(View()))
    {
      building := building - 1;
      queue := queue + [next];
      next := next + 1;
    }

    method Take(ghost h: Holder) returns (t: Tracker)
      requires h !in held
      modifies this
      ensures View() == Acquire(old(View()), h) && held[h] == t
      ensures if old(queue) != [] then t == old(queue)[0] && queue == old(queue)[1..] && fallbacks == old(fallbacks)
              else t == old(next) && queue == [] && fallbacks == old(fallbacks) + 1
    {
      if queue != [] {
        t := queue[0];
        queue := queue[1..];
      } else {
        t := next;
        next := next + 1;
        fallbacks := fallbacks + 1;
      }
      held := held[h := t];
    }

    method GiveBack(t: Tracker, ghost h: Holder)
      requires h in held && held[h] == t
      modifies this
      ensures View() == Release(old(View()), h)
    {
      queue := queue + [t];
      held := held - {h};
    }

    method Drop(t: Tracker, ghost h: Holder)
      requires h in held && held[h] == t
      modifies this
      ensures View() == Discard(old(View()), h)
    {
      building := building + 1;
      held, gone := held - {h}, gone + {t};
    }
  }
}
