/** What merging keeps over whole histories of results, with the container re-read in between. */
module MergeProperties {
  import opened Text
  import opened EventMerge

  // ---- re-reading a container ------------------------------------------------------------

  /** The events at one instant, in list order. */
  function AtTime(events: seq<Event>, t: int): (r: seq<Event>)
    ensures forall e :: e in r <==> e in events && Time(e) == t
  {
    if events == [] then []
    else
      var n := |events| - 1;
      assert events == events[..n] + [events[n]];
      AtTime(events[..n], t) + (if Time(events[n]) == t then [events[n]] else [])
  }

  /** A re-read sorts the events by time; events of one instant stay in order. */
  ghost predicate SameTies(a: seq<Event>, b: seq<Event>) {
    forall t :: AtTime(a, t) == AtTime(b, t)
  }

  ghost predicate Reread(a: Record, b: Record) {
    && b == a.(events := b.events)
    && SameTies(a.events, b.events)
  }

  ghost predicate Applied(r: Record, res: Result, r': Record) {
    Reread(Merge(r, res), r')
  }

  /** rs[0] is stored first; result ins[i] takes rs[i] to rs[i + 1]. */
  ghost predicate History(rs: seq<Record>, ins: seq<Result>) {
    && |rs| == |ins| + 1
    && forall i | 0 <= i < |ins| :: Applied(rs[i], ins[i], rs[i + 1])
  }

  function EventSet(events: seq<Event>): set<Event> {
    set e | e in events
  }

  lemma SameTiesSameSet(a: seq<Event>, b: seq<Event>)
    requires SameTies(a, b)
    ensures forall e :: e in a <==> e in b
    ensures EventSet(a) == EventSet(b) && Keys(a) == Keys(b) && VesselNames(a) == VesselNames(b)
  {
    forall e
      ensures e in a <==> e in b
    {
      assert e in AtTime(a, Time(e)) <==> e in AtTime(b, Time(e));
    }
  }

  function FirstCandidate(events: seq<Event>, f: Field, exclude: set<string>): Option<Event> {
    if events == [] then None
    else
      var before := FirstCandidate(events[..|events| - 1], f, exclude);
      if before.None? && Candidate(events[|events| - 1], f, exclude) then Some(events[|events| - 1]) else before
  }

  lemma FirstCandidateSnoc(init: seq<Event>, last: Event, f: Field, exclude: set<string>)
    ensures FirstCandidate(init + [last], f, exclude) ==
            if FirstCandidate(init, f, exclude).Some? then FirstCandidate(init, f, exclude)
            else if Candidate(last, f, exclude) then Some(last) else None
  {
    assert (init + [last])[..|init|] == init;
  }

  /** Latest is the first qualifying event of its instant: ties go to list order. */
  lemma {:induction false} LatestIsFirstOfItsInstant(events: seq<Event>, f: Field, exclude: set<string>)
    requires Latest(events, f, exclude).Some?
    ensures var e := Latest(events, f, exclude).value;
            FirstCandidate(AtTime(events, Time(e)), f, exclude) == Some(e)
  {
    var n := |events| - 1;
    var init, last := events[..n], events[n];
    assert events == init + [last];
    var e := Latest(events, f, exclude).value;
    var earlier := AtTime(init, Time(e));
    assert AtTime(events, Time(e)) == if Time(last) == Time(e) then earlier + [last] else earlier;
    FirstCandidateSnoc(earlier, last, f, exclude);
    if Latest(init, f, exclude) == Some(e) {
      LatestIsFirstOfItsInstant(init, f, exclude);
    } else {
      NoCandidateNoFirst(earlier, f, exclude);
    }
  }

  lemma {:induction false} NoCandidateNoFirst(events: seq<Event>, f: Field, exclude: set<string>)
    requires forall e | e in events :: !Candidate(e, f, exclude)
    ensures FirstCandidate(events, f, exclude).None?
  {
    if events != [] {
      NoCandidateNoFirst(events[..|events| - 1], f, exclude);
    }
  }

  lemma LatestSurvivesReread(a: seq<Event>, b: seq<Event>, f: Field, exclude: set<string>)
    requires SameTies(a, b)
    ensures Latest(a, f, exclude) == Latest(b, f, exclude)
  {
    SameTiesSameSet(a, b);
    var x, y := Latest(a, f, exclude), Latest(b, f, exclude);
    if x.Some? {
      LatestIsFirstOfItsInstant(a, f, exclude);
    }
    if y.Some? {
      LatestIsFirstOfItsInstant(b, f, exclude);
    }
  }

  // ---- keys: no duplicates, nothing lost, nothing altered ---------------------------------

  ghost predicate DistinctKeys(events: seq<Event>) {
    forall i, j | 0 <= i < j < |events| :: KeyOf(events[i]) != KeyOf(events[j])
  }

  function Occurs(events: seq<Event>, k: Key): nat {
    if events == [] then 0
    else Occurs(events[..|events| - 1], k) + (if KeyOf(events[|events| - 1]) == k then 1 else 0)
  }

  lemma {:induction false} OccursIffKnown(events: seq<Event>, k: Key)
    ensures Occurs(events, k) > 0 <==> k in Keys(events)
  {
    if events != [] {
      var n := |events| - 1;
      assert events == events[..n] + [events[n]];
      OccursIffKnown(events[..n], k);
    }
  }

  lemma {:induction false} DistinctIffOccursOnce(events: seq<Event>)
    ensures DistinctKeys(events) <==> forall k :: Occurs(events, k) <= 1
  {
    if events != [] {
      var n := |events| - 1;
      var init, last := events[..n], KeyOf(events[n]);
      assert events == init + [events[n]];
      DistinctIffOccursOnce(init);
      OccursIffKnown(init, last);
      assert forall k :: Occurs(events, k) == Occurs(init, k) + (if k == last then 1 else 0);
      if last in Keys(init) {
        var e :| e in init && KeyOf(e) == last;
        var i :| 0 <= i < n && init[i] == e;
        assert KeyOf(events[i]) == KeyOf(events[n]);
        assert Occurs(events, last) > 1;
      } else {
        forall i | 0 <= i < n
          ensures KeyOf(events[i]) != last
        {
          assert init[i] in init;
        }
        if DistinctKeys(init) {
          assert forall i, j | 0 <= i < j < n :: KeyOf(init[i]) != KeyOf(init[j]);
          assert forall k :: Occurs(init, k) <= 1;
        } else {
          var k :| Occurs(init, k) > 1;
          assert Occurs(events, k) > 1;
          var i, j :| 0 <= i < j < n && KeyOf(init[i]) == KeyOf(init[j]);
          assert KeyOf(events[i]) == KeyOf(events[j]);
        }
      }
    }
  }

  lemma OccursSnoc(init: seq<Event>, last: Event, k: Key)
    ensures Occurs(init + [last], k) == Occurs(init, k) + (if KeyOf(last) == k then 1 else 0)
  {
    assert (init + [last])[..|init|] == init;
  }

  lemma {:induction false} OccursAtItsTime(events: seq<Event>, k: Key)
    ensures Occurs(events, k) == Occurs(AtTime(events, k.1), k)
  {
    if events != [] {
      var n := |events| - 1;
      OccursAtItsTime(events[..n], k);
      OccursSnoc(AtTime(events[..n], k.1), events[n], k);
      assert Time(events[n]) != k.1 ==> AtTime(events, k.1) == AtTime(events[..n], k.1);
    }
  }

  lemma RereadKeepsDistinct(a: seq<Event>, b: seq<Event>)
    requires SameTies(a, b) && DistinctKeys(a)
    ensures DistinctKeys(b)
  {
    DistinctIffOccursOnce(a);
    DistinctIffOccursOnce(b);
    forall k
      ensures Occurs(b, k) <= 1
    {
      OccursAtItsTime(a, k);
      OccursAtItsTime(b, k);
      assert Occurs(a, k) <= 1;
    }
  }

  /** A batch contributes exactly its unknown keys, each once, taken from the batch itself. */
  lemma {:induction false} FreshAddsEachNewKeyOnce(known: set<Key>, incoming: seq<Event>)
    ensures DistinctKeys(Fresh(known, incoming))
    ensures Keys(Fresh(known, incoming)) == Keys(incoming) - known
    ensures forall e | e in Fresh(known, incoming) :: e in incoming
    decreases incoming
  {
    if incoming != [] {
      var head, tail := incoming[0], incoming[1..];
      assert incoming == [head] + tail;
      assert Keys(incoming) == {KeyOf(head)} + Keys(tail);
      if KeyOf(head) in known {
        FreshAddsEachNewKeyOnce(known, tail);
      } else {
        var rest := Fresh(known + {KeyOf(head)}, tail);
        FreshAddsEachNewKeyOnce(known + {KeyOf(head)}, tail);
        forall i | 0 <= i < |rest|
          ensures KeyOf(rest[i]) != KeyOf(head)
        {
          assert KeyOf(rest[i]) in Keys(rest);
        }
        assert Keys([head] + rest) == {KeyOf(head)} + Keys(rest);
      }
    }
  }

  lemma MergeKeepsKeys(r: Record, res: Result)
    ensures r.events <= Merge(r, res).events
    ensures Keys(Merge(r, res).events) == Keys(r.events) + Keys(res.events)
    ensures DistinctKeys(r.events) ==> DistinctKeys(Merge(r, res).events)
    ensures forall e | e in Merge(r, res).events :: e in r.events || e in res.events
  {
    var added := Fresh(Keys(r.events), res.events);
    FreshAddsEachNewKeyOnce(Keys(r.events), res.events);
    var all := r.events + added;
    assert Keys(all) == Keys(r.events) + Keys(added);
    if DistinctKeys(r.events) {
      forall i, j | 0 <= i < j < |all|
        ensures KeyOf(all[i]) != KeyOf(all[j])
      {
        if i < |r.events| <= j {
          assert all[i] in r.events && all[j] in added;
          assert KeyOf(all[i]) in Keys(r.events) && KeyOf(all[j]) in Keys(added);
        }
      }
    }
  }

  function AllKeys(ins: seq<Result>): set<Key> {
    if ins == [] then {} else AllKeys(ins[..|ins| - 1]) + Keys(ins[|ins| - 1].events)
  }

  lemma AppliedKeepsKeys(r: Record, res: Result, r': Record)
    requires Applied(r, res, r')
    ensures Keys(r'.events) == Keys(r.events) + Keys(res.events)
    ensures DistinctKeys(r.events) ==> DistinctKeys(r'.events)
    ensures forall e | e in r.events :: e in r'.events
  {
    var merged := Merge(r, res);
    MergeKeepsKeys(r, res);
    SameTiesSameSet(merged.events, r'.events);
    if DistinctKeys(merged.events) {
      RereadKeepsDistinct(merged.events, r'.events);
    }
  }

  /** Over any history the stored keys stay distinct and are exactly the keys ever seen,
      and every event once stored is still stored, unchanged. */
  lemma {:induction false} HistoryKeepsExactlyTheKeysSeen(rs: seq<Record>, ins: seq<Result>, i: nat)
    requires History(rs, ins) && DistinctKeys(rs[0].events) && i <= |ins|
    ensures DistinctKeys(rs[|ins|].events)
    ensures Keys(rs[|ins|].events) == Keys(rs[0].events) + AllKeys(ins)
    ensures forall e | e in rs[i].events :: e in rs[|ins|].events
    decreases |ins|
  {
    if ins != [] {
      var n := |ins| - 1;
      HistoryKeepsExactlyTheKeysSeen(rs[..n + 1], ins[..n], if i <= n then i else 0);
      AppliedKeepsKeys(rs[n], ins[n], rs[n + 1]);
    }
  }

  // ---- the summary fields -----------------------------------------------------------------

  lemma ChosenSurvivesReread(a: seq<Event>, b: seq<Event>, f: Field)
    requires SameTies(a, b)
    ensures Chosen(a, f) == Chosen(b, f)
  {
    SameTiesSameSet(a, b);
    LatestSurvivesReread(a, b, f, Excluded(a, f));
  }

  /** A field comes from the latest actual event that qualifies, whatever estimates or provider
      guess come with it; only when there is none does the provider's own value count, and then
      the value already stored. A value never becomes empty. */
  lemma SummaryIsTheLatestActualValue(r: Record, res: Result, f: Field)
    ensures var after := Merge(r, res);
            var excluded := Excluded(after.events, f);
            && (forall e | e in after.events && Candidate(e, f, excluded) ::
                 exists e' :: e' in after.events && Candidate(e', f, excluded) && Time(e) <= Time(e')
                              && Summary(after, f) == Get(e', f)
                              && (forall e'' | e'' in after.events && Candidate(e'', f, excluded) ::
                                   Time(e'') <= Time(e')))
            && ((forall e | e in after.events :: !Candidate(e, f, excluded)) ==>
                 Summary(after, f) == if Truthy(Reported(res, f)) then Reported(res, f) else Summary(r, f))
            && (Truthy(Summary(r, f)) ==> Truthy(Summary(after, f)))
  {
    var after := Merge(r, res);
    var chosen := Chosen(after.events, f);
    if chosen.Some? {
      assert Summary(after, f) == Get(chosen.value, f);
    }
  }

  lemma NoKeysNoEvents(events: seq<Event>)
    ensures events != [] ==> Keys(events) != {}
  {
    if events != [] {
      assert KeyOf(events[0]) in Keys(events);
    }
  }

  /** Applying the same result again, after a re-read, changes nothing at all. */
  lemma ReapplyingChangesNothing(r: Record, res: Result, r': Record)
    requires Applied(r, res, r')
    ensures Fresh(Keys(r'.events), res.events) == []
    ensures Merge(r', res) == r'
  {
    var merged := Merge(r, res);
    MergeKeepsKeys(r, res);
    SameTiesSameSet(merged.events, r'.events);
    FreshAddsEachNewKeyOnce(Keys(r'.events), res.events);
    var added := Fresh(Keys(r'.events), res.events);
    NoKeysNoEvents(added);
    assert r'.events + added == r'.events;
    ChosenSurvivesReread(merged.events, r'.events, Location);
    ChosenSurvivesReread(merged.events, r'.events, Vessel);
    ChosenSurvivesReread(merged.events, r'.events, Voyage);
  }

  /** Re-applying a result never announces an update, whatever else its texts suggest. */
  lemma ReapplyingNeverAnnouncesAnUpdate(r: Record, res: Result, r': Record)
    requires Applied(r, res, r')
    ensures Updated !in Announced(r', res)
  {
    ReapplyingChangesNothing(r, res, r');
    InferredUpdates(r'.status, res.status, Codes(Fresh(Keys(r'.events), res.events)));
  }

  /** An update is announced exactly when the result names another status or adds an event. */
  lemma UpdateAnnouncedIffChanged(r: Record, res: Result)
    ensures Updated in Announced(r, res) <==>
            (Truthy(res.status) && res.status != r.status) || Merge(r, res).events != r.events
  {
    var added := Fresh(Keys(r.events), res.events);
    InferredUpdates(r.status, res.status, Codes(added));
    assert |Merge(r, res).events| == |r.events| + |added|;
    assert r.events + [] == r.events;
  }

  lemma InferredUpdates(previous: Option<string>, status: Option<string>, newCodes: seq<string>)
    ensures Updated in InferWebhookEvents(previous, status, newCodes) <==>
            (Truthy(status) && status != previous) || newCodes != []
  {
  }

  /** Events with the same key are the same event. */
  ghost predicate Agree(events: set<Event>) {
    forall a, b | a in events && b in events && KeyOf(a) == KeyOf(b) :: a == b
  }

  /** Qualifying events of one instant name the same value. */
  ghost predicate TiesAgree(events: set<Event>, f: Field, exclude: set<string>) {
    forall a, b | a in events && b in events && Candidate(a, f, exclude) && Candidate(b, f, exclude) &&
        Time(a) == Time(b) ::
      Get(a, f) == Get(b, f)
  }

  lemma MergeUnitesAgreeingEvents(r: Record, res: Result)
    requires Agree(EventSet(r.events) + EventSet(res.events))
    ensures EventSet(Merge(r, res).events) == EventSet(r.events) + EventSet(res.events)
  {
    var after := Merge(r, res);
    MergeKeepsKeys(r, res);
    forall e | e in res.events
      ensures e in after.events
    {
      assert KeyOf(e) in Keys(after.events);
      var e' :| e' in after.events && KeyOf(e') == KeyOf(e);
      assert e' in EventSet(r.events) + EventSet(res.events) && e in EventSet(r.events) + EventSet(res.events);
    }
  }

  lemma SummaryComesFromChosen(r: Record, res: Result, r': Record, f: Field)
    requires Applied(r, res, r') && Chosen(r'.events, f).Some?
    ensures Summary(r', f) == Get(Chosen(r'.events, f).value, f)
  {
    var merged := Merge(r, res);
    ChosenSurvivesReread(merged.events, r'.events, f);
    assert Summary(merged, f) == Get(Chosen(merged.events, f).value, f);
  }

  lemma AppliedUnites(r: Record, res: Result, r': Record)
    requires Agree(EventSet(r.events) + EventSet(res.events))
    requires Applied(r, res, r')
    ensures EventSet(r'.events) == EventSet(r.events) + EventSet(res.events)
    ensures forall f :: Chosen(r'.events, f).Some? ==> Summary(r', f) == Get(Chosen(r'.events, f).value, f)
  {
    MergeUnitesAgreeingEvents(r, res);
    SameTiesSameSet(Merge(r, res).events, r'.events);
    forall f | Chosen(r'.events, f).Some?
      ensures Summary(r', f) == Get(Chosen(r'.events, f).value, f)
    {
      SummaryComesFromChosen(r, res, r', f);
    }
  }

  lemma SameSetSameValue(a: seq<Event>, b: seq<Event>, f: Field)
    requires EventSet(a) == EventSet(b)
    requires exists e :: e in a && Candidate(e, f, Excluded(a, f))
    requires TiesAgree(EventSet(a), f, Excluded(a, f))
    ensures Chosen(a, f).Some? && Chosen(b, f).Some?
    ensures Get(Chosen(a, f).value, f) == Get(Chosen(b, f).value, f)
  {
    assert forall e :: e in a <==> e in EventSet(a);
    assert forall e :: e in b <==> e in EventSet(b);
    assert VesselNames(a) == VesselNames(b);
    var x, y := Chosen(a, f).value, Chosen(b, f).value;
    assert x in EventSet(a) && y in EventSet(a) && Time(x) == Time(y);
  }

  lemma MergesInEitherOrderUnite(r: Record, x: Result, y: Result, rx: Record, rxy: Record)
    requires Agree(EventSet(r.events) + EventSet(x.events) + EventSet(y.events))
    requires Applied(r, x, rx) && Applied(rx, y, rxy)
    ensures EventSet(rxy.events) == EventSet(r.events) + EventSet(x.events) + EventSet(y.events)
    ensures forall f :: Chosen(rxy.events, f).Some? ==> Summary(rxy, f) == Get(Chosen(rxy.events, f).value, f)
  {
    AppliedUnites(r, x, rx);
    AppliedUnites(rx, y, rxy);
  }

  /** Some event qualifies for the field, and those of one instant name one value. */
  ghost predicate Decided(events: seq<Event>, f: Field) {
    && (exists e :: e in events && Candidate(e, f, Excluded(events, f)))
    && TiesAgree(EventSet(events), f, Excluded(events, f))
  }

  /** Confluence: two results leave the same events in either order, and the same value in
      every field for which some event qualifies. */
  lemma MergeIsConfluent(r: Record, x: Result, y: Result, rx: Record, rxy: Record, ry: Record, ryx: Record, f: Field)
    requires Agree(EventSet(r.events) + EventSet(x.events) + EventSet(y.events))
    requires Applied(r, x, rx) && Applied(rx, y, rxy)
    requires Applied(r, y, ry) && Applied(ry, x, ryx)
    ensures EventSet(rxy.events) == EventSet(ryx.events) == EventSet(r.events) + EventSet(x.events) + EventSet(y.events)
    ensures Decided(rxy.events, f) ==> Summary(rxy, f) == Summary(ryx, f)
  {
    MergesInEitherOrderUnite(r, x, y, rx, rxy);
    assert EventSet(r.events) + EventSet(x.events) + EventSet(y.events) ==
           EventSet(r.events) + EventSet(y.events) + EventSet(x.events);
    MergesInEitherOrderUnite(r, y, x, ry, ryx);
    if Decided(rxy.events, f) {
      SameSetSameValue(rxy.events, ryx.events, f);
    }
  }

  /** No event of a list could ever decide a field. */
  predicate SaysNothing(events: seq<Event>, f: Field) {
    forall e | e in events :: !Candidate(e, f, {})
  }

  lemma NobodyIsChosen(events: seq<Event>, f: Field)
    requires SaysNothing(events, f)
    ensures Chosen(events, f).None?
  {
    var chosen := Chosen(events, f);
    if chosen.Some? {
      assert Candidate(chosen.value, f, {});
    }
  }

  lemma GuessDecides(r: Record, res: Result, r': Record, f: Field)
    requires Applied(r, res, r') && SaysNothing(r.events, f) && SaysNothing(res.events, f)
    ensures SaysNothing(r'.events, f) && Summary(r', f) == Or(Reported(res, f), Summary(r, f))
  {
    MergeKeepsKeys(r, res);
    SameTiesSameSet(Merge(r, res).events, r'.events);
    NobodyIsChosen(Merge(r, res).events, f);
  }

  /** When no event can decide a field, the last provider guess wins: two results commute on it
      exactly when they do not both guess, and differently. */
  lemma GuessesCommuteIff(r: Record, x: Result, y: Result, rx: Record, rxy: Record, ry: Record, ryx: Record, f: Field)
    requires Applied(r, x, rx) && Applied(rx, y, rxy)
    requires Applied(r, y, ry) && Applied(ry, x, ryx)
    requires SaysNothing(r.events, f) && SaysNothing(x.events, f) && SaysNothing(y.events, f)
    ensures Summary(rxy, f) == Summary(ryx, f)
            <==> !(Truthy(Reported(x, f)) && Truthy(Reported(y, f)) && Reported(x, f) != Reported(y, f))
  {
    GuessDecides(r, x, rx, f);
    GuessDecides(rx, y, rxy, f);
    GuessDecides(r, y, ry, f);
    GuessDecides(ry, x, ryx, f);
  }

  /** So two results without events can leave different locations in the two orders. */
  lemma GuessesDoNotCommute() returns (r: Record, x: Result, y: Result)
    ensures Merge(Merge(r, x), y).events == Merge(Merge(r, y), x).events == []
    ensures Merge(Merge(r, x), y).location != Merge(Merge(r, y), x).location
  {
    r := Record(None, None, None, None, None, []);
    x := Result(None, None, Some("Busan"), None, None, []);
    y := Result(None, None, Some("Rotterdam"), None, None, []);
  }

  /** The events a result adds to a record. */
  function Added(r: Record, res: Result): seq<Event> {
    Fresh(Keys(r.events), res.events)
  }

  /** All the events added from rs[i] on. */
  function AddedSince(rs: seq<Record>, ins: seq<Result>, i: nat): seq<Event>
    requires |rs| == |ins| + 1 && i <= |ins|
    decreases |ins| - i
  {
    if i == |ins| then []
    else
      var n := |ins| - 1;
      AddedSince(rs[..n + 1], ins[..n], i) + Added(rs[n], ins[n])
  }

  lemma {:induction false} HistoryAdds(rs: seq<Record>, ins: seq<Result>, i: nat)
    requires History(rs, ins) && i <= |ins|
    ensures forall e :: e in rs[|ins|].events <==> e in rs[i].events || e in AddedSince(rs, ins, i)
    decreases |ins| - i
  {
    if i < |ins| {
      var n := |ins| - 1;
      HistoryAdds(rs[..n + 1], ins[..n], i);
      SameTiesSameSet(Merge(rs[n], ins[n]).events, rs[n + 1].events);
    }
  }

  lemma MoreEventsLaterChoice(a: seq<Event>, b: seq<Event>, f: Field)
    requires !f.Location? && Chosen(a, f).Some? && forall e | e in a :: e in b
    ensures Chosen(b, f).Some? && Time(Chosen(a, f).value) <= Time(Chosen(b, f).value)
  {
    assert Chosen(a, f).value in b;
  }

  /** Once an actual event supplies a vessel or a voyage, the time of the event the field is
      taken from never goes back, and the field is that event's value from then on. */
  lemma VesselAndVoyageNeverGoBack(rs: seq<Record>, ins: seq<Result>, f: Field, i: nat)
    requires History(rs, ins) && !f.Location? && i <= |ins|
    requires Chosen(rs[i].events, f).Some?
    ensures Chosen(rs[|ins|].events, f).Some?
    ensures Time(Chosen(rs[i].events, f).value) <= Time(Chosen(rs[|ins|].events, f).value)
    ensures i < |ins| ==> Summary(rs[|ins|], f) == Get(Chosen(rs[|ins|].events, f).value, f)
  {
    HistoryAdds(rs, ins, i);
    MoreEventsLaterChoice(rs[i].events, rs[|ins|].events, f);
    if i < |ins| {
      SummaryComesFromChosen(rs[|ins| - 1], ins[|ins| - 1], rs[|ins|], f);
    }
  }

  const PORT := Event("gate_in", Some("P"), None, None, Some(Aware(1)), true)
  const REEFER := Event("reefer", Some("V"), None, None, Some(Aware(2)), true)
  const PLANNED := Event("loaded", None, Some("v"), None, Some(Aware(3)), false)

  lemma ExampleCandidates()
    ensures Candidate(PORT, Location, {}) && Candidate(PORT, Location, {"v"})
    ensures Candidate(REEFER, Location, {}) && !Candidate(REEFER, Location, {"v"})
    ensures IsMeaningful(PLANNED.vessel) && Canon(PLANNED.vessel.value) == "v"
  {
    assert Canon("P") == "p" && Canon("V") == "v" && Canon("v") == "v";
  }

  lemma ExampleBefore()
    ensures Chosen([PORT, REEFER], Location) == Some(REEFER)
  {
    ExampleCandidates();
    assert VesselNames([PORT, REEFER]) == {};
    assert REEFER in [PORT, REEFER];
  }

  lemma ExampleAfter()
    ensures Chosen([PORT, REEFER, PLANNED], Location) == Some(PORT)
  {
    ExampleCandidates();
    var all := [PORT, REEFER, PLANNED];
    assert PORT in all && PLANNED in all;
    assert VesselNames(all) == {"v"};
  }

  /** A location can go back: a later result may reveal that it was a vessel's name. */
  lemma LocationCanGoBack() returns (r: Record, res: Result)
    ensures var after := Merge(r, res);
            && Chosen(r.events, Location).Some? && Chosen(after.events, Location).Some?
            && r.location == Chosen(r.events, Location).value.location
            && Time(Chosen(after.events, Location).value) < Time(Chosen(r.events, Location).value)
            && after.location != r.location
  {
    r := Record(None, None, REEFER.location, None, None, [PORT, REEFER]);
    res := Result(None, None, None, None, None, [PLANNED]);
    var known := Keys(r.events);
    assert KeyOf(PLANNED) !in known && res.events[1..] == [];
    assert Fresh(known, res.events) == [PLANNED] + Fresh(known + {KeyOf(PLANNED)}, []) == [PLANNED];
    assert Merge(r, res).events == [PORT, REEFER, PLANNED];
    ExampleBefore();
    ExampleAfter();
  }

  // ---- exactly when a location goes back ---------------------------------------------------

  /** From a's events to b's: the location is taken from an earlier event, or from none. */
  predicate GoesBack(a: seq<Event>, b: seq<Event>)
    requires Chosen(a, Location).Some?
  {
    Chosen(b, Location).None? || Time(Chosen(b, Location).value) < Time(Chosen(a, Location).value)
  }

  /** What decides it before the merge: an added event names the stored location as a vessel, and
      once that is known neither a stored event of the same instant nor an added one of that instant
      or later can stand in. */
  predicate Unmasks(a: seq<Event>, added: seq<Event>)
    requires Chosen(a, Location).Some?
  {
    var was, names := Chosen(a, Location).value, VesselNames(a) + VesselNames(added);
    && Canon(was.location.value) in VesselNames(added)
    && (forall e | e in a && Time(e) == Time(was) :: !Candidate(e, Location, names))
    && (forall e | e in added && Time(e) >= Time(was) :: !Candidate(e, Location, names))
  }

  lemma VesselNamesUnite(a: seq<Event>, added: seq<Event>, b: seq<Event>)
    requires forall e :: e in b <==> e in a || e in added
    ensures VesselNames(b) == VesselNames(a) + VesselNames(added)
  {
    forall e | e in a && IsMeaningful(e.vessel)
      ensures Canon(e.vessel.value) in VesselNames(b)
    {
      assert e in b;
    }
    forall e | e in added && IsMeaningful(e.vessel)
      ensures Canon(e.vessel.value) in VesselNames(b)
    {
      assert e in b;
    }
  }

  lemma GoesBackIffUnmasked(a: seq<Event>, added: seq<Event>, b: seq<Event>)
    requires Chosen(a, Location).Some? && forall e :: e in b <==> e in a || e in added
    ensures GoesBack(a, b) <==> Unmasks(a, added)
  {
    VesselNamesUnite(a, added, b);
    var was, names := Chosen(a, Location).value, VesselNames(b);
    if Candidate(was, Location, names) {
      assert was in b;
    } else {
      assert Canon(was.location.value) in VesselNames(added);
    }
    if !GoesBack(a, b) && !Candidate(was, Location, names) {
      var now := Chosen(b, Location).value;
      assert now in b && Time(now) >= Time(was) && Candidate(now, Location, names);
      assert now in a ==> Candidate(now, Location, VesselNames(a));
    }
  }

  /** One result takes the location back exactly when it unmasks it as a vessel's name. */
  lemma LocationGoesBackIffUnmasked(r: Record, res: Result, r': Record)
    requires Applied(r, res, r') && Chosen(r.events, Location).Some?
    ensures GoesBack(r.events, r'.events) <==> Unmasks(r.events, Added(r, res))
    ensures !Unmasks(r.events, Added(r, res)) ==>
            Summary(r', Location) == Get(Chosen(r'.events, Location).value, Location)
  {
    SameTiesSameSet(Merge(r, res).events, r'.events);
    GoesBackIffUnmasked(r.events, Added(r, res), r'.events);
    if !GoesBack(r.events, r'.events) {
      SummaryComesFromChosen(r, res, r', Location);
    }
  }

  /** Over any stretch of any history: the location ends up taken from an earlier event than at its
      start, or from none, exactly when what was added meanwhile unmasks it. */
  lemma LocationOverHistory(rs: seq<Record>, ins: seq<Result>, i: nat)
    requires History(rs, ins) && i <= |ins| && Chosen(rs[i].events, Location).Some?
    ensures GoesBack(rs[i].events, rs[|ins|].events) <==> Unmasks(rs[i].events, AddedSince(rs, ins, i))
  {
    HistoryAdds(rs, ins, i);
    GoesBackIffUnmasked(rs[i].events, AddedSince(rs, ins, i), rs[|ins|].events);
  }

  const ARRIVAL := Event("arrival", Some("Q"), Some("v"), None, Some(Aware(5)), true)

  lemma ExampleArrival()
    ensures VesselNames([REEFER]) == {} && VesselNames([ARRIVAL]) == {"v"}
    ensures Candidate(ARRIVAL, Location, {"v"}) && Canon("V") == "v"
  {
    assert Canon("Q") == "q" && Canon("v") == "v" && Canon("V") == "v";
    assert ARRIVAL in [ARRIVAL];
  }

  lemma ExampleReefer()
    ensures Chosen([REEFER], Location) == Some(REEFER)
  {
    ExampleArrival();
    ExampleCandidates();
    assert REEFER in [REEFER];
  }

  /** Being named as a vessel is not enough: a later place that comes with it takes the location on. */
  lemma AVesselNameNeedNotTakeTheLocationBack()
    ensures Chosen([REEFER], Location) == Some(REEFER) && Canon(REEFER.location.value) in VesselNames([ARRIVAL])
    ensures !Unmasks([REEFER], [ARRIVAL]) && !GoesBack([REEFER], [REEFER] + [ARRIVAL])
  {
    ExampleReefer();
    ExampleArrival();
    var names := VesselNames([REEFER]) + VesselNames([ARRIVAL]);
    assert names == {"v"} && ARRIVAL in [ARRIVAL];
    GoesBackIffUnmasked([REEFER], [ARRIVAL], [REEFER] + [ARRIVAL]);
  }
}
