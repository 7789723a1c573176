/** What a container row says after merges, told in terms of what was reported; and what is announced
    (app/repositories/containers.py, app/services/container_service.py). */
module MergeAnswers {
  import opened Text
  import opened EventMerge
  import opened MergeProperties

  predicate Said(v: Option<string>) {
    v.Some? && v.value != ""
  }

  // ---- status and carrier ---------------------------------------------------------------------

  /** What the provider reports wins over what is stored; silence changes nothing. */
  lemma ReportedStatusAndCarrierWin(r: Record, res: Result, r': Record)
    requires Applied(r, res, r')
    ensures r'.status == if Said(res.status) then res.status else r.status
    ensures r'.carrier == if Said(res.carrier) then res.carrier else r.carrier
  {
  }

  datatype Label = Status | Carrier

  function Told(res: Result, l: Label): Option<string> {
    match l
    case Status => res.status
    case Carrier => res.carrier
  }

  function Kept(r: Record, l: Label): Option<string> {
    match l
    case Status => r.status
    case Carrier => r.carrier
  }

  /** The k-th result is the last to say anything. */
  predicate LastToSay(ins: seq<Result>, l: Label, k: nat) {
    k < |ins| && Said(Told(ins[k], l)) && forall j | k < j < |ins| :: !Said(Told(ins[j], l))
  }

  predicate NobodySays(ins: seq<Result>, l: Label) {
    forall j | 0 <= j < |ins| :: !Said(Told(ins[j], l))
  }

  /** Each row says what the result before it told, if anything, else what the row before it said. */
  predicate Passed(kept: seq<Option<string>>, ins: seq<Result>, l: Label) {
    && |kept| == |ins| + 1
    && forall k | 0 <= k < |ins| :: kept[k + 1] == if Said(Told(ins[k], l)) then Told(ins[k], l) else kept[k]
  }

  lemma {:induction false} LastToldIsPassed(kept: seq<Option<string>>, ins: seq<Result>, l: Label)
    requires Passed(kept, ins, l)
    ensures NobodySays(ins, l) ==> kept[|ins|] == kept[0]
    ensures forall k: nat | LastToSay(ins, l, k) :: kept[|ins|] == Told(ins[k], l)
    ensures NobodySays(ins, l) || exists k: nat :: LastToSay(ins, l, k)
  {
    if ins != [] {
      var n := |ins| - 1;
      LastToldIsPassed(kept[..n + 1], ins[..n], l);
      if Said(Told(ins[n], l)) {
        assert LastToSay(ins, l, n);
      } else {
        assert NobodySays(ins[..n], l) ==> NobodySays(ins, l);
        forall k: nat
          ensures LastToSay(ins, l, k) <==> LastToSay(ins[..n], l, k)
        {
          SilenceKeepsTheLast(ins, l, k);
        }
      }
    }
  }

  /** Over any history, status and carrier are the last ones reported, or those of the first row. */
  lemma LastReportedIsKept(rs: seq<Record>, ins: seq<Result>, l: Label)
    requires History(rs, ins)
    ensures NobodySays(ins, l) ==> Kept(rs[|ins|], l) == Kept(rs[0], l)
    ensures forall k: nat | LastToSay(ins, l, k) :: Kept(rs[|ins|], l) == Told(ins[k], l)
    ensures NobodySays(ins, l) || exists k: nat :: LastToSay(ins, l, k)
  {
    var kept := seq(|rs|, i requires 0 <= i < |rs| => Kept(rs[i], l));
    forall k | 0 <= k < |ins|
      ensures kept[k + 1] == if Said(Told(ins[k], l)) then Told(ins[k], l) else kept[k]
    {
      ReportedStatusAndCarrierWin(rs[k], ins[k], rs[k + 1]);
    }
    LastToldIsPassed(kept, ins, l);
  }

  lemma SilenceKeepsTheLast(ins: seq<Result>, l: Label, k: nat)
    requires ins != [] && !Said(Told(ins[|ins| - 1], l))
    ensures LastToSay(ins, l, k) <==> LastToSay(ins[..|ins| - 1], l, k)
  {
  }

  // ---- what counts as a place, a vessel or a voyage -----------------------------------------

  /** Text that names something: not blank and none of the three words for "not known". */
  predicate Names(v: Option<string>) {
    && v.Some? && v.value != ""
    && (var word := Lower(Strip(v.value));
        word != "" && word != "unknown" && word != "n/a" && word != "none")
  }

  /** An event that may supply a field: it has happened, its value names something, and for a
      location no event of the list gives that name to a vessel. */
  predicate Supplies(events: seq<Event>, e: Event, f: Field) {
    && e in events && e.actual && Names(Get(e, f))
    && (f.Location? ==>
          forall v | v in events && Names(v.vessel) :: Lower(Strip(v.vessel.value)) != Lower(Strip(e.location.value)))
  }

  lemma SuppliesIff(events: seq<Event>, e: Event, f: Field)
    requires e in events
    ensures Supplies(events, e, f) <==> Candidate(e, f, Excluded(events, f))
  {
    assert forall v :: Names(v) <==> IsMeaningful(v);
    if f.Location? && Names(e.location) {
      if Canon(e.location.value) in VesselNames(events) {
        var v :| v in events && IsMeaningful(v.vessel) && Canon(v.vessel.value) == Canon(e.location.value);
        assert Names(v.vessel);
      }
    }
  }

  /** The event a field is taken from: of those that may supply it, one of the greatest time; and
      there is one exactly when some event may. */
  lemma ChosenSupplies(events: seq<Event>, f: Field)
    ensures Chosen(events, f).Some? ==>
              && Supplies(events, Chosen(events, f).value, f)
              && forall e | Supplies(events, e, f) :: Time(e) <= Time(Chosen(events, f).value)
    ensures Chosen(events, f).None? ==> forall e | e in events :: !Supplies(events, e, f)
  {
    forall e | e in events
      ensures Supplies(events, e, f) <==> Candidate(e, f, Excluded(events, f))
    {
      SuppliesIff(events, e, f);
    }
  }

  /** Each summary field is the same field of the event it is taken from; with no such event it is
      what the provider says of that field, or else what was stored. */
  lemma EachFieldIsItsOwn(r: Record, res: Result)
    ensures var after := Merge(r, res);
            var place, vessel, voyage :=
              Chosen(after.events, Location), Chosen(after.events, Vessel), Chosen(after.events, Voyage);
            && after.location == (if place.Some? then place.value.location
                                  else if Said(res.location) then res.location else r.location)
            && after.vessel == (if vessel.Some? then vessel.value.vessel
                                else if Said(res.vessel) then res.vessel else r.vessel)
            && after.voyage == (if voyage.Some? then voyage.value.voyage
                                else if Said(res.voyage) then res.voyage else r.voyage)
  {
  }

  // ---- which incoming events are added --------------------------------------------------------

  /** A known event adds nothing, an unknown one itself. */
  lemma OneEventAddsItself(known: set<Key>, e: Event)
    ensures Fresh(known, [e]) == if KeyOf(e) in known then [] else [e]
  {
    assert [e][1..] == [];
  }

  /** A batch is taken in order, each event against all that came before it: of two events with one
      key the first counts. */
  lemma {:induction false} BatchIsTakenInOrder(known: set<Key>, a: seq<Event>, b: seq<Event>)
    ensures Fresh(known, a + b) == Fresh(known, a) + Fresh(known + Keys(a), b)
    decreases a
  {
    if a == [] {
      assert a + b == b && known + Keys(a) == known;
    } else {
      assert (a + b)[0] == a[0] && (a + b)[1..] == a[1..] + b;
      KeysOfCons(a);
      if KeyOf(a[0]) in known {
        BatchIsTakenInOrder(known, a[1..], b);
        assert known + Keys(a[1..]) == known + Keys(a);
      } else {
        BatchIsTakenInOrder(known + {KeyOf(a[0])}, a[1..], b);
        assert known + {KeyOf(a[0])} + Keys(a[1..]) == known + Keys(a);
      }
    }
  }

  lemma KeysOfCons(a: seq<Event>)
    requires a != []
    ensures Keys(a) == {KeyOf(a[0])} + Keys(a[1..])
  {
    assert a == [a[0]] + a[1..];
  }

  // ---- instants that come back without their time zone ---------------------------------------

  /** The event as a database without time zones hands it back. */
  function Unzoned(e: Event): Event {
    if e.occurredAt.Some? && e.occurredAt.value.Aware? then
      e.(occurredAt := Some(Naive(e.occurredAt.value.instant)))
    else e
  }

  function AllUnzoned(events: seq<Event>): seq<Event> {
    seq(|events|, i requires 0 <= i < |events| => Unzoned(events[i]))
  }

  lemma UnzonedIsTheSame(e: Event, f: Field, exclude: set<string>)
    ensures KeyOf(Unzoned(e)) == KeyOf(e) && Time(Unzoned(e)) == Time(e)
    ensures Get(Unzoned(e), f) == Get(e, f) && Unzoned(e).vessel == e.vessel
    ensures Candidate(Unzoned(e), f, exclude) <==> Candidate(e, f, exclude)
  {
  }

  lemma {:induction false} LatestUnzoned(events: seq<Event>, f: Field, exclude: set<string>)
    ensures var a, b := Latest(events, f, exclude), Latest(AllUnzoned(events), f, exclude);
            (a.None? <==> b.None?) && (a.Some? ==> b.value == Unzoned(a.value))
  {
    if events != [] {
      var n := |events| - 1;
      assert AllUnzoned(events)[..n] == AllUnzoned(events[..n]);
      LatestUnzoned(events[..n], f, exclude);
      UnzonedIsTheSame(events[n], f, exclude);
      var before := Latest(events[..n], f, exclude);
      if before.Some? {
        UnzonedIsTheSame(before.value, f, exclude);
      }
    }
  }

  lemma KeysUnzoned(events: seq<Event>)
    ensures Keys(AllUnzoned(events)) == Keys(events) && VesselNames(AllUnzoned(events)) == VesselNames(events)
  {
    var unzoned := AllUnzoned(events);
    forall i | 0 <= i < |events|
      ensures unzoned[i] in unzoned && events[i] in events
      ensures KeyOf(unzoned[i]) == KeyOf(events[i]) && unzoned[i].vessel == events[i].vessel
    {
      UnzonedIsTheSame(events[i], Vessel, {});
    }
    forall e | e in events
      ensures Unzoned(e) in unzoned
    {
      var i :| 0 <= i < |events| && events[i] == e;
      assert unzoned[i] == Unzoned(e);
    }
    forall k | k in Keys(events)
      ensures k in Keys(unzoned)
    {
      var e :| e in events && KeyOf(e) == k;
      UnzonedIsTheSame(e, Vessel, {});
      assert Unzoned(e) in unzoned && KeyOf(Unzoned(e)) == k;
    }
    forall name | name in VesselNames(events)
      ensures name in VesselNames(unzoned)
    {
      var e :| e in events && IsMeaningful(e.vessel) && Canon(e.vessel.value) == name;
      assert Unzoned(e) in unzoned && Unzoned(e).vessel == e.vessel;
    }
  }

  /** Stored instants may come back without their zone: the same incoming events are known, and the
      summary comes out the same. */
  lemma LosingTheZoneChangesNothing(r: Record, res: Result)
    ensures var plain, unzoned := Merge(r, res), Merge(r.(events := AllUnzoned(r.events)), res);
            && Fresh(Keys(AllUnzoned(r.events)), res.events) == Fresh(Keys(r.events), res.events)
            && AllUnzoned(unzoned.events) == AllUnzoned(plain.events)
            && forall f :: Summary(unzoned, f) == Summary(plain, f)
  {
    KeysUnzoned(r.events);
    var added := Fresh(Keys(r.events), res.events);
    var plain, unzoned := r.events + added, AllUnzoned(r.events) + added;
    assert AllUnzoned(unzoned) == AllUnzoned(plain);
    KeysUnzoned(plain);
    KeysUnzoned(unzoned);
    SameValueUnzoned(plain, unzoned, Location, VesselNames(plain));
    SameValueUnzoned(plain, unzoned, Vessel, {});
    SameValueUnzoned(plain, unzoned, Voyage, {});
  }

  lemma SameValueUnzoned(a: seq<Event>, b: seq<Event>, f: Field, exclude: set<string>)
    requires AllUnzoned(a) == AllUnzoned(b)
    ensures MostRecentActualValue(a, f, exclude) == MostRecentActualValue(b, f, exclude)
  {
    LatestUnzoned(a, f, exclude);
    LatestUnzoned(b, f, exclude);
  }

  // ---- announcements ----------------------------------------------------------------------------

  /** The word occurs in the text, whatever the text's letter case. */
  ghost predicate Speaks(text: Option<string>, word: string) {
    text.Some? && exists i: nat :: StandsAt(Lower(text.value), word, i)
  }

  ghost predicate AnySpeaks(parts: seq<Option<string>>, word: string) {
    exists k | 0 <= k < |parts| :: Speaks(parts[k], word)
  }

  predicate OneWord(word: string) {
    word != "" && ' ' !in word
  }

  /** A word without blanks stands on one side of a blank. */
  lemma WordIsOnOneSide(a: string, b: string, word: string, i: nat)
    requires OneWord(word) && StandsAt(a + " " + b, word, i)
    ensures StandsAt(a, word, i) || (i > |a| && StandsAt(b, word, i - |a| - 1))
  {
    var whole := a + " " + b;
    assert whole[|a|] == ' ';
    forall j | i <= j < i + |word|
      ensures whole[j] != ' '
    {
      assert whole[j] == whole[i..i + |word|][j - i] == word[j - i];
      assert word[j - i] in word;
    }
    if i + |word| <= |a| {
      assert a[i..i + |word|] == whole[i..i + |word|];
    } else {
      var j := i - |a| - 1;
      assert b[j..j + |word|] == whole[i..i + |word|];
    }
  }

  lemma StandsInJoin(a: string, b: string, word: string, i: nat)
    ensures StandsAt(a, word, i) ==> StandsAt(a + " " + b, word, i)
    ensures StandsAt(b, word, i) ==> StandsAt(a + " " + b, word, |a| + 1 + i)
  {
    var whole, j := a + " " + b, |a| + 1 + i;
    if StandsAt(a, word, i) {
      assert whole[i..i + |word|] == a[i..i + |word|];
    }
    if StandsAt(b, word, i) {
      assert whole[j..j + |word|] == b[i..i + |word|];
    }
  }

  lemma LowerOfJoin(a: string, b: string)
    ensures Lower(a + " " + b) == Lower(a) + " " + Lower(b)
  {
    LowerJoins(a + " ", b);
    LowerJoins(a, " ");
    assert Lower(" ") == " ";
  }

  /** It is found in a join exactly when it is found in a part. */
  lemma JoinSpeaksIff(a: string, b: string, word: string)
    requires OneWord(word)
    ensures Speaks(Some(a + " " + b), word) <==> Speaks(Some(a), word) || Speaks(Some(b), word)
  {
    var la, lb := Lower(a), Lower(b);
    LowerOfJoin(a, b);
    if i: nat :| StandsAt(la + " " + lb, word, i) {
      WordIsOnOneSide(la, lb, word, i);
    }
    if i: nat :| StandsAt(la, word, i) {
      StandsInJoin(la, lb, word, i);
    }
    if i: nat :| StandsAt(lb, word, i) {
      StandsInJoin(la, lb, word, i);
    }
  }

  lemma NothingSpeaksNothing(word: string)
    requires OneWord(word)
    ensures !Speaks(Some(""), word)
  {
    assert forall i: nat :: !StandsAt(Lower(""), word, i);
  }

  lemma AnySpeaksSplit(parts: seq<Option<string>>, word: string)
    requires parts != []
    ensures AnySpeaks(parts, word) <==> Speaks(parts[0], word) || AnySpeaks(parts[1..], word)
  {
    if k :| 0 <= k < |parts| && Speaks(parts[k], word) {
      if k > 0 {
        assert parts[1..][k - 1] == parts[k];
      }
    }
    if k :| 0 <= k < |parts| - 1 && Speaks(parts[1..][k], word) {
      assert parts[k + 1] == parts[1..][k];
    }
  }

  lemma {:induction false} JoinedPartsSpeakIff(parts: seq<Option<string>>, word: string)
    requires OneWord(word)
    ensures Speaks(Some(JoinTruthy(parts)), word) <==> AnySpeaks(parts, word)
  {
    NothingSpeaksNothing(word);
    if parts != [] {
      JoinedPartsSpeakIff(parts[1..], word);
      AnySpeaksSplit(parts, word);
      if Truthy(parts[0]) {
        JoinSpeaksIff(parts[0].value, JoinTruthy(parts[1..]), word);
      }
    }
  }

  /** The texts an announcement listens to: the new status, the old one, and the codes just added. */
  function Texts(r: Record, res: Result): seq<Option<string>> {
    var codes := Codes(Fresh(Keys(r.events), res.events));
    [res.status, r.status] + seq(|codes|, i requires 0 <= i < |codes| => Some(codes[i]))
  }

  lemma AnnouncedIff(r: Record, res: Result, word: string)
    requires OneWord(word)
    ensures Contains(Lower(JoinTruthy(Texts(r, res))), word) <==> AnySpeaks(Texts(r, res), word)
  {
    ContainsIff(Lower(JoinTruthy(Texts(r, res))), word);
    JoinedPartsSpeakIff(Texts(r, res), word);
  }

  /** Arrival, discharge and delay are announced exactly when one of those texts speaks of them, in
      whatever letter case. */
  lemma MilestonesAreHeard(r: Record, res: Result)
    ensures Arrived in Announced(r, res) <==> AnySpeaks(Texts(r, res), "arriv")
    ensures Discharged in Announced(r, res) <==> AnySpeaks(Texts(r, res), "discharg")
    ensures Delayed in Announced(r, res) <==> AnySpeaks(Texts(r, res), "delay")
  {
    AnnouncedIff(r, res, "arriv");
    AnnouncedIff(r, res, "discharg");
    AnnouncedIff(r, res, "delay");
    AnnouncedByText(r.status, res.status, Codes(Fresh(Keys(r.events), res.events)));
  }

  lemma AnnouncedByText(previous: Option<string>, status: Option<string>, newCodes: seq<string>)
    ensures var codes := seq(|newCodes|, i requires 0 <= i < |newCodes| => Some(newCodes[i]));
            var text := Lower(JoinTruthy([status, previous] + codes));
            var kinds := InferWebhookEvents(previous, status, newCodes);
            && (Arrived in kinds <==> Contains(text, "arriv"))
            && (Discharged in kinds <==> Contains(text, "discharg"))
            && (Delayed in kinds <==> Contains(text, "delay"))
  {
  }
}
