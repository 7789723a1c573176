/** The merge of one provider result into a tracked container
    (app/repositories/containers.py) and the webhook events inferred from it. */
module EventMerge {
  import opened Text

  /** A timestamp as stored: databases may hand an instant back without its time zone. */
  datatype Stamp = Naive(wall: nat) | Aware(instant: nat)

  datatype Event = Event(
    code: string,
    location: Option<string>,
    vessel: Option<string>,
    voyage: Option<string>,
    occurredAt: Option<Stamp>,
    actual: bool)

  type Key = (string, nat)

  /** What a provider reports for one container. */
  datatype Result = Result(
    status: Option<string>,
    carrier: Option<string>,
    location: Option<string>,
    vessel: Option<string>,
    voyage: Option<string>,
    events: seq<Event>)

  /** The part of a container row that a provider result can change. */
  datatype Record = Record(
    status: Option<string>,
    carrier: Option<string>,
    location: Option<string>,
    vessel: Option<string>,
    voyage: Option<string>,
    events: seq<Event>)

  datatype Field = Location | Vessel | Voyage

  const EPOCH := 0
  const UNKNOWN: set<string> := {"", "unknown", "n/a", "none"}

  function Canon(s: string): string {
    Lower(Strip(s))
  }

  predicate IsMeaningful(v: Option<string>) {
    Truthy(v) && Canon(v.value) !in UNKNOWN
  }

  function Normalize(at: Option<Stamp>): nat {
    match at
    case None => EPOCH
    case Some(Naive(wall)) => wall
    case Some(Aware(instant)) => instant
  }

  function Time(e: Event): nat {
    Normalize(e.occurredAt)
  }

  function KeyOf(e: Event): Key {
    (e.code, Time(e))
  }

  function Get(e: Event, f: Field): Option<string> {
    match f
    case Location => e.location
    case Vessel => e.vessel
    case Voyage => e.voyage
  }

  predicate Candidate(e: Event, f: Field, exclude: set<string>) {
    e.actual && IsMeaningful(Get(e, f)) && Canon(Get(e, f).value) !in exclude
  }

  /** The first of the qualifying events with the greatest time. */
  function Latest(events: seq<Event>, f: Field, exclude: set<string>): (r: Option<Event>)
    ensures r.Some? ==> r.value in events && Candidate(r.value, f, exclude)
    ensures r.Some? ==> forall e | e in events && Candidate(e, f, exclude) :: Time(e) <= Time(r.value)
    ensures r.None? ==> forall e | e in events :: !Candidate(e, f, exclude)
  {
    if events == [] then None
    else
      var n := |events| - 1;
      assert events == events[..n] + [events[n]];
      var before := Latest(events[..n], f, exclude);
      if Candidate(events[n], f, exclude) && (before.None? || Time(before.value) < Time(events[n]))
      then Some(events[n]) else before
  }

  function MostRecentActualValue(events: seq<Event>, f: Field, exclude: set<string>): Option<string> {
    var latest := Latest(events, f, exclude);
    if latest.Some? then Get(latest.value, f) else None
  }

  function VesselNames(events: seq<Event>): set<string> {
    set e | e in events && IsMeaningful(e.vessel) :: Canon(e.vessel.value)
  }

  /** The names a field's value may not be taken from. */
  function Excluded(events: seq<Event>, f: Field): set<string> {
    if f.Location? then VesselNames(events) else {}
  }

  function Keys(events: seq<Event>): set<Key> {
    set e | e in events :: KeyOf(e)
  }

  /** The incoming events whose key is neither known nor already seen in this batch. */
  function Fresh(known: set<Key>, incoming: seq<Event>): seq<Event>
    decreases incoming
  {
    if incoming == [] then []
    else if KeyOf(incoming[0]) in known then Fresh(known, incoming[1..])
    else [incoming[0]] + Fresh(known + {KeyOf(incoming[0])}, incoming[1..])
  }

  function Merge(r: Record, res: Result): Record {
    var events := r.events + Fresh(Keys(r.events), res.events);
    Record(
      Or(res.status, r.status),
      Or(res.carrier, r.carrier),
      Or(MostRecentActualValue(events, Location, VesselNames(events)), Or(res.location, r.location)),
      Or(MostRecentActualValue(events, Vessel, {}), Or(res.vessel, r.vessel)),
      Or(MostRecentActualValue(events, Voyage, {}), Or(res.voyage, r.voyage)),
      events)
  }

  function Summary(r: Record, f: Field): Option<string> {
    match f
    case Location => r.location
    case Vessel => r.vessel
    case Voyage => r.voyage
  }

  function Reported(res: Result, f: Field): Option<string> {
    match f
    case Location => res.location
    case Vessel => res.vessel
    case Voyage => res.voyage
  }

  /** The event a summary field is taken from. */
  function Chosen(events: seq<Event>, f: Field): (r: Option<Event>) {
    Latest(events, f, Excluded(events, f))
  }

  // ---- webhook events inferred from a merge (app/services/container_service.py) --------

  datatype WebhookKind = Updated | Arrived | Discharged | Delayed

  function Codes(events: seq<Event>): seq<string> {
    seq(|events|, i requires 0 <= i < |events| => events[i].code)
  }

  /** The non-empty parts, separated by single spaces. */
  function JoinTruthy(parts: seq<Option<string>>): string {
    if parts == [] then ""
    else
      var rest := JoinTruthy(parts[1..]);
      if !Truthy(parts[0]) then rest
      else if rest == "" then parts[0].value
      else parts[0].value + " " + rest
  }

  function InferWebhookEvents(previous: Option<string>, status: Option<string>,
                              newCodes: seq<string>): seq<WebhookKind>
  {
    var codes := seq(|newCodes|, i requires 0 <= i < |newCodes| => Some(newCodes[i]));
    var haystack := Lower(JoinTruthy([status, previous] + codes));
    (if (Truthy(status) && status != previous) || newCodes != [] then [Updated] else [])
    + (if Contains(haystack, "arriv") then [Arrived] else [])
    + (if Contains(haystack, "discharg") then [Discharged] else [])
    + (if Contains(haystack, "delay") then [Delayed] else [])
  }

  /** The webhook events one applied result sets off. */
  function Announced(r: Record, res: Result): seq<WebhookKind> {
    InferWebhookEvents(r.status, res.status, Codes(Fresh(Keys(r.events), res.events)))
  }

  class TrackedContainer {
    var status: Option<string>
    var carrier: Option<string>
    var location: Option<string>
    var vessel: Option<string>
    var voyage: Option<string>
    var events: seq<Event>

    function View(): Record
      reads this
    {
      Record(status, carrier, location, vessel, voyage, events)
    }

    /** The loop over the incoming events: each new key once, first occurrence first. */
    method Unrecorded(incoming: seq<Event>) returns (added: seq<Event>)
      ensures added == Fresh(Keys(events), incoming)
    {
      var existingKeys := Keys(events);
      added := [];
      for i := 0 to |incoming|
        invariant added + Fresh(existingKeys, incoming[i..]) == Fresh(Keys(events), incoming)
      {
        var key := KeyOf(incoming[i]);
        assert incoming[i..][1..] == incoming[i + 1..];
        if key in existingKeys {
          continue;
        }
        ghost var rest := Fresh(existingKeys + {key}, incoming[i + 1..]);
        assert added + ([incoming[i]] + rest) == (added + [incoming[i]]) + rest;
        existingKeys := existingKeys + {key};
        added := added + [incoming[i]];
      }
    }

    method ApplyProviderResult(res: Result) returns (added: seq<Event>)
      modifies this
      ensures View() == Merge(old(View()), res)
      ensures events == old(events) + added
    {
      status := Or(res.status, status);
      carrier := Or(res.carrier, carrier);

      added := Unrecorded(res.events);
      var all := events + added;
      var derivedLocation := MostRecentActualValue(all, Location, VesselNames(all));
      var derivedVessel := MostRecentActualValue(all, Vessel, {});
      var derivedVoyage := MostRecentActualValue(all, Voyage, {});

      location := Or(derivedLocation, Or(res.location, location));
      vessel := Or(derivedVessel, Or(res.vessel, vessel));
      voyage := Or(derivedVoyage, Or(res.voyage, voyage));
      events := all;
    }
  }
}
