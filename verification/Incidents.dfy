/** Grouping events into incidents: a counter and up to three sample slots for each fingerprint. */
module Incidents {
  import opened Common

  datatype EventRecord = EventRecord(
    eventId: string, projectId: string, runId: string, sourceId: string, sequence: nat, eventType: string, severity: string,
    occurredAt: int, line: string, evidenceRef: string)

  /** A project and a fingerprint identify an incident. */
  datatype Key = Key(projectId: string, fingerprint: string)

  datatype Incident = Incident(
    eventType: string, sourceId: string, firstSeen: int, lastSeen: int, occurrenceCount: nat,
    firstEvent: EventRecord, lastEvent: EventRecord)

  /** The two tables; samples are keyed by incident and slot. */
  datatype Tables = Tables(incidents: map<Key, Incident>, samples: map<(Key, nat), EventRecord>)

  const EMPTY := Tables(map[], map[])

  datatype Candidate = Candidate(fingerprint: string, event: EventRecord)

  function KeyOf(c: Candidate): Key { Key(c.event.projectId, c.fingerprint) }

  /** `_record_incident_on`. */
  function Record(t: Tables, c: Candidate): Tables {
    var key, event := KeyOf(c), c.event;
    if key !in t.incidents then
      Tables(t.incidents[key := Incident(event.eventType, event.sourceId, event.occurredAt, event.occurredAt, 1, event, event)],
             t.samples[(key, 0) := event])
    else
      var row := t.incidents[key];
      var count := row.occurrenceCount + 1;
      Tables(t.incidents[key := row.(lastSeen := event.occurredAt, occurrenceCount := count, lastEvent := event)],
             t.samples[(key, if count == 2 then 1 else 2) := event])
  }

  function RecordAll(t: Tables, history: seq<Candidate>): Tables {
    if history == [] then t else Record(RecordAll(t, history[..|history| - 1]), history[|history| - 1])
  }

  lemma {:induction false} RecordAllConcat(t: Tables, a: seq<Candidate>, b: seq<Candidate>)
    ensures RecordAll(t, a + b) == RecordAll(RecordAll(t, a), b)
  {
    if b == [] {
      assert a + b == a;
    } else {
      hide Record;
      RecordAllConcat(t, a, b[..|b| - 1]);
      assert (a + b)[..|a + b| - 1] == a + b[..|b| - 1];
    }
  }

  /** The samples of an incident in slot order, as they are read back. */
  function SamplesIn(t: Tables, key: Key): seq<EventRecord> {
    Slot(t, key, 0) + Slot(t, key, 1) + Slot(t, key, 2)
  }

  function Slot(t: Tables, key: Key, slot: nat): seq<EventRecord> {
    if (key, slot) in t.samples then [t.samples[(key, slot)]] else []
  }

  /** What `get_incident_record` returns of an incident. */
  datatype Stored = Stored(incident: Incident, samples: seq<EventRecord>)

  function Get(t: Tables, key: Key): Option<Stored> {
    if key in t.incidents then Some(Stored(t.incidents[key], SamplesIn(t, key))) else None
  }

  // ---- the tables in place ----

  class IncidentStore {
    var incidents: map<Key, Incident>
    var samples: map<(Key, nat), EventRecord>

    constructor ()
      ensures Contents() == EMPTY
    {
      incidents, samples := map[], map[];
    }

    function Contents(): Tables
      reads this
    {
      Tables(incidents, samples)
    }

    /** Inserts the incident of a new fingerprint, else updates it and the second or the latest sample. */
    method RecordIncident(fingerprint: string, event: EventRecord)
      modifies this
      ensures Contents() == Record(old(Contents()), Candidate(fingerprint, event))
    {
      var key := Key(event.projectId, fingerprint);
      if key !in incidents {
        incidents := incidents[key := Incident(event.eventType, event.sourceId, event.occurredAt, event.occurredAt, 1, event, event)];
        samples := samples[(key, 0) := event];
        return;
      }
      var row := incidents[key];
      var occurrenceCount := row.occurrenceCount + 1;
      incidents := incidents[key := row.(lastSeen := event.occurredAt, occurrenceCount := occurrenceCount, lastEvent := event)];
      var slot := if occurrenceCount == 2 then 1 else 2;
      samples := samples[(key, slot) := event];
    }
  }

  // ---- what an incident says of its history ----

  /** The events of one incident, in the order they were recorded. */
  function EventsOf(history: seq<Candidate>, key: Key): seq<EventRecord> {
    if history == [] then []
    else
      var last := history[|history| - 1];
      EventsOf(history[..|history| - 1], key)
      + (if last.event.projectId == key.projectId && last.fingerprint == key.fingerprint then [last.event] else [])
  }

  /** The first, the second and the latest, as far as there are that many. */
  function Sampled(events: seq<EventRecord>): seq<EventRecord> {
    if |events| <= 2 then events else [events[0], events[1], events[|events| - 1]]
  }

  predicate Summarizes(row: Incident, events: seq<EventRecord>) {
    && events != []
    && row.occurrenceCount == |events|
    && row.firstEvent == events[0] && row.lastEvent == events[|events| - 1]
    && row.firstSeen == events[0].occurredAt && row.lastSeen == events[|events| - 1].occurredAt
    && row.eventType == events[0].eventType && row.sourceId == events[0].sourceId
  }

  /** The slots in use are the ones that belong to the events. */
  predicate SlotsHold(t: Tables, key: Key, events: seq<EventRecord>) {
    && ((key, 0) in t.samples <==> |events| > 0) && (|events| > 0 ==> t.samples[(key, 0)] == events[0])
    && ((key, 1) in t.samples <==> |events| > 1) && (|events| > 1 ==> t.samples[(key, 1)] == events[1])
    && ((key, 2) in t.samples <==> |events| > 2) && (|events| > 2 ==> t.samples[(key, 2)] == events[|events| - 1])
  }

  lemma RecordStep(t: Tables, c: Candidate, key: Key, events: seq<EventRecord>)
    requires (key in t.incidents <==> events != []) && (events != [] ==> Summarizes(t.incidents[key], events))
    requires SlotsHold(t, key, events)
    ensures var after := if KeyOf(c) == key then events + [c.event] else events;
            var t' := Record(t, c);
            && (key in t'.incidents <==> after != []) && (after != [] ==> Summarizes(t'.incidents[key], after))
            && SlotsHold(t', key, after)
  {
  }

  lemma {:induction false} HistoryHolds(history: seq<Candidate>, key: Key)
    ensures var t := RecordAll(EMPTY, history);
            var events := EventsOf(history, key);
            && (key in t.incidents <==> events != []) && (events != [] ==> Summarizes(t.incidents[key], events))
            && SlotsHold(t, key, events)
  {
    if history != [] {
      var front, last := history[..|history| - 1], history[|history| - 1];
      HistoryHolds(front, key);
      hide Record, Summarizes, SlotsHold;
      RecordStep(RecordAll(EMPTY, front), last, key, EventsOf(front, key));
    }
  }

  lemma SlotsAreSamples(t: Tables, key: Key, events: seq<EventRecord>)
    requires SlotsHold(t, key, events)
    ensures SamplesIn(t, key) == Sampled(events)
  {
    if |events| > 2 {
      assert Sampled(events) == [events[0]] + [events[1]] + [events[|events| - 1]];
    }
  }

  /**
   After any history, an incident exists exactly for the fingerprints that were recorded; it counts
   their events, knows when the first and the last were seen, and its samples are the first, the
   second and the latest.
   */
  lemma IncidentTellsHistory(history: seq<Candidate>, key: Key)
    ensures var events := EventsOf(history, key);
            match Get(RecordAll(EMPTY, history), key)
            case None => events == []
            case Some(stored) => Summarizes(stored.incident, events) && stored.samples == Sampled(events)
  {
    HistoryHolds(history, key);
    hide RecordAll, EventsOf, Summarizes, SlotsHold, SamplesIn, Sampled;
    SlotsAreSamples(RecordAll(EMPTY, history), key, EventsOf(history, key));
  }

  // ---- counts add up ----

  ghost function Total(incidents: map<Key, Incident>): nat {
    if incidents == map[] then 0
    else
      var key :| key in incidents;
      incidents[key].occurrenceCount + Total(incidents - {key})
  }

  lemma {:induction false} TotalWithout(incidents: map<Key, Incident>, key: Key)
    requires key in incidents
    ensures Total(incidents) == incidents[key].occurrenceCount + Total(incidents - {key})
    decreases |incidents|
  {
    var k :| k in incidents && Total(incidents) == incidents[k].occurrenceCount + Total(incidents - {k});
    if k != key {
      TotalWithout(incidents - {k}, key);
      TotalWithout(incidents - {key}, k);
      assert incidents - {k} - {key} == incidents - {key} - {k};
    }
  }

  lemma RecordAddsOne(t: Tables, c: Candidate)
    ensures Total(Record(t, c).incidents) == Total(t.incidents) + 1
  {
    var key := KeyOf(c);
    var after := Record(t, c).incidents;
    TotalWithout(after, key);
    assert after - {key} == t.incidents - {key};
    if key in t.incidents {
      TotalWithout(t.incidents, key);
    } else {
      assert t.incidents - {key} == t.incidents;
    }
  }

  /** Nothing recorded is lost or counted twice. */
  lemma {:induction false} CountsAddUp(history: seq<Candidate>)
    ensures Total(RecordAll(EMPTY, history).incidents) == |history|
  {
    if history != [] {
      var front := history[..|history| - 1];
      CountsAddUp(front);
      RecordAddsOne(RecordAll(EMPTY, front), history[|history| - 1]);
    }
  }
}
