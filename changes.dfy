/** Changes recorded by aggregates, the envelopes the store keeps, and the
    change manipulator's write direction (envelope back to change), for a change
    writer that keeps event ids and versions. */
module Changes {
  import opened Wrappers

  type ContractName = string
  type AggregateId = string
  type EventId = string
  type CommitId = string
  /** Event and metadata payloads are opaque to the unit of work. */
  type Event = string
  type Metadata = string
  /** Occurrence time of a change; opaque to the unit of work. */
  type Timestamp = int

  /** A logical type: its contract name (the registry key) and its implementing class. */
  datatype Contract = Contract(name: ContractName, className: string)

  /** A pending change as the change reader sees it: the event, optional metadata,
      its time, and an optional event id and version supplied by the change itself. */
  datatype Change = Change(
    event: Event,
    metadata: Option<Metadata>,
    when: Timestamp,
    eventId: Option<EventId>,
    version: Option<int>)

  /** The unit of storage, with the fields of the store's EventEnvelope in its order. */
  datatype Envelope = Envelope(
    eventType: ContractName,
    eventId: EventId,
    event: Event,
    version: int,
    when: Timestamp,
    metadataType: ContractName,
    metadata: Option<Metadata>)

  /** The event and metadata contract resolvers (resolveFromObject). */
  datatype Resolvers = Resolvers(
    eventContract: Event -> ContractName,
    metadataContract: Option<Metadata> -> ContractName)

  /** An envelope whose type tags are the ones the resolvers give its payloads. */
  predicate Resolved(e: Envelope, res: Resolvers) {
    e.eventType == res.eventContract(e.event) && e.metadataType == res.metadataContract(e.metadata)
  }

  /** writeChange, for a change writer that keeps the stored event id and version with
      the change: a change reader finds an event id and a version on it (canReadEventId,
      canReadEventVersion) and reads back every stored field. */
  function WriteChange(eventId: EventId, event: Event, when: Timestamp, metadata: Option<Metadata>, version: int): (c: Change)
    ensures c.eventId == Some(eventId) && c.version == Some(version)
    ensures c.event == event && c.metadata == metadata && c.when == when
  {
    Change(event, metadata, when, Some(eventId), Some(version))
  }

  /** The changes replayed when loading a stream: each envelope through writeChange, in stream order. */
  function ToChanges(envelopes: seq<Envelope>): (changes: seq<Change>)
    ensures |changes| == |envelopes|
    ensures forall k :: 0 <= k < |envelopes| ==>
      changes[k].event == envelopes[k].event && changes[k].metadata == envelopes[k].metadata &&
      changes[k].when == envelopes[k].when && changes[k].eventId == Some(envelopes[k].eventId) &&
      changes[k].version == Some(envelopes[k].version)
  {
    seq(|envelopes|, k requires 0 <= k < |envelopes| =>
      var e := envelopes[k];
      WriteChange(e.eventId, e.event, e.when, e.metadata, e.version))
  }
}
