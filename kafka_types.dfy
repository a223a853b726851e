/**
  The values the Kafka sink works with (kafka.rs): encoded rows, the send-state
  machine, the broker's results and errors, the sink's configuration and the
  admissibility filter shared by the encoder and the publisher.
 */
module KafkaTypes {
  import opened Wrappers
  import opened Frontiers

  newtype byte = x: int | 0 <= x < 256

  /** An opaque byte payload (`Vec<u8>`). */
  type Bytes = seq<byte>

  /** Schema registry identifier (`i32`). */
  type SchemaId = int

  /** An encoded update as it leaves the encoder and enters the publisher:
      `((Option<Vec<u8>>, Option<Vec<u8>>), Timestamp, Diff)`. */
  datatype Record = Record(key: Option<Bytes>, value: Option<Bytes>, time: Timestamp, diff: int)

  /** `EncodedRow`: one logical row that must become `count` broker messages. */
  datatype EncodedRow = EncodedRow(key: Option<Bytes>, value: Option<Bytes>, count: nat)

  /** A closed timestamp with its rows, as held in `ready_rows`. */
  datatype Batch = Batch(ts: Timestamp, rows: seq<EncodedRow>)

  /** `SendState` (kafka.rs:203-231).  The `usize`/`i64` counters are unbounded here. */
  datatype SendState =
    | Init
    | BeginTxn
    | Begin
    | Draining(rowIndex: nat, repeatCounter: nat, totalSent: nat)
    | End(totalCount: nat)
    | CommitTxn
    | AbortTxn
    | Shutdown

  /** The part of `RDKafkaErrorCode` the sink distinguishes. */
  datatype ErrorCode = QueueFull | OtherCode

  /** The part of `KafkaError` the sink distinguishes: a transaction error with its two
      classifications, a message-production error with its code, or anything else. */
  datatype KafkaError =
    | Transaction(txnRequiresAbort: bool, isRetriable: bool)
    | MessageProduction(code: ErrorCode)
    | OtherError

  /** The outcome of one call into the broker client. */
  datatype CallResult = Ok | Err(error: KafkaError)

  /** `SinkAsOf`: the as-of frontier and whether it is strict. */
  datatype SinkAsOf = SinkAsOf(frontier: Frontier, strict: bool)

  /** The consistency topic configuration of `KafkaSinkConnector`. */
  datatype Consistency = Consistency(topic: string, schemaId: SchemaId, gateTs: Option<Timestamp>)

  /** `connector.consistency.and_then(|c| c.gate_ts)`: the gate applies only with a consistency topic. */
  function GateTs(consistency: Option<Consistency>): Option<Timestamp> {
    match consistency
    case None => None
    case Some(c) => c.gateTs
  }

  /** `should_emit` (kafka.rs:406-410, 707-711): the time is beyond the as-of frontier. */
  predicate BeyondAsOf(asOf: SinkAsOf, time: Timestamp) {
    if asOf.strict then LessThan(asOf.frontier, time) else LessEqual(asOf.frontier, time)
  }

  /** `previously_published` / `ts_gated` (kafka.rs:412-418, 713-716). */
  predicate Gated(gate: Option<Timestamp>, time: Timestamp) {
    gate.Some? && time <= gate.value
  }

  /** The admissibility filter applied by both operators before anything else. */
  predicate Admissible(asOf: SinkAsOf, gate: Option<Timestamp>, time: Timestamp) {
    BeyondAsOf(asOf, time) && !Gated(gate, time)
  }

  /** What the filter admits, in plain order terms: strictly after the as-of
      timestamp in strict mode, at or after it otherwise, and strictly after the gate. */
  lemma AdmissibleMeans(asOf: SinkAsOf, gate: Option<Timestamp>, time: Timestamp)
    ensures Admissible(asOf, gate, time) <==>
      && asOf.frontier.At?
      && (if asOf.strict then asOf.frontier.t < time else asOf.frontier.t <= time)
      && (gate.None? || gate.value < time)
  {
  }
}
