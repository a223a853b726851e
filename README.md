# The Kafka sink of Materialize's dataflow layer, in Dafny

This project models `src/dataflow/src/sink/kafka.rs`: the two timely operators that take a
differential stream of `(key, value)` updates to a Kafka topic.

- **The Avro encoder** (`encode_logic`) stashes the arriving updates under their
  capability. It drops updates that are not beyond the sink's as-of frontier, and updates at
  or before the gate timestamp. Then it encodes at most `fuel` stashed updates. It always
  takes them from the lowest stashed capability, in arrival order.
- **The publisher** (`sink_logic`) takes encoded records in four steps:
  - it queues them per timestamp as `EncodedRow`s, where a row's count is its multiplicity;
  - it moves the timestamps that both the input frontier and the sources' durability frontier
    have passed from the pending map to a FIFO of ready batches;
  - it runs the transactional `SendState` machine for at most `fuel` iterations, each on the
    batch at the front of that queue;
  - it decides whether the operator must be scheduled again.

  A shared shutdown flag stops it. The flag is raised by a fatal send error, by a failed
  delivery and by dropping the sink token.

Modules:

- `Frontiers`: timestamps and antichains. `Timestamp` is totally ordered, so an antichain is
  `Empty` or `At(t)`.
- `KafkaTypes`: the data the sink works with:
  - `EncodedRow`, `SendState`, the broker's errors and replies;
  - the admissibility filter the two operators share.
- `Sorted`: ascending sequences, set minimum and the set in sorted order.
- `Protocol`:
  - `transition_on_txn_error`;
  - the classification done by `send`;
  - one arm of the `SendState` match as a pure function `Step`;
  - the bookkeeping lemmas for `Draining`.
- `Publisher`:
  - `Turn`, the specification of one `sink_logic` invocation, built from `Ingest`, `Close`
    and `PublishLoop`;
  - the class `KafkaSink`, whose method `SinkLogic` performs the turn in place and is proved
    to agree with `Turn`;
  - the shared flag with the delivery callback and the token drop.
- `PublisherProperties`: what a turn guarantees.
- `PublisherScenarios`: worked turns on concrete inputs.
- `AvroEncode`:
  - `EncodeTurn`, the specification of one `encode_logic` invocation, built from `StashAll`
    and `Drain`;
  - `Flatten`, the stash listed in draining order;
  - the class `AvroEncoder`, whose method `EncodeLogic` performs the turn in place.
- `AvroEncodeScenarios`: worked encoder turns.

What the outside world supplies becomes a parameter:
- the records of the turn;
- the input frontier;
- the sources' durability frontiers;
- the replies of the broker client, as a function from loop iteration to `CallResult`;
- the number of messages in flight;
- the Avro encoders, as a pair of functions.

A panic in the source is an outcome of the model, not a precondition. The publisher can panic
in three ways:
- a negative multiplicity after the filter;
- the commit assertion on the write frontier;
- `rows[row_index]` out of range.

The encoder panics on `key_schema_id.unwrap()`.

The `Shutdown` arm of the publish loop stores `false` into the shutdown flag before it
breaks (kafka.rs:602). The model does the same. `Shutdown` is reached only through
`transition_on_txn_error`, which does not set the flag. So a sink in `Shutdown` goes on
through the re-activation decision in every turn, and asks to be scheduled again while
batches are ready (`PublisherProperties.TurnInShutdown`).

## Model

| member | source | states |
|---|---|---|
| Frontiers.Meet | src/dataflow/src/sink/kafka.rs:443-448 | the meet of two frontiers is a lower bound of both, and every common lower bound is below it |
| Frontiers.MeetLessEqual | src/dataflow/src/sink/kafka.rs:443-453 | the meet is at or before `t` exactly when one of the two frontiers is |
| Frontiers.MeetAllLessEqual | src/dataflow/src/sink/kafka.rs:443-453 | the durability frontier is at or before `t` exactly when some source's durability frontier is |
| Frontiers.MeetAllIsLowerBound | src/dataflow/src/sink/kafka.rs:443-448 | the durability frontier is at or before every source's frontier |
| Frontiers.MeetAllMonotone | src/dataflow/src/sink/kafka.rs:443-448 | advancing every source's frontier advances the durability frontier |
| KafkaTypes.AdmissibleMeans | src/dataflow/src/sink/kafka.rs:406-423 | a time is admitted exactly when the as-of frontier is non-empty and its element is below the time (or at most the time when not strict), and no gate timestamp is at or after the time |
| Sorted.MinOf | src/dataflow/src/sink/kafka.rs:730-734 | the chosen capability is in the stash and no other is lower |
| Sorted.SortedSeq | src/dataflow/src/sink/kafka.rs:450-457 | the sorted closed timestamps are strictly ascending and list exactly the closed set |
| Sorted.ElemsOfSorted | src/dataflow/src/sink/kafka.rs:457 | sorting neither adds nor loses a timestamp |
| Protocol.TransitionOnTxnError | src/dataflow/src/sink/kafka.rs:158-181 | abort-requiring transaction error gives `AbortTxn`; retriable gives the current state; other transaction errors and all non-transaction errors give `Shutdown` |
| Protocol.SendOutcome | src/dataflow/src/sink/kafka.rs:183-200 | a send succeeds exactly on an `Ok` reply, and asks for a retry exactly on `QueueFull` |
| Protocol.StepPreservesFits | src/dataflow/src/sink/kafka.rs:513-554 | on a non-empty batch with counts of at least one, an iteration never indexes a row out of range, and the next `Draining`/`End` state still points inside the batch with `total_sent` equal to the messages before that point |
| Protocol.DrainRow | src/dataflow/src/sink/kafka.rs:534-553 | a row with `count = N` from repetition `c` yields exactly `N - c` sends of its message and then moves to the next row at repetition 0, or to `End` after the last row |
| Protocol.DrainRows | src/dataflow/src/sink/kafka.rs:507-554 | draining from a row on sends the expansion of the remaining rows and ends in `End` with the number of messages sent |
| Protocol.DrainBatch | src/dataflow/src/sink/kafka.rs:507-554 | a batch drained from `(0, 0, 0)` sends each row `count` times in row order and ends in `End(total)` with `total` the sum of the counts |
| Protocol.BeginRestartsDraining | src/dataflow/src/sink/kafka.rs:481-512 | `AbortTxn` then `BeginTxn` lead to `Begin`, and `Begin` always restarts draining at `(0, 0, 0)` unless its marker send fails |
| Protocol.ShutdownIsSticky | src/dataflow/src/sink/kafka.rs:601-604 | `Shutdown` makes no broker call and never leaves the state |
| Protocol.SendFailureOnlyWhenSending | src/dataflow/src/sink/kafka.rs:493-568 | only `Begin`, `Draining` and `End` can return from the turn, only on a failed send of their own message, with `retry` true exactly for a full queue |
| Protocol.NonTransactionalIgnoresReplies | src/dataflow/src/sink/kafka.rs:469-492 | with transactions off the transactional states make no broker call and behave as if the call succeeded, whatever the reply |
| Publisher.Batches | src/dataflow/src/sink/kafka.rs:458-461 | one batch per given timestamp, in the given order, carrying that timestamp's pending rows |
| Publisher.Delivery | src/dataflow/src/sink/kafka.rs:122-135 | a failed delivery raises the shutdown flag; a successful one leaves it as it was |
| Publisher.DropToken | src/dataflow/src/sink/kafka.rs:142-146 | dropping the sink token raises the shutdown flag |
| Publisher.DurabilityFrontier | src/dataflow/src/sink/kafka.rs:443-448 | the loop that starts from the empty antichain and meets every source's frontier computes their meet |
| Publisher.KafkaSink.constructor | src/dataflow/src/sink/kafka.rs:387-389 | the sink starts with nothing pending, nothing ready and state `Init` |
| Publisher.KafkaSink.QueueRecords | src/dataflow/src/sink/kafka.rs:403-440 | the in-place ingest loop ends with the pending map `Ingest` specifies, or stops at the panic it specifies |
| Publisher.KafkaSink.CloseTimestamps | src/dataflow/src/sink/kafka.rs:449-461 | the in-place close leaves exactly the pending map and ready queue that `Close` specifies |
| Publisher.KafkaSink.MoveToReady | src/dataflow/src/sink/kafka.rs:458-461 | moving ascending pending timestamps removes them from pending and pushes their batches to the back of the ready queue in order |
| Publisher.KafkaSink.Publish | src/dataflow/src/sink/kafka.rs:463-609 | the in-place publish loop makes the broker calls, reaches the state and returns as `PublishLoop` specifies, and never touches the pending rows |
| Publisher.KafkaSink.SinkLogic | src/dataflow/src/sink/kafka.rs:392-630 | one in-place invocation panics exactly when `Turn` does, and otherwise ends in `Turn`'s state with its re-activation answer and broker calls |
| PublisherProperties.IngestMeans | src/dataflow/src/sink/kafka.rs:403-440 | ingest panics exactly when an admitted record has a negative diff; otherwise each timestamp's rows grow by exactly its admitted positive-diff records in arrival order with `count = diff`, and only such a record makes a timestamp pending |
| PublisherProperties.IngestKeepsWellFormed | src/dataflow/src/sink/kafka.rs:425-437 | ingest never creates an empty pending entry or a row with count 0 |
| PublisherProperties.ClosedMeans | src/dataflow/src/sink/kafka.rs:443-454 | a timestamp closes exactly when neither the input frontier nor any source's durability frontier is at or before it; with no sources only the input frontier counts |
| PublisherProperties.CloseMeans | src/dataflow/src/sink/kafka.rs:449-461 | close keeps exactly the unclosed timestamps pending and unchanged, keeps the old ready queue as a prefix, and appends one batch per closed timestamp with its rows, in strictly ascending order |
| PublisherProperties.CloseSeparates | src/dataflow/src/sink/kafka.rs:449-461 | no timestamp is both pending and in a batch that close has just made ready |
| PublisherProperties.CloseKeepsWellFormed | src/dataflow/src/sink/kafka.rs:458-461 | close moves only non-empty batches with counts of at least one |
| PublisherProperties.LoopBounds | src/dataflow/src/sink/kafka.rs:463-609 | the loop makes at most one broker call per iteration, only appends to the calls made so far, never touches the pending rows, and a failed send is a call of its own |
| PublisherProperties.LoopCommits | src/dataflow/src/sink/kafka.rs:571-588 | the loop changes the ready queue only by popping its front, and the write frontier only to the last popped batch's timestamp, never backwards |
| PublisherProperties.LoopFlag | src/dataflow/src/sink/kafka.rs:503-604 | entered with the flag clear, a loop that finishes leaves it clear, and a failed send asks for a retry exactly when it did not raise the flag |
| PublisherProperties.LoopReturnedKeepsState | src/dataflow/src/sink/kafka.rs:503-567 | a loop that returns on a failed send keeps the front batch and the sending state whose message was the last call |
| PublisherProperties.InitialConsistent | src/dataflow/src/sink/kafka.rs:387-389 | the initial state satisfies the publisher's invariant |
| PublisherProperties.LoopConsistent | src/dataflow/src/sink/kafka.rs:513-554 | from a consistent state the loop never indexes a row out of range and ends consistent |
| PublisherProperties.CloseKeepsConsistent | src/dataflow/src/sink/kafka.rs:403-461 | ingest and close keep the invariant: batches non-empty, counts positive, the front batch kept |
| PublisherProperties.TurnConsistent | src/dataflow/src/sink/kafka.rs:392-609 | a turn from a consistent state never panics on `rows[row_index]`, and a completed turn leaves the state consistent |
| PublisherProperties.TurnBounds | src/dataflow/src/sink/kafka.rs:463-609 | a turn makes at most `fuel` broker calls and never moves the write frontier backwards |
| PublisherProperties.TurnQueues | src/dataflow/src/sink/kafka.rs:449-609 | after a turn the pending rows are those ingest and close left; the ready queue is close's result with front batches popped; the write frontier is unchanged unless a batch was committed, and then it is the last committed timestamp |
| PublisherProperties.TurnKeepsOrder | src/dataflow/src/sink/kafka.rs:402-461 | if every record of a turn is at or beyond the previous input frontier and the input frontier has only advanced, a completed turn keeps the ready batches strictly ascending, each below every pending timestamp and below the new input frontier, so no timestamp is both ready and pending |
| PublisherProperties.QueuedBeyond | src/dataflow/src/sink/kafka.rs:402-438 | records all at or beyond a frontier add rows only at timestamps at or beyond it |
| PublisherProperties.LoopNeverCommitsBehind | src/dataflow/src/sink/kafka.rs:571-588 | from a state whose write frontier is one timestamp at or below strictly ascending ready batches, the publish loop never trips the commit assertion |
| PublisherProperties.InitialFrontierBelow | src/dataflow/src/sink/kafka.rs:387-389 | the publisher's starting state (no pending rows, no ready batches, `Init`) with a write frontier that is one timestamp at or below the input frontier meets both turn invariants |
| PublisherProperties.IngestAboveFrontier | src/dataflow/src/sink/kafka.rs:402-438 | ingesting records at or beyond the previous input frontier adds pending rows only at timestamps at or beyond the write frontier |
| PublisherProperties.CloseAbove | src/dataflow/src/sink/kafka.rs:440-461 | closing batches keeps every ready and pending timestamp at or beyond the write frontier |
| PublisherProperties.TurnNeverCommitsBehind | src/dataflow/src/sink/kafka.rs:571-588 | under the turn invariants and the frontier guarantee a turn never ends in the commit-assertion crash |
| PublisherProperties.TurnKeepsFrontierBelow | src/dataflow/src/sink/kafka.rs:402-609 | a completed turn leaves the write frontier one timestamp at or below every ready and pending timestamp and at or below the new input frontier |
| PublisherProperties.IngestKeepsOrder | src/dataflow/src/sink/kafka.rs:402-438 | ingesting records at or beyond the previous input frontier keeps every ready batch below every pending timestamp |
| PublisherProperties.CloseKeepsOrder | src/dataflow/src/sink/kafka.rs:449-461 | close keeps the ready batches ascending and below what stays pending, and below an input frontier that has only advanced |
| PublisherProperties.TurnExit | src/dataflow/src/sink/kafka.rs:397-629 | with the flag set the turn does nothing and returns false; after a failed send it returns true exactly when the flag is clear; after the loop the flag is clear and it returns true exactly when batches are ready or messages are in flight |
| PublisherProperties.TurnInShutdown | src/dataflow/src/sink/kafka.rs:601-629 | in `Shutdown` a turn makes no broker call, stays in `Shutdown`, keeps the write frontier, and with batches ready and the flag clear asks to run again |
| PublisherProperties.FatalSendLatches | src/dataflow/src/sink/kafka.rs:183-200 | after a fatal send failure every later turn does nothing and returns false |
| PublisherProperties.LoopFirstOp | src/dataflow/src/sink/kafka.rs:466-468 | a loop on a non-empty queue first makes the call of its state on the front batch |
| PublisherProperties.TurnReturnedKeepsState | src/dataflow/src/sink/kafka.rs:503-567 | a turn that returns on a failed send keeps the front batch and the state whose message failed, and that message is its last call |
| PublisherProperties.TurnFirstOp | src/dataflow/src/sink/kafka.rs:458-468 | closing only appends behind the front batch, so a turn's first call is its state's call on the old front batch |
| PublisherProperties.RetrySendsSameMessage | src/dataflow/src/sink/kafka.rs:530-532 | after a send that failed on a full queue the turn asks to run again with the flag clear, and the next turn's first call sends that same message |
| PublisherScenarios.IngestRecords5 | src/dataflow/src/sink/kafka.rs:403-440 | three admitted records at one timestamp with diffs 1, 2 and 1 queue three rows at that timestamp, in arrival order, with those counts |
| PublisherScenarios.CloseSingle | src/dataflow/src/sink/kafka.rs:449-461 | a single pending timestamp below both frontiers moves to the ready queue |
| PublisherScenarios.RepeatedRowsScenario | src/dataflow/src/sink/kafka.rs:392-630 | with transactions and markers off, rows with counts 1, 2 and 1 make four data messages with the second row sent twice; the turn commits, pops the batch, sets the write frontier to its timestamp and does not ask to run again |
| PublisherScenarios.GatedScenario | src/dataflow/src/sink/kafka.rs:412-423 | a record at the gate timestamp is dropped at ingest: nothing is queued and no broker call is made |
| PublisherScenarios.TransactionalScenario | src/dataflow/src/sink/kafka.rs:466-588 | a transactional batch of one row makes the calls init, begin, BEGIN marker without count, the data message, END marker with count 1, commit |
| PublisherScenarios.QueueFullScenario | src/dataflow/src/sink/kafka.rs:530-532 | a full queue in the middle of a batch ends the turn asking to run again in the same `Draining` state, and the next turn resends that message and completes the batch |
| AvroEncode.FilterMeans | src/dataflow/src/sink/kafka.rs:704-723 | the stashed part of a batch holds only admissible updates of that batch, and every admissible one |
| AvroEncode.StashAllContents | src/dataflow/src/sink/kafka.rs:701-724 | stashing a turn's input appends, under each capability, exactly that capability's admissible updates in arrival order |
| AvroEncode.StashBatchAt | src/dataflow/src/sink/kafka.rs:703-722 | one batch extends only its own capability's entry |
| AvroEncode.StashAllKeys | src/dataflow/src/sink/kafka.rs:701-703 | a capability is stashed exactly when it was before or some batch arrived under it, even with all its updates filtered out |
| AvroEncode.StashAllKeepsAdmissible | src/dataflow/src/sink/kafka.rs:704-723 | stashing keeps every stashed update admissible |
| AvroEncode.EncodeEntriesMeans | src/dataflow/src/sink/kafka.rs:739-747 | encoding a run panics exactly when one of its updates is keyed without a key schema id; otherwise it yields one encoded record per update, in order |
| AvroEncode.FlattenMeans | src/dataflow/src/sink/kafka.rs:729-735 | the draining order lists capabilities in ascending order, holds only stashed updates, and holds every stashed update |
| AvroEncode.FlattenBlocks | src/dataflow/src/sink/kafka.rs:729-735 | the updates of each stashed capability appear in the draining order as one contiguous block, in the order they were stashed |
| AvroEncode.DrainTakesPrefix | src/dataflow/src/sink/kafka.rs:729-755 | the drain loop takes a prefix of the draining order as long as the fuel allows, and leaves the rest in the same order |
| AvroEncode.DrainMeans | src/dataflow/src/sink/kafka.rs:729-755 | the drain emits exactly the first `min(stashed, fuel)` updates in draining order, encoded; it panics exactly when one of them needs the missing key schema; it leaves the remaining updates in order; it leaves a non-empty stash only after spending all its fuel; it adds no capability; a capability left behind with nothing stashed means all the fuel was spent and every emitted update sits below it; and a capability removed once all the fuel is spent is at or below the last emitted update |
| AvroEncode.TurnEmitsPrefix | src/dataflow/src/sink/kafka.rs:699-762 | a turn emits at most `fuel` records, the first ones of the stash in draining order; it returns true only after spending all its fuel, and returns false only with an empty stash and everything emitted; and it returns false exactly when everything stashed was emitted and either fuel was left over or no stashed capability, even an empty one, lies above the last emitted update |
| AvroEncode.TurnEmitsAdmissible | src/dataflow/src/sink/kafka.rs:699-762 | updates filtered out on arrival are never emitted, and the stash keeps holding only admissible updates |
| AvroEncode.TurnEmitsInCapabilityOrder | src/dataflow/src/sink/kafka.rs:729-755 | records at lower capabilities are emitted before records at higher ones |
| AvroEncode.AvroEncoder.constructor | src/dataflow/src/sink/kafka.rs:687 | the operator starts with an empty stash |
| AvroEncode.AvroEncoder.StashInput | src/dataflow/src/sink/kafka.rs:701-723 | the in-place loop over one batch leaves the stash `StashBatch` specifies |
| AvroEncode.AvroEncoder.EncodeRun | src/dataflow/src/sink/kafka.rs:739-747 | the in-place encoding of a run returns what `EncodeEntries` specifies |
| AvroEncode.AvroEncoder.EncodeLogic | src/dataflow/src/sink/kafka.rs:689-763 | one in-place invocation panics exactly when `EncodeTurn` does, and otherwise returns its output and re-activation answer and leaves its stash |
| AvroEncodeScenarios.StashTwoCapabilities | src/dataflow/src/sink/kafka.rs:701-724 | batches under capabilities 2 and then 1 are stashed as two entries, each in arrival order |
| AvroEncodeScenarios.EncodeTwo | src/dataflow/src/sink/kafka.rs:739-747 | two unkeyed updates encode to their values with key `None`, in order |
| AvroEncodeScenarios.LowestCapabilityFirst | src/dataflow/src/sink/kafka.rs:729-760 | with fuel 2, capability 1 is drained before capability 2 although it arrived later, and the turn asks to run again for the rest |
| AvroEncodeScenarios.FilteredBatchLeavesNothing | src/dataflow/src/sink/kafka.rs:703-754 | a batch whose updates are all filtered out creates an empty entry, which the drain removes, so the turn returns false |

## Left out

- Prometheus metrics and logging: counters with no effect on behaviour.
- The rdkafka client and its setup: it is used only through the replies it gives. `in_flight_count` is a parameter.
- Avro encoding: the key and value encoders are given functions. A consistency marker is kept as a structured message with its topic, schema id, timestamp, status and count, not as bytes.
- Timely plumbing: the operator builders, the exchange to a single worker, `build_reschedule`, and the delays of `activate` and `activate_after`. Only the boolean a turn returns is modelled.
- Capabilities are modelled as their timestamps, and retained capabilities are not modelled.
- The cross-thread atomic flag: it is a plain boolean. The delivery callback and the token drop are methods that can be called between turns; concurrency is not modelled.
- The `kafka()` wiring, the `Duration` timeouts and the configuration options: they do not affect a turn.
- `u64` timestamps and the `usize` and `i64` counters of `SendState`: they are unbounded, so overflow is not modelled. The `diff as usize` cast is exact because it happens only after the check that `diff >= 0`.
- Timely's frontier guarantee is not built into `Publisher.Turn`: a turn accepts records at any time and any input frontier. It enters only as the hypotheses of `PublisherProperties.TurnKeepsOrder`: every record is at or beyond the previous input frontier, and the input frontier only advances.
- The write frontier shared with the caller is created outside `src/dataflow/src/sink/kafka.rs` and is not part of this model: `PublisherProperties.InitialFrontierBelow` assumes it starts as one timestamp at or below the input frontier. An empty write frontier would trip the commit assertion at the first commit.
- Across turns, the broker's replies are a fresh function each turn, indexed from 0.
- The encoder's row type is a type parameter, so the rows themselves are not modelled.
- AvroEncode.AvroEncoder.EncodeLogic: on a panic, the stash it leaves is not specified. The records already given to the output session before the panic are not modelled either: a panic carries no partial output.
- AvroEncode.EncodeTurn: same as above; a panic is the outcome `MissingKeySchema` with no output.
