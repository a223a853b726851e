/**
  The transactional publish protocol of the Kafka sink: the error classifier
  `transition_on_txn_error`, the outcome classification of `send`, and one
  iteration of the `SendState` machine on the batch at the front of the ready
  queue (the body of `state = match state { ... }`, kafka.rs:468-605).
 */
module Protocol {
  import opened Wrappers
  import opened Frontiers
  import opened KafkaTypes

  /** The status string of a consistency-topic marker. */
  datatype MarkerStatus = BeginMarker | EndMarker

  /** A message handed to `producer.send`. */
  datatype Message =
    | Data(topic: string, key: Option<Bytes>, value: Option<Bytes>)
      /** `encode_debezium_transaction_unchecked(schema_id, ts, status, count)`, kept structural */
    | Marker(topic: string, schemaId: SchemaId, ts: Timestamp, status: MarkerStatus, count: Option<nat>)

  /** One call into the broker client. */
  datatype BrokerOp =
    | InitTransactions
    | BeginTransaction
    | CommitTransaction
    | AbortTransaction
    | Send(message: Message)

  /** The publisher's configuration (taken from `KafkaSinkConnector`). */
  datatype Config = Config(
    topic: string,
    transactional: bool,
    consistency: Option<Consistency>,
    fuel: nat,
    asOf: SinkAsOf)

  /** `KafkaSink::transition_on_txn_error` (kafka.rs:158-181). */
  function TransitionOnTxnError(current: SendState, e: KafkaError): (next: SendState)
    ensures e.Transaction? && e.txnRequiresAbort ==> next == AbortTxn
    ensures e.Transaction? && !e.txnRequiresAbort && e.isRetriable ==> next == current
    ensures e.Transaction? && !e.txnRequiresAbort && !e.isRetriable ==> next == Shutdown
    ensures !e.Transaction? ==> next == Shutdown
  {
    match e
    case Transaction(requiresAbort, retriable) =>
      if requiresAbort then AbortTxn
      else if retriable then current
      else Shutdown
    case _ => Shutdown
  }

  /** What `KafkaSink::send` returns: `Ok(())`, or `Err(retry)`. */
  datatype SendResult = Sent | Failed(retry: bool)

  /** The classification in `KafkaSink::send` (kafka.rs:183-200).  `Failed(false)` is the
      case in which `send` also stores `true` into the shutdown flag. */
  function SendOutcome(reply: CallResult): (r: SendResult)
    ensures r.Sent? <==> reply.Ok?
    ensures r == Failed(true) <==> reply == Err(MessageProduction(QueueFull))
  {
    match reply
    case Ok => Sent
    case Err(MessageProduction(QueueFull)) => Failed(true)
    case Err(_) => Failed(false)
  }

  /** The result of a transactional call: the broker's reply only when transactions are on. */
  function TxnCall(cfg: Config, reply: CallResult): CallResult {
    if cfg.transactional then reply else Ok
  }

  /** What one iteration of the publish loop does besides talking to the broker. */
  datatype Transition =
      /** `state = <new state>` */
    | Goto(next: SendState)
      /** a successful commit: the write frontier becomes `{ts}`, the front batch is
         popped and the state becomes `BeginTxn` (kafka.rs:579-585) */
    | Committed
      /** a failed send: `return retry` from the whole turn, `state` untouched */
    | SendFailed(retry: bool)
      /** the `Shutdown` arm: store `false` into the flag and `break` */
    | Halt
      /** `assert!(write_frontier.borrow().less_equal(ts))` fails (kafka.rs:580) */
    | CommitAssertFails
      /** `rows[row_index]` out of range (kafka.rs:518) */
    | RowIndexOutOfRange

  /** The broker call (if any) made by the arm for `state` on the front batch. */
  function IssuedOp(cfg: Config, state: SendState, front: Batch): Option<BrokerOp> {
    match state
    case Init => if cfg.transactional then Some(InitTransactions) else None
    case BeginTxn => if cfg.transactional then Some(BeginTransaction) else None
    case Begin =>
      if cfg.consistency.Some? then
        Some(Send(Marker(cfg.consistency.value.topic, cfg.consistency.value.schemaId, front.ts, BeginMarker, None)))
      else None
    case Draining(rowIndex, _, _) =>
      if rowIndex < |front.rows| then Some(Send(DataMessage(cfg, front.rows[rowIndex]))) else None
    case End(total) =>
      if cfg.consistency.Some? then
        Some(Send(Marker(cfg.consistency.value.topic, cfg.consistency.value.schemaId, front.ts, EndMarker, Some(total))))
      else None
    case CommitTxn => if cfg.transactional then Some(CommitTransaction) else None
    case AbortTxn => if cfg.transactional then Some(AbortTransaction) else None
    case Shutdown => None
  }

  /** The data message for one row: payload from `value`, key from `key` (kafka.rs:519-529). */
  function DataMessage(cfg: Config, row: EncodedRow): Message {
    Data(cfg.topic, row.key, row.value)
  }

  /** One arm of `state = match state { ... }` on the front batch, given the reply to the
      broker call the arm makes.  An arm that makes no call ignores `reply`. */
  function Step(cfg: Config, state: SendState, front: Batch, writeFrontier: Frontier, reply: CallResult): Transition {
    match state
    case Init =>
      (match TxnCall(cfg, reply)
       case Ok => Goto(BeginTxn)
       case Err(e) => Goto(TransitionOnTxnError(state, e)))
    case BeginTxn =>
      (match TxnCall(cfg, reply)
       case Ok => Goto(Begin)
       case Err(e) => Goto(TransitionOnTxnError(state, e)))
    case Begin =>
      if cfg.consistency.Some? && SendOutcome(reply).Failed? then SendFailed(SendOutcome(reply).retry)
      else Goto(Draining(0, 0, 0))
    case Draining(rowIndex, repeatCounter, totalSent) =>
      if rowIndex >= |front.rows| then RowIndexOutOfRange
      else if SendOutcome(reply).Failed? then SendFailed(SendOutcome(reply).retry)
      else
        var sent := totalSent + 1;
        var repeat := repeatCounter + 1;
        var (index, counter) :=
          if repeat == front.rows[rowIndex].count then (rowIndex + 1, 0) else (rowIndex, repeat);
        if index == |front.rows| then Goto(End(sent)) else Goto(Draining(index, counter, sent))
    case End(total) =>
      if cfg.consistency.Some? && SendOutcome(reply).Failed? then SendFailed(SendOutcome(reply).retry)
      else Goto(CommitTxn)
    case CommitTxn =>
      (match TxnCall(cfg, reply)
       case Ok => if LessEqual(writeFrontier, front.ts) then Committed else CommitAssertFails
       case Err(e) => Goto(TransitionOnTxnError(state, e)))
    case AbortTxn =>
      (match TxnCall(cfg, reply)
       case Ok => Goto(BeginTxn)
       case Err(e) => Goto(TransitionOnTxnError(state, e)))
    case Shutdown => Halt
  }

  // ---------------------------------------------------------------------------
  // Batches and the Draining bookkeeping

  /** The sum of the rows' counts: the number of data messages a batch yields. */
  function SumCounts(rows: seq<EncodedRow>): nat {
    if rows == [] then 0 else SumCounts(rows[..|rows| - 1]) + rows[|rows| - 1].count
  }

  /** Every batch the publisher holds is non-empty and every count is at least one. */
  predicate WellFormedRows(rows: seq<EncodedRow>) {
    rows != [] && forall i :: 0 <= i < |rows| ==> rows[i].count >= 1
  }

  /** How the state refers to the front batch: `Draining` points at a row in range and at a
      repetition below its count, and has sent exactly the messages before that point;
      `End` carries the batch's total count. */
  predicate Fits(state: SendState, front: Batch) {
    match state
    case Draining(rowIndex, repeatCounter, totalSent) =>
      && rowIndex < |front.rows|
      && repeatCounter < front.rows[rowIndex].count
      && totalSent == SumCounts(front.rows[..rowIndex]) + repeatCounter
    case End(total) => total == SumCounts(front.rows)
    case _ => true
  }

  lemma SumCountsSnoc(rows: seq<EncodedRow>, i: nat)
    requires i < |rows|
    ensures SumCounts(rows[..i + 1]) == SumCounts(rows[..i]) + rows[i].count
  {
    assert rows[..i + 1][..i] == rows[..i];
  }

  /** One iteration never indexes out of range, and keeps the state fitting the front batch. */
  lemma StepPreservesFits(cfg: Config, state: SendState, front: Batch, wf: Frontier, reply: CallResult)
    requires WellFormedRows(front.rows) && Fits(state, front)
    ensures Step(cfg, state, front, wf, reply) != RowIndexOutOfRange
    ensures Step(cfg, state, front, wf, reply).Goto? ==> Fits(Step(cfg, state, front, wf, reply).next, front)
  {
    match state
    case Draining(rowIndex, repeatCounter, totalSent) =>
      SumCountsSnoc(front.rows, rowIndex);
      if rowIndex + 1 == |front.rows| {
        assert front.rows[..rowIndex + 1] == front.rows;
      }
    case _ =>
  }

  /** Where a run of iterations ends, and the broker calls it made on the way. */
  datatype Run = Run(last: SendState, ops: seq<BrokerOp>)

  /** The successive states and broker calls when every reply is `Ok`, for at most `k`
      iterations and only as long as each iteration assigns a new state. */
  function RunOk(cfg: Config, state: SendState, front: Batch, wf: Frontier, k: nat): Run
    decreases k
  {
    if k == 0 then Run(state, [])
    else match Step(cfg, state, front, wf, Ok)
      case Goto(next) =>
        var rest := RunOk(cfg, next, front, wf, k - 1);
        Run(rest.last, OpList(IssuedOp(cfg, state, front)) + rest.ops)
      case _ => Run(state, [])
  }

  function OpList(op: Option<BrokerOp>): seq<BrokerOp> {
    if op.Some? then [op.value] else []
  }

  /** `n` copies of one message. */
  function Repeat(m: BrokerOp, n: nat): (ops: seq<BrokerOp>)
    ensures |ops| == n && forall i :: 0 <= i < n ==> ops[i] == m
  {
    if n == 0 then [] else [m] + Repeat(m, n - 1)
  }

  /** Every row expanded into `count` sends of its data message, in row order. */
  function Expand(cfg: Config, rows: seq<EncodedRow>): seq<BrokerOp> {
    if rows == [] then [] else Repeat(Send(DataMessage(cfg, rows[0])), rows[0].count) + Expand(cfg, rows[1..])
  }

  /** One unfolding of `RunOk`. */
  lemma RunOkUnfold(cfg: Config, state: SendState, front: Batch, wf: Frontier, k: nat)
    requires k > 0
    ensures Step(cfg, state, front, wf, Ok).Goto? ==>
              var rest := RunOk(cfg, Step(cfg, state, front, wf, Ok).next, front, wf, k - 1);
              RunOk(cfg, state, front, wf, k) == Run(rest.last, OpList(IssuedOp(cfg, state, front)) + rest.ops)
    ensures !Step(cfg, state, front, wf, Ok).Goto? ==> RunOk(cfg, state, front, wf, k) == Run(state, [])
  {
  }

  /** `a` iterations and then `b` more end where `a + b` iterations end, having made the
      broker calls of both parts in order. */
  ghost predicate Appends(cfg: Config, state: SendState, front: Batch, wf: Frontier, a: nat, b: nat) {
    var first := RunOk(cfg, state, front, wf, a);
    var second := RunOk(cfg, first.last, front, wf, b);
    RunOk(cfg, state, front, wf, a + b) == Run(second.last, first.ops + second.ops)
  }

  lemma AppendsAfterGoto(cfg: Config, state: SendState, front: Batch, wf: Frontier, a: nat, b: nat)
    requires a > 0 && Step(cfg, state, front, wf, Ok).Goto?
    requires Appends(cfg, Step(cfg, state, front, wf, Ok).next, front, wf, a - 1, b)
    ensures Appends(cfg, state, front, wf, a, b)
  {
    RunOkUnfold(cfg, state, front, wf, a);
    RunOkUnfold(cfg, state, front, wf, a + b);
    var head := OpList(IssuedOp(cfg, state, front));
    var first := RunOk(cfg, Step(cfg, state, front, wf, Ok).next, front, wf, a - 1);
    var second := RunOk(cfg, first.last, front, wf, b);
    assert head + (first.ops + second.ops) == (head + first.ops) + second.ops;
  }

  lemma AppendsWhenStuck(cfg: Config, state: SendState, front: Batch, wf: Frontier, a: nat, b: nat)
    requires a > 0 && !Step(cfg, state, front, wf, Ok).Goto?
    ensures Appends(cfg, state, front, wf, a, b)
  {
    RunOkUnfold(cfg, state, front, wf, a);
    RunOkUnfold(cfg, state, front, wf, a + b);
    if b > 0 {
      RunOkUnfold(cfg, state, front, wf, b);
    }
  }

  /** Running `a` and then `b` iterations is running `a + b`. */
  lemma {:induction false} RunOkAppend(cfg: Config, state: SendState, front: Batch, wf: Frontier, a: nat, b: nat)
    ensures Appends(cfg, state, front, wf, a, b)
    decreases a
  {
    if a == 0 {
      assert RunOk(cfg, state, front, wf, a) == Run(state, []);
    } else if Step(cfg, state, front, wf, Ok).Goto? {
      RunOkAppend(cfg, Step(cfg, state, front, wf, Ok).next, front, wf, a - 1, b);
      AppendsAfterGoto(cfg, state, front, wf, a, b);
    } else {
      AppendsWhenStuck(cfg, state, front, wf, a, b);
    }
  }

  /** Row expansion: from repetition `repeatCounter` of row `rowIndex`, the remaining
      `count - repeatCounter` successful sends are all of that row's message and then the
      machine moves to the next row (repetition 0), or to `End` after the last row. */
  lemma {:induction false} DrainRow(cfg: Config, front: Batch, wf: Frontier, rowIndex: nat, repeatCounter: nat, totalSent: nat)
    requires rowIndex < |front.rows| && repeatCounter < front.rows[rowIndex].count
    ensures var left := front.rows[rowIndex].count - repeatCounter;
            var total := totalSent + left;
            RunOk(cfg, Draining(rowIndex, repeatCounter, totalSent), front, wf, left) ==
              Run(if rowIndex + 1 == |front.rows| then End(total) else Draining(rowIndex + 1, 0, total),
                  Repeat(Send(DataMessage(cfg, front.rows[rowIndex])), left))
    decreases front.rows[rowIndex].count - repeatCounter
  {
    var count := front.rows[rowIndex].count;
    if repeatCounter + 1 < count {
      DrainRow(cfg, front, wf, rowIndex, repeatCounter + 1, totalSent + 1);
    }
  }

  /** The state and messages after draining every row from `rowIndex` on, starting at its
      first repetition with `totalSent` messages sent. */
  ghost predicate DrainsTo(cfg: Config, front: Batch, wf: Frontier, rowIndex: nat, totalSent: nat)
    requires rowIndex <= |front.rows|
  {
    && SumCounts(front.rows[..rowIndex]) <= SumCounts(front.rows)
    && var n := SumCounts(front.rows) - SumCounts(front.rows[..rowIndex]);
       RunOk(cfg, Draining(rowIndex, 0, totalSent), front, wf, n) ==
         Run(End(totalSent + n), Expand(cfg, front.rows[rowIndex..]))
  }

  /** Draining the last row of a batch. */
  lemma DrainLastRow(cfg: Config, front: Batch, wf: Frontier, rowIndex: nat, totalSent: nat)
    requires WellFormedRows(front.rows) && rowIndex + 1 == |front.rows|
    ensures DrainsTo(cfg, front, wf, rowIndex, totalSent)
  {
    var rows := front.rows;
    DrainRow(cfg, front, wf, rowIndex, 0, totalSent);
    SumCountsSnoc(rows, rowIndex);
    ExpandCons(cfg, rows, rowIndex);
    assert rows[..rowIndex + 1] == rows;
  }

  /** Draining one row that is not the last, then the rest. */
  lemma DrainRowThenRest(cfg: Config, front: Batch, wf: Frontier, rowIndex: nat, totalSent: nat)
    requires WellFormedRows(front.rows) && rowIndex + 1 < |front.rows|
    requires DrainsTo(cfg, front, wf, rowIndex + 1, totalSent + front.rows[rowIndex].count)
    ensures DrainsTo(cfg, front, wf, rowIndex, totalSent)
  {
    var rows := front.rows;
    var count := rows[rowIndex].count;
    DrainRow(cfg, front, wf, rowIndex, 0, totalSent);
    SumCountsSnoc(rows, rowIndex);
    ExpandCons(cfg, rows, rowIndex);
    var rest := SumCounts(rows) - SumCounts(rows[..rowIndex + 1]);
    RunOkAppend(cfg, Draining(rowIndex, 0, totalSent), front, wf, count, rest);
    assert Appends(cfg, Draining(rowIndex, 0, totalSent), front, wf, count, rest);
  }

  /** A whole batch drained from row `rowIndex` on: exactly the expansion of the remaining
      rows is sent, and the machine ends in `End` with the number of messages sent. */
  lemma {:induction false} DrainRows(cfg: Config, front: Batch, wf: Frontier, rowIndex: nat, totalSent: nat)
    requires WellFormedRows(front.rows) && rowIndex < |front.rows|
    ensures DrainsTo(cfg, front, wf, rowIndex, totalSent)
    decreases |front.rows| - rowIndex
  {
    if rowIndex + 1 == |front.rows| {
      DrainLastRow(cfg, front, wf, rowIndex, totalSent);
    } else {
      DrainRows(cfg, front, wf, rowIndex + 1, totalSent + front.rows[rowIndex].count);
      DrainRowThenRest(cfg, front, wf, rowIndex, totalSent);
    }
  }

  lemma ExpandCons(cfg: Config, rows: seq<EncodedRow>, i: nat)
    requires i < |rows|
    ensures Expand(cfg, rows[i..]) == Repeat(Send(DataMessage(cfg, rows[i])), rows[i].count) + Expand(cfg, rows[i + 1..])
    ensures i + 1 == |rows| ==> Expand(cfg, rows[i..]) == Repeat(Send(DataMessage(cfg, rows[i])), rows[i].count)
  {
    assert rows[i..][1..] == rows[i + 1..];
    if i + 1 == |rows| {
      assert rows[i + 1..] == [];
    }
  }

  /** Draining a batch from its start sends each row `count` times, in order, and ends in
      `End(total)` with `total` the sum of the batch's counts (kafka.rs:507-554). */
  lemma DrainBatch(cfg: Config, front: Batch, wf: Frontier)
    requires WellFormedRows(front.rows)
    ensures RunOk(cfg, Draining(0, 0, 0), front, wf, SumCounts(front.rows)) ==
              Run(End(SumCounts(front.rows)), Expand(cfg, front.rows))
  {
    DrainRows(cfg, front, wf, 0, 0);
    assert DrainsTo(cfg, front, wf, 0, 0);
    assert front.rows[..0] == [];
    assert front.rows[0..] == front.rows;
  }

  /** `Begin` always restarts draining at row 0, repetition 0, nothing sent -- also when it is
      reached again after `AbortTxn` -> `BeginTxn` -- unless its marker send fails. */
  lemma BeginRestartsDraining(cfg: Config, front: Batch, wf: Frontier, reply: CallResult)
    ensures Step(cfg, AbortTxn, front, wf, Ok) == Goto(BeginTxn)
    ensures Step(cfg, BeginTxn, front, wf, Ok) == Goto(Begin)
    ensures Step(cfg, Begin, front, wf, reply) == Goto(Draining(0, 0, 0)) ||
            (cfg.consistency.Some? && reply.Err? && Step(cfg, Begin, front, wf, reply).SendFailed?)
  {
  }

  /** `Shutdown` is sticky: its arm makes no broker call and never leaves the state. */
  lemma ShutdownIsSticky(cfg: Config, front: Batch, wf: Frontier, reply: CallResult)
    ensures IssuedOp(cfg, Shutdown, front) == None
    ensures Step(cfg, Shutdown, front, wf, reply) == Halt
  {
  }

  /** A failed send is the only way an iteration returns from the turn, it happens only in the
      three sending states, and `retry` is true exactly for a full local queue. */
  lemma SendFailureOnlyWhenSending(cfg: Config, state: SendState, front: Batch, wf: Frontier, reply: CallResult)
    ensures Step(cfg, state, front, wf, reply).SendFailed? ==>
      && (state.Begin? || state.Draining? || state.End?)
      && IssuedOp(cfg, state, front).Some? && IssuedOp(cfg, state, front).value.Send?
      && reply.Err?
      && Step(cfg, state, front, wf, reply).retry == (reply.error == MessageProduction(QueueFull))
  {
  }

  /** With transactions off every transactional call is treated as successful, whatever the
      reply, and no transactional broker call is issued. */
  lemma NonTransactionalIgnoresReplies(cfg: Config, state: SendState, front: Batch, wf: Frontier, reply: CallResult)
    requires !cfg.transactional
    requires state.Init? || state.BeginTxn? || state.CommitTxn? || state.AbortTxn?
    ensures IssuedOp(cfg, state, front) == None
    ensures Step(cfg, state, front, wf, reply) == Step(cfg, state, front, wf, Ok)
  {
  }
}
