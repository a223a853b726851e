/**
  The transactional batch publisher: the `sink_logic` closure of `produce_to_kafka`
  (kafka.rs:392-630), the delivery callback of `SinkProducerContext` and the drop of
  `KafkaSinkToken`.

  `Turn` is the specification of one scheduling turn as a function of the state
  before it and of what the outside world supplies (the new records, the input
  frontier, the sources' durability frontiers, the broker's replies and the number of
  messages in flight).  `KafkaSink.SinkLogic` performs the turn in place and is
  proved to agree with `Turn`.
 */
module Publisher {
  import opened Wrappers
  import opened Frontiers
  import opened KafkaTypes
  import opened Protocol
  import opened Sorted

  /** Why a turn panics. */
  datatype Panic =
      /** `assert!(diff >= 0, "can't sink negative multiplicities")` (kafka.rs:425) */
    | NegativeDiff
      /** `assert!(write_frontier.borrow().less_equal(ts))` (kafka.rs:580) */
    | WriteFrontierAhead
      /** `rows[row_index]` out of range (kafka.rs:518) */
    | RowOutOfRange

  datatype Outcome<T> = Done(value: T) | Crash(reason: Panic)

  /** The publisher's state between turns: `pending_rows`, `ready_rows`, `state`, the
      shared write frontier and the shared shutdown flag. */
  datatype Sink = Sink(
    pending: map<Timestamp, seq<EncodedRow>>,
    ready: seq<Batch>,
    state: SendState,
    writeFrontier: Frontier,
    shutdown: bool)

  /** `pending_rows.entry(time).or_default()`, read-only. */
  function RowsAt(pending: map<Timestamp, seq<EncodedRow>>, t: Timestamp): seq<EncodedRow> {
    if t in pending then pending[t] else []
  }

  // ---------------------------------------------------------------------------
  // Ingest (kafka.rs:403-440)

  /** One input record: filtered, then checked for a negative diff, then dropped if its diff
      is zero, else appended to the rows pending at its time with `count = diff`. */
  function IngestRecord(cfg: Config, pending: map<Timestamp, seq<EncodedRow>>, r: Record)
    : Outcome<map<Timestamp, seq<EncodedRow>>>
  {
    if !Admissible(cfg.asOf, GateTs(cfg.consistency), r.time) then Done(pending)
    else if r.diff < 0 then Crash(NegativeDiff)
    else if r.diff == 0 then Done(pending)
    else Done(pending[r.time := RowsAt(pending, r.time) + [EncodedRow(r.key, r.value, r.diff)]])
  }

  /** All input records of the turn, in arrival order. */
  function Ingest(cfg: Config, pending: map<Timestamp, seq<EncodedRow>>, records: seq<Record>)
    : Outcome<map<Timestamp, seq<EncodedRow>>>
    decreases |records|
  {
    if records == [] then Done(pending)
    else match IngestRecord(cfg, pending, records[0])
      case Crash(p) => Crash(p)
      case Done(next) => Ingest(cfg, next, records[1..])
  }

  // ---------------------------------------------------------------------------
  // Closing timestamps (kafka.rs:442-461)

  /** A timestamp is closed once neither the input frontier nor the durability frontier is at
      or before it. */
  predicate IsClosed(input: Frontier, durability: Frontier, ts: Timestamp) {
    !LessEqual(input, ts) && !LessEqual(durability, ts)
  }

  function ClosedSet(pending: map<Timestamp, seq<EncodedRow>>, input: Frontier, durability: Frontier): set<Timestamp> {
    set ts | ts in pending && IsClosed(input, durability, ts)
  }

  /** The batches for the given pending timestamps, in the given order. */
  function Batches(pending: map<Timestamp, seq<EncodedRow>>, tss: seq<Timestamp>): (bs: seq<Batch>)
    ensures |bs| == |tss|
    ensures forall i :: 0 <= i < |tss| ==> bs[i] == Batch(tss[i], RowsAt(pending, tss[i]))
  {
    if tss == [] then []
    else Batches(pending, tss[..|tss| - 1]) + [Batch(tss[|tss| - 1], RowsAt(pending, tss[|tss| - 1]))]
  }

  /** The loop state after moving the first `k` of the timestamps `tss` from pending to ready. */
  ghost predicate ClosedPrefix(pending0: map<Timestamp, seq<EncodedRow>>, ready0: seq<Batch>, tss: seq<Timestamp>, k: nat,
                               pending: map<Timestamp, seq<EncodedRow>>, ready: seq<Batch>)
  {
    && Ascending(tss) && k <= |tss| && (forall i :: 0 <= i < |tss| ==> tss[i] in pending0)
    && pending == pending0 - Elems(tss[..k])
    && ready == ready0 + Batches(pending0, tss[..k])
  }

  /** The closed timestamps, sorted, are pending timestamps, and all of them. */
  lemma ClosedInPending(pending: map<Timestamp, seq<EncodedRow>>, input: Frontier, durability: Frontier)
    ensures var closed := SortedSeq(ClosedSet(pending, input, durability));
            forall i :: 0 <= i < |closed| ==> closed[i] in pending
  {
  }

  /** One iteration of the loop that moves the closed timestamps `tss` from pending to ready. */
  lemma CloseOne(pending0: map<Timestamp, seq<EncodedRow>>, ready0: seq<Batch>, tss: seq<Timestamp>, k: nat,
                 pending: map<Timestamp, seq<EncodedRow>>, ready: seq<Batch>)
    requires ClosedPrefix(pending0, ready0, tss, k, pending, ready) && k < |tss|
    ensures tss[k] in pending
    ensures ClosedPrefix(pending0, ready0, tss, k + 1, pending - {tss[k]}, ready + [Batch(tss[k], pending[tss[k]])])
  {
    var t := tss[k];
    ElemsSnoc(tss, k);
    NotInPrefix(tss, k);
    assert tss[..k + 1][..k] == tss[..k];
    assert pending - {t} == pending0 - Elems(tss[..k + 1]);
  }

  lemma CloseDone(pending0: map<Timestamp, seq<EncodedRow>>, ready0: seq<Batch>, input: Frontier, durability: Frontier,
                  pending: map<Timestamp, seq<EncodedRow>>, ready: seq<Batch>)
    requires var closed := SortedSeq(ClosedSet(pending0, input, durability));
             pending == pending0 - Elems(closed) && ready == ready0 + Batches(pending0, closed)
    ensures (pending, ready) == Close(pending0, ready0, input, durability)
  {
    ElemsOfSorted(ClosedSet(pending0, input, durability));
  }

  /** The closed timestamps, removed from `pending` and pushed to the back of `ready` in
      ascending order. */
  function Close(pending: map<Timestamp, seq<EncodedRow>>, ready: seq<Batch>, input: Frontier, durability: Frontier)
    : (map<Timestamp, seq<EncodedRow>>, seq<Batch>)
  {
    var closed := SortedSeq(ClosedSet(pending, input, durability));
    (pending - ClosedSet(pending, input, durability), ready + Batches(pending, closed))
  }

  // ---------------------------------------------------------------------------
  // The bounded publish loop (kafka.rs:463-609)

  /** How the publish loop ended. */
  datatype LoopEnd =
      /** the loop ran out of fuel, found `ready_rows` empty, or hit `Shutdown` */
    | Finished(sink: Sink, ops: seq<BrokerOp>)
      /** a send failed: `return retry` */
    | Returned(sink: Sink, retry: bool, ops: seq<BrokerOp>)
    | LoopCrash(reason: Panic)

  /** Iterations `i` to `cfg.fuel - 1` of `for _ in 0..connector.fuel`; `ops` are the broker
      calls made so far and `replies(i)` is the broker's reply in iteration `i`. */
  function PublishLoop(cfg: Config, s: Sink, replies: nat -> CallResult, i: nat, ops: seq<BrokerOp>): LoopEnd
    decreases cfg.fuel - i
  {
    if i >= cfg.fuel || s.ready == [] then Finished(s, ops)
    else
      var front := s.ready[0];
      var ops' := ops + OpList(IssuedOp(cfg, s.state, front));
      match Step(cfg, s.state, front, s.writeFrontier, replies(i))
      case Goto(next) => PublishLoop(cfg, s.(state := next), replies, i + 1, ops')
      case Committed =>
        PublishLoop(cfg, s.(writeFrontier := At(front.ts), ready := s.ready[1..], state := BeginTxn), replies, i + 1, ops')
      case SendFailed(retry) => Returned(s.(shutdown := s.shutdown || !retry), retry, ops')
      case Halt => Finished(s.(shutdown := false), ops')
      case CommitAssertFails => LoopCrash(WriteFrontierAhead)
      case RowIndexOutOfRange => LoopCrash(RowOutOfRange)
  }

  // ---------------------------------------------------------------------------
  // One turn

  /** Which `return` ended the turn. */
  datatype Exit =
      /** the shutdown flag was set on entry (kafka.rs:397-400) */
    | FlagSet
      /** a send failed inside the loop (kafka.rs:503-505, 530-532, 565-567) */
    | SendError
      /** the re-activation decision after the loop (kafka.rs:614-629) */
    | AfterLoop

  datatype TurnResult =
    | Completed(sink: Sink, reschedule: bool, ops: seq<BrokerOp>, exit: Exit)
    | Crashed(reason: Panic)

  /** One invocation of `sink_logic`. */
  function Turn(
    cfg: Config, s: Sink, records: seq<Record>, input: Frontier, durabilities: seq<Frontier>,
    replies: nat -> CallResult, inFlight: nat): TurnResult
  {
    if s.shutdown then Completed(s, false, [], FlagSet)
    else match Ingest(cfg, s.pending, records)
      case Crash(p) => Crashed(p)
      case Done(pending) =>
        var (pending', ready') := Close(pending, s.ready, input, MeetAll(durabilities));
        match PublishLoop(cfg, s.(pending := pending', ready := ready'), replies, 0, [])
        case Finished(s', ops) => Completed(s', s'.ready != [] || inFlight > 0, ops, AfterLoop)
        case Returned(s', retry, ops) => Completed(s', retry, ops, SendError)
        case LoopCrash(p) => Crashed(p)
  }

  // ---------------------------------------------------------------------------
  // The imperative publisher

  /** `Arc<AtomicBool>`: the shutdown flag shared by the sink, the producer context's
      delivery callback and the sink token. */
  class SharedFlag {
    var value: bool

    constructor ()
      ensures !value
    {
      value := false;
    }
  }

  /** `SinkProducerContext::delivery` (kafka.rs:122-135): a failed delivery raises the flag. */
  method Delivery(flag: SharedFlag, result: CallResult)
    modifies flag
    ensures flag.value == (old(flag.value) || result.Err?)
  {
    if result.Err? {
      flag.value := true;
    }
  }

  /** `KafkaSinkToken::drop` (kafka.rs:142-146): releasing the token raises the flag. */
  method DropToken(flag: SharedFlag)
    modifies flag
    ensures flag.value
  {
    flag.value := true;
  }

  class KafkaSink {
    const cfg: Config
    const flag: SharedFlag
    var pendingRows: map<Timestamp, seq<EncodedRow>>
    var readyRows: seq<Batch>
    var state: SendState
    var writeFrontier: Frontier

    function Model(): Sink
      reads this, flag
    {
      Sink(pendingRows, readyRows, state, writeFrontier, flag.value)
    }

    /** The operator's state as `produce_to_kafka` sets it up (kafka.rs:356, 387-389). */
    constructor (cfg: Config, flag: SharedFlag, writeFrontier: Frontier)
      ensures this.cfg == cfg && this.flag == flag
      ensures pendingRows == map[] && readyRows == [] && state == Init && this.writeFrontier == writeFrontier
    {
      this.cfg := cfg;
      this.flag := flag;
      pendingRows := map[];
      readyRows := [];
      state := Init;
      this.writeFrontier := writeFrontier;
    }

    /** Queue all pending rows waiting to be sent (kafka.rs:402-440). */
    method QueueRecords(records: seq<Record>) returns (crash: Option<Panic>)
      modifies this`pendingRows
      ensures crash.Some? ==> Ingest(cfg, old(pendingRows), records) == Crash(crash.value)
      ensures crash.None? ==> Ingest(cfg, old(pendingRows), records) == Done(pendingRows)
    {
      var i := 0;
      while i < |records|
        invariant i <= |records|
        invariant Ingest(cfg, old(pendingRows), records) == Ingest(cfg, pendingRows, records[i..])
      {
        var r := records[i];
        assert records[i..][1..] == records[i + 1..];
        if Admissible(cfg.asOf, GateTs(cfg.consistency), r.time) {
          if r.diff < 0 {
            return Some(NegativeDiff);
          }
          if r.diff != 0 {
            var rows := if r.time in pendingRows then pendingRows[r.time] else [];
            pendingRows := pendingRows[r.time := rows + [EncodedRow(r.key, r.value, r.diff)]];
          }
        }
        i := i + 1;
      }
      return None;
    }

    /** Move any newly closed timestamps from pending to ready (kafka.rs:449-461). */
    method CloseTimestamps(input: Frontier, durability: Frontier)
      modifies this`pendingRows, this`readyRows
      ensures (pendingRows, readyRows) == Close(old(pendingRows), old(readyRows), input, durability)
    {
      var closed := SortedSeq(ClosedSet(pendingRows, input, durability));
      ClosedInPending(pendingRows, input, durability);
      MoveToReady(closed);
      CloseDone(old(pendingRows), old(readyRows), input, durability, pendingRows, readyRows);
    }

    /** Move the rows of the ascending, pending timestamps `tss` from pending to ready, in order. */
    method MoveToReady(tss: seq<Timestamp>)
      requires Ascending(tss) && forall i :: 0 <= i < |tss| ==> tss[i] in pendingRows
      modifies this`pendingRows, this`readyRows
      ensures pendingRows == old(pendingRows) - Elems(tss)
      ensures readyRows == old(readyRows) + Batches(old(pendingRows), tss)
    {
      var k := 0;
      assert tss[..0] == [];
      while k < |tss|
        invariant ClosedPrefix(old(pendingRows), old(readyRows), tss, k, pendingRows, readyRows)
      {
        CloseOne(old(pendingRows), old(readyRows), tss, k, pendingRows, readyRows);
        var ts := tss[k];
        pendingRows, readyRows := pendingRows - {ts}, readyRows + [Batch(ts, pendingRows[ts])];
        k := k + 1;
      }
      assert tss[..k] == tss;
    }

    /** Send a bounded number of records from the ready queue (kafka.rs:463-609). */
    method Publish(replies: nat -> CallResult) returns (crash: Option<Panic>, early: Option<bool>, ops: seq<BrokerOp>)
      requires !flag.value
      modifies this`readyRows, this`state, this`writeFrontier, flag
      ensures pendingRows == old(pendingRows)
      ensures match PublishLoop(cfg, old(Model()), replies, 0, [])
              case LoopCrash(p) => crash == Some(p)
              case Finished(s', ops') => crash.None? && early.None? && Model() == s' && ops == ops'
              case Returned(s', retry, ops') => crash.None? && early == Some(retry) && Model() == s' && ops == ops'
    {
      ops := [];
      early := None;
      crash := None;
      var n := 0;
      while n < cfg.fuel
        invariant n <= cfg.fuel
        invariant PublishLoop(cfg, Model(), replies, n, ops) == PublishLoop(cfg, old(Model()), replies, 0, [])
        invariant !flag.value && pendingRows == old(pendingRows)
        decreases cfg.fuel - n
      {
        if readyRows == [] {
          break;
        }
        var front := readyRows[0];
        ops := ops + OpList(IssuedOp(cfg, state, front));
        match Step(cfg, state, front, writeFrontier, replies(n)) {
        case Goto(next) =>
          state := next;
        case Committed =>
          writeFrontier := At(front.ts);
          readyRows := readyRows[1..];
          state := BeginTxn;
        case SendFailed(retry) =>
          if !retry {
            flag.value := true;
          }
          early := Some(retry);
          return;
        case Halt =>
          flag.value := false;
          break;
        case CommitAssertFails =>
          crash := Some(WriteFrontierAhead);
          return;
        case RowIndexOutOfRange =>
          crash := Some(RowOutOfRange);
          return;
        }
        n := n + 1;
      }
    }

    /** One invocation of `sink_logic`.  `ops` are the calls made into the broker client, in
        order; `crash` is the panic that aborts the turn, if any. */
    method SinkLogic(
      records: seq<Record>, input: Frontier, durabilities: seq<Frontier>,
      replies: nat -> CallResult, inFlight: nat)
      returns (crash: Option<Panic>, reschedule: bool, ops: seq<BrokerOp>)
      modifies this, flag
      ensures var t := Turn(cfg, old(Model()), records, input, durabilities, replies, inFlight);
              && (crash.Some? <==> t.Crashed?)
              && (t.Crashed? ==> crash.value == t.reason)
              && (t.Completed? ==> Model() == t.sink && reschedule == t.reschedule && ops == t.ops)
    {
      ops := [];
      if flag.value {
        return None, false, [];
      }
      crash := QueueRecords(records);
      if crash.Some? {
        return crash, false, [];
      }
      var durability := DurabilityFrontier(durabilities);
      CloseTimestamps(input, durability);
      var early;
      crash, early, ops := Publish(replies);
      if crash.Some? {
        return crash, false, ops;
      }
      if early.Some? {
        return None, early.value, ops;
      }
      reschedule := readyRows != [] || inFlight > 0;
    }
  }

  /** The durability frontier: the meet of every source's durability frontier, starting from
      the empty antichain (kafka.rs:443-448). */
  method DurabilityFrontier(durabilities: seq<Frontier>) returns (durability: Frontier)
    ensures durability == MeetAll(durabilities)
  {
    durability := Empty;
    var j := 0;
    while j < |durabilities|
      invariant j <= |durabilities|
      invariant durability == MeetAll(durabilities[..j])
    {
      assert durabilities[..j + 1][..j] == durabilities[..j];
      durability := Meet(durability, durabilities[j]);
      j := j + 1;
    }
    assert durabilities[..j] == durabilities;
  }
}
