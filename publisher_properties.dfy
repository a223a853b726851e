/**
  What one publisher turn guarantees: the ingest filter and its multiplicity rules,
  when timestamps close, the bounds on the publish loop, how the write frontier and the
  ready queue may change, the re-activation decision, the shutdown latch and the retry
  of a failed send.
 */
module PublisherProperties {
  import opened Wrappers
  import opened Frontiers
  import opened KafkaTypes
  import opened Protocol
  import opened Sorted
  import opened Publisher

  // ---------------------------------------------------------------------------
  // Ingest

  /** The rows a sequence of records adds at time `t`, in arrival order: the records at `t`
      that pass the filter and have a positive diff, each with `count = diff`. */
  function Queued(cfg: Config, records: seq<Record>, t: Timestamp): seq<EncodedRow>
    decreases |records|
  {
    if records == [] then []
    else
      var r := records[0];
      (if r.time == t && Admissible(cfg.asOf, GateTs(cfg.consistency), r.time) && r.diff > 0
       then [EncodedRow(r.key, r.value, r.diff)] else [])
      + Queued(cfg, records[1..], t)
  }

  /** A record whose diff is negative reaches the multiplicity assertion only if it passes the filter. */
  predicate RejectsRecord(cfg: Config, r: Record) {
    Admissible(cfg.asOf, GateTs(cfg.consistency), r.time) && r.diff < 0
  }

  /** Ingest panics exactly when some admitted record has a negative diff; otherwise every
      timestamp's pending rows are extended by exactly the admitted, non-zero records at that
      timestamp, in arrival order, and a timestamp becomes pending only by receiving one. */
  lemma {:induction false} IngestMeans(cfg: Config, pending: map<Timestamp, seq<EncodedRow>>, records: seq<Record>)
    ensures Ingest(cfg, pending, records).Crash? <==> exists i :: 0 <= i < |records| && RejectsRecord(cfg, records[i])
    ensures Ingest(cfg, pending, records).Crash? ==> Ingest(cfg, pending, records).reason == NegativeDiff
    ensures Ingest(cfg, pending, records).Done? ==>
              forall t :: RowsAt(Ingest(cfg, pending, records).value, t) == RowsAt(pending, t) + Queued(cfg, records, t)
    ensures Ingest(cfg, pending, records).Done? ==>
              forall t :: t in Ingest(cfg, pending, records).value <==> t in pending || Queued(cfg, records, t) != []
    decreases |records|
  {
    if records != [] {
      var r := records[0];
      var rest := records[1..];
      assert forall i :: 0 <= i < |rest| ==> rest[i] == records[i + 1];
      match IngestRecord(cfg, pending, r)
      case Crash(p) =>
      case Done(next) =>
        IngestMeans(cfg, next, rest);
        if exists i :: 0 <= i < |records| && RejectsRecord(cfg, records[i]) {
          var i :| 0 <= i < |records| && RejectsRecord(cfg, records[i]);
          assert i != 0;
          assert RejectsRecord(cfg, rest[i - 1]);
        }
        if Ingest(cfg, next, rest).Done? {
          IngestStepRows(cfg, pending, records, next, Ingest(cfg, next, rest).value);
          IngestStepKeys(cfg, pending, records, next, Ingest(cfg, next, rest).value);
        }
    }
  }

  /** One record's step of ingest, composed with what ingesting the rest does: the rows. */
  lemma IngestStepRows(cfg: Config, pending: map<Timestamp, seq<EncodedRow>>, records: seq<Record>,
                       next: map<Timestamp, seq<EncodedRow>>, after: map<Timestamp, seq<EncodedRow>>)
    requires records != [] && IngestRecord(cfg, pending, records[0]) == Done(next)
    requires forall t :: RowsAt(after, t) == RowsAt(next, t) + Queued(cfg, records[1..], t)
    ensures forall t :: RowsAt(after, t) == RowsAt(pending, t) + Queued(cfg, records, t)
  {
    forall t
      ensures RowsAt(after, t) == RowsAt(pending, t) + Queued(cfg, records, t)
    {
      IngestRecordAt(cfg, pending, records[0], next, t);
      QueuedCons(cfg, records, t);
      AppendAssoc(RowsAt(pending, t), Queued(cfg, [records[0]], t), Queued(cfg, records[1..], t));
    }
  }

  lemma AppendAssoc(a: seq<EncodedRow>, b: seq<EncodedRow>, c: seq<EncodedRow>)
    ensures (a + b) + c == a + (b + c)
  {
  }

  /** The same step: the timestamps. */
  lemma IngestStepKeys(cfg: Config, pending: map<Timestamp, seq<EncodedRow>>, records: seq<Record>,
                       next: map<Timestamp, seq<EncodedRow>>, after: map<Timestamp, seq<EncodedRow>>)
    requires records != [] && IngestRecord(cfg, pending, records[0]) == Done(next)
    requires forall t :: t in after <==> t in next || Queued(cfg, records[1..], t) != []
    ensures forall t :: t in after <==> t in pending || Queued(cfg, records, t) != []
  {
    forall t
      ensures t in after <==> t in pending || Queued(cfg, records, t) != []
    {
      IngestRecordAt(cfg, pending, records[0], next, t);
      QueuedCons(cfg, records, t);
    }
  }

  /** One record adds at `t` exactly what `Queued` says it does. */
  lemma IngestRecordAt(cfg: Config, pending: map<Timestamp, seq<EncodedRow>>, r: Record,
                       next: map<Timestamp, seq<EncodedRow>>, t: Timestamp)
    requires IngestRecord(cfg, pending, r) == Done(next)
    ensures RowsAt(next, t) == RowsAt(pending, t) + Queued(cfg, [r], t)
    ensures t in next <==> t in pending || Queued(cfg, [r], t) != []
  {
    assert [r][1..] == [];
  }

  lemma QueuedCons(cfg: Config, records: seq<Record>, t: Timestamp)
    requires records != []
    ensures Queued(cfg, records, t) == Queued(cfg, [records[0]], t) + Queued(cfg, records[1..], t)
  {
    assert [records[0]][1..] == [];
  }

  /** Every row ever made pending carries a count of at least one, and no pending entry is empty. */
  ghost predicate PendingWellFormed(pending: map<Timestamp, seq<EncodedRow>>) {
    forall t :: t in pending ==> WellFormedRows(pending[t])
  }

  lemma {:induction false} IngestKeepsWellFormed(cfg: Config, pending: map<Timestamp, seq<EncodedRow>>, records: seq<Record>)
    requires PendingWellFormed(pending)
    ensures Ingest(cfg, pending, records).Done? ==> PendingWellFormed(Ingest(cfg, pending, records).value)
    decreases |records|
  {
    if records != [] {
      match IngestRecord(cfg, pending, records[0])
      case Crash(_) =>
      case Done(next) =>
        assert PendingWellFormed(next);
        IngestKeepsWellFormed(cfg, next, records[1..]);
    }
  }

  // ---------------------------------------------------------------------------
  // Closing

  /** With the durability frontier taken as the meet of all sources' frontiers, a timestamp is
      closed exactly when neither the input frontier nor any source's durability frontier is at
      or before it; with no sources only the input frontier holds timestamps back. */
  lemma ClosedMeans(input: Frontier, durabilities: seq<Frontier>, ts: Timestamp)
    ensures IsClosed(input, MeetAll(durabilities), ts) <==>
              !LessEqual(input, ts) && forall i :: 0 <= i < |durabilities| ==> !LessEqual(durabilities[i], ts)
    ensures durabilities == [] ==> (IsClosed(input, MeetAll(durabilities), ts) <==> !LessEqual(input, ts))
  {
    MeetAllLessEqual(durabilities, ts);
  }

  /** Closing keeps exactly the timestamps that are not closed pending, unchanged; keeps the
      old ready queue as a prefix; and appends one batch per closed timestamp, with its rows,
      in strictly ascending timestamp order. */
  lemma CloseMeans(pending: map<Timestamp, seq<EncodedRow>>, ready: seq<Batch>, input: Frontier, durability: Frontier)
    ensures var (p, r) := Close(pending, ready, input, durability);
            && (forall t :: t in p <==> t in pending && !IsClosed(input, durability, t))
            && (forall t :: t in p ==> p[t] == pending[t])
            && |ready| <= |r| && r[..|ready|] == ready
            && (forall i, j :: |ready| <= i < j < |r| ==> r[i].ts < r[j].ts)
            && (forall i :: |ready| <= i < |r| ==>
                  r[i].ts in pending && IsClosed(input, durability, r[i].ts) && r[i].rows == pending[r[i].ts])
            && (forall t :: t in pending && IsClosed(input, durability, t) ==>
                  exists i :: |ready| <= i < |r| && r[i].ts == t)
  {
    CloseReadyMeans(pending, ready, input, durability);
  }

  /** No timestamp is both pending and in a batch that closing has just made ready. */
  lemma CloseSeparates(pending: map<Timestamp, seq<EncodedRow>>, ready: seq<Batch>, input: Frontier, durability: Frontier)
    ensures var (p, r) := Close(pending, ready, input, durability);
            forall i :: |ready| <= i < |r| ==> r[i].ts !in p
  {
    CloseMeans(pending, ready, input, durability);
  }

  /** The batches `Close` appends, described through the sorted closed timestamps. */
  lemma CloseReadyMeans(pending: map<Timestamp, seq<EncodedRow>>, ready: seq<Batch>, input: Frontier, durability: Frontier)
    ensures var r := Close(pending, ready, input, durability).1;
            && |ready| <= |r| && r[..|ready|] == ready
            && (forall i, j :: |ready| <= i < j < |r| ==> r[i].ts < r[j].ts)
            && (forall i :: |ready| <= i < |r| ==>
                  r[i].ts in pending && IsClosed(input, durability, r[i].ts) && r[i].rows == pending[r[i].ts])
            && (forall t :: t in pending && IsClosed(input, durability, t) ==>
                  exists i :: |ready| <= i < |r| && r[i].ts == t)
  {
    var closedSet := ClosedSet(pending, input, durability);
    var closed := SortedSeq(closedSet);
    assert forall i :: 0 <= i < |closed| ==> closed[i] in closedSet;
    AppendClosed(pending, ready, input, durability, closed, Batches(pending, closed));
    assert Close(pending, ready, input, durability).1 == ready + Batches(pending, closed);
  }

  /** Appending the batches of ascending closed timestamps that cover every closed pending
      timestamp. */
  lemma AppendClosed(pending: map<Timestamp, seq<EncodedRow>>, ready: seq<Batch>, input: Frontier, durability: Frontier,
                     closed: seq<Timestamp>, added: seq<Batch>)
    requires Ascending(closed)
    requires forall i :: 0 <= i < |closed| ==> closed[i] in pending && IsClosed(input, durability, closed[i])
    requires forall t :: t in pending && IsClosed(input, durability, t) ==> t in closed
    requires |added| == |closed|
    requires forall i :: 0 <= i < |closed| ==> added[i] == Batch(closed[i], RowsAt(pending, closed[i]))
    ensures var r := ready + added;
            && |ready| <= |r| && r[..|ready|] == ready
            && (forall i, j :: |ready| <= i < j < |r| ==> r[i].ts < r[j].ts)
            && (forall i :: |ready| <= i < |r| ==>
                  r[i].ts in pending && IsClosed(input, durability, r[i].ts) && r[i].rows == pending[r[i].ts])
            && (forall t :: t in pending && IsClosed(input, durability, t) ==>
                  exists i :: |ready| <= i < |r| && r[i].ts == t)
  {
    var r := ready + added;
    assert forall i :: |ready| <= i < |r| ==> r[i] == added[i - |ready|];
    forall t | t in pending && IsClosed(input, durability, t)
      ensures exists i :: |ready| <= i < |r| && r[i].ts == t
    {
      var k :| 0 <= k < |closed| && closed[k] == t;
      assert r[|ready| + k].ts == t;
    }
  }

  /** A closed batch is well formed when the pending rows were. */
  lemma CloseKeepsWellFormed(pending: map<Timestamp, seq<EncodedRow>>, ready: seq<Batch>, input: Frontier, durability: Frontier)
    requires PendingWellFormed(pending)
    requires forall i :: 0 <= i < |ready| ==> WellFormedRows(ready[i].rows)
    ensures var (p, r) := Close(pending, ready, input, durability);
            PendingWellFormed(p) && forall i :: 0 <= i < |r| ==> WellFormedRows(r[i].rows)
  {
    CloseMeans(pending, ready, input, durability);
  }

  // ---------------------------------------------------------------------------
  // The publish loop

  /** The loop makes at most one broker call per iteration, only appends to the calls made so
      far, and never touches the pending rows; a failed send is always a call of its own. */
  lemma {:induction false} LoopBounds(cfg: Config, s: Sink, replies: nat -> CallResult, i: nat, ops: seq<BrokerOp>)
    requires i <= cfg.fuel
    ensures var r := PublishLoop(cfg, s, replies, i, ops);
            !r.LoopCrash? ==>
              && |ops| <= |r.ops| <= |ops| + (cfg.fuel - i)
              && r.ops[..|ops|] == ops
              && r.sink.pending == s.pending
    ensures PublishLoop(cfg, s, replies, i, ops).Returned? ==> |PublishLoop(cfg, s, replies, i, ops).ops| > |ops|
    decreases cfg.fuel - i
  {
    if i < cfg.fuel && s.ready != [] {
      var front := s.ready[0];
      var ops' := ops + OpList(IssuedOp(cfg, s.state, front));
      match Step(cfg, s.state, front, s.writeFrontier, replies(i))
      case Goto(next) =>
        LoopBounds(cfg, s.(state := next), replies, i + 1, ops');
        assert ops'[..|ops|] == ops;
      case Committed =>
        LoopBounds(cfg, s.(writeFrontier := At(front.ts), ready := s.ready[1..], state := BeginTxn), replies, i + 1, ops');
        assert ops'[..|ops|] == ops;
      case SendFailed(_) =>
        SendFailureOnlyWhenSending(cfg, s.state, front, s.writeFrontier, replies(i));
        assert ops'[..|ops|] == ops;
      case Halt =>
        ShutdownIsSticky(cfg, front, s.writeFrontier, replies(i));
        assert ops' == ops;
      case _ =>
    }
  }

  /** From `s` to `r`'s sink the ready queue lost only front batches, and the write frontier
      is either unchanged (nothing popped) or exactly the last popped batch's timestamp, at or
      beyond where it was. */
  ghost predicate PoppedOnly(s: Sink, r: LoopEnd) {
    !r.LoopCrash? ==>
      && |r.sink.ready| <= |s.ready|
      && r.sink.ready == s.ready[|s.ready| - |r.sink.ready|..]
      && (|r.sink.ready| == |s.ready| ==> r.sink.writeFrontier == s.writeFrontier)
      && (|r.sink.ready| < |s.ready| ==>
            && r.sink.writeFrontier == At(s.ready[|s.ready| - |r.sink.ready| - 1].ts)
            && Precedes(s.writeFrontier, r.sink.writeFrontier))
  }

  /** A commit pops the front batch and sets the write frontier to its timestamp, which the
      commit assertion has checked to be at or beyond the old one. */
  lemma PoppedOnlyAfterCommit(s: Sink, r: LoopEnd)
    requires s.ready != [] && LessEqual(s.writeFrontier, s.ready[0].ts)
    requires PoppedOnly(s.(writeFrontier := At(s.ready[0].ts), ready := s.ready[1..], state := BeginTxn), r)
    ensures PoppedOnly(s, r)
  {
    if !r.LoopCrash? {
      var n := |s.ready| - |r.sink.ready|;
      assert s.ready[1..][n - 1..] == s.ready[n..];
      if 1 < n {
        assert s.ready[1..][n - 2] == s.ready[n - 1];
      }
    }
  }

  /** The loop changes the ready queue only by popping its front, once per commit, and the write
      frontier only by a commit: afterwards it is exactly the last popped batch's timestamp, and it
      never moves backwards. */
  lemma {:induction false} LoopCommits(cfg: Config, s: Sink, replies: nat -> CallResult, i: nat, ops: seq<BrokerOp>)
    ensures PoppedOnly(s, PublishLoop(cfg, s, replies, i, ops))
    decreases cfg.fuel - i
  {
    if i < cfg.fuel && s.ready != [] {
      var front := s.ready[0];
      var ops' := ops + OpList(IssuedOp(cfg, s.state, front));
      match Step(cfg, s.state, front, s.writeFrontier, replies(i))
      case Goto(next) =>
        LoopCommits(cfg, s.(state := next), replies, i + 1, ops');
      case Committed =>
        var s' := s.(writeFrontier := At(front.ts), ready := s.ready[1..], state := BeginTxn);
        LoopCommits(cfg, s', replies, i + 1, ops');
        PoppedOnlyAfterCommit(s, PublishLoop(cfg, s', replies, i + 1, ops'));
      case _ =>
    }
  }

  /** The shutdown flag after the loop: a loop entered with the flag clear leaves it clear unless
      a send fails fatally; a failed send asks for a retry exactly when it did not set the flag. */
  lemma {:induction false} LoopFlag(cfg: Config, s: Sink, replies: nat -> CallResult, i: nat, ops: seq<BrokerOp>)
    requires !s.shutdown
    ensures PublishLoop(cfg, s, replies, i, ops).Finished? ==> !PublishLoop(cfg, s, replies, i, ops).sink.shutdown
    ensures PublishLoop(cfg, s, replies, i, ops).Returned? ==>
              (PublishLoop(cfg, s, replies, i, ops).retry <==> !PublishLoop(cfg, s, replies, i, ops).sink.shutdown)
    decreases cfg.fuel - i
  {
    if i < cfg.fuel && s.ready != [] {
      var front := s.ready[0];
      var ops' := ops + OpList(IssuedOp(cfg, s.state, front));
      match Step(cfg, s.state, front, s.writeFrontier, replies(i))
      case Goto(next) =>
        LoopFlag(cfg, s.(state := next), replies, i + 1, ops');
      case Committed =>
        LoopFlag(cfg, s.(writeFrontier := At(front.ts), ready := s.ready[1..], state := BeginTxn), replies, i + 1, ops');
      case _ =>
    }
  }

  /** A loop that returns because a send failed stops with the front batch still queued and the
      state still the one whose message failed: the last call made is that state's send. */
  lemma {:induction false} LoopReturnedKeepsState(cfg: Config, s: Sink, replies: nat -> CallResult, i: nat, ops: seq<BrokerOp>)
    ensures var r := PublishLoop(cfg, s, replies, i, ops);
            r.Returned? ==>
              && r.sink.ready != [] && r.ops != []
              && (r.sink.state.Begin? || r.sink.state.Draining? || r.sink.state.End?)
              && IssuedOp(cfg, r.sink.state, r.sink.ready[0]) == Some(r.ops[|r.ops| - 1])
              && r.ops[|r.ops| - 1].Send?
    decreases cfg.fuel - i
  {
    if i < cfg.fuel && s.ready != [] {
      var front := s.ready[0];
      var ops' := ops + OpList(IssuedOp(cfg, s.state, front));
      match Step(cfg, s.state, front, s.writeFrontier, replies(i))
      case Goto(next) =>
        LoopReturnedKeepsState(cfg, s.(state := next), replies, i + 1, ops');
      case Committed =>
        LoopReturnedKeepsState(cfg, s.(writeFrontier := At(front.ts), ready := s.ready[1..], state := BeginTxn), replies, i + 1, ops');
      case SendFailed(_) =>
        SendFailureOnlyWhenSending(cfg, s.state, front, s.writeFrontier, replies(i));
      case _ =>
    }
  }

  // ---------------------------------------------------------------------------
  // The row index stays in range

  /** The publisher's invariant: every pending and ready batch is non-empty with positive
      counts, and the state fits the front batch (`Draining` and `End` only with one). */
  ghost predicate Consistent(s: Sink) {
    && PendingWellFormed(s.pending)
    && (forall i :: 0 <= i < |s.ready| ==> WellFormedRows(s.ready[i].rows))
    && (s.ready == [] ==> !s.state.Draining? && !s.state.End?)
    && (s.ready != [] ==> Fits(s.state, s.ready[0]))
  }

  /** The state `produce_to_kafka` starts from is consistent. */
  lemma InitialConsistent(wf: Frontier)
    ensures Consistent(Sink(map[], [], Init, wf, false))
  {
  }

  /** From a consistent state the loop never indexes a row out of range and ends consistent. */
  lemma {:induction false} LoopConsistent(cfg: Config, s: Sink, replies: nat -> CallResult, i: nat, ops: seq<BrokerOp>)
    requires Consistent(s)
    ensures PublishLoop(cfg, s, replies, i, ops) != LoopCrash(RowOutOfRange)
    ensures !PublishLoop(cfg, s, replies, i, ops).LoopCrash? ==> Consistent(PublishLoop(cfg, s, replies, i, ops).sink)
    decreases cfg.fuel - i
  {
    if i < cfg.fuel && s.ready != [] {
      var front := s.ready[0];
      var ops' := ops + OpList(IssuedOp(cfg, s.state, front));
      StepPreservesFits(cfg, s.state, front, s.writeFrontier, replies(i));
      match Step(cfg, s.state, front, s.writeFrontier, replies(i))
      case Goto(next) =>
        LoopConsistent(cfg, s.(state := next), replies, i + 1, ops');
      case Committed =>
        var s' := s.(writeFrontier := At(front.ts), ready := s.ready[1..], state := BeginTxn);
        assert forall k :: 0 <= k < |s'.ready| ==> s'.ready[k] == s.ready[k + 1];
        LoopConsistent(cfg, s', replies, i + 1, ops');
      case _ =>
    }
  }

  /** Ingest and close keep the invariant: the front batch is not replaced. */
  lemma CloseKeepsConsistent(cfg: Config, s: Sink, records: seq<Record>, input: Frontier, durability: Frontier)
    requires Consistent(s) && Ingest(cfg, s.pending, records).Done?
    ensures var (p, r) := Close(Ingest(cfg, s.pending, records).value, s.ready, input, durability);
            Consistent(s.(pending := p, ready := r))
  {
    var pending := Ingest(cfg, s.pending, records).value;
    IngestKeepsWellFormed(cfg, s.pending, records);
    CloseKeepsWellFormed(pending, s.ready, input, durability);
    CloseMeans(pending, s.ready, input, durability);
    var (p, r) := Close(pending, s.ready, input, durability);
    if s.ready != [] {
      assert r[0] == r[..|s.ready|][0];
    }
  }

  /** No turn started from a consistent state panics on `rows[row_index]`, and every completed
      turn leaves the state consistent. */
  lemma TurnConsistent(
    cfg: Config, s: Sink, records: seq<Record>, input: Frontier, durabilities: seq<Frontier>,
    replies: nat -> CallResult, inFlight: nat)
    requires Consistent(s)
    ensures Turn(cfg, s, records, input, durabilities, replies, inFlight) != Crashed(RowOutOfRange)
    ensures Turn(cfg, s, records, input, durabilities, replies, inFlight).Completed? ==>
              Consistent(Turn(cfg, s, records, input, durabilities, replies, inFlight).sink)
  {
    if !s.shutdown && Ingest(cfg, s.pending, records).Done? {
      var pending := Ingest(cfg, s.pending, records).value;
      var (p, r) := Close(pending, s.ready, input, MeetAll(durabilities));
      CloseKeepsConsistent(cfg, s, records, input, MeetAll(durabilities));
      LoopConsistent(cfg, s.(pending := p, ready := r), replies, 0, []);
    } else if !s.shutdown {
      IngestMeans(cfg, s.pending, records);
    }
  }

  // ---------------------------------------------------------------------------
  // One turn

  /** The publish loop a turn runs once ingest has succeeded and close has run. */
  function TurnLoop(
    cfg: Config, s: Sink, pending: map<Timestamp, seq<EncodedRow>>, input: Frontier, durabilities: seq<Frontier>,
    replies: nat -> CallResult): LoopEnd
  {
    var (p, r) := Close(pending, s.ready, input, MeetAll(durabilities));
    PublishLoop(cfg, s.(pending := p, ready := r), replies, 0, [])
  }

  /** A turn that gets past the flag check and ingest is the loop of `TurnLoop` followed by
      the re-activation decision. */
  lemma TurnIsLoop(
    cfg: Config, s: Sink, records: seq<Record>, input: Frontier, durabilities: seq<Frontier>,
    replies: nat -> CallResult, inFlight: nat)
    requires !s.shutdown && Ingest(cfg, s.pending, records).Done?
    ensures EndsTurn(TurnLoop(cfg, s, Ingest(cfg, s.pending, records).value, input, durabilities, replies),
                     Turn(cfg, s, records, input, durabilities, replies, inFlight), inFlight)
  {
  }

  /** `t` is the turn result a loop that ended as `l` leads to. */
  ghost predicate EndsTurn(l: LoopEnd, t: TurnResult, inFlight: nat) {
    match l
    case Finished(s', ops) => t == Completed(s', s'.ready != [] || inFlight > 0, ops, AfterLoop)
    case Returned(s', retry, ops) => t == Completed(s', retry, ops, SendError)
    case LoopCrash(p) => t == Crashed(p)
  }

  /** What `PoppedOnly` and the untouched pending rows of a loop say about the turn it ends. */
  lemma QueuesAfterLoop(s0: Sink, l: LoopEnd, t: TurnResult, inFlight: nat)
    requires EndsTurn(l, t, inFlight) && PoppedOnly(s0, l)
    requires !l.LoopCrash? ==> l.sink.pending == s0.pending
    ensures t.Completed? ==> t.sink.pending == s0.pending && PoppedFrom(s0.ready, s0.writeFrontier, t.sink)
  {
  }

  /** `s'`'s ready queue is `ready` with front batches popped, and its write frontier is `wf`
      if nothing was popped, otherwise the timestamp of the last popped batch. */
  ghost predicate PoppedFrom(ready: seq<Batch>, wf: Frontier, s': Sink) {
    && |s'.ready| <= |ready| && s'.ready == ready[|ready| - |s'.ready|..]
    && (|s'.ready| == |ready| ==> s'.writeFrontier == wf)
    && (|s'.ready| < |ready| ==> s'.writeFrontier == At(ready[|ready| - |s'.ready| - 1].ts))
  }

  /** A turn makes at most `fuel` broker calls and never moves the write frontier backwards. */
  lemma TurnBounds(
    cfg: Config, s: Sink, records: seq<Record>, input: Frontier, durabilities: seq<Frontier>,
    replies: nat -> CallResult, inFlight: nat)
    ensures var t := Turn(cfg, s, records, input, durabilities, replies, inFlight);
            t.Completed? ==> |t.ops| <= cfg.fuel && Precedes(s.writeFrontier, t.sink.writeFrontier)
  {
    if !s.shutdown && Ingest(cfg, s.pending, records).Done? {
      var pending := Ingest(cfg, s.pending, records).value;
      var (p, r) := Close(pending, s.ready, input, MeetAll(durabilities));
      var s0 := s.(pending := p, ready := r);
      TurnIsLoop(cfg, s, records, input, durabilities, replies, inFlight);
      LoopBounds(cfg, s0, replies, 0, []);
      LoopCommits(cfg, s0, replies, 0, []);
    }
  }

  /** The pending rows after a turn are those ingest and close left; the ready queue is what
      close produced with front batches popped; and the write frontier is unchanged unless a
      batch was committed, in which case it is exactly the last committed timestamp. */
  lemma TurnQueues(
    cfg: Config, s: Sink, records: seq<Record>, input: Frontier, durabilities: seq<Frontier>,
    replies: nat -> CallResult, inFlight: nat)
    ensures var t := Turn(cfg, s, records, input, durabilities, replies, inFlight);
            t.Completed? && t.exit != FlagSet ==>
              && Ingest(cfg, s.pending, records).Done?
              && var (p, r) := Close(Ingest(cfg, s.pending, records).value, s.ready, input, MeetAll(durabilities));
                 && t.sink.pending == p
                 && PoppedFrom(r, s.writeFrontier, t.sink)
  {
    if !s.shutdown && Ingest(cfg, s.pending, records).Done? {
      var pending := Ingest(cfg, s.pending, records).value;
      var (p, r) := Close(pending, s.ready, input, MeetAll(durabilities));
      var s0 := s.(pending := p, ready := r);
      var l := TurnLoop(cfg, s, pending, input, durabilities, replies);
      assert l == PublishLoop(cfg, s0, replies, 0, []);
      TurnIsLoop(cfg, s, records, input, durabilities, replies, inFlight);
      LoopBounds(cfg, s0, replies, 0, []);
      LoopCommits(cfg, s0, replies, 0, []);
      QueuesAfterLoop(s0, l, Turn(cfg, s, records, input, durabilities, replies, inFlight), inFlight);
    }
  }

  // ---------------------------------------------------------------------------
  // Ready batches stay ordered

  /** The ready batches have strictly ascending timestamps, every one of them lies below every
      pending timestamp, and none is at or beyond the input frontier `input`. */
  ghost predicate Ordered(ready: seq<Batch>, pending: map<Timestamp, seq<EncodedRow>>, input: Frontier) {
    && (forall i, j :: 0 <= i < j < |ready| ==> ready[i].ts < ready[j].ts)
    && (forall i, t :: 0 <= i < |ready| && t in pending ==> ready[i].ts < t)
    && (forall i :: 0 <= i < |ready| ==> !LessEqual(input, ready[i].ts))
  }

  /** Records that are all at or beyond `f` add rows only at timestamps at or beyond `f`. */
  lemma {:induction false} QueuedBeyond(cfg: Config, records: seq<Record>, f: Frontier, t: Timestamp)
    requires forall i :: 0 <= i < |records| ==> LessEqual(f, records[i].time)
    ensures Queued(cfg, records, t) != [] ==> LessEqual(f, t)
    decreases |records|
  {
    if records != [] {
      assert forall i :: 0 <= i < |records[1..]| ==> records[1..][i] == records[i + 1];
      QueuedBeyond(cfg, records[1..], f, t);
    }
  }

  lemma IngestKeepsOrder(cfg: Config, ready: seq<Batch>, pending: map<Timestamp, seq<EncodedRow>>,
                         records: seq<Record>, prev: Frontier)
    requires Ordered(ready, pending, prev)
    requires forall i :: 0 <= i < |records| ==> LessEqual(prev, records[i].time)
    ensures Ingest(cfg, pending, records).Done? ==> Ordered(ready, Ingest(cfg, pending, records).value, prev)
  {
    IngestMeans(cfg, pending, records);
    if Ingest(cfg, pending, records).Done? {
      var after := Ingest(cfg, pending, records).value;
      forall i, t | 0 <= i < |ready| && t in after
        ensures ready[i].ts < t
      {
        if t !in pending {
          QueuedBeyond(cfg, records, prev, t);
        }
      }
    }
  }

  /** What `CloseMeans` says about a close result `(p, r)` keeps the order. */
  lemma ClosedKeepsOrder(pending: map<Timestamp, seq<EncodedRow>>, ready: seq<Batch>, prev: Frontier, input: Frontier,
                         durability: Frontier, p: map<Timestamp, seq<EncodedRow>>, r: seq<Batch>)
    requires Ordered(ready, pending, prev) && Precedes(prev, input)
    requires forall t :: t in p ==> t in pending && !IsClosed(input, durability, t)
    requires |ready| <= |r| && r[..|ready|] == ready
    requires forall i, j :: |ready| <= i < j < |r| ==> r[i].ts < r[j].ts
    requires forall i :: |ready| <= i < |r| ==> r[i].ts in pending && IsClosed(input, durability, r[i].ts)
    ensures Ordered(r, p, input)
  {
    assert forall i :: 0 <= i < |ready| ==> r[i] == r[..|ready|][i];
    forall i, j | 0 <= i < j < |r|
      ensures r[i].ts < r[j].ts
    {
      if i < |ready| && j >= |ready| {
        assert r[j].ts in pending;
      }
    }
    forall i, t | 0 <= i < |r| && t in p
      ensures r[i].ts < t
    {
      if i >= |ready| {
        assert IsClosed(input, durability, r[i].ts) && !IsClosed(input, durability, t);
      }
    }
  }

  lemma CloseKeepsOrder(pending: map<Timestamp, seq<EncodedRow>>, ready: seq<Batch>, prev: Frontier, input: Frontier,
                        durability: Frontier)
    requires Ordered(ready, pending, prev) && Precedes(prev, input)
    ensures var (p, r) := Close(pending, ready, input, durability); Ordered(r, p, input)
  {
    CloseMeans(pending, ready, input, durability);
    var (p, r) := Close(pending, ready, input, durability);
    ClosedKeepsOrder(pending, ready, prev, input, durability, p, r);
  }

  lemma PoppedKeepsOrder(r: seq<Batch>, p: map<Timestamp, seq<EncodedRow>>, input: Frontier, wf: Frontier, s': Sink)
    requires Ordered(r, p, input) && s'.pending == p && PoppedFrom(r, wf, s')
    ensures Ordered(s'.ready, s'.pending, input)
  {
    var d := |r| - |s'.ready|;
    assert forall i :: 0 <= i < |s'.ready| ==> s'.ready[i] == r[d + i];
  }

  /** Timely's frontier guarantee keeps the ready queue ordered: if every record of a turn is at
      or beyond the input frontier `prev` the previous turn saw, and the input frontier has only
      advanced since, then a completed turn leaves the ready batches strictly ascending, each
      below every pending timestamp and below the new input frontier. In particular no
      timestamp is both ready and pending. */
  lemma TurnKeepsOrder(
    cfg: Config, s: Sink, records: seq<Record>, input: Frontier, durabilities: seq<Frontier>,
    replies: nat -> CallResult, inFlight: nat, prev: Frontier)
    requires Ordered(s.ready, s.pending, prev)
    requires forall i :: 0 <= i < |records| ==> LessEqual(prev, records[i].time)
    requires Precedes(prev, input)
    ensures var t := Turn(cfg, s, records, input, durabilities, replies, inFlight);
            t.Completed? ==> Ordered(t.sink.ready, t.sink.pending, input)
  {
    var t := Turn(cfg, s, records, input, durabilities, replies, inFlight);
    if s.shutdown {
      assert t.sink == s;
    } else if Ingest(cfg, s.pending, records).Done? {
      var pending := Ingest(cfg, s.pending, records).value;
      IngestKeepsOrder(cfg, s.ready, s.pending, records, prev);
      CloseKeepsOrder(pending, s.ready, prev, input, MeetAll(durabilities));
      TurnQueues(cfg, s, records, input, durabilities, replies, inFlight);
      var (p, r) := Close(pending, s.ready, input, MeetAll(durabilities));
      if t.Completed? {
        PoppedKeepsOrder(r, p, input, s.writeFrontier, t.sink);
      }
    }
  }

  // ---------------------------------------------------------------------------
  // The commit assertion never fires

  /** The write frontier is a single timestamp at or below every ready batch, and the ready
      batches have strictly ascending timestamps. */
  ghost predicate CommitsInOrder(s: Sink) {
    && s.writeFrontier.At?
    && (forall i, j :: 0 <= i < j < |s.ready| ==> s.ready[i].ts < s.ready[j].ts)
    && (forall i :: 0 <= i < |s.ready| ==> s.writeFrontier.t <= s.ready[i].ts)
  }

  /** From such a state the loop never trips `assert!(write_frontier.less_equal(ts))`: each
      commit moves the frontier to the front batch's timestamp, which lies below the rest. */
  lemma {:induction false} LoopNeverCommitsBehind(cfg: Config, s: Sink, replies: nat -> CallResult, i: nat,
                                                  ops: seq<BrokerOp>)
    requires CommitsInOrder(s)
    ensures PublishLoop(cfg, s, replies, i, ops) != LoopCrash(WriteFrontierAhead)
    decreases cfg.fuel - i
  {
    if i < cfg.fuel && s.ready != [] {
      var front := s.ready[0];
      var ops' := ops + OpList(IssuedOp(cfg, s.state, front));
      match Step(cfg, s.state, front, s.writeFrontier, replies(i))
      case Goto(next) =>
        LoopNeverCommitsBehind(cfg, s.(state := next), replies, i + 1, ops');
      case Committed =>
        var s' := s.(writeFrontier := At(front.ts), ready := s.ready[1..], state := BeginTxn);
        assert forall k :: 0 <= k < |s'.ready| ==> s'.ready[k] == s.ready[k + 1];
        LoopNeverCommitsBehind(cfg, s', replies, i + 1, ops');
      case _ =>
    }
  }

  /** The write frontier is a single timestamp at or below every ready and every pending
      timestamp, and at or below the input frontier `input`. */
  ghost predicate FrontierBelowQueues(s: Sink, input: Frontier) {
    && s.writeFrontier.At?
    && (forall i :: 0 <= i < |s.ready| ==> s.writeFrontier.t <= s.ready[i].ts)
    && (forall t :: t in s.pending ==> s.writeFrontier.t <= t)
    && Precedes(s.writeFrontier, input)
  }

  /** The state `produce_to_kafka` starts from satisfies both turn invariants when it is handed a
      write frontier holding one timestamp at or below the input frontier, `{0}` for instance. */
  lemma InitialFrontierBelow(w: Timestamp, input: Frontier)
    requires Precedes(At(w), input)
    ensures Ordered([], map[], input)
    ensures FrontierBelowQueues(Sink(map[], [], Init, At(w), false), input)
  {
  }

  /** Records at or beyond `prev`, ingested into a state whose write frontier is below its
      queues and `prev`, make pending only timestamps at or beyond the write frontier. */
  lemma IngestAboveFrontier(cfg: Config, s: Sink, records: seq<Record>, prev: Frontier)
    requires FrontierBelowQueues(s, prev)
    requires forall i :: 0 <= i < |records| ==> LessEqual(prev, records[i].time)
    ensures Ingest(cfg, s.pending, records).Done? ==>
              forall t :: t in Ingest(cfg, s.pending, records).value ==> s.writeFrontier.t <= t
  {
    IngestMeans(cfg, s.pending, records);
    if Ingest(cfg, s.pending, records).Done? {
      forall t | t in Ingest(cfg, s.pending, records).value && t !in s.pending
        ensures s.writeFrontier.t <= t
      {
        QueuedBeyond(cfg, records, prev, t);
      }
    }
  }

  /** What `CloseMeans` says about a close result `(p, r)` keeps everything at or above `w`. */
  lemma ClosedAbove(pending: map<Timestamp, seq<EncodedRow>>, ready: seq<Batch>, w: Timestamp,
                    p: map<Timestamp, seq<EncodedRow>>, r: seq<Batch>)
    requires forall t :: t in pending ==> w <= t
    requires forall i :: 0 <= i < |ready| ==> w <= ready[i].ts
    requires forall t :: t in p ==> t in pending
    requires |ready| <= |r| && r[..|ready|] == ready
    requires forall i :: |ready| <= i < |r| ==> r[i].ts in pending
    ensures forall i :: 0 <= i < |r| ==> w <= r[i].ts
    ensures forall t :: t in p ==> w <= t
  {
    assert forall i :: 0 <= i < |ready| ==> r[i] == r[..|ready|][i];
  }

  lemma CloseAbove(pending: map<Timestamp, seq<EncodedRow>>, ready: seq<Batch>, w: Timestamp, input: Frontier,
                   durability: Frontier)
    requires forall t :: t in pending ==> w <= t
    requires forall i :: 0 <= i < |ready| ==> w <= ready[i].ts
    ensures var (p, r) := Close(pending, ready, input, durability);
            (forall i :: 0 <= i < |r| ==> w <= r[i].ts) && (forall t :: t in p ==> w <= t)
  {
    CloseMeans(pending, ready, input, durability);
    var (p, r) := Close(pending, ready, input, durability);
    ClosedAbove(pending, ready, w, p, r);
  }

  /** Popping front batches of an ordered queue, with the write frontier at the last popped one,
      keeps the write frontier below the queues and the input frontier. */
  lemma PoppedKeepsBelow(r: seq<Batch>, p: map<Timestamp, seq<EncodedRow>>, input: Frontier, wf: Frontier, s': Sink)
    requires Ordered(r, p, input)
    requires wf.At? && Precedes(wf, input)
    requires (forall i :: 0 <= i < |r| ==> wf.t <= r[i].ts) && (forall t :: t in p ==> wf.t <= t)
    requires s'.pending == p && PoppedFrom(r, wf, s')
    ensures FrontierBelowQueues(s', input)
  {
    var d := |r| - |s'.ready|;
    assert forall i :: 0 <= i < |s'.ready| ==> s'.ready[i] == r[d + i];
  }

  /** After ingest and close, the queues are ordered and at or above the write frontier. */
  lemma QueuesBeforeLoop(cfg: Config, s: Sink, records: seq<Record>, input: Frontier, durability: Frontier,
                         prev: Frontier)
    requires Ordered(s.ready, s.pending, prev) && FrontierBelowQueues(s, prev)
    requires forall i :: 0 <= i < |records| ==> LessEqual(prev, records[i].time)
    requires Precedes(prev, input)
    ensures Ingest(cfg, s.pending, records).Done? ==>
              var (p, r) := Close(Ingest(cfg, s.pending, records).value, s.ready, input, durability);
              && Ordered(r, p, input)
              && (forall i :: 0 <= i < |r| ==> s.writeFrontier.t <= r[i].ts)
              && (forall t :: t in p ==> s.writeFrontier.t <= t)
    ensures Precedes(s.writeFrontier, input)
  {
    if Ingest(cfg, s.pending, records).Done? {
      var pending := Ingest(cfg, s.pending, records).value;
      IngestKeepsOrder(cfg, s.ready, s.pending, records, prev);
      CloseKeepsOrder(pending, s.ready, prev, input, durability);
      IngestAboveFrontier(cfg, s, records, prev);
      CloseAbove(pending, s.ready, s.writeFrontier.t, input, durability);
    }
  }

  /** Under timely's frontier guarantee, as for `TurnKeepsOrder`, and with the write frontier
      below the queues and the previous input frontier, a turn never trips the commit assertion
      (kafka.rs:580). With `TurnKeepsOrder`, `TurnKeepsFrontierBelow` and `InitialFrontierBelow`,
      no sequence of turns from the initial state reaches `WriteFrontierAhead`. */
  lemma TurnNeverCommitsBehind(
    cfg: Config, s: Sink, records: seq<Record>, input: Frontier, durabilities: seq<Frontier>,
    replies: nat -> CallResult, inFlight: nat, prev: Frontier)
    requires Ordered(s.ready, s.pending, prev) && FrontierBelowQueues(s, prev)
    requires forall i :: 0 <= i < |records| ==> LessEqual(prev, records[i].time)
    requires Precedes(prev, input)
    ensures Turn(cfg, s, records, input, durabilities, replies, inFlight) != Crashed(WriteFrontierAhead)
  {
    if !s.shutdown && Ingest(cfg, s.pending, records).Done? {
      var pending := Ingest(cfg, s.pending, records).value;
      QueuesBeforeLoop(cfg, s, records, input, MeetAll(durabilities), prev);
      var (p, r) := Close(pending, s.ready, input, MeetAll(durabilities));
      var s0 := s.(pending := p, ready := r);
      assert CommitsInOrder(s0);
      LoopNeverCommitsBehind(cfg, s0, replies, 0, []);
      assert TurnLoop(cfg, s, pending, input, durabilities, replies) == PublishLoop(cfg, s0, replies, 0, []);
      TurnIsLoop(cfg, s, records, input, durabilities, replies, inFlight);
    } else if !s.shutdown {
      IngestMeans(cfg, s.pending, records);
    }
  }

  /** Under the same hypotheses a completed turn keeps the write frontier a single timestamp at
      or below every ready and pending timestamp and at or below the new input frontier. */
  lemma TurnKeepsFrontierBelow(
    cfg: Config, s: Sink, records: seq<Record>, input: Frontier, durabilities: seq<Frontier>,
    replies: nat -> CallResult, inFlight: nat, prev: Frontier)
    requires Ordered(s.ready, s.pending, prev) && FrontierBelowQueues(s, prev)
    requires forall i :: 0 <= i < |records| ==> LessEqual(prev, records[i].time)
    requires Precedes(prev, input)
    ensures var t := Turn(cfg, s, records, input, durabilities, replies, inFlight);
            t.Completed? ==> FrontierBelowQueues(t.sink, input)
  {
    var t := Turn(cfg, s, records, input, durabilities, replies, inFlight);
    if s.shutdown {
      assert t.sink == s;
    } else if Ingest(cfg, s.pending, records).Done? {
      var pending := Ingest(cfg, s.pending, records).value;
      QueuesBeforeLoop(cfg, s, records, input, MeetAll(durabilities), prev);
      TurnQueues(cfg, s, records, input, durabilities, replies, inFlight);
      TurnPastFlag(cfg, s, records, input, durabilities, replies, inFlight);
      var (p, r) := Close(pending, s.ready, input, MeetAll(durabilities));
      BelowAfterLoop(r, p, input, s.writeFrontier, t);
    }
  }

  /** A turn entered with the flag clear does not end by the flag check. */
  lemma TurnPastFlag(
    cfg: Config, s: Sink, records: seq<Record>, input: Frontier, durabilities: seq<Frontier>,
    replies: nat -> CallResult, inFlight: nat)
    requires !s.shutdown
    ensures var t := Turn(cfg, s, records, input, durabilities, replies, inFlight);
            t.Completed? ==> t.exit != FlagSet
  {
  }

  lemma BelowAfterLoop(r: seq<Batch>, p: map<Timestamp, seq<EncodedRow>>, input: Frontier, wf: Frontier, t: TurnResult)
    requires Ordered(r, p, input)
    requires wf.At? && Precedes(wf, input)
    requires (forall i :: 0 <= i < |r| ==> wf.t <= r[i].ts) && (forall t :: t in p ==> wf.t <= t)
    requires t.Completed? && t.exit != FlagSet ==> t.sink.pending == p && PoppedFrom(r, wf, t.sink)
    requires t.Completed? ==> t.exit != FlagSet
    ensures t.Completed? ==> FrontierBelowQueues(t.sink, input)
  {
    if t.Completed? {
      PoppedKeepsBelow(r, p, input, wf, t.sink);
    }
  }

  /** How a turn ends: it does nothing and asks not to run again exactly when the flag was set on
      entry; after a failed send it asks to run again exactly when the failure did not set the
      flag; after the loop the flag is clear, and it asks to run again exactly when batches are
      still ready or messages are still in flight. */
  lemma TurnExit(
    cfg: Config, s: Sink, records: seq<Record>, input: Frontier, durabilities: seq<Frontier>,
    replies: nat -> CallResult, inFlight: nat)
    ensures var t := Turn(cfg, s, records, input, durabilities, replies, inFlight);
            s.shutdown ==> t == Completed(s, false, [], FlagSet)
    ensures var t := Turn(cfg, s, records, input, durabilities, replies, inFlight);
            t.Completed? && t.exit == SendError ==> (t.reschedule <==> !t.sink.shutdown)
    ensures var t := Turn(cfg, s, records, input, durabilities, replies, inFlight);
            t.Completed? && t.exit == AfterLoop ==>
              !t.sink.shutdown && (t.reschedule <==> t.sink.ready != [] || inFlight > 0)
  {
    if !s.shutdown && Ingest(cfg, s.pending, records).Done? {
      var pending := Ingest(cfg, s.pending, records).value;
      var (p, r) := Close(pending, s.ready, input, MeetAll(durabilities));
      LoopFlag(cfg, s.(pending := p, ready := r), replies, 0, []);
    }
  }

  /** A turn in the `Shutdown` state makes no broker call and stays in `Shutdown`, with the
      write frontier untouched.  Because that arm stores `false` into the flag, the turn ends
      through the re-activation decision: with batches still ready it asks to run again. */
  lemma TurnInShutdown(
    cfg: Config, s: Sink, records: seq<Record>, input: Frontier, durabilities: seq<Frontier>,
    replies: nat -> CallResult, inFlight: nat)
    requires s.state == Shutdown
    ensures var t := Turn(cfg, s, records, input, durabilities, replies, inFlight);
            t.Completed? ==>
              && t.ops == [] && t.sink.state == Shutdown && t.sink.writeFrontier == s.writeFrontier
              && (t.exit == FlagSet || (t.exit == AfterLoop && !t.sink.shutdown))
              && (!s.shutdown && s.ready != [] ==> t.reschedule)
  {
    if !s.shutdown && Ingest(cfg, s.pending, records).Done? {
      var pending := Ingest(cfg, s.pending, records).value;
      CloseMeans(pending, s.ready, input, MeetAll(durabilities));
      var (p, r) := Close(pending, s.ready, input, MeetAll(durabilities));
      TurnIsLoop(cfg, s, records, input, durabilities, replies, inFlight);
      if 0 < cfg.fuel && r != [] {
        ShutdownIsSticky(cfg, r[0], s.writeFrontier, replies(0));
        assert r[..|s.ready|] == s.ready;
      }
    }
  }

  /** A fatal send failure sets the flag, so every later turn does nothing and asks not to run again. */
  lemma FatalSendLatches(
    cfg: Config, s: Sink, records: seq<Record>, input: Frontier, durabilities: seq<Frontier>,
    replies: nat -> CallResult, inFlight: nat,
    records': seq<Record>, input': Frontier, durabilities': seq<Frontier>, replies': nat -> CallResult, inFlight': nat)
    requires var t := Turn(cfg, s, records, input, durabilities, replies, inFlight);
             t.Completed? && t.exit == SendError && !t.reschedule
    ensures var t := Turn(cfg, s, records, input, durabilities, replies, inFlight);
            Turn(cfg, t.sink, records', input', durabilities', replies', inFlight') == Completed(t.sink, false, [], FlagSet)
  {
    TurnExit(cfg, s, records, input, durabilities, replies, inFlight);
  }

  /** A loop started on a non-empty queue first makes the call of the state on its front batch. */
  lemma LoopFirstOp(cfg: Config, s: Sink, replies: nat -> CallResult, m: BrokerOp)
    requires 0 < cfg.fuel && s.ready != [] && IssuedOp(cfg, s.state, s.ready[0]) == Some(m)
    ensures var r := PublishLoop(cfg, s, replies, 0, []);
            !r.LoopCrash? ==> r.ops != [] && r.ops[0] == m
  {
    LoopBounds(cfg, s, replies, 0, []);
    assert [] + OpList(IssuedOp(cfg, s.state, s.ready[0])) == [m];
    match Step(cfg, s.state, s.ready[0], s.writeFrontier, replies(0))
    case Goto(next) =>
      LoopBounds(cfg, s.(state := next), replies, 1, [m]);
      assert PublishLoop(cfg, s, replies, 0, []) == PublishLoop(cfg, s.(state := next), replies, 1, [m]);
    case Committed =>
      LoopBounds(cfg, s.(writeFrontier := At(s.ready[0].ts), ready := s.ready[1..], state := BeginTxn), replies, 1, [m]);
    case _ =>
  }

  /** A turn that returns because a send failed keeps the front batch queued and the state
      whose message failed; its last broker call is that message. */
  lemma TurnReturnedKeepsState(
    cfg: Config, s: Sink, records: seq<Record>, input: Frontier, durabilities: seq<Frontier>,
    replies: nat -> CallResult, inFlight: nat)
    ensures var t := Turn(cfg, s, records, input, durabilities, replies, inFlight);
            t.Completed? && t.exit == SendError ==>
              && t.sink.ready != [] && t.ops != []
              && IssuedOp(cfg, t.sink.state, t.sink.ready[0]) == Some(t.ops[|t.ops| - 1])
              && t.ops[|t.ops| - 1].Send?
  {
    if !s.shutdown && Ingest(cfg, s.pending, records).Done? {
      var pending := Ingest(cfg, s.pending, records).value;
      var (p, r) := Close(pending, s.ready, input, MeetAll(durabilities));
      TurnIsLoop(cfg, s, records, input, durabilities, replies, inFlight);
      LoopReturnedKeepsState(cfg, s.(pending := p, ready := r), replies, 0, []);
    }
  }

  /** A turn entered with the flag clear and a batch at the front first makes the call of the
      state on that batch: closing only appends behind it. */
  lemma TurnFirstOp(
    cfg: Config, s: Sink, records: seq<Record>, input: Frontier, durabilities: seq<Frontier>,
    replies: nat -> CallResult, inFlight: nat, m: BrokerOp)
    requires 0 < cfg.fuel && !s.shutdown && s.ready != [] && IssuedOp(cfg, s.state, s.ready[0]) == Some(m)
    ensures var t := Turn(cfg, s, records, input, durabilities, replies, inFlight);
            t.Completed? ==> t.ops != [] && t.ops[0] == m
  {
    if Ingest(cfg, s.pending, records).Done? {
      var pending := Ingest(cfg, s.pending, records).value;
      CloseMeans(pending, s.ready, input, MeetAll(durabilities));
      var (p, r) := Close(pending, s.ready, input, MeetAll(durabilities));
      assert r[0] == r[..|s.ready|][0];
      TurnIsLoop(cfg, s, records, input, durabilities, replies, inFlight);
      LoopFirstOp(cfg, s.(pending := p, ready := r), replies, m);
    }
  }

  /** After a send that failed only because the local queue was full, the turn asks to run
      again with the flag clear, and the next turn's first broker call is that same message. */
  lemma RetrySendsSameMessage(
    cfg: Config, s: Sink, records: seq<Record>, input: Frontier, durabilities: seq<Frontier>,
    replies: nat -> CallResult, inFlight: nat,
    records': seq<Record>, input': Frontier, durabilities': seq<Frontier>, replies': nat -> CallResult, inFlight': nat)
    requires 0 < cfg.fuel
    requires var t := Turn(cfg, s, records, input, durabilities, replies, inFlight);
             t.Completed? && t.exit == SendError && t.reschedule
    requires var t := Turn(cfg, s, records, input, durabilities, replies, inFlight);
             Turn(cfg, t.sink, records', input', durabilities', replies', inFlight').Completed?
    ensures var t := Turn(cfg, s, records, input, durabilities, replies, inFlight);
            var t' := Turn(cfg, t.sink, records', input', durabilities', replies', inFlight');
            && !t.sink.shutdown && t.ops != [] && t'.ops != []
            && t'.ops[0] == t.ops[|t.ops| - 1] && t'.ops[0].Send?
  {
    var t := Turn(cfg, s, records, input, durabilities, replies, inFlight);
    TurnExit(cfg, s, records, input, durabilities, replies, inFlight);
    TurnReturnedKeepsState(cfg, s, records, input, durabilities, replies, inFlight);
    TurnFirstOp(cfg, t.sink, records', input', durabilities', replies', inFlight', t.ops[|t.ops| - 1]);
  }
}
