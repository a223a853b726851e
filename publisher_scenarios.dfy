/**
  Concrete publisher turns: a batch with repeated rows, a gated update, a transactional
  batch with consistency markers, and a full local queue in the middle of a batch.
 */
module PublisherScenarios {
  import opened Wrappers
  import opened Frontiers
  import opened KafkaTypes
  import opened Protocol
  import opened Publisher

  function AllOk(): nat -> CallResult {
    _ => Ok
  }

  /** One iteration of the loop that assigns a new state. */
  lemma LoopGoto(cfg: Config, s: Sink, replies: nat -> CallResult, i: nat, ops: seq<BrokerOp>, next: SendState, made: seq<BrokerOp>)
    requires i < cfg.fuel && s.ready != []
    requires Step(cfg, s.state, s.ready[0], s.writeFrontier, replies(i)) == Goto(next)
    requires made == ops + OpList(IssuedOp(cfg, s.state, s.ready[0]))
    ensures PublishLoop(cfg, s, replies, i, ops) == PublishLoop(cfg, s.(state := next), replies, i + 1, made)
  {
  }

  /** One iteration of the loop that commits the front batch. */
  lemma LoopCommit(cfg: Config, s: Sink, replies: nat -> CallResult, i: nat, ops: seq<BrokerOp>, made: seq<BrokerOp>)
    requires i < cfg.fuel && s.ready != []
    requires Step(cfg, s.state, s.ready[0], s.writeFrontier, replies(i)) == Committed
    requires made == ops + OpList(IssuedOp(cfg, s.state, s.ready[0]))
    ensures PublishLoop(cfg, s, replies, i, ops) ==
              PublishLoop(cfg, s.(writeFrontier := At(s.ready[0].ts), ready := s.ready[1..], state := BeginTxn), replies, i + 1, made)
  {
  }

  /** One iteration of the loop whose send fails. */
  lemma LoopSendFails(cfg: Config, s: Sink, replies: nat -> CallResult, i: nat, ops: seq<BrokerOp>, retry: bool, made: seq<BrokerOp>)
    requires i < cfg.fuel && s.ready != []
    requires Step(cfg, s.state, s.ready[0], s.writeFrontier, replies(i)) == SendFailed(retry)
    requires made == ops + OpList(IssuedOp(cfg, s.state, s.ready[0]))
    ensures PublishLoop(cfg, s, replies, i, ops) == Returned(s.(shutdown := s.shutdown || !retry), retry, made)
  {
  }

  function PlainConfig(): Config {
    Config("out", false, None, 10, SinkAsOf(At(0), false))
  }

  function Rows5(): seq<EncodedRow> {
    [EncodedRow(None, Some([1]), 1), EncodedRow(None, Some([2]), 2), EncodedRow(None, Some([3]), 1)]
  }

  function Records5(): seq<Record> {
    [Record(None, Some([1]), 5, 1), Record(None, Some([2]), 5, 2), Record(None, Some([3]), 5, 1)]
  }

  lemma IngestRecords5()
    ensures Ingest(PlainConfig(), map[], Records5()) == Done(map[5 := Rows5()])
  {
    var cfg, rs := PlainConfig(), Records5();
    var r1, r2, r3 := EncodedRow(None, Some([1]), 1), EncodedRow(None, Some([2]), 2), EncodedRow(None, Some([3]), 1);
    assert Admissible(cfg.asOf, GateTs(cfg.consistency), 5);
    assert RowsAt(map[], 5) + [r1] == [r1];
    assert IngestRecord(cfg, map[], rs[0]) == Done(map[5 := [r1]]);
    assert RowsAt(map[5 := [r1]], 5) + [r2] == [r1, r2];
    assert map[5 := [r1]][5 := [r1, r2]] == map[5 := [r1, r2]];
    assert IngestRecord(cfg, map[5 := [r1]], rs[1]) == Done(map[5 := [r1, r2]]);
    assert RowsAt(map[5 := [r1, r2]], 5) + [r3] == Rows5();
    assert map[5 := [r1, r2]][5 := Rows5()] == map[5 := Rows5()];
    assert IngestRecord(cfg, map[5 := [r1, r2]], rs[2]) == Done(map[5 := Rows5()]);
    assert rs[1..] == [rs[1], rs[2]] && rs[1..][1..] == [rs[2]] && rs[1..][1..][1..] == [];
  }


  lemma MeetOne(u: Timestamp)
    ensures MeetAll([At(u)]) == At(u)
  {
    assert [At(u)][..0] == [];
  }

  lemma ClosedOne(t: Timestamp, rows: seq<EncodedRow>, u: Timestamp)
    requires t < u
    ensures ClosedSet(map[t := rows], At(u), At(u)) == {t}
  {
  }

  lemma SortedOne(t: Timestamp)
    ensures Sorted.SortedSeq({t}) == [t]
  {
    var sorted := Sorted.SortedSeq({t});
    assert |sorted| == 1 && sorted[0] in {t};
  }

  /** The only pending timestamp is closed once the input and its single source are past it. */
  lemma CloseSingle(t: Timestamp, rows: seq<EncodedRow>, u: Timestamp)
    requires t < u
    ensures Close(map[t := rows], [], At(u), MeetAll([At(u)])) == (map[], [Batch(t, rows)])
  {
    MeetOne(u);
    ClosedOne(t, rows, u);
    SortedOne(t);
    assert map[t := rows] - {t} == map[];
    assert Batches(map[t := rows], [t]) == [Batch(t, rows)];
    assert [] + [Batch(t, rows)] == [Batch(t, rows)];
  }

  function Data(b: byte): BrokerOp {
    Send(Protocol.Data("out", None, Some([b])))
  }

  /** Set-up and the first data message. */
  lemma LoopRows5Start()
    ensures var s := Sink(map[], [Batch(5, Rows5())], Init, At(0), false);
            PublishLoop(PlainConfig(), s, AllOk(), 0, []) ==
              PublishLoop(PlainConfig(), s.(state := Draining(1, 0, 1)), AllOk(), 4, [Data(1)])
  {
    var cfg, r := PlainConfig(), AllOk();
    var s := Sink(map[], [Batch(5, Rows5())], Init, At(0), false);
    LoopGoto(cfg, s, r, 0, [], BeginTxn, []);
    LoopGoto(cfg, s.(state := BeginTxn), r, 1, [], Begin, []);
    LoopGoto(cfg, s.(state := Begin), r, 2, [], Draining(0, 0, 0), []);
    LoopGoto(cfg, s.(state := Draining(0, 0, 0)), r, 3, [], Draining(1, 0, 1), [Data(1)]);
  }

  /** The second row twice and the third once. */
  lemma LoopRows5Drain()
    ensures var s := Sink(map[], [Batch(5, Rows5())], Draining(1, 0, 1), At(0), false);
            PublishLoop(PlainConfig(), s, AllOk(), 4, [Data(1)]) ==
              PublishLoop(PlainConfig(), s.(state := End(4)), AllOk(), 7, [Data(1), Data(2), Data(2), Data(3)])
  {
    var cfg, r := PlainConfig(), AllOk();
    var s := Sink(map[], [Batch(5, Rows5())], Draining(1, 0, 1), At(0), false);
    LoopGoto(cfg, s, r, 4, [Data(1)], Draining(1, 1, 2), [Data(1), Data(2)]);
    LoopGoto(cfg, s.(state := Draining(1, 1, 2)), r, 5, [Data(1), Data(2)], Draining(2, 0, 3), [Data(1), Data(2), Data(2)]);
    LoopGoto(cfg, s.(state := Draining(2, 0, 3)), r, 6, [Data(1), Data(2), Data(2)], End(4), [Data(1), Data(2), Data(2), Data(3)]);
  }

  /** The silent end marker and commit, and the empty queue stops the loop. */
  lemma LoopRows5Commit()
    ensures var s := Sink(map[], [Batch(5, Rows5())], End(4), At(0), false);
            var ops := [Data(1), Data(2), Data(2), Data(3)];
            PublishLoop(PlainConfig(), s, AllOk(), 7, ops) == Finished(Sink(map[], [], BeginTxn, At(5), false), ops)
  {
    var cfg, r := PlainConfig(), AllOk();
    var s := Sink(map[], [Batch(5, Rows5())], End(4), At(0), false);
    var ops := [Data(1), Data(2), Data(2), Data(3)];
    LoopGoto(cfg, s, r, 7, ops, CommitTxn, ops);
    LoopCommit(cfg, s.(state := CommitTxn), r, 8, ops, ops);
  }

  /** Three rows at time 5 with multiplicities 1, 2 and 1, no transactions and no consistency
      topic, both frontiers past 5: four data messages, the write frontier becomes `{5}` and
      nothing stays ready. */
  lemma RepeatedRowsScenario()
    ensures Turn(PlainConfig(), Sink(map[], [], Init, At(0), false), Records5(), At(6), [At(6)], AllOk(), 0) ==
              Completed(Sink(map[], [], BeginTxn, At(5), false), false, [Data(1), Data(2), Data(2), Data(3)], AfterLoop)
  {
    IngestRecords5();
    CloseSingle(5, Rows5(), 6);
    LoopRows5Start();
    LoopRows5Drain();
    LoopRows5Commit();
  }

  // ---------------------------------------------------------------------------

  function GatedConfig(): Config {
    Config("out", false, Some(Consistency("progress", 1, Some(3))), 10, SinkAsOf(At(0), false))
  }

  /** An update at time 3 with the consistency topic's gate at 3 is dropped at ingest: nothing
      is queued and no broker call is made. */
  lemma GatedScenario()
    ensures Turn(GatedConfig(), Sink(map[], [], Init, At(0), false), [Record(None, Some([1]), 3, 1)], At(6), [], AllOk(), 0) ==
              Completed(Sink(map[], [], Init, At(0), false), false, [], AfterLoop)
  {
    var cfg := GatedConfig();
    assert !Admissible(cfg.asOf, GateTs(cfg.consistency), 3);
    assert Ingest(cfg, map[], [Record(None, Some([1]), 3, 1)]) == Done(map[]);
    assert ClosedSet(map[], At(6), MeetAll([])) == {};
    assert Sorted.SortedSeq({}) == [];
  }

  // ---------------------------------------------------------------------------

  function TxnConfig(): Config {
    Config("out", true, Some(Consistency("progress", 1, None)), 10, SinkAsOf(At(0), false))
  }

  function Marker7(status: MarkerStatus, count: Option<nat>): BrokerOp {
    Send(Marker("progress", 1, 7, status, count))
  }

  function Row7(): seq<EncodedRow> {
    [EncodedRow(None, Some([7]), 1)]
  }

  lemma TxnLoopStart()
    ensures var s := Sink(map[], [Batch(7, Row7())], Init, At(0), false);
            PublishLoop(TxnConfig(), s, AllOk(), 0, []) ==
              PublishLoop(TxnConfig(), s.(state := Draining(0, 0, 0)), AllOk(), 3,
                          [InitTransactions, BeginTransaction, Marker7(BeginMarker, None)])
  {
    var cfg, r := TxnConfig(), AllOk();
    var s := Sink(map[], [Batch(7, Row7())], Init, At(0), false);
    LoopGoto(cfg, s, r, 0, [], BeginTxn, [InitTransactions]);
    LoopGoto(cfg, s.(state := BeginTxn), r, 1, [InitTransactions], Begin, [InitTransactions, BeginTransaction]);
    LoopGoto(cfg, s.(state := Begin), r, 2, [InitTransactions, BeginTransaction], Draining(0, 0, 0),
             [InitTransactions, BeginTransaction, Marker7(BeginMarker, None)]);
  }

  lemma TxnLoopFinish()
    ensures var s := Sink(map[], [Batch(7, Row7())], Draining(0, 0, 0), At(0), false);
            var ops := [InitTransactions, BeginTransaction, Marker7(BeginMarker, None)];
            PublishLoop(TxnConfig(), s, AllOk(), 3, ops) ==
              Finished(Sink(map[], [], BeginTxn, At(7), false),
                       ops + [Send(Protocol.Data("out", None, Some([7]))), Marker7(EndMarker, Some(1)), CommitTransaction])
  {
    var cfg, r := TxnConfig(), AllOk();
    var s := Sink(map[], [Batch(7, Row7())], Draining(0, 0, 0), At(0), false);
    var ops := [InitTransactions, BeginTransaction, Marker7(BeginMarker, None)];
    var d := Send(Protocol.Data("out", None, Some([7])));
    var e := Marker7(EndMarker, Some(1));
    LoopGoto(cfg, s, r, 3, ops, End(1), ops + [d]);
    LoopGoto(cfg, s.(state := End(1)), r, 4, ops + [d], CommitTxn, ops + [d, e]);
    LoopCommit(cfg, s.(state := CommitTxn), r, 5, ops + [d, e], ops + [d, e, CommitTransaction]);
  }

  /** With transactions and a consistency topic, one row at time 7 makes the broker calls in
      order: initialise and begin the transaction, the BEGIN marker, the data message, the END
      marker carrying the count 1, the commit; the write frontier becomes `{7}`. */
  lemma TransactionalScenario()
    ensures PublishLoop(TxnConfig(), Sink(map[], [Batch(7, Row7())], Init, At(0), false), AllOk(), 0, []) ==
              Finished(Sink(map[], [], BeginTxn, At(7), false),
                       [InitTransactions, BeginTransaction, Marker7(BeginMarker, None),
                        Send(Protocol.Data("out", None, Some([7]))), Marker7(EndMarker, Some(1)), CommitTransaction])
  {
    TxnLoopStart();
    TxnLoopFinish();
  }

  // ---------------------------------------------------------------------------

  function FullAtFour(): nat -> CallResult {
    i => if i == 4 then Err(MessageProduction(QueueFull)) else Ok
  }

  function Rows3(): seq<EncodedRow> {
    [EncodedRow(None, Some([1]), 1), EncodedRow(None, Some([2]), 1), EncodedRow(None, Some([3]), 1)]
  }

  function Records3(): seq<Record> {
    [Record(None, Some([1]), 5, 1), Record(None, Some([2]), 5, 1), Record(None, Some([3]), 5, 1)]
  }

  lemma IngestRecords3()
    ensures Ingest(PlainConfig(), map[], Records3()) == Done(map[5 := Rows3()])
  {
    var cfg, rs := PlainConfig(), Records3();
    var r1, r2, r3 := Rows3()[0], Rows3()[1], Rows3()[2];
    assert Admissible(cfg.asOf, GateTs(cfg.consistency), 5);
    assert RowsAt(map[], 5) + [r1] == [r1];
    assert IngestRecord(cfg, map[], rs[0]) == Done(map[5 := [r1]]);
    assert RowsAt(map[5 := [r1]], 5) + [r2] == [r1, r2];
    assert map[5 := [r1]][5 := [r1, r2]] == map[5 := [r1, r2]];
    assert IngestRecord(cfg, map[5 := [r1]], rs[1]) == Done(map[5 := [r1, r2]]);
    assert RowsAt(map[5 := [r1, r2]], 5) + [r3] == Rows3();
    assert map[5 := [r1, r2]][5 := Rows3()] == map[5 := Rows3()];
    assert IngestRecord(cfg, map[5 := [r1, r2]], rs[2]) == Done(map[5 := Rows3()]);
    assert rs[1..] == [rs[1], rs[2]] && rs[1..][1..] == [rs[2]] && rs[1..][1..][1..] == [];
  }


  /** Nothing new pending: closing leaves the ready queue as it is. */
  lemma CloseNothing(ready: seq<Batch>)
    ensures Close(map[], ready, At(6), MeetAll([At(6)])) == (map[], ready)
  {
    assert ClosedSet(map[], At(6), MeetAll([At(6)])) == {};
    assert Sorted.SortedSeq({}) == [];
    assert ready + [] == ready;
  }

  lemma QueueFullLoop()
    ensures var s := Sink(map[], [Batch(5, Rows3())], Init, At(0), false);
            PublishLoop(PlainConfig(), s, FullAtFour(), 0, []) ==
              Returned(s.(state := Draining(1, 0, 1)), true, [Data(1), Data(2)])
  {
    var cfg, r := PlainConfig(), FullAtFour();
    var s := Sink(map[], [Batch(5, Rows3())], Init, At(0), false);
    LoopGoto(cfg, s, r, 0, [], BeginTxn, []);
    LoopGoto(cfg, s.(state := BeginTxn), r, 1, [], Begin, []);
    LoopGoto(cfg, s.(state := Begin), r, 2, [], Draining(0, 0, 0), []);
    LoopGoto(cfg, s.(state := Draining(0, 0, 0)), r, 3, [], Draining(1, 0, 1), [Data(1)]);
    LoopSendFails(cfg, s.(state := Draining(1, 0, 1)), r, 4, [Data(1)], true, [Data(1), Data(2)]);
  }

  lemma RetryLoop()
    ensures var s := Sink(map[], [Batch(5, Rows3())], Draining(1, 0, 1), At(0), false);
            PublishLoop(PlainConfig(), s, AllOk(), 0, []) ==
              Finished(Sink(map[], [], BeginTxn, At(5), false), [Data(2), Data(3)])
  {
    var cfg, r := PlainConfig(), AllOk();
    var s := Sink(map[], [Batch(5, Rows3())], Draining(1, 0, 1), At(0), false);
    LoopGoto(cfg, s, r, 0, [], Draining(2, 0, 2), [Data(2)]);
    LoopGoto(cfg, s.(state := Draining(2, 0, 2)), r, 1, [Data(2)], End(3), [Data(2), Data(3)]);
    LoopGoto(cfg, s.(state := End(3)), r, 2, [Data(2), Data(3)], CommitTxn, [Data(2), Data(3)]);
    LoopCommit(cfg, s.(state := CommitTxn), r, 3, [Data(2), Data(3)], [Data(2), Data(3)]);
  }

  /** The local queue is full when the second of three rows is sent: the turn returns asking to
      run again, without the shutdown flag, still draining the second row; the next turn sends
      that second row first, then the third, and commits. */
  lemma QueueFullScenario()
    ensures Turn(PlainConfig(), Sink(map[], [], Init, At(0), false), Records3(), At(6), [At(6)], FullAtFour(), 0) ==
              Completed(Sink(map[], [Batch(5, Rows3())], Draining(1, 0, 1), At(0), false), true, [Data(1), Data(2)], SendError)
    ensures Turn(PlainConfig(), Sink(map[], [Batch(5, Rows3())], Draining(1, 0, 1), At(0), false), [], At(6), [At(6)], AllOk(), 0) ==
              Completed(Sink(map[], [], BeginTxn, At(5), false), false, [Data(2), Data(3)], AfterLoop)
  {
    IngestRecords3();
    CloseSingle(5, Rows3(), 6);
    QueueFullLoop();
    CloseNothing([Batch(5, Rows3())]);
    RetryLoop();
  }
}
