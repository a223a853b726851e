/**
  Concrete turns of the Avro encoding operator.
 */
module AvroEncodeScenarios {
  import opened Wrappers
  import opened Frontiers
  import opened KafkaTypes
  import opened Sorted
  import opened AvroEncode

  function Plain(fuel: nat): Settings {
    Settings(SinkAsOf(At(0), false), None, None, 1, fuel)
  }

  function Values(): Encoder<int> {
    Encoder((id, r) => [], (id, r) => [1])
  }

  function V(t: Timestamp): Update<int> {
    Update(None, Some(0), t, 1)
  }

  function Encoded(cap: Timestamp, t: Timestamp): Output {
    Output(cap, Record(None, Some([1]), t, 1))
  }

  lemma FilterTwo(s: Settings)
    requires s.asOf == SinkAsOf(At(0), false) && s.gate == None
    ensures Filter(s, [V(1), V(3)]) == [V(1), V(3)]
  {
    var two := [V(1), V(3)];
    assert two[..1] == [V(1)];
    assert two[..1][..0] == [];
    assert Filter(s, [V(1)]) == [V(1)];
  }

  lemma FilterOne(s: Settings, t: Timestamp)
    requires s.asOf == SinkAsOf(At(0), false) && s.gate == None
    ensures Filter(s, [V(t)]) == [V(t)]
  {
    assert [V(t)][..0] == [];
  }

  lemma StashTwoCapabilities()
    ensures StashAll(Plain(2), map[], [InputBatch(2, [V(2)]), InputBatch(1, [V(1), V(3)])]) ==
      map[2 := [V(2)], 1 := [V(1), V(3)]]
  {
    var s := Plain(2);
    var b0, b1 := InputBatch(2, [V(2)]), InputBatch(1, [V(1), V(3)]);
    FilterOne(s, 2);
    FilterTwo(s);
    var m1 := StashBatch(s, map[], b0);
    assert m1 == map[2 := [V(2)]] by {
      assert Stashed(map[], 2) + [V(2)] == [V(2)];
    }
    var m2 := StashBatch(s, m1, b1);
    assert m2 == map[2 := [V(2)], 1 := [V(1), V(3)]] by {
      assert Stashed(m1, 1) == [];
      assert [] + [V(1), V(3)] == [V(1), V(3)];
    }
    var input := [b0, b1];
    assert input[1..] == [b1];
    assert StashAll(s, m1, [b1]) == StashAll(s, m2, []) by {
      assert [b1][1..] == [];
    }
  }

  lemma EncodeTwo(s: Settings)
    requires s == Plain(2)
    ensures EncodeEntries(s, Values(), [Entry(1, V(1)), Entry(1, V(3))]) == Done([Encoded(1, 1), Encoded(1, 3)])
  {
    var enc := Values();
    var run := [Entry(1, V(1)), Entry(1, V(3))];
    assert Out(s, enc, run[0]) == Encoded(1, 1);
    assert Out(s, enc, run[1]) == Encoded(1, 3);
    assert run[1..] == [Entry(1, V(3))];
    assert run[1..][1..] == [];
    assert EncodeEntries(s, enc, run[1..][1..]) == Done([]);
    assert EncodeEntries(s, enc, run[1..]) == Then([Encoded(1, 3)], Done([]));
    assert [Encoded(1, 3)] + [] == [Encoded(1, 3)];
    assert EncodeEntries(s, enc, run[1..]) == Done([Encoded(1, 3)]);
    assert !NeedsKeySchema(s, run[0].update);
    assert EncodeEntries(s, enc, run) == Then([Encoded(1, 1)], Done([Encoded(1, 3)]));
    assert [Encoded(1, 1)] + [Encoded(1, 3)] == [Encoded(1, 1), Encoded(1, 3)];
  }

  /** With fuel for two updates, capability 1 is drained first although it arrived after
      capability 2; capability 2 stays stashed and the turn asks to run again. */
  lemma LowestCapabilityFirst()
    ensures EncodeTurn(Plain(2), Values(), map[], [InputBatch(2, [V(2)]), InputBatch(1, [V(1), V(3)])]) ==
      Done(TurnResult(map[2 := [V(2)]], [Encoded(1, 1), Encoded(1, 3)], true))
  {
    var s, enc := Plain(2), Values();
    StashTwoCapabilities();
    var st := map[2 := [V(2)], 1 := [V(1), V(3)]];
    assert st.Keys == {1, 2};
    assert MinOf(st.Keys) == 1;
    assert Tag(1, [V(1), V(3)][..2]) == [Entry(1, V(1)), Entry(1, V(3))];
    EncodeTwo(s);
    var rest := map[2 := [V(2)]];
    assert st - {1} == rest;
    assert Drain(s, enc, rest, 0) == Done(Drained(rest, []));
    assert [Encoded(1, 1), Encoded(1, 3)] + [] == [Encoded(1, 1), Encoded(1, 3)];
    assert Drain(s, enc, st, 2) == Done(Drained(rest, [Encoded(1, 1), Encoded(1, 3)]));
    assert rest.Keys != {};
  }

  /** A batch whose updates are all filtered out (time 0 under a strict as-of of 0) still
      creates its entry, and the drain then removes it without emitting anything. */
  lemma FilteredBatchLeavesNothing()
    ensures var s := Settings(SinkAsOf(At(0), true), None, None, 1, 5);
      && StashAll(s, map[], [InputBatch(0, [V(0)])]) == map[0 := []]
      && EncodeTurn(s, Values(), map[], [InputBatch(0, [V(0)])]) == Done(TurnResult(map[], [], false))
  {
    var s := Settings(SinkAsOf(At(0), true), None, None, 1, 5);
    assert [V(0)][..0] == [];
    assert Filter(s, [V(0)]) == [];
    var st: Stash<int> := map[0 := []];
    assert StashAll(s, map[], [InputBatch(0, [V(0)])]) == st by {
      assert [InputBatch(0, [V(0)])][1..] == [];
    }
    assert st.Keys == {0};
    assert MinOf(st.Keys) == 0;
    var none: seq<Update<int>> := [];
    assert none[..0] == [] && Tag(0, none) == [];
    assert st - {0} == map[];
  }
}
