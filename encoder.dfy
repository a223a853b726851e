/**
  The Avro encoding operator: the `encode_logic` closure of `avro_encode_stream`
  (kafka.rs:689-763).

  Each turn first stashes the arriving updates under the capability they arrived with,
  dropping those the as-of frontier or the gate rules out, and then encodes at most `fuel`
  of the stashed updates, always from the lowest stashed capability, in arrival order.  It
  asks to be scheduled again exactly when something is left in the stash.

  Capabilities are their timestamps.  The row type is a type parameter and the Avro
  encoder a pair of given functions.  `StashAll` and `Drain` specify the two phases;
  `Flatten` lists a stash in the order the operator drains it and is the reference the
  drain is proved against.  `AvroEncoder.EncodeLogic` performs the turn in place.
 */
module AvroEncode {
  import opened Wrappers
  import opened Frontiers
  import opened KafkaTypes
  import opened Sorted

  /** An input update `((Option<Row>, Option<Row>), Timestamp, Diff)`. */
  datatype Update<R> = Update(key: Option<R>, value: Option<R>, time: Timestamp, diff: int)

  /** What `input.for_each` hands over at once: a capability and its updates. */
  datatype InputBatch<R> = InputBatch(cap: Timestamp, updates: seq<Update<R>>)

  /** `encode_key_unchecked` and `encode_value_unchecked`. */
  datatype Encoder<!R> = Encoder(key: (SchemaId, R) -> Bytes, value: (SchemaId, R) -> Bytes)

  /** The operator's parameters: `as_of`, `gate_ts`, `key_schema_id`, `value_schema_id`, `fuel`. */
  datatype Settings = Settings(
    asOf: SinkAsOf,
    gate: Option<Timestamp>,
    keySchemaId: Option<SchemaId>,
    valueSchemaId: SchemaId,
    fuel: nat)

  /** The only way a turn can panic: `key_schema_id.unwrap()` on a keyed update. */
  datatype Outcome<T> = Done(value: T) | MissingKeySchema

  /** An encoded update as given to the output session of capability `cap`. */
  datatype Output = Output(cap: Timestamp, record: Record)

  /** `HashMap<Capability<Timestamp>, Vec<_>>`. */
  type Stash<R> = map<Timestamp, seq<Update<R>>>

  /** A stashed update together with the capability it is stashed under. */
  datatype Entry<R> = Entry(cap: Timestamp, update: Update<R>)

  // ---------------------------------------------------------------------------
  // Stashing (kafka.rs:699-723)

  function Stashed<R>(stash: Stash<R>, cap: Timestamp): seq<Update<R>> {
    if cap in stash then stash[cap] else []
  }

  /** The updates of one batch that pass the as-of and gate filter, in arrival order. */
  function Filter<R>(s: Settings, us: seq<Update<R>>): seq<Update<R>>
    decreases |us|
  {
    if us == [] then []
    else
      var last := us[|us| - 1];
      Filter(s, us[..|us| - 1]) + (if Admissible(s.asOf, s.gate, last.time) then [last] else [])
  }

  /** `stash.entry(cap).or_default()` followed by the pushes: the entry exists afterwards even
      when every update was filtered out. */
  function StashBatch<R>(s: Settings, stash: Stash<R>, b: InputBatch<R>): Stash<R> {
    stash[b.cap := Stashed(stash, b.cap) + Filter(s, b.updates)]
  }

  function StashAll<R>(s: Settings, stash: Stash<R>, input: seq<InputBatch<R>>): Stash<R>
    decreases |input|
  {
    if input == [] then stash else StashAll(s, StashBatch(s, stash, input[0]), input[1..])
  }

  /** Everything that arrived under `cap` and passed the filter, in arrival order. */
  function Arrived<R>(s: Settings, input: seq<InputBatch<R>>, cap: Timestamp): seq<Update<R>>
    decreases |input|
  {
    if input == [] then []
    else (if input[0].cap == cap then Filter(s, input[0].updates) else []) + Arrived(s, input[1..], cap)
  }

  lemma {:induction false} FilterMeans<R>(s: Settings, us: seq<Update<R>>)
    ensures forall u :: u in Filter(s, us) ==> u in us && Admissible(s.asOf, s.gate, u.time)
    ensures forall i :: 0 <= i < |us| && Admissible(s.asOf, s.gate, us[i].time) ==> us[i] in Filter(s, us)
    ensures |Filter(s, us)| <= |us|
    decreases |us|
  {
    if us != [] {
      var init := us[..|us| - 1];
      FilterMeans(s, init);
      forall i | 0 <= i < |us| - 1
        ensures us[i] == init[i]
      {
      }
    }
  }

  /** After stashing, each capability holds what it held before followed by what arrived
      under it, in arrival order. */
  lemma {:induction false} StashAllContents<R>(s: Settings, stash: Stash<R>, input: seq<InputBatch<R>>)
    ensures forall cap :: Stashed(StashAll(s, stash, input), cap) == Stashed(stash, cap) + Arrived(s, input, cap)
    decreases |input|
  {
    if input != [] {
      var next := StashBatch(s, stash, input[0]);
      StashAllContents(s, next, input[1..]);
      forall cap
        ensures Stashed(StashAll(s, stash, input), cap) == Stashed(stash, cap) + Arrived(s, input, cap)
      {
        StashBatchAt(s, stash, input[0], cap);
      }
    }
  }

  lemma StashBatchAt<R>(s: Settings, stash: Stash<R>, b: InputBatch<R>, cap: Timestamp)
    ensures Stashed(StashBatch(s, stash, b), cap) ==
      Stashed(stash, cap) + (if b.cap == cap then Filter(s, b.updates) else [])
  {
    if b.cap != cap {
      assert Stashed(stash, cap) + [] == Stashed(stash, cap);
    }
  }

  /** A capability is stashed after the input iff it was before or some batch arrived under it,
      even one whose updates were all filtered out. */
  lemma {:induction false} StashAllKeys<R>(s: Settings, stash: Stash<R>, input: seq<InputBatch<R>>)
    ensures forall cap :: cap in StashAll(s, stash, input) <==>
      cap in stash || exists i :: 0 <= i < |input| && input[i].cap == cap
    decreases |input|
  {
    if input != [] {
      var next := StashBatch(s, stash, input[0]);
      StashAllKeys(s, next, input[1..]);
      forall cap | exists i :: 0 <= i < |input| && input[i].cap == cap
        ensures cap in StashAll(s, stash, input)
      {
        var i :| 0 <= i < |input| && input[i].cap == cap;
        if i > 0 {
          assert input[1..][i - 1].cap == cap;
        }
      }
      forall cap | cap in StashAll(s, stash, input) && cap !in stash && cap != input[0].cap
        ensures exists i :: 0 <= i < |input| && input[i].cap == cap
      {
        var j :| 0 <= j < |input[1..]| && input[1..][j].cap == cap;
        assert input[j + 1].cap == cap;
      }
    }
  }

  /** Every stashed update passes the as-of and gate filter. */
  ghost predicate AllAdmissible<R>(s: Settings, stash: Stash<R>) {
    forall t, u :: t in stash && u in stash[t] ==> Admissible(s.asOf, s.gate, u.time)
  }

  lemma StashAllKeepsAdmissible<R>(s: Settings, stash: Stash<R>, input: seq<InputBatch<R>>)
    requires AllAdmissible(s, stash)
    ensures AllAdmissible(s, StashAll(s, stash, input))
  {
    StashAllContents(s, stash, input);
    var after := StashAll(s, stash, input);
    forall t, u: Update<R> | t in after && u in after[t]
      ensures Admissible(s.asOf, s.gate, u.time)
    {
      assert u in Stashed(stash, t) + Arrived(s, input, t);
      if u !in Stashed(stash, t) {
        ArrivedAdmissible(s, input, t, u);
      }
    }
  }

  lemma {:induction false} ArrivedAdmissible<R>(s: Settings, input: seq<InputBatch<R>>, cap: Timestamp, u: Update<R>)
    requires u in Arrived(s, input, cap)
    ensures Admissible(s.asOf, s.gate, u.time)
    decreases |input|
  {
    var head := if input[0].cap == cap then Filter(s, input[0].updates) else [];
    if u in head {
      FilterMeans(s, input[0].updates);
    } else {
      ArrivedAdmissible(s, input[1..], cap, u);
    }
  }

  // ---------------------------------------------------------------------------
  // Encoding (kafka.rs:739-746)

  predicate NeedsKeySchema<R>(s: Settings, u: Update<R>) {
    u.key.Some? && s.keySchemaId.None?
  }

  /** The encoded form of a stashed update: key and value encoded with their schema ids when
      present, time and diff passed through, given to the session of its capability. */
  function Out<R>(s: Settings, enc: Encoder<R>, e: Entry<R>): Output
    requires !NeedsKeySchema(s, e.update)
  {
    var u := e.update;
    Output(e.cap, Record(
      if u.key.None? then None else Some(enc.key(s.keySchemaId.value, u.key.value)),
      if u.value.None? then None else Some(enc.value(s.valueSchemaId, u.value.value)),
      u.time, u.diff))
  }

  function Then(prefix: seq<Output>, o: Outcome<seq<Output>>): Outcome<seq<Output>> {
    match o
    case MissingKeySchema => MissingKeySchema
    case Done(rest) => Done(prefix + rest)
  }

  /** Encoding a run of stashed updates front to back; the first keyed update without a key
      schema id panics. */
  function EncodeEntries<R>(s: Settings, enc: Encoder<R>, es: seq<Entry<R>>): Outcome<seq<Output>>
    decreases |es|
  {
    if es == [] then Done([])
    else if NeedsKeySchema(s, es[0].update) then MissingKeySchema
    else Then([Out(s, enc, es[0])], EncodeEntries(s, enc, es[1..]))
  }

  lemma {:induction false} EncodeEntriesMeans<R>(s: Settings, enc: Encoder<R>, es: seq<Entry<R>>)
    ensures EncodeEntries(s, enc, es).MissingKeySchema? <==>
      exists i :: 0 <= i < |es| && NeedsKeySchema(s, es[i].update)
    ensures EncodeEntries(s, enc, es).Done? ==>
      var o := EncodeEntries(s, enc, es).value;
      |o| == |es| && forall i :: 0 <= i < |o| ==> !NeedsKeySchema(s, es[i].update) && o[i] == Out(s, enc, es[i])
    decreases |es|
  {
    if es != [] {
      EncodeEntriesMeans(s, enc, es[1..]);
      if exists i :: 0 <= i < |es[1..]| && NeedsKeySchema(s, es[1..][i].update) {
        var i :| 0 <= i < |es[1..]| && NeedsKeySchema(s, es[1..][i].update);
        assert NeedsKeySchema(s, es[i + 1].update);
      }
      if exists i :: 0 <= i < |es| && NeedsKeySchema(s, es[i].update) {
        var i :| 0 <= i < |es| && NeedsKeySchema(s, es[i].update);
        if i > 0 {
          assert NeedsKeySchema(s, es[1..][i - 1].update);
        }
      }
    }
  }

  lemma {:induction false} EncodeEntriesAppend<R>(s: Settings, enc: Encoder<R>, a: seq<Entry<R>>, b: seq<Entry<R>>)
    ensures EncodeEntries(s, enc, a + b) ==
      match EncodeEntries(s, enc, a)
      case MissingKeySchema => MissingKeySchema
      case Done(x) => Then(x, EncodeEntries(s, enc, b))
    decreases |a|
  {
    if a == [] {
      assert a + b == b;
      match EncodeEntries(s, enc, b)
      case MissingKeySchema =>
      case Done(y) => assert [] + y == y;
    } else if !NeedsKeySchema(s, a[0].update) {
      assert (a + b)[0] == a[0];
      assert (a + b)[1..] == a[1..] + b;
      EncodeEntriesAppend(s, enc, a[1..], b);
      match EncodeEntries(s, enc, a[1..])
      case MissingKeySchema =>
      case Done(x) =>
        match EncodeEntries(s, enc, b)
        case MissingKeySchema =>
        case Done(y) => assert [Out(s, enc, a[0])] + (x + y) == ([Out(s, enc, a[0])] + x) + y;
    } else {
      assert (a + b)[0] == a[0];
    }
  }

  // ---------------------------------------------------------------------------
  // Draining (kafka.rs:727-755)

  /** The updates stashed under `cap`, tagged with it. */
  function Tag<R>(cap: Timestamp, us: seq<Update<R>>): (r: seq<Entry<R>>)
    ensures |r| == |us|
  {
    seq(|us|, i requires 0 <= i < |us| => Entry(cap, us[i]))
  }

  /** The stash in draining order: capabilities ascending, each in arrival order. */
  function Flatten<R>(stash: Stash<R>): seq<Entry<R>>
    decreases |stash.Keys|
  {
    if stash.Keys == {} then []
    else
      var low := MinOf(stash.Keys);
      assert (stash - {low}).Keys == stash.Keys - {low};
      Tag(low, stash[low]) + Flatten(stash - {low})
  }

  /** What is left in the stash and what was given to the output. */
  datatype Drained<R> = Drained(stash: Stash<R>, out: seq<Output>)

  function Prepend<R>(out: seq<Output>, d: Outcome<Drained<R>>): Outcome<Drained<R>> {
    match d
    case MissingKeySchema => MissingKeySchema
    case Done(x) => Done(Drained(x.stash, out + x.out))
  }

  /** `while fuel_remaining > 0 && !stash.is_empty()`: take up to the remaining fuel from the
      lowest capability, encode them in order, and drop the capability once it is empty. */
  function Drain<R>(s: Settings, enc: Encoder<R>, stash: Stash<R>, fuel: nat): Outcome<Drained<R>>
    decreases fuel + |stash.Keys|
  {
    if fuel == 0 || stash.Keys == {} then Done(Drained(stash, []))
    else
      var low := MinOf(stash.Keys);
      var records := stash[low];
      var n := Least(|records|, fuel);
      match EncodeEntries(s, enc, Tag(low, records[..n]))
      case MissingKeySchema => MissingKeySchema
      case Done(out) =>
        var rest := if n == |records| then stash - {low} else stash[low := records[n..]];
        assert rest.Keys == if n == |records| then stash.Keys - {low} else stash.Keys;
        Prepend(out, Drain(s, enc, rest, fuel - n))
  }

  function Least(a: nat, b: nat): nat {
    if a < b then a else b
  }

  /** One turn of the drain loop that encodes its run without panicking. */
  lemma DrainOnce<R>(s: Settings, enc: Encoder<R>, stash: Stash<R>, fuel: nat, low: Timestamp, n: nat,
                     run: seq<Output>, rest: Stash<R>)
    requires fuel > 0 && stash.Keys != {} && low == MinOf(stash.Keys) && n == Least(|stash[low]|, fuel)
    requires EncodeEntries(s, enc, Tag(low, stash[low][..n])) == Done(run)
    requires rest == if n == |stash[low]| then stash - {low} else stash[low := stash[low][n..]]
    ensures Drain(s, enc, stash, fuel) == Prepend(run, Drain(s, enc, rest, fuel - n))
  {
  }

  /** One turn of the drain loop whose run panics. */
  lemma DrainOnceFails<R>(s: Settings, enc: Encoder<R>, stash: Stash<R>, fuel: nat, low: Timestamp, n: nat)
    requires fuel > 0 && stash.Keys != {} && low == MinOf(stash.Keys) && n == Least(|stash[low]|, fuel)
    requires EncodeEntries(s, enc, Tag(low, stash[low][..n])).MissingKeySchema?
    ensures Drain(s, enc, stash, fuel).MissingKeySchema?
  {
  }

  lemma PrependNothing<R>(d: Outcome<Drained<R>>)
    ensures Prepend([], d) == d
  {
    match d
    case MissingKeySchema =>
    case Done(x) => assert [] + x.out == x.out;
  }

  /** One drain step taking a whole capability's records. */
  lemma DrainWhole<R>(s: Settings, enc: Encoder<R>, stash: Stash<R>, fuel: nat)
    requires fuel > 0 && stash.Keys != {}
    requires |stash[MinOf(stash.Keys)]| <= fuel
    ensures var low := MinOf(stash.Keys);
      Drain(s, enc, stash, fuel) ==
        match EncodeEntries(s, enc, Tag(low, stash[low]))
        case MissingKeySchema => MissingKeySchema
        case Done(out) => Prepend(out, Drain(s, enc, stash - {low}, fuel - |stash[low]|))
  {
    var low := MinOf(stash.Keys);
    assert stash[low][..|stash[low]|] == stash[low];
  }

  /** One drain step that uses up the fuel inside a capability's records. */
  lemma DrainPart<R>(s: Settings, enc: Encoder<R>, stash: Stash<R>, fuel: nat)
    requires fuel > 0 && stash.Keys != {}
    requires fuel < |stash[MinOf(stash.Keys)]|
    ensures var low := MinOf(stash.Keys);
      Drain(s, enc, stash, fuel) ==
        match EncodeEntries(s, enc, Tag(low, stash[low][..fuel]))
        case MissingKeySchema => MissingKeySchema
        case Done(out) => Done(Drained(stash[low := stash[low][fuel..]], out))
  {
    var low := MinOf(stash.Keys);
    match EncodeEntries(s, enc, Tag(low, stash[low][..fuel]))
    case MissingKeySchema =>
    case Done(out) =>
      var rest := stash[low := stash[low][fuel..]];
      assert Drain(s, enc, rest, 0) == Done(Drained(rest, []));
      assert out + [] == out;
  }

  lemma FlattenUnfold<R>(stash: Stash<R>)
    requires stash.Keys != {}
    ensures var low := MinOf(stash.Keys); Flatten(stash) == Tag(low, stash[low]) + Flatten(stash - {low})
  {
  }

  lemma TagSlices<R>(cap: Timestamp, us: seq<Update<R>>, n: nat)
    requires n <= |us|
    ensures Tag(cap, us)[..n] == Tag(cap, us[..n])
    ensures Tag(cap, us)[n..] == Tag(cap, us[n..])
  {
  }

  /** Replacing the lowest capability's records by a suffix leaves the rest of the order as it is. */
  lemma FlattenAfterPart<R>(stash: Stash<R>, n: nat)
    requires stash.Keys != {} && n <= |stash[MinOf(stash.Keys)]|
    ensures var low := MinOf(stash.Keys);
      Flatten(stash[low := stash[low][n..]]) == Flatten(stash)[n..]
  {
    var low := MinOf(stash.Keys);
    var rest := stash[low := stash[low][n..]];
    assert rest.Keys == stash.Keys;
    assert rest - {low} == stash - {low};
    FlattenUnfold(rest);
    FlattenUnfold(stash);
    TagSlices(low, stash[low], n);
  }

  /** A drain result `d` emits exactly the first `Least(|f|, fuel)` entries of `f`, encoded,
      and leaves the rest; it panics iff encoding those panics; and it leaves something in the
      stash only when the fuel ran out. */
  ghost predicate PrefixFacts<R>(s: Settings, enc: Encoder<R>, f: seq<Entry<R>>, fuel: nat, d: Outcome<Drained<R>>) {
    var k := Least(|f|, fuel);
    && (d.MissingKeySchema? <==> EncodeEntries(s, enc, f[..k]).MissingKeySchema?)
    && (d.Done? ==> EncodeEntries(s, enc, f[..k]) == Done(d.value.out) && Flatten(d.value.stash) == f[k..])
    && (d.Done? && d.value.stash.Keys != {} ==> k == fuel)
  }

  /** The drain takes the first `Least(|Flatten(stash)|, fuel)` updates in draining order. */
  ghost predicate TakesPrefix<R>(s: Settings, enc: Encoder<R>, stash: Stash<R>, fuel: nat) {
    PrefixFacts(s, enc, Flatten(stash), fuel, Drain(s, enc, stash, fuel))
  }

  lemma TakeAfterRun<R>(head: seq<Entry<R>>, g: seq<Entry<R>>, fuel: nat)
    requires |head| <= fuel
    ensures var f := head + g; var k' := Least(|g|, fuel - |head|);
      && Least(|f|, fuel) == |head| + k'
      && f[..|head| + k'] == head + g[..k']
      && f[|head| + k'..] == g[k'..]
  {
  }

  /** A panic while encoding a whole run is a panic of the drain. */
  lemma PrefixFactsConsFails<R>(s: Settings, enc: Encoder<R>, head: seq<Entry<R>>, g: seq<Entry<R>>, fuel: nat)
    requires |head| <= fuel && EncodeEntries(s, enc, head).MissingKeySchema?
    ensures PrefixFacts(s, enc, head + g, fuel, MissingKeySchema)
  {
    TakeAfterRun(head, g, fuel);
    EncodeEntriesAppend(s, enc, head, g[..Least(|g|, fuel - |head|)]);
  }

  /** Encoding a whole run first and then draining the rest with the fuel left takes a prefix
      of the run followed by the rest. */
  lemma PrefixFactsCons<R>(s: Settings, enc: Encoder<R>, head: seq<Entry<R>>, g: seq<Entry<R>>, fuel: nat,
                           x: seq<Output>, d: Outcome<Drained<R>>)
    requires |head| <= fuel && EncodeEntries(s, enc, head) == Done(x)
    requires PrefixFacts(s, enc, g, fuel - |head|, d)
    ensures PrefixFacts(s, enc, head + g, fuel, Prepend(x, d))
  {
    var k' := Least(|g|, fuel - |head|);
    TakeAfterRun(head, g, fuel);
    EncodeEntriesAppend(s, enc, head, g[..k']);
    match d
    case MissingKeySchema =>
    case Done(y) =>
  }

  lemma TakesPrefixWhenPart<R>(s: Settings, enc: Encoder<R>, stash: Stash<R>, fuel: nat)
    requires fuel > 0 && stash.Keys != {}
    requires fuel < |stash[MinOf(stash.Keys)]|
    ensures TakesPrefix(s, enc, stash, fuel)
  {
    var low := MinOf(stash.Keys);
    DrainPart(s, enc, stash, fuel);
    FlattenUnfold(stash);
    FlattenAfterPart(stash, fuel);
    TagSlices(low, stash[low], fuel);
    var f := Flatten(stash);
    assert f[..fuel] == Tag(low, stash[low])[..fuel];
  }

  lemma {:induction false} TakesPrefixWhenWhole<R>(s: Settings, enc: Encoder<R>, stash: Stash<R>, fuel: nat)
    requires fuel > 0 && stash.Keys != {}
    requires |stash[MinOf(stash.Keys)]| <= fuel
    ensures TakesPrefix(s, enc, stash, fuel)
    decreases fuel + |stash.Keys|, 0
  {
    var low := MinOf(stash.Keys);
    var rest := stash - {low};
    RemoveShrinks(stash, low);
    DrainTakesPrefix(s, enc, rest, fuel - |stash[low]|);
    DrainWhole(s, enc, stash, fuel);
    FlattenUnfold(stash);
    match EncodeEntries(s, enc, Tag(low, stash[low]))
    case MissingKeySchema =>
      PrefixFactsConsFails(s, enc, Tag(low, stash[low]), Flatten(rest), fuel);
    case Done(x) =>
      PrefixFactsCons(s, enc, Tag(low, stash[low]), Flatten(rest), fuel, x, Drain(s, enc, rest, fuel - |stash[low]|));
  }

  lemma TakesPrefixWhenDone<R>(s: Settings, enc: Encoder<R>, stash: Stash<R>, fuel: nat)
    requires fuel == 0 || stash.Keys == {}
    ensures TakesPrefix(s, enc, stash, fuel)
  {
    assert Flatten(stash)[..0] == [];
  }

  lemma RemoveShrinks<R>(stash: Stash<R>, low: Timestamp)
    requires low in stash
    ensures |(stash - {low}).Keys| < |stash.Keys|
  {
    assert (stash - {low}).Keys == stash.Keys - {low};
  }

  lemma {:induction false} DrainTakesPrefix<R>(s: Settings, enc: Encoder<R>, stash: Stash<R>, fuel: nat)
    ensures TakesPrefix(s, enc, stash, fuel)
    decreases fuel + |stash.Keys|, 1
  {
    if fuel == 0 || stash.Keys == {} {
      TakesPrefixWhenDone(s, enc, stash, fuel);
    } else if fuel < |stash[MinOf(stash.Keys)]| {
      TakesPrefixWhenPart(s, enc, stash, fuel);
    } else {
      TakesPrefixWhenWhole(s, enc, stash, fuel);
    }
  }

  /** What a drain result says about capabilities: every emitted capability was stashed, the
      drain adds no capability, a capability left with nothing stashed means the fuel ran out
      before reaching it, and a capability removed once the fuel is spent lies at or below the
      last one emitted. */
  ghost predicate KeyFacts<R>(stash: Stash<R>, fuel: nat, d: Outcome<Drained<R>>) {
    d.Done? ==>
      var x := d.value;
      var e := |x.out|;
      && (forall i :: 0 <= i < e ==> x.out[i].cap in stash)
      && (forall t :: t in x.stash ==> t in stash)
      && (forall t :: t in x.stash && x.stash[t] == [] ==> e == fuel && forall i :: 0 <= i < e ==> x.out[i].cap < t)
      && (forall t :: t in stash && t !in x.stash && e == fuel ==> e > 0 && x.out[e - 1].cap >= t)
  }

  /** The drain of `stash` with `fuel` has the key facts. */
  ghost predicate KeepsKeys<R>(s: Settings, enc: Encoder<R>, stash: Stash<R>, fuel: nat) {
    KeyFacts(stash, fuel, Drain(s, enc, stash, fuel))
  }

  /** Draining the lowest capability whole and then the rest keeps the key facts. */
  lemma KeyFactsWhole<R>(stash: Stash<R>, fuel: nat, low: Timestamp, out: seq<Output>, d: Outcome<Drained<R>>,
                         whole: Outcome<Drained<R>>)
    requires fuel > 0 && stash.Keys != {} && low == MinOf(stash.Keys) && |stash[low]| <= fuel
    requires |out| == |stash[low]| && forall i :: 0 <= i < |out| ==> out[i].cap == low
    requires KeyFacts(stash - {low}, fuel - |stash[low]|, d)
    requires whole == Prepend(out, d)
    ensures KeyFacts(stash, fuel, whole)
  {
    if d.Done? {
      var y := d.value;
      var x := whole.value;
      assert x.out == out + y.out;
      var e := |x.out|;
      forall t | t in stash && t !in x.stash && e == fuel
        ensures e > 0 && x.out[e - 1].cap >= t
      {
        if t == low {
          if |y.out| > 0 {
            assert x.out[e - 1] == y.out[|y.out| - 1];
          }
        } else {
          assert x.out[e - 1] == y.out[|y.out| - 1];
        }
      }
      forall t | t in x.stash && x.stash[t] == []
        ensures forall i :: 0 <= i < e ==> x.out[i].cap < t
      {
        forall i | 0 <= i < e
          ensures x.out[i].cap < t
        {
          if i >= |out| {
            assert x.out[i] == y.out[i - |out|];
          }
        }
      }
      forall i | 0 <= i < e
        ensures x.out[i].cap in stash
      {
        if i >= |out| {
          assert x.out[i] == y.out[i - |out|];
        }
      }
    }
  }

  /** A drain that spends its fuel inside the lowest capability's records has the key facts. */
  lemma KeyFactsPart<R>(stash: Stash<R>, fuel: nat, low: Timestamp, out: seq<Output>)
    requires stash.Keys != {} && low == MinOf(stash.Keys) && fuel < |stash[low]|
    requires |out| == fuel && forall i :: 0 <= i < |out| ==> out[i].cap == low
    ensures KeyFacts(stash, fuel, Done(Drained(stash[low := stash[low][fuel..]], out)))
  {
    assert |stash[low][fuel..]| > 0;
  }

  /** Encoding a capability's run gives one output per update, all under that capability. */
  lemma RunCaps<R>(s: Settings, enc: Encoder<R>, low: Timestamp, us: seq<Update<R>>)
    ensures EncodeEntries(s, enc, Tag(low, us)).Done? ==>
      var out := EncodeEntries(s, enc, Tag(low, us)).value;
      |out| == |us| && forall i :: 0 <= i < |out| ==> out[i].cap == low
  {
    EncodeEntriesMeans(s, enc, Tag(low, us));
  }

  lemma KeysWhenPart<R>(s: Settings, enc: Encoder<R>, stash: Stash<R>, fuel: nat)
    requires fuel > 0 && stash.Keys != {}
    requires fuel < |stash[MinOf(stash.Keys)]|
    ensures KeepsKeys(s, enc, stash, fuel)
  {
    var low := MinOf(stash.Keys);
    var run := Tag(low, stash[low][..fuel]);
    DrainPart(s, enc, stash, fuel);
    RunCaps(s, enc, low, stash[low][..fuel]);
    match EncodeEntries(s, enc, run)
    case MissingKeySchema =>
    case Done(out) => KeyFactsPart(stash, fuel, low, out);
  }

  lemma {:induction false} KeysWhenWhole<R>(s: Settings, enc: Encoder<R>, stash: Stash<R>, fuel: nat)
    requires fuel > 0 && stash.Keys != {}
    requires |stash[MinOf(stash.Keys)]| <= fuel
    ensures KeepsKeys(s, enc, stash, fuel)
    decreases fuel + |stash.Keys|, 0
  {
    var low := MinOf(stash.Keys);
    var rest := stash - {low};
    var run := Tag(low, stash[low]);
    var n := |stash[low]|;
    RemoveShrinks(stash, low);
    assert stash[low][..n] == stash[low];
    RunCaps(s, enc, low, stash[low]);
    match EncodeEntries(s, enc, run)
    case MissingKeySchema =>
      DrainOnceFails(s, enc, stash, fuel, low, n);
    case Done(out) =>
      var d := Drain(s, enc, rest, fuel - n);
      DrainKeys(s, enc, rest, fuel - n);
      DrainOnce(s, enc, stash, fuel, low, n, out, rest);
      KeyFactsWhole(stash, fuel, low, out, d, Drain(s, enc, stash, fuel));
  }

  /** The key facts hold of every drain. */
  lemma {:induction false} DrainKeys<R>(s: Settings, enc: Encoder<R>, stash: Stash<R>, fuel: nat)
    ensures KeepsKeys(s, enc, stash, fuel)
    decreases fuel + |stash.Keys|, 1
  {
    if fuel == 0 || stash.Keys == {} {
    } else if fuel < |stash[MinOf(stash.Keys)]| {
      KeysWhenPart(s, enc, stash, fuel);
    } else {
      KeysWhenWhole(s, enc, stash, fuel);
    }
  }

  /** The draining order visits capabilities in ascending order, and every entry it lists is
      stashed, and every stashed update is listed. */
  lemma {:induction false} FlattenMeans<R>(stash: Stash<R>)
    ensures forall i, j :: 0 <= i < j < |Flatten(stash)| ==> Flatten(stash)[i].cap <= Flatten(stash)[j].cap
    ensures forall e :: e in Flatten(stash) ==> e.cap in stash && e.update in stash[e.cap]
    ensures forall t, u :: t in stash && u in stash[t] ==> Entry(t, u) in Flatten(stash)
    decreases |stash.Keys|
  {
    if stash.Keys != {} {
      var low := MinOf(stash.Keys);
      var rest := stash - {low};
      assert rest.Keys == stash.Keys - {low};
      FlattenMeans(rest);
      var head := Tag(low, stash[low]);
      var f := Flatten(stash);
      assert f == head + Flatten(rest);
      forall i, j | 0 <= i < j < |f|
        ensures f[i].cap <= f[j].cap
      {
        if j >= |head| {
          assert f[j] == Flatten(rest)[j - |head|];
          assert f[j] in Flatten(rest);
          if i >= |head| {
            assert f[i] == Flatten(rest)[i - |head|];
          }
        }
      }
      forall t, u | t in stash && u in stash[t]
        ensures Entry(t, u) in f
      {
        if t == low {
          var i :| 0 <= i < |stash[low]| && stash[low][i] == u;
          assert f[i] == Entry(t, u);
        } else {
          assert t in rest && rest[t] == stash[t];
          assert Entry(t, u) in Flatten(rest);
        }
      }
    }
  }

  lemma SliceAfter<T>(head: seq<T>, g: seq<T>, b: nat, m: nat)
    requires b + m <= |g|
    ensures (head + g)[|head| + b..|head| + b + m] == g[b..b + m]
  {
  }

  /** Positions `a` up to `a + |us|` of `f` are the updates `us` tagged with `t`. */
  ghost predicate BlockAt<R>(f: seq<Entry<R>>, a: nat, t: Timestamp, us: seq<Update<R>>) {
    a + |us| <= |f| && f[a..a + |us|] == Tag(t, us)
  }

  /** Each capability's updates form one contiguous block of the draining order, in the order
      they were stashed. */
  lemma {:induction false} FlattenBlocks<R>(stash: Stash<R>)
    ensures forall t :: t in stash ==> exists a: nat :: BlockAt(Flatten(stash), a, t, stash[t])
    decreases |stash.Keys|
  {
    if stash.Keys != {} {
      var low := MinOf(stash.Keys);
      var rest := stash - {low};
      var head := Tag(low, stash[low]);
      RemoveShrinks(stash, low);
      FlattenBlocks(rest);
      FlattenUnfold(stash);
      var f := Flatten(stash);
      forall t | t in stash
        ensures exists a: nat :: BlockAt(f, a, t, stash[t])
      {
        if t == low {
          SliceAfter([], f, 0, |head|);
          assert BlockAt(f, 0, t, stash[t]);
        } else {
          assert t in rest && rest[t] == stash[t];
          var b: nat :| BlockAt(Flatten(rest), b, t, stash[t]);
          SliceAfter(head, Flatten(rest), b, |stash[t]|);
          assert BlockAt(f, |head| + b, t, stash[t]);
        }
      }
    }
  }

  // ---------------------------------------------------------------------------
  // The turn (kafka.rs:694-762)

  datatype TurnResult<R> = TurnResult(stash: Stash<R>, out: seq<Output>, reschedule: bool)

  /** One invocation of `encode_logic`: stash the input, drain up to `fuel` updates, and report
      whether the stash is non-empty. */
  function EncodeTurn<R>(s: Settings, enc: Encoder<R>, stash: Stash<R>, input: seq<InputBatch<R>>)
    : Outcome<TurnResult<R>>
  {
    match Drain(s, enc, StashAll(s, stash, input), s.fuel)
    case MissingKeySchema => MissingKeySchema
    case Done(d) => Done(TurnResult(d.stash, d.out, d.stash.Keys != {}))
  }

  /** One of the first `k` entries of `f` is keyed while the key schema id is missing. */
  ghost predicate PanicsWithin<R>(s: Settings, f: seq<Entry<R>>, k: nat) {
    exists i :: 0 <= i < k && i < |f| && NeedsKeySchema(s, f[i].update)
  }

  /** What a drain result that encodes the first `k` entries of `f` contains. */
  lemma EncodedPrefixMeans<R>(s: Settings, enc: Encoder<R>, f: seq<Entry<R>>, k: nat, d: Outcome<Drained<R>>)
    requires k <= |f|
    requires d.MissingKeySchema? <==> EncodeEntries(s, enc, f[..k]).MissingKeySchema?
    requires d.Done? ==> EncodeEntries(s, enc, f[..k]) == Done(d.value.out)
    ensures d.MissingKeySchema? <==> PanicsWithin(s, f, k)
    ensures d.Done? ==>
      |d.value.out| == k && forall i :: 0 <= i < k ==> !NeedsKeySchema(s, f[i].update) && d.value.out[i] == Out(s, enc, f[i])
  {
    EncodeEntriesMeans(s, enc, f[..k]);
    assert forall i :: 0 <= i < k ==> f[..k][i] == f[i];
    if PanicsWithin(s, f, k) {
      var i :| 0 <= i < k && i < |f| && NeedsKeySchema(s, f[i].update);
      assert NeedsKeySchema(s, f[..k][i].update);
    }
    if d.MissingKeySchema? {
      var i :| 0 <= i < |f[..k]| && NeedsKeySchema(s, f[..k][i].update);
      assert NeedsKeySchema(s, f[i].update);
    }
  }

  /** The key facts of a drain result that emitted the first `k` entries of `f`, stated on `f`. */
  lemma KeyFactsMean<R>(s: Settings, enc: Encoder<R>, stash: Stash<R>, fuel: nat, f: seq<Entry<R>>, k: nat,
                        x: Drained<R>)
    requires KeyFacts(stash, fuel, Done(x))
    requires k <= |f| && |x.out| == k
    requires forall i :: 0 <= i < k ==> !NeedsKeySchema(s, f[i].update) && x.out[i] == Out(s, enc, f[i])
    ensures forall t :: t in x.stash ==> t in stash
    ensures forall t :: t in x.stash && x.stash[t] == [] ==> k == fuel && forall i :: 0 <= i < k ==> f[i].cap < t
    ensures forall t :: t in stash && t !in x.stash && k == fuel ==> k > 0 && f[k - 1].cap >= t
  {
    assert forall i :: 0 <= i < k ==> x.out[i].cap == f[i].cap;
  }

  /** The stash left by a drain is empty iff everything was emitted and either fuel was left
      over or the last update emitted sits at or above every capability that was stashed. */
  lemma EmptiedMeans<R>(stash: Stash<R>, fuel: nat, f: seq<Entry<R>>, k: nat, left: Stash<R>)
    requires k <= |f| && k <= fuel && Flatten(left) == f[k..]
    requires left.Keys == {} ==> k == |f|
    requires forall t :: t in left ==> t in stash
    requires forall t :: t in left && left[t] == [] ==> k == fuel && forall i :: 0 <= i < k ==> f[i].cap < t
    requires forall t :: t in stash && t !in left && k == fuel ==> k > 0 && f[k - 1].cap >= t
    ensures left.Keys == {} <==> k == |f| && (k < fuel || forall t :: t in stash ==> k > 0 && f[k - 1].cap >= t)
  {
    if left.Keys != {} {
      var low := MinOf(left.Keys);
      FlattenUnfold(left);
    }
  }

  /** The drain emits exactly the first `Least(|Flatten(stash)|, fuel)` updates in draining
      order, encoded; it panics iff one of those is keyed while the key schema id is missing;
      what it leaves is the rest in the same order; and it leaves a non-empty stash only after
      spending all its fuel. */
  lemma DrainMeans<R>(s: Settings, enc: Encoder<R>, stash: Stash<R>, fuel: nat)
    ensures Drain(s, enc, stash, fuel).MissingKeySchema? <==> PanicsWithin(s, Flatten(stash), Least(|Flatten(stash)|, fuel))
    ensures Drain(s, enc, stash, fuel).Done? ==>
      var d := Drain(s, enc, stash, fuel).value;
      var k := Least(|Flatten(stash)|, fuel);
      && |d.out| == k
      && (forall i :: 0 <= i < k ==> !NeedsKeySchema(s, Flatten(stash)[i].update) && d.out[i] == Out(s, enc, Flatten(stash)[i]))
      && Flatten(d.stash) == Flatten(stash)[k..]
      && (d.stash.Keys != {} ==> k == fuel)
      && (d.stash.Keys == {} ==> d.stash == map[] && k == |Flatten(stash)|)
      && (forall t :: t in d.stash ==> t in stash)
      && (forall t :: t in d.stash && d.stash[t] == [] ==>
            k == fuel && forall i :: 0 <= i < k ==> Flatten(stash)[i].cap < t)
      && (forall t :: t in stash && t !in d.stash && k == fuel ==> k > 0 && Flatten(stash)[k - 1].cap >= t)
  {
    var f := Flatten(stash);
    var k := Least(|f|, fuel);
    DrainTakesPrefix(s, enc, stash, fuel);
    EncodedPrefixMeans(s, enc, f, k, Drain(s, enc, stash, fuel));
    DrainKeys(s, enc, stash, fuel);
    var d := Drain(s, enc, stash, fuel);
    if d.Done? {
      KeyFactsMean(s, enc, stash, fuel, f, k, d.value);
      if d.value.stash.Keys == {} {
        assert d.value.stash == map[];
        assert Flatten(d.value.stash) == [];
      }
    }
  }

  /** The turn emits the first `k` stashed updates in draining order, encoded, where `k` is the
      fuel or everything stashed if that is less; it panics iff one of those is keyed while the
      key schema id is missing; what it leaves is the rest in the same order; it asks to run
      again only after spending all its fuel, and when it does not, it has emitted everything. */
  lemma TurnEmitsPrefix<R>(s: Settings, enc: Encoder<R>, stash: Stash<R>, input: seq<InputBatch<R>>)
    ensures var f := Flatten(StashAll(s, stash, input));
      EncodeTurn(s, enc, stash, input).MissingKeySchema? <==> PanicsWithin(s, f, Least(|f|, s.fuel))
    ensures var f := Flatten(StashAll(s, stash, input));
      var k := Least(|f|, s.fuel);
      var r := EncodeTurn(s, enc, stash, input);
      r.Done? ==>
        && |r.value.out| == k <= s.fuel
        && (forall i :: 0 <= i < k ==> !NeedsKeySchema(s, f[i].update) && r.value.out[i] == Out(s, enc, f[i]))
        && Flatten(r.value.stash) == f[k..]
        && (r.value.reschedule ==> |r.value.out| == s.fuel)
        && (!r.value.reschedule ==> |r.value.out| == |f| && r.value.stash == map[])
    ensures var st := StashAll(s, stash, input);
      var f := Flatten(st);
      var k := Least(|f|, s.fuel);
      var r := EncodeTurn(s, enc, stash, input);
      r.Done? ==>
        (!r.value.reschedule <==> k == |f| && (k < s.fuel || forall t :: t in st ==> k > 0 && f[k - 1].cap >= t))
  {
    var st := StashAll(s, stash, input);
    var f := Flatten(st);
    DrainMeans(s, enc, st, s.fuel);
    var r := EncodeTurn(s, enc, stash, input);
    if r.Done? {
      EmptiedMeans(st, s.fuel, f, Least(|f|, s.fuel), r.value.stash);
    }
  }

  /** Updates filtered out on arrival are never emitted: starting from a stash that holds only
      admissible updates, every emitted record is admissible, and so is what stays stashed. */
  lemma TurnEmitsAdmissible<R>(s: Settings, enc: Encoder<R>, stash: Stash<R>, input: seq<InputBatch<R>>)
    requires AllAdmissible(s, stash)
    ensures var r := EncodeTurn(s, enc, stash, input);
      r.Done? ==>
        && (forall o :: o in r.value.out ==> Admissible(s.asOf, s.gate, o.record.time))
        && AllAdmissible(s, r.value.stash)
  {
    var st := StashAll(s, stash, input);
    StashAllKeepsAdmissible(s, stash, input);
    var f := Flatten(st);
    FlattenMeans(st);
    TurnEmitsPrefix(s, enc, stash, input);
    var r := EncodeTurn(s, enc, stash, input);
    if r.Done? {
      var k := Least(|f|, s.fuel);
      forall o | o in r.value.out
        ensures Admissible(s.asOf, s.gate, o.record.time)
      {
        var i :| 0 <= i < |r.value.out| && r.value.out[i] == o;
        assert f[i] in f;
      }
      var left := r.value.stash;
      FlattenMeans(left);
      forall t, u: Update<R> | t in left && u in left[t]
        ensures Admissible(s.asOf, s.gate, u.time)
      {
        assert Entry(t, u) in Flatten(left);
        assert Entry(t, u) in f;
      }
    }
  }

  /** Updates at lower capabilities are emitted before updates at higher ones. */
  lemma TurnEmitsInCapabilityOrder<R>(s: Settings, enc: Encoder<R>, stash: Stash<R>, input: seq<InputBatch<R>>)
    ensures var r := EncodeTurn(s, enc, stash, input);
      r.Done? ==> forall i, j :: 0 <= i < j < |r.value.out| ==> r.value.out[i].cap <= r.value.out[j].cap
  {
    var st := StashAll(s, stash, input);
    TurnEmitsPrefix(s, enc, stash, input);
    FlattenMeans(st);
  }

  // ---------------------------------------------------------------------------
  // The operator's state

  /** The operator with its stash; the settings and the encoder are fixed at construction. */
  class AvroEncoder<R> {
    const settings: Settings
    const encoder: Encoder<R>
    var stash: Stash<R>

    constructor (settings: Settings, encoder: Encoder<R>)
      ensures this.settings == settings && this.encoder == encoder && stash == map[]
    {
      this.settings := settings;
      this.encoder := encoder;
      stash := map[];
    }

    /** The loop over one delivered batch (kafka.rs:701-722). */
    method StashInput(b: InputBatch<R>)
      modifies this
      ensures stash == StashBatch(settings, old(stash), b)
    {
      var stashed := Stashed(stash, b.cap);
      var j := 0;
      while j < |b.updates|
        invariant 0 <= j <= |b.updates|
        invariant stashed == Stashed(old(stash), b.cap) + Filter(settings, b.updates[..j])
      {
        var update := b.updates[j];
        assert b.updates[..j + 1][..j] == b.updates[..j];
        if Admissible(settings.asOf, settings.gate, update.time) {
          stashed := stashed + [update];
        }
        j := j + 1;
      }
      assert b.updates[..j] == b.updates;
      stash := stash[b.cap := stashed];
    }

    /** `records.drain(..n).for_each(...)`: encode a run of updates in order. */
    method EncodeRun(cap: Timestamp, run: seq<Update<R>>) returns (r: Outcome<seq<Output>>)
      ensures r == EncodeEntries(settings, encoder, Tag(cap, run))
    {
      var out := [];
      var j := 0;
      assert run[0..] == run;
      match EncodeEntries(settings, encoder, Tag(cap, run)) {
        case MissingKeySchema =>
        case Done(all) => assert [] + all == all;
      }
      while j < |run|
        invariant 0 <= j <= |run|
        invariant EncodeEntries(settings, encoder, Tag(cap, run)) ==
          Then(out, EncodeEntries(settings, encoder, Tag(cap, run[j..])))
      {
        assert Tag(cap, run[j..])[0] == Entry(cap, run[j]);
        assert Tag(cap, run[j..])[1..] == Tag(cap, run[j + 1..]);
        if NeedsKeySchema(settings, run[j]) {
          return MissingKeySchema;
        }
        var o := Out(settings, encoder, Entry(cap, run[j]));
        match EncodeEntries(settings, encoder, Tag(cap, run[j + 1..])) {
          case MissingKeySchema =>
          case Done(rest) => assert out + ([o] + rest) == (out + [o]) + rest;
        }
        out := out + [o];
        j := j + 1;
      }
      assert Tag(cap, run[j..]) == [];
      assert out + [] == out;
      return Done(out);
    }

    /** One invocation of `encode_logic`: the new stash and the output are those `EncodeTurn`
        specifies; on a panic nothing is promised about the stash. */
    method EncodeLogic(input: seq<InputBatch<R>>) returns (r: Outcome<(seq<Output>, bool)>)
      modifies this
      ensures var t := EncodeTurn(settings, encoder, old(stash), input);
        && (r.MissingKeySchema? <==> t.MissingKeySchema?)
        && (r.Done? ==> r.value == (t.value.out, t.value.reschedule) && stash == t.value.stash)
    {
      var i := 0;
      while i < |input|
        invariant 0 <= i <= |input|
        invariant StashAll(settings, old(stash), input) == StashAll(settings, stash, input[i..])
      {
        assert input[i..][1..] == input[i + 1..];
        StashInput(input[i]);
        i := i + 1;
      }
      assert input[i..] == [];
      ghost var full := stash;
      var fuelRemaining: nat := settings.fuel;
      var out := [];
      PrependNothing(Drain(settings, encoder, full, settings.fuel));
      while fuelRemaining > 0 && stash.Keys != {}
        invariant Drain(settings, encoder, full, settings.fuel) ==
          Prepend(out, Drain(settings, encoder, stash, fuelRemaining))
        decreases fuelRemaining + |stash.Keys|
      {
        var lowest := MinOf(stash.Keys);
        var records := stash[lowest];
        var n := Least(|records|, fuelRemaining);
        var run := EncodeRun(lowest, records[..n]);
        if run.MissingKeySchema? {
          DrainOnceFails(settings, encoder, stash, fuelRemaining, lowest, n);
          return MissingKeySchema;
        }
        ghost var before := stash;
        ghost var fuelBefore := fuelRemaining;
        fuelRemaining := fuelRemaining - n;
        if n == |records| {
          stash := stash - {lowest};
        } else {
          stash := stash[lowest := records[n..]];
        }
        DrainOnce(settings, encoder, before, fuelBefore, lowest, n, run.value, stash);
        assert stash.Keys == if n == |records| then before.Keys - {lowest} else before.Keys;
        PrependTwice(out, run.value, Drain(settings, encoder, stash, fuelRemaining));
        out := out + run.value;
      }
      assert Drain(settings, encoder, stash, fuelRemaining) == Done(Drained(stash, []));
      assert out + [] == out;
      r := Done((out, stash.Keys != {}));
    }
  }

  lemma PrependTwice<R>(a: seq<Output>, b: seq<Output>, d: Outcome<Drained<R>>)
    ensures Prepend(a, Prepend(b, d)) == Prepend(a + b, d)
  {
    match d
    case MissingKeySchema =>
    case Done(x) => assert a + (b + x.out) == (a + b) + x.out;
  }
}
