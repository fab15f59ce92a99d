/**
 The producer and the consumer of Test 2 around a shared stack-like buffer, for any buffer size
 and any number of values. A step is a region between taking the mutex (or waking) and the next
 wait or release; a blocked thread may also wake spuriously.
 */
module BufferModel {
  import opened Sequences

  datatype Pc = AtLock | Blocked(signalled: bool) | Done

  datatype State = State(
    buffer: seq<int>,
    count: int,
    producer: Pc,
    produced: nat,        // the producer's i
    consumer: Pc,
    consumed: nat,        // the consumer's i
    sum: int,             // processed_value_sum
    total: int,           // processed_value_count
    processed: seq<int>)  // history: the values in the order process_value got them

  datatype Action = Producer | Consumer

  function Signal(pc: Pc): Pc {
    if pc.Blocked? then Blocked(true) else pc
  }

  function NextPc(i: nat, n: nat): Pc {
    if i < n then AtLock else Done
  }

  predicate InBounds(s: State) {
    0 <= s.count <= |s.buffer|
  }

  function ProducerStep(s: State, n: nat): State
    requires InBounds(s)
  {
    if s.count == |s.buffer| then
      s.(producer := Blocked(false))
    else
      s.(buffer := s.buffer[s.count := s.produced],
         count := s.count + 1,
         consumer := Signal(s.consumer),
         produced := s.produced + 1,
         producer := NextPc(s.produced + 1, n))
  }

  function ConsumerStep(s: State, n: nat): State
    requires InBounds(s)
  {
    if s.count == 0 then
      s.(consumer := Blocked(false))
    else
      var value := s.buffer[s.count - 1];
      s.(count := s.count - 1,
         sum := s.sum + value,
         total := s.total + 1,
         processed := s.processed + [value],
         producer := Signal(s.producer),
         consumed := s.consumed + 1,
         consumer := NextPc(s.consumed + 1, n))
  }

  predicate Enabled(s: State, a: Action) {
    match a
    case Producer => !s.producer.Done?
    case Consumer => !s.consumer.Done?
  }

  /** The thread is blocked and nobody has signalled it. */
  predicate Spurious(s: State, a: Action) {
    match a
    case Producer => s.producer == Blocked(false)
    case Consumer => s.consumer == Blocked(false)
  }

  function Apply(s: State, a: Action, n: nat): State
    requires InBounds(s)
  {
    match a
    case Producer => ProducerStep(s, n)
    case Consumer => ConsumerStep(s, n)
  }

  /** One step; outside the array's bounds C promises nothing. */
  ghost predicate Step(s: State, a: Action, t: State, n: nat) {
    Enabled(s, a) && (InBounds(s) ==> t == Apply(s, a, n))
  }

  ghost predicate Initial(s: State, size: nat, n: nat) {
    && |s.buffer| == size && s.count == 0
    && s.producer == s.consumer == NextPc(0, n)
    && s.produced == s.consumed == 0 && s.sum == s.total == 0 && s.processed == []
  }

  ghost predicate IsRun(size: nat, n: nat, states: seq<State>, actions: seq<Action>) {
    && |states| == |actions| + 1
    && Initial(states[0], size, n)
    && forall k :: 0 <= k < |actions| ==> Step(states[k], actions[k], states[k + 1], n)
  }

  // ------------------------------------------------------------- invariant

  function Sum(s: seq<int>): int {
    if s == [] then 0 else Sum(s[..|s| - 1]) + s[|s| - 1]
  }

  function Live(s: State): seq<int>
    requires InBounds(s)
  {
    s.buffer[..s.count]
  }

  predicate Increasing(s: seq<int>) {
    forall a, b :: 0 <= a < b < |s| ==> s[a] < s[b]
  }

  /** Whoever lies strictly between a value and a later smaller one came out before the latter. */
  ghost predicate BetweenCameFirst(out: seq<int>) {
    forall i, j, b: int :: 0 <= i < j < |out| && out[j] < b < out[i] ==> b in out[..j]
  }

  /** At the j-th removal all values up to those already out were or had been in the buffer. */
  predicate Fits(out: seq<int>, size: nat) {
    forall j :: 0 <= j < |out| ==> FitsAt(out, size, j)
  }

  predicate FitsAt(out: seq<int>, size: nat, j: nat)
    requires j < |out|
  {
    forall i :: 0 <= i <= j ==> out[i] < size + j
  }

  ghost predicate ValuesOk(s: State, size: nat) {
    && InBounds(s) && |s.buffer| == size
    && Increasing(Live(s))
    && Distinct(s.processed)
    && (forall v :: v in Live(s) || v in s.processed <==> 0 <= v < s.produced)
    && (forall v :: v in Live(s) ==> v !in s.processed)
    && |s.processed| == s.consumed == s.total && s.produced == s.consumed + s.count
    && s.sum == Sum(s.processed)
    && BetweenCameFirst(s.processed)
    && Fits(s.processed, size)
  }

  predicate ThreadOk(pc: Pc, i: nat, n: nat, room: bool) {
    match pc
    case AtLock => i < n
    case Blocked(signalled) => i < n && (signalled <==> room)
    case Done => i == n
  }

  ghost predicate Inv(s: State, size: nat, n: nat) {
    && ValuesOk(s, size)
    && ThreadOk(s.producer, s.produced, n, s.count < size)
    && ThreadOk(s.consumer, s.consumed, n, s.count > 0)
  }

  lemma InAppend(s: seq<int>, x: int)
    ensures forall v :: v in s + [x] <==> v in s || v == x
  {
  }

  lemma DistinctAppend(s: seq<int>, x: int)
    requires Distinct(s) && x !in s
    ensures Distinct(s + [x])
  {
  }

  lemma ProducerKeepsValues(s: State, size: nat, n: nat)
    requires Inv(s, size, n) && s.count < size
    ensures ValuesOk(ProducerStep(s, n), size)
  {
    var t := ProducerStep(s, n);
    assert Live(t) == Live(s) + [s.produced];
    InAppend(Live(s), s.produced);
    forall a | 0 <= a < s.count
      ensures Live(t)[a] < s.produced
    {
      assert Live(t)[a] == Live(s)[a] && Live(s)[a] in Live(s);
    }
  }

  lemma ConsumerKeepsValues(s: State, size: nat, n: nat)
    requires Inv(s, size, n) && s.count > 0
    ensures ValuesOk(ConsumerStep(s, n), size)
  {
    var t := ConsumerStep(s, n);
    var value := s.buffer[s.count - 1];
    assert Live(s) == Live(t) + [value];
    InAppend(Live(t), value);
    InAppend(s.processed, value);
    DistinctAppend(s.processed, value);
    forall a | 0 <= a < t.count
      ensures Live(t)[a] < value
    {
      assert Live(t)[a] == Live(s)[a] && Live(s)[t.count] == value;
    }
    assert t.processed[..|t.processed| - 1] == s.processed;
    ConsumerKeepsOrder(s, size, value);
  }

  /** Taking the top keeps both statements about the order of the output. */
  lemma ConsumerKeepsOrder(s: State, size: nat, value: int)
    requires ValuesOk(s, size) && s.count > 0 && value == s.buffer[s.count - 1]
    ensures BetweenCameFirst(s.processed + [value]) && Fits(s.processed + [value], size)
  {
    var out := s.processed + [value];
    assert Live(s)[s.count - 1] == value;
    forall i, j, b: int | 0 <= i < j < |out| && out[j] < b < out[i]
      ensures b in out[..j]
    {
      if j < |s.processed| {
        assert out[..j] == s.processed[..j];
      } else {
        assert out[i] in s.processed && value in Live(s) && 0 <= b < s.produced;
        assert out[..j] == s.processed;
      }
    }
    forall j | 0 <= j < |out|
      ensures FitsAt(out, size, j)
    {
      if j < |s.processed| {
        assert FitsAt(s.processed, size, j);
      } else {
        forall i | 0 <= i <= j
          ensures out[i] < size + j
        {
          assert out[i] in Live(s) || out[i] in s.processed;
        }
      }
    }
  }

  lemma StepKeepsInv(s: State, a: Action, t: State, size: nat, n: nat)
    requires size >= 1 && Inv(s, size, n) && Step(s, a, t, n)
    ensures Inv(t, size, n)
  {
    if a.Producer? && s.count < size {
      ProducerKeepsValues(s, size, n);
    } else if a.Consumer? && s.count > 0 {
      ConsumerKeepsValues(s, size, n);
    }
  }

  lemma {:induction false} RunInv(size: nat, n: nat, states: seq<State>, actions: seq<Action>, k: nat)
    requires size >= 1 && IsRun(size, n, states, actions) && k < |states|
    ensures Inv(states[k], size, n)
  {
    if k > 0 {
      RunInv(size, n, states, actions, k - 1);
      StepKeepsInv(states[k - 1], actions[k - 1], states[k], size, n);
    }
  }
}
