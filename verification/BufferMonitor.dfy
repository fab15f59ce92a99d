/** Test 2 on the program's own variables: the critical sections update the array in place, and
    a scheduler that picks freely among the threads that can move runs them to the end. */
module BufferMonitor {
  import opened BufferModel
  import opened BufferTheorems

  class BoundedBuffer {
    const buffer: array<int>
    const values: nat
    var count: int
    var producer: Pc
    var produced: nat
    var consumer: Pc
    var consumed: nat
    var processedValueSum: int
    var processedValueCount: int
    ghost var processed: seq<int>

    ghost function View(): State
      reads this, buffer
    {
      State(buffer[..], count, producer, produced, consumer, consumed,
            processedValueSum, processedValueCount, processed)
    }

    ghost predicate Valid()
      reads this, buffer
    {
      buffer.Length >= 1 && Inv(View(), buffer.Length, values)
    }

    constructor (size: nat, values: nat)
      requires size >= 1
      ensures Valid() && fresh(buffer) && buffer.Length == size && this.values == values
      ensures Initial(View(), size, values)
    {
      buffer := new int[size](_ => 0);
      this.values := values;
      count, produced, consumed := 0, 0, 0;
      producer, consumer := NextPc(0, values), NextPc(0, values);
      processedValueSum, processedValueCount := 0, 0;
      processed := [];
      new;
    }

    method ProcessValue(value: int)
      modifies this`processedValueSum, this`processedValueCount, this`processed
      ensures processedValueSum == old(processedValueSum) + value
      ensures processedValueCount == old(processedValueCount) + 1
      ensures processed == old(processed) + [value]
    {
      processedValueSum := processedValueSum + value;
      processedValueCount := processedValueCount + 1;
      processed := processed + [value];
    }

    /** From taking the mutex, or waking, to the next wait or release. */
    method ProducerSection()
      requires Valid() && !producer.Done?
      modifies this, buffer
      ensures Valid() && View() == ProducerStep(old(View()), values)
    {
      ghost var before := View();
      if count == buffer.Length {
        producer := Blocked(false);
      } else {
        buffer[count] := produced;
        count := count + 1;
        consumer := Signal(consumer);
        produced := produced + 1;
        producer := NextPc(produced, values);
      }
      assert View() == ProducerStep(before, values);
      StepKeepsInv(before, Producer, View(), buffer.Length, values);
    }

    method ConsumerSection()
      requires Valid() && !consumer.Done?
      modifies this
      ensures Valid() && View() == ConsumerStep(old(View()), values)
    {
      ghost var before := View();
      if count == 0 {
        consumer := Blocked(false);
      } else {
        count := count - 1;
        var value := buffer[count];
        ProcessValue(value);
        producer := Signal(producer);
        consumed := consumed + 1;
        consumer := NextPc(consumed, values);
      }
      assert View() == ConsumerStep(before, values);
      StepKeepsInv(before, Consumer, View(), buffer.Length, values);
    }

    /** Whatever the scheduler chooses, both threads end and every value has been processed. */
    method RunToEnd()
      requires Valid()
      modifies this, buffer
      ensures Valid() && producer.Done? && consumer.Done?
      ensures processedValueCount == values && 2 * processedValueSum == values * (values - 1)
      ensures IsPermutation(processed, values) && !HasForbiddenPattern(processed)
    {
      while true
        invariant Valid()
        decreases Rank(View(), values)
      {
        ghost var before := View();
        if
        case producer == AtLock || producer == Blocked(true) =>
          ProducerSection();
          StepUsesRank(before, Producer, View(), buffer.Length, values);
        case consumer == AtLock || consumer == Blocked(true) =>
          ConsumerSection();
          StepUsesRank(before, Consumer, View(), buffer.Length, values);
        case !(producer == AtLock || producer == Blocked(true) || consumer == AtLock || consumer == Blocked(true)) =>
          break;
      }
      assert Live(View()) == [];
      SumOfPermutation(processed, values);
      BetweenExcludesPattern(processed);
    }
  }
}
