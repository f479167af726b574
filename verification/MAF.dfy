/** The ring-buffer moving average filter of MAF.c. */
module MovingAverage {
  import opened Arithmetic
  import opened Sums

  /** The element `age` steps before the newest one, zero before the first input. */
  function Recent(inputs: seq<real>, age: nat): real {
    if age < |inputs| then inputs[|inputs| - 1 - age] else 0.0
  }

  /** The mean of the last `n` inputs, counting zeros before the first. */
  function WindowMean(inputs: seq<real>, n: nat): real
    requires 0 < n
  {
    LastSum(inputs, n) / n as real
  }

  /** What a filter reports: the window mean,
      replaced by `min` when the threshold is enabled and not exceeded. */
  function FilterMean(inputs: seq<real>, n: nat, enabled: int, threshold: real, min: real): real
    requires 0 < n
  {
    var mean := WindowMean(inputs, n);
    if enabled == 1 && mean <= threshold then min else mean
  }

  class MAF {
    var meanValue: real
    var accumulator: real
    var head: nat
    const thresholdEnabled: int
    const thresholdValue: real
    const min: real
    const data: array<real>

    /** Every value the filter was ever given, oldest first. */
    ghost var inputs: seq<real>

    ghost predicate Valid()
      reads this, data
    {
      && head < data.Length
      && head == |inputs| % data.Length
      && accumulator == LastSum(inputs, data.Length)
      && meanValue == (if inputs == [] then 0.0 else Mean())
      && (forall age :: 0 <= age < head ==> data[head - 1 - age] == Recent(inputs, age))
      && (forall age :: head <= age < data.Length ==> data[head - 1 - age + data.Length] == Recent(inputs, age))
    }

    ghost function Mean(): real
      requires data.Length > 0
      reads this
    {
      FilterMean(inputs, data.Length, thresholdEnabled, thresholdValue, min)
    }

    constructor Init(buffer: array<real>, threshold: int, cmp: real, min: real)
      requires buffer.Length > 0
      modifies buffer
      ensures Valid() && inputs == []
      ensures data == buffer && thresholdEnabled == threshold && thresholdValue == cmp && this.min == min
    {
      data := buffer;
      accumulator := 0.0;
      meanValue := 0.0;
      head := 0;
      thresholdEnabled := threshold;
      thresholdValue := cmp;
      this.min := min;
      inputs := [];
      new;
      for i := 0 to data.Length
        modifies data
        invariant forall k :: 0 <= k < i ==> data[k] == 0.0
      {
        data[i] := 0.0;
      }
    }

    /** Adds one input; the running accumulator stays the exact sum of the window. */
    method Update(inputData: real) returns (mean: real)
      requires Valid()
      modifies this, data
      ensures Valid()
      ensures inputs == old(inputs) + [inputData]
      ensures mean == meanValue == Mean()
    {
      ghost var n := data.Length;
      ghost var past := inputs;
      var h := head;
      var lastValue := data[h];
      assert lastValue == Recent(past, n - 1) by {
        assert data[h - 1 - (n - 1) + n] == Recent(past, n - 1);
      }
      accumulator := accumulator - lastValue;
      accumulator := accumulator + inputData;
      data[h] := inputData;
      h := h + 1;
      if h >= data.Length {
        h := 0;
      }
      head := h;
      meanValue := accumulator / data.Length as real;
      if thresholdEnabled == 1 {
        if meanValue <= thresholdValue {
          meanValue := min;
        }
      }
      inputs := inputs + [inputData];
      LastSumStep(past, inputData, n);
      NextHead(|past|, n);
      forall age | 0 <= age < n
        ensures age < head ==> data[head - 1 - age] == Recent(inputs, age)
        ensures head <= age ==> data[head - 1 - age + n] == Recent(inputs, age)
      {
        AgeByOne(past, inputData, age);
      }
      return meanValue;
    }
  }

  lemma AgeByOne(past: seq<real>, x: real, age: nat)
    ensures Recent(past + [x], age) == if age == 0 then x else Recent(past, age - 1)
  {
  }

  lemma NextHead(count: nat, n: nat)
    requires 0 < n
    ensures (count + 1) % n == if count % n + 1 >= n then 0 else count % n + 1
  {
    var q := count / n;
    assert count == q * n + count % n;
    if count % n + 1 >= n {
      assert count + 1 == (q + 1) * n;
      ModOfSum(q + 1, n, 0);
    } else {
      ModOfSum(q, n, count % n + 1);
    }
  }
}
