/** A bank of moving average filters over buffers of one length, as CPT.c allocates them
    for each phase and for the collective values. */
module Filters {
  import opened MovingAverage
  import opened CPTState

  class FilterBank {
    const window: nat
    const floored: seq<bool>
    const maf: seq<MAF>
    ghost const Repr: set<object>

    /** What every filter of the bank has been given. */
    ghost var inputs: seq<seq<real>>

    ghost predicate Configured(k: nat)
      requires k < |floored| == |maf|
    {
      var m := maf[k];
      && m in Repr && m.data in Repr
      && m.data.Length == window && m.thresholdValue == 0.0
      && (if floored[k] then m.thresholdEnabled == 1 && m.min == THR_MIN else m.thresholdEnabled == 0 && m.min == 0.0)
    }

    ghost predicate Separate(j: nat, k: nat)
      requires j < |maf| && k < |maf|
    {
      maf[j] != maf[k] && maf[j].data != maf[k].data
    }

    ghost predicate FilterValid(k: nat)
      requires k < |maf| == |floored| && Configured(k)
      reads this, Repr
    {
      maf[k].Valid() && k < |inputs| && maf[k].inputs == inputs[k]
    }

    ghost predicate Valid()
      reads this, Repr
    {
      && window > 0 && |maf| == |floored| == |inputs| && this !in Repr
      && (forall k: nat :: k < |maf| ==> Configured(k))
      && (forall j: nat, k: nat :: j < |maf| && k < |maf| && j != k ==> Separate(j, k))
      && (forall k: nat :: k < |maf| ==> FilterValid(k))
    }

    /** What filter `k` has been given; nothing for an index outside the bank. */
    ghost function Input(k: nat): seq<real>
      reads this
    {
      if k < |inputs| then inputs[k] else []
    }

    ghost function MeanOf(h: seq<real>, k: nat): real
      requires k < |floored| && window > 0
    {
      if floored[k] then FilterMean(h, window, 1, 0.0, THR_MIN) else FilterMean(h, window, 0, 0.0, 0.0)
    }

    constructor (window: nat, floored: seq<bool>)
      requires window > 0
      ensures Valid() && fresh(Repr)
      ensures this.window == window && this.floored == floored && |maf| == |floored|
      ensures inputs == seq(|floored|, _ => [])
    {
      var bank: seq<MAF> := [];
      ghost var repr: set<object> := {};
      for k := 0 to |floored|
        invariant |bank| == k && fresh(repr)
        invariant forall j :: 0 <= j < k ==> bank[j] in repr && bank[j].data in repr
        invariant forall j :: 0 <= j < k ==> fresh(bank[j]) && fresh(bank[j].data)
        invariant forall j :: 0 <= j < k ==> bank[j].Valid() && bank[j].inputs == []
        invariant forall j :: 0 <= j < k ==> bank[j].data.Length == window && bank[j].thresholdValue == 0.0
        invariant forall j :: 0 <= j < k ==> if floored[j] then bank[j].thresholdEnabled == 1 && bank[j].min == THR_MIN
                                             else bank[j].thresholdEnabled == 0 && bank[j].min == 0.0
        invariant forall i, j :: 0 <= i < k && 0 <= j < k && i != j ==>
            bank[i] != bank[j] && bank[i].data != bank[j].data
      {
        var buffer := new real[window];
        var m := new MAF.Init(buffer, if floored[k] then 1 else 0, 0.0, if floored[k] then THR_MIN else 0.0);
        bank := bank + [m];
        repr := repr + {m, buffer};
      }
      this.window, this.floored, this.maf, this.Repr := window, floored, bank, repr;
      inputs := seq(|floored|, _ => []);
    }

    /** Feeds filter `k` and no other. */
    method Update(k: nat, inputData: real) returns (mean: real)
      requires Valid() && k < |maf|
      modifies this, Repr
      ensures Valid()
      ensures Input(k) == old(Input(k)) + [inputData]
      ensures forall j: nat :: j != k ==> Input(j) == old(Input(j))
      ensures mean == MeanOf(Input(k), k)
    {
      assert Configured(k) && FilterValid(k);
      mean := maf[k].Update(inputData);
      inputs := inputs[k := inputs[k] + [inputData]];
      forall j: nat | j < |maf|
        ensures FilterValid(j)
      {
        if j != k {
          assert Configured(j) && Separate(j, k) && old(FilterValid(j));
        }
      }
    }
  }
}
