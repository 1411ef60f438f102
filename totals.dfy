/**
 * Farm-wide aggregation: the running totals of yield and of profit over the
 * batches of a farm.
 */
module Totals {
  import opened Wrappers
  import opened Numbers
  import opened Crops
  import opened PlantYield
  import opened Batch

  /**
   * The value an accumulator reaches that starts at 0 and adds each element
   * of `xs` in order; NaN once any element is NaN.
   */
  function Total(xs: seq<Number>): (t: Number)
    decreases |xs|
  {
    if xs == [] then Num(0.0) else Add(Total(xs[..|xs| - 1]), xs[|xs| - 1])
  }

  /** The yield of each batch, with no selection. */
  function BatchYields(crops: seq<CropBatch>): (ys: seq<Number>)
    ensures |ys| == |crops|
  {
    seq(|crops|, i requires 0 <= i < |crops| => YieldForCrop(crops[i], None))
  }

  /** The profit of each batch, every one under the same selection. */
  function BatchProfits(crops: seq<CropBatch>, env: Option<Selection>): (ps: seq<Number>)
    ensures |ps| == |crops|
  {
    seq(|crops|, i requires 0 <= i < |crops| => ProfitForCrop(crops[i], env))
  }

  /** The revenue of each batch under the same selection. */
  function BatchRevenues(crops: seq<CropBatch>, env: Option<Selection>): (rs: seq<Number>)
    ensures |rs| == |crops|
  {
    seq(|crops|, i requires 0 <= i < |crops| => RevenueForCrop(crops[i], env))
  }

  /** The costs of each batch. */
  function BatchCosts(crops: seq<CropBatch>): (cs: seq<Number>)
    ensures |cs| == |crops|
  {
    seq(|crops|, i requires 0 <= i < |crops| => Num(CostsForCrop(crops[i])))
  }

  /** Kilograms the batches produce under neutral conditions, summed front to back. */
  function Produce(crops: seq<CropBatch>): (p: real)
    decreases |crops|
  {
    if crops == [] then 0.0
    else crops[0].crop.baseYield * crops[0].numCrops + Produce(crops[1..])
  }

  /** Total yield of a farm: each batch's yield, with no selection, added to a running total. */
  method TotalYield(farm: Farm) returns (total: Number)
    ensures total == Total(BatchYields(farm.crops))
  {
    var crops := farm.crops;
    total := Num(0.0);
    for i := 0 to |crops|
      invariant total == Total(BatchYields(crops[..i]))
    {
      total := Add(total, YieldForCrop(crops[i], None));
      assert BatchYields(crops[..i + 1])[..i] == BatchYields(crops[..i]);
    }
    assert crops[..|crops|] == crops;
  }

  /** Total profit of a farm: each batch's profit, under the same selection, added to a running total. */
  method TotalProfit(farm: Farm, env: Option<Selection>) returns (total: Number)
    ensures total == Total(BatchProfits(farm.crops, env))
  {
    var crops := farm.crops;
    total := Num(0.0);
    for i := 0 to |crops|
      invariant total == Total(BatchProfits(crops[..i], env))
    {
      total := Add(total, ProfitForCrop(crops[i], env));
      assert BatchProfits(crops[..i + 1], env)[..i] == BatchProfits(crops[..i], env);
    }
    assert crops[..|crops|] == crops;
  }

  // ---------------------------------------------------------------------
  // The running total
  // ---------------------------------------------------------------------

  /** The total of two runs one after the other is the sum of their totals. */
  lemma {:induction false} TotalConcat(xs: seq<Number>, ys: seq<Number>)
    ensures Total(xs + ys) == Add(Total(xs), Total(ys))
    decreases |ys|
  {
    if ys == [] {
      assert xs + ys == xs;
    } else {
      var last := ys[|ys| - 1];
      assert (xs + ys)[..|xs + ys| - 1] == xs + ys[..|ys| - 1];
      TotalConcat(xs, ys[..|ys| - 1]);
    }
  }

  /** The total is a number exactly when every element is: one NaN poisons it. */
  lemma {:induction false} TotalDefined(xs: seq<Number>)
    ensures Total(xs).Num? <==> forall i :: 0 <= i < |xs| ==> xs[i].Num?
    decreases |xs|
  {
    if xs != [] {
      var init := xs[..|xs| - 1];
      TotalDefined(init);
      assert forall i :: 0 <= i < |init| ==> init[i] == xs[i];
    }
  }

  /** Adding the runs in either order gives the same total. */
  lemma TotalCommutes(xs: seq<Number>, ys: seq<Number>)
    ensures Total(xs + ys) == Total(ys + xs)
  {
    TotalConcat(xs, ys);
    TotalConcat(ys, xs);
  }

  // ---------------------------------------------------------------------
  // Total yield
  // ---------------------------------------------------------------------

  /**
   * Total yield takes no selection, so it is always a number: the kilograms
   * the batches produce under neutral conditions, and 0 for a farm without
   * batches.
   */
  lemma {:induction false} TotalYieldIsProduce(crops: seq<CropBatch>)
    ensures Total(BatchYields(crops)) == Num(Produce(crops))
    decreases |crops|
  {
    if crops != [] {
      var h, t := crops[0], crops[1..];
      TotalYieldIsProduce(t);
      var first := YieldForCrop(h, None);
      BatchYieldsCons(crops);
      TotalCons(first, BatchYields(t));
      YieldForCropScales(h.crop, h.numCrops, None);
    }
  }

  /** The per-batch yields of a non-empty run: the first batch's, then the rest. */
  lemma BatchYieldsCons(crops: seq<CropBatch>)
    requires crops != []
    ensures BatchYields(crops) == [YieldForCrop(crops[0], None)] + BatchYields(crops[1..])
  {
  }

  /** Adding a first element to a run adds it to the run's total. */
  lemma TotalCons(x: Number, xs: seq<Number>)
    ensures Total([x] + xs) == Add(x, Total(xs))
  {
    TotalConcat([x], xs);
    assert [x][..0] == [];
  }

  /** Appending a batch adds exactly its own yield, with no selection, to the total yield. */
  lemma AppendBatchYield(crops: seq<CropBatch>, b: CropBatch)
    ensures Total(BatchYields(crops + [b])) == Add(Total(BatchYields(crops)), YieldForCrop(b, None))
  {
    assert BatchYields(crops + [b])[..|crops|] == BatchYields(crops);
  }

  // ---------------------------------------------------------------------
  // Total profit
  // ---------------------------------------------------------------------

  /** Appending a batch adds exactly its own profit, under the common selection, to the total profit. */
  lemma AppendBatchProfit(crops: seq<CropBatch>, b: CropBatch, env: Option<Selection>)
    ensures Total(BatchProfits(crops + [b], env)) == Add(Total(BatchProfits(crops, env)), ProfitForCrop(b, env))
  {
    assert BatchProfits(crops + [b], env)[..|crops|] == BatchProfits(crops, env);
  }

  /**
   * The same selection applies to every batch: the total profit is a number
   * exactly when the plant yield of every batch's crop under that selection
   * is. So with no selection it always is, and with a selection that has no
   * key it is NaN unless the farm has no batches.
   */
  lemma TotalProfitDefined(crops: seq<CropBatch>, env: Option<Selection>)
    ensures Total(BatchProfits(crops, env)).Num?
            <==> forall i :: 0 <= i < |crops| ==> YieldForPlant(crops[i].crop, env).Num?
    ensures env.None? ==> Total(BatchProfits(crops, env)).Num?
    ensures env.Some? && env.value.IsEmpty() ==> (Total(BatchProfits(crops, env)).Num? <==> crops == [])
  {
    var ps := BatchProfits(crops, env);
    TotalDefined(ps);
    forall i | 0 <= i < |crops|
      ensures ps[i].Num? <==> YieldForPlant(crops[i].crop, env).Num?
    {
      ProfitIsMargin(crops[i], env);
      RevenueForCropValue(crops[i], env);
    }
    if env.Some? && env.value.IsEmpty() && crops != [] {
      assert !YieldForPlant(crops[0].crop, env).Num?;
    }
  }

  /** Total profit is total revenue minus total costs, NaN included. */
  lemma {:induction false} TotalProfitIsRevenueMinusCosts(crops: seq<CropBatch>, env: Option<Selection>)
    ensures Total(BatchProfits(crops, env)) == Sub(Total(BatchRevenues(crops, env)), Total(BatchCosts(crops)))
    decreases |crops|
  {
    if crops != [] {
      var init, b := crops[..|crops| - 1], crops[|crops| - 1];
      TotalProfitIsRevenueMinusCosts(init, env);
      assert BatchProfits(crops, env)[..|init|] == BatchProfits(init, env);
      assert BatchRevenues(crops, env)[..|init|] == BatchRevenues(init, env);
      assert BatchCosts(crops)[..|init|] == BatchCosts(init);
      TotalDefined(BatchCosts(init));
    }
  }
}
