/**
 * Per-batch figures: yield, costs, revenue and profit of `numCrops` plants
 * of one crop, under the same optional selection as the plant yield.
 */
module Batch {
  import opened Wrappers
  import opened Numbers
  import opened Crops
  import opened PlantYield

  /** Yield of a batch: the plant yield times the number of plants. */
  function YieldForCrop(batch: CropBatch, env: Option<Selection>): (r: Number)
    ensures r.Num? <==> YieldForPlant(batch.crop, env).Num?
    ensures batch.numCrops == 1.0 ==> r == YieldForPlant(batch.crop, env)
    ensures batch.numCrops == 0.0 && YieldForPlant(batch.crop, env).Num? ==> r == Num(0.0)
  {
    Mul(YieldForPlant(batch.crop, env), Num(batch.numCrops))
  }

  /** Costs of a batch: cost per plant times the number of plants; no selection involved. */
  function CostsForCrop(batch: CropBatch): (c: real)
    ensures batch.numCrops == 0.0 ==> c == 0.0
    ensures batch.numCrops == 1.0 ==> c == batch.crop.costs
  {
    batch.crop.costs * batch.numCrops
  }

  /** Revenue of a batch: its yield times the sales price per kilogram. */
  function RevenueForCrop(batch: CropBatch, env: Option<Selection>): (r: Number)
    ensures r.Num? <==> YieldForPlant(batch.crop, env).Num?
    ensures batch.crop.salesPrice == 0.0 && r.Num? ==> r == Num(0.0)
  {
    Mul(YieldForCrop(batch, env), Num(batch.crop.salesPrice))
  }

  /** Profit of a batch: revenue minus costs. */
  function ProfitForCrop(batch: CropBatch, env: Option<Selection>): (r: Number)
    ensures r.Num? <==> YieldForPlant(batch.crop, env).Num?
    ensures batch.numCrops == 0.0 && r.Num? ==> r == Num(0.0)
  {
    Sub(RevenueForCrop(batch, env), Num(CostsForCrop(batch)))
  }

  /**
   * A batch of one plant yields what the plant yields; otherwise the batch
   * yield is a number exactly when the plant yield is, and scales with the
   * number of plants, so an empty batch of a crop with a defined yield
   * yields 0 while an undefined plant yield stays NaN even for 0 plants.
   */
  lemma YieldForCropScales(crop: Crop, n: real, env: Option<Selection>)
    ensures YieldForCrop(CropBatch(crop, 1.0), env) == YieldForPlant(crop, env)
    ensures YieldForCrop(CropBatch(crop, n), env).Num? <==> YieldForPlant(crop, env).Num?
    ensures YieldForPlant(crop, env).Num? ==>
              YieldForCrop(CropBatch(crop, n), env) == Num(YieldForPlant(crop, env).value * n)
    ensures YieldForPlant(crop, env).Num? ==> YieldForCrop(CropBatch(crop, 0.0), env) == Num(0.0)
  {
  }

  /** Batch yield is additive in the number of plants. */
  lemma YieldForCropAdditive(crop: Crop, n: real, m: real, env: Option<Selection>)
    ensures YieldForCrop(CropBatch(crop, n + m), env)
            == Add(YieldForCrop(CropBatch(crop, n), env), YieldForCrop(CropBatch(crop, m), env))
  {
  }

  /**
   * Costs are additive in the number of plants, zero for an empty batch,
   * and the cost per plant for a batch of one.
   */
  lemma CostsForCropLinear(crop: Crop, n: real, m: real)
    ensures CostsForCrop(CropBatch(crop, n + m)) == CostsForCrop(CropBatch(crop, n)) + CostsForCrop(CropBatch(crop, m))
    ensures CostsForCrop(CropBatch(crop, 0.0)) == 0.0
    ensures CostsForCrop(CropBatch(crop, 1.0)) == crop.costs
  {
  }

  /**
   * Revenue is the plant yield times the number of plants times the sales
   * price, and is a number exactly when the plant yield is.
   */
  lemma RevenueForCropValue(batch: CropBatch, env: Option<Selection>)
    ensures RevenueForCrop(batch, env).Num? <==> YieldForPlant(batch.crop, env).Num?
    ensures YieldForPlant(batch.crop, env).Num? ==>
              RevenueForCrop(batch, env).value
              == YieldForPlant(batch.crop, env).value * batch.numCrops * batch.crop.salesPrice
  {
  }

  /**
   * Profit is exactly revenue minus costs under the same selection, a
   * number exactly when the plant yield is; it equals the number of plants
   * times the margin per plant (plant yield times price, minus cost per
   * plant), so for a non-empty batch it is negative exactly when that margin is.
   */
  lemma ProfitIsMargin(batch: CropBatch, env: Option<Selection>)
    ensures ProfitForCrop(batch, env).Num? <==> RevenueForCrop(batch, env).Num?
    ensures ProfitForCrop(batch, env).Num? ==>
              ProfitForCrop(batch, env).value == RevenueForCrop(batch, env).value - CostsForCrop(batch)
    ensures YieldForPlant(batch.crop, env).Num? ==>
              ProfitForCrop(batch, env).value
              == batch.numCrops * (YieldForPlant(batch.crop, env).value * batch.crop.salesPrice - batch.crop.costs)
    ensures YieldForPlant(batch.crop, env).Num? && batch.numCrops > 0.0 ==>
              (ProfitForCrop(batch, env).value < 0.0
               <==> YieldForPlant(batch.crop, env).value * batch.crop.salesPrice < batch.crop.costs)
  {
  }
}
