/**
 * The calculator's documented scenarios, in exact arithmetic.
 */
module Scenarios {
  import opened Wrappers
  import opened Numbers
  import opened Crops
  import opened PlantYield
  import opened Batch
  import opened Totals

  /** Sensitivity table shared by the potato and the apple, apart from sun. */
  const PotatoFactors: Factors :=
    Factors(map["low" := -50, "medium" := 0, "high" := 50],
            map["low" := 10, "medium" := -20, "high" := -30],
            map["sandy" := 0, "clay" := 0, "silt" := 40])

  const CornFactors: Factors :=
    Factors(map["low" := -50, "medium" := 0, "high" := 50],
            map["low" := 0, "medium" := 0, "high" := 0],
            map["sandy" := -20, "clay" := 0, "silt" := 40])

  const AppleFactors: Factors :=
    PotatoFactors.(sun := map["low" := -10, "medium" := 0, "high" := 40])

  /** Crops with a price and costs; crops that have none carry zeros, which no yield calculation reads. */
  const Corn: Crop := Crop(3.0, 1.0, 2.0, CornFactors)
  const Potato: Crop := Crop(4.0, 3.0, 5.0, PotatoFactors)
  const Apple: Crop := Crop(5.0, 2.0, 3.0, AppleFactors)

  function Select(sun: string, wind: string, soil: string): Selection
  {
    Selection(Some(sun), Some(wind), Some(soil))
  }

  /** Plant, batch, cost, revenue and profit figures without a selection. */
  lemma PlainFigures()
    ensures YieldForPlant(Crop(30.0, 0.0, 0.0, NoFactors), None) == Num(30.0)
    ensures YieldForCrop(CropBatch(Crop(3.0, 0.0, 0.0, NoFactors), 10.0), None) == Num(30.0)
    ensures CostsForCrop(CropBatch(Corn, 10.0)) == 10.0
    ensures RevenueForCrop(CropBatch(Corn, 10.0), None) == Num(60.0)
    ensures ProfitForCrop(CropBatch(Corn, 10.0), None) == Num(50.0)
  {
  }

  /** Total yield of one batch: its own yield; 0 for an empty batch. */
  lemma OneBatchYield(b: CropBatch)
    ensures Total(BatchYields([b])) == Num(b.crop.baseYield * b.numCrops)
    ensures b.numCrops == 0.0 ==> Total(BatchYields([b])) == Num(0.0)
  {
    assert BatchYields([]) == [];
    AppendBatchYield([], b);
    assert [] + [b] == [b];
  }

  /** Total yield of 5 plants yielding 3 and 2 plants yielding 4: 23. */
  lemma TotalYieldFigure()
    ensures Total(BatchYields([CropBatch(Crop(3.0, 0.0, 0.0, NoFactors), 5.0),
                               CropBatch(Crop(4.0, 0.0, 0.0, NoFactors), 2.0)])) == Num(23.0)
  {
    var b1, b2 := CropBatch(Crop(3.0, 0.0, 0.0, NoFactors), 5.0), CropBatch(Crop(4.0, 0.0, 0.0, NoFactors), 2.0);
    OneBatchYield(b1);
    AppendBatchYield([b1], b2);
    assert [b1] + [b2] == [b1, b2];
  }

  /** Total profit of corn, potato and apple without a selection. */
  lemma TotalProfitFigure()
    ensures Total(BatchProfits([CropBatch(Corn, 5.0), CropBatch(Potato, 2.0), CropBatch(Apple, 10.0)], None))
            == Num(189.0)
  {
    assert ProfitForCrop(CropBatch(Corn, 5.0), None) == Num(25.0);
    assert ProfitForCrop(CropBatch(Potato, 2.0), None) == Num(34.0);
    assert ProfitForCrop(CropBatch(Apple, 10.0), None) == Num(130.0);
    ThreeBatches(CropBatch(Corn, 5.0), CropBatch(Potato, 2.0), CropBatch(Apple, 10.0), None, 25.0, 34.0, 130.0);
  }

  /**
   * All three categories selected, for a potato plant: 4 x 0.5 x 0.7 x 1.4 = 1.96
   * exactly (a binary floating-point product gives 1.9599999999999997).
   */
  lemma PotatoFigure()
    ensures YieldForPlant(Crop(4.0, 0.0, 0.0, PotatoFactors), Some(Select("low", "high", "silt"))) == Num(1.96)
  {
  }

  /** All three categories selected, for a corn plant: 30 x 0.5 x 1 x 1.4 = 21. */
  lemma CornFigure()
    ensures YieldForPlant(Crop(30.0, 0.0, 0.0, CornFactors), Some(Select("low", "high", "silt"))) == Num(21.0)
  {
  }

  /** Ten corn plants in high sun, high wind and sandy soil: 10 x 3 x 1.5 x 1 x 0.8 = 36. */
  lemma CornBatchFigure()
    ensures YieldForCrop(CropBatch(Crop(3.0, 0.0, 0.0, CornFactors), 10.0), Some(Select("high", "high", "sandy")))
            == Num(36.0)
  {
  }

  /** Profit of ten corn plants in high sun, medium wind and silt: 10 x 6.3 x 2 - 10 = 116. */
  lemma CornProfitFigure()
    ensures ProfitForCrop(CropBatch(Corn, 10.0), Some(Select("high", "medium", "silt"))) == Num(116.0)
  {
  }

  /** Plant yields in low sun, low wind and silt. */
  lemma LowLowSiltYields()
    ensures YieldForPlant(Corn, Some(Select("low", "low", "silt"))) == Num(2.1)
    ensures YieldForPlant(Potato, Some(Select("low", "low", "silt"))) == Num(3.08)
    ensures YieldForPlant(Apple, Some(Select("low", "low", "silt"))) == Num(6.93)
  {
  }

  /**
   * Total profit of corn, potato and apple in low sun, low wind and silt:
   * 16 + 24.8 + 187.9 = 228.7.
   */
  lemma TotalProfitWithSelectionFigure()
    ensures Total(BatchProfits([CropBatch(Corn, 5.0), CropBatch(Potato, 2.0), CropBatch(Apple, 10.0)],
                               Some(Select("low", "low", "silt"))))
            == Num(228.7)
  {
    var env := Some(Select("low", "low", "silt"));
    LowLowSiltYields();
    ProfitIsMargin(CropBatch(Corn, 5.0), env);
    ProfitIsMargin(CropBatch(Potato, 2.0), env);
    ProfitIsMargin(CropBatch(Apple, 10.0), env);
    ThreeBatches(CropBatch(Corn, 5.0), CropBatch(Potato, 2.0), CropBatch(Apple, 10.0), env, 16.0, 24.8, 187.9);
  }

  /** A loss is not flagged: it is an ordinary negative profit. */
  lemma LossFigure()
    ensures ProfitForCrop(CropBatch(Crop(1.0, 5.0, 2.0, NoFactors), 3.0), None) == Num(-9.0)
  {
  }

  /**
   * A selection object without keys gives no number, a selected level
   * missing from the crop's table gives NaN, and a single selected category
   * applies only its own multiplier.
   */
  lemma EdgeFigures()
    ensures YieldForPlant(Potato, Some(Selection(None, None, None))) == NaN
    ensures YieldForPlant(Potato, Some(Selection(Some("extreme"), None, None))) == NaN
    ensures YieldForPlant(Potato, Some(Selection(None, Some("low"), None))) == Num(4.4)
  {
  }

  /** The total profit of three batches from the profits of each. */
  lemma ThreeBatches(b1: CropBatch, b2: CropBatch, b3: CropBatch, env: Option<Selection>, p1: real, p2: real, p3: real)
    requires ProfitForCrop(b1, env) == Num(p1)
    requires ProfitForCrop(b2, env) == Num(p2)
    requires ProfitForCrop(b3, env) == Num(p3)
    ensures Total(BatchProfits([b1, b2, b3], env)) == Num(p1 + p2 + p3)
  {
    assert BatchProfits([], env) == [];
    AppendBatchProfit([], b1, env);
    assert [] + [b1] == [b1];
    AppendBatchProfit([b1], b2, env);
    assert [b1] + [b2] == [b1, b2];
    AppendBatchProfit([b1, b2], b3, env);
    assert [b1, b2] + [b3] == [b1, b2, b3];
  }
}
