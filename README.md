# Vegetable-garden yield calculator, modelled in Dafny

This project models the calculation pipeline of a small JavaScript library
(`farm.js`) that works out the yield, costs, revenue and profit of crops. It
also models how an optional selection of environmental conditions adjusts
the yield. The selection sets a level for each of three categories: sun,
wind and soil. Each stage calls the one below it:

- plant yield (`YieldForPlant`): the crop's base yield. When a selection is
  given, it is multiplied by `1 + pct/100` for each category the selection
  has a key for. `pct` is the crop's adjustment for the selected level. The
  library picks one of seven branches according to which keys are present.
- batch yield and costs (`YieldForCrop`, `CostsForCrop`): the per-plant
  value times `numCrops`.
- revenue and profit (`RevenueForCrop`, `ProfitForCrop`): batch yield times
  the sales price, and revenue minus costs.
- farm totals (`TotalYield`, `TotalProfit`): methods with a loop that adds
  each batch's value to a running total, as `farm.js`'s `forEach` does.
  Total yield never passes a selection. Total profit passes the same
  selection to every batch.

Modules: `Wrappers` (Option), `Numbers` (JavaScript numbers), `Crops` (the
records), `PlantYield`, `Batch`, `Totals`, and `Scenarios` (the
documented examples in exact arithmetic).

Numbers are exact rationals. `Number = NaN | Num(real)`: `NaN` stands for
JavaScript's `NaN` and for the `undefined` that the plant-yield function
returns when no branch matches. Each arithmetic operator propagates `NaN`,
as JavaScript's operators do. A `NaN` multiplied by 0 plants stays `NaN`.

Behaviour the model makes explicit:
- A selection object without any of the three keys matches none of the
  seven branches. The library then returns `undefined`, and the model
  returns `NaN`. It is not treated as "no selection".
- A selected level that is missing from the crop's table gives `NaN` for
  every figure that depends on it. So does a whole farm's total profit.
- The library looks up a level in the table of every category, even an
  absent one, but it only applies present categories.
  `AbsentCategoryIgnored` proves that the table of an absent category has no
  effect, provided that table exists (see "## Left out" for a missing one).

The reference definition `SelectedYield` folds the multipliers of the
present categories over the base yield. It is proved equal to the
seven-branch code (`YieldIsFold`).

The crop's `yield` field is called `baseYield` here, because `yield` is a
reserved word in Dafny.

## Model

| member | source | states |
|---|---|---|
| `PlantYield.Multiplier` | farm.js:8-12 | The multiplier of an adjustment is 1 for 0 %, below 1 exactly for a negative adjustment, above 1 exactly for a positive one, and never negative from -100 % up. |
| `PlantYield.YieldForPlant` | farm.js:3-56 | With no selection the plant yield is the base yield unchanged. A selection object with none of the three keys yields no number. |
| `PlantYield.PresentIn` | farm.js:5-7 | The present categories are exactly the listed categories the selection has a key for. |
| `PlantYield.YieldIsFold` | farm.js:14-52 | The seven presence branches compute exactly a fold over the present categories: base yield times each present category's multiplier, and no number when none is present. |
| `PlantYield.ApplyClosedForm` | farm.js:8-51 | Multiplying a start value in turn by a list of category multipliers gives a number exactly when every multiplier is known. That number is the start value times the product of the multipliers. |
| `PlantYield.YieldWithSelection` | farm.js:4-52 | With a selection, the plant yield is a number if and only if the selection has at least one key and every selected level is in the crop's table. It then equals the base yield times the product of the multipliers of exactly the present categories. |
| `PlantYield.AbsentCategoryIgnored` | farm.js:8-12 | Replacing the table of a category the selection has no key for leaves the plant yield unchanged, although the library computes that category's percentage. |
| `PlantYield.FirstCategory` | farm.js:14-27 | Selecting one category, compared with giving no selection, multiplies the yield by exactly that category's multiplier. |
| `PlantYield.AddCategory` | farm.js:14-51 | Adding a key for one more category to a non-empty selection multiplies the previous plant yield by exactly that category's multiplier and changes nothing else. |
| `PlantYield.CategoryMultiplier` | farm.js:8-12 | A category the selection has no key for never gives a number; otherwise the multiplier is a number exactly when the selected level is in the crop's table for that category. Its value, by definition, is `Multiplier` of the table entry. |
| `Batch.YieldForCrop` | farm.js:59-61 | Batch yield is a number exactly when the plant yield under the same selection is; one plant yields the plant yield; 0 plants yield 0 when the plant yield is a number. Scaling and additivity are in `YieldForCropScales` and `YieldForCropAdditive`. |
| `Batch.CostsForCrop` | farm.js:73-76 | Costs take no selection; they are 0 for an empty batch and the cost per plant for one plant. Additivity is in `CostsForCropLinear`. |
| `Batch.RevenueForCrop` | farm.js:79-81 | Revenue is a number exactly when the plant yield under the same selection is, and 0 at a sales price of 0. Its value is in `RevenueForCropValue`. |
| `Batch.ProfitForCrop` | farm.js:84-88 | Profit is a number exactly when the plant yield under the same selection is, and 0 for an empty batch. Revenue minus costs and the margin form are in `ProfitIsMargin`. |
| `Batch.YieldForCropScales` | farm.js:59-61 | A batch of one plant yields the plant yield. A batch yield is a number exactly when the plant yield is, and it then equals plant yield times `numCrops`. 0 plants give 0 when the plant yield is a number. |
| `Batch.YieldForCropAdditive` | farm.js:59-61 | Batch yield is additive in `numCrops` under the same selection. |
| `Batch.CostsForCropLinear` | farm.js:73-76 | Batch costs are additive in `numCrops`, are 0 for an empty batch, and equal the per-plant cost for one plant. No selection is involved. |
| `Batch.RevenueForCropValue` | farm.js:79-81 | Revenue is a number exactly when the plant yield is. It then equals plant yield times `numCrops` times the sales price, under the same selection. |
| `Batch.ProfitIsMargin` | farm.js:84-88 | Profit is exactly revenue minus costs, under the same selection. It equals `numCrops` times the per-plant margin, so for a non-empty batch it is negative exactly when the margin is. |
| `Totals.TotalYield` | farm.js:64-70 | The loop's running total, started at 0 and given each batch's yield with no selection, ends as the total of the per-batch yields. |
| `Totals.TotalProfit` | farm.js:91-97 | The loop's running total, started at 0 and given each batch's profit under the one selection, ends as the total of the per-batch profits. |
| `Totals.TotalConcat` | farm.js:65-68 | The running total of two runs of values one after the other is the sum of their totals. |
| `Totals.TotalDefined` | farm.js:92-95 | The running total is a number exactly when every added value is. One `NaN` poisons it. |
| `Totals.TotalCommutes` | farm.js:65-68 | Adding two runs of batch values in either order gives the same total. |
| `Totals.TotalYieldIsProduce` | farm.js:64-70 | Total yield, which never applies a selection, is always a number. It equals the sum over the batches of base yield times `numCrops`, and is 0 for a farm with no batches. |
| `Totals.AppendBatchYield` | farm.js:66-68 | Appending a batch adds exactly its own yield to the total yield. |
| `Totals.AppendBatchProfit` | farm.js:93-95 | Appending a batch adds exactly its own profit, under the common selection, to the total profit. |
| `Totals.TotalProfitDefined` | farm.js:91-97 | Total profit is a number if and only if every batch's plant yield under the common selection is. It always is with no selection. With a selection that has no key, it is a number only for a farm with no batches. |
| `Totals.TotalProfitIsRevenueMinusCosts` | farm.js:84-97 | Total profit equals total revenue minus total costs, `NaN` included. |
| `Scenarios.PlainFigures` | farm.test.js:18-119 | Without a selection, a plant yielding 30 yields 30. Ten plants yielding 3 yield 30. Ten corn plants cost 10, earn 60 and make a profit of 50. |
| `Scenarios.OneBatchYield` | farm.test.js:56-64 | The total yield of one batch is its own yield, and 0 for a batch of 0 plants. |
| `Scenarios.TotalYieldFigure` | farm.test.js:40-54 | 5 plants yielding 3 plus 2 plants yielding 4 give a total yield of 23. |
| `Scenarios.TotalProfitFigure` | farm.test.js:123-153 | Corn, potato and apple with no selection give a total profit of 189. |
| `Scenarios.PotatoFigure` | farm.test.js:215-219 | The potato in low sun, high wind and silt yields exactly 1.96 (4 × 0.5 × 0.7 × 1.4). |
| `Scenarios.CornFigure` | farm.test.js:221-223 | The corn plant in low sun, high wind and silt yields 21. |
| `Scenarios.CornBatchFigure` | farm.test.js:228-265 | Ten corn plants in high sun, high wind and sandy soil yield 36. |
| `Scenarios.CornProfitFigure` | farm.test.js:269-309 | Ten corn plants in high sun, medium wind and silt make a profit of 116. |
| `Scenarios.LowLowSiltYields` | farm.test.js:314-402 | In low sun, low wind and silt, the corn, potato and apple plants yield 2.1, 3.08 and 6.93. |
| `Scenarios.TotalProfitWithSelectionFigure` | farm.test.js:404-406 | Corn, potato and apple in low sun, low wind and silt give a total profit of exactly 228.7. |
| `Scenarios.LossFigure` | farm.js:84-88 | A loss is an ordinary negative profit (-9 for the batch shown), not an error. |
| `Scenarios.EdgeFigures` | farm.js:14-52 | A selection without keys yields no number. An unknown level yields `NaN`. A single wind key applies only the wind multiplier (4 × 1.1 = 4.4). |

## Left out

- Floating point: the model computes in exact rationals. The library's
  binary results can differ in the last digits: the potato scenario returns
  1.9599999999999997 where the model gives 1.96. Infinities are not modelled.
- Missing `costs` or `salesPrice`: in the library they make revenue or profit
  `NaN`. In the model every crop has both fields.
- A crop without a `factors` object, or whose `factors` lacks the sun, wind
  or soil table: the library reads all three tables on every call with a
  selection, so it throws a `TypeError` for every selection, even one that
  never names the missing category. The model has no missing table: it
  gives such a crop empty tables, so an absent category has no effect, a
  present category with an empty table yields `NaN`, and there is no
  exception.
- `undefined` versus `NaN`: the plant-yield function returns `undefined`
  when no branch matches. The model folds this into `NaN`, which is what
  every later stage turns it into.
- Dynamic object shapes: the model reads a selection as three optional
  fields. So it does not represent a key that is present but holds
  `undefined` (`{sun: undefined}`, which the library counts as present). It
  also does not represent keys that the `in` operator finds on the
  prototype chain, or level names that hit inherited object properties.
- The crop's `name` field: it is descriptive only and never read.
- Input validation: `numCrops` is any real number, because the library
  checks nothing. A negative or fractional count is computed as written.
