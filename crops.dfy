/**
 * The records the calculator reads: crops, batches of one crop, a farm, and
 * the environmental selection applied to a calculation.
 */
module Crops {
  import opened Wrappers

  /** The three environmental categories a crop can be sensitive to. */
  datatype Category = Sun | Wind | Soil

  /** The categories in the order the calculator tests them. */
  const AllCategories: seq<Category> := [Sun, Wind, Soil]

  /**
   * A crop's sensitivity table: per category, the signed percentage
   * adjustment of each named level ("low", "high", "clay", ...).
   */
  datatype Factors = Factors(sun: map<string, int>, wind: map<string, int>, soil: map<string, int>)
  {
    function Table(c: Category): (t: map<string, int>)
    {
      match c
      case Sun => sun
      case Wind => wind
      case Soil => soil
    }

    /** This table with the levels of category `c` replaced by `t`. */
    function WithTable(c: Category, t: map<string, int>): (f: Factors)
      ensures f.Table(c) == t
      ensures forall d :: d != c ==> f.Table(d) == Table(d)
    {
      match c
      case Sun => this.(sun := t)
      case Wind => this.(wind := t)
      case Soil => this.(soil := t)
    }
  }

  /** A crop without factors has empty tables. */
  const NoFactors: Factors := Factors(map[], map[], map[])

  /**
   * A plant type: kilograms one plant yields under neutral conditions, cost
   * per plant, sales price per kilogram, and its sensitivity table. The
   * descriptive `name` is never read and is not kept.
   */
  datatype Crop = Crop(baseYield: real, costs: real, salesPrice: real, factors: Factors)

  /**
   * An environmental selection: for each category, the chosen level, or
   * `None` when the selection has no key for that category.
   */
  datatype Selection = Selection(sun: Option<string>, wind: Option<string>, soil: Option<string>)
  {
    function Level(c: Category): (l: Option<string>)
    {
      match c
      case Sun => sun
      case Wind => wind
      case Soil => soil
    }

    /** This selection with the key of category `c` set to `l`. */
    function WithLevel(c: Category, l: Option<string>): (s: Selection)
      ensures s.Level(c) == l
      ensures forall d :: d != c ==> s.Level(d) == Level(d)
    {
      match c
      case Sun => this.(sun := l)
      case Wind => this.(wind := l)
      case Soil => this.(soil := l)
    }

    /** A selection object that has none of the three keys. */
    predicate IsEmpty()
    {
      sun.None? && wind.None? && soil.None?
    }
  }

  /** A quantity of plants of one crop. */
  datatype CropBatch = CropBatch(crop: Crop, numCrops: real)

  /** An ordered collection of batches. */
  datatype Farm = Farm(crops: seq<CropBatch>)
}
