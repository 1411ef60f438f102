/**
 * Yield of one plant, optionally scaled by an environmental selection.
 *
 * `YieldForPlant` follows the calculator branch by branch; `SelectedYield`
 * is the reference definition, a fold of the multipliers of the present
 * categories over the base yield, and the lemmas below connect the two.
 */
module PlantYield {
  import opened Wrappers
  import opened Numbers
  import opened Crops

  /** The multiplier of a percentage adjustment: `pct / 100 + 1`. */
  function Multiplier(pct: int): (m: real)
    ensures pct == 0 ==> m == 1.0
    ensures (pct < 0 <==> m < 1.0) && (pct > 0 <==> m > 1.0)
    ensures pct >= -100 ==> m >= 0.0
  {
    pct as real / 100.0 + 1.0
  }

  /**
   * The multiplier the calculator computes for category `c`: the crop's
   * adjustment for the selected level, or not a number when the selection
   * has no key for `c` or the crop's table has no such level.
   */
  function CategoryMultiplier(crop: Crop, sel: Selection, c: Category): (m: Number)
    ensures sel.Level(c).None? ==> m == NaN
    ensures m.Num? <==> sel.Level(c).Some? && sel.Level(c).value in crop.factors.Table(c)
  {
    match sel.Level(c)
    case None => NaN
    case Some(level) =>
      var table := crop.factors.Table(c);
      if level in table then Num(Multiplier(table[level])) else NaN
  }

  /**
   * Yield of one plant. Without a selection it is the base yield; with one,
   * the presence of each key picks one of seven branches, and a selection
   * with no key at all matches none of them and yields no number.
   */
  function YieldForPlant(crop: Crop, env: Option<Selection>): (r: Number)
    ensures env.None? ==> r == Num(crop.baseYield)
    ensures env.Some? && env.value.IsEmpty() ==> r == NaN
  {
    match env
    case None => Num(crop.baseYield)
    case Some(sel) =>
      var sunFactor, windFactor, soilFactor := sel.sun.Some?, sel.wind.Some?, sel.soil.Some?;
      var sunPercentage := CategoryMultiplier(crop, sel, Sun);
      var windPercentage := CategoryMultiplier(crop, sel, Wind);
      var soilPercentage := CategoryMultiplier(crop, sel, Soil);
      var base := Num(crop.baseYield);
      if sunFactor && !windFactor && !soilFactor then
        Mul(base, sunPercentage)
      else if !sunFactor && windFactor && !soilFactor then
        Mul(base, windPercentage)
      else if !sunFactor && !windFactor && soilFactor then
        Mul(base, soilPercentage)
      else if sunFactor && windFactor && !soilFactor then
        Mul(Mul(base, sunPercentage), windPercentage)
      else if sunFactor && !windFactor && soilFactor then
        Mul(Mul(base, sunPercentage), soilPercentage)
      else if !sunFactor && windFactor && soilFactor then
        Mul(Mul(base, windPercentage), soilPercentage)
      else if sunFactor && windFactor && soilFactor then
        Mul(Mul(Mul(base, sunPercentage), windPercentage), soilPercentage)
      else
        NaN
  }

  // ---------------------------------------------------------------------
  // Reference definition: a fold over the present categories
  // ---------------------------------------------------------------------

  /** The categories of `cs` that the selection has a key for, in order. */
  function PresentIn(sel: Selection, cs: seq<Category>): (ps: seq<Category>)
    ensures forall c :: c in ps <==> c in cs && sel.Level(c).Some?
  {
    if cs == [] then []
    else (if sel.Level(cs[0]).Some? then [cs[0]] else []) + PresentIn(sel, cs[1..])
  }

  /** Multiply `y` in turn by the multiplier of each category of `cs`. */
  function ApplyMultipliers(y: Number, crop: Crop, sel: Selection, cs: seq<Category>): (r: Number)
    decreases |cs|
  {
    if cs == [] then y
    else ApplyMultipliers(Mul(y, CategoryMultiplier(crop, sel, cs[0])), crop, sel, cs[1..])
  }

  /**
   * The yield the seven branches are meant to compute: the base yield times
   * the multipliers of exactly the present categories; no number for a
   * selection without keys.
   */
  function SelectedYield(crop: Crop, env: Option<Selection>): (r: Number)
  {
    match env
    case None => Num(crop.baseYield)
    case Some(sel) =>
      var present := PresentIn(sel, AllCategories);
      if present == [] then NaN else ApplyMultipliers(Num(crop.baseYield), crop, sel, present)
  }

  /** The present categories, spelled out for the fixed category list. */
  lemma PresentInAll(sel: Selection)
    ensures PresentIn(sel, AllCategories) ==
              (if sel.sun.Some? then [Sun] else []) + (if sel.wind.Some? then [Wind] else [])
              + (if sel.soil.Some? then [Soil] else [])
  {
    assert PresentIn(sel, [Soil]) == (if sel.soil.Some? then [Soil] else []) by {
      assert [Soil][1..] == [];
    }
    assert PresentIn(sel, [Wind, Soil]) == (if sel.wind.Some? then [Wind] else []) + PresentIn(sel, [Soil]) by {
      assert [Wind, Soil][1..] == [Soil];
    }
    assert AllCategories[1..] == [Wind, Soil];
  }

  /** The seven branches compute exactly the fold over the present categories. */
  lemma YieldIsFold(crop: Crop, env: Option<Selection>)
    ensures YieldForPlant(crop, env) == SelectedYield(crop, env)
  {
    if env.Some? {
      var sel := env.value;
      var y, s, w, o := Num(crop.baseYield), CategoryMultiplier(crop, sel, Sun),
                        CategoryMultiplier(crop, sel, Wind), CategoryMultiplier(crop, sel, Soil);
      var present := PresentIn(sel, AllCategories);
      PresentInAll(sel);
      var sun, wind, soil := sel.sun.Some?, sel.wind.Some?, sel.soil.Some?;
      if sun && !wind && !soil {
        assert present == [Sun] && [Sun][1..] == [];
      } else if !sun && wind && !soil {
        assert present == [Wind] && [Wind][1..] == [];
      } else if !sun && !wind && soil {
        assert present == [Soil] && [Soil][1..] == [];
      } else if sun && wind && !soil {
        assert present == [Sun, Wind];
        assert [Sun, Wind][1..] == [Wind];
      } else if sun && !wind && soil {
        assert present == [Sun, Soil];
        assert [Sun, Soil][1..] == [Soil];
      } else if !sun && wind && soil {
        assert present == [Wind, Soil];
        assert [Wind, Soil][1..] == [Soil];
      } else if sun && wind && soil {
        assert present == [Sun, Wind, Soil];
        assert [Sun, Wind, Soil][1..] == [Wind, Soil];
        assert [Wind, Soil][1..] == [Soil];
        assert ApplyMultipliers(Mul(y, s), crop, sel, [Wind, Soil]) == Mul(Mul(Mul(y, s), w), o);
      } else {
        assert present == [];
      }
    }
  }

  // ---------------------------------------------------------------------
  // Closed form
  // ---------------------------------------------------------------------

  /** The crop's table defines the selected level of category `c`. */
  predicate Known(crop: Crop, sel: Selection, c: Category)
  {
    CategoryMultiplier(crop, sel, c).Num?
  }

  /** Every category of `cs` has a known multiplier. */
  predicate KnownAll(crop: Crop, sel: Selection, cs: seq<Category>)
    decreases |cs|
  {
    cs == [] || (Known(crop, sel, cs[0]) && KnownAll(crop, sel, cs[1..]))
  }

  /** `KnownAll` says what its name says. */
  lemma {:induction false} KnownAllMeans(crop: Crop, sel: Selection, cs: seq<Category>)
    ensures KnownAll(crop, sel, cs) <==> forall c :: c in cs ==> Known(crop, sel, c)
    decreases |cs|
  {
    if cs != [] {
      KnownAllMeans(crop, sel, cs[1..]);
      assert forall c :: c in cs <==> c == cs[0] || c in cs[1..];
    }
  }

  /** Product of the multipliers of the categories of `cs`, all of them known. */
  function Gain(crop: Crop, sel: Selection, cs: seq<Category>): (g: real)
    requires KnownAll(crop, sel, cs)
    decreases |cs|
  {
    if cs == [] then 1.0
    else CategoryMultiplier(crop, sel, cs[0]).value * Gain(crop, sel, cs[1..])
  }

  /** Once not a number, the fold stays not a number. */
  lemma {:induction false} ApplyToNaN(crop: Crop, sel: Selection, cs: seq<Category>)
    ensures ApplyMultipliers(NaN, crop, sel, cs) == NaN
    decreases |cs|
  {
    if cs != [] {
      ApplyToNaN(crop, sel, cs[1..]);
    }
  }

  /**
   * The fold is a number exactly when every multiplier is known, and then it
   * is the start value times their product.
   */
  lemma {:induction false} ApplyClosedForm(y: real, crop: Crop, sel: Selection, cs: seq<Category>)
    ensures ApplyMultipliers(Num(y), crop, sel, cs)
            == if KnownAll(crop, sel, cs) then Num(y * Gain(crop, sel, cs)) else NaN
    decreases |cs|
  {
    if cs != [] {
      var m := CategoryMultiplier(crop, sel, cs[0]);
      var rest := cs[1..];
      assert ApplyMultipliers(Num(y), crop, sel, cs) == ApplyMultipliers(Mul(Num(y), m), crop, sel, rest);
      if m.Num? {
        assert Mul(Num(y), m) == Num(y * m.value);
        ApplyClosedForm(y * m.value, crop, sel, rest);
        if KnownAll(crop, sel, rest) {
          var g := Gain(crop, sel, rest);
          assert y * m.value * g == y * (m.value * g);
        }
      } else {
        ApplyToNaN(crop, sel, rest);
      }
    }
  }

  /** Every category the selection has a key for is defined in the crop's table. */
  predicate AllKnown(crop: Crop, sel: Selection)
  {
    forall c :: sel.Level(c).Some? ==> Known(crop, sel, c)
  }

  /** Every category is in the fixed category list. */
  lemma Listed(c: Category)
    ensures c in AllCategories
  {
  }

  /** A selection has no present category exactly when it has no key. */
  lemma NoPresentCategory(sel: Selection)
    ensures PresentIn(sel, AllCategories) == [] <==> sel.IsEmpty()
  {
    PresentInAll(sel);
  }

  /** The present categories all have known multipliers exactly when every selected level is defined. */
  lemma PresentCategoriesKnown(crop: Crop, sel: Selection)
    ensures KnownAll(crop, sel, PresentIn(sel, AllCategories)) <==> AllKnown(crop, sel)
  {
    KnownAllMeans(crop, sel, PresentIn(sel, AllCategories));
    forall c ensures c in AllCategories {
      Listed(c);
    }
  }

  /** The closed form of the reference definition under a selection. */
  lemma SelectedYieldClosedForm(crop: Crop, sel: Selection)
    ensures SelectedYield(crop, Some(sel)).Num? <==> !sel.IsEmpty() && AllKnown(crop, sel)
    ensures SelectedYield(crop, Some(sel)).Num? ==>
              KnownAll(crop, sel, PresentIn(sel, AllCategories)) &&
              SelectedYield(crop, Some(sel)).value == crop.baseYield * Gain(crop, sel, PresentIn(sel, AllCategories))
  {
    NoPresentCategory(sel);
    PresentCategoriesKnown(crop, sel);
    var present := PresentIn(sel, AllCategories);
    if present != [] {
      ApplyClosedForm(crop.baseYield, crop, sel, present);
    }
  }

  /**
   * With a selection, the plant yield is a number exactly when the selection
   * has at least one key and every selected level is in the crop's table;
   * it is then the base yield times the product of the multipliers of
   * exactly the present categories.
   */
  lemma YieldWithSelection(crop: Crop, sel: Selection)
    ensures YieldForPlant(crop, Some(sel)).Num? <==> !sel.IsEmpty() && AllKnown(crop, sel)
    ensures YieldForPlant(crop, Some(sel)).Num? ==>
              KnownAll(crop, sel, PresentIn(sel, AllCategories)) &&
              YieldForPlant(crop, Some(sel)).value == crop.baseYield * Gain(crop, sel, PresentIn(sel, AllCategories))
  {
    YieldIsFold(crop, Some(sel));
    SelectedYieldClosedForm(crop, sel);
  }

  // ---------------------------------------------------------------------
  // Which inputs matter
  // ---------------------------------------------------------------------

  /**
   * The table of a category the selection has no key for is never applied:
   * replacing it leaves the plant yield unchanged, although the calculator
   * still looks a level up in it.
   */
  lemma AbsentCategoryIgnored(crop: Crop, sel: Selection, c: Category, t: map<string, int>)
    requires sel.Level(c).None?
    ensures YieldForPlant(crop.(factors := crop.factors.WithTable(c, t)), Some(sel)) == YieldForPlant(crop, Some(sel))
  {
  }

  /**
   * Selecting a first category, starting from no selection at all, multiplies
   * the unadjusted yield by exactly that category's multiplier.
   */
  lemma FirstCategory(crop: Crop, c: Category, level: string)
    ensures var sel := Selection(None, None, None).WithLevel(c, Some(level));
            YieldForPlant(crop, Some(sel)) == Mul(YieldForPlant(crop, None), CategoryMultiplier(crop, sel, c))
  {
  }

  /**
   * Adding a key for one more category to a non-empty selection multiplies
   * the previous yield by exactly that category's multiplier; the
   * multipliers already applied are unchanged.
   */
  lemma AddCategory(crop: Crop, sel: Selection, c: Category, level: string)
    requires !sel.IsEmpty() && sel.Level(c).None?
    ensures var sel' := sel.WithLevel(c, Some(level));
            YieldForPlant(crop, Some(sel')) == Mul(YieldForPlant(crop, Some(sel)), CategoryMultiplier(crop, sel', c))
  {
  }
}
