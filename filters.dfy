/** The tracker's library of row filters. Each one takes a table and returns
    the rows that pass one row-wise test, in their original order: a range or
    membership test on given parameters, or a fixed dietary threshold. */
module Filters {
  import opened Nutrition
  import Masks

  /** The fixed dietary thresholds. */
  const LowCalorieLimit: real := 40.0
  const LowFatLimit: real := 3.0
  const LowSodiumLimit: real := 140.0
  const LowCarbLimit: real := 9.0
  const LowFiberLimit: real := 0.5
  const LowSugarLimit: real := 5.0
  const HighProteinFloor: real := 10.0

  // Row tests

  /** The row's company is one of `companies` (pandas' `isin`). */
  function FromCompanies(companies: seq<string>): Record -> bool
  {
    (x: Record) => x.company in companies
  }

  /** The row's calories lie in `[lo, hi]`. */
  function CaloriesBetween(lo: real, hi: real): Record -> bool
  {
    (x: Record) => Within(x.calories, lo, hi)
  }

  /** The row's protein lies in `[lo, hi]`. */
  function ProteinBetween(lo: real, hi: real): Record -> bool
  {
    (x: Record) => Within(x.protein, lo, hi)
  }

  predicate IsLowCalorie(x: Record)
  {
    Below(x.calories, LowCalorieLimit)
  }

  predicate IsLowFat(x: Record)
  {
    Below(x.totalFat, LowFatLimit)
  }

  predicate IsLowSodium(x: Record)
  {
    Below(x.sodium, LowSodiumLimit)
  }

  predicate IsLowCarb(x: Record)
  {
    Below(x.carbs, LowCarbLimit)
  }

  predicate IsLowFiber(x: Record)
  {
    Below(x.fiber, LowFiberLimit)
  }

  predicate IsLowSugar(x: Record)
  {
    Below(x.sugar, LowSugarLimit)
  }

  predicate IsHighProtein(x: Record)
  {
    Above(x.protein, HighProteinFloor)
  }

  /** Low in calories and carbs, high in protein, tested in one mask. */
  predicate IsBestForLosingWeight(x: Record)
  {
    Below(x.calories, LowCalorieLimit) && Below(x.carbs, LowCarbLimit) && Above(x.protein, HighProteinFloor)
  }

  // The filters

  /** The rows whose company is one of `companies` (`isin`). */
  function FilterByCompany(data: Table, companies: seq<string>): Table
  {
    Masks.Keep(data, FromCompanies(companies))
  }

  /** The rows whose calories lie between the two bounds, both included. */
  function FilterByCalories(data: Table, minCalories: real, maxCalories: real): Table
  {
    Masks.Keep(data, CaloriesBetween(minCalories, maxCalories))
  }

  /** The rows whose protein lies between the two bounds, both included. */
  function FilterByProtein(data: Table, minProtein: real, maxProtein: real): Table
  {
    Masks.Keep(data, ProteinBetween(minProtein, maxProtein))
  }

  /** The rows with fewer than 40 calories. */
  function LowCalorie(data: Table): Table
  {
    Masks.Keep(data, IsLowCalorie)
  }

  /** The rows with less than 3 g of total fat. */
  function LowFat(data: Table): Table
  {
    Masks.Keep(data, IsLowFat)
  }

  /** The rows with less than 140 mg of sodium. */
  function LowSodium(data: Table): Table
  {
    Masks.Keep(data, IsLowSodium)
  }

  /** The rows with less than 9 g of carbs. */
  function LowCarb(data: Table): Table
  {
    Masks.Keep(data, IsLowCarb)
  }

  /** The rows with less than 0.5 g of fiber. */
  function LowFiber(data: Table): Table
  {
    Masks.Keep(data, IsLowFiber)
  }

  /** The rows with less than 5 g of sugar. */
  function LowSugar(data: Table): Table
  {
    Masks.Keep(data, IsLowSugar)
  }

  /** The rows with more than 10 g of protein. */
  function HighProtein(data: Table): Table
  {
    Masks.Keep(data, IsHighProtein)
  }

  /** The rows low in calories and carbs and high in protein, by one combined mask. */
  function BestForLosingWeight(data: Table): Table
  {
    Masks.Keep(data, IsBestForLosingWeight)
  }

  // Properties of the library

  /** FilterByCompany selects the rows whose company is one of `companies`, in their original order. */
  lemma FilterByCompanySelects(data: Table, companies: seq<string>)
    ensures Masks.IsMaskOf(FilterByCompany(data, companies), data, FromCompanies(companies))
    ensures forall x :: x in FilterByCompany(data, companies) <==>
      x in data && x.company in companies
  {
    Masks.KeepIsMask(data, FromCompanies(companies));
    Masks.KeepMembers(data, FromCompanies(companies));
  }

  /** FilterByCalories selects the rows whose calories lie in `[minCalories, maxCalories]`, in their original order. */
  lemma FilterByCaloriesSelects(data: Table, minCalories: real, maxCalories: real)
    ensures Masks.IsMaskOf(FilterByCalories(data, minCalories, maxCalories), data, CaloriesBetween(minCalories, maxCalories))
    ensures forall x :: x in FilterByCalories(data, minCalories, maxCalories) <==>
      x in data && x.calories.Some? && minCalories <= x.calories.value <= maxCalories
  {
    Masks.KeepIsMask(data, CaloriesBetween(minCalories, maxCalories));
    Masks.KeepMembers(data, CaloriesBetween(minCalories, maxCalories));
  }

  /** FilterByProtein selects the rows whose protein lies in `[minProtein, maxProtein]`, in their original order. */
  lemma FilterByProteinSelects(data: Table, minProtein: real, maxProtein: real)
    ensures Masks.IsMaskOf(FilterByProtein(data, minProtein, maxProtein), data, ProteinBetween(minProtein, maxProtein))
    ensures forall x :: x in FilterByProtein(data, minProtein, maxProtein) <==>
      x in data && x.protein.Some? && minProtein <= x.protein.value <= maxProtein
  {
    Masks.KeepIsMask(data, ProteinBetween(minProtein, maxProtein));
    Masks.KeepMembers(data, ProteinBetween(minProtein, maxProtein));
  }

  /** LowCalorie selects the rows with fewer than 40 calories, in their original order. */
  lemma LowCalorieSelects(data: Table)
    ensures Masks.IsMaskOf(LowCalorie(data), data, IsLowCalorie)
    ensures forall x :: x in LowCalorie(data) <==>
      x in data && x.calories.Some? && x.calories.value < 40.0
  {
    Masks.KeepIsMask(data, IsLowCalorie);
    Masks.KeepMembers(data, IsLowCalorie);
  }

  /** LowFat selects the rows with less than 3 g of total fat, in their original order. */
  lemma LowFatSelects(data: Table)
    ensures Masks.IsMaskOf(LowFat(data), data, IsLowFat)
    ensures forall x :: x in LowFat(data) <==>
      x in data && x.totalFat.Some? && x.totalFat.value < 3.0
  {
    Masks.KeepIsMask(data, IsLowFat);
    Masks.KeepMembers(data, IsLowFat);
  }

  /** LowSodium selects the rows with less than 140 mg of sodium, in their original order. */
  lemma LowSodiumSelects(data: Table)
    ensures Masks.IsMaskOf(LowSodium(data), data, IsLowSodium)
    ensures forall x :: x in LowSodium(data) <==>
      x in data && x.sodium.Some? && x.sodium.value < 140.0
  {
    Masks.KeepIsMask(data, IsLowSodium);
    Masks.KeepMembers(data, IsLowSodium);
  }

  /** LowCarb selects the rows with less than 9 g of carbs, in their original order. */
  lemma LowCarbSelects(data: Table)
    ensures Masks.IsMaskOf(LowCarb(data), data, IsLowCarb)
    ensures forall x :: x in LowCarb(data) <==>
      x in data && x.carbs.Some? && x.carbs.value < 9.0
  {
    Masks.KeepIsMask(data, IsLowCarb);
    Masks.KeepMembers(data, IsLowCarb);
  }

  /** LowFiber selects the rows with less than 0.5 g of fiber, in their original order. */
  lemma LowFiberSelects(data: Table)
    ensures Masks.IsMaskOf(LowFiber(data), data, IsLowFiber)
    ensures forall x :: x in LowFiber(data) <==>
      x in data && x.fiber.Some? && x.fiber.value < 0.5
  {
    Masks.KeepIsMask(data, IsLowFiber);
    Masks.KeepMembers(data, IsLowFiber);
  }

  /** LowSugar selects the rows with less than 5 g of sugar, in their original order. */
  lemma LowSugarSelects(data: Table)
    ensures Masks.IsMaskOf(LowSugar(data), data, IsLowSugar)
    ensures forall x :: x in LowSugar(data) <==>
      x in data && x.sugar.Some? && x.sugar.value < 5.0
  {
    Masks.KeepIsMask(data, IsLowSugar);
    Masks.KeepMembers(data, IsLowSugar);
  }

  /** HighProtein selects the rows with more than 10 g of protein, in their original order. */
  lemma HighProteinSelects(data: Table)
    ensures Masks.IsMaskOf(HighProtein(data), data, IsHighProtein)
    ensures forall x :: x in HighProtein(data) <==>
      x in data && x.protein.Some? && x.protein.value > 10.0
  {
    Masks.KeepIsMask(data, IsHighProtein);
    Masks.KeepMembers(data, IsHighProtein);
  }

  /** BestForLosingWeight selects the rows that are low-calorie, low-carb and high-protein at once, in their original order. */
  lemma BestForLosingWeightSelects(data: Table)
    ensures Masks.IsMaskOf(BestForLosingWeight(data), data, IsBestForLosingWeight)
    ensures forall x :: x in BestForLosingWeight(data) <==>
      && x in data
      && x.calories.Some? && x.calories.value < 40.0
      && x.carbs.Some? && x.carbs.value < 9.0
      && x.protein.Some? && x.protein.value > 10.0
  {
    Masks.KeepIsMask(data, IsBestForLosingWeight);
    Masks.KeepMembers(data, IsBestForLosingWeight);
  }

  /** The composite filter is the three threshold filters it is made of, applied in turn. */
  lemma BestForLosingWeightIsComposite(data: Table)
    ensures BestForLosingWeight(data) == LowCalorie(LowCarb(HighProtein(data)))
  {
    var both := Masks.Both(IsHighProtein, IsLowCarb);
    Masks.KeepKeep(data, IsHighProtein, IsLowCarb);
    Masks.KeepKeep(data, both, IsLowCalorie);
    forall x | x in data
      ensures Masks.Both(both, IsLowCalorie)(x) <==> IsBestForLosingWeight(x)
    {
      assert both(x) <==> IsHighProtein(x) && IsLowCarb(x);
    }
    Masks.KeepAgree(data, Masks.Both(both, IsLowCalorie), IsBestForLosingWeight);
  }

  /** Both ends of a range are inclusive. */
  lemma RangesAreInclusive(data: Table, x: Record, lo: real, hi: real)
    requires x in data && lo <= hi
    ensures x.calories == Some(lo) || x.calories == Some(hi) ==> x in FilterByCalories(data, lo, hi)
    ensures x.protein == Some(lo) || x.protein == Some(hi) ==> x in FilterByProtein(data, lo, hi)
    ensures x.calories == Some(hi + 1.0) ==> x !in FilterByCalories(data, lo, hi)
    ensures x.protein == Some(hi + 1.0) ==> x !in FilterByProtein(data, lo, hi)
  {
    FilterByCaloriesSelects(data, lo, hi);
    FilterByProteinSelects(data, lo, hi);
  }

  /** A range whose minimum exceeds its maximum selects nothing. */
  lemma EmptyRangeSelectsNothing(data: Table, lo: real, hi: real)
    requires lo > hi
    ensures FilterByCalories(data, lo, hi) == []
    ensures FilterByProtein(data, lo, hi) == []
  {
    Masks.KeepNone(data, CaloriesBetween(lo, hi));
    Masks.KeepNone(data, ProteinBetween(lo, hi));
  }

  /** No selected company, no rows. */
  lemma NoCompaniesSelectsNothing(data: Table)
    ensures FilterByCompany(data, []) == []
  {
    Masks.KeepNone(data, FromCompanies([]));
  }

  /** The thresholds are strict: 40 kcal is not low-calorie, 39 kcal is;
      10 g protein is not high-protein, 11 g is. */
  lemma ThresholdsAreStrict(x: Record)
    ensures LowCalorie([x.(calories := Some(40.0))]) == []
    ensures LowCalorie([x.(calories := Some(39.0))]) == [x.(calories := Some(39.0))]
    ensures HighProtein([x.(protein := Some(10.0))]) == []
    ensures HighProtein([x.(protein := Some(11.0))]) == [x.(protein := Some(11.0))]
  {
  }

  /** A missing value never passes a comparison on its column. */
  lemma MissingValuesNeverPass(data: Table, x: Record, lo: real, hi: real)
    ensures x.calories.None? ==> x !in FilterByCalories(data, lo, hi) && x !in LowCalorie(data) && x !in BestForLosingWeight(data)
    ensures x.protein.None? ==> x !in FilterByProtein(data, lo, hi) && x !in HighProtein(data) && x !in BestForLosingWeight(data)
    ensures x.carbs.None? ==> x !in LowCarb(data) && x !in BestForLosingWeight(data)
    ensures x.totalFat.None? ==> x !in LowFat(data)
    ensures x.sodium.None? ==> x !in LowSodium(data)
    ensures x.fiber.None? ==> x !in LowFiber(data)
    ensures x.sugar.None? ==> x !in LowSugar(data)
  {
    FilterByCaloriesSelects(data, lo, hi);
    FilterByProteinSelects(data, lo, hi);
    LowCalorieSelects(data);
    LowFatSelects(data);
    LowSodiumSelects(data);
    LowCarbSelects(data);
    LowFiberSelects(data);
    LowSugarSelects(data);
    HighProteinSelects(data);
    BestForLosingWeightSelects(data);
  }

  /** Of an item with 30 kcal, 5 g carbs and 15 g protein and one with 50 kcal and
      the same carbs and protein, only the first is best for losing weight. */
  lemma WeightLossScenario()
    ensures
      var a := Record("A", Some(30.0), None, None, Some(5.0), None, None, Some(15.0));
      var b := Record("B", Some(50.0), None, None, Some(5.0), None, None, Some(15.0));
      BestForLosingWeight([a, b]) == [a]
  {
  }
}
