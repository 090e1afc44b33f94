/** The data the tracker filters: one row of the cleaned fast-food nutrition
    table per menu item, and the comparisons the filters make on its numeric
    columns. */
module Nutrition {

  datatype Option<T> = None | Some(value: T)

  /** A numeric cell of the table. `None` stands for a missing value (pandas'
      NaN); every comparison against it is false. */
  type Cell = Option<real>

  /** One menu item: the company that sells it and its nutrition values
      (calories in kcal, fat, carbs, fiber, sugar and protein in grams,
      sodium in milligrams). */
  datatype Record = Record(
    company: string,
    calories: Cell,
    totalFat: Cell,
    sodium: Cell,
    carbs: Cell,
    fiber: Cell,
    sugar: Cell,
    protein: Cell)

  /** A table is its rows in order; filtering keeps some of them. */
  type Table = seq<Record>

  /** `c < k`, false on a missing value. */
  predicate Below(c: Cell, k: real)
  {
    c.Some? && c.value < k
  }

  /** `c > k`, false on a missing value. */
  predicate Above(c: Cell, k: real)
  {
    c.Some? && c.value > k
  }

  /** `(c >= lo) & (c <= hi)`, false on a missing value. */
  predicate Within(c: Cell, lo: real, hi: real)
  {
    c.Some? && lo <= c.value && c.value <= hi
  }
}
