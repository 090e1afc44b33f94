# Fast food nutrition tracker: the filter pipeline

The tracker loads a table of fast food menu items. Each item has a company and
seven nutrient columns: calories, total fat, sodium, carbs, fiber, sugar and
protein. The user picks companies, a calorie range, a protein range and up to
eight dietary checkboxes. The tracker then narrows the table step by step.

This Dafny project models that narrowing:

- `nutrition.dfy` (module `Nutrition`): a menu item is a `Record`. A nutrient
  value is a `Cell = Option<real>`, where `None` stands for a missing (NaN)
  value. Every ordering comparison (`<`, `<=`, `>`, `>=`) on `None` is false,
  as every pandas ordering comparison with NaN is false, and those are the only
  comparisons the filters make on nutrient values. A table is a `seq<Record>`.
- `masks.dfy` (module `Masks`): `Keep` keeps the rows that pass a row-wise
  test, in their order. It is the `data[mask]` idiom every filter is built on.
  It has two independent reference definitions:
  - `IsMaskOf`: the result embeds at strictly increasing positions of the
    input, and those positions are exactly the ones that pass;
  - `IsSubsequence`: the result embeds at strictly increasing positions.
- `filters.dfy` (module `Filters`): the eleven filters of
  `models/filters.py`, each a function on tables. Each has a lemma
  (`…Selects`) stating which rows it keeps and that it is a mask.
- `app.dfy` (module `App`): the composition in `main()`.
  - `FilterPipeline` is a method that reassigns `filtered` under the same
    eight `if` guards, in the same order as the source.
  - It is proved equal to `Selected`, the single mask by the conjunction of
    the three mandatory tests and every ticked dietary test.
  - `Step` and `Run` describe filters run one after another. They carry the
    order-independence results.

## Model

| member | source | states |
|---|---|---|
| Masks.Keep | models/filters.py:10 | masking never yields more rows than the input has |
| Masks.KeepMembers | models/filters.py:8-70 | a row is in a masked table exactly when it is in the input and passes the test |
| Masks.KeepIsMask | models/filters.py:8-70 | masking keeps exactly the positions whose row passes, in increasing order, so the result is a subsequence of the input |
| Masks.KeepCount | models/filters.py:8-70 | a row that occurs several times is kept as often as it occurs when it passes, and not at all otherwise |
| Masks.KeepKeep | models/filters.py:70 | masking twice is masking once by the conjunction of the two tests |
| Masks.KeepIdempotent | models/filters.py:8-70 | masking twice by the same test is masking once |
| Masks.KeepCommutes | models/filters.py:8-70 | two masks give the same table in either order |
| Masks.KeepStricter | main.py:69-84 | masking by a test that implies another equals masking the other's result, so it is a subsequence of it |
| Filters.FilterByCompanySelects | models/filters.py:8-10 | `filter_by_company` keeps exactly the rows whose company is in the given collection, as a mask |
| Filters.FilterByCaloriesSelects | models/filters.py:14-16 | `filter_by_calories` keeps exactly the rows with `min <= calories <= max`, as a mask |
| Filters.FilterByProteinSelects | models/filters.py:20-22 | `filter_by_protein` keeps exactly the rows with `min <= protein <= max`, as a mask |
| Filters.LowCalorieSelects | models/filters.py:26-28 | `low_calorie` keeps exactly the rows with calories below 40 |
| Filters.LowFatSelects | models/filters.py:32-34 | `low_fat` keeps exactly the rows with total fat below 3 |
| Filters.LowSodiumSelects | models/filters.py:38-40 | `low_sodium` keeps exactly the rows with sodium below 140 |
| Filters.LowCarbSelects | models/filters.py:44-46 | `low_carb` keeps exactly the rows with carbs below 9 |
| Filters.LowFiberSelects | models/filters.py:50-52 | `low_fiber` keeps exactly the rows with fiber below 0.5 |
| Filters.LowSugarSelects | models/filters.py:56-58 | `low_sugar` keeps exactly the rows with sugar below 5 |
| Filters.HighProteinSelects | models/filters.py:62-64 | `high_protein` keeps exactly the rows with protein above 10 |
| Filters.BestForLosingWeightSelects | models/filters.py:68-70 | `best_for_losing_weight` keeps exactly the rows with calories below 40, carbs below 9 and protein above 10 |
| Filters.BestForLosingWeightIsComposite | models/filters.py:70 | `best_for_losing_weight(t) == low_calorie(low_carb(high_protein(t)))` for every table |
| Filters.RangesAreInclusive | models/filters.py:16 | a row whose calories or protein equals either bound is kept by the range filter, and one just above the maximum is not |
| Filters.EmptyRangeSelectsNothing | models/filters.py:14-22 | a range whose minimum exceeds its maximum selects no row |
| Filters.NoCompaniesSelectsNothing | models/filters.py:10 | an empty company collection selects no row |
| Filters.ThresholdsAreStrict | models/filters.py:26-64 | 40 calories is not low-calorie but 39 is; 10 g protein is not high-protein but 11 g is |
| Filters.MissingValuesNeverPass | models/filters.py:14-70 | a row whose tested value is missing passes no range or threshold filter on that column |
| Filters.WeightLossScenario | models/filters.py:68-70 | of a 30-calorie and a 50-calorie item with the same carbs and protein, only the first is best for losing weight |
| App.ApplyIsKeep | models/filters.py:8-70 | each of the eleven filters is the mask by its step's test, so it returns a subsequence of its input |
| App.ApplyIdempotent | models/filters.py:8-70 | applying any filter twice gives the same table as applying it once |
| App.ApplyCommutes | models/filters.py:8-70 | any two filters give the same table in either order |
| App.RunIsConjunction | main.py:62-84 | running filters one after another is one mask by the conjunction of their tests |
| App.RunOrderIrrelevant | main.py:62-84 | two runs of the same set of filters, in any order and with any repetition, give the same table |
| App.RunApplies | main.py:62-84 | each step of a run is the library filter that step names, applied to the previous result |
| App.RunAppend | main.py:62-84 | running more filters continues from the previous result |
| App.SelectedIsMask | main.py:62-84 | the selection keeps exactly the rows that pass the three mandatory tests and every ticked test, in order, as a subsequence of the input |
| App.StepsMembers | main.py:62-84 | a filter is run exactly when it is one of the three mandatory ones or its checkbox is ticked |
| App.StepsAdmit | main.py:62-84 | a row passes every filter the pipeline runs exactly when the preferences admit it |
| App.StepsSelect | main.py:62-84 | running the pipeline's filters one after another gives the selection |
| App.TickLowCalorie | main.py:69-70 | with "low calories" unticked so far, setting it runs `low_calorie` on the current selection when ticked and changes nothing otherwise |
| App.TickLowFat | main.py:71-72 | the same for "low fat" and `low_fat` |
| App.TickLowSodium | main.py:73-74 | the same for "low sodium" and `low_sodium` |
| App.TickLowCarb | main.py:75-76 | the same for "low carb" and `low_carb` |
| App.TickLowFiber | main.py:77-78 | the same for "low fiber" and `low_fiber` |
| App.TickLowSugar | main.py:79-80 | the same for "low sugar" and `low_sugar` |
| App.TickHighProtein | main.py:81-82 | the same for "high protein" and `high_protein` |
| App.TickWeightLoss | main.py:83-84 | the same for "best for losing weight" and `best_for_losing_weight` |
| App.AfterRangesSelects | main.py:62-66 | after the company, calorie and protein filters, the table is the selection with every checkbox unticked |
| App.AfterLowCalorieSelects | main.py:69-70 | after the "low calories" check, the table is the selection of the settings applied so far |
| App.AfterLowFatSelects | main.py:71-72 | the same after the "low fat" check |
| App.AfterLowSodiumSelects | main.py:73-74 | the same after the "low sodium" check |
| App.AfterLowCarbSelects | main.py:75-76 | the same after the "low carb" check |
| App.AfterLowFiberSelects | main.py:77-78 | the same after the "low fiber" check |
| App.AfterLowSugarSelects | main.py:79-80 | the same after the "low sugar" check |
| App.AfterHighProteinSelects | main.py:81-82 | the same after the "high protein" check |
| App.AfterWeightLossSelects | main.py:83-84 | after the last check, the table is the selection of all the preferences |
| App.FilterPipeline | main.py:61-84 | the final `filtered_df` is the mask of the input by the conjunction of the three mandatory tests and every ticked dietary test |
| App.NoTogglesSelectsMandatory | main.py:62-66 | with all eight checkboxes off, the result is the three mandatory filters applied in turn, which is one mask by their joint test |
| App.NothingToDropKeepsTable | main.py:62-84 | when every row satisfies the preferences, the table comes back unchanged |
| App.NoCompaniesEmptiesPipeline | main.py:62 | with no company selected the result is empty, whatever the ranges and checkboxes |
| App.PipelineOrderIrrelevant | main.py:62-84 | running the pipeline's filters in any order, any number of times each, gives the same result |
| App.WeightLossIsThreeToggles | main.py:69-84 | ticking "best for losing weight" gives what ticking "low calories", "low carb" and "high protein" gives |
| App.MoreTogglesShrink | main.py:69-84 | ticking more checkboxes gives the looser result filtered further: a subsequence, never longer |

## Left out

- Loading the CSV file (`models/filters.py:4`, `main.py:21-23`) is file I/O. The table is a parameter.
- `.round()` (`main.py:25`) rounds floating point values. The model takes the rounded table as its input.
- The slider bounds from `np.nanmin`, `np.nanmax` and `int()` (`main.py:38-50`) are UI defaults. The ranges are inputs, modelled as `real`, which includes the integers the sliders produce.
- The Streamlit widgets, the "no items match" warning, the table display and the item count (`main.py:27-59`, `main.py:86-91`) are presentation. The preferences are a `Preferences` value passed in.
- CSV serialisation and the download button (`main.py:92-98`) are a foreign serialiser plus I/O.
- pandas index labels travel with the selected rows. The model keeps the rows as an ordered subsequence and does not model labels.
- A table that lacks one of the columns makes pandas raise a lookup error. A `Record` always has every column, so no such table can be built.
- A non-numeric entry in a nutrient column makes pandas read that column as strings, and the threshold and range comparisons then raise `TypeError` instead of dropping the row. A `Cell` is a number or missing, so no such table can be built and this error path is not modelled.
- A company is never missing in the model: `company` is a `string`, not a `Cell`.
- Floating point: nutrient values are exact reals, so rounding error in comparisons is not modelled.
