# Filter settings form: a Dafny model

This project models the logic of the plot settings form of a single-cell
ingestion QC dashboard (`src/components/filter-settings-form.tsx`). A plot is
a histogram or a categorical bar plot with a `FilterSettings` record. The form
does four things with it:

- It resolves which grouping column the plot uses. A forced grouping wins.
  Then comes the dashboard-wide global grouping, but only while global
  grouping is enabled. Then the plot's own choice, and finally `"sample_id"`.
- It lists the grouping options: `"<none>"`, then every categorical column.
- It decides which controls a plot type shows.
- It computes how many cells a histogram's cutoff range would remove. The
  result is a count, a rounded percentage and a "high impact" flag (strictly
  above 30%).

Each control's callback assigns one field of the settings object in place.

Modules:

- `Optional`: `Option`. `None` stands for an `undefined` property.
- `Settings`: the `FilterSettings` value and one `Update` per control callback.
  `Apply` is an update's effect on a value. `SettingsRecord` is the mutable
  object the callbacks assign into.
- `GroupBy`: the grouping value, the selector's `disabled` flag, the lock
  reason, the label tag and the explanatory note.
- `Catalog`: dataset columns, the grouping options, and the `findIndex`
  lookup of the plotted column.
- `Visibility`: the controls shown per plot type, and the section title.
- `Impact`: the scan (`GetFilterImpact`), its specification (`FilterImpact`),
  the rounding, and the lemmas about them.

Modelling choices:

- JavaScript truthiness of optional strings is `Present`: `undefined` and `""`
  are both absent.
- An omitted `isGlobalGroupingEnabled` is `false`. An omitted `category` is
  `None`.
- Numbers are `real`. `Math.round(affected / total * 100)` is computed exactly
  as `(200 * affected + total) / (2 * total)`: round half up, as `Math.round`
  does for non-negative values.
- An empty column: the code divides 0 by 0. It then reports 0 of 0 cells with a
  NaN percentage, and that is not high impact. The model follows the code,
  with `Percent = NaN | Whole(n)`. It does not turn an empty column into
  "not applicable".
- Choosing the `"<none>"` option stores the string `"<none>"` as the plot's
  `groupBy`. That string is truthy, so the resolver returns it as the grouping
  name. The code does not map it back to the default, and neither does the
  model.
- `nBins` takes whatever non-zero value the bins control reports, negative
  ones included. The code does not enforce a positive bin count, so the model
  does not either.
- The impact panel at line 270 is guarded by the same three conditions that
  `getFilterImpact` checks first. `ImpactApplies` models both.

## Model

| member | source | states |
|---|---|---|
| `Settings.BinsOrDefault` | src/components/filter-settings-form.tsx:174 | `value \|\| 50`: a non-zero reported value is kept unchanged. Nothing or 0 gives 50. So the result is 50 exactly when the control reports nothing, 0 or 50, and it is never 0 |
| `Settings.Apply` | src/components/filter-settings-form.tsx:109-263 | each control's update sets only its own field, and every other field is unchanged. Zoom and cutoff bounds take the reported value. A `null` group-by becomes `undefined`. Bins fall back to 50. Axis types take the chosen scale |
| `Settings.ApplyIdempotent` | src/components/filter-settings-form.tsx:109-263 | running a control's callback twice with one value equals running it once |
| `Settings.ApplyCommutes` | src/components/filter-settings-form.tsx:109-263 | updates from controls that own different fields commute, so independent controls do not interfere |
| `Settings.SettingsRecord.constructor` | src/components/filter-settings-form.tsx:22 | a settings object holds exactly the given settings |
| `Settings.SettingsRecord.Assign` | src/components/filter-settings-form.tsx:109-263 | the in-place assignment a callback performs leaves the object holding `Apply` of its old contents, and only the targeted field differs |
| `GroupBy.ResolveGroupBy` | src/components/filter-settings-form.tsx:132 | the grouping is never empty. It is the forced value if present; else the global value if enabled and present; else the plot's own if present; else `"sample_id"` |
| `GroupBy.FirstPresent` | src/components/filter-settings-form.tsx:132 | the first present candidate (every earlier one absent) if there is one; the fallback iff none is present |
| `GroupBy.ResolveIsFirstPresent` | src/components/filter-settings-form.tsx:132 | the resolver equals "first present of [forced, global if enabled, local], else `sample_id`" |
| `GroupBy.SelectorDisabled` | src/components/filter-settings-form.tsx:145 | the selector is disabled iff there is a lock (forced, or global grouping active) |
| `GroupBy.LockOf` | src/components/filter-settings-form.tsx:148 | the lock is Fixed iff a forced grouping is present. It is Global iff there is none but global grouping is active |
| `GroupBy.LabelTag` | src/components/filter-settings-form.tsx:148 | the label tag is "(Fixed)" under a forced lock and "(Global)" under a global lock. It is empty iff the selector is enabled |
| `GroupBy.LockNotice` | src/components/filter-settings-form.tsx:157-166 | a note under the selector appears iff it is disabled. A forced lock names the forced column. A global lock says that the global group by setting is active |
| `GroupBy.LockedIgnoresLocal` | src/components/filter-settings-form.tsx:132-145 | while the selector is disabled, the plot's own choice does not affect the grouping |
| `GroupBy.UnlockedFollowsLocal` | src/components/filter-settings-form.tsx:132-145 | while the selector is enabled, the grouping is the plot's own choice if present, else `"sample_id"` |
| `Catalog.CategoricalNamesFrom` | src/components/filter-settings-form.tsx:36-38 | the `.filter(...).map(...)` list is never longer than the columns it filters. `NamesMatchIndices` pins each entry to a categorical column |
| `Catalog.CategoricalIndicesFrom` | src/components/filter-settings-form.tsx:36-38 | it gives the ascending indices of exactly the categorical columns |
| `Catalog.NamesMatchIndices` | src/components/filter-settings-form.tsx:36-38 | the filtered-and-mapped names line up one to one with those indices |
| `Catalog.CategoricalOptions` | src/components/filter-settings-form.tsx:35-42 | the option list is never empty and starts with `"<none>"` |
| `Catalog.CategoricalOptionsSpec` | src/components/filter-settings-form.tsx:35-42 | the options are `"<none>"` and then the names of exactly the categorical columns, each once, in dataset order. The length is 1 + their number |
| `Catalog.FindColumnFrom` | src/components/filter-settings-form.tsx:60-61 | it gives the first index at or after `i` whose column has the name, or `None` iff there is none |
| `Catalog.FindColumn` | src/components/filter-settings-form.tsx:60-61 | `findIndex`: the first column with the plotted field's name, or `None` iff no column has it |
| `Visibility.VisibleControls` | src/components/filter-settings-form.tsx:105-239 | group-by and x-axis scale are always shown. A bar plot shows no histogram-only control |
| `Visibility.VisibleExactly` | src/components/filter-settings-form.tsx:105-239 | a control is shown iff the plot is a histogram or the control is not one of zoom, bins, y-axis scale and cutoffs |
| `Visibility.SectionTitle` | src/components/filter-settings-form.tsx:90 | the section title mentions filter thresholds iff the cutoff controls are shown |
| `Impact.ImpactApplies` | src/components/filter-settings-form.tsx:47-50 | when the impact applies, the category is `cell_rna_stats`, a cutoff is set and the cutoff controls are shown (the plot is a histogram). The panel guard at line 270 is the same condition |
| `Impact.CountAffected` | src/components/filter-settings-form.tsx:64-72 | the affected count never exceeds the column length |
| `Impact.CountIsCardinality` | src/components/filter-settings-form.tsx:67-72 | the count equals the number of positions whose value is below a set minimum or above a set maximum. A value failing both bounds is counted once |
| `Impact.RoundedPercent` | src/components/filter-settings-form.tsx:74 | the percentage is NaN iff the column is empty. Otherwise it is the whole number nearest to 100·affected/total, ties rounded up |
| `Impact.PercentInRange` | src/components/filter-settings-form.tsx:74 | when at most all cells are affected, a whole percentage lies in 0..100 |
| `Impact.IsHigh` | src/components/filter-settings-form.tsx:75 | a NaN percentage is never high impact. A whole percentage is high impact iff it is at least 31 |
| `Impact.ImpactOn` | src/components/filter-settings-form.tsx:63-77 | the result for one column: its length as total, the number of affected positions (at most the total), the percent rounded from them, and high impact iff the column is non-empty and at least 30.5% is affected |
| `Impact.FilterImpact` | src/components/filter-settings-form.tsx:45-78 | there is no result iff the impact does not apply or no column has the plotted field's name. A result never has more affected cells than cells |
| `Impact.HighImpactThreshold` | src/components/filter-settings-form.tsx:74-75 | high impact (percent > 30) holds iff at least 30.5% of cells are affected, so exactly 30% is not high impact |
| `Impact.GetFilterImpact` | src/components/filter-settings-form.tsx:45-78 | the single counting loop returns exactly `FilterImpact`. Its invariant keeps the counter equal to the count over the scanned prefix |
| `Impact.FilterImpactSpec` | src/components/filter-settings-form.tsx:45-78 | there is no result iff the category, the plot type and the cutoffs do not all qualify, or no column has the field's name. Otherwise the result is for the first such column: its length, the number of affected cells, the percent rounded from those two (NaN only when empty, else within 0..100), and the high-impact flag as above |
| `Impact.InvertedRangeRemovesAll` | src/components/filter-settings-form.tsx:69 | a minimum above the maximum is not rejected: every value is counted |
| `Impact.InvertedRangeImpact` | src/components/filter-settings-form.tsx:69-75 | on a non-empty column an inverted range reports all cells, 100%, high impact |
| `Impact.LooserCutoffsRemoveFewer` | src/components/filter-settings-form.tsx:69 | loosening or clearing either cutoff never increases the affected count |
| `Impact.ImpactNeedsThresholdControls` | src/components/filter-settings-form.tsx:47-50 | an impact is reported only where the cutoff controls are shown, and never for a bar plot |
| `Impact.OtherUpdatesKeepImpact` | src/components/filter-settings-form.tsx:56-58 | the impact depends on the settings only through type, field and cutoffs: other controls' updates leave it unchanged |
| `Impact.ClearingCutoffsDisablesImpact` | src/components/filter-settings-form.tsx:49 | clearing the only set cutoff makes the impact not applicable |
| `Impact.PercentExamples` | src/components/filter-settings-form.tsx:74-75 | 1 of 6 is 17%. 3 of 10 is 30%, not high. 4 of 10 is 40%, high. 0 of 0 is NaN, not high |
| `Impact.MaxCutoffExample` | src/components/filter-settings-form.tsx:64-77 | the values 1, 2, 3, 4, 5, 100 with only a maximum of 10 give 1 of 6 cells, 17%, not high impact |

## Left out

- Rendering is not modelled: the JSX layout, cards, selects, number fields,
  labels, CSS classes and the expand/collapse signal (lines 32, 86-94). Which
  scale an unset axis selector shows (`|| "linear"`, lines 185 and 211) is
  display only.
- The `updateFilterSettings` channel and its owner are outside this file. Only
  the callbacks passed into it are modelled. Solid's reactive recomputation is
  not modelled.
- IEEE floating point is not modelled: NaN or infinite values in a column or a
  cutoff, NaN from the bins control (`NaN || 50`), and the float error of
  `affected / total * 100` before `Math.round`. The model's rounding is exact.
- The guard `if (!cellsData || !cellsData.columns) return null` (line 54) is
  not modelled. The dataset is a required prop, so the model always has a
  column list.
- Column values are numbers in the model. Comparing non-numeric
  (categorical) values against a cutoff with `<` is not modelled.
- `value as "log" | "linear"` (lines 188, 214) is an unchecked cast. A `null`
  from the select would be stored as is; the model always stores a scale.
- `src/components/icons/icon-headline.tsx` is a static icon and is not part of
  this model.
- `~/types` (the declarations of `FilterSettings`, `RawData` and
  `RawDataCategory`) is not part of this model. The field types are inferred
  from how the form uses them.
