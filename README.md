# Electrical installation quotation engine — Dafny model

This project models the quotation engine of the Electrical Installation Cost
Quotation System: the computation that runs when the "Generate Quotation"
button is pressed (`app.py`, lines 94-179). From the form's project record it

1. builds a one-row table and one-hot encodes it (`pd.get_dummies`): numeric
   fields keep their names, each text field (`state`, `building_type`,
   `labour_type`) becomes a `<field>_<value>` indicator column set to 1;
2. fills in, one at a time and in place, every trained feature column the
   encoding did not produce with 0, then re-indexes the table by the trained
   column list, dropping the rest and fixing the order;
3. asks the trained model for a base cost and multiplies it by the state's
   price multiplier (a fixed table of six states);
4. splits the total 65 % materials / 35 % labour;
5. labels the model's per-column importances by the trained columns, sorts
   them descending, sums them into ten display groups by substring match on
   the column name (`Series.filter(like=...)`), and sorts the ten group
   scores ascending for the bar chart.

The trained model is given as its two capabilities: `predict`, a function
from the aligned row to a real number, and `importances`, a sequence of
reals meant to be as long as the trained column list. Money and importances
are `real`: exact arithmetic standing in for floating point, so the identity
materials + labour = total holds exactly here and only up to rounding in
the program.

Files:

- `common.dfy` — `Option`, the two failures the handler can raise, `Result`, and the prefix test `StartsWith`.
- `encoding.dfy` — `GetDummies` over a one-row record, lookup by column name,
  the form's record (`ProjectInput`, `InputRow`), and the one-hot lemmas.
- `alignment.dfy` — class `Frame` (the one-row DataFrame the handler mutates),
  and `EncodeAndAlign`, the fill loop and re-indexing, proved against the
  encoding.
- `pricing.dfy` — the state multiplier table and the materials/labour split.
- `drivers.dfy` — substring match, filtering and summing, sorting, the display
  groups and the chart data `CostDrivers`.
- `quotation.dfy` — `GenerateQuotation`, the whole handler.

Facts about the code that the model keeps as they are: an unknown state has
no default multiplier, since `STATE_MULTIPLIERS[state]` raises a KeyError
(app.py:127); an empty or malformed trained column list raises no error of
its own; costs are not checked for non-finite values; and the labour share is
the literal 0.35 (app.py:134), which equals 1 − 0.65 in exact arithmetic.

## Model

| member | source | states |
|---|---|---|
| `Encoding.GetDummiesReordersFields` | app.py:112-113 | One-hot encoding of a one-row table only reorders the per-field encodings: each field gives exactly one column (its own name and value if numeric, `<field>_<value>` = 1 if text), and no other column appears. |
| `Encoding.EncodedList` | app.py:99-113 | The encoded form record is the seven numeric columns in record order followed by the state, building-type and labour-type indicators. |
| `Encoding.EncodedNamesDistinct` | app.py:99-113 | Whatever the categories hold, no two encoded columns share a name. |
| `Encoding.NumericPassThrough` | app.py:99-119 | Each numeric field (floor area, rooms, lighting, socket and switch points, cable and conduit length) reaches its same-named column unchanged. |
| `Encoding.OneHotExclusive` | app.py:113-119 | Among columns named `<field>_...`, the one naming the record's category holds 1 and every other holds 0. |
| `Encoding.UnseenCategoryAllZero` | app.py:113-119 | A category that no trained column names leaves all of that field's indicators at 0, with no error. |
| `Encoding.OneHotAtMostOne` | app.py:113 | At most one indicator column of a field is non-zero. |
| `Encoding.NotEncodedIsZero` | app.py:113-117 | Encoding produces exactly the numeric columns and the record's three indicators; any other column holds the fill value 0. |
| `Alignment.Frame.constructor` | app.py:113 | The table built from the encoded columns has exactly their labels, in order, each with its encoded value. |
| `Alignment.Frame.SetColumn` | app.py:117 | Assigning a column overwrites it if the label exists and otherwise appends it as the last column; no other cell changes. |
| `Alignment.Frame.Select` | app.py:119 | Re-indexing by a label list fails (KeyError) exactly when a label is missing; otherwise the result has exactly those labels, in that order, each with the table's value. |
| `Alignment.FillMissing` | app.py:115-117 | Adding a missing column as 0 keeps the invariant: every encoded column keeps its value and every added column is 0. |
| `Alignment.EncodeAndAlign` | app.py:99-119 | The aligned row has exactly the trained columns, in their order, no more and no fewer; each holds the encoded value of that column or 0 if encoding did not produce it; encoded columns not trained are dropped. |
| `Pricing.ApplyStateMultiplier` | app.py:127-128 | Succeeds exactly for the six states of the table and fails with UnknownState otherwise (never a factor of 1); total = base × multiplier, with the multiplier between 0.92 and 1.15 and the total of the base's sign. |
| `Pricing.MultiplierTable` | app.py:29-36 | Each state's multiplier: Lagos 1.15, Abuja 1.12, Rivers 1.10, Oyo 1.00, Ogun 0.95, Kwara 0.92. |
| `Pricing.MultiplierMonotone` | app.py:127-128 | For a fixed state, a larger base cost never gives a smaller total. |
| `Pricing.Breakdown` | app.py:133-134 | Materials + labour = total exactly; they stand in the ratio 65 : 35, are 0.65 and 0.35 of a non-zero total, and are non-negative (labour ≤ materials ≤ total) when the total is. |
| `Pricing.LagosExample` | app.py:127-134 | A Lagos base cost of 1,000,000 gives 1,150,000 in total, 747,500 materials and 402,500 labour. |
| `Drivers.ContainsIffOccurs` | app.py:164-173 | The substring test holds exactly when the substring occurs at some position of the column name. |
| `Drivers.Filter` | app.py:164 | `filter(like=...)` keeps exactly the entries whose label contains the substring, each as often as in the series. |
| `Drivers.GroupScoreIsMatchingSum` | app.py:164-173 | A group score is the sum of the importances of exactly the columns whose name contains the group's substring; other columns contribute nothing. |
| `Drivers.SumOfPermutation` | app.py:157-160 | Reordering a series does not change its sum. |
| `Drivers.GroupScoreOfPermutation` | app.py:157-164 | The descending pre-sort does not change any filtered sum. |
| `Drivers.GroupScoresOfPermutation` | app.py:157-174 | The descending pre-sort does not change any of the ten group scores. |
| `Drivers.GroupScoresAt` | app.py:163-174 | The grouped series has one entry per display group, in order, with its label and its matching sum. |
| `Drivers.SumNonNegative` | app.py:164-173 | A sum of non-negative importances is non-negative. |
| `Drivers.GroupScoresNonNegative` | app.py:163-174 | With non-negative importances every group score is non-negative. |
| `Drivers.GroupTotalCountsMatches` | app.py:163-174 | The group scores add up to each importance counted once per group whose substring its column name contains. |
| `Drivers.PartitionKeepsTotal` | app.py:163-174 | When every column is selected by exactly one group, the group scores add up to the total importance. |
| `Drivers.Insert` | app.py:176-179 | Inserting into a sorted series keeps it sorted and adds exactly the new entry. |
| `Drivers.SortValues` | app.py:176-179 | Sorting yields the same entries (a permutation), ordered by score in the requested direction. |
| `Drivers.CostDrivers` | app.py:157-179 | Fails with LengthMismatch exactly when the importances and trained columns differ in length; otherwise the chart data is a permutation of the ten group entries, computed on the unsorted series, sorted ascending by score. |
| `Drivers.DriverScore` | app.py:163-179 | Every display group appears in the chart data with the sum of the importances of exactly its matching columns. |
| `Drivers.DriverScoresNonNegative` | app.py:157-179 | With non-negative importances every displayed score is non-negative. |
| `Quotation.GenerateQuotation` | app.py:94-179 | The handler fails with UnknownState for a state outside the table, else with LengthMismatch for mismatched importances, and succeeds otherwise; the quote holds the aligned row, the prediction on it, the state-adjusted total, its exact 65/35 split and the cost-driver chart data. |

## Left out

- The Streamlit page, form widgets, metrics, captions and button (app.py:9-89, 139-155, 186-190): presentation only. The form's `min_value` bounds are not preconditions because no modelled step depends on them.
- `load_assets` and `pickle.load` (app.py:18-24): file I/O; the trained column list and the model are parameters.
- The internals of `model.predict` and `model.feature_importances_`: an opaque trained model, given as a function and a sequence. Feature-name checks the model library may make are not modelled.
- The matplotlib chart (app.py:181-186) and the currency formatting of the metrics: rendering, and rounding of floats.
- IEEE floating point: all money and importances are exact reals, so the split identity and the multiplier products are exact in the model only.
- `client_name` and `project_reference`: collected but never used by the computation.
- Drivers.SortValues: the order among equal scores is not part of its contract; the library's sort does not promise one, and the function picks a stable insertion order.
- Quotation.GenerateQuotation: in the program, a LengthMismatch failure is raised after the total and the breakdown have already been displayed; the model returns only the failure.
- Drivers.Filter: `like` is always one of the ten non-empty substrings of app.py:164-173; the library's TypeError for an empty `like` is not modelled (the model would keep every entry).
- Alignment.Frame: a table with repeated column labels is not modelled; the record's encoding never has them (`Encoding.EncodedNamesDistinct`).
