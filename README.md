# Spotify track cluster demo: request pipeline

A Dafny model of the request path of a small Streamlit demo that assigns a
music track to a K-means cluster. The user picks two of the ten audio features
the model was fitted on and enters a value for each. The app then:

1. builds one input row with a column per feature, in the fixed feature order,
   all columns NaN at first;
2. writes the first value into the first feature's column and then the second
   value into the second feature's column;
3. replaces every remaining NaN with the constant 0 (`fillna(0)`);
4. scales the row with the pre-fitted scaler and asks the clustering model for
   a cluster id;
5. looks the id up in a static table of four descriptions, falling back to
   `"Unknown Type"`.

The second feature is picked from the feature list with the first feature
filtered out, which is what guarantees that the two features differ.

Modules:

- `Wrappers`: `Option`, the model of a cell that may be NaN (`None`).
- `Features`: the ordered feature set, column lookup by name, and the
  second-feature candidate list.
- `FeatureVector`: the row assembly as imperative code on arrays (allocate,
  two column writes, fill), proved against the column-wise description
  `ExpectedRow`.
- `Labels`: the cluster description table and its fallback.
- `Pipeline`: one form submission. The scaler and the model are a read-only
  context of two total functions supplied by the caller. Nothing is assumed
  about them beyond "scale, then predict".

Feature values are copied and never computed in the modelled code, so they
are `real`. Feature names are strings, as in the source. The row builder only
requires both names to belong to the feature set. It does not require them to
differ: with the same name twice, the second write wins, as it does in the
source. Distinctness is a property of the form, proved from the candidate list.

## Model

| member | source | states |
|---|---|---|
| `Features.AllFeaturesDistinct` | streamlit_app.py:8-11 | the feature set has exactly ten names and no two are equal, so a name's column is well defined |
| `Features.IndexIn` | streamlit_app.py:39-40 | the position returned holds the name and no earlier position does (first occurrence) |
| `Features.ColumnIndex` | streamlit_app.py:8-11 | a feature's column is below ten, holds that feature, and is the only column that does |
| `Features.Without` | streamlit_app.py:28 | the filtered list is no longer than the input, never contains the removed name, and contains exactly the other names of the input |
| `Features.WithoutAbsent` | streamlit_app.py:28 | filtering out a name the list does not contain returns the list unchanged |
| `Features.WithoutRemovesOneSlot` | streamlit_app.py:28 | on a list of distinct names, filtering out a present name deletes exactly its one slot, the rest keeping their order, so the length drops by one |
| `Features.SecondChoices` | streamlit_app.py:28 | the second-feature candidates never include the first choice and include every other feature of the set |
| `Features.SecondChoicesShape` | streamlit_app.py:28 | for a first choice from the set, the candidate list is the feature set with that one column removed, in the original order, nine names long |
| `Features.SelectedPairDistinct` | streamlit_app.py:27-28 | any second choice is in the feature set and differs from the first choice, in name and in column |
| `FeatureVector.ExpectedRow` | streamlit_app.py:38-45 | ten cells in feature order; a column holds `v2` if it is `f2`'s, else `v1` if it is `f1`'s, else 0 |
| `FeatureVector.FillMissing` | streamlit_app.py:45 | filling keeps the length, keeps each present cell and puts the fill value into each missing one |
| `FeatureVector.BlankRow` | streamlit_app.py:38 | a new row of ten cells, all NaN |
| `FeatureVector.SetColumn` | streamlit_app.py:39-40 | writing a feature's column replaces that one cell with the value and leaves every other cell as it was |
| `FeatureVector.FillNa` | streamlit_app.py:45 | a new row in which every NaN cell of the input is the fill value and every other cell is copied |
| `FeatureVector.BuildInputRow` | streamlit_app.py:38-45 | the built row has ten cells in feature order, the second value in the second column, the first value in the first column when the columns differ, and 0 everywhere else |
| `FeatureVector.WrittenRowFilled` | streamlit_app.py:38-45 | a blank row written at the two columns and then filled equals the column-wise description of the row |
| `FeatureVector.ExpectedRowSlots` | streamlit_app.py:38-45 | for two different features, their columns hold their values and the other eight columns hold 0 |
| `FeatureVector.ExpectedRowOrderIndependent` | streamlit_app.py:39-40 | exchanging the two selections together with their values builds the identical row |
| `FeatureVector.ExpectedRowSameColumn` | streamlit_app.py:39-40 | with the same feature chosen twice, its column holds the second value and every other column holds 0 |
| `FeatureVector.TempoEnergyExample` | streamlit_app.py:8-11 | tempo 120 and energy 0.8 give 0.8 in column 2, 120 in column 7 and 0 in the other eight columns |
| `Labels.Describe` | streamlit_app.py:13-18 | the lookup is total and never empty; it answers `"Unknown Type"` exactly for the ids outside 0 to 3, and otherwise one of the table's descriptions |
| `Labels.DescribeKnownIds` | streamlit_app.py:13-18 | ids 0, 1, 2 and 3 give exactly the four table strings |
| `Pipeline.WellFormed` | streamlit_app.py:27-28 | both names are in the feature set and they differ |
| `Pipeline.FormRequestsAreWellFormed` | streamlit_app.py:27-28 | the requests the two select boxes can produce are exactly those naming two different features of the set |
| `Pipeline.RequestRow` | streamlit_app.py:38-45 | for a request naming two different features, the row holds both entered values in their features' columns and 0 in the other eight |
| `Pipeline.ClusterOf` | streamlit_app.py:48-49 | the id is the model's predict applied to the scaler's transform of the row |
| `Pipeline.Submit` | streamlit_app.py:47-50 | the reported cluster is the model's prediction on the scaled row of the request, and the description is the table's, `"Unknown Type"` exactly when the id is outside 0 to 3 |
| `Pipeline.SubmitOrderIndependent` | streamlit_app.py:39-40 | entering the two selections in the other order is also a valid request and gives the same row and the same cluster |

## Left out

- The Streamlit page: title, text, the form, the two select boxes with their default positions, the number inputs and their defaults, the submit button and the success message. These are presentation and framework-managed widget state. `Pipeline.Request` and `Pipeline.WellFormed` stand for what the form can submit; `Pipeline.FormRequestsAreWellFormed` ties the two.
- Loading the scaler and the model from their joblib files. This is file I/O and deserialisation. `Pipeline.Models` is the loaded pair, so a request cannot be served without both.
- What the scaler's `transform` and the model's `predict` compute. They are foreign library calls on floating point. `Pipeline.ClusterOf` composes two uninterpreted total functions, so shape errors inside them are not modelled.
- Taking element 0 of the predicted array and converting it with `int(...)`. The model's `predict` is given one row and returns one integer id.
- `X_user` and `real_features`. Both are computed and never used.
- DataFrame mechanics beyond one named cell per feature. The row is an array indexed by feature position.
- Floating point. Values are `real`. The form cannot submit NaN, so `fillna` never touches an entered value.
