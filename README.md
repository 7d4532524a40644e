# MobiCost Analyzer: the prediction pipeline, modelled in Dafny

MobiCost Analyzer is a Streamlit page. It reads a handset's specification from
sliders and checkboxes and predicts its price tier: Budget, Mid-Range, Premium
or Luxury. This project models the logic behind that page, all of it in
`app.py`:

- **Feature assembly** (`features.dfy`, module `Features`). The form's nineteen
  inputs are collected into a record, with checkboxes as 0/1. Three engineered
  columns are added in place:
  - `pixel_density = px_width * px_height`
  - `screen_area = sc_w * sc_h`
  - `camera_total = pc + fc`

  The record is then projected onto the twenty columns of `FEATURE_LIST`, in
  order. Column names are the enumeration `Field`, whose `Name()` gives the
  source's string. A record is a `map<Field, Num>`, where `Num` holds a Python
  int or float. The projection is `Project`, and the twenty-slot result is
  `FeatureVector`. The method `Assemble` fills a 20-slot array the same way
  the handler does.
- **Selective scaling** (`scaling.dfy`, module `Scaling`). The six
  `NUMERICAL_FEATURES` columns, matched by name, are handed to the pre-fitted
  scaler. The scaler's output is written back in place. The scaler is an
  arbitrary function `seq<real> -> seq<real>`. If its output does not have
  one value per column, the result is `TransformFailure`.
- **Tier lookups** (`tables.dfy`, module `Tables`). `PRICE_RANGES`,
  `PRICE_COLORS` and `PRICE_ICONS` are subscripted with the predicted class,
  and a missing key is a `KeyError`. `POPULAR_MODELS.get(prediction, [])`
  supplies example handsets. The loop over `enumerate(models)` places entry
  `idx` in grid column `idx % 5`.
- **Presets** (`presets.dfy`, module `Presets`). `generate_realistic_values`
  draws every integer input from a fixed half-open range per tier, and any tier
  other than 0, 1 or 2 gets the Luxury ranges. The random draw is a
  nondeterministic choice, constrained only by the ranges.
- **The handler** (`pipeline.dfy`, module `Pipeline`). It assembles, scales,
  classifies, looks up and lays out the grid. The classifier is an arbitrary
  function `seq<real> -> int`. `Outcome` is the handler's result as a function
  of its inputs, and the method `Predict` computes exactly that result.

Shared `Option`, `Result` and error types are in `outcomes.dfy`. Python's
integers are unbounded, so the engineered columns are computed on unbounded
`int`s and nothing wraps around.

Three facts about the code shape the model:

- The code does not check that the engineered columns are non-negative. Only
  the sliders keep them so, and `DerivedBounds` proves the bounds under the
  slider limits.
- The projection onto `FEATURE_LIST` can only fail with pandas' `KeyError`,
  and `AssembledInFeatureOrder` proves it does not.
- An unknown class raises `KeyError` at the label lookup, before the models
  lookup with its `[]` default is reached.

Column names are compared as `Field` values where pandas compares strings;
`NamesDistinct` shows the 22 names are distinct, so the two agree.

## Model

| member | source | states |
|---|---|---|
| Features.Flag | app.py:680-698 | `int(b)` of a checkbox is 1 when it is ticked and 0 otherwise |
| Features.Project | app.py:707 | projecting a record onto columns succeeds exactly when every column is a key; slot i then holds column i's value |
| Features.FeatureVector | app.py:707 | the model's input vector has one slot per `FEATURE_LIST` column |
| Features.RecordAt | app.py:679-704 | after engineering, every key of the record (`Features.Record`, which adds the three keys to `Features.InputRecord`, the collected dict) holds its input (checkboxes as 0/1) or its defining product or sum |
| Features.AssembledInFeatureOrder | app.py:679-707 | projecting the engineered record onto `FEATURE_LIST` never fails and gives `FeatureVector` |
| Features.Assemble | app.py:679-707 | building the dict, adding the three keys in place and copying the columns leaves the array equal to `FeatureVector` |
| Features.FeatureListShape | app.py:455-460 | `FEATURE_LIST` has 20 distinct columns: every record key except `px_height` and `px_width` |
| Features.FlagsAreBinary | app.py:680-698 | checkbox columns of the vector hold 0.0 or 1.0, and every column but clock speed holds a Python int |
| Features.NamesDistinct | app.py:455-462 | two columns with the same name are the same column |
| Features.FeatureListPositionUnique | app.py:455-460 | a column name sits at one position of `FEATURE_LIST` only |
| Features.IndexOf | app.py:710 | finding a column by name returns its first position, or None exactly when it is absent |
| Features.Positions | app.py:710 | finding several columns by name succeeds exactly when all are present, and each found position holds its name |
| Features.NumericalColumnsPresent | app.py:455-462 | `NUMERICAL_FEATURES` has no duplicates, and its columns sit in `FEATURE_LIST` at positions 0, 10, 17, 18, 6 and 19 |
| Features.NumericalColumnsByName | app.py:455-462 | matching `NUMERICAL_FEATURES` by name in `FEATURE_LIST` gives exactly those positions |
| Features.DerivedBounds | app.py:597-625 | within the slider limits, pixel_density is in [0, 12000000], screen_area in [25, 375] and camera_total in [0, 300] |
| Features.DefaultSpec | app.py:578-661 | the form's initial values are within the slider limits (`Features.Slider`) and give engineered values 3686400, 120 and 64 |
| Scaling.ScatterWrites | app.py:710 | writing values at distinct positions leaves each value at its position |
| Scaling.ScatterKeeps | app.py:710 | writing values at some positions leaves every other position unchanged |
| Scaling.NumericalIndex | app.py:462 | `NUMERICAL_FEATURES[i]` is found by name at `NumericalPositions[i]` |
| Scaling.ScalerFedByName | app.py:710 | for `Scaling.ScaleRow` (the scaler applied to `Gather` of the six cells, its output written back by `Scatter`): the scaler receives the `NUMERICAL_FEATURES` cells in that order, and scaling fails exactly when it returns the wrong number of values |
| Scaling.ScaledColumnsTakeOutput | app.py:710 | the column named `NUMERICAL_FEATURES[i]` receives the scaler's i-th output |
| Scaling.OtherColumnsKept | app.py:710 | the fourteen other columns keep their values |
| Scaling.ScaleInPlace | app.py:710 | overwriting the six array columns in place gives `ScaleRow` of the old contents; on failure nothing is written |
| Tables.Lookup | app.py:716-718 | subscripting a table succeeds exactly on its keys and raises `KeyError` on the key otherwise |
| Tables.DescribeDefinedOnTiers | app.py:401-420 | the label, colour and icon lookups (`Tables.Describe`, the three subscripts of app.py:716-718) succeed exactly on 0..3, naming Budget, Mid-Range, Premium, Luxury; any other class is a `KeyError` on that class |
| Tables.TiersDistinguishable | app.py:401-420 | two different tiers have different labels, colours and icons |
| Tables.ModelsFor | app.py:778 | the models lookup gives the tier's 5 entries for 0..3 and none for any other class |
| Tables.GridColumnAt | app.py:779-781 | grid column c (`Tables.GridColumn`, the entries whose index is c modulo 5) holds (n + 4 - c) / 5 entries, and its k-th entry is `models[5k + c]` |
| Tables.EveryModelPlaced | app.py:779-781 | entry i lands in column `i % 5` (< 5) as that column's entry `i / 5` |
| Tables.TierGridOnePerColumn | app.py:423-452 | a tier's five models fill the grid one per column, in list order |
| Tables.PlaceInGrid | app.py:778-781 | the placement loop leaves five columns (`Pipeline.Grid`), column c holding the entries with index c modulo 5 |
| Presets.PresetRange | app.py:475-539 | exactly the twelve integer preset fields have a range, and none is empty |
| Presets.OtherTiersAreLuxury | app.py:523-539 | every class other than 0, 1 and 2 draws from the Luxury ranges |
| Presets.PresetWithinSlider | app.py:475-539 | every value a preset can draw lies within the limits of that field's slider |
| Presets.GenerateRealisticValues | app.py:475-539 | a preset sets exactly the twelve integer fields, each within `[low, high)` of its tier's range |
| Pipeline.OutcomeCharacterised | app.py:707-781 | the handler (`Pipeline.Outcome`) succeeds exactly when the scaler width is right and the class is in 0..3; the label is then the class's label and the grid shows one of the tier's models per column; a wrong scaler width fails with the shape error, and a right width with an unknown class fails with a `KeyError` on the class |
| Pipeline.Predict | app.py:679-781 | the array-based handler computes exactly `Outcome`, so identical inputs and artifacts give identical results |

## Left out

- Page layout, CSS, tabs, buttons, the progress bar with its sleeps, the
  `session_state` updates, charts, feature-importance data and static copy.
  These are presentation and timing.
- `load_image`: file-system I/O, image creation and base64 encoding in
  libraries outside this model.
- `load_model`, `joblib.load`, and the classifier's internals. The classifier
  is an arbitrary function of the scaled row. A failure to load the artifacts
  at start-up (app.py:29) is not modelled.
- Pipeline.Predict: does not model `predict_proba`, the confidence percentage
  or the gauge, which work on floating-point probabilities.
- The scaler's internals, which are floating-point normalisation. It is an
  arbitrary function.
- Presets.GenerateRealisticValues: does not set `clock_speed`, which the
  source draws as a rounded float uniform.
- The classifier reads a labelled data frame. The model passes it the same
  values as a vector in `FEATURE_LIST` order.
