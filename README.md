# Dropout-risk feature schema and row builder, in Dafny

This project models the part of the student dropout-risk system that fixes
the classifier's feature schema and turns one student's raw JSON record into
the row the classifier is fed.

- **Column-name cleaner `clean_columns`** (`Naming`, `Schema.CleanColumns`).
  The training script and the serving app each have their own copy
  (src/train.py:27-39 and src/app.py:13-25); the copies are identical
  character for character, and the model represents both by one function
  (`Schema.CleanColumnsIsChain` ties it to the chain written in each file).
  It replaces
  `<` with `lt`, `>` with `gt`, `[` with `(`, `]` with `)`, `%` with `pct`
  and a space with `_`. `Naming.Clean` defines it character by character.
  `Naming.ReplaceChain` is the chain of six `str.replace` calls as written,
  and `Naming.ChainIsClean` proves the two agree on every string.
- **Frozen schema** (`Schema`, `CleanedSchema`). `_RAW_FEATURE_COLUMNS` is
  written out as nine numeric fields followed by one block per categorical
  field: gender, region, highest education, IMD band, age band and
  disability. Each block lists the field's levels and then `<field>_nan`.
  `FEATURE_COLUMNS` is the raw list cleaned. `CleanedSchema` computes the
  cleaned list name by name, then proves it has fifty distinct names and
  that each block sits at its offset.
- **Row builder `preprocess_input`** (`Encoder`). A `Row` class stands for
  the Python dictionary: its keys in insertion order, plus a map. The
  method `PreprocessInput` does what the source does:
  - fills every schema column with 0;
  - loops over the nine numeric fields, copying those the record has;
  - runs six categorical blocks. Each block sets to 1 either the column
    the value names or the field's `_nan` column.

  The method is proved to return exactly the schema's columns, in order,
  holding `Encode(raw)`: the row described column by column. The lemmas
  about that row cover:
  - the one-hot property;
  - numeric pass-through;
  - the fallbacks to `_nan`;
  - agreement with the names the training side uses;
  - the effects of a value that names a column of another family.

  Most lemmas are stated for any schema with the `FEATURE_COLUMNS` shape
  (`Encoder.Layout` and its parts). `Encoder.FeatureColumnsLayout` proves
  that the real schema has that shape.
- **Training rules** (`Training`). These cover:
  - the identifier drop;
  - the training-side cleaning;
  - the guard that stops training when an object-typed column remains;
  - the choice between the two fitted models.

  A frame is modelled by its column names and dtypes only.

A categorical value is taken as a complete column name, the way
`preprocess_input` reads it. It is cleaned for region, highest education,
IMD band and age band, and used verbatim for gender and disability.
`preprocess_input` does not put the field name in front of the value. It
raises no error of its own for an unknown value or for a numeric field that
holds something other than a number: an unknown value selects the field's
`_nan` column, and a numeric value is copied as it is.

## Model

| member | source | states |
|---|---|---|
| Naming.Clean | src/app.py:16-24 | the cleaned name contains none of `<`, `>`, `[`, `]`, `%` or space |
| Naming.CleanLength | src/app.py:16-24 | the cleaned name is at least as long as the input |
| Naming.CleanChar | src/app.py:18-23 | what one character becomes: a trigger is replaced by its trigger-free text, and any other character is kept as it is |
| Naming.ReplaceAll | src/app.py:18-23 | one `str.replace` with a one-character pattern: the pattern no longer occurs unless the replacement text contains it (`ReplaceAllAbsent`, `ReplaceAllConcat` and `ReplaceAllChars` give the rest) |
| Naming.ReplaceAllChars | src/app.py:18-23 | a replacement introduces no character found neither in the name nor in the replacement text |
| Naming.ReplaceChain | src/app.py:16-24 | after the six chained replacements no trigger character is left; `ChainIsClean` proves the chain equals `Clean` |
| Naming.ChainIsClean | src/app.py:16-24 | the six chained replacements, applied in the source's order, equal the per-character cleaner on every string |
| Naming.ReplaceChainConcat | src/app.py:16-24 | the replacement chain distributes over concatenation |
| Naming.ReplaceAllAbsent | src/app.py:18-23 | a replacement whose character does not occur leaves the string unchanged |
| Naming.CleanConcat | src/app.py:16-24 | cleaning distributes over concatenation: clean(a + b) == clean(a) + clean(b) |
| Naming.CleanFixedPoints | src/app.py:16-24 | the cleaner leaves a name unchanged exactly when the name has no trigger character (both directions) |
| Naming.CleanIdempotent | src/app.py:16-24 | cleaning twice equals cleaning once |
| Naming.CleanPrefixed | src/app.py:16-24 | cleaning `field_` + level equals `field_` + the cleaned level, for any prefix without triggers |
| Naming.CleanSpaceJoin | src/app.py:23 | a space between two trigger-free parts becomes `_` |
| Naming.CleanNotInjective | src/app.py:23 | `a b` and `a_b` are different names that clean to the same name |
| Schema.CleanColumns | src/app.py:13-25 | cleaning a list of labels keeps its length, and every cleaned label is trigger-free |
| Schema.CleanColumnsIsChain | src/train.py:27-39 | each label of the cleaned list is what the chain of six replacements makes of it, which is the training-side copy of the cleaner |
| Schema.CleanColumnsConcat | src/app.py:13-25 | cleaning a list of labels cleans its two parts independently |
| Schema.CleanColumnsIdempotent | src/train.py:88-89 | cleaning a list of labels a second time changes nothing |
| Schema.FamilyBlockShape | src/app.py:44-68 | each family's cleaned block has distinct names, all starting with `<field>_`, at least two of them, and ends with `<field>_nan` |
| Schema.FamiliesDisjoint | src/app.py:44-68 | two different families share no column |
| Schema.NumericNotCategorical | src/app.py:40-68 | no numeric field is a column of any family |
| Schema.CleanedLayoutDistinct | src/app.py:39-69 | the seven cleaned blocks, laid end to end, are fifty pairwise-distinct names |
| CleanedSchema.FeatureColumnsValue | src/app.py:72 | `FEATURE_COLUMNS` is the raw literal cleaned element by element: the nine numeric names, then the six cleaned blocks, fifty names in all |
| CleanedSchema.FeatureColumnsDistinct | src/app.py:72 | the fifty cleaned names are pairwise distinct, although the cleaner itself is not injective |
| CleanedSchema.CleanFieldColumns | src/app.py:44-68 | each family's raw block cleans to its cleaned block |
| CleanedSchema.ImdBand20To30Cleaned | src/app.py:61 | `imd_band_20-30%` cleans to `imd_band_20-30pct` |
| CleanedSchema.NumericPositions | src/app.py:40-42 | the first nine schema columns are the numeric fields, in order |
| CleanedSchema.FamilyPositions | src/app.py:39-72 | each family's cleaned block occupies the schema from the family's offset on |
| CleanedSchema.SchemaInitials | src/app.py:72 | every schema name is non-empty and starts with one of `n s d v a g r h i` |
| CleanedSchema.SchemaLengths | src/app.py:39-72 | every schema name is at least seven characters long |
| CleanedSchema.FamilyLength | src/app.py:44-68 | a family column is longer than its field name, which it carries with an underscore |
| Encoder.Candidate | src/app.py:94-158 | the column name a value asks for: text gives one and null or a number gives none; region, highest education, IMD band and age band clean it (trigger-free result), gender and disability use the text verbatim |
| Encoder.TargetIn | src/app.py:94-158 | the column a block sets is the field's `_nan` column or a schema column equal to the candidate, it is `_nan` whenever there is no candidate; `SelectsAt` gives the converse |
| Encoder.SelectsAt | src/app.py:99-103 | a value whose candidate is a schema column selects that column, which holds 1 in the row |
| Encoder.EncodeIn | src/app.py:82-158 | the row has one value per schema column, in schema order |
| Encoder.EncodeInValues | src/app.py:82-158 | each value of the row is 1, 0 or the record's value for a numeric field |
| Encoder.Encode | src/app.py:75-160 | the served row has one value per `FEATURE_COLUMNS` entry; `PreprocessInput` proves the method returns it |
| Encoder.CopyFields | src/app.py:85-90 | the copy keeps every key, and any key it adds is a listed field present in the record |
| Encoder.Row.Store | src/app.py:90 | `row[key] = value`: the map gets the new value, and the key goes last only if it was absent |
| Encoder.Row.ToFrame | src/app.py:160 | the one-row frame has the dictionary's keys in order, each with its value |
| Encoder.ZeroRow | src/app.py:82 | the new row has exactly the schema's columns, in order, all 0 |
| Encoder.CopyFieldsValues | src/app.py:85-90 | the copy overwrites exactly the listed fields the record has, and adds no key |
| Encoder.CopyNumericFields | src/app.py:85-90 | the loop over the numeric fields keeps the keys and leaves the map as `CopyFields` specifies |
| Encoder.EncodeField | src/app.py:94-103 | one categorical block adds no key and sets exactly one column, the field's target, to 1 |
| Encoder.TargetsSetBy | src/app.py:94-158 | the six blocks' targets are exactly the columns that some block sets |
| Encoder.EncodedRow | src/app.py:82-160 | the dictionary after the six blocks, read in key order, is `EncodeIn` |
| Encoder.BuildRow | src/app.py:82-160 | over any schema of distinct names that holds the numeric fields and the `_nan` columns, the row has exactly the schema's columns, in order, holding `EncodeIn` |
| Encoder.PreprocessInput | src/app.py:75-160 | the result has exactly the fifty `FEATURE_COLUMNS`, in schema order, holding `Encode(raw)` |
| Encoder.FeatureColumnsRowSchema | src/app.py:82-90 | `FEATURE_COLUMNS` is distinct and holds every numeric field and every `_nan` column |
| Encoder.NanInSchema | src/app.py:44-68 | each family's `_nan` column is a schema column |
| Encoder.FeatureColumnsLayout | src/app.py:39-72 | `FEATURE_COLUMNS` has the `Layout` shape all the row lemmas assume |
| Encoder.FamilyColumnValue | src/app.py:94-158 | when values stay in their families, column j of family f holds 1 if f chose it and 0 otherwise |
| Encoder.SliceIndicators | src/app.py:94-158 | the same, for the whole slice of the row belonging to one family |
| Encoder.OneHot | src/app.py:84-158 | when values stay in their families, each family's slice holds exactly one 1, at the chosen column, and 0 elsewhere |
| Encoder.NumericPassThrough | src/app.py:85-90 | when values stay in their families, each numeric column holds the record's value if present and 0 if absent |
| Encoder.NumericNotSet | src/app.py:85-158 | when values stay in their families, no categorical block sets a numeric column |
| Encoder.MissingValueSetsNan | src/app.py:95-97 | an absent or null value selects `<field>_nan`, which holds 1 in the row; this covers the dashboard's "Select" entry, which posts null |
| Encoder.UnseenValueSetsNan | src/app.py:106-114 | a text value whose candidate name is not a schema column selects `<field>_nan`, which holds 1 |
| Encoder.NumberSetsNan | src/app.py:99-103 | over a schema of names with at least seven characters and known initials, such as `FEATURE_COLUMNS`, the printed form of a number is not a key, verbatim or cleaned (by `PrintedNumberMisses`), and a number selects `<field>_nan`, which holds 1 |
| Encoder.PrintedNumberNamesNoColumn | src/app.py:99-110 | no form Python prints a JSON number in (leading digit or minus sign, `nan`, `inf`) is a `FEATURE_COLUMNS` name, verbatim or cleaned |
| Encoder.PrintedNumberMisses | src/app.py:99-110 | the same for any schema whose names have at least seven characters and a known initial |
| Encoder.UnknownRegion | src/app.py:106-114 | region `Atlantis` selects `region_nan` |
| Encoder.EmptySelection | src/app.py:98-103 | an empty string, which the dashboard never sends, selects `<field>_nan` |
| Encoder.RawLevelSelectsItsColumn | src/app.py:106-114 | a record carrying a raw level name (e.g. `age_band_55<=`) selects that level's cleaned training column, which holds 1 |
| Encoder.LevelCandidate | src/app.py:99-110 | the candidate the serving side makes of a raw level name is that level's cleaned column |
| Encoder.VerbatimFamilies | src/app.py:44-68 | gender and disability levels contain nothing the cleaner rewrites, so using them verbatim loses nothing |
| Encoder.CrossFamilyOverride | src/app.py:99-101 | as written, gender `studied_credits` overwrites the copied credits with 1 and chooses no gender column |
| Encoder.TwoRegions | src/app.py:94-114 | as written, gender `region_Wales` next to region `region_Scotland` sets two region columns |
| Training.DropIdentifiers | src/train.py:60-61 | the drop keeps no more columns than it is given, each kept column comes from the frame, and none is an identifier |
| Training.DropIdentifiersMembers | src/train.py:60-61 | a column survives the drop exactly when its name is not `dropout`, `id_student`, `code_module` or `code_presentation` |
| Training.DropIdentifiersConcat | src/train.py:61 | the drop works column by column, so the survivors keep their original order |
| Training.DropIdentifiersNoop | src/train.py:61 | a frame without those columns is left unchanged; absent identifiers raise nothing |
| Training.DropIdentifiersNumeric | src/train.py:61 | dropping columns never introduces an object-typed column |
| Training.CleanFrame | src/train.py:27-39 | the cleaned frame has as many columns as the input, each with a trigger-free name and the input column's dtype |
| Training.CleanFrameNames | src/train.py:27-39 | the training cleaner keeps the number, order and dtypes of the columns and renames exactly as the serving cleaner does |
| Training.CleanFrameIdempotent | src/train.py:88-89 | re-cleaning after resampling changes nothing |
| Training.ObjectColumns | src/train.py:73 | the list of object-typed names is no longer than the frame; `ObjectColumnsEmpty` states when it is empty |
| Training.ObjectColumnsEmpty | src/train.py:73-74 | the list of object-typed columns is empty exactly when no column is object-typed |
| Training.CheckNumeric | src/train.py:72-76 | the guard passes the frame on unchanged exactly when no column is object-typed, and otherwise fails with the source's message |
| Training.GuardIgnoresCategory | src/train.py:73 | a categorical or boolean column passes the guard, which only looks at the object dtype |
| Training.Features | src/train.py:60-76 | a frame that passes has no more columns than the input, none of them object-typed, all with trigger-free names; a frame that fails carries the guard's message |
| Training.FeaturesNames | src/train.py:60-76 | a frame reaches resampling exactly when no kept column is object-typed, carrying the cleaned names of the kept columns |
| Training.NumericFramePasses | src/train.py:60-76 | a frame with no object-typed column always reaches resampling |
| Training.FeaturesMatchServing | src/train.py:60-65 | when the kept columns carry the raw schema names, training uses exactly `FEATURE_COLUMNS` |
| Training.ChooseBest | src/train.py:148-153 | XGBoost is chosen exactly when its recall is at least RandomForest's, and the recorded name matches the chosen model |
| Training.ChooseBestIsMaximal | src/train.py:148-153 | the chosen model's recall is the larger of the two |
| Training.ChooseBestSymmetry | src/train.py:148-153 | swapping two different recalls swaps the choice, and a tie goes to XGBoost |

## Left out

- HTTP transport is not modelled: the Flask routes, CORS, model loading, `predict_proba` and the error-to-JSON wrapper (src/app.py:1-10, 163-176). The model ends at the built row.
- Fitting and scoring are not modelled. That covers the train/validation split, SMOTE, the two classifiers, the metrics, the `scale_pos_weight` division and saving the model (src/train.py:67-141, 155-158). The two recalls enter `Training.ChooseBest` as parameters.
- The training script's frame is modelled by its column names and dtypes only. The guard looks at the training split, which has the same columns as the whole feature frame, so `Training.Features` applies it to the feature frame.
- Training.ChooseBest: recalls are exact reals, so a NaN recall, which fails every comparison, is not modelled.
- `y = df["dropout"]` (src/train.py:62) is not modelled. It raises a `KeyError` when the label column is missing.
- src/preprocess.py, src/explain.py (its `clean_columns` is the same chain), src/evaluate.py, src/download_oulad.py and dashboard/front/app/page.tsx are not part of this model.
- JSON values are `Null`, `Num` or `Text`. Booleans, lists and nested objects are not modelled.
- Encoder.Candidate: a number in a categorical field is taken to name no column, instead of its printed form. Python prints a JSON number as a string that starts with a digit or a minus sign, or as `nan` or `inf`. None of these strings, verbatim or cleaned, is a `FEATURE_COLUMNS` name (`Encoder.PrintedNumberNamesNoColumn`), so for the real schema the outcome is the same.
- Numeric fields are copied as opaque values with no coercion or range check, as in the source.
- `Encoder.Encode` depends only on the record, so the copy that `clean_columns` takes and the mutation of `row` inside the function are not observable in the model. Dictionary insertion order is modelled by `Row.keys`.
- Most row lemmas are stated over any schema with the `Layout` shape (or the part of it they need), not over the `FEATURE_COLUMNS` constant directly. `Encoder.FeatureColumnsLayout` proves the constant has that shape, and `Encoder.PreprocessInput` ties the served row to `Encode(raw)`. The one-hot, pass-through and fallback lemmas therefore apply to the served row with `schema := FEATURE_COLUMNS`.
