# ICU major-bleeding risk form: the input pipeline and the risk reading

This project models the deterministic part of `bleeding-risk-predictor.py`, a
Streamlit form that scores one ICU patient's risk of in-hospital major bleeding.
The pipeline runs in three steps:

1. **The form** (`Form`): the raw entries the widgets return. Each "No"/"Yes"
   and "Male"/"Female" selectbox becomes a closed enumeration. The min/max bounds
   of the number inputs become the predicate `WithinWidgetBounds`. Two flags are
   derived from laboratory and vital-sign values:
   - `coagulation_dysfunction`: PTT > 40 or PT > 14;
   - `respiratory_failure`: respiratory rate > 24 or systolic pressure < 90.
2. **The record** (`Record`): the 28-entry dictionary handed to pandas. Its keys
   form the enumeration `Feature`. `Name` gives each key's column name and
   `Entry` the value stored under it. `BuildRecord` is the dictionary keyed by
   name. Yes/No selections encode to 1/0 and "Female" to 1. Numbers pass through
   unchanged. `acute_coronary_syndrome` and `vasopressors_inotropic_agents` are
   always 0.
3. **The frame** (`Projection`, `Assembly`): `pd.DataFrame([data],
   columns=feature_names)`. The frame has exactly the schema's columns in the
   schema's order. A schema name the record lacks gives a missing cell (NaN). A
   record key the schema does not name is dropped.

After the classifier runs, `Risk` reads its probability two ways:
- **Label**: "High Risk" when the probability is at least the threshold 0.5,
  otherwise "Low Risk".
- **Band**: High above 0.7, Moderate above 0.3 up to and including 0.7, and Low
  at 0.3 or below.

Three readings of the code shape the model:
- `ptt_max` and `pt_max` are integers. Their `number_input` widgets
  (lines 41-42) take integer `min_value`, `max_value` and `value`, so Streamlit
  returns `int`. Only `albumin_max` is a real.
- Line 107 never compares `feature_names` with the record's keys. pandas fills a
  schema name the record lacks with NaN and drops a key the schema does not
  name, and `Projection.Project` models exactly that.
- The threshold (line 24) and the two band cut-offs (lines 148 and 156) are
  literal constants in the script.

## Model

| member | source | states |
|---|---|---|
| Form.EncodeYesNo | bleeding-risk-predictor.py:81-104 | a Yes/No selection encodes to 1 exactly when it is "Yes", otherwise 0 |
| Form.EncodeGender | bleeding-risk-predictor.py:90 | gender encodes to 1 exactly when it is "Female", otherwise 0 |
| Form.DeriveCoagulationDysfunction | bleeding-risk-predictor.py:72 | the flag is 1 iff ptt_max > 40 or pt_max > 14, otherwise 0 |
| Form.DeriveRespiratoryFailure | bleeding-risk-predictor.py:73 | the flag is 1 iff respiratoryrate > 24 or nibp_systolic < 90, otherwise 0 |
| Form.DerivedFlagBoundaries | bleeding-risk-predictor.py:72-73 | the comparisons are strict: (40, 14) and (24, 90) raise no flag, one step past either value does |
| Form.DerivedFlagsMonotone | bleeding-risk-predictor.py:72-73 | worse values (longer PTT/PT, faster breathing, lower systolic pressure) never clear a flag |
| Record.FeatureNamedName | bleeding-risk-predictor.py:76-105 | decoding a feature's column name gives back that feature |
| Record.NameInjective | bleeding-risk-predictor.py:76-105 | the 28 dictionary keys are distinct names |
| Record.AllFeaturesComplete | bleeding-risk-predictor.py:76-105 | AllFeatures lists every feature |
| Record.DictionaryAt | bleeding-risk-predictor.py:76-105 | the dictionary literal holds each feature's entry under that feature's column name |
| Record.BuildRecord | bleeding-risk-predictor.py:76-105 | every feature's column name is a key holding that feature's entry, and every key is some feature's column name |
| Record.YesNoEncoding | bleeding-risk-predictor.py:81-104 | each of the 12 Yes/No entries is 1 iff "Yes" was selected and 0 iff "No" was |
| Record.GenderEncoding | bleeding-risk-predictor.py:90 | the gender entry is 1 iff "Female" and 0 iff "Male" |
| Record.DerivedEntries | bleeding-risk-predictor.py:72-102 | the two derived entries follow the strict PTT/PT and rate/pressure rules, both directions |
| Record.HardWiredEntries | bleeding-risk-predictor.py:101-103 | acute_coronary_syndrome and vasopressors_inotropic_agents are 0 for every input |
| Record.BinaryEntries | bleeding-risk-predictor.py:72-104 | every encoded, derived and hard-wired entry is 0 or 1 |
| Record.EntryWithinDomain | bleeding-risk-predictor.py:33-48 | within the widget bounds, every entry lies in its declared domain (the widget range, or [0, 1]) |
| Record.CollectedEntryFaithful | bleeding-risk-predictor.py:77-104 | a directly collected entry is equal for two forms iff their inputs for it are equal: nothing is lost |
| Record.Locality | bleeding-risk-predictor.py:72-105 | an entry depends only on the raw inputs it reads |
| Record.ChangeOneInput | bleeding-risk-predictor.py:72-105 | changing one raw input leaves every entry that does not read it unchanged |
| Record.DefaultFormFlags | bleeding-risk-predictor.py:33-73 | the default form is within the bounds and raises neither derived flag |
| Record.RaisedPttChangesTwoEntries | bleeding-risk-predictor.py:41-105 | raising ptt_max from 35 to 45 on the default form changes exactly ptt_max and coagulation_dysfunction, the latter 0 to 1 |
| Record.TachypneaAndHypotensionRaiseFlag | bleeding-risk-predictor.py:73 | respiratoryrate 30 with nibp_systolic 85 gives respiratory_failure 1 |
| Projection.Cell | bleeding-risk-predictor.py:107 | a cell is present iff the record has the column's name, and then holds the record's value |
| Projection.Project | bleeding-risk-predictor.py:107 | the frame's columns are the schema; its row has one cell per schema name, position i holding the record's value for schema[i] or missing |
| Projection.ProjectIgnoresOtherKeys | bleeding-risk-predictor.py:107 | record keys outside the schema do not affect the frame |
| Projection.ProjectAppend | bleeding-risk-predictor.py:107 | the row for a concatenated schema is the concatenation of the rows |
| Projection.ProjectFollowsSchemaOrder | bleeding-risk-predictor.py:107 | reordering the schema reorders the row the same way |
| Projection.ProjectComplete | bleeding-risk-predictor.py:107 | when every schema name is a record key, no cell is missing |
| Assembly.Assemble | bleeding-risk-predictor.py:76-107 | the assembled frame has exactly the schema's columns and one cell per column |
| Assembly.AssembledCell | bleeding-risk-predictor.py:76-107 | a column that names a feature holds that feature's entry |
| Assembly.AssembledMissing | bleeding-risk-predictor.py:107 | a column that names no feature is missing (NaN) |
| Assembly.AssembledComplete | bleeding-risk-predictor.py:107 | a schema made only of the 28 names gives a frame with no missing cell |
| Assembly.RaisedPttColumn | bleeding-risk-predictor.py:72-107 | under any schema, a column changes when ptt_max goes from 35 to 45 iff it is ptt_max or coagulation_dysfunction |
| Assembly.RaisedPttChangesTwoColumns | bleeding-risk-predictor.py:72-107 | the same for every column of the frame at once |
| Risk.Predict | bleeding-risk-predictor.py:123 | the label is "High Risk" iff proba >= THRESHOLD (0.5) |
| Risk.RiskBand | bleeding-risk-predictor.py:148-168 | High iff proba > 0.7, Moderate iff 0.3 < proba <= 0.7, Low iff proba <= 0.3: exactly one band each |
| Risk.BoundaryCases | bleeding-risk-predictor.py:24-168 | proba 0.5 is "High Risk", 0.7 is Moderate, 0.3 is Low |
| Risk.BandAgreesWithLabel | bleeding-risk-predictor.py:123-168 | the High band implies "High Risk" and the Low band implies "Low Risk" |
| Risk.Monotone | bleeding-risk-predictor.py:123-168 | a higher probability never gives a lower label or band |

## Left out

- Streamlit widgets, layout, metrics, banners and the sidebar (bleeding-risk-predictor.py:9, 28-69, 111-194): these are presentation. Only the widget bounds and defaults are kept, as `WithinWidgetBounds` and `Defaults`.
- Loading the model bundle with `joblib.load` under `@st.cache_resource` (lines 12-18): this is file I/O and framework caching. `feature_names` is a `seq<string>` parameter.
- `model.predict_proba` (lines 122, 147): this is an opaque XGBoost call. The probability is a `real` parameter of `Risk`. The second call at line 147 recomputes the same value, so the model uses one probability for both the label and the band.
- The SHAP explainer, `force_plot` and the HTML embedding (lines 21, 133-143): these are foreign library calls on floating point.
- Formatting the probability as a percentage (line 131): this is float-to-string formatting.
- The `except Exception` error banner (lines 170-171): it only catches failures of the library calls above.
- Numeric types: every record value is a mathematical `real`. pandas' int/float column dtypes and floating-point rounding of `albumin_max` are not modelled. The label is the datatype `Risk.Label`, not the strings "High Risk" and "Low Risk".
