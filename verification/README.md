# Fertilizer recommendation rule engine, in Dafny

This project models the rule engine of the Smart Fertilizer Recommendation web
app, `get_recommendation` in `webapp.py`. Its inputs are nitrogen (N),
phosphorous (P), potassium (K), soil moisture (M), a soil type and a crop type.
It returns a fertilizer name and a reason text, in four stages:

1. **Moisture override.** M below 20 selects `Moisture_Low` and M above 80
   selects `Moisture_High`.
2. **Nutrient classification.** Otherwise a chain of `<=` tests picks
   `N_Low`, `P_Low` or `K_Low`, then `High_NPK`, then `NPK_Balanced`.
3. **Table lookup.** The key selects a (fertilizer, reason) template from a
   fixed table of seven.
4. **Adjustments.** The crop adjustment runs first, then the soil
   adjustment. When its rule fires, each appends one sentence to the reason
   and may replace the fertilizer.

Files:

- `domain.dfy` (module `Domain`): the soil and crop enumerations, the crop's
  name as interpolated into text, and a reading `(n, p, k, m)`.
- `strings.dfy` (module `Strings`): substring occurrence, the meaning of
  Python's `t in s`, and joining a sequence of strings.
- `rule_table.dfy` (module `RuleTable`): the keys and thresholds, the
  fertilizers, and the sentences a reason is built from, each with its
  exact text. Also the table of templates.
- `table_text.dfy` (module `TableText`): facts about the table's strings.
  Every text is non-empty, different fertilizers have different names, and
  different sentences have different texts.
- `engine.dfy` (module `Engine`): key selection, the two adjustments,
  `Recommend`, and `GetRecommendation`, the string-level result.
- `properties.dfy` (module `EngineProperties`): lemmas relating several
  calls or stating named properties of the engine.

The engine works on identifiers, not strings:

- A fertilizer is a `Fertilizer` value. `FertilizerName` gives the exact
  string the source returns.
- A reason is the sequence of `Sentence`s appended to it. `ReasonText`
  concatenates their exact texts.
- The crop notes are built from the crop's name, as the source's f-strings
  are.

`GetRecommendation` returns the same pair of strings as `get_recommendation`.
Key selection has a partner: the declarative predicate `Chosen` states which
key must be chosen, independently of the order of the tests.

The numeric inputs are `real`. The source only compares them, never
computes with them, so integers and finite floats behave as the reals they
denote. NaN is the exception; see "Left out". The engine does no bounds
checking, so the model has no precondition on the numbers.

## Model

| member | source | states |
|---|---|---|
| Engine.SelectKey | webapp.py:43-62 | The chosen key follows the selection rules. Moisture below 20 or above 80 decides first. Otherwise a nutrient at or below 30 that is a minimum of the three is named, with ties going to N, then P, then K. Otherwise all three at or above 60 gives High_NPK, and anything else gives balanced. |
| EngineProperties.SelectKeyUnique | webapp.py:43-62 | Selection is total and unique: a key satisfies the selection rules exactly when it is the one the engine picks. |
| EngineProperties.MoisturePrecedence | webapp.py:44-47 | Moisture outside [20, 80] picks Moisture_Low or Moisture_High. The output is then that template unchanged, whatever the nutrients, soil and crop. |
| EngineProperties.LowNutrientSoundComplete | webapp.py:50-58 | Inside the moisture band, a low-nutrient key is chosen exactly when the smallest nutrient is at or below 30. The nutrient it names is at or below 30 and a minimum of the three. |
| EngineProperties.TieBreakOrder | webapp.py:53-58 | Among low minimal nutrients, N wins any tie, and P wins over K. |
| EngineProperties.HighVersusBalanced | webapp.py:51-62 | Inside the band with no nutrient at or below 30, the key is High_NPK exactly when all three reach 60, and NPK_Balanced otherwise. |
| RuleTable.Template | webapp.py:30-38 | Each key's template reason is that key's own finding sentence. No template names one of the three substitute fertilizers. |
| Domain.CropName | webapp.py:70-73 | The crop's internal identifier, as the f-strings interpolate it; never empty. |
| Domain.CropNamesDistinct | webapp.py:70-73 | Different crops have different names, so a crop note names exactly one crop. |
| RuleTable.FertilizerName | webapp.py:31-80 | The exact fertilizer strings: the seven template fertilizers (lines 31-37) and the three substitutes (lines 69, 72, 80). Each is non-empty. |
| RuleTable.SentenceText | webapp.py:31-79 | The exact text of each sentence: the seven template reasons (held by its helper `RuleTable.FindingText`, lines 31-37), the urea and SOP notes, and the clay caution and sand warning. A crop note carries the crop's name right after its fixed head. |
| RuleTable.ReasonText | webapp.py:65-79 | The reason string is its sentences' texts concatenated in order. The empty reason is the empty string, and a single sentence renders as its own text. |
| EngineProperties.TemplateFertilizersDistinct | webapp.py:30-38 | The seven templates name seven different fertilizers. |
| RuleTable.ReasonTextPrefix | webapp.py:65-79 | Extending a reason with further sentences extends its text. |
| Engine.CropAdjust | webapp.py:67-73 | The crop rule fires only for N_Low with rice or maize and for K_Low with vegetables or cotton; otherwise nothing changes. N_Low gets high-grade urea and the urea note naming the crop. K_Low gets SOP and the SOP note naming the crop. In both cases exactly one sentence is appended to the unchanged reason. |
| Engine.SoilAdjust | webapp.py:75-80 | The soil rule fires only for P_Low on clay and N_Low on sand; otherwise nothing changes. P_Low on clay keeps its fertilizer and appends the clay caution. N_Low on sand sets slow-release N and appends the sand warning. In both cases exactly one sentence is appended. |
| Engine.Recommend | webapp.py:64-82 | The reason starts with the chosen key's finding. Keys other than the three low-nutrient ones return their template exactly. N_Low: sand gives slow-release N; otherwise rice and maize give urea, and every other crop gives the template unchanged. Its reason is the template, then the urea note for rice and maize, then the sand warning on sand. P_Low keeps its fertilizer and gains only the clay caution on clay. K_Low gets SOP exactly for vegetables and cotton, and its reason is the template plus the SOP note for those crops. |
| EngineProperties.SandyOverridesCrop | webapp.py:67-80 | N_Low on sandy soil ends with slow-release N and the sand warning for every crop. This holds even for rice and maize, where the crop stage had chosen high-grade urea. |
| EngineProperties.AdjustmentOrderMatters | webapp.py:67-80 | Running the soil rule before the crop rule would give high-grade urea for N_Low, maize and sand. The engine's order gives slow-release N. |
| EngineProperties.IrrelevantInputs | webapp.py:64-82 | For P_Low the crop does not affect the output. For K_Low the soil does not. For every key outside the three low-nutrient ones, neither does. |
| EngineProperties.ReasonSentenceCount | webapp.py:64-82 | The reason has one sentence for the template, plus one per adjustment that fired. |
| RuleTable.ReasonTextAppend | webapp.py:65-79 | The text of appended sentences is the concatenation of their texts. This is the `+=` on the reason string. |
| Engine.ReasonAppendOnly | webapp.py:65-79 | The returned reason text begins with the chosen template's reason text; text is only ever appended. |
| Engine.NoteNamesCrop | webapp.py:70-73 | A reason containing a crop note contains the crop's name as a substring. |
| Engine.ReasonNamesCrop | webapp.py:68-73 | When the crop adjustment fires, the returned reason text contains the crop's name. |
| Engine.GetRecommendation | webapp.py:42-82 | The string-level result. Both strings are non-empty. The reason text begins with the template reason, and it names the crop whenever the crop rule fired. |
| TableText.FertilizerNamesDistinct | webapp.py:31-80 | Two fertilizers have the same name exactly when they are the same fertilizer, across the seven template fertilizers and the three substitutes, so the returned name identifies the fertilizer. |
| TableText.SentenceHasLength | webapp.py:31-79 | Every sentence has a fixed length, and a crop note is as long as its head, the crop's name and a period. No sentence is empty. |
| TableText.SentenceTextsDistinct | webapp.py:31-79 | Two sentences have the same text exactly when they are the same sentence. This covers the seven template reasons, both crop notes for every crop, and the two soil notes. |
| EngineProperties.WorkedKeys | webapp.py:44-62 | Fixed cases of key selection. N=P=K=20 with M=50 gives N_Low; all 50 gives balanced; all 70 gives High_NPK. M=10 gives Moisture_Low even with no nutrients. |
| EngineProperties.WorkedCropOverride | webapp.py:68-70 | N=10, P=K=50, M=50 for rice gives high-grade urea, and the reason text contains "Rice". |
| EngineProperties.WorkedSoilOverrides | webapp.py:68-80 | The same reading for maize on sand gives slow-release N. P_Low on clay keeps the DAP/SSP fertilizer and appends the clay caution. |

## Left out

- The web interface is not modelled: page setup and styles, widgets and the button, and the caching of the last result (webapp.py:1-27, 165-236, 253-268). It has no decision logic.
- The English/Kannada label tables and the display-label mapping for soil and crop options are not modelled (webapp.py:91-163). The engine works on internal identifiers.
- The Kannada rendering of the reason, chosen by keyword search in the reason text, is not modelled (webapp.py:237-252). It is a display layer over the engine's output.
- The decorative model-accuracy figures and their rendering are not modelled (webapp.py:84-89, 271-285).
- Temperature and humidity are collected by the form but never passed to the engine, so they are not parameters here.
- NaN readings are not modelled. Python compares NaN false against every number, so N = NaN with P = 10 would skip every `<=` test and yield NPK_Balanced, and M = NaN would skip both moisture overrides. The caller's check at webapp.py:216 does not reject NaN. `real` has no such value; for finite values and infinities the model's comparisons agree with Python's.
- The caller's rejection of negative or missing values (webapp.py:216) is not modelled. The engine itself accepts any numbers.
- Soil or crop strings outside the enumerations cannot be expressed, because both are closed datatypes.
- Determinism needs no lemma: every member is a function of its inputs.
