# Crop advisory engine — a Dafny model

This project models the decision and advisory engine of a crop-disease
advisory service. The engine accepts one of two inputs:

- an image classifier's output, a label such as `Tomato___Late_blight` plus
  a confidence string such as `"92.00%"`;
- a crop name plus humidity and temperature readings.

From either input it builds one result record. To do so it looks the crop and
disease up in a static crop → disease → treatment knowledge base. It grades a
severity, maps the severity to a risk score and a pesticide strategy, and
attaches a treatment, a decision reason and a list of reasoning clues.
The web handlers around the engine then normalise the result's confidence in
place and add an "expert connect" block.

Modules (one per source file, plus the Python built-ins the code leans on):

- `Wrappers` — `Option` and `Result`.
- `PyStrings` — Python's `str.find`/`in`, `str.replace` (left to right,
  non-overlapping) and an ASCII `str.title()`.
- `PyData` — JSON values as Python holds them, truthiness, `dict.get`, and
  `float()` over plain decimal text. It also has the `f"{x:.2f}"` formatting
  the classifiers use to write their confidences.
- `DecisionLogic` — `backend/decision_logic.py`: the severity rule and the
  pesticide strategy.
- `AiEngine` — `backend/ai_engine.py`, made of these parts:
  - the risk map, the default treatment and the label parser;
  - the image pathway and the environment pathway;
  - the JSON dict each pathway returns.

  The knowledge base is a parameter. Each crop's diseases are an ordered
  sequence of `(key, entry)` pairs, because the environment pathway depends on
  the JSON object's key order.
- `App` — the data steps of `backend/app.py`:
  - the crop-required guard;
  - confidence normalisation and the expert-connect flag, as methods of a
    `ResultDict` class that updates its `map` in place;
  - the offline-sync feature mapping.

  A Python exception that the handler turns into a 500 response is the
  `ServerError` response.

Behaviour of the code that the model keeps as it is:

- Every `%` in the confidence is removed before `float()`, wherever it
  stands in the text.
- The pesticide strategies are capitalised sentences, such as "Targeted
  chemical treatment required".
- When the confidence cannot be read, the image pathway grades Medium and
  adds nothing to its reasoning clues.
- The image pathway can raise. A truthy label that is not a string (a
  number, `true`) makes `"___" in label` raise `TypeError`. `AnalyzeWithImage`
  returns `Err(LabelTypeError)` in that case, and the handlers answer 500.
- The `/analyze` handler fetches weather data but never feeds it to the engine.
  The readings come from the form fields alone, each defaulting to 0.

## Model

| member | source | states |
|---|---|---|
| DecisionLogic.AssessSeverity | backend/decision_logic.py:1-6 | High exactly when humidity > 75 and temperature > 30; Medium exactly when humidity > 60 and not High; Low exactly when humidity ≤ 60 |
| DecisionLogic.AssessSeverityMonotonic | backend/decision_logic.py:1-6 | raising humidity or temperature never lowers the severity rank (Low < Medium < High) |
| DecisionLogic.AssessSeverityBoundaries | backend/decision_logic.py:2-6 | thresholds are strict: (75, 31) and (80, 30) are Medium, (60, 45) is Low |
| DecisionLogic.PesticideOptimization | backend/decision_logic.py:9-14 | "High" → targeted chemical, "Medium" → limited chemical, every other string (Low, unrecognised) → preventive only; never empty |
| DecisionLogic.StrategyIdentifiesSeverity | backend/decision_logic.py:9-14 | distinct severities get distinct strategies |
| AiEngine.RiskScore | backend/ai_engine.py:8-12 | Low 0.2, Medium 0.5, High 0.8, any other string 0.5; always within [0, 1] |
| AiEngine.RiskFollowsSeverity | backend/ai_engine.py:8-12 | one severity ranks strictly below another exactly when its risk is strictly lower, and at or below exactly when its risk is at or below |
| AiEngine.Lookup | backend/ai_engine.py:53-54 | a disease table lookup finds an entry exactly when the key is present, and returns that key's entry |
| AiEngine.NonHealthyKeys | backend/ai_engine.py:115 | the list comprehension keeps every key other than "Healthy", never keeps "Healthy", and is no longer than the table |
| AiEngine.NonHealthyKeysAppend | backend/ai_engine.py:115 | the comprehension over two tables joined is the two comprehensions joined |
| AiEngine.NonHealthyKeyKept | backend/ai_engine.py:115 | a key other than "Healthy" at table position i is kept, at the index given by the number of such keys before i |
| AiEngine.NonHealthyKeyPosition | backend/ai_engine.py:115 | the k-th non-Healthy key sits at a table position whose prefix holds exactly k non-Healthy keys |
| AiEngine.NoNonHealthyKeys | backend/ai_engine.py:115 | an empty comprehension means every key is "Healthy" |
| AiEngine.ParseCropAndDisease | backend/ai_engine.py:21-28 | an empty label or one without "___" gives ("Unknown Crop", label unchanged); otherwise the crop and disease texts built from the halves |
| AiEngine.ParseSplitsAtFirstSeparator | backend/ai_engine.py:25-27 | the halves are the text before and after the first "___" |
| AiEngine.ParsedHalvesHaveNoUnderscore | backend/ai_engine.py:25-28 | neither parsed half contains `_` |
| AiEngine.ParseDegradedExamples | backend/ai_engine.py:22-23 | "" and "Healthy", which hold no "___", parse to ("Unknown Crop", the label) |
| AiEngine.ParseTomatoLateBlight | backend/ai_engine.py:25-28 | "Tomato___Late_blight" parses to ("Tomato", "Late Blight") |
| AiEngine.CherryCropNameKeepsTrailingSpace | backend/ai_engine.py:26 | the crop half "Cherry_(including_sour)" becomes "Cherry " — the qualifier is removed but the space before it survives |
| AiEngine.ParseLabel | backend/ai_engine.py:21-23 | the label raises TypeError exactly when it is truthy and not a string; a falsy label degrades to "Unknown Crop" |
| AiEngine.ImageSeverity | backend/ai_engine.py:45-49 | never Low; High exactly when the confidence is text whose `%`-stripped form parses to a number ≥ 85 |
| AiEngine.ClassifierConfidenceSeverity | backend/ai_engine.py:45-49 | a classifier confidence written as `NN.NN%` grades High exactly when it is at least 85.00 |
| AiEngine.AnalyzeWithImage | backend/ai_engine.py:34-77 | fails exactly when the label raises; otherwise severity is never Low, the risk is the risk map's value for the severity (so 0.5 or 0.8), the strategy is never the preventive one, the yield note is "Early detection improves yield and reduces losses", and the model source is "cnn" |
| AiEngine.ImageResultSpec | backend/ai_engine.py:35-77 | crop and disease are the parser's output; the confidence is copied unchanged; severity comes from the confidence, risk from the severity, the yield note is the image pathway's, and the model source is "cnn"; a KB match gives the entry's treatment, the matched reason and two clues; a miss gives the default treatment, the generic reason and a third "no exact match" clue |
| AiEngine.ImagePathwayAcceptsText | backend/ai_engine.py:35-38 | a missing label or any string label never makes the image pathway fail |
| AiEngine.SelectDisease | backend/ai_engine.py:117-122 | the chosen disease is "Healthy" or one of the catalogued ones; Low, an empty catalogue, or Medium with a single disease give "Healthy" |
| AiEngine.TreatmentFor | backend/ai_engine.py:124 | the treatment of the selected key's entry when that entry has one; the default treatment when no entry for the key has one |
| AiEngine.AnalyzeWithoutImage | backend/ai_engine.py:83-141 | severity follows the readings; an unknown crop gives disease "Unknown", the default treatment, the extra clue and the yield note "Preventive care reduces risk"; a known crop gives the rule-based reason, the selected key's treatment and the note "Early intervention improves yield"; confidence "RULE_BASED"; strategy and risk follow the severity |
| AiEngine.EnvironmentDiseaseSelection | backend/ai_engine.py:115-122 | High with a non-Healthy key picks the first such key in table order; Medium with two picks the second; otherwise "Healthy" |
| AiEngine.HasCataloguedDisease | backend/ai_engine.py:115-117 | a table with some non-Healthy key yields a non-empty comprehension |
| AiEngine.EveryResultCarriesAdvice | backend/ai_engine.py:34-141 | every result of either pathway carries a treatment and the pesticide strategy of its own severity |
| AiEngine.ToJson | backend/ai_engine.py:61-77 | the returned dict has exactly the fixed key set ("model_source" only when the record has a source) and carries status "SUCCESS" and the record's crop, disease, severity name, risk, confidence, mode, reason, clues in order, source, and the advisory's treatment, pesticide strategy and yield impact |
| App.ExpertConnect | backend/app.py:160-165 | the block has exactly the keys enabled, reason, whatsapp and helpline, with the given flag, the reason "Low AI confidence", the WhatsApp link for 919876543210 and the helpline +91-1800-123-456 |
| App.NormalizedConfidence | backend/app.py:149-154 | a numeric confidence becomes its float value; any other becomes 50.0 |
| App.ConfidenceType | backend/app.py:151-155 | a confidence type is recorded exactly when the raw confidence is not numeric, and then it is its text |
| App.ResultDict.NormalizeConfidence | backend/app.py:149-157 | sets "confidence" to the normalised value and "confidence_type" only for a non-numeric one; every other key is unchanged |
| App.ResultDict.AttachExpertConnect | backend/app.py:160-165 | adds "expert_connect", enabled exactly when the confidence is below 60, with the fixed reason, WhatsApp link and helpline; nothing else changes |
| App.ResultDict.MarkOffline | backend/app.py:248 | sets "offline_mode" to true and changes nothing else |
| App.NormalizeReport | backend/app.py:149-165 | the body is the engine's dict with the confidence normalised, "confidence_type" added only for a non-numeric confidence, and the expert-connect block attached; no other key is added or changed |
| App.FormNumber | backend/app.py:109-110 | a missing form field reads as 0.0; a present one is `float` of its text, which fails for text holding `%` |
| App.Readings | backend/app.py:109-110 | the readings exist exactly when both fields parse, and the engine's `.get` sees the parsed values |
| App.CropGiven | backend/app.py:134-135 | the crop is given exactly when the field is present and truthy (not empty) |
| App.RunEngine | backend/app.py:107-144 | unparsable readings are a server error; with an image, an unreadable upload is a server error and otherwise the image pathway's record or its failure; without one, a missing crop is "Crop required" and otherwise the environment pathway's record |
| App.Analyze | backend/app.py:103-171 | the engine step's 500 and 400 answers; a report only when the voice module returned a path, so a failed voice summary always ends in a server error; a report's body is the normalised engine record plus "voice_summary" = host URL + path |
| App.VoiceSummary | backend/app.py:170-171 | null exactly when the voice module returned None; otherwise the host URL followed by the path |
| App.AnalyzeCorrected | backend/app.py:103-171 | as `Analyze`, but a report is returned exactly when the engine gives a record, whatever the voice module returned; its "voice_summary" is null when synthesis failed |
| App.TextConfidenceAlwaysEscalates | backend/app.py:149-165 | a text confidence normalises to 50.0, so the expert link is enabled |
| App.RuleBasedConfidenceIsText | backend/ai_engine.py:132 | environment results carry the text confidence "RULE_BASED" |
| App.OfflineFeatures | backend/app.py:242-245 | the features are exactly "disease" (the payload's crop_disease_label, or None) and "confidence" (the payload's, or "50%") |
| App.SyncOffline | backend/app.py:236-275 | a falsy body (null, empty dict, list or text, 0, false) is a 400; a truthy body that is not a dict is a 500 at `data.get`; a raising image pathway is a 500; after a successful analysis the report is returned exactly when `float` reads the engine's confidence and the table has every column the INSERT names, with offline_mode set and that float stored |
| App.OfflinePercentConfidenceUnstorable | backend/app.py:242-264 | for a text or missing label with a missing or `%` confidence the analysis succeeds but `float` of its confidence fails, so the sync answers 500 |
| App.CreatedTableRejectsSyncInsert | backend/app.py:50-63 | the table as created takes the analyse handler's INSERT but lacks the "offline_mode" column the sync's INSERT names |
| App.CorrectedReportColumns | backend/app.py:254-258 | the created columns plus "offline_mode", which accept both handlers' INSERTs |
| App.SyncOfflineCorrected | backend/app.py:236-271 | as `SyncOffline` for falsy and non-dict bodies; for a dict it stores the normalised confidence, so the report is returned exactly when the analysis succeeds and the table has the INSERT's columns |
| App.CorrectedSyncStoresText | backend/app.py:242-264 | with the correction, a text or missing label always analyses, the record keeps the payload's confidence ("50%" by default), every text confidence is stored as 50.0 and a numeric one as its float |
| PyStrings.FindFirst | backend/ai_engine.py:22-25 | the first position where the separator occurs, or none when it occurs nowhere |
| PyStrings.Replace | backend/ai_engine.py:26-27 | every character of the result comes from the input or from the replacement (the full meaning is in the next three rows) |
| PyStrings.Split | backend/ai_engine.py:26-27 | `s.split(pat)`: at least one piece, and no piece contains the pattern |
| PyStrings.SplitJoinRoundTrip | backend/ai_engine.py:26-27 | joining the pieces of a split with the pattern gives back the string |
| PyStrings.ReplaceAtFirst | backend/ai_engine.py:26-27 | `replace` keeps the text before the first occurrence, writes the replacement there and carries on after the occurrence |
| PyStrings.ReplaceIsJoinOfSplit | backend/ai_engine.py:26-27 | `s.replace(pat, rep)` equals `rep.join(s.split(pat))` |
| PyStrings.ReplaceAbsent | backend/ai_engine.py:26 | replacing an absent pattern leaves the text unchanged |
| PyStrings.ReplaceCharPointwise | backend/ai_engine.py:26-27 | replacing one character by another keeps the length and maps each position |
| PyStrings.RemoveCharGone | backend/ai_engine.py:46 | removing a character leaves no occurrence of it |
| PyStrings.TitleFrom | backend/ai_engine.py:26-27 | title-casing keeps the length; a letter is uppercased when it starts a word and lowercased otherwise; other characters are kept |
| PyStrings.TitleKeepsNonLetter | backend/ai_engine.py:26-27 | a non-letter occurs in the title-cased text exactly when it occurs in the input |
| PyStrings.TitleIdempotent | backend/ai_engine.py:26-27 | title-casing twice is title-casing once |
| PyData.ToFloat | backend/app.py:264 | `float` of None fails, of a number succeeds (an int or float as itself, true as 1.0, false as 0.0), of text is the decimal parse, and fails for text holding `%` |
| PyData.ParseFloatText | backend/ai_engine.py:46 | text that `float` accepts holds only digits, a point and a sign |
| PyData.PercentIsNotFloat | backend/app.py:264 | text containing `%` is rejected by `float` |
| PyData.FixedTwoRoundTrip | backend/cnn_model.py:27-31 | `float` reads back exactly the number the classifier wrote with `:.2f` |

## Left out

- Loading the knowledge base from `disease_knowledge_base.json` (backend/ai_engine.py:5-6). The knowledge base is a parameter instead. Its well-formedness is a precondition: keys are distinct, as in any JSON object, and every entry has a treatment.
- `PyData.ParseFloatText`: covers Python `float()` only over an optional sign, digits and an optional point. Whitespace, exponents, `inf`, `nan` and digit underscores are not modelled.
- Floating point: humidity, temperature, confidences and risk scores are exact reals. Binary rounding is not modelled.
- `PyStrings.TitleFrom`: ASCII only. Non-ASCII letters are treated as non-letters and left unchanged.
- List or object values as request fields or classifier features. Only JSON scalars are modelled there.
- The classifiers themselves (backend/cnn_model.py, backend/edge_inference.py), image preprocessing, training and TFLite conversion. The model takes their output as a label plus a confidence; only the `NN.NN%` format is used, in `PyData.FixedTwoRoundTrip`.
- Flask routing, HTTP status codes and the text of error messages. A 500 response is `ServerError` without its exception text.
- File uploads, uuid report ids, the weather lookup, Grad-CAM, speech synthesis, the feedback file and backend/offline_sync.py. These are I/O. Whether the upload can be read as an image and what the voice module returns are parameters of the analyse handler.
- SQLite: an INSERT is modelled only by the value it stores and by whether the table has every column it names. Every other database failure (a full disk, a locked file, a duplicate report id) is assumed not to happen, and the analyse handler's INSERT is not modelled beyond its column list.
- App.Analyze: the body leaves out "weather_data", "explainability_image" and "report_id" (backend/app.py:167, 174-183), which come from the weather lookup, Grad-CAM and uuid. Grad-CAM failures are caught by the handler (backend/app.py:125-128) and do not change the answer.
- App.SyncOffline: `request.json` is taken to give a JSON value; a request whose body is not JSON at all is not modelled.
- App.SyncOffline: the body leaves out "weather_data" and "report_id" (backend/app.py:249-252), which come from the weather lookup and uuid.
- PyStrings.Replace: its own contract only says where the characters of the result come from. Its meaning is stated by `ReplaceAtFirst` and `ReplaceIsJoinOfSplit`.
- The frontend (frontend/streamlit_app.py), which is presentation.
- Key order of the JSON dicts the engine returns. Dicts are maps; the only order modelled is the disease order within the knowledge base.

## Findings

| source | as written | input that shows it | evidently intended | confidence | as-written member | corrected member |
|---|---|---|---|---|---|---|
| backend/app.py:264 | the offline sync stores `float(result.get("confidence", 50))`, but the engine copies the payload's text confidence into the result | a payload `{"crop_disease_label": "Tomato___Late_blight"}`: the confidence defaults to "50%", `float("50%")` raises, and the handler returns 500 after a successful analysis; every edge-model confidence such as "92.00%" fails the same way | store a numeric confidence, normalised as the `/analyze` handler does, and return the report | high, not executed | App.OfflinePercentConfidenceUnstorable | App.SyncOfflineCorrected |
| backend/app.py:170-171 | the handler stores `request.host_url + voice_path`, but the voice module returns None whenever speech synthesis fails (backend/voice_summary.py:43-49) | an `/analyze` request with `language=xx`, a code gTTS does not support, or any request while the speech service is unreachable: the voice module catches the error and returns None, `str + None` raises TypeError, and the handler returns 500 after a successful analysis | return the report with no voice summary, as the voice module's own catch-all intends | high, not executed | App.Analyze | App.AnalyzeCorrected |
| backend/app.py:254-258 | the offline sync's INSERT names an `offline_mode` column, but the `CREATE TABLE IF NOT EXISTS crop_reports` at backend/app.py:50-63 has none | on a database this code creates, a payload `{"crop_disease_label": "Tomato___Late_blight", "confidence": 92.5}`: `float` succeeds, the INSERT raises `sqlite3.OperationalError` (no such column), and the handler returns 500 | the table has an `offline_mode` column, so synced reports are stored | high, not executed | App.CreatedTableRejectsSyncInsert | App.CorrectedReportColumns |
