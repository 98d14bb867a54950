/**
 * The request-side steps of the web layer around the advisory engine: the
 * crop guard of the no-image request, the in-place normalisation of the
 * engine's confidence, the expert-connect flag, and the offline-sync
 * endpoint's mapping of its payload onto the image pathway.
 */
module App {
  import opened Wrappers
  import opened PyData
  import opened AiEngine

  const CropRequired := "Crop required"
  const NoData := "No data"
  const NeutralConfidence := 50.0
  const ExpertThreshold := 60.0
  const ExpertWhatsapp := "919876543210"
  const ExpertHelpline := "+91-1800-123-456"
  const OfflineDefaultConfidence := "50%"

  /** The number the report keeps as its confidence: `float(raw)` for a number, 50.0 for anything else. */
  function NormalizedConfidence(raw: Scalar): (c: real)
    ensures IsNumeric(raw) ==> ToFloat(raw) == Some(c)
    ensures !IsNumeric(raw) ==> c == NeutralConfidence
  {
    if IsNumeric(raw) then ToFloat(raw).value else NeutralConfidence
  }

  /** `str(raw)`, kept as "confidence_type" when the confidence is not a number. */
  function ConfidenceType(raw: Scalar): (t: Option<string>)
    ensures t.Some? <==> !IsNumeric(raw)
    ensures raw.Str? ==> t == Some(raw.s)
    ensures raw.Null? ==> t == Some("None")
  {
    if IsNumeric(raw) then None
    else if raw.Str? then Some(raw.s)
    else Some("None")
  }

  /** The "expert_connect" block: whether to offer an expert, and the fixed contact details. */
  function ExpertConnect(enabled: bool): (block: Value)
    ensures block.Object? && block.fields.Keys == {"enabled", "reason", "whatsapp", "helpline"}
    ensures block.fields["enabled"] == Bool(enabled)
    ensures block.fields["reason"] == Str("Low AI confidence")
    ensures block.fields["whatsapp"] == Str("https://wa.me/919876543210")
    ensures block.fields["helpline"] == Str("+91-1800-123-456")
  {
    assert "https://wa.me/" + ExpertWhatsapp == "https://wa.me/919876543210";
    Object(map[
      "enabled" := Bool(enabled),
      "reason" := Str("Low AI confidence"),
      "whatsapp" := Str("https://wa.me/" + ExpertWhatsapp),
      "helpline" := Str(ExpertHelpline)])
  }

  /** The result dict the request handlers update in place. */
  class ResultDict {
    var fields: map<string, Value>

    constructor (initial: map<string, Value>)
      ensures fields == initial
    {
      fields := initial;
    }

    /** `result.get("confidence", 0)`. */
    function RawConfidence(): Value
      reads this
    {
      Get(fields, "confidence", Int(0))
    }

    /**
     * Replaces the confidence by its number and, when it was not a number,
     * records what it was under "confidence_type"; every other key keeps
     * its value.
     */
    method NormalizeConfidence() returns (value: real)
      requires IsScalar(RawConfidence())
      modifies this
      ensures value == NormalizedConfidence(old(RawConfidence()))
      ensures fields == (if IsNumeric(old(RawConfidence())) then old(fields)
                         else old(fields)["confidence_type" := Str(ConfidenceType(old(RawConfidence())).value)])
                        ["confidence" := Float(value)]
      ensures forall k :: k in old(fields) && k != "confidence" && k != "confidence_type" ==> k in fields && fields[k] == old(fields)[k]
    {
      var raw: Scalar := RawConfidence();
      if IsNumeric(raw) {
        value := ToFloat(raw).value;
      } else {
        value := NeutralConfidence;
        fields := fields["confidence_type" := Str(ConfidenceType(raw).value)];
      }
      fields := fields["confidence" := Float(value)];
    }

    /** Offers an expert exactly when the normalised confidence is below 60. */
    method AttachExpertConnect(value: real)
      modifies this
      ensures fields == old(fields)["expert_connect" := ExpertConnect(value < ExpertThreshold)]
    {
      fields := fields["expert_connect" := ExpertConnect(value < ExpertThreshold)];
    }

    /** Marks a record that came in through the offline sync. */
    method MarkOffline()
      modifies this
      ensures fields == old(fields)["offline_mode" := Bool(true)]
    {
      fields := fields["offline_mode" := Bool(true)];
    }
  }

  /**
   * `body` is the engine's record after normalisation: the confidence is a
   * number, a non-numeric original is kept under "confidence_type", the
   * expert flag follows the 60 threshold, and every other key is the
   * engine's own.
   */
  predicate NormalizedFrom(engine: map<string, Value>, body: map<string, Value>)
  {
    var raw := Get(engine, "confidence", Int(0));
    && IsScalar(raw)
    && var value := NormalizedConfidence(raw);
    && "confidence" in body && body["confidence"] == Float(value)
    && (!IsNumeric(raw) ==> "confidence_type" in body && body["confidence_type"] == Str(ConfidenceType(raw).value))
    && "expert_connect" in body && body["expert_connect"] == ExpertConnect(value < ExpertThreshold)
    && (forall k :: k in engine && k != "confidence" && k != "expert_connect" && (k != "confidence_type" || IsNumeric(raw))
                    ==> k in body && body[k] == engine[k])
    && (forall k :: k in body ==> k in engine || k == "confidence" || (k == "confidence_type" && !IsNumeric(raw)) || k == "expert_connect")
  }

  /** The dict the two in-place steps leave behind is the engine's record normalised. */
  lemma NormalizedAfterSteps(engine: map<string, Value>, body: map<string, Value>)
    requires IsScalar(Get(engine, "confidence", Int(0)))
    requires var raw := Get(engine, "confidence", Int(0));
             var value := NormalizedConfidence(raw);
             body == ((if IsNumeric(raw) then engine else engine["confidence_type" := Str(ConfidenceType(raw).value)])
                      ["confidence" := Float(value)])["expert_connect" := ExpertConnect(value < ExpertThreshold)]
    ensures NormalizedFrom(engine, body)
  {
  }

  /**
   * The confidence-normalisation and expert-connect steps of the analyse
   * handler, run in place on a dict holding the engine's record.
   */
  method NormalizeReport(engine: AnalysisResult) returns (body: map<string, Value>)
    ensures NormalizedFrom(ToJson(engine), body)
  {
    var initial := ToJson(engine);
    var result := new ResultDict(initial);
    var value := result.NormalizeConfidence();
    result.AttachExpertConnect(value);
    body := result.fields;
    NormalizedAfterSteps(initial, body);
  }

  /** What the handlers answer: the report, a 400 with its error text, or a 500. */
  datatype Response = Report(body: map<string, Value>) | BadRequest(error: string) | ServerError

  /** The form fields of an analyse request that the engine uses. */
  datatype AnalyzeForm = AnalyzeForm(crop: Option<string>, humidity: Option<string>, temperature: Option<string>)

  /** `float(request.form.get(key, 0))`, None where `float` raises. */
  function FormNumber(field: Option<string>): (r: Option<real>)
    ensures field.None? ==> r == Some(0.0)
    ensures field.Some? ==> r == ParseFloatText(field.value)
    ensures field.Some? && '%' in field.value ==> r.None?
  {
    match field
    case None => Some(0.0)
    case Some(text) => ParseFloatText(text)
  }

  /** The environment mapping built from the form, when both readings parse. */
  function Readings(form: AnalyzeForm): (env: Option<map<string, real>>)
    ensures env.Some? <==> FormNumber(form.humidity).Some? && FormNumber(form.temperature).Some?
    ensures env.Some? ==> Reading(env.value, "humidity") == FormNumber(form.humidity).value
                          && Reading(env.value, "temperature") == FormNumber(form.temperature).value
  {
    match (FormNumber(form.humidity), FormNumber(form.temperature))
    case (Some(h), Some(t)) => Some(map["humidity" := h, "temperature" := t])
    case _ => None
  }

  /** `request.form.get("crop")` is present and not empty. */
  function CropGiven(crop: Option<string>): (given: bool)
    ensures given <==> crop.Some? && Truthy(Str(crop.value))
  {
    crop.Some? && crop.value != ""
  }

  /** Where the analyse handler stands once the engine has run: its record, or the answer already given. */
  datatype EngineStep = Analysed(record: AnalysisResult) | Answered(resp: Response)

  /**
   * The analyse handler up to the engine's record: readings from the form,
   * then, when an image came with the request, the classifier's features
   * (None when the upload cannot be read as an image, where preprocessing
   * raises) and the image pathway; otherwise the crop guard and the
   * environment pathway.
   */
  method RunEngine(kb: KnowledgeBase, hasImage: bool, features: Option<map<string, Scalar>>, form: AnalyzeForm)
    returns (step: EngineStep)
    requires ValidKB(kb) && TreatmentsPresent(kb)
    ensures Readings(form).None? ==> step == Answered(ServerError)
    ensures Readings(form).Some? && hasImage && features.None? ==> step == Answered(ServerError)
    ensures Readings(form).Some? && hasImage && features.Some? ==>
              match AnalyzeWithImage(kb, features.value)
              case Ok(record) => step == Analysed(record)
              case Err(_) => step == Answered(ServerError)
    ensures Readings(form).Some? && !hasImage && !CropGiven(form.crop) ==> step == Answered(BadRequest(CropRequired))
    ensures Readings(form).Some? && !hasImage && CropGiven(form.crop) ==>
              step == Analysed(AnalyzeWithoutImage(kb, form.crop.value, Readings(form).value))
  {
    var environment := Readings(form);
    if environment.None? {
      return Answered(ServerError);
    }
    if hasImage {
      if features.None? {
        return Answered(ServerError);
      }
      var outcome := AnalyzeWithImage(kb, features.value);
      if outcome.Err? {
        return Answered(ServerError);
      }
      step := Analysed(outcome.value);
    } else {
      if !CropGiven(form.crop) {
        return Answered(BadRequest(CropRequired));
      }
      step := Analysed(AnalyzeWithoutImage(kb, form.crop.value, environment.value));
    }
  }

  /** `body` is the engine's record normalised, with `voice` under "voice_summary". */
  predicate VoicedFrom(engine: map<string, Value>, body: map<string, Value>, voice: Value)
  {
    "voice_summary" in body && body["voice_summary"] == voice
    && NormalizedFrom(engine, body - {"voice_summary"})
  }

  /** The engine's record has no voice summary of its own. */
  lemma NoVoiceInRecord(engine: AnalysisResult)
    ensures "voice_summary" !in ToJson(engine)
  {
    assert "voice_summary" !in ResultKeys;
  }

  /** Adding the voice summary to a normalised record leaves the rest of it as it was. */
  lemma VoiceAdded(engine: map<string, Value>, body: map<string, Value>, voice: Value)
    requires "voice_summary" !in engine && NormalizedFrom(engine, body)
    ensures VoicedFrom(engine, body["voice_summary" := voice], voice)
  {
    var voiced := body["voice_summary" := voice];
    assert "voice_summary" !in body;
    assert voiced - {"voice_summary"} == body by {
      assert forall k :: k in voiced - {"voice_summary"} <==> k in body;
    }
  }

  /**
   * The analyse handler as written: the engine's record is normalised, then
   * `request.host_url + voice_path` is stored as its voice summary. The
   * voice module returns None when speech synthesis fails, and adding None
   * to a string raises, so such a request ends in a server error.
   */
  method Analyze(kb: KnowledgeBase, hasImage: bool, features: Option<map<string, Scalar>>, form: AnalyzeForm,
                 hostUrl: string, voicePath: Option<string>)
    returns (resp: Response)
    requires ValidKB(kb) && TreatmentsPresent(kb)
    ensures Readings(form).None? ==> resp == ServerError
    ensures Readings(form).Some? && hasImage && features.None? ==> resp == ServerError
    ensures Readings(form).Some? && !hasImage && !CropGiven(form.crop) ==> resp == BadRequest(CropRequired)
    ensures Readings(form).Some? && !hasImage && CropGiven(form.crop) ==>
              (resp.Report? <==> voicePath.Some?)
              && (resp.Report? ==> VoicedFrom(ToJson(AnalyzeWithoutImage(kb, form.crop.value, Readings(form).value)),
                                              resp.body, Str(hostUrl + voicePath.value)))
    ensures Readings(form).Some? && hasImage && features.Some? ==>
              (resp.Report? <==> AnalyzeWithImage(kb, features.value).Ok? && voicePath.Some?)
              && (resp.Report? ==> VoicedFrom(ToJson(AnalyzeWithImage(kb, features.value).value),
                                              resp.body, Str(hostUrl + voicePath.value)))
    ensures resp.BadRequest? ==> !hasImage && !CropGiven(form.crop)
    ensures voicePath.None? ==> !resp.Report?
  {
    var step := RunEngine(kb, hasImage, features, form);
    if step.Answered? {
      return step.resp;
    }
    var body := NormalizeReport(step.record);
    if voicePath.None? {
      return ServerError;
    }
    NoVoiceInRecord(step.record);
    VoiceAdded(ToJson(step.record), body, Str(hostUrl + voicePath.value));
    resp := Report(body["voice_summary" := Str(hostUrl + voicePath.value)]);
  }

  /** The voice summary's URL, or None when the voice module gave no file. */
  function VoiceSummary(hostUrl: string, voicePath: Option<string>): (v: Value)
    ensures v.Null? <==> voicePath.None?
    ensures voicePath.Some? ==> v == Str(hostUrl + voicePath.value)
  {
    match voicePath
    case Some(path) => Str(hostUrl + path)
    case None => Null
  }

  /**
   * The analyse handler with a failed voice summary stored as None, so that
   * the report does not depend on speech synthesis: it is answered exactly
   * when the engine gives a record.
   */
  method AnalyzeCorrected(kb: KnowledgeBase, hasImage: bool, features: Option<map<string, Scalar>>, form: AnalyzeForm,
                          hostUrl: string, voicePath: Option<string>)
    returns (resp: Response)
    requires ValidKB(kb) && TreatmentsPresent(kb)
    ensures Readings(form).None? ==> resp == ServerError
    ensures Readings(form).Some? && hasImage && features.None? ==> resp == ServerError
    ensures Readings(form).Some? && !hasImage && !CropGiven(form.crop) ==> resp == BadRequest(CropRequired)
    ensures Readings(form).Some? && !hasImage && CropGiven(form.crop) ==>
              resp.Report? && VoicedFrom(ToJson(AnalyzeWithoutImage(kb, form.crop.value, Readings(form).value)),
                                         resp.body, VoiceSummary(hostUrl, voicePath))
    ensures Readings(form).Some? && hasImage && features.Some? ==>
              (resp.Report? <==> AnalyzeWithImage(kb, features.value).Ok?)
              && (resp.Report? ==> VoicedFrom(ToJson(AnalyzeWithImage(kb, features.value).value),
                                              resp.body, VoiceSummary(hostUrl, voicePath)))
    ensures resp.BadRequest? ==> !hasImage && !CropGiven(form.crop)
    ensures resp.Report? && voicePath.None? ==> resp.body["voice_summary"] == Null
  {
    var step := RunEngine(kb, hasImage, features, form);
    if step.Answered? {
      return step.resp;
    }
    var body := NormalizeReport(step.record);
    NoVoiceInRecord(step.record);
    VoiceAdded(ToJson(step.record), body, VoiceSummary(hostUrl, voicePath));
    resp := Report(body["voice_summary" := VoiceSummary(hostUrl, voicePath)]);
  }

  /**
   * Every report the engine produces from text confidences (the classifier's
   * "NN.NN%" and the rule-based marker) is normalised to 50.0, so the expert
   * offer is always made for them.
   */
  lemma TextConfidenceAlwaysEscalates(engine: map<string, Value>, body: map<string, Value>)
    requires NormalizedFrom(engine, body)
    requires Get(engine, "confidence", Int(0)).Str?
    ensures body["confidence"] == Float(NeutralConfidence)
    ensures body["expert_connect"] == ExpertConnect(true)
  {
  }

  /** The rule-based pathway always reports a text confidence. */
  lemma RuleBasedConfidenceIsText(kb: KnowledgeBase, cropType: string, environment: map<string, real>)
    requires ValidKB(kb)
    ensures Get(ToJson(AnalyzeWithoutImage(kb, cropType, environment)), "confidence", Int(0)) == Str(RuleBased)
  {
  }

  /** The features `sync_offline` hands to the image pathway. */
  function OfflineFeatures(data: map<string, Scalar>): (features: map<string, Scalar>)
    ensures features.Keys == {"disease", "confidence"}
    ensures features["disease"] == (if "crop_disease_label" in data then data["crop_disease_label"] else Null)
    ensures features["confidence"] == (if "confidence" in data then data["confidence"] else Str("50%"))
  {
    map[
      "disease" := Get(data, "crop_disease_label", Null),
      "confidence" := Get(data, "confidence", Str(OfflineDefaultConfidence))]
  }

  // ---------- the crop_reports table ----------

  /** The columns `crop_reports` is created with. */
  const ReportColumns: set<string> := {
    "id", "report_id", "crop", "disease", "severity", "confidence", "advisory",
    "expert_enabled", "voice_summary", "explainability_image", "created_at"}

  /** The columns the analyse handler's INSERT names. */
  const AnalyzeInsertColumns: set<string> := {
    "report_id", "crop", "disease", "severity", "confidence", "advisory",
    "expert_enabled", "voice_summary", "explainability_image"}

  /** A value `request.json` can hold other than a dict: null, a bool, a number, a string or a list. */
  type NonObject = v: Value | !v.Object? witness Null

  /** The sync request's JSON body: a dict of scalar fields, or any other JSON value. */
  datatype SyncBody = Fields(fields: map<string, Scalar>) | NotADict(value: NonObject)

  /** `not data` is false: the body is a non-empty dict or a truthy value of another kind. */
  predicate BodyGiven(data: SyncBody)
  {
    match data
    case Fields(fields) => fields != map[]
    case NotADict(value) => JsonTruthy(value)
  }

  /** The columns the offline sync's INSERT names. */
  const SyncInsertColumns: set<string> := {
    "report_id", "crop", "disease", "severity", "confidence", "advisory",
    "expert_enabled", "offline_mode"}

  /** SQLite runs an INSERT only when the table has every column it names. */
  predicate InsertAccepted(table: set<string>, insert: set<string>)
  {
    insert <= table
  }

  /**
   * The table as created takes the analyse handler's rows but not the
   * offline sync's: it has no "offline_mode" column.
   */
  lemma CreatedTableRejectsSyncInsert()
    ensures InsertAccepted(ReportColumns, AnalyzeInsertColumns)
    ensures "offline_mode" in SyncInsertColumns && "offline_mode" !in ReportColumns
    ensures !InsertAccepted(ReportColumns, SyncInsertColumns)
  {
  }

  /** The table with the column the offline sync writes. */
  function CorrectedReportColumns(): (table: set<string>)
    ensures ReportColumns < table
    ensures InsertAccepted(table, AnalyzeInsertColumns) && InsertAccepted(table, SyncInsertColumns)
  {
    ReportColumns + {"offline_mode"}
  }

  // ---------- offline sync ----------

  /**
   * The offline-sync handler as written: an empty payload is refused, one
   * that is not a dict raises at `data.get`, a dict goes through the image
   * pathway, the record is marked offline,
   * `float(result.get("confidence", 50))` is taken for the report row, which
   * raises for any confidence `float` cannot read, and the row is inserted
   * into a table with the given columns, which raises when one is missing.
   * `stored` is the confidence written to the table.
   */
  method SyncOffline(kb: KnowledgeBase, table: set<string>, data: SyncBody)
    returns (resp: Response, stored: Option<real>)
    requires ValidKB(kb) && TreatmentsPresent(kb)
    ensures !BodyGiven(data) ==> resp == BadRequest(NoData)
    ensures BodyGiven(data) && data.NotADict? ==> resp == ServerError
    ensures BodyGiven(data) && data.Fields? && AnalyzeWithImage(kb, OfflineFeatures(data.fields)).Err? ==> resp == ServerError
    ensures BodyGiven(data) && data.Fields? && AnalyzeWithImage(kb, OfflineFeatures(data.fields)).Ok? ==>
              var r := AnalyzeWithImage(kb, OfflineFeatures(data.fields)).value;
              && (resp.Report? <==> ToFloat(r.confidence).Some? && InsertAccepted(table, SyncInsertColumns))
              && (resp.Report? ==> stored == ToFloat(r.confidence) && resp.body == ToJson(r)["offline_mode" := Bool(true)])
    ensures resp.Report? <==> stored.Some?
  {
    if !BodyGiven(data) {
      return BadRequest(NoData), None;
    }
    if data.NotADict? {
      return ServerError, None;
    }
    var outcome := AnalyzeWithImage(kb, OfflineFeatures(data.fields));
    if outcome.Err? {
      return ServerError, None;
    }
    var result := new ResultDict(ToJson(outcome.value));
    result.MarkOffline();
    var raw: Scalar := Get(result.fields, "confidence", Int(50));
    var value := ToFloat(raw);
    if value.None? || !InsertAccepted(table, SyncInsertColumns) {
      return ServerError, None;
    }
    resp, stored := Report(result.fields), value;
  }

  /**
   * A payload without a confidence, or with the edge model's "NN.NN%" text,
   * gets through the image pathway but leaves a confidence `float` cannot
   * read, so the handler as written answers with a server error.
   */
  lemma OfflinePercentConfidenceUnstorable(kb: KnowledgeBase, data: map<string, Scalar>)
    requires ValidKB(kb) && TreatmentsPresent(kb)
    requires Get(data, "crop_disease_label", Null).Str? || Get(data, "crop_disease_label", Null).Null?
    requires "confidence" !in data || (data["confidence"].Str? && '%' in data["confidence"].s)
    ensures AnalyzeWithImage(kb, OfflineFeatures(data)).Ok?
    ensures ToFloat(AnalyzeWithImage(kb, OfflineFeatures(data)).value.confidence) == None
  {
    ImagePathwayAcceptsText(kb, OfflineFeatures(data));
    ImageResultSpec(kb, OfflineFeatures(data));
    var confidence := Get(OfflineFeatures(data), "confidence", Str("N/A"));
    assert confidence.Str? && '%' in confidence.s;
    PercentIsNotFloat(confidence.s);
  }

  /**
   * The offline-sync handler with the report row's confidence taken through
   * the same normalisation as the analyse handler, so that every payload the
   * image pathway accepts is stored in a table that has the sync's columns.
   */
  method SyncOfflineCorrected(kb: KnowledgeBase, table: set<string>, data: SyncBody)
    returns (resp: Response, stored: Option<real>)
    requires ValidKB(kb) && TreatmentsPresent(kb)
    ensures !BodyGiven(data) ==> resp == BadRequest(NoData)
    ensures BodyGiven(data) && data.NotADict? ==> resp == ServerError
    ensures BodyGiven(data) && data.Fields? ==>
              (resp.Report? <==> AnalyzeWithImage(kb, OfflineFeatures(data.fields)).Ok? && InsertAccepted(table, SyncInsertColumns))
    ensures BodyGiven(data) && data.Fields? && resp.Report? ==>
              var r := AnalyzeWithImage(kb, OfflineFeatures(data.fields)).value;
              && resp.body == ToJson(r)["offline_mode" := Bool(true)]
              && stored == Some(NormalizedConfidence(r.confidence))
    ensures resp.Report? <==> stored.Some?
  {
    if !BodyGiven(data) {
      return BadRequest(NoData), None;
    }
    if data.NotADict? {
      return ServerError, None;
    }
    var outcome := AnalyzeWithImage(kb, OfflineFeatures(data.fields));
    if outcome.Err? || !InsertAccepted(table, SyncInsertColumns) {
      return ServerError, None;
    }
    var result := new ResultDict(ToJson(outcome.value));
    result.MarkOffline();
    var raw: Scalar := Get(result.fields, "confidence", Int(50));
    resp, stored := Report(result.fields), Some(NormalizedConfidence(raw));
  }

  /**
   * With the correction, a text or missing label never fails, the stored
   * confidence is the payload's own ("50%" when absent), and any text
   * confidence, "NN.NN%" included, is stored as 50.0.
   */
  lemma CorrectedSyncStoresText(kb: KnowledgeBase, data: map<string, Scalar>)
    requires ValidKB(kb) && TreatmentsPresent(kb)
    requires Get(data, "crop_disease_label", Null).Str? || Get(data, "crop_disease_label", Null).Null?
    ensures AnalyzeWithImage(kb, OfflineFeatures(data)).Ok?
    ensures AnalyzeWithImage(kb, OfflineFeatures(data)).value.confidence == Get(data, "confidence", Str(OfflineDefaultConfidence))
    ensures Get(data, "confidence", Str(OfflineDefaultConfidence)).Str? ==>
              NormalizedConfidence(AnalyzeWithImage(kb, OfflineFeatures(data)).value.confidence) == NeutralConfidence
    ensures IsNumeric(Get(data, "confidence", Str(OfflineDefaultConfidence))) ==>
              Some(NormalizedConfidence(AnalyzeWithImage(kb, OfflineFeatures(data)).value.confidence))
                == ToFloat(Get(data, "confidence", Str(OfflineDefaultConfidence)))
  {
    ImagePathwayAcceptsText(kb, OfflineFeatures(data));
    ImageResultSpec(kb, OfflineFeatures(data));
  }
}
