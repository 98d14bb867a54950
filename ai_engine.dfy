/**
 * The advisory engine: it turns either a classifier label and confidence or
 * a crop name and environmental readings into one advisory record, by
 * looking the crop and disease up in a crop -> disease -> treatment
 * knowledge base that is passed in as a read-only value.
 */
module AiEngine {
  import opened Wrappers
  import opened PyData
  import opened PyStrings
  import opened DecisionLogic

  // ---------- knowledge base ----------

  /** The three pieces of guidance stored for a disease. */
  datatype Treatment = Treatment(chemical: string, organic: string, prevention: string)

  /** The advice used whenever the knowledge base has none for the case at hand. */
  const DefaultTreatment := Treatment(
    "Consult local agriculture expert before chemical use",
    "Neem oil or bio-fungicide spray",
    "Regular monitoring and field hygiene")

  /** One disease entry; `treatment` is None when the entry has no "treatment" key. */
  datatype DiseaseEntry = DiseaseEntry(treatment: Option<Treatment>)

  /** A crop's diseases as the JSON object lists them: (name, entry) in stored order. */
  type DiseaseTable = seq<(string, DiseaseEntry)>

  /** Crop name -> that crop's disease table. */
  type KnowledgeBase = map<string, DiseaseTable>

  const Healthy := "Healthy"

  /** The keys of a JSON object are distinct. */
  predicate DistinctKeys(t: DiseaseTable)
  {
    forall i, j :: 0 <= i < j < |t| ==> t[i].0 != t[j].0
  }

  predicate ValidKB(kb: KnowledgeBase)
  {
    forall crop :: crop in kb ==> DistinctKeys(kb[crop])
  }

  /** Every disease entry has a "treatment", as the image pathway's lookup assumes. */
  predicate TreatmentsPresent(kb: KnowledgeBase)
  {
    forall crop, i :: crop in kb && 0 <= i < |kb[crop]| ==> kb[crop][i].1.treatment.Some?
  }

  /** `key in table`. */
  predicate HasKey(t: DiseaseTable, key: string)
  {
    exists i :: 0 <= i < |t| && t[i].0 == key
  }

  function IndexOf(t: DiseaseTable, key: string): (r: Option<nat>)
    ensures r.Some? ==> r.value < |t| && t[r.value].0 == key
    ensures r.None? ==> !HasKey(t, key)
  {
    if t == [] then None
    else if t[0].0 == key then Some(0)
    else
      match IndexOf(t[1..], key)
      case None =>
        assert forall i :: 1 <= i < |t| ==> t[i] == t[1..][i - 1];
        None
      case Some(i) => Some(i + 1)
  }

  /** `table.get(key)`: the entry stored under `key`, if any. */
  function Lookup(t: DiseaseTable, key: string): (r: Option<DiseaseEntry>)
    requires DistinctKeys(t)
    ensures r.Some? <==> HasKey(t, key)
    ensures forall i :: 0 <= i < |t| && t[i].0 == key ==> r == Some(t[i].1)
  {
    match IndexOf(t, key)
    case None => None
    case Some(i) => Some(t[i].1)
  }

  /** `[d for d in table if d != "Healthy"]`: the catalogued diseases in stored order. */
  function NonHealthyKeys(t: DiseaseTable): (ds: seq<string>)
    ensures |ds| <= |t|
    ensures forall k :: 0 <= k < |ds| ==> ds[k] != Healthy
    ensures forall i :: 0 <= i < |t| && t[i].0 != Healthy ==> t[i].0 in ds
  {
    if t == [] then []
    else
      var ds := (if t[0].0 != Healthy then [t[0].0] else []) + NonHealthyKeys(t[1..]);
      assert forall i :: 1 <= i < |t| ==> t[i] == t[1..][i - 1];
      ds
  }

  /** The comprehension distributes over the concatenation of two tables. */
  lemma {:induction false} NonHealthyKeysAppend(x: DiseaseTable, y: DiseaseTable)
    ensures NonHealthyKeys(x + y) == NonHealthyKeys(x) + NonHealthyKeys(y)
    decreases |x|
  {
    if x == [] {
      assert x + y == y;
    } else {
      assert (x + y)[1..] == x[1..] + y;
      NonHealthyKeysAppend(x[1..], y);
    }
  }

  /**
   * Every key other than "Healthy" is kept, at the position given by the
   * number of such keys before it in the table.
   */
  lemma NonHealthyKeyKept(t: DiseaseTable, i: nat)
    requires i < |t| && t[i].0 != Healthy
    ensures |NonHealthyKeys(t[..i])| < |NonHealthyKeys(t)|
    ensures NonHealthyKeys(t)[|NonHealthyKeys(t[..i])|] == t[i].0
  {
    assert t == t[..i] + t[i..];
    NonHealthyKeysAppend(t[..i], t[i..]);
    assert NonHealthyKeys(t[i..])[0] == t[i].0;
  }

  lemma NonHealthyKeysPrefix(t: DiseaseTable, i: nat)
    requires 0 < i <= |t|
    ensures NonHealthyKeys(t[..i]) == (if t[0].0 != Healthy then [t[0].0] else []) + NonHealthyKeys(t[1..][..i - 1])
  {
    assert t[..i][1..] == t[1..][..i - 1];
  }

  /**
   * The k-th catalogued disease sits at a position i of the table with
   * exactly k diseases other than "Healthy" before it.
   */
  lemma {:induction false} NonHealthyKeyPosition(t: DiseaseTable, k: nat)
    requires k < |NonHealthyKeys(t)|
    ensures exists i :: 0 <= i < |t| && t[i].0 == NonHealthyKeys(t)[k] && |NonHealthyKeys(t[..i])| == k
  {
    var tail := NonHealthyKeys(t[1..]);
    if t[0].0 != Healthy && k == 0 {
      assert t[..0] == [];
    } else {
      var k' := if t[0].0 != Healthy then k - 1 else k;
      assert NonHealthyKeys(t)[k] == tail[k'];
      NonHealthyKeyPosition(t[1..], k');
      var i' :| 0 <= i' < |t[1..]| && t[1..][i'].0 == tail[k'] && |NonHealthyKeys(t[1..][..i'])| == k';
      NonHealthyKeysPrefix(t, i' + 1);
      assert t[i' + 1].0 == NonHealthyKeys(t)[k];
    }
  }

  /** A table without catalogued diseases holds nothing but "Healthy" keys. */
  lemma {:induction false} NoNonHealthyKeys(t: DiseaseTable)
    ensures NonHealthyKeys(t) == [] <==> forall j :: 0 <= j < |t| ==> t[j].0 == Healthy
  {
    if t != [] {
      NoNonHealthyKeys(t[1..]);
      assert forall j :: 1 <= j < |t| ==> t[j] == t[1..][j - 1];
    }
  }

  // ---------- severity, risk and label ----------

  /** `SEVERITY_RISK_MAP.get(severity, 0.5)`. */
  function RiskScore(severity: string): (r: real)
    ensures severity == "Low" ==> r == 0.2
    ensures severity == "Medium" ==> r == 0.5
    ensures severity == "High" ==> r == 0.8
    ensures severity != "Low" && severity != "Medium" && severity != "High" ==> r == 0.5
    ensures 0.0 <= r <= 1.0
  {
    if severity == "Low" then 0.2
    else if severity == "Medium" then 0.5
    else if severity == "High" then 0.8
    else 0.5
  }

  /** The risk score orders the severities exactly as their ranks do: strictly. */
  lemma RiskFollowsSeverity(a: Severity, b: Severity)
    ensures a.Rank() < b.Rank() <==> RiskScore(a.Name()) < RiskScore(b.Name())
    ensures a.Rank() <= b.Rank() <==> RiskScore(a.Name()) <= RiskScore(b.Name())
  {
  }

  const Separator := "___"
  const UnknownCrop := "Unknown Crop"
  const SourQualifier := "(including sour)"

  /** The crop half: underscores to spaces, the sour qualifier dropped, title-cased; not trimmed. */
  function CropName(part: string): string
  {
    Title(Replace(Replace(part, "_", " "), SourQualifier, ""))
  }

  /** The disease half: underscores to spaces, title-cased. */
  function DiseaseName(part: string): string
  {
    Title(Replace(part, "_", " "))
  }

  /**
   * `parse_crop_and_disease` on a string label: a label that is empty or has
   * no "___" comes back unchanged beside "Unknown Crop"; any other label is
   * cut at its first "___" and each half made readable.
   */
  function ParseCropAndDisease(text: string): (r: (string, string))
    ensures text == "" || !Contains(text, Separator) ==> r == (UnknownCrop, text)
  {
    if text == "" then (UnknownCrop, text)
    else
      match FindFirst(text, Separator)
      case None => (UnknownCrop, text)
      case Some(i) => (CropName(text[..i]), DiseaseName(text[i + |Separator|..]))
  }

  /** The halves are what comes before and after the first "___". */
  lemma ParseSplitsAtFirstSeparator(text: string)
    requires text != "" && Contains(text, Separator)
    ensures exists i: nat :: OccursAt(text, Separator, i)
                        && (forall j :: 0 <= j < i ==> !OccursAt(text, Separator, j))
                        && ParseCropAndDisease(text) == (CropName(text[..i]), DiseaseName(text[i + 3..]))
  {
    var i := FindFirst(text, Separator).value;
    assert OccursAt(text, Separator, i);
  }

  lemma NoUnderscoreAfterReplace(s: string)
    ensures '_' !in Replace(s, "_", " ")
  {
    ReplaceCharPointwise(s, '_', ' ');
  }

  /** Neither half of a split label contains an underscore. */
  lemma ParsedHalvesHaveNoUnderscore(text: string)
    requires text != "" && Contains(text, Separator)
    ensures '_' !in ParseCropAndDisease(text).0
    ensures '_' !in ParseCropAndDisease(text).1
  {
    var i := FindFirst(text, Separator).value;
    var crop, disease := text[..i], text[i + 3..];
    NoUnderscoreAfterReplace(crop);
    NoUnderscoreAfterReplace(disease);
    TitleKeepsNonLetter(Replace(Replace(crop, "_", " "), SourQualifier, ""), '_');
    TitleKeepsNonLetter(Replace(disease, "_", " "), '_');
  }

  /** An empty label and a label without "___" are reported as an unknown crop. */
  lemma ParseDegradedExamples()
    ensures ParseCropAndDisease("") == (UnknownCrop, "")
    ensures ParseCropAndDisease("Healthy") == (UnknownCrop, "Healthy")
  {
    AbsentFirstChar("Healthy", Separator);
  }

  lemma FirstSeparatorOfTomatoLabel(text: string)
    requires text == "Tomato___Late_blight"
    ensures FindFirst(text, Separator) == Some(6)
  {
    assert text[6..9] == Separator;
    forall j | 0 <= j < 6 ensures !OccursAt(text, Separator, j) {
      assert text[j] != '_';
      assert text[j..j + 3][0] == text[j];
    }
    assert OccursAt(text, Separator, 6);
    var r := FindFirst(text, Separator);
    assert r.Some? && !(r.value < 6);
  }

  lemma TomatoCropName(part: string)
    requires part == "Tomato"
    ensures CropName(part) == "Tomato"
  {
    AbsentFirstChar(part, "_");
    ReplaceAbsent(part, "_", " ");
    AbsentFirstChar(part, SourQualifier);
    ReplaceAbsent(part, SourQualifier, "");
  }

  lemma LateBlightDiseaseName(part: string)
    requires part == "Late_blight"
    ensures DiseaseName(part) == "Late Blight"
  {
    ReplaceCharPointwise(part, '_', ' ');
    var spaced := Replace(part, "_", " ");
    assert spaced == "Late blight";
    var t := Title(spaced);
    assert t == "Late Blight" by {
      assert forall k :: 0 <= k < |t| ==> t[k] == "Late Blight"[k];
    }
  }

  /** The classifier label for late blight on tomato. */
  lemma ParseTomatoLateBlight(text: string)
    requires text == "Tomato___Late_blight"
    ensures ParseCropAndDisease(text) == ("Tomato", "Late Blight")
  {
    FirstSeparatorOfTomatoLabel(text);
    assert text[..6] == "Tomato" && text[9..] == "Late_blight";
    TomatoCropName(text[..6]);
    LateBlightDiseaseName(text[9..]);
  }

  /** Three underscore-free words joined by underscores come out joined by spaces. */
  lemma {:induction false} UnderscoresSpaced(a: string, b: string, c: string)
    requires '_' !in a && '_' !in b && '_' !in c
    ensures Replace(a + ("_" + (b + ("_" + c))), "_", " ") == a + (" " + (b + (" " + c)))
  {
    ReplaceAfterPrefix(a, b + ("_" + c), "_", " ");
    ReplaceAfterPrefix(b, c, "_", " ");
    ReplaceKeepsPrefix(c, [], "_", " ");
    assert c + [] == c;
  }

  lemma CherrySpaced(part: string)
    requires part == "Cherry_(including_sour)"
    ensures Replace(part, "_", " ") == "Cherry " + SourQualifier
  {
    var a, b, c := "Cherry", "(including", "sour)";
    var x := "_" + c;
    assert x == "_sour)";
    var y := b + x;
    assert y == "(including_sour)";
    var z := "_" + y;
    assert z == "_(including_sour)";
    assert part == a + z;
    UnderscoresSpaced(a, b, c);
    assert a + (" " + (b + (" " + c))) == "Cherry " + SourQualifier;
  }

  lemma CherryUnqualified(head: string)
    requires head == "Cherry "
    ensures Replace(head + SourQualifier, SourQualifier, "") == head
  {
    ReplaceKeepsPrefix(head, SourQualifier, SourQualifier, "");
    assert Replace(SourQualifier, SourQualifier, "") == "";
  }

  lemma CherryTitled(head: string)
    requires head == "Cherry "
    ensures Title(head) == head
  {
    var t := Title(head);
    assert forall k :: 0 <= k < |t| ==> t[k] == head[k];
  }

  /** The sour qualifier is dropped from the crop half, and the space before it stays. */
  lemma CherryCropNameKeepsTrailingSpace(part: string)
    requires part == "Cherry_(including_sour)"
    ensures CropName(part) == "Cherry "
  {
    CherrySpaced(part);
    CherryUnqualified("Cherry ");
    CherryTitled("Cherry ");
  }

  /** Raised by `parse_crop_and_disease` when `"___" in label` meets a non-string label. */
  datatype EngineError = LabelTypeError

  /**
   * `parse_crop_and_disease` on whatever value the features carry: a falsy
   * label (None, "", 0, False) comes back unchanged beside "Unknown Crop", a
   * string is parsed, and any other truthy value raises.
   */
  function ParseLabel(tag: Scalar): (r: Result<(string, Scalar), EngineError>)
    ensures r.Err? <==> Truthy(tag) && !tag.Str?
    ensures !Truthy(tag) ==> r == Ok((UnknownCrop, tag))
    ensures tag.Str? ==> r.Ok? && r.value.0 == ParseCropAndDisease(tag.s).0
                           && r.value.1 == Str(ParseCropAndDisease(tag.s).1)
  {
    if !Truthy(tag) then Ok((UnknownCrop, tag))
    else if tag.Str? then
      var (crop, disease) := ParseCropAndDisease(tag.s);
      Ok((crop, Str(disease)))
    else Err(LabelTypeError)
  }

  /** `float(confidence.replace("%", ""))`, None where that raises. */
  function ConfidencePercent(confidence: Scalar): Option<real>
  {
    if confidence.Str? then ParseFloatText(Replace(confidence.s, "%", "")) else None
  }

  /** Severity from the classifier's confidence: 85 or more is High; anything else, a failed parse included, Medium. */
  function ImageSeverity(confidence: Scalar): (s: Severity)
    ensures s != Low
    ensures s == High <==> ConfidencePercent(confidence).Some? && ConfidencePercent(confidence).value >= 85.0
  {
    match ConfidencePercent(confidence)
    case Some(v) => if v >= 85.0 then High else Medium
    case None => Medium
  }

  /**
   * For a confidence written the way the classifier writes it (a number of
   * hundredths h as `f"{h / 100:.2f}%"`), the severity is High exactly when
   * h / 100 is at least 85.
   */
  lemma ClassifierConfidenceSeverity(h: nat)
    ensures ImageSeverity(Str(FixedTwo(h) + "%")) == if h >= 8500 then High else Medium
  {
    var text := FixedTwo(h);
    RemoveCharConcat(text, "%", '%');
    assert Replace("%", "%", "") == "";
    assert '%' !in text by {
      assert forall k :: 0 <= k < |text| ==> IsDigit(text[k]) || text[k] == '.' by {
        FixedTwoRoundTrip(h);
      }
    }
    AbsentFirstChar(text, "%");
    ReplaceAbsent(text, "%", "");
    assert Replace(text + "%", "%", "") == text;
    FixedTwoRoundTrip(h);
    assert ConfidencePercent(Str(text + "%")) == Some(h as real / 100.0);
    assert h as real / 100.0 >= 85.0 <==> h >= 8500;
  }

  // ---------- the advisory record ----------

  datatype Advisory = Advisory(treatment: Treatment, pesticideStrategy: string, yieldImpact: string)

  /** The record both pathways return (its "status" is always "SUCCESS"). */
  datatype AnalysisResult = AnalysisResult(
    cropType: string,
    diseaseDetected: Scalar,
    severity: Severity,
    riskScore: real,
    confidence: Scalar,
    inferenceMode: string,
    modelSource: Option<string>,
    decisionReason: string,
    reasoningClues: seq<string>,
    advisory: Advisory)

  const ImageMode := "CNN_IMAGE_BASED"
  const EnvironmentMode := "ENVIRONMENT_RULE_BASED"
  const RuleBased := "RULE_BASED"
  const MatchedReason := "Disease matched with knowledge base"
  const ImageGenericReason := "Generic advisory applied (unknown crop/disease)"
  const EnvironmentGenericReason := "Generic advisory applied"
  const EnvironmentReason := "Rule-based crop and environment analysis"
  const ImageClues := ["Crop automatically detected from image", "Disease identified using CNN visual patterns"]
  const NoMatchClue := "No exact match found in knowledge base"
  const EnvironmentClues := ["No image uploaded", "Environmental conditions analyzed"]
  const UnknownCropClue := "Crop not present in knowledge base"
  const ImageYieldImpact := "Early detection improves yield and reduces losses"
  const UnknownCropYieldImpact := "Preventive care reduces risk"
  const EnvironmentYieldImpact := "Early intervention improves yield"

  /** The knowledge base has an entry for this crop and this disease label. */
  predicate Matches(kb: KnowledgeBase, crop: string, disease: Scalar)
  {
    crop in kb && disease.Str? && HasKey(kb[crop], disease.s)
  }

  /**
   * `analyze_with_image`: parse the label, grade the confidence, and take the
   * knowledge-base treatment when crop and disease are both catalogued, the
   * default one otherwise. Raises only where the label parser does.
   */
  function AnalyzeWithImage(kb: KnowledgeBase, features: map<string, Scalar>): (r: Result<AnalysisResult, EngineError>)
    requires ValidKB(kb) && TreatmentsPresent(kb)
    ensures r.Err? <==> ParseLabel(Get(features, "disease", Str("Uncertain"))).Err?
    ensures r.Ok? ==> r.value.severity != Low && r.value.riskScore in {0.5, 0.8}
    ensures r.Ok? ==> r.value.advisory.pesticideStrategy != PreventiveOnly
    ensures r.Ok? ==> r.value.riskScore == RiskScore(r.value.severity.Name()) && r.value.modelSource == Some("cnn")
    ensures r.Ok? ==> r.value.advisory.yieldImpact == ImageYieldImpact
  {
    var tag := Get(features, "disease", Str("Uncertain"));
    var confidence := Get(features, "confidence", Str("N/A"));
    match ParseLabel(tag)
    case Err(e) => Err(e)
    case Ok((crop, disease)) =>
      var severity := ImageSeverity(confidence);
      var matched := Matches(kb, crop, disease);
      var treatment := if matched then Lookup(kb[crop], disease.s).value.treatment.value else DefaultTreatment;
      Ok(AnalysisResult(
        crop, disease, severity, RiskScore(severity.Name()), confidence, ImageMode, Some("cnn"),
        if matched then MatchedReason else ImageGenericReason,
        if matched then ImageClues else ImageClues + [NoMatchClue],
        Advisory(treatment, PesticideOptimization(severity.Name()), ImageYieldImpact)))
  }

  /**
   * What the image pathway reports: the parsed crop and disease, the
   * confidence as given, and the knowledge-base treatment with the two fixed
   * clues exactly when the pair is catalogued, the default treatment with a
   * third clue otherwise.
   */
  lemma ImageResultSpec(kb: KnowledgeBase, features: map<string, Scalar>)
    requires ValidKB(kb) && TreatmentsPresent(kb)
    requires AnalyzeWithImage(kb, features).Ok?
    ensures var r := AnalyzeWithImage(kb, features).value;
            var parsed := ParseLabel(Get(features, "disease", Str("Uncertain"))).value;
            && r.cropType == parsed.0 && r.diseaseDetected == parsed.1
            && r.confidence == Get(features, "confidence", Str("N/A"))
            && r.inferenceMode == ImageMode
            && r.severity == ImageSeverity(r.confidence)
            && r.riskScore == RiskScore(r.severity.Name()) && r.modelSource == Some("cnn")
            && r.advisory.yieldImpact == ImageYieldImpact
            && (Matches(kb, r.cropType, r.diseaseDetected) ==>
                  r.decisionReason == MatchedReason && r.reasoningClues == ImageClues
                  && exists i :: 0 <= i < |kb[r.cropType]| && kb[r.cropType][i].0 == r.diseaseDetected.s
                                 && kb[r.cropType][i].1.treatment == Some(r.advisory.treatment))
            && (!Matches(kb, r.cropType, r.diseaseDetected) ==>
                  r.decisionReason == ImageGenericReason && r.advisory.treatment == DefaultTreatment
                  && r.reasoningClues == ImageClues + [NoMatchClue] && |r.reasoningClues| == 3)
  {
    var r := AnalyzeWithImage(kb, features).value;
    if Matches(kb, r.cropType, r.diseaseDetected) {
      var t := kb[r.cropType];
      var i :| 0 <= i < |t| && t[i].0 == r.diseaseDetected.s;
      assert Lookup(t, r.diseaseDetected.s) == Some(t[i].1);
    }
  }

  /** The image pathway raises only for a truthy label that is not a string: never for classifier output. */
  lemma ImagePathwayAcceptsText(kb: KnowledgeBase, features: map<string, Scalar>)
    requires ValidKB(kb) && TreatmentsPresent(kb)
    requires Get(features, "disease", Str("Uncertain")).Str? || Get(features, "disease", Str("Uncertain")).Null?
    ensures AnalyzeWithImage(kb, features).Ok?
  {
  }

  /** The environment reading with `.get(key, 0)` defaults. */
  function Reading(environment: map<string, real>, key: string): real
  {
    Get(environment, key, 0.0)
  }

  /**
   * The disease the environment pathway settles on: the first catalogued
   * disease for High, the second for Medium, "Healthy" when there is no such
   * disease or the severity is Low.
   */
  function SelectDisease(severity: Severity, diseases: seq<string>): (d: string)
    ensures d == Healthy || d in diseases
    ensures severity == Low || |diseases| == 0 ==> d == Healthy
    ensures severity == Medium && |diseases| == 1 ==> d == Healthy
  {
    if severity == High && |diseases| > 0 then diseases[0]
    else if severity == Medium && |diseases| > 1 then diseases[1]
    else Healthy
  }

  /** `table.get(disease, {}).get("treatment", DEFAULT_TREATMENT)`. */
  function TreatmentFor(t: DiseaseTable, disease: string): (tr: Treatment)
    requires DistinctKeys(t)
    ensures forall i :: 0 <= i < |t| && t[i].0 == disease && t[i].1.treatment.Some? ==> tr == t[i].1.treatment.value
    ensures (forall i :: 0 <= i < |t| && t[i].0 == disease ==> t[i].1.treatment.None?) ==> tr == DefaultTreatment
  {
    match Lookup(t, disease)
    case Some(DiseaseEntry(Some(tr))) => tr
    case _ => DefaultTreatment
  }

  /**
   * `analyze_without_image`: grade the readings, then either a degraded
   * record for a crop the knowledge base lacks, or the disease chosen by
   * severity from the crop's catalogue and its treatment.
   */
  function AnalyzeWithoutImage(kb: KnowledgeBase, cropType: string, environment: map<string, real>): (r: AnalysisResult)
    requires ValidKB(kb)
    ensures r.severity == AssessSeverity(Reading(environment, "humidity"), Reading(environment, "temperature"))
    ensures r.riskScore == RiskScore(r.severity.Name())
    ensures r.cropType == cropType && r.confidence == Str(RuleBased) && r.inferenceMode == EnvironmentMode
    ensures r.modelSource == None
    ensures r.advisory.pesticideStrategy == PesticideOptimization(r.severity.Name())
    ensures cropType !in kb ==>
              r.diseaseDetected == Str("Unknown") && r.advisory.treatment == DefaultTreatment
              && r.decisionReason == EnvironmentGenericReason && r.reasoningClues == EnvironmentClues + [UnknownCropClue]
              && r.advisory.yieldImpact == UnknownCropYieldImpact
    ensures cropType in kb ==>
              r.decisionReason == EnvironmentReason && r.reasoningClues == EnvironmentClues
              && r.diseaseDetected.Str?
              && r.advisory.treatment == TreatmentFor(kb[cropType], r.diseaseDetected.s)
              && r.advisory.yieldImpact == EnvironmentYieldImpact
  {
    var severity := AssessSeverity(Reading(environment, "humidity"), Reading(environment, "temperature"));
    var risk := RiskScore(severity.Name());
    if cropType !in kb then
      AnalysisResult(
        cropType, Str("Unknown"), severity, risk, Str(RuleBased), EnvironmentMode, None,
        EnvironmentGenericReason, EnvironmentClues + [UnknownCropClue],
        Advisory(DefaultTreatment, PesticideOptimization(severity.Name()), UnknownCropYieldImpact))
    else
      var disease := SelectDisease(severity, NonHealthyKeys(kb[cropType]));
      AnalysisResult(
        cropType, Str(disease), severity, risk, Str(RuleBased), EnvironmentMode, None,
        EnvironmentReason, EnvironmentClues,
        Advisory(TreatmentFor(kb[cropType], disease), PesticideOptimization(severity.Name()), EnvironmentYieldImpact))
  }

  /**
   * The environment pathway's choice for a catalogued crop, stated on the
   * table's order: High picks the first key that is not "Healthy", Medium
   * the second such key, and otherwise "Healthy" is reported.
   */
  lemma EnvironmentDiseaseSelection(kb: KnowledgeBase, cropType: string, environment: map<string, real>)
    requires ValidKB(kb) && cropType in kb
    ensures var r := AnalyzeWithoutImage(kb, cropType, environment);
            var t := kb[cropType];
            var n := |NonHealthyKeys(t)|;
            && (r.severity == High && n >= 1 ==>
                  exists i :: 0 <= i < |t| && r.diseaseDetected == Str(t[i].0) && t[i].0 != Healthy
                              && forall j :: 0 <= j < i ==> t[j].0 == Healthy)
            && (r.severity == Medium && n >= 2 ==>
                  exists i :: 0 <= i < |t| && r.diseaseDetected == Str(t[i].0) && t[i].0 != Healthy
                              && |NonHealthyKeys(t[..i])| == 1)
            && (!(r.severity == High && n >= 1) && !(r.severity == Medium && n >= 2) ==>
                  r.diseaseDetected == Str(Healthy))
  {
    var r := AnalyzeWithoutImage(kb, cropType, environment);
    var t := kb[cropType];
    var ds := NonHealthyKeys(t);
    if r.severity == High && |ds| >= 1 {
      NonHealthyKeyPosition(t, 0);
      var i :| 0 <= i < |t| && t[i].0 == ds[0] && |NonHealthyKeys(t[..i])| == 0;
      NoNonHealthyKeys(t[..i]);
      assert forall j :: 0 <= j < i ==> t[j] == t[..i][j];
    } else if r.severity == Medium && |ds| >= 2 {
      NonHealthyKeyPosition(t, 1);
    }
  }

  /** A crop has a catalogued disease exactly when one of its keys is not "Healthy". */
  lemma HasCataloguedDisease(t: DiseaseTable)
    ensures |NonHealthyKeys(t)| >= 1 <==> exists i :: 0 <= i < |t| && t[i].0 != Healthy
  {
    NoNonHealthyKeys(t);
  }

  /**
   * Every record either pathway returns carries a treatment that is the
   * default or one stored in the knowledge base, and the non-empty pesticide
   * strategy for its severity.
   */
  lemma EveryResultCarriesAdvice(kb: KnowledgeBase, features: map<string, Scalar>, cropType: string, environment: map<string, real>)
    requires ValidKB(kb) && TreatmentsPresent(kb)
    ensures forall r :: r == AnalyzeWithoutImage(kb, cropType, environment)
                        || (AnalyzeWithImage(kb, features).Ok? && r == AnalyzeWithImage(kb, features).value) ==>
              && r.advisory.pesticideStrategy == PesticideOptimization(r.severity.Name())
              && r.advisory.pesticideStrategy != ""
              && (r.advisory.treatment == DefaultTreatment
                  || exists crop, i :: crop in kb && 0 <= i < |kb[crop]| && kb[crop][i].1.treatment == Some(r.advisory.treatment))
  {
    var env := AnalyzeWithoutImage(kb, cropType, environment);
    if cropType in kb {
      var tr := env.advisory.treatment;
      assert tr == TreatmentFor(kb[cropType], env.diseaseDetected.s);
    }
    if AnalyzeWithImage(kb, features).Ok? {
      ImageResultSpec(kb, features);
    }
  }

  // ---------- the record as the JSON object handed to the caller ----------

  function TreatmentJson(t: Treatment): Value
  {
    Object(map["chemical" := Str(t.chemical), "organic" := Str(t.organic), "prevention" := Str(t.prevention)])
  }

  /** The keys every record carries; an image record also has "model_source". */
  const ResultKeys: set<string> := {
    "status", "crop_type", "disease_detected", "severity", "risk_score", "confidence",
    "inference_mode", "decision_reason", "reasoning_clues", "advisory"}

  /** The dict literal each pathway returns. */
  function ToJson(r: AnalysisResult): (d: map<string, Value>)
    ensures d.Keys == ResultKeys + (if r.modelSource.Some? then {"model_source"} else {})
    ensures d["confidence"] == r.confidence
    ensures d["severity"] == Str(r.severity.Name())
    ensures d["disease_detected"] == r.diseaseDetected
    ensures d["status"] == Str("SUCCESS") && d["crop_type"] == Str(r.cropType)
    ensures d["risk_score"] == Float(r.riskScore) && d["inference_mode"] == Str(r.inferenceMode)
    ensures d["decision_reason"] == Str(r.decisionReason)
    ensures d["reasoning_clues"].List? && |d["reasoning_clues"].items| == |r.reasoningClues|
    ensures forall k :: 0 <= k < |r.reasoningClues| ==> d["reasoning_clues"].items[k] == Str(r.reasoningClues[k])
    ensures d["advisory"].Object? && d["advisory"].fields.Keys == {"treatment", "pesticide_strategy", "yield_impact"}
    ensures d["advisory"].fields["treatment"] == TreatmentJson(r.advisory.treatment)
    ensures d["advisory"].fields["pesticide_strategy"] == Str(r.advisory.pesticideStrategy)
    ensures d["advisory"].fields["yield_impact"] == Str(r.advisory.yieldImpact)
    ensures r.modelSource.Some? ==> d["model_source"] == Str(r.modelSource.value)
  {
    var common := map[
      "status" := Str("SUCCESS"),
      "crop_type" := Str(r.cropType),
      "disease_detected" := r.diseaseDetected,
      "severity" := Str(r.severity.Name()),
      "risk_score" := Float(r.riskScore),
      "confidence" := r.confidence,
      "inference_mode" := Str(r.inferenceMode),
      "decision_reason" := Str(r.decisionReason),
      "reasoning_clues" := List(seq(|r.reasoningClues|, k requires 0 <= k < |r.reasoningClues| => Str(r.reasoningClues[k]))),
      "advisory" := Object(map[
        "treatment" := TreatmentJson(r.advisory.treatment),
        "pesticide_strategy" := Str(r.advisory.pesticideStrategy),
        "yield_impact" := Str(r.advisory.yieldImpact)])];
    match r.modelSource
    case Some(source) => common["model_source" := Str(source)]
    case None => common
  }
}
