/** The five pydantic record types of models.py, how pydantic validates them out of a
    JSON value, and the JSON value each record serialises to.

    A field declared with Field(...) is required: it must be present and of its declared
    shape, and null is rejected. A field declared Optional[...] with default None may be
    absent or null, both of which give None. Keys the record does not declare are ignored. */
module Models {
  import opened Wrappers
  import opened JsonValue

  datatype SoilLayer = SoilLayer(
    depthStart: real,
    depthEnd: real,
    soilType: string,
    strength: Option<real>)

  datatype ProjectInfo = ProjectInfo(
    location: string,
    client: Option<string>,
    date: Option<string>)

  datatype HazardInfo = HazardInfo(
    erosion: Option<string>,
    slide: Option<string>,
    seismic: Option<string>,
    steepSlope: Option<string>,
    watercourseBuffer: Option<string>)

  datatype DocumentSummary = DocumentSummary(
    docType: string,
    projectInfo: ProjectInfo,
    soilProfile: seq<SoilLayer>,
    groundwaterDepth: Option<real>,
    testResults: map<string, real>,
    confidence: string,
    recommendations: Option<seq<string>>,
    hazards: Option<HazardInfo>,
    slopeAngle: Option<real>,
    lakeProximity: Option<real>)

  datatype Report = Report(
    reportType: string,
    executiveSummary: string,
    siteDescription: string,
    methodology: string,
    findings: string,
    recommendations: string)

  /** Why validation failed; the field is the JSON key of the offending entry. */
  datatype SchemaError = NotAnObject | Missing(field: string) | WrongType(field: string)

  type Fields = map<string, Json>

  // ---------------------------------------------------------------------------
  // Field access, the way pydantic treats required and Optional fields

  /** A required field: absent is an error, present is handed on as it is. */
  function Required(m: Fields, key: string): Result<Json, SchemaError> {
    if key in m then Success(m[key]) else Failure(Missing(key))
  }

  /** An Optional field with default None: absent and null both mean None. */
  function Present(m: Fields, key: string): Option<Json> {
    if key in m && !m[key].Null? then Some(m[key]) else None
  }

  function AsString(key: string, j: Json): Result<string, SchemaError> {
    if j.Str? then Success(j.s) else Failure(WrongType(key))
  }

  function AsNumber(key: string, j: Json): Result<real, SchemaError> {
    if j.Number? then Success(j.n) else Failure(WrongType(key))
  }

  function RequiredString(m: Fields, key: string): Result<string, SchemaError> {
    var j :- Required(m, key);
    AsString(key, j)
  }

  function RequiredNumber(m: Fields, key: string): Result<real, SchemaError> {
    var j :- Required(m, key);
    AsNumber(key, j)
  }

  function OptionalString(m: Fields, key: string): Result<Option<string>, SchemaError> {
    match Present(m, key)
    case None => Success(None)
    case Some(j) => var s :- AsString(key, j); Success(Some(s))
  }

  function OptionalNumber(m: Fields, key: string): Result<Option<real>, SchemaError> {
    match Present(m, key)
    case None => Success(None)
    case Some(j) => var x :- AsNumber(key, j); Success(Some(x))
  }

  /** List[T]: every element must validate; the first failing element fails the list. */
  function DecodeEach<T>(items: seq<Json>, decode: Json -> Result<T, SchemaError>): (r: Result<seq<T>, SchemaError>)
    ensures r.Success? <==> forall i :: 0 <= i < |items| ==> decode(items[i]).Success?
    ensures r.Success? ==> |r.value| == |items| && forall i :: 0 <= i < |items| ==> r.value[i] == decode(items[i]).value
  {
    if |items| == 0 then Success([])
    else
      var head :- decode(items[0]);
      var tail :- DecodeEach(items[1..], decode);
      Success([head] + tail)
  }

  // ---------------------------------------------------------------------------
  // Decoders (pydantic validation of one record)

  function DecodeSoilLayer(j: Json): Result<SoilLayer, SchemaError> {
    if !j.Object? then Failure(NotAnObject)
    else
      var m := j.fields;
      var depthStart :- RequiredNumber(m, "depth_start");
      var depthEnd :- RequiredNumber(m, "depth_end");
      var soilType :- RequiredString(m, "soil_type");
      var strength :- OptionalNumber(m, "strength");
      Success(SoilLayer(depthStart, depthEnd, soilType, strength))
  }

  function DecodeProjectInfo(j: Json): Result<ProjectInfo, SchemaError> {
    if !j.Object? then Failure(NotAnObject)
    else
      var m := j.fields;
      var location :- RequiredString(m, "location");
      var client :- OptionalString(m, "client");
      var date :- OptionalString(m, "date");
      Success(ProjectInfo(location, client, date))
  }

  function DecodeHazardInfo(j: Json): Result<HazardInfo, SchemaError> {
    if !j.Object? then Failure(NotAnObject)
    else
      var m := j.fields;
      var erosion :- OptionalString(m, "erosion");
      var slide :- OptionalString(m, "slide");
      var seismic :- OptionalString(m, "seismic");
      var steepSlope :- OptionalString(m, "steep_slope");
      var watercourseBuffer :- OptionalString(m, "watercourse_buffer");
      Success(HazardInfo(erosion, slide, seismic, steepSlope, watercourseBuffer))
  }

  /** One element of Optional[List[str]]. */
  function RecommendationItem(j: Json): Result<string, SchemaError> {
    AsString("recommendations", j)
  }

  /** Dict[str, float]: every value must be a number. */
  function DecodeTestResults(j: Json): (r: Result<map<string, real>, SchemaError>)
    ensures r.Success? <==> j.Object? && forall k :: k in j.fields ==> j.fields[k].Number?
    ensures r.Success? ==> r.value.Keys == j.fields.Keys && forall k :: k in r.value ==> j.fields[k] == Number(r.value[k])
  {
    if j.Object? && forall k :: k in j.fields ==> j.fields[k].Number? then
      Success(map k | k in j.fields :: j.fields[k].n)
    else
      Failure(WrongType("test_results"))
  }

  /** soil_profile: List[SoilLayer] */
  function DecodeSoilProfile(j: Json): Result<seq<SoilLayer>, SchemaError> {
    if j.Array? then DecodeEach(j.items, DecodeSoilLayer) else Failure(WrongType("soil_profile"))
  }

  /** recommendations: Optional[List[str]] */
  function DecodeRecommendations(m: Fields): Result<Option<seq<string>>, SchemaError> {
    match Present(m, "recommendations")
    case None => Success(None)
    case Some(j) =>
      if j.Array? then
        var xs :- DecodeEach(j.items, RecommendationItem);
        Success(Some(xs))
      else Failure(WrongType("recommendations"))
  }

  /** hazards: Optional[HazardInfo] */
  function DecodeHazards(m: Fields): Result<Option<HazardInfo>, SchemaError> {
    match Present(m, "hazards")
    case None => Success(None)
    case Some(j) => var h :- DecodeHazardInfo(j); Success(Some(h))
  }

  function DecodeDocumentSummary(j: Json): Result<DocumentSummary, SchemaError> {
    if !j.Object? then Failure(NotAnObject)
    else
      var m := j.fields;
      var docType :- RequiredString(m, "doc_type");
      var projectJson :- Required(m, "project_info");
      var projectInfo :- DecodeProjectInfo(projectJson);
      var soilJson :- Required(m, "soil_profile");
      var soilProfile :- DecodeSoilProfile(soilJson);
      var groundwaterDepth :- OptionalNumber(m, "groundwater_depth");
      var testJson :- Required(m, "test_results");
      var testResults :- DecodeTestResults(testJson);
      var confidence :- RequiredString(m, "confidence");
      var recommendations :- DecodeRecommendations(m);
      var hazards :- DecodeHazards(m);
      var slopeAngle :- OptionalNumber(m, "slope_angle");
      var lakeProximity :- OptionalNumber(m, "lake_proximity");
      Success(DocumentSummary(docType, projectInfo, soilProfile, groundwaterDepth, testResults,
                              confidence, recommendations, hazards, slopeAngle, lakeProximity))
  }

  function DecodeReport(j: Json): Result<Report, SchemaError> {
    if !j.Object? then Failure(NotAnObject)
    else
      var m := j.fields;
      var reportType :- RequiredString(m, "report_type");
      var executiveSummary :- RequiredString(m, "executive_summary");
      var siteDescription :- RequiredString(m, "site_description");
      var methodology :- RequiredString(m, "methodology");
      var findings :- RequiredString(m, "findings");
      var recommendations :- RequiredString(m, "recommendations");
      Success(Report(reportType, executiveSummary, siteDescription, methodology, findings, recommendations))
  }

  // ---------------------------------------------------------------------------
  // Encoders (the JSON value a record serialises to; None becomes null)

  function OptionalNumberJson(x: Option<real>): Json {
    match x
    case None => Null
    case Some(v) => Number(v)
  }

  function OptionalStringJson(x: Option<string>): Json {
    match x
    case None => Null
    case Some(v) => Str(v)
  }

  function StringsJson(xs: seq<string>): Json {
    Array(seq(|xs|, i requires 0 <= i < |xs| => Str(xs[i])))
  }

  function EncodeSoilLayer(l: SoilLayer): Json {
    Object(map[
      "depth_start" := Number(l.depthStart),
      "depth_end" := Number(l.depthEnd),
      "soil_type" := Str(l.soilType),
      "strength" := OptionalNumberJson(l.strength)])
  }

  function EncodeSoilProfile(layers: seq<SoilLayer>): Json {
    Array(seq(|layers|, i requires 0 <= i < |layers| => EncodeSoilLayer(layers[i])))
  }

  function EncodeProjectInfo(p: ProjectInfo): Json {
    Object(map[
      "location" := Str(p.location),
      "client" := OptionalStringJson(p.client),
      "date" := OptionalStringJson(p.date)])
  }

  function EncodeHazardInfo(h: HazardInfo): Json {
    Object(map[
      "erosion" := OptionalStringJson(h.erosion),
      "slide" := OptionalStringJson(h.slide),
      "seismic" := OptionalStringJson(h.seismic),
      "steep_slope" := OptionalStringJson(h.steepSlope),
      "watercourse_buffer" := OptionalStringJson(h.watercourseBuffer)])
  }

  function EncodeTestResults(t: map<string, real>): Json {
    Object(map k | k in t :: Number(t[k]))
  }

  function RecommendationsJson(xs: Option<seq<string>>): Json {
    match xs
    case None => Null
    case Some(v) => StringsJson(v)
  }

  function HazardsJson(h: Option<HazardInfo>): Json {
    match h
    case None => Null
    case Some(v) => EncodeHazardInfo(v)
  }

  function EncodeDocumentSummary(d: DocumentSummary): Json {
    Object(map[
      "doc_type" := Str(d.docType),
      "project_info" := EncodeProjectInfo(d.projectInfo),
      "soil_profile" := EncodeSoilProfile(d.soilProfile),
      "groundwater_depth" := OptionalNumberJson(d.groundwaterDepth),
      "test_results" := EncodeTestResults(d.testResults),
      "confidence" := Str(d.confidence),
      "recommendations" := RecommendationsJson(d.recommendations),
      "hazards" := HazardsJson(d.hazards),
      "slope_angle" := OptionalNumberJson(d.slopeAngle),
      "lake_proximity" := OptionalNumberJson(d.lakeProximity)])
  }

  function EncodeReport(r: Report): Json {
    Object(map[
      "report_type" := Str(r.reportType),
      "executive_summary" := Str(r.executiveSummary),
      "site_description" := Str(r.siteDescription),
      "methodology" := Str(r.methodology),
      "findings" := Str(r.findings),
      "recommendations" := Str(r.recommendations)])
  }

  // ---------------------------------------------------------------------------
  // Round trips: validating what a record serialises to gives the record back,
  // with None fields coming back as None rather than as a default.

  lemma SoilLayerRoundTrip(l: SoilLayer)
    ensures DecodeSoilLayer(EncodeSoilLayer(l)) == Success(l)
  {
  }

  lemma ProjectInfoRoundTrip(p: ProjectInfo)
    ensures DecodeProjectInfo(EncodeProjectInfo(p)) == Success(p)
  {
  }

  lemma HazardInfoRoundTrip(h: HazardInfo)
    ensures DecodeHazardInfo(EncodeHazardInfo(h)) == Success(h)
  {
  }

  lemma TestResultsRoundTrip(t: map<string, real>)
    ensures DecodeTestResults(EncodeTestResults(t)) == Success(t)
  {
    var r := DecodeTestResults(EncodeTestResults(t));
    assert r.Success?;
    assert r.value.Keys == t.Keys;
    assert forall k :: k in t ==> r.value[k] == t[k];
    assert r.value == t;
  }

  /** A list of records serialises element by element and validates back to itself. */
  lemma SoilProfileRoundTrip(layers: seq<SoilLayer>)
    ensures DecodeSoilProfile(EncodeSoilProfile(layers)) == Success(layers)
  {
    var items := EncodeSoilProfile(layers).items;
    forall i | 0 <= i < |items| ensures DecodeSoilLayer(items[i]) == Success(layers[i]) {
      SoilLayerRoundTrip(layers[i]);
    }
    var r := DecodeEach(items, DecodeSoilLayer);
    assert r.Success?;
    assert r.value == layers;
  }

  lemma RecommendationsRoundTrip(xs: seq<string>)
    ensures DecodeEach(StringsJson(xs).items, RecommendationItem) == Success(xs)
  {
    var r := DecodeEach(StringsJson(xs).items, RecommendationItem);
    assert r.Success?;
    assert r.value == xs;
  }

  /** Every field of m validates to the matching component of d. */
  ghost predicate SummaryFieldsDecodeTo(m: Fields, d: DocumentSummary) {
    && RequiredString(m, "doc_type") == Success(d.docType)
    && "project_info" in m && DecodeProjectInfo(m["project_info"]) == Success(d.projectInfo)
    && "soil_profile" in m && DecodeSoilProfile(m["soil_profile"]) == Success(d.soilProfile)
    && OptionalNumber(m, "groundwater_depth") == Success(d.groundwaterDepth)
    && "test_results" in m && DecodeTestResults(m["test_results"]) == Success(d.testResults)
    && RequiredString(m, "confidence") == Success(d.confidence)
    && DecodeRecommendations(m) == Success(d.recommendations)
    && DecodeHazards(m) == Success(d.hazards)
    && OptionalNumber(m, "slope_angle") == Success(d.slopeAngle)
    && OptionalNumber(m, "lake_proximity") == Success(d.lakeProximity)
  }

  /** Validation is all-or-nothing and field by field: an object validates to d exactly
      when each of its ten fields validates to d's component. */
  lemma DocumentSummaryFieldwise(m: Fields, d: DocumentSummary)
    ensures DecodeDocumentSummary(Object(m)) == Success(d) <==> SummaryFieldsDecodeTo(m, d)
  {
  }

  /** m holds, key by key, what d serialises to. */
  ghost predicate IsSummaryEncoding(m: Fields, d: DocumentSummary) {
    && "doc_type" in m && m["doc_type"] == Str(d.docType)
    && "project_info" in m && m["project_info"] == EncodeProjectInfo(d.projectInfo)
    && "soil_profile" in m && m["soil_profile"] == EncodeSoilProfile(d.soilProfile)
    && "groundwater_depth" in m && m["groundwater_depth"] == OptionalNumberJson(d.groundwaterDepth)
    && "test_results" in m && m["test_results"] == EncodeTestResults(d.testResults)
    && "confidence" in m && m["confidence"] == Str(d.confidence)
    && "recommendations" in m && m["recommendations"] == RecommendationsJson(d.recommendations)
    && "hazards" in m && m["hazards"] == HazardsJson(d.hazards)
    && "slope_angle" in m && m["slope_angle"] == OptionalNumberJson(d.slopeAngle)
    && "lake_proximity" in m && m["lake_proximity"] == OptionalNumberJson(d.lakeProximity)
  }

  lemma SummaryEncodingLookups(d: DocumentSummary)
    ensures IsSummaryEncoding(EncodeDocumentSummary(d).fields, d)
  {
  }

  lemma RecommendationsFieldRoundTrip(m: Fields, xs: Option<seq<string>>)
    requires "recommendations" in m && m["recommendations"] == RecommendationsJson(xs)
    ensures DecodeRecommendations(m) == Success(xs)
  {
    if xs.Some? {
      RecommendationsRoundTrip(xs.value);
    }
  }

  lemma HazardsFieldRoundTrip(m: Fields, h: Option<HazardInfo>)
    requires "hazards" in m && m["hazards"] == HazardsJson(h)
    ensures DecodeHazards(m) == Success(h)
  {
    if h.Some? {
      HazardInfoRoundTrip(h.value);
    }
  }

  lemma RequiredStringField(m: Fields, key: string, x: string)
    requires key in m && m[key] == Str(x)
    ensures RequiredString(m, key) == Success(x)
  {
  }

  lemma OptionalNumberField(m: Fields, key: string, x: Option<real>)
    requires key in m && m[key] == OptionalNumberJson(x)
    ensures OptionalNumber(m, key) == Success(x)
  {
  }

  lemma EncodingFieldsDecode(m: Fields, d: DocumentSummary)
    requires IsSummaryEncoding(m, d)
    ensures SummaryFieldsDecodeTo(m, d)
  {
    RequiredStringField(m, "doc_type", d.docType);
    ProjectInfoRoundTrip(d.projectInfo);
    SoilProfileRoundTrip(d.soilProfile);
    OptionalNumberField(m, "groundwater_depth", d.groundwaterDepth);
    TestResultsRoundTrip(d.testResults);
    RequiredStringField(m, "confidence", d.confidence);
    RecommendationsFieldRoundTrip(m, d.recommendations);
    HazardsFieldRoundTrip(m, d.hazards);
    OptionalNumberField(m, "slope_angle", d.slopeAngle);
    OptionalNumberField(m, "lake_proximity", d.lakeProximity);
  }

  lemma DocumentSummaryRoundTrip(d: DocumentSummary)
    ensures DecodeDocumentSummary(EncodeDocumentSummary(d)) == Success(d)
  {
    var m := EncodeDocumentSummary(d).fields;
    SummaryEncodingLookups(d);
    EncodingFieldsDecode(m, d);
    DocumentSummaryFieldwise(m, d);
  }

  lemma ReportRoundTrip(r: Report)
    ensures DecodeReport(EncodeReport(r)) == Success(r)
  {
  }

  // ---------------------------------------------------------------------------
  // Required and optional fields

  /** Field(...) and Optional fields of SoilLayer: validation succeeds exactly when the three
      required fields are present with the right shape and strength is absent, null or a
      number; an absent strength gives None. */
  lemma SoilLayerFields(m: Fields)
    ensures DecodeSoilLayer(Object(m)).Success? <==>
      && "depth_start" in m && m["depth_start"].Number?
      && "depth_end" in m && m["depth_end"].Number?
      && "soil_type" in m && m["soil_type"].Str?
      && ("strength" in m ==> m["strength"].Null? || m["strength"].Number?)
    ensures "depth_start" !in m ==> DecodeSoilLayer(Object(m)) == Failure(Missing("depth_start"))
    ensures DecodeSoilLayer(Object(m)).Success? ==>
      && DecodeSoilLayer(Object(m)).value.depthStart == m["depth_start"].n
      && DecodeSoilLayer(Object(m)).value.depthEnd == m["depth_end"].n
      && DecodeSoilLayer(Object(m)).value.soilType == m["soil_type"].s
      && ("strength" !in m ==> DecodeSoilLayer(Object(m)).value.strength == None)
  {
  }

  /** ProjectInfo requires location; an absent client or date gives None. */
  lemma ProjectInfoFields(m: Fields)
    ensures DecodeProjectInfo(Object(m)).Success? <==>
      && "location" in m && m["location"].Str?
      && ("client" in m ==> m["client"].Null? || m["client"].Str?)
      && ("date" in m ==> m["date"].Null? || m["date"].Str?)
    ensures "location" !in m ==> DecodeProjectInfo(Object(m)) == Failure(Missing("location"))
    ensures DecodeProjectInfo(Object(m)).Success? ==>
      && DecodeProjectInfo(Object(m)).value.location == m["location"].s
      && ("client" !in m ==> DecodeProjectInfo(Object(m)).value.client == None)
      && ("date" !in m ==> DecodeProjectInfo(Object(m)).value.date == None)
  {
  }

  /** Every HazardInfo field is optional: an empty object validates, to all None. */
  lemma HazardInfoEmpty()
    ensures DecodeHazardInfo(Object(map[])) == Success(HazardInfo(None, None, None, None, None))
  {
  }

  /** The keys DocumentSummary declares with Field(...). */
  const SummaryRequiredKeys: set<string> := {"doc_type", "project_info", "soil_profile", "test_results", "confidence"}

  /** DocumentSummary fails without any of its five required fields (test_results has no
      default), and an absent optional field gives None. */
  lemma DocumentSummaryFields(m: Fields)
    ensures (exists k :: k in SummaryRequiredKeys && k !in m) ==> DecodeDocumentSummary(Object(m)).Failure?
    ensures DecodeDocumentSummary(Object(m)).Success? ==>
      var d := DecodeDocumentSummary(Object(m)).value;
      && ("groundwater_depth" !in m ==> d.groundwaterDepth == None)
      && ("recommendations" !in m ==> d.recommendations == None)
      && ("hazards" !in m ==> d.hazards == None)
      && ("slope_angle" !in m ==> d.slopeAngle == None)
      && ("lake_proximity" !in m ==> d.lakeProximity == None)
  {
  }

  /** The keys Report declares, all with Field(...). */
  const ReportKeys: set<string> :=
    {"report_type", "executive_summary", "site_description", "methodology", "findings", "recommendations"}

  /** A Report validates exactly when all six fields are present as strings. */
  lemma ReportFields(m: Fields)
    ensures DecodeReport(Object(m)).Success? <==> forall k :: k in ReportKeys ==> k in m && m[k].Str?
    ensures DecodeReport(Object(m)).Success? ==>
      DecodeReport(Object(m)).value == Report(m["report_type"].s, m["executive_summary"].s,
        m["site_description"].s, m["methodology"].s, m["findings"].s, m["recommendations"].s)
  {
  }

  /** Keys a Report does not declare are ignored. */
  lemma ReportIgnoresExtraKeys(m: Fields, extra: Fields)
    requires forall k :: k in extra ==> k !in ReportKeys
    ensures DecodeReport(Object(m + extra)) == DecodeReport(Object(m))
  {
  }

  // ---------------------------------------------------------------------------
  // The example output embedded in the analysis prompt (prompts.py:63)

  const WorkedExample: Json := Object(map[
    "doc_type" := Str("Feasibility Report"),
    "project_info" := Object(map[
      "location" := Str("8807 SE 55th Pl, Mercer Island, WA 98040"),
      "client" := Null,
      "date" := Null]),
    "soil_profile" := Array([]),
    "groundwater_depth" := Null,
    "test_results" := Object(map[]),
    "confidence" := Str("Medium - missing geotechnical data but hazard analysis and recommendations provided"),
    "recommendations" := Array([Str("Conduct shallow borings to confirm soil type"),
                                Str("Verify soil bearing capacity with CPT")]),
    "hazards" := Object(map[
      "erosion" := Str("Not Present"),
      "slide" := Str("Not Present"),
      "seismic" := Str("Not Present"),
      "steep_slope" := Str("Not Present"),
      "watercourse_buffer" := Str("Not Present")]),
    "slope_angle" := Number(0.00),
    "lake_proximity" := Number(763.7)])

  const WorkedExampleSummary: DocumentSummary := DocumentSummary(
    "Feasibility Report",
    ProjectInfo("8807 SE 55th Pl, Mercer Island, WA 98040", None, None),
    [],
    None,
    map[],
    "Medium - missing geotechnical data but hazard analysis and recommendations provided",
    Some(["Conduct shallow borings to confirm soil type", "Verify soil bearing capacity with CPT"]),
    Some(HazardInfo(Some("Not Present"), Some("Not Present"), Some("Not Present"), Some("Not Present"), Some("Not Present"))),
    Some(0.0),
    Some(763.7))

  /** The worked example holds, key by key, what WorkedExampleSummary serialises to. */
  lemma WorkedExampleFields()
    ensures IsSummaryEncoding(WorkedExample.fields, WorkedExampleSummary)
  {
    var m := WorkedExample.fields;
    var d := WorkedExampleSummary;
    assert m["soil_profile"] == EncodeSoilProfile(d.soilProfile) by {
      assert EncodeSoilProfile([]).items == [];
    }
    assert m["test_results"] == EncodeTestResults(d.testResults) by {
      assert EncodeTestResults(map[]).fields == map[];
    }
    assert m["recommendations"] == RecommendationsJson(d.recommendations) by {
      assert StringsJson(d.recommendations.value).items == m["recommendations"].items;
    }
  }

  /** The example the analysis prompt shows the model is itself a valid DocumentSummary, with
      an empty soil profile and empty test results. */
  lemma WorkedExampleValidates()
    ensures DecodeDocumentSummary(WorkedExample) == Success(WorkedExampleSummary)
    ensures WorkedExampleSummary.soilProfile == [] && WorkedExampleSummary.testResults == map[]
  {
    WorkedExampleFields();
    EncodingFieldsDecode(WorkedExample.fields, WorkedExampleSummary);
    DocumentSummaryFieldwise(WorkedExample.fields, WorkedExampleSummary);
  }
}
