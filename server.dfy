/** The analysis server: the diagnosis of an image is read off the best
    match of its embedding in the vector index, the matches are shaped into
    the response, base64 uploads lose their data-URL prefix, and requests
    without input are turned away. The embedding model, the image decoding
    and the index query are parameters; the embedding model is cached once
    loaded. Scores are exact reals. */
module Server {
  import opened Wrappers
  import opened Types
  import Embedding
  import Consultation
  import Prompts
  import opened Text

  /* --------------------------------------------------------- diagnosis map */

  datatype DiagnosisInfo = DiagnosisInfo(name: string, color: string, recommendation: string)

  const Warning: string := "\U{26A0}\U{FE0F}"

  /** The diagnosis map, keyed by the dataset's diagnosis codes. */
  const DiagnosisMap: map<string, DiagnosisInfo> := map[
    "nv" := DiagnosisInfo("Melanocytic Nevus (Benign)", "#10b981",
      "Common benign mole. Monitor for changes in size, shape, or color. Regular skin checks recommended."),
    "bkl" := DiagnosisInfo("Benign Keratosis", "#3b82f6",
      "Benign lesion, typically age-related. No immediate concern, but regular monitoring advised."),
    "df" := DiagnosisInfo("Dermatofibroma", "#8b5cf6",
      "Benign fibrous growth. Generally harmless but can be removed if bothersome."),
    "vasc" := DiagnosisInfo("Vascular Lesion", "#ec4899",
      "Benign vascular growth. Consult dermatologist for cosmetic concerns or if changes occur."),
    "bcc" := DiagnosisInfo("Basal Cell Carcinoma", "#f59e0b",
      Warning + " Most common skin cancer. Schedule immediate dermatologist appointment for biopsy and treatment."),
    "akiec" := DiagnosisInfo("Actinic Keratosis", "#f97316",
      Warning + " Precancerous lesion. Requires dermatologist evaluation and treatment to prevent progression."),
    "mel" := DiagnosisInfo("Melanoma", "#ef4444",
      Warning + Warning + " Potentially serious. IMMEDIATE dermatologist consultation required. Early detection is critical.")
  ]

  /** `diagnosisMap[code] || diagnosisMap['nv']` */
  function LookUp(code: string): DiagnosisInfo {
    if code in DiagnosisMap then DiagnosisMap[code] else DiagnosisMap["nv"]
  }

  /* --------------------------------------------------------------- matches */

  /** The metadata the vectorizer stored with a vector. */
  datatype MatchMetadata = MatchMetadata(
    diagnosis: Option<string>,
    age: Option<string>,
    sex: Option<string>,
    localization: Option<string>)

  /** One hit of the index query, best first. */
  datatype Match = Match(id: string, score: Option<real>, metadata: Option<MatchMetadata>)

  datatype TopMatch = TopMatch(topMatchId: string, diagnosisCode: string, similarity: real)

  datatype AnalysisResult = AnalysisResult(
    diagnosis: string,
    confidence: int,
    color: string,
    recommendation: string,
    similarCases: seq<SimilarCase>,
    metadata: Option<TopMatch>)

  /** `match.score || 0` */
  function ScoreOf(m: Match): real {
    m.score.GetOr(0.0)
  }

  /** `Math.round(x * 100)`: halves round up. */
  function Percent(x: real): (p: int)
    ensures p as real <= x * 100.0 + 0.5 < p as real + 1.0
  {
    (x * 100.0 + 0.5).Floor
  }

  function DiagnosisOf(m: Match): Option<string> {
    if m.metadata.Some? then m.metadata.value.diagnosis else None
  }

  /** `metadata?.diagnosis || 'nv'` */
  function DiagnosisCode(m: Match): (code: string)
    ensures code != []
  {
    var d := DiagnosisOf(m);
    if d.Some? && d.value != [] then d.value else "nv"
  }

  /** One entry of `similarCases`. */
  function CaseOf(m: Match): (c: SimilarCase)
    ensures c.imageId == m.id && c.similarity == Percent(ScoreOf(m))
    ensures c.diagnosis == DiagnosisOf(m)
  {
    var md := m.metadata;
    SimilarCase(m.id, Percent(ScoreOf(m)), DiagnosisOf(m),
                if md.Some? then md.value.age else None,
                if md.Some? then md.value.sex else None,
                if md.Some? then md.value.localization else None)
  }

  /** `matches.map(...)`, in rank order. */
  function Shape(ms: seq<Match>): (r: seq<SimilarCase>)
    ensures |r| == |ms|
    ensures forall i :: 0 <= i < |ms| ==> r[i] == CaseOf(ms[i])
  {
    if |ms| == 0 then [] else [CaseOf(ms[0])] + Shape(ms[1..])
  }

  const MaxCases: nat := 5

  function Min(a: nat, b: nat): nat {
    if a <= b then a else b
  }

  /** `matches.slice(0, 5).map(...)` */
  function TopCases(ms: seq<Match>): (r: seq<SimilarCase>)
    ensures |r| == Min(MaxCases, |ms|)
    ensures forall i :: 0 <= i < |r| ==> r[i] == CaseOf(ms[i])
  {
    Shape(ms[..Min(MaxCases, |ms|)])
  }

  /** The fixed answer when the index returns nothing. */
  const NoMatch: AnalysisResult := AnalysisResult(
    "Unable to determine", 0, "#gray-500",
    "No similar cases found in database. Please consult a dermatologist.", [], None)

  /** The response of the analysis endpoints for the matches of a query. */
  function Analysis(matches: Option<seq<Match>>): (r: AnalysisResult)
    ensures r == NoMatch <==> matches.None? || |matches.value| == 0
    ensures matches.Some? && |matches.value| > 0 ==>
      var top := matches.value[0];
      r.confidence == Percent(ScoreOf(top)) &&
      r.metadata == Some(TopMatch(top.id, DiagnosisCode(top), ScoreOf(top))) &&
      r.similarCases == TopCases(matches.value)
  {
    if matches.None? || |matches.value| == 0 then NoMatch
    else
      var top := matches.value[0];
      var info := LookUp(DiagnosisCode(top));
      AnalysisResult(info.name, Percent(ScoreOf(top)), info.color, info.recommendation,
                     TopCases(matches.value), Some(TopMatch(top.id, DiagnosisCode(top), ScoreOf(top))))
  }

  /* ------------------------------------------------------------- data URLs */

  const DataUrlStart: string := "data:image/"
  const Base64Mark: string := ";base64,"


  ghost predicate IsWord(w: string) {
    |w| > 0 && forall k :: 0 <= k < |w| ==> IsWordChar(w[k])
  }

  /** The end of the run of word characters from `i`. */
  function WordEnd(s: string, i: nat): (e: nat)
    requires i <= |s|
    ensures i <= e <= |s|
    ensures forall k :: i <= k < e ==> IsWordChar(s[k])
    ensures e < |s| ==> !IsWordChar(s[e])
    decreases |s| - i
  {
    if i < |s| && IsWordChar(s[i]) then WordEnd(s, i + 1) else i
  }

  /** `s` is `data:image/<w>;base64,` followed by `rest`. */
  ghost predicate DataUrl(s: string, w: string, rest: string) {
    IsWord(w) && s == DataUrlStart + w + Base64Mark + rest
  }

  /** `image.replace(/^data:image\/\w+;base64,/, '')` */
  function StripDataUrl(s: string): (r: string)
    ensures |r| <= |s| && r == s[|s| - |r|..]
  {
    if |s| >= |DataUrlStart| && s[..|DataUrlStart|] == DataUrlStart then
      var e := WordEnd(s, |DataUrlStart|);
      if e > |DataUrlStart| && e + |Base64Mark| <= |s| && s[e..e + |Base64Mark|] == Base64Mark
      then s[e + |Base64Mark|..]
      else s
    else s
  }

  /* ---------------------------------------------------------------- routes */

  /** A JSON body, or an error status with `error` and optional `message`. */
  datatype Reply<B> = Json(body: B) | Fail(status: int, error: string, message: Option<string>)

  const NoImage: string := "No image provided"
  const AnalysisFailed: string := "Analysis failed"
  const NoDiagnosis: string := "Diagnosis result required"
  const ConsultationFailed: string := "Consultation failed"

  /** The handler's ending for the outcome of embedding and querying. */
  function AnalysisReply(outcome: Result<Option<seq<Match>>, Err>): (r: Reply<AnalysisResult>)
    ensures outcome.Success? ==> r == Json(Analysis(outcome.value))
    ensures outcome.Failure? ==> r == Fail(500, AnalysisFailed, Some(ErrorMessage(outcome.error)))
  {
    match outcome
    case Success(ms) => Json(Analysis(ms))
    case Failure(e) => Fail(500, AnalysisFailed, Some(ErrorMessage(e)))
  }

  /** `POST /api/analyze`: `search` stands for embedding the uploaded file
      and querying the index. */
  function AnalyzeUpload<F>(file: Option<F>, search: F -> Result<Option<seq<Match>>, Err>): Reply<AnalysisResult> {
    if file.None? then Fail(400, NoImage, None) else AnalysisReply(search(file.value))
  }

  /** `POST /api/analyze-base64`: `search` stands for decoding the payload,
      embedding it and querying the index. */
  function AnalyzeBase64(image: Option<string>, search: string -> Result<Option<seq<Match>>, Err>): Reply<AnalysisResult> {
    if image.None? || image.value == [] then Fail(400, NoImage, None)
    else AnalysisReply(search(StripDataUrl(image.value)))
  }

  /** The handler's ending for the outcome of a consultation. */
  function ConsultationReply(outcome: Result<ConsultationResponse, Err>): (r: Reply<ConsultationResponse>)
    ensures outcome.Success? ==> r == Json(outcome.value)
    ensures outcome.Failure? ==> r == Fail(500, ConsultationFailed, Some(ErrorMessage(outcome.error)))
  {
    match outcome
    case Success(c) => Json(c)
    case Failure(e) => Fail(500, ConsultationFailed, Some(ErrorMessage(e)))
  }

  /** `POST /api/consultation`: without a diagnosis result the request is
      refused before any model is asked; otherwise the consultation runs and
      its outcome is the reply. `calls` lists the personas asked. */
  method HandleConsultation(slot: Consultation.ClientSlot, key: Option<string>, invoke: Consultation.Model,
                            dr: Option<DiagnosisResult>, pc: Option<PatientContext>, elapsed: int)
    returns (reply: Reply<ConsultationResponse>, calls: seq<Prompts.Persona>)
    modifies slot
    ensures dr.None? ==> reply == Fail(400, NoDiagnosis, None) && calls == [] && slot.client == old(slot.client)
    ensures dr.Some? ==>
      var ready := old(slot.client).Some? || Consultation.KeyGiven(key);
      var input := Prompts.FormatInputForAgent(dr.value, pc);
      reply == ConsultationReply(Consultation.Consult(ready, invoke, dr.value, input, elapsed)) &&
      calls == Consultation.Calls(ready, invoke, input) &&
      slot.client == Consultation.Acquire(old(slot.client), key).slot
  {
    if dr.None? {
      return Fail(400, NoDiagnosis, None), [];
    }
    var outcome;
    outcome, calls := Consultation.RunConsultation(slot, key, invoke, dr.value, pc, elapsed);
    reply := ConsultationReply(outcome);
  }

  /* -------------------------------------------------------- embedding model */

  /** The module-level `embeddingModel` of the server. `attempt` is what
      building the pipeline would give; it is used only when nothing is
      cached. */
  class ModelCache<M> {
    var model: Option<M>

    constructor()
      ensures model.None?
    {
      model := None;
    }

    /** `loadEmbeddingModel`: the cached model, or a fresh one that is kept;
        a failed build leaves the cache empty. */
    method Load(attempt: Result<M, Err>) returns (r: Result<M, Err>)
      modifies this
      ensures old(model).Some? ==> r == Success(old(model).value) && model == old(model)
      ensures old(model).None? ==> r == attempt && model == (if attempt.Success? then Some(attempt.value) else None)
    {
      if model.Some? {
        return Success(model.value);
      }
      if attempt.Failure? {
        return attempt;
      }
      model := Some(attempt.value);
      r := attempt;
    }
  }

  /** `generateEmbedding`: the model is loaded (or the load error thrown),
      `extract` stands for running it on the preprocessed image, and the
      vector is normalised. */
  method GenerateEmbedding<M, T>(cache: ModelCache<M>, attempt: Result<M, Err>,
                                 extract: M -> Result<seq<T>, Err>, scale: T -> T, zero: T)
    returns (r: Result<seq<T>, Err>)
    modifies cache
    ensures var loaded := if old(cache.model).Some? then Success(old(cache.model).value) else attempt;
      r == (if loaded.Failure? then Failure(loaded.error)
            else if extract(loaded.value).Failure? then Failure(extract(loaded.value).error)
            else Success(Embedding.Normalized(extract(loaded.value).value, scale, zero)))
    ensures r.Success? ==> |r.value| == Embedding.Dimension
  {
    var loaded := cache.Load(attempt);
    if loaded.Failure? {
      return Failure(loaded.error);
    }
    var raw := extract(loaded.value);
    if raw.Failure? {
      return Failure(raw.error);
    }
    var v := Embedding.NormalizeForServer(raw.value, scale, zero);
    r := Success(v);
  }

  /* ---------------------------------------------------------------- lemmas */

  /** The map knows exactly the seven diagnosis codes of the dataset. */
  lemma DiagnosisCodes()
    ensures DiagnosisMap.Keys == {"nv", "bkl", "df", "vasc", "bcc", "akiec", "mel"}
  {
  }

  /** The top match decides the diagnosis: a missing or empty diagnosis is
      read as `nv`, an unknown one is shown as `nv`, and the metadata keeps
      the code as found. */
  lemma AnalysisOfTop(ms: seq<Match>)
    requires |ms| > 0
    ensures var r := Analysis(Some(ms));
      var info := LookUp(DiagnosisCode(ms[0]));
      r.diagnosis == info.name && r.color == info.color && r.recommendation == info.recommendation &&
      r.metadata.value.diagnosisCode == DiagnosisCode(ms[0])
    ensures DiagnosisOf(ms[0]) == None || DiagnosisOf(ms[0]) == Some([]) ==>
      Analysis(Some(ms)).metadata.value.diagnosisCode == "nv" && Analysis(Some(ms)).diagnosis == DiagnosisMap["nv"].name
    ensures DiagnosisOf(ms[0]).Some? && DiagnosisOf(ms[0]).value != [] ==>
      Analysis(Some(ms)).metadata.value.diagnosisCode == DiagnosisOf(ms[0]).value
  {
  }

  /** An unknown code is shown with the name, colour and advice of `nv`
      while the metadata reports the code the index returned. */
  lemma UnknownCodeShownAsNevus(ms: seq<Match>)
    requires |ms| > 0
    requires DiagnosisCode(ms[0]) !in DiagnosisMap
    ensures var r := Analysis(Some(ms));
      r.diagnosis == DiagnosisMap["nv"].name && r.color == DiagnosisMap["nv"].color &&
      r.recommendation == DiagnosisMap["nv"].recommendation &&
      r.metadata.value.diagnosisCode == DiagnosisCode(ms[0])
  {
  }

  /** At most five similar cases, the best matches in rank order; a match
      without a score counts as 0% similar. */
  lemma SimilarCasesRanked(ms: seq<Match>, i: nat)
    requires i < |Analysis(Some(ms)).similarCases|
    ensures |Analysis(Some(ms)).similarCases| <= MaxCases && i < |ms|
    ensures Analysis(Some(ms)).similarCases[i].imageId == ms[i].id
    ensures ms[i].score.None? ==> Analysis(Some(ms)).similarCases[i].similarity == 0
  {
    var r := Analysis(Some(ms));
    assert |ms| > 0 && r.similarCases == TopCases(ms);
  }

  /** A score between 0 and 1 is a percentage between 0 and 100. */
  lemma PercentBounds(x: real)
    requires 0.0 <= x <= 1.0
    ensures 0 <= Percent(x) <= 100
  {
  }

  /** The prefix is removed when the string starts with it. */
  lemma StripsDataUrl(s: string, w: string, rest: string)
    requires DataUrl(s, w, rest)
    ensures StripDataUrl(s) == rest
  {
    var n := |DataUrlStart|;
    assert s[..n] == DataUrlStart;
    assert forall k :: n <= k < n + |w| ==> s[k] == w[k - n];
    assert s[n + |w|] == ';';
    WordEndAt(s, n, n + |w|);
    assert s[n + |w|..n + |w| + |Base64Mark|] == Base64Mark;
    assert s[n + |w| + |Base64Mark|..] == rest;
  }

  lemma {:induction false} WordEndAt(s: string, i: nat, e: nat)
    requires i <= e < |s|
    requires forall k :: i <= k < e ==> IsWordChar(s[k])
    requires !IsWordChar(s[e])
    ensures WordEnd(s, i) == e
    decreases e - i
  {
    if i < e {
      WordEndAt(s, i + 1, e);
    }
  }

  /** Any other string is left as it is: whatever the strip changes began
      with a data-URL prefix, and only that prefix is gone. */
  lemma StripChangesOnlyDataUrls(s: string)
    requires StripDataUrl(s) != s
    ensures exists w :: DataUrl(s, w, StripDataUrl(s))
  {
    var n := |DataUrlStart|;
    var e := WordEnd(s, n);
    var w := s[n..e];
    var m := e + |Base64Mark|;
    var rest := s[m..];
    assert s[..e] == s[..n] + w;
    assert s[..m] == s[..e] + s[e..m];
    assert s == s[..m] + rest;
    assert rest == StripDataUrl(s);
    assert s[..n] == DataUrlStart && s[e..m] == Base64Mark;
    assert s == DataUrlStart + w + Base64Mark + rest;
    assert DataUrl(s, w, rest);
  }

  /** Without an image the request is refused, whatever the index would
      answer. */
  lemma NoImageRefused<F>(file: Option<F>, image: Option<string>,
                          search: F -> Result<Option<seq<Match>>, Err>,
                          searchText: string -> Result<Option<seq<Match>>, Err>)
    ensures file.None? <==> AnalyzeUpload(file, search) == Fail(400, NoImage, None)
    ensures image.None? || image.value == [] <==> AnalyzeBase64(image, searchText) == Fail(400, NoImage, None)
  {
  }

  /** A base64 upload is searched without its data-URL prefix. */
  lemma Base64Searched(image: string, search: string -> Result<Option<seq<Match>>, Err>)
    requires image != []
    ensures AnalyzeBase64(Some(image), search) == AnalysisReply(search(StripDataUrl(image)))
  {
  }
}
