/**
 * The AI endpoints (backend/app/api/v1/endpoints/ai.py): description
 * optimisation, summary generation and CV scoring. The language-model calls
 * themselves are parameters; what is modelled is the ownership check, the
 * data handed to the model, the tone fallback and the mapping of the
 * service's exceptions to HTTP statuses.
 */
module Ai {
  import opened Wrappers
  import opened Http
  import opened Store

  const CvNotFound := "CV not found"
  const NotConfiguredPrefix := "AI service not configured: "
  const OptimizeFailedPrefix := "Failed to optimize text: "
  const SummaryFailedPrefix := "Failed to generate summary: "
  const ScoreFailedPrefix := "Failed to score CV: "
  const DefaultTone := "professional"

  /**
   * The three endpoints' shared `except` chain: ConnectionError answers 503
   * with its message, ValueError 503 as a configuration problem, anything
   * else 500 with the endpoint's own prefix.
   */
  function AiError(e: Exception, failurePrefix: string): HttpError
  {
    match e
    case ConnectionError(m) => Fail(ServiceUnavailable, m)
    case ValueError(m) => Fail(ServiceUnavailable, NotConfiguredPrefix + m)
    case RuntimeError(m) => Fail(InternalServerError, failurePrefix + m)
    case OtherError(m) => Fail(InternalServerError, failurePrefix + m)
  }

  /** 503 exactly for connection and configuration errors, 500 for every other exception; the message is kept. */
  lemma AiErrorStatus(e: Exception, failurePrefix: string)
    ensures AiError(e, failurePrefix).status == ServiceUnavailable <==> (e.ConnectionError? || e.ValueError?)
    ensures AiError(e, failurePrefix).status == InternalServerError <==> (e.RuntimeError? || e.OtherError?)
    ensures AiError(e, failurePrefix).headers == map[]
    ensures e.ConnectionError? ==> AiError(e, failurePrefix).detail == e.message
    ensures e.ValueError? ==> AiError(e, failurePrefix).detail == NotConfiguredPrefix + e.message
    ensures (e.RuntimeError? || e.OtherError?) ==> AiError(e, failurePrefix).detail == failurePrefix + e.message
  {
  }

  datatype OptimizeRequest = OptimizeRequest(originalText: string, fieldType: string, context: map<string, string>)
  datatype OptimizeResponse = OptimizeResponse(original: string, optimized: string)

  /** `optimize_description`, with the service call `optimize`. */
  function OptimizeDescription(
    req: OptimizeRequest, optimize: (string, string, map<string, string>) -> Result<string, Exception>)
    : (r: Result<OptimizeResponse, HttpError>)
    ensures r.Ok? <==> optimize(req.originalText, req.fieldType, req.context).Ok?
    ensures r.Ok? ==> r.value.original == req.originalText
    ensures r.Ok? ==> r.value.optimized == optimize(req.originalText, req.fieldType, req.context).value
    ensures r.Err? ==> r.error == AiError(optimize(req.originalText, req.fieldType, req.context).error, OptimizeFailedPrefix)
  {
    match optimize(req.originalText, req.fieldType, req.context)
    case Ok(text) => Ok(OptimizeResponse(req.originalText, text))
    case Err(e) => Err(AiError(e, OptimizeFailedPrefix))
  }

  /** `request.tone or "professional"`. */
  function Tone(tone: Option<string>): (r: string)
    ensures r == DefaultTone <==> (tone.None? || tone.value == [] || tone.value == DefaultTone)
    ensures r != DefaultTone ==> tone == Some(r)
  {
    if tone.Some? && tone.value != [] then tone.value else DefaultTone
  }

  /** The columns of an entry, none when there is no such entry. */
  function EntryColumns(entries: map<int, EntryRow>, id: int): Columns
  {
    if id in entries then entries[id].columns else map[]
  }

  /** The `cv_data` of `generate_summary`: one record per entry, in relationship order. */
  datatype SummaryWork = SummaryWork(position: Value, company: Value, description: Value)
  datatype SummaryEducation = SummaryEducation(degree: Value, institution: Value, fieldOfStudy: Value)
  datatype SummaryData = SummaryData(
    workExperiences: seq<SummaryWork>, educations: seq<SummaryEducation>, skills: seq<Value>)

  function SummaryDataOf(entries: map<int, EntryRow>, cvId: int, n: nat): (d: SummaryData)
    ensures |d.workExperiences| == |EntriesOf(entries, cvId, WorkKind, n)|
    ensures |d.educations| == |EntriesOf(entries, cvId, EducationKind, n)|
    ensures |d.skills| == |EntriesOf(entries, cvId, SkillKind, n)|
  {
    var work := EntriesOf(entries, cvId, WorkKind, n);
    var edu := EntriesOf(entries, cvId, EducationKind, n);
    var skills := EntriesOf(entries, cvId, SkillKind, n);
    SummaryData(
      seq(|work|, i requires 0 <= i < |work| =>
        var c := EntryColumns(entries, work[i]);
        SummaryWork(Column(c, "position"), Column(c, "company"), Column(c, "description"))),
      seq(|edu|, i requires 0 <= i < |edu| =>
        var c := EntryColumns(entries, edu[i]);
        SummaryEducation(Column(c, "degree"), Column(c, "institution"), Column(c, "field_of_study"))),
      seq(|skills|, i requires 0 <= i < |skills| => Column(EntryColumns(entries, skills[i]), "name")))
  }

  /** `generate_summary`, with the service call `generate`: 404 for a CV that is not the caller's. */
  function GenerateSummary(
    cvs: map<int, CvRow>, entries: map<int, EntryRow>, nextId: nat, caller: int,
    cvId: int, tone: Option<string>, generate: (SummaryData, string) -> Result<string, Exception>)
    : (r: Result<string, HttpError>)
    ensures (r.Err? && r.error.status == NotFound) <==> !(cvId in cvs && cvs[cvId].owner == caller)
    ensures !(cvId in cvs && cvs[cvId].owner == caller) ==> r == Err(Fail(NotFound, CvNotFound))
    ensures cvId in cvs && cvs[cvId].owner == caller ==>
      (r.Ok? <==> generate(SummaryDataOf(entries, cvId, nextId), Tone(tone)).Ok?)
    ensures r.Ok? ==> r.value == generate(SummaryDataOf(entries, cvId, nextId), Tone(tone)).value
    ensures cvId in cvs && cvs[cvId].owner == caller && r.Err? ==>
      r.error == AiError(generate(SummaryDataOf(entries, cvId, nextId), Tone(tone)).error, SummaryFailedPrefix)
  {
    if !(cvId in cvs && cvs[cvId].owner == caller) then Err(Fail(NotFound, CvNotFound))
    else match generate(SummaryDataOf(entries, cvId, nextId), Tone(tone))
      case Ok(summary) => Ok(summary)
      case Err(e) => Err(AiError(e, SummaryFailedPrefix))
  }

  /** The `cv_data` of `score_cv`: contact flags and per-entry flags instead of the raw values. */
  datatype General = General(title: Value, summary: Value, hasPhone: bool, hasLocation: bool, hasEmail: bool)
  datatype ScoredWork = ScoredWork(position: Value, company: Value, description: Value, hasDates: bool, hasLocation: bool)
  datatype ScoredEducation = ScoredEducation(degree: Value, institution: Value, fieldOfStudy: Value, hasDates: bool)
  datatype ScoredProject = ScoredProject(name: Value, description: Value, technologies: Value, hasUrl: bool)
  datatype ScoreData = ScoreData(
    general: General, workExperiences: seq<ScoredWork>, educations: seq<ScoredEducation>,
    skills: seq<Value>, projects: seq<ScoredProject>)

  function ScoredWorkOf(c: Columns): ScoredWork
  {
    ScoredWork(Column(c, "position"), Column(c, "company"), Column(c, "description"),
      Truthy(Column(c, "start_date")), Truthy(Column(c, "location")))
  }

  function ScoredEducationOf(c: Columns): ScoredEducation
  {
    ScoredEducation(Column(c, "degree"), Column(c, "institution"), Column(c, "field_of_study"),
      Truthy(Column(c, "start_date")))
  }

  function ScoredProjectOf(c: Columns): ScoredProject
  {
    ScoredProject(Column(c, "name"), Column(c, "description"), Column(c, "technologies"),
      Truthy(Column(c, "url")) || Truthy(Column(c, "github_url")))
  }

  function ScoreDataOf(row: CvRow, entries: map<int, EntryRow>, cvId: int, n: nat): ScoreData
  {
    var work := EntriesOf(entries, cvId, WorkKind, n);
    var edu := EntriesOf(entries, cvId, EducationKind, n);
    var skills := EntriesOf(entries, cvId, SkillKind, n);
    var projects := EntriesOf(entries, cvId, ProjectKind, n);
    ScoreData(
      General(Column(row.columns, "title"), Column(row.columns, "summary"),
        Truthy(Column(row.columns, "phone")), Truthy(Column(row.columns, "location")),
        Truthy(Column(row.columns, "email"))),
      seq(|work|, i requires 0 <= i < |work| => ScoredWorkOf(EntryColumns(entries, work[i]))),
      seq(|edu|, i requires 0 <= i < |edu| => ScoredEducationOf(EntryColumns(entries, edu[i]))),
      seq(|skills|, i requires 0 <= i < |skills| => Column(EntryColumns(entries, skills[i]), "name")),
      seq(|projects|, i requires 0 <= i < |projects| => ScoredProjectOf(EntryColumns(entries, projects[i]))))
  }

  /**
   * The flags say exactly what the scorer is promised: a truthy phone,
   * location and email; a start date per work and education entry; a URL or
   * GitHub URL per project; one record per entry of the CV, in id order.
   */
  lemma ScoreFlags(row: CvRow, entries: map<int, EntryRow>, cvId: int, n: nat)
    ensures ScoreDataOf(row, entries, cvId, n).general.hasPhone <==> Truthy(Column(row.columns, "phone"))
    ensures ScoreDataOf(row, entries, cvId, n).general.hasLocation <==> Truthy(Column(row.columns, "location"))
    ensures ScoreDataOf(row, entries, cvId, n).general.hasEmail <==> Truthy(Column(row.columns, "email"))
    ensures |ScoreDataOf(row, entries, cvId, n).workExperiences| == |EntriesOf(entries, cvId, WorkKind, n)|
    ensures |ScoreDataOf(row, entries, cvId, n).educations| == |EntriesOf(entries, cvId, EducationKind, n)|
    ensures |ScoreDataOf(row, entries, cvId, n).projects| == |EntriesOf(entries, cvId, ProjectKind, n)|
    ensures forall i :: 0 <= i < |EntriesOf(entries, cvId, WorkKind, n)| ==>
      (ScoreDataOf(row, entries, cvId, n).workExperiences[i].hasDates <==> Truthy(Column(EntryColumns(entries, EntriesOf(entries, cvId, WorkKind, n)[i]), "start_date")))
    ensures forall i :: 0 <= i < |EntriesOf(entries, cvId, EducationKind, n)| ==>
      (ScoreDataOf(row, entries, cvId, n).educations[i].hasDates <==> Truthy(Column(EntryColumns(entries, EntriesOf(entries, cvId, EducationKind, n)[i]), "start_date")))
    ensures forall i :: 0 <= i < |EntriesOf(entries, cvId, ProjectKind, n)| ==>
      (ScoreDataOf(row, entries, cvId, n).projects[i].hasUrl <==> (Truthy(Column(EntryColumns(entries, EntriesOf(entries, cvId, ProjectKind, n)[i]), "url"))
              || Truthy(Column(EntryColumns(entries, EntriesOf(entries, cvId, ProjectKind, n)[i]), "github_url"))))
  {
  }

  /** `score_cv`, with the service call `score`: 404 for a CV that is not the caller's. */
  function ScoreCv<S>(
    cvs: map<int, CvRow>, entries: map<int, EntryRow>, nextId: nat, caller: int,
    cvId: int, score: ScoreData -> Result<S, Exception>)
    : (r: Result<S, HttpError>)
    ensures (r.Err? && r.error.status == NotFound) <==> !(cvId in cvs && cvs[cvId].owner == caller)
    ensures !(cvId in cvs && cvs[cvId].owner == caller) ==> r == Err(Fail(NotFound, CvNotFound))
    ensures cvId in cvs && cvs[cvId].owner == caller ==>
      (r.Ok? <==> score(ScoreDataOf(cvs[cvId], entries, cvId, nextId)).Ok?)
    ensures r.Ok? ==> r.value == score(ScoreDataOf(cvs[cvId], entries, cvId, nextId)).value
    ensures cvId in cvs && cvs[cvId].owner == caller && r.Err? ==>
      r.error == AiError(score(ScoreDataOf(cvs[cvId], entries, cvId, nextId)).error, ScoreFailedPrefix)
  {
    if !(cvId in cvs && cvs[cvId].owner == caller) then Err(Fail(NotFound, CvNotFound))
    else match score(ScoreDataOf(cvs[cvId], entries, cvId, nextId))
      case Ok(s) => Ok(s)
      case Err(e) => Err(AiError(e, ScoreFailedPrefix))
  }
}
