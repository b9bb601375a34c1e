/**
 * The backend's translation orchestration: the client of the in-house
 * English-to-Spanish microservice, the batch client of an external
 * translation API used for Spanish to English, and the service that picks
 * one of them by language direction. HTTP replies are parameters.
 */
module TranslationService {
  import opened Wrappers
  import opened Text
  import opened Http
  import opened CvPayload
  import opened TranslationFields
  import Microservice = TranslationMicroservice

  /** `_normalize_language`: empty stays empty; otherwise lower-cased, stripped, mapped through the alias table. */
  function NormalizeLanguage(lang: string): string
  {
    if lang == [] then []
    else
      var cleaned := PyStrip(Lower(lang));
      if cleaned in Microservice.Aliases then Microservice.Aliases[cleaned] else cleaned
  }

  /** The backend and the microservice normalise every language label alike. */
  lemma NormalizeLanguageAgrees(lang: string)
    ensures NormalizeLanguage(lang) == Microservice.NormalizeLanguage(lang)
  {
    if lang == [] {
      StripUnpadded(lang, IsPyWhitespace);
      assert Lower(PyStrip(lang)) == [];
    } else {
      LowerStripCommute(lang);
    }
  }

  /** `s.rstrip("/")`. */
  function StripTrailingSlashes(s: string): (r: string)
    ensures r == [] || r[|r| - 1] != '/'
    ensures |r| <= |s| && s[..|r|] == r && forall i :: |r| <= i < |s| ==> s[i] == '/'
  {
    TrimEnd(s, c => c == '/')
  }

  datatype CustomClient = CustomClient(baseUrl: string)
  datatype ExternalClient = ExternalClient(baseUrl: string, apiKey: string)

  const GoogleV2Endpoint := "https://translation.googleapis.com/language/translate/v2"

  /** `CustomTranslationClient(base_url)`: refused without a URL; trailing slashes dropped. */
  function NewCustomClient(baseUrl: string): (r: Result<CustomClient, Exception>)
    ensures r.Err? <==> baseUrl == []
    ensures r.Err? ==> r.error == ValueError("TRANSLATION_SERVICE_URL not configured")
    ensures r.Ok? ==> r.value.baseUrl == StripTrailingSlashes(baseUrl)
  {
    if baseUrl == [] then Err(ValueError("TRANSLATION_SERVICE_URL not configured"))
    else Ok(CustomClient(StripTrailingSlashes(baseUrl)))
  }

  /** `ExternalTranslationClient(base_url, api_key)`: refused without a key; the public endpoint when no URL is given. */
  function NewExternalClient(baseUrl: string, apiKey: string): (r: Result<ExternalClient, Exception>)
    ensures r.Err? <==> apiKey == []
    ensures r.Err? ==> r.error == ValueError("EXTERNAL_TRANSLATION_API_KEY not configured")
    ensures r.Ok? ==> (r.value.apiKey == apiKey
      && r.value.baseUrl == StripTrailingSlashes(if baseUrl == [] then GoogleV2Endpoint else baseUrl))
  {
    if apiKey == [] then Err(ValueError("EXTERNAL_TRANSLATION_API_KEY not configured"))
    else Ok(ExternalClient(StripTrailingSlashes(if baseUrl == [] then GoogleV2Endpoint else baseUrl), apiKey))
  }

  /** The three settings the service reads. */
  datatype TranslationSettings = TranslationSettings(serviceUrl: string, externalApiUrl: string, externalApiKey: string)

  datatype Service = Service(internal: Option<CustomClient>, external: Option<ExternalClient>)

  /** `TranslationService()`: each client is built only when its settings are present; a URL without a key is refused. */
  function NewService(s: TranslationSettings): Result<Service, Exception>
  {
    var internal := if s.serviceUrl != [] then Some(CustomClient(StripTrailingSlashes(s.serviceUrl))) else None;
    if s.externalApiUrl == [] && s.externalApiKey == [] then Ok(Service(internal, None))
    else match NewExternalClient(if s.externalApiUrl != [] then s.externalApiUrl else GoogleV2Endpoint, s.externalApiKey)
      case Err(e) => Err(e)
      case Ok(client) => Ok(Service(internal, Some(client)))
  }

  /** Which clients a service has, and when building it fails. */
  lemma NewServiceClients(s: TranslationSettings)
    ensures NewService(s).Err? <==> (s.externalApiUrl != [] && s.externalApiKey == [])
    ensures NewService(s).Ok? ==>
      (NewService(s).value.internal.Some? <==> s.serviceUrl != [])
      && (NewService(s).value.external.Some? <==> s.externalApiKey != [])
    ensures NewService(s).Ok? && s.serviceUrl != [] ==>
      NewService(s).value.internal == Some(CustomClient(StripTrailingSlashes(s.serviceUrl)))
  {
  }

  /** Where a request goes: one of the two clients with the normalised codes, or a refusal. */
  datatype Routing =
    | ToInternal(internal: CustomClient, source: string, target: string)
    | ToExternal(external: ExternalClient, source: string, target: string)
    | Refused(error: Exception)

  /** `TranslationService.translate_cv`, up to the client call. */
  function Route(service: Service, inputLanguage: string, outputLanguage: string): Routing
  {
    var source := NormalizeLanguage(inputLanguage);
    var target := NormalizeLanguage(outputLanguage);
    if source == "en" && target == "es" then
      if service.internal.None? then Refused(ValueError("Internal translation service is not configured"))
      else ToInternal(service.internal.value, source, target)
    else if source == "es" && target == "en" then
      if service.external.None? then Refused(ValueError("External translation API is not configured"))
      else ToExternal(service.external.value, source, target)
    else Refused(ValueError("Unsupported translation direction: " + source + " -> " + target))
  }

  /**
   * English to Spanish goes only to the in-house service, Spanish to English
   * only to the external API, and any other pair is refused without calling
   * either; a missing client is a ValueError naming which one.
   */
  lemma RouteByDirection(service: Service, inputLanguage: string, outputLanguage: string)
    ensures var source, target := NormalizeLanguage(inputLanguage), NormalizeLanguage(outputLanguage);
      var r := Route(service, inputLanguage, outputLanguage);
      (r.ToInternal? <==> source == "en" && target == "es" && service.internal.Some?)
      && (r.ToExternal? <==> source == "es" && target == "en" && service.external.Some?)
      && (r.ToInternal? ==> r.internal == service.internal.value && r.source == "en" && r.target == "es")
      && (r.ToExternal? ==> r.external == service.external.value && r.source == "es" && r.target == "en")
      && (r.Refused? ==> r.error.ValueError?)
      && (!(source == "en" && target == "es") && !(source == "es" && target == "en") ==>
            r == Refused(ValueError("Unsupported translation direction: " + source + " -> " + target)))
  {
  }

  /** A reply to an HTTP request: no connection, an error status, or a decoded body. */
  datatype Reply<T> = Unreachable | StatusError(code: nat, text: string) | Body(body: T)

  /** What the in-house client posts: the URL and the microservice request body. */
  function InternalRequest(client: CustomClient, cv: Cv, source: string, target: string): (string, Microservice.TranslateRequest)
  {
    (client.baseUrl + "/translate", Microservice.TranslateRequest(source, target, None, Some(cv)))
  }

  /** `CustomTranslationClient.translate_cv` given the microservice's reply (`None` when the body has no "translation"). */
  function InternalTranslate(client: CustomClient, reply: Reply<Option<Cv>>): (r: Result<Cv, Exception>)
    ensures r.Ok? <==> reply.Body? && reply.body.Some?
    ensures reply.Unreachable? ==> r.Err? && r.error.ConnectionError?
    ensures reply.StatusError? || (reply.Body? && reply.body.None?) ==> r.Err? && r.error.RuntimeError?
  {
    match reply
    case Unreachable => Err(ConnectionError("Unable to reach translation service at " + client.baseUrl))
    case StatusError(code, text) => Err(RuntimeError("Translation service returned " + NatToString(code) + ": " + text))
    case Body(None) => Err(RuntimeError("Translation service response missing 'translation'"))
    case Body(Some(cv)) => Ok(cv)
  }

  /** The external API's JSON reply: `data.translations`, each item's `translatedText` if present. */
  datatype BatchBody = BatchBody(translations: Option<seq<Option<string>>>)

  /** `_translate_texts`: no request for an empty batch; otherwise one translation per text, in order. */
  function TranslateTexts(client: ExternalClient, texts: seq<string>, reply: Reply<BatchBody>): (r: Result<seq<string>, Exception>)
    ensures texts == [] ==> r == Ok([])
    ensures r.Ok? ==> |r.value| == |texts|
    ensures texts != [] ==>
      (r.Ok? <==> reply.Body? && reply.body.translations.Some? && |reply.body.translations.value| == |texts|)
    ensures texts != [] && r.Ok? ==>
      forall i :: 0 <= i < |texts| ==> r.value[i] == reply.body.translations.value[i].UnwrapOr("")
  {
    if texts == [] then Ok([])
    else match reply
      case Unreachable => Err(ConnectionError("Unable to reach Google Translation API at " + client.baseUrl))
      case StatusError(code, text) => Err(RuntimeError("Google Translation API returned " + NatToString(code) + ": " + text))
      case Body(b) =>
        if b.translations.None? || |b.translations.value| == 0 || |b.translations.value| != |texts| then
          Err(RuntimeError("Google Translation API response missing translations"))
        else
          var items := b.translations.value;
          Ok(seq(|items|, i requires 0 <= i < |items| => items[i].UnwrapOr("")))
  }

  /** One entry of the batch: the field to write back and the stripped text sent for it. */
  datatype Queued = Queued(ref: FieldRef, text: string)

  /** `value.strip() if value else ""`. */
  function Cleaned(value: Option<string>): string
  {
    if value.Some? && value.value != [] then PyStrip(value.value) else []
  }

  /** Append a candidate when its text is not empty. */
  function Push(q: seq<Queued>, e: Queued): seq<Queued>
  {
    if e.text != [] then q + [e] else q
  }

  /** `queue(value, setter)`: the field joins the batch when its stripped text is not empty. */
  function Enqueue(q: seq<Queued>, value: Option<string>, r: FieldRef): seq<Queued>
  {
    Push(q, Queued(r, Cleaned(value)))
  }

  /** The candidates among the first `n` that have non-empty text, in order. */
  function Kept(cands: seq<Queued>, n: nat): seq<Queued>
    requires n <= |cands|
  {
    if n == 0 then [] else Push(Kept(cands, n - 1), cands[n - 1])
  }

  /** `e` is one of the first `n` candidates. */
  predicate AmongFirst(cands: seq<Queued>, n: nat, e: Queued)
  {
    exists k :: 0 <= k < n && k < |cands| && cands[k] == e
  }

  /** `e1` comes before `e2` among the first `n` candidates. */
  predicate InOrder(cands: seq<Queued>, n: nat, e1: Queued, e2: Queued)
  {
    exists k1, k2 :: 0 <= k1 < k2 < n && k2 < |cands| && cands[k1] == e1 && cands[k2] == e2
  }

  predicate Includes(q: seq<Queued>, e: Queued)
  {
    exists i :: 0 <= i < |q| && q[i] == e
  }

  /** Every kept entry is one of the first `n` candidates, with non-empty text. */
  lemma {:induction false} KeptEntries(cands: seq<Queued>, n: nat)
    requires n <= |cands|
    ensures forall i :: 0 <= i < |Kept(cands, n)| ==>
      Kept(cands, n)[i].text != [] && AmongFirst(cands, n, Kept(cands, n)[i])
  {
    if n > 0 {
      KeptEntries(cands, n - 1);
      forall i | 0 <= i < |Kept(cands, n)|
        ensures Kept(cands, n)[i].text != [] && AmongFirst(cands, n, Kept(cands, n)[i])
      {
        if i < |Kept(cands, n - 1)| {
          assert Kept(cands, n)[i] == Kept(cands, n - 1)[i];
          var k :| 0 <= k < n - 1 && k < |cands| && cands[k] == Kept(cands, n - 1)[i];
          assert cands[k] == Kept(cands, n)[i];
        } else {
          assert cands[n - 1] == Kept(cands, n)[i];
        }
      }
    }
  }

  /** Kept entries keep the candidates' relative order. */
  lemma {:induction false} KeptOrdered(cands: seq<Queued>, n: nat)
    requires n <= |cands|
    ensures forall i, j :: 0 <= i < j < |Kept(cands, n)| ==> InOrder(cands, n, Kept(cands, n)[i], Kept(cands, n)[j])
  {
    if n > 0 {
      KeptOrdered(cands, n - 1);
      KeptEntries(cands, n - 1);
      forall i, j | 0 <= i < j < |Kept(cands, n)|
        ensures InOrder(cands, n, Kept(cands, n)[i], Kept(cands, n)[j])
      {
        assert Kept(cands, n)[i] == Kept(cands, n - 1)[i];
        if j < |Kept(cands, n - 1)| {
          assert Kept(cands, n)[j] == Kept(cands, n - 1)[j];
          assert InOrder(cands, n - 1, Kept(cands, n - 1)[i], Kept(cands, n - 1)[j]);
          var k1, k2 :| 0 <= k1 < k2 < n - 1 && k2 < |cands|
            && cands[k1] == Kept(cands, n - 1)[i] && cands[k2] == Kept(cands, n - 1)[j];
          assert cands[k1] == Kept(cands, n)[i] && cands[k2] == Kept(cands, n)[j];
        } else {
          assert AmongFirst(cands, n - 1, Kept(cands, n - 1)[i]);
          var k1 :| 0 <= k1 < n - 1 && k1 < |cands| && cands[k1] == Kept(cands, n - 1)[i];
          assert cands[k1] == Kept(cands, n)[i] && cands[n - 1] == Kept(cands, n)[j];
        }
      }
    }
  }

  /** Every candidate among the first `n` with non-empty text is kept. */
  lemma {:induction false} KeptComplete(cands: seq<Queued>, n: nat)
    requires n <= |cands|
    ensures forall k :: 0 <= k < n && cands[k].text != [] ==> Includes(Kept(cands, n), cands[k])
  {
    if n > 0 {
      KeptComplete(cands, n - 1);
      forall k | 0 <= k < n && cands[k].text != []
        ensures Includes(Kept(cands, n), cands[k])
      {
        if k < n - 1 {
          var i :| 0 <= i < |Kept(cands, n - 1)| && Kept(cands, n - 1)[i] == cands[k];
          assert Kept(cands, n)[i] == cands[k];
        } else {
          assert Kept(cands, n) == Kept(cands, n - 1) + [cands[n - 1]];
          assert Kept(cands, n)[|Kept(cands, n - 1)|] == cands[k];
        }
      }
    }
  }

  /** The first `n` translatable fields of a CV in visiting order, each with its stripped text. */
  function CandidatesUpTo(cv: Cv, n: nat): (cands: seq<Queued>)
    requires n <= FieldCount(cv)
    ensures |cands| == n
  {
    if n == 0 then [] else CandidatesUpTo(cv, n - 1) + [Queued(RefAt(cv, n - 1), Cleaned(Get(cv, RefAt(cv, n - 1))))]
  }

  function Candidates(cv: Cv): (cands: seq<Queued>)
    ensures |cands| == FieldCount(cv)
  {
    CandidatesUpTo(cv, FieldCount(cv))
  }

  lemma {:induction false} CandidateUpToAt(cv: Cv, n: nat, k: nat)
    requires k < n <= FieldCount(cv)
    ensures CandidatesUpTo(cv, n)[k] == Queued(RefAt(cv, k), Cleaned(Get(cv, RefAt(cv, k))))
  {
    if k < n - 1 {
      CandidateUpToAt(cv, n - 1, k);
    }
  }

  /** The candidate at position `k` is the field visited there with its stripped text. */
  lemma CandidateAt(cv: Cv, k: nat)
    requires k < FieldCount(cv)
    ensures Candidates(cv)[k] == Queued(RefAt(cv, k), Cleaned(Get(cv, RefAt(cv, k))))
  {
    CandidateUpToAt(cv, FieldCount(cv), k);
  }

  /** The batch the external client sends for a CV. */
  function Queue(cv: Cv): seq<Queued>
  {
    Kept(Candidates(cv), FieldCount(cv))
  }

  function Texts(q: seq<Queued>): (texts: seq<string>)
    ensures |texts| == |q| && forall i :: 0 <= i < |q| ==> texts[i] == q[i].text
  {
    seq(|q|, i requires 0 <= i < |q| => q[i].text)
  }

  predicate QueueRefsValid(cv: Cv, q: seq<Queued>)
  {
    forall i :: 0 <= i < |q| ==> ValidRef(cv, q[i].ref)
  }

  predicate DistinctRefs(q: seq<Queued>)
  {
    forall i, j :: 0 <= i < j < |q| ==> q[i].ref != q[j].ref
  }

  /** Field `r` is in the batch. */
  predicate QueuesRef(q: seq<Queued>, r: FieldRef)
  {
    exists i :: 0 <= i < |q| && q[i].ref == r
  }

  /** Every queued entry is a field of the CV carrying its stripped, non-blank text. */
  lemma QueueEntries(cv: Cv)
    ensures QueueRefsValid(cv, Queue(cv))
    ensures forall i :: 0 <= i < |Queue(cv)| ==>
      Queue(cv)[i].text == Cleaned(Get(cv, Queue(cv)[i].ref)) && Queue(cv)[i].text != []
  {
    var cands := Candidates(cv);
    KeptEntries(cands, FieldCount(cv));
    forall i | 0 <= i < |Queue(cv)|
      ensures ValidRef(cv, Queue(cv)[i].ref)
      ensures Queue(cv)[i].text == Cleaned(Get(cv, Queue(cv)[i].ref)) && Queue(cv)[i].text != []
    {
      assert AmongFirst(cands, FieldCount(cv), Queue(cv)[i]);
      var k :| 0 <= k < FieldCount(cv) && k < |cands| && cands[k] == Queue(cv)[i];
      CandidateAt(cv, k);
    }
  }

  /** The queue follows the visiting order strictly, so no field is queued twice. */
  lemma QueueOrdered(cv: Cv)
    ensures QueueRefsValid(cv, Queue(cv))
    ensures forall i, j :: 0 <= i < j < |Queue(cv)| ==> Rank(cv, Queue(cv)[i].ref) < Rank(cv, Queue(cv)[j].ref)
    ensures DistinctRefs(Queue(cv))
  {
    var cands := Candidates(cv);
    QueueEntries(cv);
    KeptOrdered(cands, FieldCount(cv));
    forall i, j | 0 <= i < j < |Queue(cv)| ensures Rank(cv, Queue(cv)[i].ref) < Rank(cv, Queue(cv)[j].ref) {
      assert InOrder(cands, FieldCount(cv), Queue(cv)[i], Queue(cv)[j]);
      var k1, k2 :| 0 <= k1 < k2 < FieldCount(cv) && k2 < |cands| && cands[k1] == Queue(cv)[i] && cands[k2] == Queue(cv)[j];
      CandidateAt(cv, k1);
      CandidateAt(cv, k2);
      RankRefAt(cv, k1);
      RankRefAt(cv, k2);
    }
  }

  /** A field is queued exactly when its stripped text is not blank. */
  lemma QueueComplete(cv: Cv)
    ensures forall r :: ValidRef(cv, r) ==> (Cleaned(Get(cv, r)) != [] <==> QueuesRef(Queue(cv), r))
  {
    var cands := Candidates(cv);
    QueueEntries(cv);
    KeptComplete(cands, FieldCount(cv));
    forall r | ValidRef(cv, r) ensures Cleaned(Get(cv, r)) != [] <==> QueuesRef(Queue(cv), r) {
      RefAtRank(cv, r);
      var k := Rank(cv, r);
      CandidateAt(cv, k);
      if Cleaned(Get(cv, r)) != [] {
        assert cands[k].text != [];
        assert Includes(Queue(cv), cands[k]);
        var i :| 0 <= i < |Queue(cv)| && Queue(cv)[i] == cands[k];
        assert Queue(cv)[i].ref == r;
      }
      if QueuesRef(Queue(cv), r) {
        var i :| 0 <= i < |Queue(cv)| && Queue(cv)[i].ref == r;
      }
    }
  }

  /** One more visited field extends the queue by `queue(value, setter)`. */
  lemma EnqueueStep(cv: Cv, k: nat, q: seq<Queued>, r: FieldRef, value: Option<string>)
    requires k < FieldCount(cv) && q == Kept(Candidates(cv), k) && RefAt(cv, k) == r && Get(cv, r) == value
    ensures Enqueue(q, value, r) == Kept(Candidates(cv), k + 1)
  {
    CandidateAt(cv, k);
  }

  /** The four top-level fields, in order. */
  lemma TopStep(cv: Cv)
    ensures Enqueue(Enqueue(Enqueue(Enqueue([], cv.title, Top(Title)), cv.fullName, Top(FullName)),
                            cv.location, Top(Location)), cv.summary, Top(Summary))
         == Kept(Candidates(cv), WorkStart(cv))
  {
    TopSlots(cv);
    var q0: seq<Queued> := [];
    EnqueueStep(cv, 0, q0, Top(Title), cv.title);
    var q1 := Enqueue(q0, cv.title, Top(Title));
    EnqueueStep(cv, 1, q1, Top(FullName), cv.fullName);
    var q2 := Enqueue(q1, cv.fullName, Top(FullName));
    EnqueueStep(cv, 2, q2, Top(Location), cv.location);
    var q3 := Enqueue(q2, cv.location, Top(Location));
    EnqueueStep(cv, 3, q3, Top(Summary), cv.summary);
  }

  /** The position of each field within its entry. */
  lemma FieldOrders()
    ensures WorkOrd(Company) == 0 && WorkOrd(Position) == 1 && WorkOrd(WorkLocation) == 2 && WorkOrd(WorkDescription) == 3
    ensures EducationOrd(Institution) == 0 && EducationOrd(Degree) == 1 && EducationOrd(FieldOfStudy) == 2
      && EducationOrd(EducationDescription) == 3 && EducationOrd(Honors) == 4 && EducationOrd(RelevantSubjects) == 5
      && EducationOrd(ThesisTitle) == 6
    ensures ProjectOrd(Name) == 0 && ProjectOrd(ProjectDescription) == 1 && ProjectOrd(Role) == 2 && ProjectOrd(Technologies) == 3
    ensures SkillOrd(SkillName) == 0 && SkillOrd(Category) == 1
  {
  }

  /** `cands` lists every field of `cv` at its position. */
  ghost predicate Linked(cv: Cv, cands: seq<Queued>)
  {
    |cands| == FieldCount(cv)
    && forall r :: ValidRef(cv, r) ==> cands[Rank(cv, r)] == Queued(r, Cleaned(Get(cv, r)))
  }

  lemma CandidatesLinked(cv: Cv)
    ensures Linked(cv, Candidates(cv))
  {
    forall r | ValidRef(cv, r) ensures Candidates(cv)[Rank(cv, r)] == Queued(r, Cleaned(Get(cv, r))) {
      RefAtRank(cv, r);
      CandidateAt(cv, Rank(cv, r));
    }
  }

  /** `queue(value, setter)` for field `f` of work experience `idx`, the `k`-th field visited. */
  method QueueWorkField(cv: Cv, ghost cands: seq<Queued>, idx: nat, f: WorkField, k: nat, next: nat, queue: seq<Queued>, value: Option<string>)
    returns (out: seq<Queued>)
    requires Linked(cv, cands) && idx < |cv.workExperiences| && k == Rank(cv, InWork(idx, f)) && next == k + 1
    requires value == WorkGet(cv.workExperiences[idx], f) && queue == Kept(cands, k)
    ensures next <= |cands| && out == Kept(cands, next)
  {
    out := Enqueue(queue, value, InWork(idx, f));
  }

  /** `queue(value, setter)` for field `f` of education `idx`, the `k`-th field visited. */
  method QueueEducationField(cv: Cv, ghost cands: seq<Queued>, idx: nat, f: EducationField, k: nat, next: nat, queue: seq<Queued>, value: Option<string>)
    returns (out: seq<Queued>)
    requires Linked(cv, cands) && idx < |cv.educations| && k == Rank(cv, InEducation(idx, f)) && next == k + 1
    requires value == EducationGet(cv.educations[idx], f) && queue == Kept(cands, k)
    ensures next <= |cands| && out == Kept(cands, next)
  {
    out := Enqueue(queue, value, InEducation(idx, f));
  }

  /** `queue(value, setter)` for field `f` of project `idx`, the `k`-th field visited. */
  method QueueProjectField(cv: Cv, ghost cands: seq<Queued>, idx: nat, f: ProjectField, k: nat, next: nat, queue: seq<Queued>, value: Option<string>)
    returns (out: seq<Queued>)
    requires Linked(cv, cands) && idx < |cv.projects| && k == Rank(cv, InProject(idx, f)) && next == k + 1
    requires value == ProjectGet(cv.projects[idx], f) && queue == Kept(cands, k)
    ensures next <= |cands| && out == Kept(cands, next)
  {
    out := Enqueue(queue, value, InProject(idx, f));
  }

  /** `queue(value, setter)` for field `f` of skill `idx`, the `k`-th field visited. */
  method QueueSkillField(cv: Cv, ghost cands: seq<Queued>, idx: nat, f: SkillField, k: nat, next: nat, queue: seq<Queued>, value: Option<string>)
    returns (out: seq<Queued>)
    requires Linked(cv, cands) && idx < |cv.skills| && k == Rank(cv, InSkill(idx, f)) && next == k + 1
    requires value == SkillGet(cv.skills[idx], f) && queue == Kept(cands, k)
    ensures next <= |cands| && out == Kept(cands, next)
  {
    out := Enqueue(queue, value, InSkill(idx, f));
  }

  /** Writing the first `n` translations back, `setter(translated_text)` in queue order. */
  function WriteBackUpTo(cv: Cv, q: seq<Queued>, ts: seq<string>, n: nat): (out: Cv)
    requires n <= |q| && n <= |ts| && QueueRefsValid(cv, q)
    ensures |out.workExperiences| == |cv.workExperiences| && |out.educations| == |cv.educations|
    ensures |out.projects| == |cv.projects| && |out.skills| == |cv.skills|
  {
    if n == 0 then cv else Set(WriteBackUpTo(cv, q, ts, n - 1), q[n - 1].ref, Some(ts[n - 1]))
  }


  /** Write-back sets each queued field to its translation and leaves the skeleton and every other field alone. */
  lemma {:induction false} WriteBackFields(cv: Cv, q: seq<Queued>, ts: seq<string>, n: nat)
    requires n <= |q| && n <= |ts| && QueueRefsValid(cv, q) && DistinctRefs(q)
    ensures Skeleton(WriteBackUpTo(cv, q, ts, n)) == Skeleton(cv)
    ensures forall i :: 0 <= i < n ==> Get(WriteBackUpTo(cv, q, ts, n), q[i].ref) == Some(ts[i])
    ensures forall r :: ValidRef(cv, r) && (forall i :: 0 <= i < n ==> q[i].ref != r) ==>
      Get(WriteBackUpTo(cv, q, ts, n), r) == Get(cv, r)
  {
    if n > 0 {
      WriteBackFields(cv, q, ts, n - 1);
      SetKeepsSkeleton(WriteBackUpTo(cv, q, ts, n - 1), q[n - 1].ref, Some(ts[n - 1]));
      WriteBackStepSets(cv, q, ts, n);
      WriteBackStepKeeps(cv, q, ts, n);
    }
  }

  /** The `n`-th write keeps the earlier writes: the queued fields are distinct. */
  lemma WriteBackStepSets(cv: Cv, q: seq<Queued>, ts: seq<string>, n: nat)
    requires 0 < n <= |q| && n <= |ts| && QueueRefsValid(cv, q) && DistinctRefs(q)
    requires forall i :: 0 <= i < n - 1 ==> Get(WriteBackUpTo(cv, q, ts, n - 1), q[i].ref) == Some(ts[i])
    ensures forall i :: 0 <= i < n ==> Get(WriteBackUpTo(cv, q, ts, n), q[i].ref) == Some(ts[i])
  {
    var prev := WriteBackUpTo(cv, q, ts, n - 1);
    forall i | 0 <= i < n ensures Get(WriteBackUpTo(cv, q, ts, n), q[i].ref) == Some(ts[i]) {
      SetGet(prev, q[n - 1].ref, Some(ts[n - 1]), q[i].ref);
    }
  }

  /** The `n`-th write leaves every field outside the queue's first `n` entries alone. */
  lemma WriteBackStepKeeps(cv: Cv, q: seq<Queued>, ts: seq<string>, n: nat)
    requires 0 < n <= |q| && n <= |ts| && QueueRefsValid(cv, q)
    requires forall r :: ValidRef(cv, r) && (forall i :: 0 <= i < n - 1 ==> q[i].ref != r) ==>
      Get(WriteBackUpTo(cv, q, ts, n - 1), r) == Get(cv, r)
    ensures forall r :: ValidRef(cv, r) && (forall i :: 0 <= i < n ==> q[i].ref != r) ==>
      Get(WriteBackUpTo(cv, q, ts, n), r) == Get(cv, r)
  {
    var prev := WriteBackUpTo(cv, q, ts, n - 1);
    forall r | ValidRef(cv, r) && (forall i :: 0 <= i < n ==> q[i].ref != r)
      ensures Get(WriteBackUpTo(cv, q, ts, n), r) == Get(cv, r)
    {
      SetGet(prev, q[n - 1].ref, Some(ts[n - 1]), r);
    }
  }

  /** `ExternalTranslationClient.translate_cv` given how the API answers a batch. */
  function ExternalTranslated(client: ExternalClient, cv: Cv, api: seq<string> -> Reply<BatchBody>): Result<Cv, Exception>
  {
    var q := Queue(cv);
    if q == [] then Ok(cv)
    else
      QueueEntries(cv);
      match TranslateTexts(client, Texts(q), api(Texts(q)))
      case Err(e) => Err(e)
      case Ok(ts) => Ok(WriteBackUpTo(cv, q, ts, |q|))
  }

  /** The batches the external client sends for a CV: none when nothing needs translating, else one. */
  function SentBatches(cv: Cv): seq<seq<string>>
  {
    if Queue(cv) == [] then [] else [Texts(Queue(cv))]
  }


  /** The four top-level fields of `translate_cv`'s queue. */
  method QueueTopFields(cv: Cv) returns (queue: seq<Queued>)
    ensures queue == Kept(Candidates(cv), WorkStart(cv))
  {
    queue := [];
    TopStep(cv);
    queue := Enqueue(queue, cv.title, Top(Title));
    queue := Enqueue(queue, cv.fullName, Top(FullName));
    queue := Enqueue(queue, cv.location, Top(Location));
    queue := Enqueue(queue, cv.summary, Top(Summary));
  }

  /** The loop over work experiences of `translate_cv`. */
  method QueueWorkExperiences(cv: Cv, ghost cands: seq<Queued>, start: seq<Queued>) returns (queue: seq<Queued>)
    requires Linked(cv, cands) && start == Kept(cands, WorkStart(cv))
    ensures queue == Kept(cands, EducationStart(cv))
  {
    queue := start;
    var idx := 0;
    while idx < |cv.workExperiences|
      invariant 0 <= idx <= |cv.workExperiences|
      invariant queue == Kept(cands, WorkStart(cv) + 4 * idx)
    {
      var exp := cv.workExperiences[idx];
      var k := WorkStart(cv) + 4 * idx;
      FieldOrders();
      queue := QueueWorkField(cv, cands, idx, Company, k, k + 1, queue, exp.company);
      queue := QueueWorkField(cv, cands, idx, Position, k + 1, k + 2, queue, exp.position);
      queue := QueueWorkField(cv, cands, idx, WorkLocation, k + 2, k + 3, queue, exp.location);
      queue := QueueWorkField(cv, cands, idx, WorkDescription, k + 3, k + 4, queue, exp.description);
      assert k + 4 == WorkStart(cv) + 4 * (idx + 1);
      idx := idx + 1;
    }
  }

  /** The seven `queue` calls of education `idx`, one per field in visiting order. */
  method QueueEducation(cv: Cv, ghost cands: seq<Queued>, idx: nat, start: seq<Queued>) returns (queue: seq<Queued>)
    requires Linked(cv, cands) && idx < |cv.educations| && start == Kept(cands, EducationStart(cv) + 7 * idx)
    ensures queue == Kept(cands, EducationStart(cv) + 7 * (idx + 1))
  {
    var edu := cv.educations[idx];
    var k := EducationStart(cv) + 7 * idx;
    queue := start;
    var j := 0;
    while j < 7
      invariant 0 <= j <= 7 && queue == Kept(cands, k + j)
    {
      var f := EducationAt(j);
      EducationOrdAt(j);
      queue := QueueEducationField(cv, cands, idx, f, k + j, k + j + 1, queue, EducationGet(edu, f));
      j := j + 1;
    }
  }

  /** The loop over education entries of `translate_cv`. */
  method QueueEducations(cv: Cv, ghost cands: seq<Queued>, start: seq<Queued>) returns (queue: seq<Queued>)
    requires Linked(cv, cands) && start == Kept(cands, EducationStart(cv))
    ensures queue == Kept(cands, ProjectStart(cv))
  {
    queue := start;
    var idx := 0;
    while idx < |cv.educations|
      invariant 0 <= idx <= |cv.educations|
      invariant queue == Kept(cands, EducationStart(cv) + 7 * idx)
    {
      queue := QueueEducation(cv, cands, idx, queue);
      idx := idx + 1;
    }
  }

  /** The loop over projects of `translate_cv`. */
  method QueueProjects(cv: Cv, ghost cands: seq<Queued>, start: seq<Queued>) returns (queue: seq<Queued>)
    requires Linked(cv, cands) && start == Kept(cands, ProjectStart(cv))
    ensures queue == Kept(cands, SkillStart(cv))
  {
    queue := start;
    var idx := 0;
    while idx < |cv.projects|
      invariant 0 <= idx <= |cv.projects|
      invariant queue == Kept(cands, ProjectStart(cv) + 4 * idx)
    {
      var project := cv.projects[idx];
      var k := ProjectStart(cv) + 4 * idx;
      FieldOrders();
      queue := QueueProjectField(cv, cands, idx, Name, k, k + 1, queue, project.name);
      queue := QueueProjectField(cv, cands, idx, ProjectDescription, k + 1, k + 2, queue, project.description);
      queue := QueueProjectField(cv, cands, idx, Role, k + 2, k + 3, queue, project.role);
      queue := QueueProjectField(cv, cands, idx, Technologies, k + 3, k + 4, queue, project.technologies);
      assert k + 4 == ProjectStart(cv) + 4 * (idx + 1);
      idx := idx + 1;
    }
  }

  /** The loop over skills of `translate_cv`. */
  method QueueSkills(cv: Cv, ghost cands: seq<Queued>, start: seq<Queued>) returns (queue: seq<Queued>)
    requires Linked(cv, cands) && start == Kept(cands, SkillStart(cv))
    ensures queue == Kept(cands, FieldCount(cv))
  {
    queue := start;
    var idx := 0;
    while idx < |cv.skills|
      invariant 0 <= idx <= |cv.skills|
      invariant queue == Kept(cands, SkillStart(cv) + 2 * idx)
    {
      var skill := cv.skills[idx];
      var k := SkillStart(cv) + 2 * idx;
      FieldOrders();
      queue := QueueSkillField(cv, cands, idx, SkillName, k, k + 1, queue, skill.name);
      queue := QueueSkillField(cv, cands, idx, Category, k + 1, k + 2, queue, skill.category);
      assert k + 2 == SkillStart(cv) + 2 * (idx + 1);
      idx := idx + 1;
    }
  }

  /** The queue `translate_cv` builds, field by field and section by section. */
  method BuildQueue(cv: Cv) returns (queue: seq<Queued>)
    ensures queue == Queue(cv)
  {
    ghost var cands := Candidates(cv);
    CandidatesLinked(cv);
    queue := QueueTopFields(cv);
    queue := QueueWorkExperiences(cv, cands, queue);
    queue := QueueEducations(cv, cands, queue);
    queue := QueueProjects(cv, cands, queue);
    queue := QueueSkills(cv, cands, queue);
  }

  /** The `zip` loop: each translation goes through its setter, stopping at the shorter of the two lists. */
  method WriteBack(cv: Cv, queue: seq<Queued>, ts: seq<string>) returns (translated: Cv)
    requires QueueRefsValid(cv, queue)
    ensures |ts| <= |queue| ==> translated == WriteBackUpTo(cv, queue, ts, |ts|)
    ensures |queue| <= |ts| ==> translated == WriteBackUpTo(cv, queue, ts, |queue|)
  {
    translated := cv;
    var i := 0;
    while i < |ts| && i < |queue|
      invariant 0 <= i <= |ts| && i <= |queue|
      invariant translated == WriteBackUpTo(cv, queue, ts, i)
    {
      translated := Set(translated, queue[i].ref, Some(ts[i]));
      i := i + 1;
    }
  }

  /**
   * The external client's `translate_cv`: queue every non-blank translatable
   * field, send them as one batch, and write each translation back into a
   * copy of the CV through the field it came from.
   */
  method ExternalTranslateCv(client: ExternalClient, cv: Cv, api: seq<string> -> Reply<BatchBody>)
    returns (r: Result<Cv, Exception>, sent: seq<seq<string>>)
    ensures r == ExternalTranslated(client, cv, api)
    ensures sent == SentBatches(cv)
  {
    var queue := BuildQueue(cv);
    QueueEntries(cv);
    var translated := cv;
    sent := [];
    if queue != [] {
      var texts := Texts(queue);
      sent := [texts];
      var result := TranslateTexts(client, texts, api(texts));
      if result.Err? {
        return Err(result.error), sent;
      }
      translated := WriteBack(cv, queue, result.value);
    }
    r := Ok(translated);
  }

  /** A batch API that answers every text as the per-text translator `tr` does, failing with a status when `tr` fails. */
  function ApiOf(tr: Microservice.Translator): seq<string> -> Reply<BatchBody>
  {
    texts =>
      if forall i :: 0 <= i < |texts| ==> tr(texts[i]).Some? then
        Body(BatchBody(Some(seq(|texts|, i requires 0 <= i < |texts| => tr(texts[i])))))
      else StatusError(500, "")
  }

  lemma CleanedIsStripped(value: Option<string>)
    ensures Cleaned(value) == if value.Some? then PyStrip(value.value) else []
  {
    if value.Some? && value.value == [] {
      StripUnpadded(value.value, IsPyWhitespace);
    }
  }

  /** The microservice translates a field exactly when it is blank or its stripped text translates. */
  lemma FieldTranslates(value: Option<string>, tr: Microservice.Translator)
    ensures Microservice.TranslateField(value, tr).Returned? <==> Cleaned(value) == [] || tr(Cleaned(value)).Some?
    ensures Cleaned(value) == [] ==> Microservice.TranslateField(value, tr) == Microservice.Returned(value)
    ensures Cleaned(value) != [] && tr(Cleaned(value)).Some? ==>
      Microservice.TranslateField(value, tr) == Microservice.Returned(Some(tr(Cleaned(value)).value))
  {
    CleanedIsStripped(value);
  }

  /** Every queued text translates exactly when the microservice can translate every field. */
  lemma QueueTranslatesIff(cv: Cv, tr: Microservice.Translator)
    ensures (forall i :: 0 <= i < |Queue(cv)| ==> tr(Queue(cv)[i].text).Some?)
        <==> (forall r :: ValidRef(cv, r) ==> Microservice.TranslateField(Get(cv, r), tr).Returned?)
  {
    var q := Queue(cv);
    QueueEntries(cv);
    QueueComplete(cv);
    if forall i :: 0 <= i < |q| ==> tr(q[i].text).Some? {
      forall r | ValidRef(cv, r) ensures Microservice.TranslateField(Get(cv, r), tr).Returned? {
        FieldTranslates(Get(cv, r), tr);
        if Cleaned(Get(cv, r)) != [] {
          assert QueuesRef(q, r);
          var i :| 0 <= i < |q| && q[i].ref == r;
          assert tr(q[i].text).Some?;
        }
      }
    }
    if forall r :: ValidRef(cv, r) ==> Microservice.TranslateField(Get(cv, r), tr).Returned? {
      forall i | 0 <= i < |q| ensures tr(q[i].text).Some? {
        FieldTranslates(Get(cv, q[i].ref), tr);
      }
    }
  }

  /** The per-text translations of a queue whose texts all translate. */
  function Translations(q: seq<Queued>, tr: Microservice.Translator): (ts: seq<string>)
    requires forall i :: 0 <= i < |q| ==> tr(q[i].text).Some?
    ensures |ts| == |q| && forall i :: 0 <= i < |q| ==> Some(ts[i]) == tr(q[i].text)
  {
    seq(|q|, i requires 0 <= i < |q| => tr(q[i].text).value)
  }

  /** One batch against `ApiOf(tr)` succeeds exactly when every text translates, and then yields those translations. */
  lemma BatchWithTranslator(client: ExternalClient, q: seq<Queued>, tr: Microservice.Translator)
    requires q != []
    ensures TranslateTexts(client, Texts(q), ApiOf(tr)(Texts(q))).Ok? <==> forall i :: 0 <= i < |q| ==> tr(q[i].text).Some?
    ensures (forall i :: 0 <= i < |q| ==> tr(q[i].text).Some?) ==>
      TranslateTexts(client, Texts(q), ApiOf(tr)(Texts(q))).value == Translations(q, tr)
  {
    var texts := Texts(q);
    if forall i :: 0 <= i < |q| ==> tr(q[i].text).Some? {
      assert forall i :: 0 <= i < |texts| ==> tr(texts[i]).Some?;
      var reply := ApiOf(tr)(texts);
      assert reply == Body(BatchBody(Some(seq(|texts|, i requires 0 <= i < |texts| => tr(texts[i])))));
      assert TranslateTexts(client, texts, reply).value == Translations(q, tr);
    } else {
      assert !(forall i :: 0 <= i < |texts| ==> tr(texts[i]).Some?);
      assert ApiOf(tr)(texts) == StatusError(500, "");
    }
  }

  /** Against a per-text translator, the batch client succeeds exactly when every queued text translates, writing those translations back. */
  lemma ExternalWithTranslator(client: ExternalClient, cv: Cv, tr: Microservice.Translator)
    ensures ExternalTranslated(client, cv, ApiOf(tr)).Ok? <==> forall i :: 0 <= i < |Queue(cv)| ==> tr(Queue(cv)[i].text).Some?
    ensures (forall i :: 0 <= i < |Queue(cv)| ==> tr(Queue(cv)[i].text).Some?) ==>
      QueueRefsValid(cv, Queue(cv))
      && ExternalTranslated(client, cv, ApiOf(tr)).value
         == WriteBackUpTo(cv, Queue(cv), Translations(Queue(cv), tr), |Queue(cv)|)
  {
    QueueEntries(cv);
    if Queue(cv) != [] {
      BatchWithTranslator(client, Queue(cv), tr);
    }
  }

  /** Writing back the per-text translations yields the microservice's translated CV. */
  lemma WriteBackMatchesMicroservice(cv: Cv, tr: Microservice.Translator)
    requires forall i :: 0 <= i < |Queue(cv)| ==> tr(Queue(cv)[i].text).Some?
    requires Microservice.TranslatedCv(cv, tr).Returned?
    requires QueueRefsValid(cv, Queue(cv))
    ensures WriteBackUpTo(cv, Queue(cv), Translations(Queue(cv), tr), |Queue(cv)|) == Microservice.TranslatedCv(cv, tr).value
  {
    var q := Queue(cv);
    var ts := Translations(q, tr);
    var out := WriteBackUpTo(cv, q, ts, |q|);
    var expected := Microservice.TranslatedCv(cv, tr).value;
    QueueEntries(cv);
    QueueOrdered(cv);
    QueueComplete(cv);
    Microservice.TranslatedCvFields(cv, tr);
    WriteBackFields(cv, q, ts, |q|);
    forall r | ValidRef(out, r) ensures ValidRef(expected, r) && Get(out, r) == Get(expected, r) {
      FieldTranslates(Get(cv, r), tr);
      if Cleaned(Get(cv, r)) != [] {
        assert QueuesRef(q, r);
        var i :| 0 <= i < |q| && q[i].ref == r;
        assert Get(out, r) == Some(ts[i]);
      } else {
        forall i | 0 <= i < |q| ensures q[i].ref != r {
        }
      }
    }
    SkeletonAndFieldsDetermine(out, expected);
  }

  /**
   * The backend's batch client and the in-house microservice agree: given a
   * batch API that answers each text as the microservice's per-text
   * translator does, the batch client succeeds exactly when the microservice
   * does, and both produce the same translated CV.
   */
  lemma ExternalAgreesWithMicroservice(client: ExternalClient, cv: Cv, tr: Microservice.Translator)
    ensures ExternalTranslated(client, cv, ApiOf(tr)).Ok? <==> Microservice.TranslatedCv(cv, tr).Returned?
    ensures ExternalTranslated(client, cv, ApiOf(tr)).Ok? ==>
      ExternalTranslated(client, cv, ApiOf(tr)).value == Microservice.TranslatedCv(cv, tr).value
  {
    ExternalWithTranslator(client, cv, tr);
    QueueTranslatesIff(cv, tr);
    Microservice.TranslatedCvSucceeds(cv, tr);
    if ExternalTranslated(client, cv, ApiOf(tr)).Ok? {
      WriteBackMatchesMicroservice(cv, tr);
    }
  }

  /** `TranslationService.translate_cv`, with the in-house service's reply and the batch API as parameters. */
  function ServiceTranslate(service: Service, cv: Cv, inputLanguage: string, outputLanguage: string,
                            internalReply: Reply<Option<Cv>>, api: seq<string> -> Reply<BatchBody>): (r: Result<Cv, Exception>)
    ensures Route(service, inputLanguage, outputLanguage).Refused? ==>
      r == Err(Route(service, inputLanguage, outputLanguage).error)
    ensures Route(service, inputLanguage, outputLanguage).ToInternal? ==>
      r == InternalTranslate(Route(service, inputLanguage, outputLanguage).internal, internalReply)
    ensures Route(service, inputLanguage, outputLanguage).ToExternal? ==>
      r == ExternalTranslated(Route(service, inputLanguage, outputLanguage).external, cv, api)
  {
    match Route(service, inputLanguage, outputLanguage)
    case ToInternal(client, _, _) => InternalTranslate(client, internalReply)
    case ToExternal(client, _, _) => ExternalTranslated(client, cv, api)
    case Refused(e) => Err(e)
  }

  /** How the in-house service's answer reaches the client: the CV under "translation", or the status with FastAPI's JSON error body. */
  function MicroserviceReply(m: Result<Microservice.Translation, HttpError>): Reply<Option<Cv>>
  {
    match m
    case Ok(t) => if t.CvTranslation? then Body(Some(t.cv)) else Body(None)
    case Err(e) => StatusError(if e.status < 0 then 0 else e.status, "{\"detail\":\"" + e.detail + "\"}")
  }

  /** The microservice's answer to the in-house client's English-to-Spanish request. */
  lemma MicroserviceAnswer(client: CustomClient, cv: Cv, tr: Microservice.Translator)
    requires Validates(cv)
    ensures Microservice.Translate(InternalRequest(client, cv, "en", "es").1, Some(tr))
      == if Microservice.TranslatedCv(cv, tr).Returned? then Ok(Microservice.CvTranslation(Microservice.TranslatedCv(cv, tr).value))
         else Err(Fail(InternalServerError, Microservice.TranslationFailed))
  {
    var req := InternalRequest(client, cv, "en", "es").1;
    Microservice.NormalizeCanonical();
    Microservice.TranslatedCvSucceeds(cv, tr);
    assert !Microservice.HasText(req);
  }

  /**
   * English to Spanish end to end: the in-house client, talking to the
   * microservice with a loaded translator, returns the microservice's
   * translated CV exactly when every field translates, and otherwise the
   * RuntimeError carrying the microservice's 500 answer.
   */
  lemma InternalAgreesWithMicroservice(client: CustomClient, cv: Cv, tr: Microservice.Translator)
    requires Validates(cv)
    ensures InternalTranslate(client, MicroserviceReply(Microservice.Translate(InternalRequest(client, cv, "en", "es").1, Some(tr)))).Ok?
      <==> Microservice.TranslatedCv(cv, tr).Returned?
    ensures Microservice.TranslatedCv(cv, tr).Returned? ==>
      InternalTranslate(client, MicroserviceReply(Microservice.Translate(InternalRequest(client, cv, "en", "es").1, Some(tr))))
      == Ok(Microservice.TranslatedCv(cv, tr).value)
    ensures !Microservice.TranslatedCv(cv, tr).Returned? ==>
      InternalTranslate(client, MicroserviceReply(Microservice.Translate(InternalRequest(client, cv, "en", "es").1, Some(tr))))
      == Err(RuntimeError("Translation service returned " + "500" + ": " + ("{\"detail\":\"" + Microservice.TranslationFailed + "\"}")))
  {
    MicroserviceAnswer(client, cv, tr);
    if !Microservice.TranslatedCv(cv, tr).Returned? {
      FailureReply(client);
    }
  }

  /** The microservice's 500 answer reaches the caller as a RuntimeError quoting status and body. */
  lemma FailureReply(client: CustomClient)
    ensures InternalTranslate(client, MicroserviceReply(Err(Fail(InternalServerError, Microservice.TranslationFailed))))
      == Err(RuntimeError("Translation service returned " + "500" + ": " + ("{\"detail\":\"" + Microservice.TranslationFailed + "\"}")))
  {
    NatToStringThreeDigits(500);
    assert NatToString(500) == "500";
  }
}
