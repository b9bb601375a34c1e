/**
 * `POST /translation/translate-cv` (backend/app/api/v1/endpoints/translation.py):
 * an ownership guard, the translation service obtained from the settings,
 * and the mapping of the service's exceptions onto HTTP statuses.
 */
module TranslationEndpoint {
  import opened Wrappers
  import opened Text
  import opened Http
  import opened CvPayload
  import opened TranslationService
  import Config
  import Microservice = TranslationMicroservice

  /** `TranslateCVRequest`. */
  datatype TranslateCvRequest = TranslateCvRequest(inputLanguage: string, outputLanguage: string, cv: Cv)

  const NotAuthorized := "Not authorized to translate this CV"
  const UnsupportedDirection := "Unsupported translation direction"
  /** `request.cv.user_id and request.cv.user_id != current_user.id`: a null or zero owner is not checked. */
  predicate ForeignOwner(cv: Cv, callerId: int)
  {
    cv.userId.Some? && cv.userId.value != 0 && cv.userId.value != callerId
  }

  /** The `except` clauses around `service.translate_cv`, in their order. */
  function ErrorResponse(e: Exception): (r: HttpError)
  {
    match e
    case ConnectionError(m) => Fail(ServiceUnavailable, m)
    case ValueError(m) =>
      if Contains(m, UnsupportedDirection) then Fail(BadRequest, m) else Fail(ServiceUnavailable, m)
    case RuntimeError(m) => Fail(BadGateway, m)
    case OtherError(m) => Fail(InternalServerError, "Failed to translate CV: " + m)
  }

  /**
   * Each status names its cause: 400 only for an unsupported direction,
   * 503 for an unreachable service or any other ValueError, 502 for a bad
   * answer and 500 for anything else; the message is kept.
   */
  lemma ErrorResponseStatus(e: Exception)
    ensures ErrorResponse(e).status == BadRequest <==> e.ValueError? && Contains(e.message, UnsupportedDirection)
    ensures ErrorResponse(e).status == ServiceUnavailable <==>
      e.ConnectionError? || (e.ValueError? && !Contains(e.message, UnsupportedDirection))
    ensures ErrorResponse(e).status == BadGateway <==> e.RuntimeError?
    ensures ErrorResponse(e).status == InternalServerError <==> e.OtherError?
    ensures !e.OtherError? ==> ErrorResponse(e).detail == e.message
    ensures e.OtherError? ==> ErrorResponse(e).detail == "Failed to translate CV: " + e.message
    ensures ErrorResponse(e).headers == map[]
  {
  }

  /**
   * The endpoint, given how building the service turned out. The guard runs
   * before the service is obtained; building the service happens outside
   * the `try`, so its failure is not mapped and becomes a bare 500.
   */
  function TranslateCvWith(req: TranslateCvRequest, callerId: int, service: Result<Service, Exception>,
                           internalReply: Reply<Option<Cv>>, api: seq<string> -> Reply<BatchBody>): (r: Result<Cv, HttpError>)
  {
    if ForeignOwner(req.cv, callerId) then Err(Fail(Forbidden, NotAuthorized))
    else if service.Err? then Err(Fail(InternalServerError, UncaughtError))
    else match ServiceTranslate(service.value, req.cv, req.inputLanguage, req.outputLanguage, internalReply, api)
      case Ok(translated) => Ok(translated)
      case Err(e) => Err(ErrorResponse(e))
  }

  /** A CV owned by someone else is refused with 403 whatever the service would do. */
  lemma ForeignCvForbidden(req: TranslateCvRequest, callerId: int, service: Result<Service, Exception>,
                           internalReply: Reply<Option<Cv>>, api: seq<string> -> Reply<BatchBody>)
    ensures TranslateCvWith(req, callerId, service, internalReply, api).Err?
      && TranslateCvWith(req, callerId, service, internalReply, api).error.status == Forbidden
      <==> ForeignOwner(req.cv, callerId)
    ensures ForeignOwner(req.cv, callerId) ==>
      TranslateCvWith(req, callerId, service, internalReply, api) == Err(Fail(Forbidden, NotAuthorized))
  {
    if !ForeignOwner(req.cv, callerId) {
      StatusesPastGuard(req, callerId, service, internalReply, api);
    }
  }

  /**
   * Past the guard, with a service at hand, the response is the service's
   * result unchanged, or its exception under `ErrorResponse`.
   */
  lemma ServiceOutcomeMapped(req: TranslateCvRequest, callerId: int, service: Service,
                             internalReply: Reply<Option<Cv>>, api: seq<string> -> Reply<BatchBody>)
    requires !ForeignOwner(req.cv, callerId)
    ensures ServiceTranslate(service, req.cv, req.inputLanguage, req.outputLanguage, internalReply, api).Ok? ==>
      TranslateCvWith(req, callerId, Ok(service), internalReply, api)
      == Ok(ServiceTranslate(service, req.cv, req.inputLanguage, req.outputLanguage, internalReply, api).value)
    ensures ServiceTranslate(service, req.cv, req.inputLanguage, req.outputLanguage, internalReply, api).Err? ==>
      TranslateCvWith(req, callerId, Ok(service), internalReply, api)
      == Err(ErrorResponse(ServiceTranslate(service, req.cv, req.inputLanguage, req.outputLanguage, internalReply, api).error))
  {
  }

  /** The refusal message of an unsupported pair mentions the unsupported direction. */
  lemma UnsupportedMessageMentionsDirection(source: string, target: string)
    ensures Contains("Unsupported translation direction: " + source + " -> " + target, UnsupportedDirection)
  {
    var rest := ": " + source + " -> " + target;
    assert "Unsupported translation direction: " + source + " -> " + target == UnsupportedDirection + rest;
    PrefixContained(UnsupportedDirection, rest);
  }

  /** A pair other than English to Spanish or Spanish to English is a 400 naming the normalised pair. */
  lemma UnsupportedDirectionIsBadRequest(req: TranslateCvRequest, callerId: int, service: Service,
                                         internalReply: Reply<Option<Cv>>, api: seq<string> -> Reply<BatchBody>)
    requires !ForeignOwner(req.cv, callerId)
    requires !(NormalizeLanguage(req.inputLanguage) == "en" && NormalizeLanguage(req.outputLanguage) == "es")
    requires !(NormalizeLanguage(req.inputLanguage) == "es" && NormalizeLanguage(req.outputLanguage) == "en")
    ensures TranslateCvWith(req, callerId, Ok(service), internalReply, api)
      == Err(Fail(BadRequest, "Unsupported translation direction: " + NormalizeLanguage(req.inputLanguage)
                              + " -> " + NormalizeLanguage(req.outputLanguage)))
  {
    RouteByDirection(service, req.inputLanguage, req.outputLanguage);
    UnsupportedMessageMentionsDirection(NormalizeLanguage(req.inputLanguage), NormalizeLanguage(req.outputLanguage));
  }

  /** A supported direction whose client is not configured is a 503, and neither back end is called. */
  lemma MissingClientIsUnavailable(req: TranslateCvRequest, callerId: int, service: Service,
                                   internalReply: Reply<Option<Cv>>, api: seq<string> -> Reply<BatchBody>)
    requires !ForeignOwner(req.cv, callerId)
    ensures (NormalizeLanguage(req.inputLanguage) == "en" && NormalizeLanguage(req.outputLanguage) == "es"
      && service.internal.None?) ==>
      TranslateCvWith(req, callerId, Ok(service), internalReply, api)
      == Err(Fail(ServiceUnavailable, "Internal translation service is not configured"))
    ensures (NormalizeLanguage(req.inputLanguage) == "es" && NormalizeLanguage(req.outputLanguage) == "en"
      && service.external.None?) ==>
      TranslateCvWith(req, callerId, Ok(service), internalReply, api)
      == Err(Fail(ServiceUnavailable, "External translation API is not configured"))
  {
    RouteByDirection(service, req.inputLanguage, req.outputLanguage);
    NotConfiguredIsNotUnsupported();
  }

  /** Neither "not configured" message mentions an unsupported direction. */
  lemma NotConfiguredIsNotUnsupported()
    ensures !Contains("Internal translation service is not configured", UnsupportedDirection)
    ensures !Contains("External translation API is not configured", UnsupportedDirection)
  {
    var internal, external := "Internal translation service is not configured", "External translation API is not configured";
    assert UnsupportedDirection[0] == 'U';
    assert internal[..|internal| - |UnsupportedDirection| + 1] == "Internal trans";
    FirstCharMissing(internal, UnsupportedDirection);
    assert external[..|external| - |UnsupportedDirection| + 1] == "External t";
    FirstCharMissing(external, UnsupportedDirection);
  }

  /** The service's statuses past the guard: never 403, and only ones the mapping produces. */
  lemma StatusesPastGuard(req: TranslateCvRequest, callerId: int, service: Result<Service, Exception>,
                          internalReply: Reply<Option<Cv>>, api: seq<string> -> Reply<BatchBody>)
    requires !ForeignOwner(req.cv, callerId)
    ensures TranslateCvWith(req, callerId, service, internalReply, api).Err? ==>
      TranslateCvWith(req, callerId, service, internalReply, api).error.status
        in {BadRequest, InternalServerError, BadGateway, ServiceUnavailable}
  {
    if service.Ok? {
      var t := ServiceTranslate(service.value, req.cv, req.inputLanguage, req.outputLanguage, internalReply, api);
      if t.Err? {
        ErrorResponseStatus(t.error);
      }
    }
  }

  /*
   * Building the service. `TranslationService()` reads the three settings
   * off the `Settings` object; an attribute the object lacks raises
   * AttributeError.
   */

  /** `get_translation_service()` on a settings object with these attributes. */
  function ServiceFromAttributes(attributes: map<string, string>): (r: Result<Service, Exception>)
  {
    match Config.ReadSetting(attributes, "TRANSLATION_SERVICE_URL")
    case Err(e) => Err(e)
    case Ok(serviceUrl) =>
      match Config.ReadSetting(attributes, "EXTERNAL_TRANSLATION_API_URL")
      case Err(e) => Err(e)
      case Ok(externalApiUrl) =>
        match Config.ReadSetting(attributes, "EXTERNAL_TRANSLATION_API_KEY")
        case Err(e) => Err(e)
        case Ok(externalApiKey) => NewService(TranslationSettings(serviceUrl, externalApiUrl, externalApiKey))
  }

  /** With all three settings present the service is exactly the one `NewService` builds from them. */
  lemma ServiceFromAttributesPresent(attributes: map<string, string>)
    ensures ("TRANSLATION_SERVICE_URL" in attributes && "EXTERNAL_TRANSLATION_API_URL" in attributes
      && "EXTERNAL_TRANSLATION_API_KEY" in attributes) ==>
      ServiceFromAttributes(attributes) == NewService(TranslationSettings(attributes["TRANSLATION_SERVICE_URL"],
        attributes["EXTERNAL_TRANSLATION_API_URL"], attributes["EXTERNAL_TRANSLATION_API_KEY"]))
    ensures "TRANSLATION_SERVICE_URL" !in attributes ==>
      ServiceFromAttributes(attributes) == Err(Config.MissingAttribute("TRANSLATION_SERVICE_URL"))
  {
  }

  /**
   * As written: `Settings` declares none of the three settings, so building
   * the service raises before any request is looked at.
   */
  lemma AsWrittenServiceMissing(attributes: map<string, string>)
    requires attributes.Keys == Config.DeclaredSettings
    ensures ServiceFromAttributes(attributes)
      == Err(Config.MissingAttribute("TRANSLATION_SERVICE_URL"))
  {
    assert "TRANSLATION_SERVICE_URL" !in Config.DeclaredSettings;
  }

  /** The endpoint as written: the service comes from the backend's `Settings` object. */
  function TranslateCvAsWritten(req: TranslateCvRequest, callerId: int, attributes: map<string, string>,
                                internalReply: Reply<Option<Cv>>, api: seq<string> -> Reply<BatchBody>): Result<Cv, HttpError>
  {
    TranslateCvWith(req, callerId, ServiceFromAttributes(attributes), internalReply, api)
  }

  /**
   * Counterexample: with the settings the backend declares, a request for
   * the caller's own CV, in a supported direction and with both back ends
   * answering, still fails with a bare 500.
   */
  lemma AsWrittenAlwaysFails(req: TranslateCvRequest, callerId: int, attributes: map<string, string>,
                             internalReply: Reply<Option<Cv>>, api: seq<string> -> Reply<BatchBody>)
    requires attributes.Keys == Config.DeclaredSettings
    requires !ForeignOwner(req.cv, callerId)
    ensures TranslateCvAsWritten(req, callerId, attributes, internalReply, api)
      == Err(Fail(InternalServerError, UncaughtError))
  {
    AsWrittenServiceMissing(attributes);
  }

  /**
   * Corrected: `Settings` declares the three settings (empty by default)
   * and the service is built from them.
   */
  function TranslateCv(req: TranslateCvRequest, callerId: int, settings: TranslationSettings,
                       internalReply: Reply<Option<Cv>>, api: seq<string> -> Reply<BatchBody>): Result<Cv, HttpError>
  {
    TranslateCvWith(req, callerId, NewService(settings), internalReply, api)
  }

  /** Default settings: no client is configured, so both supported directions answer 503. */
  lemma DefaultSettingsUnavailable(req: TranslateCvRequest, callerId: int,
                                   internalReply: Reply<Option<Cv>>, api: seq<string> -> Reply<BatchBody>)
    requires !ForeignOwner(req.cv, callerId)
    requires NormalizeLanguage(req.inputLanguage) == "en" && NormalizeLanguage(req.outputLanguage) == "es"
    ensures TranslateCv(req, callerId, TranslationSettings("", "", ""), internalReply, api)
      == Err(Fail(ServiceUnavailable, "Internal translation service is not configured"))
  {
    NewServiceClients(TranslationSettings("", "", ""));
    MissingClientIsUnavailable(req, callerId, NewService(TranslationSettings("", "", "")).value, internalReply, api);
  }

  /** With a microservice URL configured, English to Spanish goes to the in-house client and its failures become HTTP errors. */
  lemma EnglishToSpanishGoesInternal(cv: Cv, callerId: int, serviceUrl: string,
                                     reply: Reply<Option<Cv>>, api: seq<string> -> Reply<BatchBody>)
    requires !ForeignOwner(cv, callerId) && serviceUrl != []
    ensures TranslateCv(TranslateCvRequest("en", "es", cv), callerId, TranslationSettings(serviceUrl, "", ""), reply, api)
      == match InternalTranslate(CustomClient(StripTrailingSlashes(serviceUrl)), reply)
         case Ok(c) => Ok(c)
         case Err(e) => Err(ErrorResponse(e))
  {
    var settings := TranslationSettings(serviceUrl, "", "");
    NewServiceClients(settings);
    Microservice.NormalizeCanonical();
    NormalizeLanguageAgrees("en");
    NormalizeLanguageAgrees("es");
    RouteByDirection(NewService(settings).value, "en", "es");
  }

  /** Given the microservice's answer to the in-house request, the caller sees the translated CV or a 502. */
  lemma EnglishToSpanishAnswered(cv: Cv, callerId: int, serviceUrl: string, tr: Microservice.Translator,
                                 answer: Result<Microservice.Translation, HttpError>, api: seq<string> -> Reply<BatchBody>)
    requires !ForeignOwner(cv, callerId) && serviceUrl != []
    requires answer == if Microservice.TranslatedCv(cv, tr).Returned? then Ok(Microservice.CvTranslation(Microservice.TranslatedCv(cv, tr).value))
                       else Err(Fail(InternalServerError, Microservice.TranslationFailed))
    ensures Microservice.TranslatedCv(cv, tr).Returned? ==>
      TranslateCv(TranslateCvRequest("en", "es", cv), callerId, TranslationSettings(serviceUrl, "", ""), MicroserviceReply(answer), api)
      == Ok(Microservice.TranslatedCv(cv, tr).value)
    ensures !Microservice.TranslatedCv(cv, tr).Returned? ==>
      TranslateCv(TranslateCvRequest("en", "es", cv), callerId, TranslationSettings(serviceUrl, "", ""), MicroserviceReply(answer), api).Err?
      && TranslateCv(TranslateCvRequest("en", "es", cv), callerId, TranslationSettings(serviceUrl, "", ""), MicroserviceReply(answer), api).error.status
      == BadGateway
  {
    EnglishToSpanishGoesInternal(cv, callerId, serviceUrl, MicroserviceReply(answer), api);
  }

  /**
   * End to end, English to Spanish with the in-house service configured
   * and the microservice's translator loaded: the caller receives the CV
   * the microservice translates, or a 502 carrying its 500 answer.
   */
  lemma EnglishToSpanishEndToEnd(cv: Cv, callerId: int, serviceUrl: string, tr: Microservice.Translator,
                                 api: seq<string> -> Reply<BatchBody>)
    requires Validates(cv) && !ForeignOwner(cv, callerId)
    requires serviceUrl != []
    ensures Microservice.TranslatedCv(cv, tr).Returned? ==>
      TranslateCv(TranslateCvRequest("en", "es", cv), callerId, TranslationSettings(serviceUrl, "", ""),
                  MicroserviceReply(Microservice.Translate(InternalRequest(CustomClient(StripTrailingSlashes(serviceUrl)), cv, "en", "es").1, Some(tr))), api)
      == Ok(Microservice.TranslatedCv(cv, tr).value)
    ensures !Microservice.TranslatedCv(cv, tr).Returned? ==>
      TranslateCv(TranslateCvRequest("en", "es", cv), callerId, TranslationSettings(serviceUrl, "", ""),
                  MicroserviceReply(Microservice.Translate(InternalRequest(CustomClient(StripTrailingSlashes(serviceUrl)), cv, "en", "es").1, Some(tr))), api).Err?
      && TranslateCv(TranslateCvRequest("en", "es", cv), callerId, TranslationSettings(serviceUrl, "", ""),
                  MicroserviceReply(Microservice.Translate(InternalRequest(CustomClient(StripTrailingSlashes(serviceUrl)), cv, "en", "es").1, Some(tr))), api).error.status
      == BadGateway
  {
    var client := CustomClient(StripTrailingSlashes(serviceUrl));
    MicroserviceAnswer(client, cv, tr);
    EnglishToSpanishAnswered(cv, callerId, serviceUrl, tr, Microservice.Translate(InternalRequest(client, cv, "en", "es").1, Some(tr)), api);
  }
}
