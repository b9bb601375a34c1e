# dedicatedCV core, modelled in Dafny

This project models the rule-bearing core of dedicatedCV, a CV builder made of a FastAPI backend, a small translation microservice and a React frontend, and proves properties of that model.

- **CV translation, in three layers.**
  - The microservice (`translation-service/main.py`) normalises language labels, accepts only English to Spanish, and translates a fixed set of fields per CV section. It is modelled in `translation_microservice.dfy`, with the shared CV payload in `cv_payload.dfy`.
  - The backend service (`backend/app/services/translation_service.py`) routes en to es to the in-house client and es to en to an external batch API. That client queues the non-blank fields and writes the answers back by position (`translation_fields.dfy`, `translation_service.dfy`). The queue-building loops are proved against the list of candidate fields in visiting order; an education entry's seven `queue` calls are one inner loop over its fields in that order.
  - The endpoint (`backend/app/api/v1/endpoints/translation.py`) adds the owner guard and maps exceptions to status codes (`translation_endpoint.dfy`). It also covers the settings it reads (`config.dfy` holds the CORS origin parsing of `backend/app/core/config.py`).
  - The frontend hook (`frontend/src/hooks/use-translation.ts`) turns a translated CV into minimal update requests (`use_translation.dfy`).
  - The translation model is a parameter `string -> Option<string>`, where `None` means the model raised.
- **The ownership-scoped store.**
  - `store.dfy` is a `Database` class whose maps of users, CVs, section entries and share links the endpoints update in place.
  - It carries the endpoints for CVs (`cvs.dfy`), the four section kinds (`sections.dfy`, one generic module over the section kind), share-link exports (`exports.dfy`), registration, login and profile pictures (`auth.dfy`), the current-user guards (`deps.dfy`), the AI endpoints (`ai.dfy`) and the dashboard statistics and completion score (`dashboard.dfy`).
  - HTTP errors and Python exception kinds are in `http.dfy`.
- **Frontend logic.**
  - The email pattern and the error records of `validate` functions (`validators.dfy`).
  - The four entity forms as one `EntityForm` class (`entity_forms.dfy`).
  - The new-CV wizard (`new_cv.dfy`) and the registration page (`register_form.dfy`).
  - What the three templates put on the page (`templates.dfy`).
  - Initials, display name and breadcrumbs of the root layout (`root_layout.dfy`).
  - React Query keys and invalidation (`query_keys.dfy`), API URLs (`api_config.dfy`), and the token and user store of the authentication service (`auth_storage.dfy`).
- **Shared text functions** (`text.dfy`): Python `strip`, JavaScript `trim`, ASCII lower-casing, split and join.

Where the repository's documentation and its code disagree, the model follows the code.

## Model

| member | source | states |
|---|---|---|
| TranslationMicroservice.NormalizeLanguage | translation-service/main.py:139-149 | `_normalize_language`; its behaviour is stated by NormalizeCleaned, NormalizesToCanonical and NormalizeLanguageIdempotent |
| TranslationMicroservice.NormalizeCleaned | translation-service/main.py:139-149 | a code that is already stripped and lower-case is looked up in the alias table and otherwise returned unchanged |
| TranslationMicroservice.NormalizesToCanonical | translation-service/main.py:139-149 | a label normalises to "en" exactly when its stripped, lower-cased form is "en", "english", "en-us" or "en-gb", and to "es" exactly when it is "es", "spanish", "es-es" or "es-mx" |
| TranslationMicroservice.NormalizeLanguageIdempotent | translation-service/main.py:139-149 | normalising a normalised code changes nothing |
| TranslationMicroservice.TranslateText | translation-service/main.py:152-157 | raises an HTTP error exactly when the stripped text is empty, and that error is a 400 |
| TranslationMicroservice.TranslateField | translation-service/main.py:160-167 | never raises an HTTP error, so a failing field can only surface as a 500 of the endpoint |
| TranslationMicroservice.AllOrRaiseReturned | translation-service/main.py:170-220 | a section list translates exactly when every entry does, into the entries' translations in the same order and length; no HTTP error appears unless an entry raises one |
| TranslationMicroservice.TranslateAll | translation-service/main.py:173-181 | the append loop of the section helpers computes exactly the entry-by-entry translation, stopping at the first exception |
| TranslationMicroservice.TranslatedCv | translation-service/main.py:223-235 | translating a payload never raises an HTTP error of its own |
| TranslationMicroservice.TranslateCvPayload | translation-service/main.py:223-235 | the key-by-key overwriting of the dumped payload equals the whole-payload translation |
| TranslationMicroservice.WorkExperienceTranslated | translation-service/main.py:174-180 | a work experience translates when company, position, location and description do; only those change and each becomes its field translation |
| TranslationMicroservice.EducationTranslated | translation-service/main.py:188-197 | an education changes only institution, degree, field of study, description, honors, relevant subjects and thesis title, each to its field translation |
| TranslationMicroservice.ProjectTranslated | translation-service/main.py:203-209 | a project changes only name, description, role and technologies, each to its field translation |
| TranslationMicroservice.SkillTranslated | translation-service/main.py:215-219 | a skill changes only name and category, each to its field translation |
| TranslationMicroservice.WorkListTranslated | translation-service/main.py:170-181 | the work-experience list keeps its length and order and each entry is that entry's translation |
| TranslationMicroservice.EducationListTranslated | translation-service/main.py:184-198 | the education list keeps its length and order and each entry is that entry's translation |
| TranslationMicroservice.ProjectListTranslated | translation-service/main.py:201-210 | the project list keeps its length and order and each entry is that entry's translation |
| TranslationMicroservice.SkillListTranslated | translation-service/main.py:213-220 | the skill list keeps its length and order and each entry is that entry's translation |
| TranslationMicroservice.TranslatedCvSucceeds | translation-service/main.py:223-235 | a payload translates exactly when every translatable field does, and never raises an HTTP error |
| TranslationMicroservice.TranslatedCvFields | translation-service/main.py:223-235 | a translated payload has the input's skeleton (email, phone, ids, dates, gpa, urls, display order, list lengths) and each translatable field holds its field translation |
| TranslationMicroservice.GetTranslator | translation-service/main.py:132-136 | fails exactly when no pipeline is loaded, with 503 "Translation model not ready" |
| TranslationMicroservice.Health | translation-service/main.py:244-248 | reports "ok" exactly when the pipeline is loaded |
| TranslationMicroservice.RunTranslation | translation-service/main.py:278-286 | the translation step fails only with the text check's 400 or with 500 "Translation failed" |
| TranslationMicroservice.Translate | translation-service/main.py:251-288 | POST /translate; its refusals, their order and its answers are stated by TranslateErrorStatuses, TranslateSuccessNeeds, TranslateChecksLanguagesFirst, TranslateNeedsModelLast, TranslateBothRefused, TranslateTextRequest and TranslateCvRequest |
| TranslationMicroservice.TranslateErrorStatuses | translation-service/main.py:251-288 | every refusal of POST /translate has status 400, 422, 500 or 503 |
| TranslationMicroservice.TranslateSuccessNeeds | translation-service/main.py:253-274 | a success needs the normalised pair en to es, a loaded pipeline, and exactly one of a non-empty text and a CV |
| TranslationMicroservice.TranslateChecksLanguagesFirst | translation-service/main.py:253-259 | an unsupported pair is refused with 400 whatever the rest of the request and whether or not the pipeline is loaded |
| TranslationMicroservice.TranslateNeedsModelLast | translation-service/main.py:261-274 | 503 comes exactly when every request check has passed and the pipeline is missing |
| TranslationMicroservice.TranslateTextRequest | translation-service/main.py:278-288 | a text request succeeds exactly when the stripped text is non-empty and the pipeline translates it, and the answer is that translation; a pipeline failure gives 500 "Translation failed" |
| TranslationMicroservice.TranslateCvRequest | translation-service/main.py:278-288 | a CV request succeeds exactly when the payload translates, with the payload's translation as answer; otherwise 500 |
| TranslationMicroservice.TranslateStubText | translation-service/tests/test_main.py:47-52 | any stripped, non-empty text sent English to Spanish comes back from the stub pipeline prefixed with "translated: " |
| TranslationMicroservice.TranslateBothRefused | translation-service/main.py:251-270 | a request carrying both a non-empty text and a valid CV is refused with 400 whether or not the pipeline is loaded; for the en to es pair the refusal is "Provide only one of 'text' or 'cv' to translate at a time" |
| CvPayload.Set | backend/app/services/translation_service.py:120-126 | replacing one translatable field keeps every section list's length |
| CvPayload.SkeletonAndFieldsDetermine | translation-service/main.py:223-235 | two CVs with the same skeleton and the same translatable texts are equal, so a translation is fixed by its field values |
| CvPayload.SetKeepsSkeleton | backend/app/services/translation_service.py:120-126 | a setter keeps the skeleton and the set of fields that exist |
| CvPayload.SetGet | backend/app/services/translation_service.py:120-126 | a setter changes its own field to the new value and no other field |
| TranslationFields.DivMod | backend/app/services/translation_service.py:146-175 | quotient and remainder satisfy `k == d * q + r` with `r < d`, locating an entry and field from a position |
| TranslationFields.RefAt | backend/app/services/translation_service.py:141-175 | every position of the visiting order names a field that exists in the CV |
| TranslationFields.Rank | backend/app/services/translation_service.py:141-175 | every field has a position below the number of translatable fields |
| TranslationFields.RankRefAt | backend/app/services/translation_service.py:141-175 | the field at a position has that position |
| TranslationFields.RefAtRank | backend/app/services/translation_service.py:141-175 | the position of a field names that field |
| TranslationFields.RefAtInjective | backend/app/services/translation_service.py:141-175 | distinct positions name distinct fields, so no field is visited twice |
| TranslationFields.TopSlots | backend/app/services/translation_service.py:141-144 | the visit starts with title, full name, location, summary |
| TranslationFields.WorkSlot | backend/app/services/translation_service.py:146-153 | field f of the i-th work experience is visited at 4 + 4i + its declaration index |
| TranslationFields.EducationSlot | backend/app/services/translation_service.py:155-163 | field f of the i-th education is visited after all work experiences, at 7i + its declaration index |
| TranslationFields.ProjectSlot | backend/app/services/translation_service.py:165-170 | field f of the i-th project is visited after all educations, at 4i + its declaration index |
| TranslationFields.SkillSlot | backend/app/services/translation_service.py:172-175 | field f of the i-th skill is visited last, at 2i + its declaration index |
| TranslationService.NormalizeLanguage | backend/app/services/translation_service.py:12-25 | the backend's `_normalize_language`; NormalizeLanguageAgrees states that it equals the microservice's on every label |
| TranslationService.NormalizeLanguageAgrees | backend/app/services/translation_service.py:12-25 | the backend's normalisation (lower then strip, "" kept) equals the microservice's (strip then lower) on every label |
| TranslationService.StripTrailingSlashes | backend/app/services/translation_service.py:34 | the result is a prefix of the input, ends in no "/", and only slashes were removed |
| TranslationService.NewCustomClient | backend/app/services/translation_service.py:31-34 | refused with ValueError "TRANSLATION_SERVICE_URL not configured" exactly when the URL is empty; otherwise the base URL without trailing slashes |
| TranslationService.NewExternalClient | backend/app/services/translation_service.py:71-76 | refused with ValueError "EXTERNAL_TRANSLATION_API_KEY not configured" exactly when the key is empty; otherwise the key kept and the URL, or the public v2 endpoint, without trailing slashes |
| TranslationService.NewService | backend/app/services/translation_service.py:190-206 | `TranslationService()` from its three settings; stated by NewServiceClients |
| TranslationService.NewServiceClients | backend/app/services/translation_service.py:190-206 | building the service fails exactly when an external URL is set without a key; the in-house client exists iff its URL is set, the external one iff the key is set |
| TranslationService.Route | backend/app/services/translation_service.py:208-224 | the direction check of `translate_cv`, up to the client call; stated by RouteByDirection |
| TranslationService.RouteByDirection | backend/app/services/translation_service.py:208-224 | en to es goes only to the in-house client and es to en only to the external one, with normalised codes; a missing client or any other pair is a ValueError, the latter "Unsupported translation direction: s -> t", and no client is called |
| TranslationService.InternalTranslate | backend/app/services/translation_service.py:36-63 | succeeds exactly when the microservice answers with a "translation"; no connection is a ConnectionError, an error status or a missing key a RuntimeError |
| TranslationService.TranslateTexts | backend/app/services/translation_service.py:78-115 | an empty batch is [] with no request; otherwise success exactly when the reply carries as many translations as texts, and the i-th result is the i-th item's text or "" |
| TranslationService.KeptEntries | backend/app/services/translation_service.py:135-139 | every queued entry is one of the visited candidates, with non-empty text |
| TranslationService.KeptOrdered | backend/app/services/translation_service.py:135-139 | queued entries keep the visiting order |
| TranslationService.KeptComplete | backend/app/services/translation_service.py:135-139 | every visited candidate with non-empty text is queued |
| TranslationService.CandidatesUpTo | backend/app/services/translation_service.py:141-175 | the first n candidates of the visit are exactly n entries |
| TranslationService.Candidates | backend/app/services/translation_service.py:141-175 | there is one candidate per translatable field |
| TranslationService.CandidateUpToAt | backend/app/services/translation_service.py:135-136 | the k-th candidate is the field visited at k with its stripped text ("" for None) |
| TranslationService.CandidateAt | backend/app/services/translation_service.py:135-136 | the k-th candidate is the field visited at k with its stripped text ("" for None) |
| TranslationService.Texts | backend/app/services/translation_service.py:132-139 | the batch sent is the queued texts, one per queued field, in queue order |
| TranslationService.QueueEntries | backend/app/services/translation_service.py:135-175 | every queued entry names a field of the CV and carries its stripped, non-blank text |
| TranslationService.QueueOrdered | backend/app/services/translation_service.py:141-175 | the queue follows the order top-level, work experiences, educations, projects, skills strictly, so no field is queued twice |
| TranslationService.QueueComplete | backend/app/services/translation_service.py:135-175 | a field is queued exactly when its stripped text is not empty |
| TranslationService.EnqueueStep | backend/app/services/translation_service.py:135-139 | one `queue` call extends the queue of the first k fields to that of the first k+1 |
| TranslationService.TopStep | backend/app/services/translation_service.py:141-144 | the four top-level `queue` calls build the queue of the first four fields |
| TranslationService.CandidatesLinked | backend/app/services/translation_service.py:141-175 | every field of the CV stands in the candidate list at its visiting position, with its stripped text |
| TranslationService.QueueWorkField | backend/app/services/translation_service.py:135-139 | one `queue` call for a work-experience field turns the queue of the first k visited fields into that of the first k+1 |
| TranslationService.QueueEducationField | backend/app/services/translation_service.py:135-139 | one `queue` call for an education field turns the queue of the first k visited fields into that of the first k+1 |
| TranslationService.QueueProjectField | backend/app/services/translation_service.py:135-139 | one `queue` call for a project field turns the queue of the first k visited fields into that of the first k+1 |
| TranslationService.QueueSkillField | backend/app/services/translation_service.py:135-139 | one `queue` call for a skill field turns the queue of the first k visited fields into that of the first k+1 |
| TranslationService.WriteBackUpTo | backend/app/services/translation_service.py:181-182 | writing translations back keeps every section list's length |
| TranslationService.WriteBackFields | backend/app/services/translation_service.py:128-184 | write-back is positional: the i-th translation lands in the i-th queued field, the skeleton is kept and unqueued fields keep their values |
| TranslationService.QueueTopFields | backend/app/services/translation_service.py:141-144 | the top-level queue is the queue of the first four visited fields |
| TranslationService.QueueWorkExperiences | backend/app/services/translation_service.py:146-153 | after the work-experience loop the queue covers every field up to the first education |
| TranslationService.QueueEducation | backend/app/services/translation_service.py:156-163 | the seven `queue` calls of one education extend the queue by exactly that entry's fields |
| TranslationService.QueueEducations | backend/app/services/translation_service.py:155-163 | after the education loop the queue covers every field up to the first project |
| TranslationService.QueueProjects | backend/app/services/translation_service.py:165-170 | after the project loop the queue covers every field up to the first skill |
| TranslationService.QueueSkills | backend/app/services/translation_service.py:172-175 | after the skill loop the queue is the whole queue of the CV |
| TranslationService.BuildQueue | backend/app/services/translation_service.py:132-175 | the four top-level calls and the four loops build exactly the CV's queue |
| TranslationService.WriteBack | backend/app/services/translation_service.py:181-182 | the `zip` loop applies the translations to the queued fields in order, stopping at the shorter list |
| TranslationService.ExternalTranslateCv | backend/app/services/translation_service.py:117-184 | the client's result is the batch translation written back, and it sends no batch when the queue is empty and exactly one otherwise |
| TranslationService.CleanedIsStripped | backend/app/services/translation_service.py:136 | `value.strip() if value else ""` is the Python strip of a present value and "" for None |
| TranslationService.FieldTranslates | translation-service/main.py:160-167 | the microservice translates a field exactly when it is blank or its stripped text translates, keeping blank fields |
| TranslationService.QueueTranslatesIff | backend/app/services/translation_service.py:135-175 | every queued text translates exactly when the microservice can translate every field of the CV |
| TranslationService.Translations | backend/app/services/translation_service.py:115 | the per-text translations of a queue are one per entry, each the translator's answer |
| TranslationService.BatchWithTranslator | backend/app/services/translation_service.py:78-115 | against an API that answers per text, a batch succeeds exactly when every text translates, and yields those translations in order |
| TranslationService.ExternalWithTranslator | backend/app/services/translation_service.py:117-184 | against a batch API that answers per text, the external client succeeds exactly when every queued text translates, and writes those translations back |
| TranslationService.WriteBackMatchesMicroservice | backend/app/services/translation_service.py:177-184 | writing back the per-text translations gives the microservice's translated CV |
| TranslationService.ExternalAgreesWithMicroservice | backend/app/services/translation_service.py:117-184 | the batch client and the microservice's field-by-field translation succeed together and produce the same CV |
| TranslationService.ServiceTranslate | backend/app/services/translation_service.py:208-224 | a refused route gives its ValueError, the in-house route gives the in-house client's outcome, the external route the batch client's |
| TranslationService.MicroserviceAnswer | backend/app/services/translation_service.py:39-47 | the in-house client's request (en, es, cv only) gets the microservice's translated CV, or its 500 "Translation failed" |
| TranslationService.InternalAgreesWithMicroservice | backend/app/services/translation_service.py:36-63 | end to end, the in-house client returns the microservice's translation exactly when every field translates, otherwise a RuntimeError quoting the 500 answer |
| TranslationService.FailureReply | backend/app/services/translation_service.py:53-57 | the microservice's 500 reaches the caller as RuntimeError "Translation service returned 500: " followed by the body |
| TranslationEndpoint.ErrorResponse | backend/app/api/v1/endpoints/translation.py:45-65 | the handler's `except` clauses; the status of each exception kind is stated by ErrorResponseStatus |
| TranslationEndpoint.ErrorResponseStatus | backend/app/api/v1/endpoints/translation.py:45-65 | 400 exactly for a ValueError mentioning "Unsupported translation direction"; 503 exactly for a ConnectionError or any other ValueError; 502 exactly for a RuntimeError; 500 "Failed to translate CV: …" for anything else; the message is kept |
| TranslationEndpoint.TranslateCvWith | backend/app/api/v1/endpoints/translation.py:17-65 | the `translate_cv` handler given how building the service ended; stated by ForeignCvForbidden, ServiceOutcomeMapped, UnsupportedDirectionIsBadRequest, MissingClientIsUnavailable and StatusesPastGuard |
| TranslationEndpoint.ForeignCvForbidden | backend/app/api/v1/endpoints/translation.py:28-32 | the endpoint answers 403 exactly when the CV names a non-zero owner other than the caller, before the service is used |
| TranslationEndpoint.ServiceOutcomeMapped | backend/app/api/v1/endpoints/translation.py:38-65 | past the guard the response is the service's translation unchanged, or its exception mapped to a status |
| TranslationEndpoint.UnsupportedDirectionIsBadRequest | backend/app/api/v1/endpoints/translation.py:49-56 | a pair other than en/es in either direction is a 400 naming the normalised pair |
| TranslationEndpoint.MissingClientIsUnavailable | backend/app/api/v1/endpoints/translation.py:49-56 | a supported direction whose client is not configured is a 503 and calls neither back end |
| TranslationEndpoint.NotConfiguredIsNotUnsupported | backend/app/services/translation_service.py:216-221 | neither "not configured" message contains "Unsupported translation direction", so both map to 503 |
| TranslationEndpoint.StatusesPastGuard | backend/app/api/v1/endpoints/translation.py:34-65 | past the guard the endpoint never answers 403; every refusal is 400, 500, 502 or 503 |
| Config.ReadSetting | backend/app/core/config.py:19-63 | reading an attribute of the settings object succeeds exactly when `Settings` has it, with its value, and otherwise is the AttributeError naming it |
| TranslationEndpoint.ServiceFromAttributes | backend/app/services/translation_service.py:190-206 | `TranslationService()` reading its settings off the settings object; stated by ServiceFromAttributesPresent and AsWrittenServiceMissing |
| TranslationEndpoint.ServiceFromAttributesPresent | backend/app/services/translation_service.py:190-206 | with the three settings present the service is the one they configure; without TRANSLATION_SERVICE_URL it is an AttributeError |
| TranslationEndpoint.AsWrittenServiceMissing | backend/app/core/config.py:19-63 | with the attributes `Settings` declares, building the service raises AttributeError for TRANSLATION_SERVICE_URL |
| TranslationEndpoint.TranslateCvAsWritten | backend/app/api/v1/endpoints/translation.py:17-65 | the handler as written, over the attributes `Settings` declares; stated by AsWrittenAlwaysFails |
| TranslationEndpoint.AsWrittenAlwaysFails | backend/app/api/v1/endpoints/translation.py:34 | as written, every call of the handler that passes the owner guard fails with a bare 500, whatever the languages and back ends |
| TranslationEndpoint.TranslateCv | backend/app/api/v1/endpoints/translation.py:17-65 | the handler with the three settings declared; stated by DefaultSettingsUnavailable, EnglishToSpanishGoesInternal, EnglishToSpanishAnswered and EnglishToSpanishEndToEnd |
| TranslationEndpoint.DefaultSettingsUnavailable | backend/app/services/translation_service.py:214-216 | with the settings declared and empty, an en to es request answers 503 "Internal translation service is not configured" |
| TranslationEndpoint.EnglishToSpanishGoesInternal | backend/app/api/v1/endpoints/translation.py:34-65 | with a microservice URL configured, an en to es request is answered by the in-house client, its failures mapped to HTTP errors |
| TranslationEndpoint.EnglishToSpanishAnswered | backend/app/api/v1/endpoints/translation.py:38-65 | given the microservice's answer, the caller receives the translated CV, or a 502 when the microservice answers 500 |
| TranslationEndpoint.EnglishToSpanishEndToEnd | backend/app/api/v1/endpoints/translation.py:17-65 | with the in-house service configured, an en to es request returns the CV the microservice translates, or 502 when the microservice fails |
| Config.ParseCorsOrigins | backend/app/core/config.py:7-16 | `parse_cors_origins`; stated by ParseCorsOriginsPieces, ParseCorsOriginsNonText and ParseCorsOriginsRoundTrip |
| Config.ParseCorsOriginsPieces | backend/app/core/config.py:7-13 | a non-empty string gives one stripped entry per comma-separated piece, in order, empty pieces kept |
| Config.ParseCorsOriginsNonText | backend/app/core/config.py:9-16 | "" gives [], a list is returned as it is, any other value gives [] |
| Config.ParseCorsOriginsRoundTrip | backend/app/core/config.py:7-13 | for text without white space, joining the parsed origins with "," gives the text back |
| Config.NoWhitespaceIsStripped | backend/app/core/config.py:13 | a piece of a split of text without white space is its own stripped form |
| Config.SplitPiecesFromText | backend/app/core/config.py:13 | every character of a piece is a character of the text |
| Config.ParseCors | backend/app/core/config.py:65-71 | the `BACKEND_CORS_ORIGINS` validator on a string; stated by ParseCorsIsFilteredOrigins, ParseCorsClean and ParseCorsComplete |
| Config.ParseCorsIsFilteredOrigins | backend/app/core/config.py:65-71 | the validator keeps exactly the non-empty entries of `parse_cors_origins`, in order |
| Config.KeptIsFilteredStripped | backend/app/core/config.py:71 | filtering on `origin.strip()` equals stripping every piece and then dropping the empty ones |
| Config.ParseCorsClean | backend/app/core/config.py:71 | no parsed origin is empty or padded with white space |
| Config.ParseCorsComplete | backend/app/core/config.py:71 | every piece with visible text appears, stripped, among the parsed origins |
| UseTranslation.ToUpdateString | frontend/src/hooks/use-translation.ts:28-29 | null and undefined become "leave out"; every string, the empty one included, is kept as it is |
| UseTranslation.ToIdMap | frontend/src/hooks/use-translation.ts:31-39 | the loop over the items builds exactly the id map of the items that carry a numeric id |
| UseTranslation.IdMapLastWins | frontend/src/hooks/use-translation.ts:31-39 | an id is in the map exactly when some item carries it, and it maps to the last item carrying it |
| UseTranslation.BuildPayload | frontend/src/hooks/use-translation.ts:69-80 | the sequence of conditional assignments builds exactly the payload of the fields that are present |
| UseTranslation.FieldPayloadExact | frontend/src/hooks/use-translation.ts:69-80 | with distinct field names, a name is in the payload exactly when its field carries a value, and it maps to that translated text |
| UseTranslation.FieldPayloadNames | frontend/src/hooks/use-translation.ts:69-80 | a name no field has never appears in the payload |
| UseTranslation.SectionUpdates | frontend/src/hooks/use-translation.ts:63-86 | the map-and-filter over a section's current entries yields exactly the section's request list |
| UseTranslation.SectionRequestsSound | frontend/src/hooks/use-translation.ts:63-86 | every request of a section is for a current entry whose id names a translated entry and carries that entry's non-empty payload |
| UseTranslation.SectionRequestsComplete | frontend/src/hooks/use-translation.ts:63-86 | every current entry with a translated counterpart and a non-empty payload gets its update |
| UseTranslation.PersistTranslation | frontend/src/hooks/use-translation.ts:41-172 | the requests sent are a prefix of the base update followed by the section updates; a rejected base update sends nothing more and rejects; otherwise every request is sent, and the promise resolves exactly when every request is accepted |
| UseTranslation.BaseUpdateFields | frontend/src/hooks/use-translation.ts:45-61 | the base update is sent exactly when one of title, full name, location or summary is present, and carries exactly those, with the translated text |
| UseTranslation.TopPayloadKeys | frontend/src/hooks/use-translation.ts:45-57 | the base update's keys are among title, full_name, location and summary |
| UseTranslation.WorkPayloadFields | frontend/src/hooks/use-translation.ts:69-80 | a work-experience update carries company, position, location and description exactly when present, and nothing else |
| UseTranslation.EducationPayloadFields | frontend/src/hooks/use-translation.ts:94-114 | an education update carries only its seven text fields, never dates, grade point average or display order |
| UseTranslation.ProjectPayloadFields | frontend/src/hooks/use-translation.ts:128-139 | a project update carries only name, description, role and technologies |
| UseTranslation.SkillPayloadFields | frontend/src/hooks/use-translation.ts:153-158 | a skill update carries at most its name and category, each exactly when present |
| UseTranslation.TranslateCvMutation | frontend/src/hooks/use-translation.ts:174-198 | `useTranslateCv`'s mutation and `onSuccess`; stated by SameLanguageShortCircuit and MutationStopsAtFirstRejection |
| UseTranslation.SameLanguageShortCircuit | frontend/src/hooks/use-translation.ts:176-192 | equal languages make no call, resolve to the CV unchanged and still set the detail cache and invalidate the lists; otherwise the translate call comes first, and a rejected translation sends nothing else, rejects and leaves the cache alone |
| UseTranslation.MutationStopsAtFirstRejection | frontend/src/hooks/use-translation.ts:176-198 | with a translation, the calls are a prefix of translate, every update, refetch; a rejected base update stops before any section update; the mutation resolves, to the refetched CV and after every call, exactly when every update is accepted and the refetch answers; the cache changes exactly when it resolves |
| Validators.EmailPatternShape | frontend/src/routes/auth/register.tsx:26 | the pattern `^[^\s@]+@[^\s@]+\.[^\s@]+$` matches exactly the texts without white space that hold one '@', not first, followed by a '.' with a character on each side |
| Validators.AddressOfPartsMatches | frontend/src/routes/auth/register.tsx:26 | every address of the form local@domain.label, each part non-empty and free of white space and '@', matches the pattern |
| Validators.ErrorsOfExact | frontend/src/components/cv/work-experience-form.tsx:85-99 | with one check per field, a field is in the error record exactly when its check fails, and it carries that check's message |
| Validators.NoErrorsIff | frontend/src/components/cv/work-experience-form.tsx:98-99 | `validate` returns true (the record is empty) exactly when every check passes |
| Validators.RunChecks | frontend/src/components/cv/work-experience-form.tsx:85-100 | running the checks in order builds the error record, and succeeds exactly when it is empty |
| EntityForms.ChecksWellFormed | frontend/src/components/cv/work-experience-form.tsx:85-100 | every form checks each required field once, and no check is on a field that is sent only when non-empty |
| EntityForms.MessagesNonEmpty | frontend/src/components/cv/education-form.tsx:75-90 | every message a form's validation records is non-empty |
| EntityForms.OrEmpty | frontend/src/components/cv/work-experience-form.tsx:74 | `value \|\| ""` keeps a given text and turns a missing one into "" |
| EntityForms.InitialForm | frontend/src/components/cv/work-experience-form.tsx:45-52 | the initial state holds exactly the form's fields, each the initial data's value or "" |
| EntityForms.WorkExperienceValidIff | frontend/src/components/cv/work-experience-form.tsx:85-100 | the work-experience form validates exactly when company and position are not blank after trimming and the start date is non-empty; the start date is not trimmed, so one space passes |
| EntityForms.EducationValidIff | frontend/src/components/cv/education-form.tsx:75-90 | the education form validates exactly when institution and degree are not blank and a start date is set |
| EntityForms.NameOnlyValidIff | frontend/src/components/cv/project-form.tsx:68-77 | the project and skill forms validate exactly when the name is not blank |
| EntityForms.Payload | frontend/src/components/cv/work-experience-form.tsx:109-116 | the submitted data holds every required field as typed, and each optional field only when it is not empty |
| EntityForms.PayloadReloads | frontend/src/components/cv/work-experience-form.tsx:57-68 | submitted data read back as initial data restores the form it came from |
| EntityForms.EntityForm.constructor | frontend/src/components/cv/skill-form.tsx:31-34 | a new form starts from the initial data with no errors |
| EntityForms.EntityForm.Reload | frontend/src/components/cv/project-form.tsx:43-52 | new initial data replaces the whole form, missing initial data leaves it as it is, and errors stay |
| EntityForms.EntityForm.HandleChange | frontend/src/components/cv/education-form.tsx:61-73 | a change sets that one field (missing as "") and clears only that field's error |
| EntityForms.EntityForm.HandleSubmit | frontend/src/components/cv/skill-form.tsx:61-83 | submitting records the validation errors, and submits the payload exactly when the form validates |
| NewCv.Step1Errors | frontend/src/routes/app/cvs/new.tsx:96-105 | title and full name are flagged exactly when empty, the email exactly when it does not match the pattern ("required" when empty, "invalid" otherwise), and nothing else is flagged |
| NewCv.Step1ValidIff | frontend/src/routes/app/cvs/new.tsx:96-109 | step 1 validates exactly when title and full name are set and the email matches the pattern |
| NewCv.Without | frontend/src/routes/app/cvs/new.tsx:151 | filtering a key out removes it and keeps every other section |
| NewCv.WithoutAbsent | frontend/src/routes/app/cvs/new.tsx:151 | filtering out a key that is not selected changes nothing |
| NewCv.Toggle | frontend/src/routes/app/cvs/new.tsx:149-153 | toggling flips whether the key is selected, leaves every other section's selection, and appends a newly selected key at the end |
| NewCv.ToggleTwiceRestores | frontend/src/routes/app/cvs/new.tsx:149-153 | toggling an unselected key twice restores the selection exactly |
| NewCv.CreatePayload | frontend/src/routes/app/cvs/new.tsx:122-130 | the create body always carries title, full name and email as typed, and phone, location and summary exactly when they are not empty |
| NewCv.SectionsKeyShape | frontend/src/routes/app/cvs/new.tsx:136 | the storage key is "cv_sections_" followed by the CV id in decimal |
| NewCv.SectionPreference | frontend/src/routes/app/cvs/new.tsx:132-139 | the section preference is stored exactly when some section is selected, under the CV's key |
| NewCv.Wizard.constructor | frontend/src/routes/app/cvs/new.tsx:26-46 | the wizard starts at step 1 with empty fields, no errors, the four default sections and the summary sheet closed |
| NewCv.Wizard.Type | frontend/src/routes/app/cvs/new.tsx:207-297 | typing into an input sets that one field and nothing else |
| NewCv.Wizard.ValidateStep1 | frontend/src/routes/app/cvs/new.tsx:96-109 | validation records the step-1 errors and succeeds exactly when title, full name and a well-formed email are given |
| NewCv.Wizard.HandleNext | frontend/src/routes/app/cvs/new.tsx:111-114 | on step 1 the wizard advances only when step 1 validates; on any other step it advances unconditionally |
| NewCv.Wizard.HandleBack | frontend/src/routes/app/cvs/new.tsx:116-118 | going back decrements the step, with no lower bound |
| NewCv.Wizard.ToggleSection | frontend/src/routes/app/cvs/new.tsx:149-153 | the selected sections become their toggle by the key |
| NewCv.Wizard.OpenSummaryAi | frontend/src/routes/app/cvs/new.tsx:68-73 | opening the assistant shows the current summary (or the placeholder text when empty), clears the generated text and opens the sheet |
| NewCv.Wizard.ReceiveSummary | frontend/src/routes/app/cvs/new.tsx:75-77 | a generated summary replaces the generated text only |
| NewCv.Wizard.ApplySummaryAi | frontend/src/routes/app/cvs/new.tsx:81-86 | applying keeps the summary when nothing was generated and otherwise takes the generated text; the sheet closes |
| NewCv.Wizard.Submit | frontend/src/routes/app/cvs/new.tsx:120-130 | submitting sends the create body built from the current fields |
| NewCv.Wizard.OnCreated | frontend/src/routes/app/cvs/new.tsx:132-139 | after creation the section preference is written exactly when some section is selected |
| RegisterForm.FormErrors | frontend/src/routes/auth/register.tsx:21-35 | the email is flagged exactly when it does not match the pattern, the password exactly when shorter than 8, each with "required" when empty and the specific message otherwise |
| RegisterForm.FormValidIff | frontend/src/routes/auth/register.tsx:21-38 | the form validates exactly when the email matches the pattern and the password has at least 8 characters |
| RegisterForm.RegisterBody | frontend/src/routes/auth/register.tsx:45-52 | the body carries email and password, and the full name exactly when it is not empty |
| RegisterForm.RegisterPage.constructor | frontend/src/routes/auth/register.tsx:14-17 | the page starts with empty fields and no errors |
| RegisterForm.RegisterPage.ValidateForm | frontend/src/routes/auth/register.tsx:21-38 | validation records the form errors and succeeds exactly when the email and password are acceptable |
| RegisterForm.RegisterPage.HandleSubmit | frontend/src/routes/auth/register.tsx:40-59 | the register request is sent exactly when the form validates, with the register body |
| Templates.SplitLines | frontend/src/templates/ClassicTemplate.tsx:30 | splitting on `\r?\n` yields at least one line and no line holds a line feed |
| Templates.SplitLinesWithoutCarriageReturns | frontend/src/templates/ClassicTemplate.tsx:30 | on text without carriage returns the split is the plain split on line feeds |
| Templates.CleanLine | frontend/src/templates/ClassicTemplate.tsx:31 | a cleaned line is empty or starts and ends with a non-white-space character, and is never longer than the line |
| Templates.CleanedLines | frontend/src/templates/ClassicTemplate.tsx:31-32 | the bullets are the non-empty cleaned lines, in order, and never more than the lines |
| Templates.CleanedLinesMembers | frontend/src/templates/ClassicTemplate.tsx:31-32 | a text is a bullet exactly when it is non-empty and some line cleans to it |
| Templates.RenderBullets | frontend/src/templates/ClassicTemplate.tsx:27-43 | no list is rendered for missing or empty text or when every line cleans to nothing; otherwise the list holds the non-empty bullets |
| Templates.SingleLineBullet | frontend/src/templates/MinimalTemplate.tsx:27-43 | a single trimmed line without a marker is its own one bullet |
| Templates.MarkerOnlyLineIsDropped | frontend/src/templates/ModernTemplate.tsx:27-43 | any line that trims to a lone '-' or '•' cleans to the empty text, so it yields no bullet |
| Templates.EndText | frontend/src/templates/ClassicTemplate.tsx:99 | the end of a date range is the end date when set and "Present" otherwise, never empty |
| Templates.DateRange | frontend/src/templates/ClassicTemplate.tsx:119 | the date line starts with the start date and ends with the end date, or "Present" when none is set |
| Templates.ContactLine | frontend/src/templates/ClassicTemplate.tsx:66-78 | the contact line starts with the email, then " • phone" when set and " • location" when set (not in the modern template), and nothing else |
| Templates.LocationChip | frontend/src/templates/ModernTemplate.tsx:77-89 | the modern template shows the location as a chip exactly when it is set |
| Templates.GpaLine | frontend/src/templates/ModernTemplate.tsx:163 | a "GPA: " line appears exactly when the GPA is set and the template is not the minimal one |
| Templates.JoinedInOrder | frontend/src/templates/MinimalTemplate.tsx:122 | in a joined text each part sits at its offset, followed by the separator unless it is the last |
| Templates.SkillsInListOrder | frontend/src/templates/ClassicTemplate.tsx:132 | the skills line lists each skill name in list order, separated by ", " |
| Templates.ProjectHeading | frontend/src/templates/ClassicTemplate.tsx:141-144 | a non-empty project name is the heading; an empty one falls back to the title except in the modern template |
| Templates.ProjectDates | frontend/src/templates/ModernTemplate.tsx:216-220 | the modern template shows a project date span exactly when a start or end is set: the start and a space, then "- end" when an end is set |
| RootLayout.KeepInitialChars | frontend/src/routes/__root.tsx:120 | removing every character outside letters, digits, '@' and space leaves only such characters and never lengthens the text |
| RootLayout.Words | frontend/src/routes/__root.tsx:121-122 | splitting on runs of white space and '@' and dropping empties gives non-empty words of word characters only, each starting with a character of the text |
| RootLayout.UpperChar | frontend/src/routes/__root.tsx:125 | upper-casing maps a lower-case ASCII letter to its capital and leaves every other character |
| RootLayout.Initials | frontend/src/routes/__root.tsx:117-126 | the initials are one or two characters, each a capital letter or a digit |
| RootLayout.InitialsOfWords | frontend/src/routes/__root.tsx:118-125 | with no word the initials are "U"; otherwise they are the capitalised first character of the first word, and of the second word exactly when there is one |
| RootLayout.KeepAllKept | frontend/src/routes/__root.tsx:120 | a text made only of kept characters is unchanged by the filter |
| RootLayout.TwoWordSource | frontend/src/routes/__root.tsx:117-120 | a name of two alphanumeric words joined by one space is read untrimmed and passes the character filter unchanged |
| RootLayout.TwoWordWords | frontend/src/routes/__root.tsx:121-122 | two alphanumeric words joined by one space split into exactly those two words |
| RootLayout.TwoWordInitials | frontend/src/routes/__root.tsx:117-126 | any name of two alphanumeric words joined by one space gives the upper-cased first characters of the two words, whatever the email |
| RootLayout.DisplayName | frontend/src/routes/__root.tsx:143 | with no user the name is empty; a set full name is shown as is; otherwise the email's local part, a prefix of the email without '@' |
| RootLayout.LocalPartIsPrefix | frontend/src/routes/__root.tsx:143 | the text before the first '@' is a prefix of the email |
| RootLayout.AvatarInitials | frontend/src/routes/__root.tsx:145 | the avatar initials are empty exactly when there is no user, and otherwise one or two characters |
| RootLayout.MatchCrumbs | frontend/src/routes/__root.tsx:169-190 | a route match gives one crumb, or two for a child of a CV route whose first links to the CV's editor; the last crumb links to the match's path (or the location's) and carries the mapped caption, the CV label or "Page" |
| RootLayout.CrumbsLength | frontend/src/routes/__root.tsx:166-191 | the number of crumbs is one per non-root match plus one per CV child |
| RootLayout.RootAloneHasNoCrumbs | frontend/src/routes/__root.tsx:167 | the root match alone gives no crumbs |
| RootLayout.BuildCrumbs | frontend/src/routes/__root.tsx:162-191 | the loop over the matches builds exactly the crumbs of the non-root matches, in order |
| RootLayout.MarkLast | frontend/src/routes/__root.tsx:193-196 | marking keeps every crumb's caption and link and flags exactly the last one |
| QueryKeys.KeysStartWithCvs | frontend/src/hooks/use-cvs.ts:10-17 | every CV query key extends the key ["cvs"] |
| QueryKeys.FamilyPrefixes | frontend/src/hooks/use-cvs.ts:12-16 | each list key extends the lists key and each detail key the details key |
| QueryKeys.DetailInjective | frontend/src/hooks/use-cvs.ts:16 | two detail keys are equal exactly when their ids are |
| QueryKeys.FamiliesDisjoint | frontend/src/hooks/use-cvs.ts:12-16 | no list key extends the details key and no detail key extends the lists key |
| QueryKeys.Invalidates | frontend/src/hooks/use-cvs.ts:48-79 | every mutation invalidates the lists, and an update also the CV's detail |
| QueryKeys.StaleQueries | frontend/src/hooks/use-cvs.ts:46-82 | after any mutation every list query is stale; a detail query is stale exactly after an update of that same CV |
| ApiConfig.FromEnv | frontend/src/lib/api/config.ts:7-8 | a non-empty environment value is used as is; a missing or empty one gives the default |
| ApiConfig.Settings | frontend/src/lib/api/config.ts:6-10 | the base URL and the version are never empty |
| ApiConfig.CleanPath | frontend/src/lib/api/config.ts:13 | one leading slash is removed from the path, and a path without one is kept |
| ApiConfig.GetApiUrl | frontend/src/lib/api/config.ts:12-15 | the URL is the base URL, "/api/", the version and "/", followed by the cleaned path |
| ApiConfig.LeadingSlashIgnored | frontend/src/lib/api/config.ts:12-15 | a path with and without one leading slash gives the same URL |
| ApiConfig.OnlyOneSlashRemoved | frontend/src/lib/api/config.ts:13 | of two leading slashes only one is removed |
| ApiConfig.DistinctPathsDistinctUrls | frontend/src/lib/api/config.ts:12-15 | for paths without a leading slash, equal URLs mean equal paths |
| AuthStorage.AuthService.constructor | frontend/src/lib/api/services/auth.service.ts:9-12 | the service starts over the given storage with the JSON codec |
| AuthStorage.AuthService.GetToken | frontend/src/lib/api/services/auth.service.ts:88-90 | the token is returned exactly when one is stored under "access_token" |
| AuthStorage.AuthService.GetUser | frontend/src/lib/api/services/auth.service.ts:109-112 | no user is returned when "user" is missing or empty; a returned user is the decoded stored text |
| AuthStorage.AuthService.SetToken | frontend/src/lib/api/services/auth.service.ts:95-97 | storing a token changes only "access_token", after which that token is read back and the user counts as signed in |
| AuthStorage.AuthService.RemoveToken | frontend/src/lib/api/services/auth.service.ts:102-104 | removing the token deletes only "access_token", after which the user is signed out |
| AuthStorage.AuthService.SetUser | frontend/src/lib/api/services/auth.service.ts:117-119 | storing a user changes only "user", and that same user is read back |
| AuthStorage.AuthService.RemoveUser | frontend/src/lib/api/services/auth.service.ts:124-126 | removing the user deletes only "user", after which no user is read |
| AuthStorage.AuthService.Logout | frontend/src/lib/api/services/auth.service.ts:53-56 | logging out deletes exactly the token and the user, leaving no token and no user |
| AuthStorage.AuthService.HandleUnauthorized | frontend/src/lib/api/client.ts:29-31 | the token and the user are removed from local storage and nothing else changes |
| AuthStorage.AuthService.Receive | frontend/src/lib/api/client.ts:86-96 | a 401 answer clears the token and the user, any other outcome leaves storage as it was; the answer is passed on exactly when there is one |
| AuthStorage.AuthService.Login | frontend/src/lib/api/services/auth.service.ts:24-48 | no user without a token; a 401 on the token request signs the browser out and any other refusal changes nothing; with a token, the user is returned and stored exactly when `getCurrentUser` answers, with the token stored first; a 401 on that fetch clears both keys, any other failure keeps the token |
| Text.StripEmptyIff | translation-service/main.py:153 | stripping leaves nothing exactly when every character is white space |
| Text.StripShape | translation-service/main.py:163 | the stripped text neither starts nor ends with white space and occurs in the original text |
| Text.StripIdempotent | translation-service/main.py:153 | stripping twice gives the same text as stripping once |
| Text.LowerStripCommute | backend/app/services/translation_service.py:16 | lower-casing then stripping equals stripping then lower-casing, so the service and the microservice clean a language code alike |
| Text.JoinSplit | backend/app/core/config.py:13 | joining the pieces of a split on one character with that character gives back the text |
| Store.Dump | backend/app/api/v1/endpoints/cvs.py:23 | `model_dump()` has exactly the declared fields; a sent field keeps its value, an unsent optional one takes its default |
| Store.Assigned | backend/app/api/v1/endpoints/cvs.py:78-81 | a partial update sets exactly the sent declared fields to the sent values and leaves every other column as it was |
| Store.AssignFields | backend/app/api/v1/endpoints/cvs.py:79-80 | the `setattr` loop over the sent fields computes that partial update |
| Store.Database.constructor | backend/app/models/cv.py:7-34 | an empty database satisfies the table invariants (owners exist, entries and links point at existing CVs, ids below the counter) |
| Store.EntriesOfExact | backend/app/models/cv.py:22-31 | a CV's relationship list holds exactly its entries of that kind, each once, in ascending id order |
| Cvs.NewCvAsWritten | backend/app/api/v1/endpoints/cvs.py:23-24 | the row `create_cv` builds as written; stated by AsWrittenCreateNeverSucceeds and AsWrittenRefusesTestRequest |
| Cvs.AsWrittenCreateNeverSucceeds | backend/app/api/v1/endpoints/cvs.py:23-24 | as written, create never yields a row: 422 exactly when a field required by `CVCreate` (including `user_id`) is missing, 500 otherwise |
| Cvs.AsWrittenRefusesTestRequest | backend/tests/test_cvs.py:9-31 | the backend's own create request is refused with 422, and with `user_id` added it is refused with 500 |
| Cvs.NewCv | backend/app/api/v1/endpoints/cvs.py:23-24 | the new row exists exactly when title, full name and email are sent; it is owned by the caller and holds the six contact fields as sent, absent optional ones null |
| Cvs.CreateCvAsWritten | backend/app/api/v1/endpoints/cvs.py:16-28 | as written, create always answers with the error of the as-written row construction |
| Cvs.CreateCv | backend/app/api/v1/endpoints/cvs.py:16-28 | a valid body stores one new CV owned by the caller under a fresh id and changes nothing else; an invalid one changes nothing |
| Cvs.OwnedIdsExact | backend/app/api/v1/endpoints/cvs.py:39-41 | the query `user_id == caller` lists exactly the caller's CVs, each once, in ascending id order |
| Cvs.Page | backend/app/api/v1/endpoints/cvs.py:42-43 | `OFFSET skip LIMIT limit` returns at most `limit` items, the items from position `skip` on, in order |
| Cvs.PagesConcatenate | backend/tests/test_cvs.py:113-138 | two consecutive pages make up the page that spans both, so paging neither skips nor repeats a CV |
| Cvs.ListCvs | backend/app/api/v1/endpoints/cvs.py:39-46 | `list_cvs`; stated by ListCvsOwned, ListCvsComplete and PagesConcatenate |
| Cvs.ListCvsOwned | backend/app/api/v1/endpoints/cvs.py:39-46 | every listed CV is the caller's, the list is ascending and holds at most `limit` CVs |
| Cvs.ListCvsComplete | backend/tests/test_cvs.py:140-160 | with no offset and a large enough limit every CV of the caller is listed |
| Cvs.GetCv | backend/app/api/v1/endpoints/cvs.py:56-61 | returns the stored CV exactly when it exists and belongs to the caller, otherwise 404 "CV not found or you don't have access" |
| Cvs.UpdatedCv | backend/app/api/v1/endpoints/cvs.py:78-81 | the owner is kept, sent `CVUpdate` fields take the sent values and all other columns are unchanged |
| Cvs.UpdateCv | backend/app/api/v1/endpoints/cvs.py:64-84 | a missing or foreign CV gives 404 and no change; otherwise only that CV is replaced by its partial update |
| Cvs.EntriesOutside | backend/app/models/cv.py:22-31 | the entries kept are exactly those of other CVs, unchanged |
| Cvs.LinksOutside | backend/app/models/cv.py:32-34 | the share links kept are exactly those of other CVs, unchanged |
| Cvs.CascadeConsistent | backend/app/models/cv.py:22-34 | removing a CV with its entries and share links keeps the tables consistent |
| Cvs.DeleteCv | backend/app/api/v1/endpoints/cvs.py:87-102 | a missing or foreign CV gives 404 and no change; otherwise the CV, all its entries and all its share links are removed and nothing else |
| Cvs.DeletedCvIsGone | backend/tests/test_cvs.py:273-313 | after a delete, get answers 404 and no entry or link of that CV remains |
| Sections.UpdateFields | backend/app/schemas/education.py:30-43 | an `...Update` schema declares the create fields and never `cv_id`, so an entry cannot be moved to another CV |
| Sections.VerifyCvOwnership | backend/app/api/v1/endpoints/work_experiences.py:18-26 | returns the CV exactly when it exists and the caller owns it, otherwise 403 "CV not found or you don't have access to this CV" |
| Sections.Lookup | backend/app/api/v1/endpoints/work_experiences.py:55-60 | the entry lookup shared by get, update and delete; stated by LookupOrder and NotFoundIsNotForbidden |
| Sections.LookupOrder | backend/app/api/v1/endpoints/work_experiences.py:55-60 | 404 exactly when no entry of that kind has the id, whoever asks; 403 exactly when it exists and its CV is not the caller's; otherwise the entry (same pattern in educations.py, projects.py, skills.py) |
| Sections.NotFoundIsNotForbidden | backend/app/api/v1/endpoints/work_experiences.py:57 | the 404 answer is never the 403 answer |
| Sections.NewEntry | backend/app/api/v1/endpoints/work_experiences.py:41 | the stored entry has the requested kind and CV, exactly the declared fields, and each sent field as sent |
| Sections.CreateEntry | backend/app/api/v1/endpoints/work_experiences.py:29-45 | an invalid body (missing field, GPA outside [0, 4.0]) gives 422 and a CV the caller does not own gives 403, both with no change; otherwise exactly one new entry is stored |
| Sections.UpdatedEntry | backend/app/api/v1/endpoints/work_experiences.py:79-81 | kind and CV are kept, sent declared fields take the sent values and every other column is unchanged |
| Sections.UpdateEntry | backend/app/api/v1/endpoints/work_experiences.py:64-85 | an invalid GPA gives 422, then 404 before 403 with no change; otherwise only that entry is replaced by its partial update |
| Sections.DeleteEntry | backend/app/api/v1/endpoints/work_experiences.py:88-104 | 404 before 403 with no change; otherwise exactly that entry is removed and nothing else |
| Exports.GetOwnedCv | backend/app/api/v1/endpoints/exports.py:21-27 | returns the CV exactly when it exists and is the caller's, otherwise 404 "CV not found" |
| Exports.LatestUnexpired | backend/app/api/v1/endpoints/exports.py:30-42 | a found link is a stored link of this CV and user with `expires_at > now` |
| Exports.LatestUnexpiredIsLatest | backend/app/api/v1/endpoints/exports.py:30-42 | a link is found exactly when some link of this CV and user is unexpired, and no such link expires later than the one found |
| Exports.Decide | backend/app/api/v1/endpoints/exports.py:45-106 | the outcome of `create_share_link` given how building the service and the upload ended; stated by ForeignCvRefused, ReuseBeforeValidation, RecordOnlyAfterUpload and UploadFailures |
| Exports.ForeignCvRefused | backend/app/api/v1/endpoints/exports.py:58 | a CV that is not the caller's is refused with 404 whatever the upload and the stored links |
| Exports.ReuseBeforeValidation | backend/app/api/v1/endpoints/exports.py:60-62 | when an unexpired link exists it is reused, the latest one, even for a non-PDF or empty upload |
| Exports.RecordOnlyAfterUpload | backend/app/api/v1/endpoints/exports.py:58-104 | a new link is recorded exactly when the CV is the caller's, no link is unexpired, the upload is a non-empty PDF, the blob service is built and the upload returns a signed link; the row carries the CV, the caller, the URL and the expiry |
| Exports.UploadFailures | backend/app/api/v1/endpoints/exports.py:64-94 | past the reuse check a non-PDF is 400 "Only PDF uploads are supported", an empty body 400 "Uploaded file is empty", a blob service that cannot be built a bare 500 (it is built outside the `try`), an upload ValueError 500 with its message, any other upload failure 502 |
| Exports.DecideAsWritten | backend/app/api/v1/endpoints/exports.py:76-94 | the handler as written, over the settings object; stated by AsWrittenNeverRecords |
| Exports.AsWrittenNeverRecords | backend/app/api/v1/endpoints/exports.py:76-94 | with the settings `Settings` declares, no share link is ever recorded, and a call of the handler that passes every check answers a bare 500, whatever storage would do |
| Exports.DecideCorrected | backend/app/api/v1/endpoints/exports.py:76-104 | the handler with the PDF container, link lifetime and account key declared; stated by CorrectedRecords |
| Exports.CorrectedRecords | backend/app/api/v1/endpoints/exports.py:76-104 | with the container, link-lifetime and account-key settings declared, a call of the handler that passes its checks records the link the storage SDK signs exactly when the connection string and PDF container are set, the SDK stores the blob and an account key is at hand |
| Exports.CreateShareLink | backend/app/api/v1/endpoints/exports.py:45-106 | refusals, including a blob service that cannot be built, and reuse change nothing; a recorded link adds exactly one share-link row and answers with its URL and expiry |
| Auth.NewUserAsWritten | backend/app/api/v1/endpoints/auth.py:48-54 | as written, the stored row takes `is_superuser` from the request and holds the hash of the password |
| Auth.AsWrittenSelfGrantsSuperuser | backend/app/schemas/user.py:6-15 | a registration body anyone may send with `is_superuser: true` yields a row that `get_current_active_superuser` admits |
| Auth.NewUser | backend/app/api/v1/endpoints/auth.py:48-54 | the corrected row keeps email, full name and `is_active`, stores only the password's hash, and is never a superuser and has no picture |
| Auth.RegisteredUserIsNoSuperuser | backend/app/core/deps.py:67-72 | no registration, whatever it sends, passes the superuser guard |
| Auth.FindByEmail | backend/app/api/v1/endpoints/auth.py:40 | a found id is a stored user holding that email |
| Auth.FindByEmailExact | backend/app/api/v1/endpoints/auth.py:40 | the lookup finds nothing exactly when no user below the bound holds the email, and otherwise finds the lowest id that does |
| Auth.FindByEmailTaken | backend/app/api/v1/endpoints/auth.py:40-41 | over the whole table the lookup finds a user exactly when the email is taken |
| Auth.InsertUser | backend/app/api/v1/endpoints/auth.py:39-58 | a taken email gives 400 "A user with this email already exists" and no change; otherwise exactly one user row is added |
| Auth.RegisterAsWritten | backend/app/api/v1/endpoints/auth.py:25-58 | as written, a new email stores the as-written row (request's superuser flag) under a fresh id |
| Auth.Register | backend/app/api/v1/endpoints/auth.py:25-58 | a taken email changes nothing; a new email stores the corrected row under a fresh id |
| Auth.Login | backend/app/api/v1/endpoints/auth.py:80-102 | `login`; stated by LoginUnknownEmail and LoginKnownEmail |
| Auth.LoginUnknownEmail | backend/app/api/v1/endpoints/auth.py:80-86 | an unregistered email is refused with 401 "Incorrect email or password" and `WWW-Authenticate: Bearer`, whatever the password |
| Auth.LoginKnownEmail | backend/app/api/v1/endpoints/auth.py:80-102 | for a registered email: 401 with the challenge exactly when the password does not verify; 400 "Inactive user" exactly when it verifies and the user is inactive; a "bearer" token for that user's id exactly otherwise |
| Auth.PictureUrl | backend/app/api/v1/endpoints/auth.py:142-167 | a URL exactly when the type is JPEG or PNG, the data non-empty, the blob service built and the upload succeeds; otherwise 400 for the type, 400 for empty data, a bare 500 when the service cannot be built, 400 with an upload ValueError's message, 502 for other upload failures, in that order |
| Auth.PictureUrlAsWritten | backend/app/api/v1/endpoints/auth.py:154-167 | the picture upload as written, calling the undefined `upload_profile_picture`; stated by PictureAsWrittenNeverStored |
| Auth.PictureAsWrittenNeverStored | backend/app/api/v1/endpoints/auth.py:154-167 | as written no picture is ever stored: with the declared settings a valid image answers a bare 500, and whenever the service can be built the missing `upload_profile_picture` makes it 502 |
| Auth.PictureUrlCorrected | backend/app/api/v1/endpoints/auth.py:154-169 | the picture upload with the picture container declared and the upload defined as for PDFs; stated by PictureStoredWhenConfigured |
| Auth.PictureStoredWhenConfigured | backend/app/api/v1/endpoints/auth.py:154-169 | corrected, a valid image gets the URL the SDK signs exactly when the connection string and picture container are set, the SDK stores the blob and an account key is at hand |
| Auth.UploadProfilePicture | backend/app/api/v1/endpoints/auth.py:133-173 | a refusal, including a blob service that cannot be built, changes nothing; a success changes only the caller's `profile_picture_url`, to the stored picture's URL |
| BlobStorage.NewBlobService | backend/app/services/blob_service.py:26-47 | the service is built exactly when the connection string and the container setting are non-empty and the SDK does not raise; a missing attribute is an AttributeError naming it, an empty one the ValueError "<name> not configured", the connection string checked first |
| BlobStorage.AsWrittenNeverBuilt | backend/app/services/blob_service.py:26-30 | with the attributes `Settings` declares, the constructor always raises: ValueError for the default empty connection string, otherwise AttributeError for AZURE_STORAGE_CONTAINER_NAME |
| BlobStorage.CorrectedBuilt | backend/app/services/blob_service.py:26-47 | reading a declared container setting, the constructor succeeds exactly when the connection string and that container are set and the SDK does not raise, and never raises AttributeError |
| BlobStorage.UploadSigned | backend/app/services/blob_service.py:84-112 | a signed link exactly when the SDK stores the blob, the link-lifetime and account-key attributes exist and a key is at hand (the setting or the connection string's); otherwise the SDK's exception, the AttributeError of the first missing setting, or ValueError about the missing key, in that order |
| BlobStorage.AsWrittenUploadFails | backend/app/services/blob_service.py:100 | with the attributes `Settings` declares, an upload never returns a link: a stored blob fails with AttributeError for AZURE_STORAGE_SAS_TTL_MINUTES |
| BlobStorage.CorrectedUpload | backend/app/services/blob_service.py:49-112 | with the link lifetime and account key declared, an upload is signed exactly when the SDK stores it and a key is at hand; otherwise it is the SDK's exception or the missing-key ValueError |
| Deps.CurrentUser | backend/app/core/deps.py:36-49 | a token error is passed on; no such user gives 404 "User not found"; an inactive one 400 "Inactive user"; otherwise exactly the looked-up user |
| Deps.ActiveSuperuser | backend/app/core/deps.py:67-72 | returns the user unchanged exactly when a superuser, otherwise 403 "The user doesn't have enough privileges" |
| Ai.AiErrorStatus | backend/app/api/v1/endpoints/ai.py:45-59 | 503 exactly for a ConnectionError (message kept) or a ValueError ("AI service not configured: " + message); 500 with the endpoint's failure prefix for anything else (same clauses at 115-129 and 200-214) |
| Ai.OptimizeDescription | backend/app/api/v1/endpoints/ai.py:22-59 | succeeds exactly when the service call does; the answer echoes `original_text` as `original` with the service's text as `optimized`; a failure is mapped by the shared clauses |
| Ai.Tone | backend/app/api/v1/endpoints/ai.py:111 | the tone is "professional" exactly when the request's tone is missing, empty or "professional"; any other tone is passed on unchanged |
| Ai.SummaryDataOf | backend/app/api/v1/endpoints/ai.py:88-106 | the summary data has one record per work experience, education and skill of the CV |
| Ai.GenerateSummary | backend/app/api/v1/endpoints/ai.py:62-129 | 404 "CV not found" exactly when the CV is not the caller's; otherwise the service is called with the CV's data and the defaulted tone, and its answer or its mapped error is returned |
| Ai.ScoreFlags | backend/app/api/v1/endpoints/ai.py:157-194 | `has_phone`, `has_location`, `has_email` are true iff the column is truthy; each work experience's `has_dates` iff its start date is set; each project's `has_url` iff `url` or `github_url` is set; one record per entry |
| Ai.ScoreCv | backend/app/api/v1/endpoints/ai.py:132-214 | 404 "CV not found" exactly when the CV is not the caller's; otherwise the service's score of the flagged data, or its mapped error |
| Dashboard.Score | backend/app/api/v1/endpoints/dashboard.py:22-68 | the completion score: 3, plus one per truthy phone, location and summary, plus one per non-empty section; stated through CalculateCvCompletion, RateBounds and CompleteIff |
| Dashboard.CalculateCvCompletion | backend/app/api/v1/endpoints/dashboard.py:20-71 | the counter-and-append procedure computes the rate (3 + truthy optional fields + non-empty sections, over 10, as a percentage) and the missing sections |
| Dashboard.Rate | backend/app/api/v1/endpoints/dashboard.py:68-71 | the completion rate; stated by RateBounds and CompleteIff |
| Dashboard.RateBounds | backend/app/api/v1/endpoints/dashboard.py:68-71 | every completion rate lies between 30 and 100 |
| Dashboard.MissingSections | backend/app/api/v1/endpoints/dashboard.py:33-66 | the missing-section list; stated by MissingSectionsExact |
| Dashboard.MissingSectionsExact | backend/app/api/v1/endpoints/dashboard.py:47-66 | a section is listed as missing exactly when it has no entries, each at most once, in the order Work Experience, Education, Skills, Projects |
| Dashboard.CompleteIff | backend/app/api/v1/endpoints/dashboard.py:22-71 | the rate is 100 exactly when phone, location and summary are truthy and no section is missing |
| Dashboard.Incomplete | backend/app/api/v1/endpoints/dashboard.py:109-121 | the incomplete CVs with their rates and missing sections; stated by IncompleteExact and IncompleteInOrder |
| Dashboard.IncompleteInOrder | backend/app/api/v1/endpoints/dashboard.py:109-121 | entry k of the incomplete list is built (id, title, rate, missing sections) from the CV at position IncompleteIndices(cvs)[k], that CV is below 100, and these positions strictly increase, so the list keeps CV order |
| Dashboard.IncompleteExact | backend/app/api/v1/endpoints/dashboard.py:109-121 | the incomplete list is no longer than the CV list and every entry's rate is below 100; every entry is built from some CV below 100, and every CV below 100 appears in it |
| Dashboard.Take | backend/app/api/v1/endpoints/dashboard.py:151 | `xs[:n]` keeps the first n items, or all when there are fewer |
| Dashboard.RateSumBounds | backend/app/api/v1/endpoints/dashboard.py:123-127 | the rates of n CVs sum to between 30n and 100n, so the average lies between 30 and 100 |
| Dashboard.LastActivityIsLatest | backend/app/api/v1/endpoints/dashboard.py:139 | without CVs the last activity is the user's own `updated_at`; otherwise it is the `updated_at` of one of the CVs and no CV was updated later |
| Dashboard.GetDashboardStats | backend/app/api/v1/endpoints/dashboard.py:74-152 | zero CVs give 0, 0, 0.0, the user's `updated_at` and no incomplete CVs; otherwise the total, min(total, 3) templates, the average rate, the latest update and the first five incomplete CVs |

## Left out

- I/O and foreign code are parameters of the model, not part of it:
  - the transformers translation model (`translation-service/main.py:123-129`) is a function `string -> Option<string>`;
  - the external batch API is a function from a batch to an answer;
  - password hashing, password verification, JWT encoding and decoding are functions passed in;
  - the Azure storage SDK (creating the client and container, `upload_blob`, `generate_blob_sas`) is a parameter of BlobStorage: whether creating the client raises, and whether the upload raises or stores the blob with a signed link;
  - the LLM calls of `backend/app/services/ai_service.py` are functions from the request to a reply or an exception;
  - the clock (`now`) is an input.
- `backend/app/core/monitoring.py` is not part of this model: it is telemetry.
- The prompt texts of `ai_service.py` are not part of this model.
- The routers of the ai, translation, exports and dashboard endpoint modules are not mounted: backend/app/api/v1/api.py includes only the auth, health, cvs, work-experience, education, skill and project routers, and backend/app/main.py mounts only that router. Ai, TranslationEndpoint, Exports and Dashboard therefore model the handler functions as functions of their request, caller and dependencies; an HTTP request to those paths is answered 404 by FastAPI, which the model does not state.
- Importing backend/app/api/v1/endpoints/ai.py raises ImportError, because it imports `ScoreCVRequest` and `ScoreCVResponse` from `schemas/ai.py`, which defines neither. The Ai model describes the handlers as if the module loaded.
- `score_cv` is called by the AI endpoint but is not defined in `ai_service.py`; likewise `ScoreCVRequest`/`ScoreCVResponse` are imported but not defined in `schemas/ai.py`. The endpoint's scoring call is a parameter, and the request and response are modelled from the fields the endpoint uses.
- Ai.GenerateSummary and Ai.OptimizeDescription do not model the response text beyond what the endpoint copies from the request and the service.
- Pydantic parsing is simplified:
  - a body is a map of sent fields;
  - type coercion, `EmailStr` checking and the exact 422 error bodies are not modelled;
  - only the required-field rule and the GPA bound are.
- SQL is simplified:
  - the database has one id counter shared by all tables;
  - query results are listed in ascending id order, standing in for the insertion order of the source's queries;
  - negative `skip`/`limit` values (which SQL would refuse or treat specially) are not modelled;
  - NOT NULL `IntegrityError`s are not modelled.
- The store does not track timestamps (`created_at`, `updated_at`). Dashboard.GetDashboardStats receives each CV's `updated_at` in its snapshot, and the user's as an input.
- Dashboard.GetDashboardStats leaves out `recent_cvs`, the three CVs most recently updated: it is an ordering by timestamps the store does not keep.
- Dashboard.GetDashboardStats gives the exact mean of the rates as a real number; the floating-point `round(…, 1)` of the average is not modelled.
- Dashboard.CalculateCvCompletion gives the rate as the whole number score × 10, which is what `round(score / 10 * 100, 1)` yields for the integer scores involved, without floating point.
- Exports.LatestUnexpired picks the link of greatest expiry with the lowest id; which of several links with the same expiry the database returns is not modelled.
- Deps.CurrentUser takes the subject as an integer; the `int()` conversion of the JWT `sub` claim and its failure are part of the token-decoding parameter.
- The `profile_picture_url` column is added by the migration backend/alembic/versions/7c1c0c9d8a2b_add_profile_picture_to_user.py but is not an attribute of the `User` model (backend/app/models/user.py); the model gives the user the field the endpoint and the migration use.
- Reading a CV with its relations returns the CV row; the lazily loaded relationship lists are modelled by Store.EntriesOfExact, not as part of the response.
- `read_users_me` and `test_token` in `auth.py` are not modelled: each returns the guarded current user unchanged, which Deps.CurrentUser already states.
- Text.LowerChar lower-cases ASCII letters only; Python's `str.lower` and JavaScript's `toLowerCase` also map other scripts.
- RegisterForm.FormErrors compares the number of characters with 8. JavaScript's `password.length` counts UTF-16 code units, so a password of characters outside the Basic Multilingual Plane is longer there than here.
- GPA is a whole number or a real in the model; the `Decimal` type and its precision are not modelled.
- `JSON.stringify` and `JSON.parse` are the `encode`/`decode` parameters of AuthStorage.AuthService. The service relies on them forming a round trip.
- The backend's `get_translation_service` caches one service instance; the cache is not modelled.
- `get_blob_service` caches one `AzureBlobService` instance; the cache is not modelled, so each request builds the service afresh (a failing constructor never fills the cache, so as written each request fails the same way).
- BlobStorage.UploadSigned takes the link's expiry from the SDK parameter: the link lifetime `max(ttl or 60, 1)` minutes and the blob name are not computed, and `generate_blob_sas` is taken not to raise.
- Blob contents, metadata and the container's URL are not modelled; a signed link is a URL and an expiry.
- AuthStorage.AuthService.HandleUnauthorized does not model the redirect to `/auth/login` through `window.location`; only the two removed keys are.
- Replies are taken to be well formed JSON of the expected shape. A `translation` that `CVTranslation.model_validate` rejects (backend/app/services/translation_service.py:63) raises pydantic's ValidationError, a ValueError, which the endpoint would map to 503; and an external item whose `translatedText` is present but `null` gives None in the source (line 115), where TranslationService.TranslateTexts gives "" only for a missing key. Neither edge is modelled.
- UseTranslation.PersistTranslation lists the requests in the order they are created. `Promise.all` runs the section requests concurrently and their completion order is not modelled.
- React rendering, markup and styling are not modelled, nor the duplicate React keys the modern template gives to equal bullets.
- NewCv.Wizard.HandleBack decrements the step with no lower bound, as the source does; the buttons that keep it above 1 are markup.
- RegisterForm.RegisterPage models the page's state as fields; the React setters and re-rendering are not modelled.
- AuthStorage.AuthService.Login takes the token request's outcome and the `getCurrentUser` request (`me`) as parameters.
- UseTranslation: the HTTP client, the translate request and the refetch are parameters of the mutation.
- The JSON decoding errors of the microservice's `httpx` response are not modelled; a failed call is one exception.
- The PDF export client (capture, PDF assembly, clipboard copy) is not part of this model: its source is not part of the repository files modelled here.

## Findings

| source | as written | input that shows it | evidently intended | confidence | as-written member | corrected member |
|---|---|---|---|---|---|---|
| backend/app/api/v1/endpoints/cvs.py:23-24 | `CVCreate` (backend/app/schemas/cv.py:18-21) requires `user_id`, and the endpoint then passes `user_id` again to `CV(...)`. A body without `user_id` is refused with 422; a body with it makes `CV(**cv_data, user_id=...)` raise TypeError (a keyword given twice), so the answer is 500. No CV is ever created. | `{"title": "My CV", "full_name": "John Doe", "email": "john@example.com"}` from the backend's own CV tests (422); the same with `"user_id": 1` (500) | create the CV from title, full name, email and the optional contact fields, owned by the caller | not executed | Cvs.CreateCvAsWritten, Cvs.AsWrittenCreateNeverSucceeds, Cvs.AsWrittenRefusesTestRequest | Cvs.NewCv, Cvs.CreateCv |
| backend/app/api/v1/endpoints/auth.py:48-54 | registration copies `is_superuser` (and `is_active`) from the request body, because `UserCreate` inherits them from `UserBase` (backend/app/schemas/user.py:6-15) | a registration body with `"is_superuser": true` yields a user that `get_current_active_superuser` admits | a self-registered user is never a superuser | not executed | Auth.NewUserAsWritten, Auth.AsWrittenSelfGrantsSuperuser, Auth.RegisterAsWritten | Auth.NewUser, Auth.RegisteredUserIsNoSuperuser, Auth.Register |
| backend/app/services/translation_service.py:194-205 | `TranslationService()` reads `settings.TRANSLATION_SERVICE_URL`, `EXTERNAL_TRANSLATION_API_URL` and `EXTERNAL_TRANSLATION_API_KEY`, none of which `Settings` (backend/app/core/config.py:19-63) declares. The AttributeError is raised at backend/app/api/v1/endpoints/translation.py:34, outside the `try`, so every call of the `translate_cv` handler past the owner guard fails with an uncaught exception, which FastAPI would answer with a bare 500 if the router were mounted. | a call of the handler with `{"input_language": "en", "output_language": "es", "cv": ...}` on the caller's own CV | the three settings are declared (empty by default), so an unconfigured direction answers 503 and a configured one translates | not executed | TranslationEndpoint.AsWrittenServiceMissing, TranslationEndpoint.AsWrittenAlwaysFails | TranslationEndpoint.ServiceFromAttributesPresent, TranslationEndpoint.DefaultSettingsUnavailable, TranslationEndpoint.EnglishToSpanishEndToEnd |
| backend/app/services/blob_service.py:26-30 | `AzureBlobService()` reads `settings.AZURE_STORAGE_CONTAINER_NAME`, which `Settings` (backend/app/core/config.py:19-63) does not declare (it declares `AZURE_STORAGE_PDF_CONTAINER_NAME` and `AZURE_STORAGE_PFP_CONTAINER_NAME`). `get_blob_service()` is called outside the `try` (backend/app/api/v1/endpoints/exports.py:76), so the `create_share_link` handler lets its exception escape (a bare 500 were the router mounted). Even with the service built, `upload_cv_pdf` reads `AZURE_STORAGE_SAS_TTL_MINUTES` and `AZURE_STORAGE_ACCOUNT_KEY` (lines 56 and 100), also undeclared, and the AttributeError becomes a 502. No call of the handler ever records a share link. | a call of the handler with a non-empty `application/pdf` upload for the caller's own CV with no unexpired link, under any values of the declared settings | the service reads the declared PDF container setting, and `Settings` declares the link lifetime and the account key, so a configured store yields a signed link that is recorded | not executed | BlobStorage.AsWrittenNeverBuilt, BlobStorage.AsWrittenUploadFails, Exports.AsWrittenNeverRecords | BlobStorage.CorrectedBuilt, BlobStorage.CorrectedUpload, Exports.DecideCorrected, Exports.CorrectedRecords |
| backend/app/api/v1/endpoints/auth.py:154-158 | the profile-picture endpoint builds the same `AzureBlobService` outside the `try` (a bare 500 under the declared settings) and then calls `upload_profile_picture`, which the class does not define, so the AttributeError becomes 502 "Failed to upload profile picture". No picture is ever stored. | a non-empty `image/png` upload by any signed-in user | the service reads the declared picture container setting and offers `upload_profile_picture` as it offers `upload_cv_pdf`, so a configured store yields the picture's URL | not executed | Auth.PictureUrlAsWritten, Auth.PictureAsWrittenNeverStored | Auth.PictureUrlCorrected, Auth.PictureStoredWhenConfigured |
