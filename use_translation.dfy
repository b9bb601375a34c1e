/**
 * The frontend's translate-and-save flow (frontend/src/hooks/use-translation.ts):
 * after the backend returns the translated CV, the hook writes the
 * translated text back through the ordinary update endpoints, sending for
 * the CV and for each of its section entries only the translatable fields
 * the translation carries.
 */
module UseTranslation {
  import opened Wrappers
  import opened CvPayload

  /** A JavaScript value of type `string | null | undefined`. */
  datatype JsString = Undefined | Null | Text(text: string)

  /** A field of a decoded JSON response: the backend writes every key, with `null` for a missing value. */
  function Json(value: Option<string>): JsString
  {
    if value.Some? then Text(value.value) else Null
  }

  /** `toUpdateString`: null and undefined mean "leave out"; every string, even "", is kept. */
  function ToUpdateString(value: JsString): (r: Option<string>)
    ensures r.None? <==> value.Undefined? || value.Null?
    ensures value.Text? ==> r == Some(value.text)
  {
    if value.Undefined? || value.Null? then None else Some(value.text)
  }

  /*
   * `toIdMap`: a `Map` from id to item, filled by one `set` per item whose
   * id is a number.
   */

  /** The map `toIdMap` builds from the first `n` items. */
  function IdMap<T>(items: seq<T>, idOf: T -> Option<int>): map<int, T>
  {
    if items == [] then map[]
    else
      var m := IdMap(items[..|items| - 1], idOf);
      var id := idOf(items[|items| - 1]);
      if id.Some? then m[id.value := items[|items| - 1]] else m
  }

  method ToIdMap<T>(items: seq<T>, idOf: T -> Option<int>) returns (m: map<int, T>)
    ensures m == IdMap(items, idOf)
  {
    m := map[];
    var i := 0;
    while i < |items|
      invariant 0 <= i <= |items|
      invariant m == IdMap(items[..i], idOf)
    {
      assert items[..i + 1][..i] == items[..i];
      var id := idOf(items[i]);
      if id.Some? {
        m := m[id.value := items[i]];
      }
      i := i + 1;
    }
    assert items[..i] == items;
  }

  /** Item `i` is the last of `items` carrying id `k`. */
  predicate LastWithId<T>(items: seq<T>, idOf: T -> Option<int>, k: int, i: int)
  {
    0 <= i < |items| && idOf(items[i]) == Some(k)
    && forall j :: i < j < |items| ==> idOf(items[j]) != Some(k)
  }

  /** Some item carries id `k`. */
  predicate SomeWithId<T>(items: seq<T>, idOf: T -> Option<int>, k: int)
  {
    exists i :: 0 <= i < |items| && idOf(items[i]) == Some(k)
  }

  /**
   * The map's keys are exactly the numeric ids of the items, and each id
   * maps to the last item carrying it.
   */
  lemma {:induction false} IdMapLastWins<T>(items: seq<T>, idOf: T -> Option<int>, k: int)
    ensures k in IdMap(items, idOf) <==> SomeWithId(items, idOf, k)
    ensures k in IdMap(items, idOf) ==> exists i :: LastWithId(items, idOf, k, i) && IdMap(items, idOf)[k] == items[i]
  {
    if items != [] {
      var init := items[..|items| - 1];
      IdMapLastWins(init, idOf, k);
      var last := |items| - 1;
      if idOf(items[last]) == Some(k) {
        assert LastWithId(items, idOf, k, last);
      } else {
        if SomeWithId(items, idOf, k) {
          var i :| 0 <= i < |items| && idOf(items[i]) == Some(k);
          assert init[i] == items[i];
        }
        if k in IdMap(init, idOf) {
          var i :| LastWithId(init, idOf, k, i) && IdMap(init, idOf)[k] == init[i];
          assert LastWithId(items, idOf, k, i);
        }
      }
    }
  }

  /*
   * Update payloads. Each is an object whose keys are JSON field names;
   * a key left out is a field the update does not touch.
   */

  /** The payload for a list of (JSON name, translated value) pairs: each value that is present, under its name. */
  function FieldPayload(fields: seq<(string, JsString)>): map<string, string>
  {
    if fields == [] then map[]
    else
      var p := FieldPayload(fields[..|fields| - 1]);
      var (name, value) := fields[|fields| - 1];
      var v := ToUpdateString(value);
      if v.Some? then p[name := v.value] else p
  }

  /** The `if (x !== undefined) payload.name = x` sequence, one field after another. */
  method BuildPayload(fields: seq<(string, JsString)>) returns (payload: map<string, string>)
    ensures payload == FieldPayload(fields)
  {
    payload := map[];
    var i := 0;
    while i < |fields|
      invariant 0 <= i <= |fields|
      invariant payload == FieldPayload(fields[..i])
    {
      assert fields[..i + 1][..i] == fields[..i];
      var (name, value) := fields[i];
      var v := ToUpdateString(value);
      if v.Some? {
        payload := payload[name := v.value];
      }
      i := i + 1;
    }
    assert fields[..i] == fields;
  }

  predicate DistinctNames(fields: seq<(string, JsString)>)
  {
    forall i, j :: 0 <= i < j < |fields| ==> fields[i].0 != fields[j].0
  }

  /** Field `i` is named `name` and carries a value. */
  predicate Carries(fields: seq<(string, JsString)>, name: string, i: int)
  {
    0 <= i < |fields| && fields[i].0 == name && ToUpdateString(fields[i].1).Some?
  }

  /** Some field named `name` carries a value. */
  predicate CarriedSomewhere(fields: seq<(string, JsString)>, name: string)
  {
    exists i | 0 <= i < |fields| :: Carries(fields, name, i)
  }

  /**
   * With distinct names, the payload holds exactly the fields that carry a
   * value, each with that value; no other key ever appears.
   */
  lemma {:induction false} FieldPayloadExact(fields: seq<(string, JsString)>, name: string)
    requires DistinctNames(fields)
    ensures name in FieldPayload(fields) <==> CarriedSomewhere(fields, name)
    ensures forall i :: Carries(fields, name, i) ==> FieldPayload(fields)[name] == fields[i].1.text
  {
    if fields != [] {
      var init := fields[..|fields| - 1];
      var last := |fields| - 1;
      assert DistinctNames(init) by {
        forall i, j | 0 <= i < j < |init|
          ensures init[i].0 != init[j].0
        {
          assert init[i] == fields[i] && init[j] == fields[j];
        }
      }
      FieldPayloadExact(init, name);
      if name in FieldPayload(fields) {
        if Carries(fields, name, last) {
        } else {
          var i :| Carries(init, name, i);
          assert init[i] == fields[i];
          assert Carries(fields, name, i);
        }
      }
      forall i | Carries(fields, name, i)
        ensures name in FieldPayload(fields) && FieldPayload(fields)[name] == fields[i].1.text
      {
        if i < last {
          assert init[i] == fields[i];
          assert Carries(init, name, i);
        }
      }
    }
  }

  /** A name no field has never appears in the payload. */
  lemma {:induction false} FieldPayloadNames(fields: seq<(string, JsString)>, name: string)
    requires forall i :: 0 <= i < |fields| ==> fields[i].0 != name
    ensures name !in FieldPayload(fields)
  {
    if fields != [] {
      FieldPayloadNames(fields[..|fields| - 1], name);
    }
  }

  /** The four top-level fields of the base update, under their JSON names. */
  function TopFields(t: Cv): seq<(string, JsString)>
  {
    [("title", Json(t.title)), ("full_name", Json(t.fullName)), ("location", Json(t.location)), ("summary", Json(t.summary))]
  }

  function WorkFields(e: WorkExperience): seq<(string, JsString)>
  {
    [("company", Json(e.company)), ("position", Json(e.position)), ("location", Json(e.location)),
     ("description", Json(e.description))]
  }

  function EducationFields(e: Education): seq<(string, JsString)>
  {
    [("institution", Json(e.institution)), ("degree", Json(e.degree)), ("field_of_study", Json(e.fieldOfStudy)),
     ("description", Json(e.description)), ("honors", Json(e.honors)),
     ("relevant_subjects", Json(e.relevantSubjects)), ("thesis_title", Json(e.thesisTitle))]
  }

  function ProjectFields(p: Project): seq<(string, JsString)>
  {
    [("name", Json(p.name)), ("description", Json(p.description)), ("role", Json(p.role)),
     ("technologies", Json(p.technologies))]
  }

  function SkillFields(s: Skill): seq<(string, JsString)>
  {
    [("name", Json(s.name)), ("category", Json(s.category))]
  }

  /** One request `persistTranslation` issues. */
  datatype UpdateRequest =
    | UpdateCv(cvId: Option<int>, payload: map<string, string>)
    | UpdateWork(id: int, payload: map<string, string>)
    | UpdateEducation(id: int, payload: map<string, string>)
    | UpdateProject(id: int, payload: map<string, string>)
    | UpdateSkill(id: int, payload: map<string, string>)

  function WorkId(e: WorkExperience): Option<int> { e.id }
  function EducationId(e: Education): Option<int> { e.id }
  function ProjectId(p: Project): Option<int> { p.id }
  function SkillId(s: Skill): Option<int> { s.id }

  function UpdateWorkOf(id: int, payload: map<string, string>): UpdateRequest { UpdateWork(id, payload) }
  function UpdateEducationOf(id: int, payload: map<string, string>): UpdateRequest { UpdateEducation(id, payload) }
  function UpdateProjectOf(id: int, payload: map<string, string>): UpdateRequest { UpdateProject(id, payload) }
  function UpdateSkillOf(id: int, payload: map<string, string>): UpdateRequest { UpdateSkill(id, payload) }

  /** The base CV update, issued only when its payload is not empty. */
  function BaseRequests(current: Cv, translated: Cv): seq<UpdateRequest>
  {
    var p := FieldPayload(TopFields(translated));
    if |p| > 0 then [UpdateCv(current.id, p)] else []
  }

  /**
   * The requests for one section: for each current entry, in order, whose
   * id names a translated entry, the update built from that entry when it
   * is not empty.
   */
  function SectionRequests<T>(current: seq<T>, byId: map<int, T>, idOf: T -> Option<int>,
                              fieldsOf: T -> seq<(string, JsString)>,
                              make: (int, map<string, string>) -> UpdateRequest): seq<UpdateRequest>
  {
    if current == [] then []
    else
      var rest := SectionRequests(current[..|current| - 1], byId, idOf, fieldsOf, make);
      var id := idOf(current[|current| - 1]);
      if id.Some? && id.value in byId && |FieldPayload(fieldsOf(byId[id.value]))| > 0
      then rest + [make(id.value, FieldPayload(fieldsOf(byId[id.value])))]
      else rest
  }

  /** `currentCv.<section>.map(...).filter(Boolean)` for one section. */
  method SectionUpdates<T>(current: seq<T>, translated: seq<T>, idOf: T -> Option<int>,
                           fieldsOf: T -> seq<(string, JsString)>,
                           make: (int, map<string, string>) -> UpdateRequest)
    returns (requests: seq<UpdateRequest>)
    ensures requests == SectionRequests(current, IdMap(translated, idOf), idOf, fieldsOf, make)
  {
    var byId := ToIdMap(translated, idOf);
    requests := [];
    var i := 0;
    while i < |current|
      invariant 0 <= i <= |current|
      invariant requests == SectionRequests(current[..i], byId, idOf, fieldsOf, make)
    {
      assert current[..i + 1][..i] == current[..i];
      var id := idOf(current[i]);
      if id.Some? && id.value in byId {
        var payload := BuildPayload(fieldsOf(byId[id.value]));
        if |payload| > 0 {
          requests := requests + [make(id.value, payload)];
        }
      }
      i := i + 1;
    }
    assert current[..i] == current;
  }

  /** Every request of a section's batch, and only those. */
  predicate Issues<T>(current: seq<T>, byId: map<int, T>, idOf: T -> Option<int>,
                      fieldsOf: T -> seq<(string, JsString)>, k: int)
  {
    0 <= k < |current| && idOf(current[k]).Some? && idOf(current[k]).value in byId
    && |FieldPayload(fieldsOf(byId[idOf(current[k]).value]))| > 0
  }

  /**
   * A section's requests follow the current entries one for one: the j-th
   * request is for a current entry whose id names a translated entry, and
   * carries that entry's non-empty payload; a translated entry absent from
   * the current CV is never written.
   */
  lemma {:induction false} SectionRequestsSound<T>(current: seq<T>, byId: map<int, T>, idOf: T -> Option<int>,
                                                 fieldsOf: T -> seq<(string, JsString)>,
                                                 make: (int, map<string, string>) -> UpdateRequest, j: int)
    requires 0 <= j < |SectionRequests(current, byId, idOf, fieldsOf, make)|
    ensures exists k :: (Issues(current, byId, idOf, fieldsOf, k)
      && SectionRequests(current, byId, idOf, fieldsOf, make)[j]
         == make(idOf(current[k]).value, FieldPayload(fieldsOf(byId[idOf(current[k]).value]))))
  {
    var init := current[..|current| - 1];
    var rest := SectionRequests(init, byId, idOf, fieldsOf, make);
    if j < |rest| {
      SectionRequestsSound(init, byId, idOf, fieldsOf, make, j);
      var k :| Issues(init, byId, idOf, fieldsOf, k)
        && rest[j] == make(idOf(init[k]).value, FieldPayload(fieldsOf(byId[idOf(init[k]).value])));
      assert init[k] == current[k];
      assert Issues(current, byId, idOf, fieldsOf, k);
    } else {
      assert Issues(current, byId, idOf, fieldsOf, |current| - 1);
    }
  }

  /** Every current entry with a translated counterpart and a non-empty payload gets its update. */
  lemma {:induction false} SectionRequestsComplete<T>(current: seq<T>, byId: map<int, T>, idOf: T -> Option<int>,
                                                    fieldsOf: T -> seq<(string, JsString)>,
                                                    make: (int, map<string, string>) -> UpdateRequest, k: int)
    requires Issues(current, byId, idOf, fieldsOf, k)
    ensures make(idOf(current[k]).value, FieldPayload(fieldsOf(byId[idOf(current[k]).value])))
      in SectionRequests(current, byId, idOf, fieldsOf, make)
  {
    var init := current[..|current| - 1];
    if k < |init| {
      assert init[k] == current[k];
      assert Issues(init, byId, idOf, fieldsOf, k);
      SectionRequestsComplete(init, byId, idOf, fieldsOf, make, k);
    }
  }

  /** The section updates `persistTranslation` starts together: work, education, project and skill updates. */
  function SectionRequestsOf(current: Cv, translated: Cv): seq<UpdateRequest>
  {
    SectionRequests(current.workExperiences, IdMap(translated.workExperiences, WorkId),
                    WorkId, WorkFields, UpdateWorkOf)
    + SectionRequests(current.educations, IdMap(translated.educations, EducationId),
                      EducationId, EducationFields, UpdateEducationOf)
    + SectionRequests(current.projects, IdMap(translated.projects, ProjectId),
                      ProjectId, ProjectFields, UpdateProjectOf)
    + SectionRequests(current.skills, IdMap(translated.skills, SkillId),
                      SkillId, SkillFields, UpdateSkillOf)
  }

  /** All requests `persistTranslation` can issue: the base update, then the section updates. */
  function Persisted(current: Cv, translated: Cv): seq<UpdateRequest>
  {
    BaseRequests(current, translated) + SectionRequestsOf(current, translated)
  }

  /** Every one of `requests` is answered successfully; `accepted` says how the backend answers each. */
  predicate AllAccepted(requests: seq<UpdateRequest>, accepted: UpdateRequest -> bool)
  {
    forall i :: 0 <= i < |requests| ==> accepted(requests[i])
  }

  lemma AllAcceptedConcat(a: seq<UpdateRequest>, b: seq<UpdateRequest>, accepted: UpdateRequest -> bool)
    ensures AllAccepted(a + b, accepted) <==> AllAccepted(a, accepted) && AllAccepted(b, accepted)
  {
    if AllAccepted(a, accepted) && AllAccepted(b, accepted) {
      forall i | 0 <= i < |a + b|
        ensures accepted((a + b)[i])
      {
        if i >= |a| {
          assert (a + b)[i] == b[i - |a|];
        }
      }
    }
    if AllAccepted(a + b, accepted) {
      forall i | 0 <= i < |a|
        ensures accepted(a[i])
      {
        assert (a + b)[i] == a[i];
      }
      forall i | 0 <= i < |b|
        ensures accepted(b[i])
      {
        assert (a + b)[|a| + i] == b[i];
      }
    }
  }

  /**
   * `persistTranslation`. The base update is awaited before the section
   * updates are created, so a rejected base update sends no section update;
   * otherwise every section update is sent (they run together) and the
   * returned promise resolves exactly when all of them succeed. The section
   * requests are listed in the order they are created.
   */
  method PersistTranslation(current: Cv, translated: Cv, accepted: UpdateRequest -> bool)
    returns (requests: seq<UpdateRequest>, resolved: bool)
    ensures requests <= Persisted(current, translated)
    ensures resolved <==> AllAccepted(Persisted(current, translated), accepted)
    ensures resolved ==> requests == Persisted(current, translated)
    ensures AllAccepted(BaseRequests(current, translated), accepted) ==> requests == Persisted(current, translated)
    ensures !AllAccepted(BaseRequests(current, translated), accepted) ==>
      requests == BaseRequests(current, translated) && !resolved
  {
    var baseUpdate := BuildPayload(TopFields(translated));
    requests := [];
    if |baseUpdate| > 0 {
      requests := [UpdateCv(current.id, baseUpdate)];
      if !accepted(requests[0]) {
        AllAcceptedConcat(requests, SectionRequestsOf(current, translated), accepted);
        return requests, false;
      }
    }
    var work := SectionUpdates(current.workExperiences, translated.workExperiences,
                               WorkId, WorkFields, UpdateWorkOf);
    var education := SectionUpdates(current.educations, translated.educations,
                                     EducationId, EducationFields, UpdateEducationOf);
    var projects := SectionUpdates(current.projects, translated.projects,
                                   ProjectId, ProjectFields, UpdateProjectOf);
    var skills := SectionUpdates(current.skills, translated.skills,
                                 SkillId, SkillFields, UpdateSkillOf);
    var sections := work + education + projects + skills;
    requests := requests + sections;
    resolved := forall i | 0 <= i < |sections| :: accepted(sections[i]);
    AllAcceptedConcat(BaseRequests(current, translated), sections, accepted);
  }

  /**
   * The base update is sent exactly when one of title, full name, location
   * or summary is present in the translation, and carries exactly those
   * present, with the translated text.
   */
  lemma BaseUpdateFields(current: Cv, translated: Cv)
    ensures |BaseRequests(current, translated)| > 0 <==>
      translated.title.Some? || translated.fullName.Some? || translated.location.Some? || translated.summary.Some?
    ensures |BaseRequests(current, translated)| > 0 ==>
      BaseRequests(current, translated) == [UpdateCv(current.id, FieldPayload(TopFields(translated)))]
    ensures FieldPayload(TopFields(translated)).Keys <= {"title", "full_name", "location", "summary"}
    ensures "title" in FieldPayload(TopFields(translated)) <==> translated.title.Some?
    ensures "full_name" in FieldPayload(TopFields(translated)) <==> translated.fullName.Some?
    ensures "location" in FieldPayload(TopFields(translated)) <==> translated.location.Some?
    ensures "summary" in FieldPayload(TopFields(translated)) <==> translated.summary.Some?
    ensures translated.title.Some? ==> FieldPayload(TopFields(translated))["title"] == translated.title.value
  {
    var fields := TopFields(translated);
    var p := FieldPayload(fields);
    TopPayloadKeys(translated);
    FieldPayloadExact(fields, "title");
    FieldPayloadExact(fields, "full_name");
    FieldPayloadExact(fields, "location");
    FieldPayloadExact(fields, "summary");
    assert Carries(fields, "title", 0) <==> translated.title.Some?;
    assert Carries(fields, "full_name", 1) <==> translated.fullName.Some?;
    assert Carries(fields, "location", 2) <==> translated.location.Some?;
    assert Carries(fields, "summary", 3) <==> translated.summary.Some?;
    if |p| > 0 {
      assert p.Keys != {};
      var k :| k in p;
    }
  }

  lemma TopPayloadKeys(translated: Cv)
    ensures DistinctNames(TopFields(translated))
    ensures FieldPayload(TopFields(translated)).Keys <= {"title", "full_name", "location", "summary"}
  {
    var fields := TopFields(translated);
    forall name | name in FieldPayload(fields)
      ensures name in {"title", "full_name", "location", "summary"}
    {
      if name !in {"title", "full_name", "location", "summary"} {
        FieldPayloadNames(fields, name);
      }
    }
  }

  /**
   * A work-experience update carries exactly the translatable fields the
   * translated entry has; dates and the display order never appear.
   */
  lemma WorkPayloadFields(e: WorkExperience)
    ensures FieldPayload(WorkFields(e)).Keys <= {"company", "position", "location", "description"}
    ensures "company" in FieldPayload(WorkFields(e)) <==> e.company.Some?
    ensures "position" in FieldPayload(WorkFields(e)) <==> e.position.Some?
    ensures "location" in FieldPayload(WorkFields(e)) <==> e.location.Some?
    ensures "description" in FieldPayload(WorkFields(e)) <==> e.description.Some?
    ensures e.company.Some? ==> FieldPayload(WorkFields(e))["company"] == e.company.value
  {
    var fields := WorkFields(e);
    forall name | name in FieldPayload(fields)
      ensures name in {"company", "position", "location", "description"}
    {
      if name !in {"company", "position", "location", "description"} {
        FieldPayloadNames(fields, name);
      }
    }
    FieldPayloadExact(fields, "company");
    FieldPayloadExact(fields, "position");
    FieldPayloadExact(fields, "location");
    FieldPayloadExact(fields, "description");
    assert Carries(fields, "company", 0) <==> e.company.Some?;
    assert Carries(fields, "position", 1) <==> e.position.Some?;
    assert Carries(fields, "location", 2) <==> e.location.Some?;
    assert Carries(fields, "description", 3) <==> e.description.Some?;
  }

  /** An education update never carries dates, the grade point average or the display order. */
  lemma EducationPayloadFields(e: Education)
    ensures FieldPayload(EducationFields(e)).Keys
      <= {"institution", "degree", "field_of_study", "description", "honors", "relevant_subjects", "thesis_title"}
    ensures "institution" in FieldPayload(EducationFields(e)) <==> e.institution.Some?
    ensures "thesis_title" in FieldPayload(EducationFields(e)) <==> e.thesisTitle.Some?
  {
    var fields := EducationFields(e);
    var names := {"institution", "degree", "field_of_study", "description", "honors", "relevant_subjects", "thesis_title"};
    forall name | name in FieldPayload(fields)
      ensures name in names
    {
      if name !in names {
        FieldPayloadNames(fields, name);
      }
    }
    assert DistinctNames(fields);
    FieldPayloadExact(fields, "institution");
    FieldPayloadExact(fields, "thesis_title");
    assert Carries(fields, "institution", 0) <==> e.institution.Some?;
    assert Carries(fields, "thesis_title", 6) <==> e.thesisTitle.Some?;
  }

  /** A project update never carries dates, links or the display order. */
  lemma ProjectPayloadFields(p: Project)
    ensures FieldPayload(ProjectFields(p)).Keys <= {"name", "description", "role", "technologies"}
    ensures "name" in FieldPayload(ProjectFields(p)) <==> p.name.Some?
  {
    var fields := ProjectFields(p);
    forall name | name in FieldPayload(fields)
      ensures name in {"name", "description", "role", "technologies"}
    {
      if name !in {"name", "description", "role", "technologies"} {
        FieldPayloadNames(fields, name);
      }
    }
    FieldPayloadExact(fields, "name");
    assert Carries(fields, "name", 0) <==> p.name.Some?;
  }

  /** A skill update carries at most its name and category. */
  lemma SkillPayloadFields(s: Skill)
    ensures FieldPayload(SkillFields(s)).Keys <= {"name", "category"}
    ensures "name" in FieldPayload(SkillFields(s)) <==> s.name.Some?
    ensures "category" in FieldPayload(SkillFields(s)) <==> s.category.Some?
  {
    var fields := SkillFields(s);
    forall name | name in FieldPayload(fields)
      ensures name in {"name", "category"}
    {
      if name !in {"name", "category"} {
        FieldPayloadNames(fields, name);
      }
    }
    FieldPayloadExact(fields, "name");
    FieldPayloadExact(fields, "category");
    assert Carries(fields, "name", 0) <==> s.name.Some?;
    assert Carries(fields, "category", 1) <==> s.category.Some?;
  }

  /** The calls `useTranslateCv`'s mutation makes, in order. */
  datatype ApiCall = TranslateCall(inputLanguage: string, outputLanguage: string, cv: Cv) | Update(request: UpdateRequest) | Refetch(cvId: Option<int>)

  function Updates(requests: seq<UpdateRequest>): (calls: seq<ApiCall>)
    ensures |calls| == |requests|
    ensures forall i :: 0 <= i < |requests| ==> calls[i] == Update(requests[i])
  {
    seq(|requests|, i requires 0 <= i < |requests| => Update(requests[i]))
  }

  /** The cache updates of the mutation's `onSuccess`. */
  datatype CacheEffect = SetDetail(cvId: Option<int>, cv: Cv) | InvalidateLists

  /** One run of `useTranslateCv`'s mutation: the calls made, the CV it resolves to (none when it rejects), the cache updates. */
  datatype MutationRun = MutationRun(calls: seq<ApiCall>, result: Option<Cv>, cache: seq<CacheEffect>)

  /** `onSuccess` runs only for a resolved mutation: the CV's detail query takes the CV, and the lists are invalidated. */
  function OnSuccess(result: Option<Cv>): seq<CacheEffect>
  {
    if result.Some? then [SetDetail(result.value.id, result.value), InvalidateLists] else []
  }

  /**
   * `useTranslateCv`'s mutation, given the backend's translation (`None`
   * when the translate request is rejected), which updates the backend
   * accepts, and the refetched CV (`None` when the refetch is rejected).
   * A rejected step rejects the mutation and nothing after it runs.
   */
  function TranslateCvMutation(cv: Cv, inputLanguage: string, outputLanguage: string, translation: Option<Cv>,
                               accepted: UpdateRequest -> bool, refreshed: Option<Cv>): MutationRun
  {
    if inputLanguage == outputLanguage then MutationRun([], Some(cv), OnSuccess(Some(cv)))
    else if translation.None? then MutationRun([TranslateCall(inputLanguage, outputLanguage, cv)], None, [])
    else
      var base := BaseRequests(cv, translation.value);
      var sent := if AllAccepted(base, accepted) then Persisted(cv, translation.value) else base;
      var calls := [TranslateCall(inputLanguage, outputLanguage, cv)] + Updates(sent);
      if !AllAccepted(Persisted(cv, translation.value), accepted) then MutationRun(calls, None, [])
      else MutationRun(calls + [Refetch(cv.id)], refreshed, OnSuccess(refreshed))
  }

  /** Every call of a run that goes all the way: translate, every update, refetch. */
  function FullCalls(cv: Cv, inputLanguage: string, outputLanguage: string, translation: Cv): seq<ApiCall>
  {
    [TranslateCall(inputLanguage, outputLanguage, cv)] + Updates(Persisted(cv, translation)) + [Refetch(cv.id)]
  }

  /**
   * Asking for the language the CV is already in makes no call, resolves to
   * the CV as it is and still runs `onSuccess`; otherwise the translation is
   * requested first, and when that request is rejected nothing else is sent
   * and the cache is left alone.
   */
  lemma SameLanguageShortCircuit(cv: Cv, inputLanguage: string, outputLanguage: string, translation: Option<Cv>,
                                 accepted: UpdateRequest -> bool, refreshed: Option<Cv>)
    ensures inputLanguage == outputLanguage ==>
      TranslateCvMutation(cv, inputLanguage, outputLanguage, translation, accepted, refreshed)
        == MutationRun([], Some(cv), [SetDetail(cv.id, cv), InvalidateLists])
    ensures inputLanguage != outputLanguage ==>
      var run := TranslateCvMutation(cv, inputLanguage, outputLanguage, translation, accepted, refreshed);
      |run.calls| >= 1 && run.calls[0] == TranslateCall(inputLanguage, outputLanguage, cv)
    ensures inputLanguage != outputLanguage && translation.None? ==>
      TranslateCvMutation(cv, inputLanguage, outputLanguage, translation, accepted, refreshed)
        == MutationRun([TranslateCall(inputLanguage, outputLanguage, cv)], None, [])
  {
  }

  /**
   * Past the short circuit, with a translation: the calls are a prefix of
   * translate, every update, refetch; a rejected base update stops before
   * any section update; the mutation resolves, to the refetched CV, exactly
   * when every update is accepted and the refetch answers, and the cache is
   * updated exactly when it resolves.
   */
  lemma MutationStopsAtFirstRejection(cv: Cv, inputLanguage: string, outputLanguage: string, translation: Cv,
                                      accepted: UpdateRequest -> bool, refreshed: Option<Cv>)
    requires inputLanguage != outputLanguage
    ensures var run := TranslateCvMutation(cv, inputLanguage, outputLanguage, Some(translation), accepted, refreshed);
      run.calls <= FullCalls(cv, inputLanguage, outputLanguage, translation)
    ensures var run := TranslateCvMutation(cv, inputLanguage, outputLanguage, Some(translation), accepted, refreshed);
      !AllAccepted(BaseRequests(cv, translation), accepted) ==>
        run.calls == [TranslateCall(inputLanguage, outputLanguage, cv)] + Updates(BaseRequests(cv, translation))
    ensures var run := TranslateCvMutation(cv, inputLanguage, outputLanguage, Some(translation), accepted, refreshed);
      run.result.Some? <==> AllAccepted(Persisted(cv, translation), accepted) && refreshed.Some?
    ensures var run := TranslateCvMutation(cv, inputLanguage, outputLanguage, Some(translation), accepted, refreshed);
      run.result.Some? ==>
        run.result == refreshed && run.calls == FullCalls(cv, inputLanguage, outputLanguage, translation)
    ensures var run := TranslateCvMutation(cv, inputLanguage, outputLanguage, Some(translation), accepted, refreshed);
      (run.cache != []) <==> run.result.Some?
  {
    var base := BaseRequests(cv, translation);
    var full := Persisted(cv, translation);
    AllAcceptedConcat(base, SectionRequestsOf(cv, translation), accepted);
    UpdatesPrefix(base, full);
  }

  /** The calls of a prefix of the requests are a prefix of the calls. */
  lemma UpdatesPrefix(a: seq<UpdateRequest>, b: seq<UpdateRequest>)
    requires a <= b
    ensures Updates(a) <= Updates(b)
  {
  }
}
