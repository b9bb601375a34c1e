/**
 * The English-to-Spanish translation microservice: language-code
 * normalisation, translation of a single text, and field-by-field
 * translation of a partial CV, behind one POST endpoint. The machine
 * translation pipeline itself is a parameter.
 */
module TranslationMicroservice {
  import opened Wrappers
  import opened Text
  import opened Http
  import opened CvPayload

  /** The loaded pipeline: cleaned English text to its translation, or None when the call raises. */
  type Translator = string -> Option<string>

  /** What a Python call does: return a value, raise an HTTPException, or raise any other exception. */
  datatype Call<T> = Returned(value: T) | RaisedHttp(error: HttpError) | RaisedOther

  const Aliases: map<string, string> := map[
    "english" := "en", "en-us" := "en", "en-gb" := "en",
    "spanish" := "es", "es-es" := "es", "es-mx" := "es"]

  /** A language code, stripped, lower-cased and mapped through the alias table. */
  function NormalizeLanguage(lang: string): string
  {
    var cleaned := Lower(PyStrip(lang));
    if cleaned in Aliases then Aliases[cleaned] else cleaned
  }

  /** Lower-case text with no white space at either end normalises through the alias table alone. */
  lemma NormalizeCleaned(s: string)
    requires s == [] || (!IsPyWhitespace(s[0]) && !IsPyWhitespace(s[|s| - 1]))
    requires forall i :: 0 <= i < |s| ==> !('A' <= s[i] <= 'Z')
    ensures NormalizeLanguage(s) == if s in Aliases then Aliases[s] else s
  {
    StripUnpadded(s, IsPyWhitespace);
    assert Lower(s) == s;
  }

  /** The two canonical codes normalise to themselves. */
  lemma NormalizeCanonical()
    ensures NormalizeLanguage("en") == "en" && NormalizeLanguage("es") == "es"
  {
    NormalizeCleaned("en");
    NormalizeCleaned("es");
  }

  /** The labels the alias table, or the code itself, turns into "en" and "es". */
  const EnglishLabels: set<string> := {"en", "english", "en-us", "en-gb"}
  const SpanishLabels: set<string> := {"es", "spanish", "es-es", "es-mx"}

  /**
   * A label normalises to "en" exactly when its stripped, lower-cased form
   * is "en" or one of the English aliases, and to "es" exactly when it is
   * "es" or one of the Spanish aliases.
   */
  lemma NormalizesToCanonical(lang: string)
    ensures NormalizeLanguage(lang) == "en" <==> Lower(PyStrip(lang)) in EnglishLabels
    ensures NormalizeLanguage(lang) == "es" <==> Lower(PyStrip(lang)) in SpanishLabels
  {
    var cleaned := Lower(PyStrip(lang));
    if cleaned in Aliases {
      assert cleaned in EnglishLabels <==> Aliases[cleaned] == "en";
      assert cleaned in SpanishLabels <==> Aliases[cleaned] == "es";
    } else {
      assert "en" !in Aliases && "es" !in Aliases;
    }
  }

  /** Every alias maps to one of the two canonical codes. */
  lemma AliasValuesCanonical(k: string)
    requires k in Aliases
    ensures Aliases[k] == "en" || Aliases[k] == "es"
  {
  }

  /** Stripped and lower-cased text has no white space at either end and no capital letter. */
  lemma CleanedIsNormalForm(lang: string)
    ensures var c := Lower(PyStrip(lang));
      (c == [] || (!IsPyWhitespace(c[0]) && !IsPyWhitespace(c[|c| - 1])))
      && forall i :: 0 <= i < |c| ==> !('A' <= c[i] <= 'Z')
  {
    var stripped := PyStrip(lang);
    StripShape(lang, IsPyWhitespace);
    if stripped != [] {
      LowerCharKeepsSpace(stripped[0]);
      LowerCharKeepsSpace(stripped[|stripped| - 1]);
    }
  }

  /** Normalising a normalised code changes nothing. */
  lemma NormalizeLanguageIdempotent(lang: string)
    ensures NormalizeLanguage(NormalizeLanguage(lang)) == NormalizeLanguage(lang)
  {
    var cleaned := Lower(PyStrip(lang));
    if cleaned in Aliases {
      AliasValuesCanonical(cleaned);
      NormalizeCanonical();
    } else {
      CleanedIsNormalForm(lang);
      NormalizeCleaned(cleaned);
    }
  }

  /** A free-text request: stripped; empty text is refused with 400. */
  function TranslateText(text: string, tr: Translator): (r: Call<string>)
    ensures r.RaisedHttp? <==> PyStrip(text) == []
    ensures r.RaisedHttp? ==> r.error.status == BadRequest
  {
    var cleaned := PyStrip(text);
    if cleaned == [] then RaisedHttp(Fail(BadRequest, "Text must not be empty"))
    else match tr(cleaned)
      case Some(t) => Returned(t)
      case None => RaisedOther
  }

  /** One optional field: None stays None, blank text is kept as it was, other text is translated stripped. */
  function TranslateField(value: Option<string>, tr: Translator): (r: Call<Option<string>>)
    ensures !r.RaisedHttp?
  {
    match value
    case None => Returned(None)
    case Some(v) =>
      var cleaned := PyStrip(v);
      if cleaned == [] then Returned(value)
      else match tr(cleaned)
        case Some(t) => Returned(Some(t))
        case None => RaisedOther
  }

  function TranslateWorkExperience(e: WorkExperience, tr: Translator): Call<WorkExperience>
  {
    var company := TranslateField(e.company, tr);
    var position := TranslateField(e.position, tr);
    var location := TranslateField(e.location, tr);
    var description := TranslateField(e.description, tr);
    if company.Returned? && position.Returned? && location.Returned? && description.Returned? then
      Returned(e.(company := company.value, position := position.value,
                  location := location.value, description := description.value))
    else RaisedOther
  }

  function TranslateEducation(e: Education, tr: Translator): Call<Education>
  {
    var institution := TranslateField(e.institution, tr);
    var degree := TranslateField(e.degree, tr);
    var fieldOfStudy := TranslateField(e.fieldOfStudy, tr);
    var description := TranslateField(e.description, tr);
    var honors := TranslateField(e.honors, tr);
    var relevantSubjects := TranslateField(e.relevantSubjects, tr);
    var thesisTitle := TranslateField(e.thesisTitle, tr);
    if institution.Returned? && degree.Returned? && fieldOfStudy.Returned? && description.Returned?
       && honors.Returned? && relevantSubjects.Returned? && thesisTitle.Returned? then
      Returned(e.(institution := institution.value, degree := degree.value, fieldOfStudy := fieldOfStudy.value,
                  description := description.value, honors := honors.value,
                  relevantSubjects := relevantSubjects.value, thesisTitle := thesisTitle.value))
    else RaisedOther
  }

  function TranslateProject(p: Project, tr: Translator): Call<Project>
  {
    var name := TranslateField(p.name, tr);
    var description := TranslateField(p.description, tr);
    var role := TranslateField(p.role, tr);
    var technologies := TranslateField(p.technologies, tr);
    if name.Returned? && description.Returned? && role.Returned? && technologies.Returned? then
      Returned(p.(name := name.value, description := description.value, role := role.value,
                  technologies := technologies.value))
    else RaisedOther
  }

  function TranslateSkill(s: Skill, tr: Translator): Call<Skill>
  {
    var name := TranslateField(s.name, tr);
    var category := TranslateField(s.category, tr);
    if name.Returned? && category.Returned? then Returned(s.(name := name.value, category := category.value))
    else RaisedOther
  }

  function WorkTranslator(tr: Translator): WorkExperience -> Call<WorkExperience>
  {
    e => TranslateWorkExperience(e, tr)
  }

  function EducationTranslator(tr: Translator): Education -> Call<Education>
  {
    e => TranslateEducation(e, tr)
  }

  function ProjectTranslator(tr: Translator): Project -> Call<Project>
  {
    p => TranslateProject(p, tr)
  }

  function SkillTranslator(tr: Translator): Skill -> Call<Skill>
  {
    s => TranslateSkill(s, tr)
  }

  /** Re-raises the exception of a call that did not return. */
  function Reraise<T, U>(c: Call<T>): Call<U>
    requires !c.Returned?
  {
    if c.RaisedHttp? then RaisedHttp(c.error) else RaisedOther
  }

  /** Translating a list entry by entry: the translated entries, or the first exception raised. */
  function AllOrRaise<A, B>(items: seq<A>, f: A -> Call<B>): Call<seq<B>>
  {
    if |items| == 0 then Returned([])
    else
      var head := f(items[0]);
      if !head.Returned? then Reraise(head)
      else
        var tail := AllOrRaise(items[1..], f);
        if tail.Returned? then Returned([head.value] + tail.value) else tail
  }

  /** The list translates exactly when every entry does, into the entries' translations in order. */
  lemma {:induction false} AllOrRaiseReturned<A, B>(items: seq<A>, f: A -> Call<B>)
    ensures AllOrRaise(items, f).Returned? <==> forall i :: 0 <= i < |items| ==> f(items[i]).Returned?
    ensures AllOrRaise(items, f).Returned? ==>
      |AllOrRaise(items, f).value| == |items|
      && forall i :: 0 <= i < |items| ==> AllOrRaise(items, f).value[i] == f(items[i]).value
    ensures (forall i :: 0 <= i < |items| ==> !f(items[i]).RaisedHttp?) ==> !AllOrRaise(items, f).RaisedHttp?
  {
    if |items| > 0 {
      AllOrRaiseReturned(items[1..], f);
      assert forall i :: 1 <= i < |items| ==> items[1..][i - 1] == items[i];
    }
  }

  /** Done entries followed by the outcome of the rest. */
  function Prepend<B>(done: seq<B>, rest: Call<seq<B>>): Call<seq<B>>
  {
    if rest.Returned? then Returned(done + rest.value) else rest
  }

  /** The loop shared by the four list helpers: translate each entry, append it, stop at the first exception. */
  method TranslateAll<A, B>(items: seq<A>, f: A -> Call<B>) returns (r: Call<seq<B>>)
    ensures r == AllOrRaise(items, f)
  {
    var translated: seq<B> := [];
    var i := 0;
    assert items[0..] == items;
    var all := AllOrRaise(items, f);
    assert all.Returned? ==> [] + all.value == all.value;
    while i < |items|
      invariant 0 <= i <= |items|
      invariant AllOrRaise(items, f) == Prepend(translated, AllOrRaise(items[i..], f))
    {
      assert items[i..][1..] == items[i + 1..];
      var data := f(items[i]);
      if !data.Returned? {
        return Reraise(data);
      }
      var rest := AllOrRaise(items[i + 1..], f);
      assert AllOrRaise(items[i..], f) == Prepend([data.value], rest);
      if rest.Returned? {
        assert translated + ([data.value] + rest.value) == (translated + [data.value]) + rest.value;
      }
      translated := translated + [data.value];
      i := i + 1;
    }
    assert items[i..] == [];
    assert translated + [] == translated;
    return Returned(translated);
  }

  /** The whole payload: the four top-level texts, then every entry of the four sections. */
  function TranslatedCv(cv: Cv, tr: Translator): (r: Call<Cv>)
    ensures !r.RaisedHttp?
  {
    var title := TranslateField(cv.title, tr);
    var fullName := TranslateField(cv.fullName, tr);
    var location := TranslateField(cv.location, tr);
    var summary := TranslateField(cv.summary, tr);
    var works := AllOrRaise(cv.workExperiences, WorkTranslator(tr));
    var educations := AllOrRaise(cv.educations, EducationTranslator(tr));
    var projects := AllOrRaise(cv.projects, ProjectTranslator(tr));
    var skills := AllOrRaise(cv.skills, SkillTranslator(tr));
    if title.Returned? && fullName.Returned? && location.Returned? && summary.Returned?
       && works.Returned? && educations.Returned? && projects.Returned? && skills.Returned? then
      Returned(cv.(title := title.value, fullName := fullName.value, location := location.value,
                   summary := summary.value, workExperiences := works.value, educations := educations.value,
                   projects := projects.value, skills := skills.value))
    else RaisedOther
  }

  /** `_translate_cv_payload`: overwrite the translatable keys of the dumped payload one after another. */
  method TranslateCvPayload(cv: Cv, tr: Translator) returns (r: Call<Cv>)
    ensures r == TranslatedCv(cv, tr)
  {
    var translated := cv;
    var title := TranslateField(cv.title, tr);
    if !title.Returned? { return RaisedOther; }
    translated := translated.(title := title.value);
    var fullName := TranslateField(cv.fullName, tr);
    if !fullName.Returned? { return RaisedOther; }
    translated := translated.(fullName := fullName.value);
    var location := TranslateField(cv.location, tr);
    if !location.Returned? { return RaisedOther; }
    translated := translated.(location := location.value);
    var summary := TranslateField(cv.summary, tr);
    if !summary.Returned? { return RaisedOther; }
    translated := translated.(summary := summary.value);
    var works := TranslateAll(cv.workExperiences, WorkTranslator(tr));
    AllOrRaiseReturned(cv.workExperiences, WorkTranslator(tr));
    if !works.Returned? { return RaisedOther; }
    translated := translated.(workExperiences := works.value);
    var educations := TranslateAll(cv.educations, EducationTranslator(tr));
    AllOrRaiseReturned(cv.educations, EducationTranslator(tr));
    if !educations.Returned? { return RaisedOther; }
    translated := translated.(educations := educations.value);
    var projects := TranslateAll(cv.projects, ProjectTranslator(tr));
    AllOrRaiseReturned(cv.projects, ProjectTranslator(tr));
    if !projects.Returned? { return RaisedOther; }
    translated := translated.(projects := projects.value);
    var skills := TranslateAll(cv.skills, SkillTranslator(tr));
    AllOrRaiseReturned(cv.skills, SkillTranslator(tr));
    if !skills.Returned? { return RaisedOther; }
    translated := translated.(skills := skills.value);
    return Returned(translated);
  }

  /** An entry translates when each of its translatable fields does, and only those fields change. */
  lemma WorkExperienceTranslated(e: WorkExperience, tr: Translator)
    ensures var r := TranslateWorkExperience(e, tr);
      !r.RaisedHttp?
      && (r.Returned? <==> forall f :: TranslateField(WorkGet(e, f), tr).Returned?)
      && (r.Returned? ==>
            EraseWork(r.value) == EraseWork(e)
            && forall f :: WorkGet(r.value, f) == TranslateField(WorkGet(e, f), tr).value)
  {
    var r := TranslateWorkExperience(e, tr);
    if forall f :: TranslateField(WorkGet(e, f), tr).Returned? {
      assert TranslateField(WorkGet(e, Company), tr).Returned?;
      assert TranslateField(WorkGet(e, Position), tr).Returned?;
      assert TranslateField(WorkGet(e, WorkLocation), tr).Returned?;
      assert TranslateField(WorkGet(e, WorkDescription), tr).Returned?;
    }
    if r.Returned? {
      forall f ensures TranslateField(WorkGet(e, f), tr).Returned? && WorkGet(r.value, f) == TranslateField(WorkGet(e, f), tr).value {
        match f {
          case Company => case Position => case WorkLocation => case WorkDescription =>
        }
      }
    }
  }

  lemma EducationTranslated(e: Education, tr: Translator)
    ensures var r := TranslateEducation(e, tr);
      !r.RaisedHttp?
      && (r.Returned? <==> forall f :: TranslateField(EducationGet(e, f), tr).Returned?)
      && (r.Returned? ==>
            EraseEducation(r.value) == EraseEducation(e)
            && forall f :: EducationGet(r.value, f) == TranslateField(EducationGet(e, f), tr).value)
  {
    var r := TranslateEducation(e, tr);
    if forall f :: TranslateField(EducationGet(e, f), tr).Returned? {
      assert TranslateField(EducationGet(e, Institution), tr).Returned?;
      assert TranslateField(EducationGet(e, Degree), tr).Returned?;
      assert TranslateField(EducationGet(e, FieldOfStudy), tr).Returned?;
      assert TranslateField(EducationGet(e, EducationDescription), tr).Returned?;
      assert TranslateField(EducationGet(e, Honors), tr).Returned?;
      assert TranslateField(EducationGet(e, RelevantSubjects), tr).Returned?;
      assert TranslateField(EducationGet(e, ThesisTitle), tr).Returned?;
    }
    if r.Returned? {
      forall f ensures TranslateField(EducationGet(e, f), tr).Returned? && EducationGet(r.value, f) == TranslateField(EducationGet(e, f), tr).value {
        match f {
          case Institution => case Degree => case FieldOfStudy => case EducationDescription =>
          case Honors => case RelevantSubjects => case ThesisTitle =>
        }
      }
    }
  }

  lemma ProjectTranslated(p: Project, tr: Translator)
    ensures var r := TranslateProject(p, tr);
      !r.RaisedHttp?
      && (r.Returned? <==> forall f :: TranslateField(ProjectGet(p, f), tr).Returned?)
      && (r.Returned? ==>
            EraseProject(r.value) == EraseProject(p)
            && forall f :: ProjectGet(r.value, f) == TranslateField(ProjectGet(p, f), tr).value)
  {
    var r := TranslateProject(p, tr);
    if forall f :: TranslateField(ProjectGet(p, f), tr).Returned? {
      assert TranslateField(ProjectGet(p, Name), tr).Returned?;
      assert TranslateField(ProjectGet(p, ProjectDescription), tr).Returned?;
      assert TranslateField(ProjectGet(p, Role), tr).Returned?;
      assert TranslateField(ProjectGet(p, Technologies), tr).Returned?;
    }
    if r.Returned? {
      forall f ensures TranslateField(ProjectGet(p, f), tr).Returned? && ProjectGet(r.value, f) == TranslateField(ProjectGet(p, f), tr).value {
        match f {
          case Name => case ProjectDescription => case Role => case Technologies =>
        }
      }
    }
  }

  lemma SkillTranslated(s: Skill, tr: Translator)
    ensures var r := TranslateSkill(s, tr);
      !r.RaisedHttp?
      && (r.Returned? <==> forall f :: TranslateField(SkillGet(s, f), tr).Returned?)
      && (r.Returned? ==>
            EraseSkill(r.value) == EraseSkill(s)
            && forall f :: SkillGet(r.value, f) == TranslateField(SkillGet(s, f), tr).value)
  {
    var r := TranslateSkill(s, tr);
    if forall f :: TranslateField(SkillGet(s, f), tr).Returned? {
      assert TranslateField(SkillGet(s, SkillName), tr).Returned?;
      assert TranslateField(SkillGet(s, Category), tr).Returned?;
    }
    if r.Returned? {
      forall f ensures TranslateField(SkillGet(s, f), tr).Returned? && SkillGet(r.value, f) == TranslateField(SkillGet(s, f), tr).value {
        match f {
          case SkillName => case Category =>
        }
      }
    }
  }

  lemma {:induction false} WorkListTranslated(xs: seq<WorkExperience>, tr: Translator)
    ensures var r := AllOrRaise(xs, WorkTranslator(tr));
      !r.RaisedHttp?
      && (r.Returned? <==> forall i, f :: 0 <= i < |xs| ==> TranslateField(WorkGet(xs[i], f), tr).Returned?)
      && (r.Returned? ==>
            |r.value| == |xs|
            && forall i :: 0 <= i < |xs| ==>
                 EraseWork(r.value[i]) == EraseWork(xs[i])
                 && forall f :: WorkGet(r.value[i], f) == TranslateField(WorkGet(xs[i], f), tr).value)
  {
    AllOrRaiseReturned(xs, WorkTranslator(tr));
    forall i | 0 <= i < |xs| { WorkExperienceTranslated(xs[i], tr); }
  }

  lemma {:induction false} EducationListTranslated(xs: seq<Education>, tr: Translator)
    ensures var r := AllOrRaise(xs, EducationTranslator(tr));
      !r.RaisedHttp?
      && (r.Returned? <==> forall i, f :: 0 <= i < |xs| ==> TranslateField(EducationGet(xs[i], f), tr).Returned?)
      && (r.Returned? ==>
            |r.value| == |xs|
            && forall i :: 0 <= i < |xs| ==>
                 EraseEducation(r.value[i]) == EraseEducation(xs[i])
                 && forall f :: EducationGet(r.value[i], f) == TranslateField(EducationGet(xs[i], f), tr).value)
  {
    AllOrRaiseReturned(xs, EducationTranslator(tr));
    forall i | 0 <= i < |xs| { EducationTranslated(xs[i], tr); }
  }

  lemma {:induction false} ProjectListTranslated(xs: seq<Project>, tr: Translator)
    ensures var r := AllOrRaise(xs, ProjectTranslator(tr));
      !r.RaisedHttp?
      && (r.Returned? <==> forall i, f :: 0 <= i < |xs| ==> TranslateField(ProjectGet(xs[i], f), tr).Returned?)
      && (r.Returned? ==>
            |r.value| == |xs|
            && forall i :: 0 <= i < |xs| ==>
                 EraseProject(r.value[i]) == EraseProject(xs[i])
                 && forall f :: ProjectGet(r.value[i], f) == TranslateField(ProjectGet(xs[i], f), tr).value)
  {
    AllOrRaiseReturned(xs, ProjectTranslator(tr));
    forall i | 0 <= i < |xs| { ProjectTranslated(xs[i], tr); }
  }

  lemma {:induction false} SkillListTranslated(xs: seq<Skill>, tr: Translator)
    ensures var r := AllOrRaise(xs, SkillTranslator(tr));
      !r.RaisedHttp?
      && (r.Returned? <==> forall i, f :: 0 <= i < |xs| ==> TranslateField(SkillGet(xs[i], f), tr).Returned?)
      && (r.Returned? ==>
            |r.value| == |xs|
            && forall i :: 0 <= i < |xs| ==>
                 EraseSkill(r.value[i]) == EraseSkill(xs[i])
                 && forall f :: SkillGet(r.value[i], f) == TranslateField(SkillGet(xs[i], f), tr).value)
  {
    AllOrRaiseReturned(xs, SkillTranslator(tr));
    forall i | 0 <= i < |xs| { SkillTranslated(xs[i], tr); }
  }

  /** A payload translates exactly when every translatable field does; it never raises an HTTPException of its own. */
  lemma TranslatedCvSucceeds(cv: Cv, tr: Translator)
    ensures !TranslatedCv(cv, tr).RaisedHttp?
    ensures TranslatedCv(cv, tr).Returned? <==> forall r :: ValidRef(cv, r) ==> TranslateField(Get(cv, r), tr).Returned?
  {
    if forall r :: ValidRef(cv, r) ==> TranslateField(Get(cv, r), tr).Returned? {
      FieldsTranslatedThenReturned(cv, tr);
    }
    if TranslatedCv(cv, tr).Returned? {
      ReturnedThenFieldsTranslated(cv, tr);
    }
  }

  lemma FieldsTranslatedThenReturned(cv: Cv, tr: Translator)
    requires forall r :: ValidRef(cv, r) ==> TranslateField(Get(cv, r), tr).Returned?
    ensures TranslatedCv(cv, tr).Returned?
  {
    var ws, es, ps, ss := cv.workExperiences, cv.educations, cv.projects, cv.skills;
    assert TranslateField(cv.title, tr).Returned? by { assert ValidRef(cv, Top(Title)); }
    assert TranslateField(cv.fullName, tr).Returned? by { assert ValidRef(cv, Top(FullName)); }
    assert TranslateField(cv.location, tr).Returned? by { assert ValidRef(cv, Top(Location)); }
    assert TranslateField(cv.summary, tr).Returned? by { assert ValidRef(cv, Top(Summary)); }
    assert AllOrRaise(ws, WorkTranslator(tr)).Returned? by {
      forall i, f | 0 <= i < |ws| ensures TranslateField(WorkGet(ws[i], f), tr).Returned? { assert ValidRef(cv, InWork(i, f)); }
      WorkListTranslated(ws, tr);
    }
    assert AllOrRaise(es, EducationTranslator(tr)).Returned? by {
      forall i, f | 0 <= i < |es| ensures TranslateField(EducationGet(es[i], f), tr).Returned? { assert ValidRef(cv, InEducation(i, f)); }
      EducationListTranslated(es, tr);
    }
    assert AllOrRaise(ps, ProjectTranslator(tr)).Returned? by {
      forall i, f | 0 <= i < |ps| ensures TranslateField(ProjectGet(ps[i], f), tr).Returned? { assert ValidRef(cv, InProject(i, f)); }
      ProjectListTranslated(ps, tr);
    }
    assert AllOrRaise(ss, SkillTranslator(tr)).Returned? by {
      forall i, f | 0 <= i < |ss| ensures TranslateField(SkillGet(ss[i], f), tr).Returned? { assert ValidRef(cv, InSkill(i, f)); }
      SkillListTranslated(ss, tr);
    }
  }

  lemma ReturnedThenFieldsTranslated(cv: Cv, tr: Translator)
    requires TranslatedCv(cv, tr).Returned?
    ensures forall r :: ValidRef(cv, r) ==> TranslateField(Get(cv, r), tr).Returned?
  {
    var ws, es, ps, ss := cv.workExperiences, cv.educations, cv.projects, cv.skills;
    forall r | ValidRef(cv, r) ensures TranslateField(Get(cv, r), tr).Returned? {
      match r {
        case Top(f) => match f { case Title => case FullName => case Location => case Summary => }
        case InWork(i, f) => WorkListTranslated(ws, tr);
        case InEducation(i, f) => EducationListTranslated(es, tr);
        case InProject(i, f) => ProjectListTranslated(ps, tr);
        case InSkill(i, f) => SkillListTranslated(ss, tr);
      }
    }
  }

  /** A translated payload keeps its skeleton and holds each translatable field's translation. */
  lemma TranslatedCvFields(cv: Cv, tr: Translator)
    requires TranslatedCv(cv, tr).Returned?
    ensures Skeleton(TranslatedCv(cv, tr).value) == Skeleton(cv)
    ensures forall r :: ValidRef(cv, r) ==>
      ValidRef(TranslatedCv(cv, tr).value, r) && TranslateField(Get(cv, r), tr).Returned?
      && Get(TranslatedCv(cv, tr).value, r) == TranslateField(Get(cv, r), tr).value
  {
    var ws, es, ps, ss := cv.workExperiences, cv.educations, cv.projects, cv.skills;
    var out := TranslatedCv(cv, tr).value;
    assert Skeleton(out).workExperiences == Skeleton(cv).workExperiences by { WorkListTranslated(ws, tr); }
    assert Skeleton(out).educations == Skeleton(cv).educations by { EducationListTranslated(es, tr); }
    assert Skeleton(out).projects == Skeleton(cv).projects by { ProjectListTranslated(ps, tr); }
    assert Skeleton(out).skills == Skeleton(cv).skills by { SkillListTranslated(ss, tr); }
    forall r | ValidRef(cv, r)
      ensures ValidRef(out, r) && TranslateField(Get(cv, r), tr).Returned?
      ensures Get(out, r) == TranslateField(Get(cv, r), tr).value
    {
      match r {
        case Top(f) => match f { case Title => case FullName => case Location => case Summary => }
        case InWork(i, f) => WorkListTranslated(ws, tr);
        case InEducation(i, f) => EducationListTranslated(es, tr);
        case InProject(i, f) => ProjectListTranslated(ps, tr);
        case InSkill(i, f) => SkillListTranslated(ss, tr);
      }
    }
  }

  /** The body of POST /translate; absent languages default to "en" and "es" before this model sees them. */
  datatype TranslateRequest = TranslateRequest(
    sourceLanguage: string, targetLanguage: string, text: Option<string>, cv: Option<Cv>)

  datatype Translation = TextTranslation(text: string) | CvTranslation(cv: Cv)

  const UnsupportedPair := "Only English to Spanish translation is supported"
  const NothingToTranslate := "Provide either 'text' or 'cv' for translation"
  const OnlyOneAtATime := "Provide only one of 'text' or 'cv' to translate at a time"
  const ModelNotReady := "Translation model not ready"
  const TranslationFailed := "Translation failed"

  /** The pipeline loaded at start-up, or 503 while it is missing. */
  function GetTranslator(loaded: Option<Translator>): (r: Result<Translator, HttpError>)
    ensures r.Err? <==> loaded.None?
    ensures r.Err? ==> r.error == Fail(ServiceUnavailable, ModelNotReady)
  {
    match loaded
    case None => Err(Fail(ServiceUnavailable, ModelNotReady))
    case Some(tr) => Ok(tr)
  }

  /** GET /health: ready only once the pipeline is loaded. */
  function Health(loaded: Option<Translator>): (r: Result<string, HttpError>)
    ensures r.Ok? <==> loaded.Some?
    ensures r.Ok? ==> r.value == "ok"
  {
    match GetTranslator(loaded)
    case Err(e) => Err(e)
    case Ok(_) => Ok("ok")
  }

  function MapCall<T, U>(c: Call<T>, f: T -> U): Call<U>
  {
    match c
    case Returned(v) => Returned(f(v))
    case RaisedHttp(e) => RaisedHttp(e)
    case RaisedOther => RaisedOther
  }

  /** `bool(request.text)`: a text that is present and not empty. */
  predicate HasText(req: TranslateRequest)
  {
    req.text.Some? && req.text.value != []
  }

  /** POST /translate. */
  function Translate(req: TranslateRequest, loaded: Option<Translator>): Result<Translation, HttpError>
  {
    if req.cv.Some? && !Validates(req.cv.value) then
      Err(Fail(UnprocessableEntity, ""))
    else if NormalizeLanguage(req.sourceLanguage) != "en" || NormalizeLanguage(req.targetLanguage) != "es" then
      Err(Fail(BadRequest, UnsupportedPair))
    else if !HasText(req) && req.cv.None? then
      Err(Fail(BadRequest, NothingToTranslate))
    else if HasText(req) && req.cv.Some? then
      Err(Fail(BadRequest, OnlyOneAtATime))
    else match GetTranslator(loaded)
      case Err(e) => Err(e)
      case Ok(tr) => RunTranslation(req, tr)
  }

  /** The `try` block of POST /translate: an HTTPException passes through, any other exception becomes 500. */
  function RunTranslation(req: TranslateRequest, tr: Translator): (r: Result<Translation, HttpError>)
    requires HasText(req) || req.cv.Some?
    ensures r.Err? ==> r.error.status == BadRequest || r.error == Fail(InternalServerError, TranslationFailed)
  {
    var call :=
      if HasText(req) then MapCall(TranslateText(req.text.value, tr), t => TextTranslation(t))
      else MapCall(TranslatedCv(req.cv.value, tr), out => CvTranslation(out));
    match call
    case Returned(t) => Ok(t)
    case RaisedHttp(e) => Err(e)
    case RaisedOther => Err(Fail(InternalServerError, TranslationFailed))
  }

  /** Every refusal of POST /translate is one of 400, 422, 500 and 503. */
  lemma TranslateErrorStatuses(req: TranslateRequest, loaded: Option<Translator>)
    ensures var r := Translate(req, loaded);
      r.Err? ==> r.error.status in {BadRequest, UnprocessableEntity, InternalServerError, ServiceUnavailable}
  {
  }


  /** A success needs the pair English to Spanish, a loaded pipeline, and exactly one of text and CV. */
  lemma TranslateSuccessNeeds(req: TranslateRequest, loaded: Option<Translator>)
    ensures Translate(req, loaded).Ok? ==>
      NormalizeLanguage(req.sourceLanguage) == "en" && NormalizeLanguage(req.targetLanguage) == "es"
      && loaded.Some? && (HasText(req) <==> req.cv.None?)
  {
  }

  /** An unsupported language pair is refused whatever else the request holds and whether or not the pipeline is loaded. */
  lemma TranslateChecksLanguagesFirst(req: TranslateRequest, loaded: Option<Translator>)
    requires req.cv.None? || Validates(req.cv.value)
    requires NormalizeLanguage(req.sourceLanguage) != "en" || NormalizeLanguage(req.targetLanguage) != "es"
    ensures Translate(req, loaded) == Err(Fail(BadRequest, UnsupportedPair))
  {
  }

  /** 503 comes only after every request check has passed, and then exactly when the pipeline is missing. */
  lemma TranslateNeedsModelLast(req: TranslateRequest, loaded: Option<Translator>)
    ensures Translate(req, loaded) == Err(Fail(ServiceUnavailable, ModelNotReady)) <==>
      (req.cv.None? || Validates(req.cv.value))
      && NormalizeLanguage(req.sourceLanguage) == "en" && NormalizeLanguage(req.targetLanguage) == "es"
      && (HasText(req) <==> req.cv.None?) && loaded.None?
  {
  }

  /** A text request succeeds exactly when its stripped text is not empty and the pipeline translates it. */
  lemma TranslateTextRequest(req: TranslateRequest, tr: Translator)
    requires HasText(req) && req.cv.None?
    requires NormalizeLanguage(req.sourceLanguage) == "en" && NormalizeLanguage(req.targetLanguage) == "es"
    ensures var cleaned := PyStrip(req.text.value);
      (cleaned == [] ==> Translate(req, Some(tr)) == Err(Fail(BadRequest, "Text must not be empty")))
      && (cleaned != [] && tr(cleaned).Some? ==> Translate(req, Some(tr)) == Ok(TextTranslation(tr(cleaned).value)))
      && (cleaned != [] && tr(cleaned).None? ==> Translate(req, Some(tr)) == Err(Fail(InternalServerError, TranslationFailed)))
  {
  }

  /**
   * A CV request, when it succeeds, answers with the same CV in which every
   * non-blank translatable field holds the translation of its stripped text
   * and nothing else differs; it fails with 500 exactly when the pipeline
   * fails on one of those fields.
   */
  lemma TranslateCvRequest(req: TranslateRequest, tr: Translator)
    requires req.cv.Some? && !HasText(req) && Validates(req.cv.value)
    requires NormalizeLanguage(req.sourceLanguage) == "en" && NormalizeLanguage(req.targetLanguage) == "es"
    ensures var cv := req.cv.value;
      var r := Translate(req, Some(tr));
      (r.Ok? <==> forall q :: ValidRef(cv, q) ==> TranslateField(Get(cv, q), tr).Returned?)
      && (r.Err? ==> r.error == Fail(InternalServerError, TranslationFailed))
      && (r.Ok? ==>
            r.value.CvTranslation? && Skeleton(r.value.cv) == Skeleton(cv)
            && forall q :: ValidRef(cv, q) ==>
                 ValidRef(r.value.cv, q) && TranslateField(Get(cv, q), tr).Returned?
                 && Get(r.value.cv, q) == TranslateField(Get(cv, q), tr).value)
  {
    TranslatedCvSucceeds(req.cv.value, tr);
    if TranslatedCv(req.cv.value, tr).Returned? {
      TranslatedCvFields(req.cv.value, tr);
    }
  }

  /** The pipeline the service's own tests install: it prefixes its input with "translated: ". */
  function StubPipeline(t: string): Option<string>
  {
    Some("translated: " + t)
  }

  /** A stripped, non-empty text sent English to Spanish comes back through the stub pipeline. */
  lemma TranslateStubText(text: string)
    requires text != [] && PyStrip(text) == text
    ensures Translate(TranslateRequest("en", "es", Some(text), None), Some(StubPipeline))
            == Ok(TextTranslation("translated: " + text))
  {
    var req := TranslateRequest("en", "es", Some(text), None);
    NormalizeCanonical();
    assert HasText(req);
    TranslateTextRequest(req, StubPipeline);
  }

  /**
   * A request carrying both a non-empty text and a valid CV is refused with
   * 400 whether or not the pipeline is loaded; for the supported pair the
   * refusal says to send only one of them (the service's own test case).
   */
  lemma TranslateBothRefused(req: TranslateRequest, loaded: Option<Translator>)
    requires HasText(req) && req.cv.Some? && Validates(req.cv.value)
    ensures Translate(req, loaded).Err? && Translate(req, loaded).error.status == BadRequest
    ensures NormalizeLanguage(req.sourceLanguage) == "en" && NormalizeLanguage(req.targetLanguage) == "es" ==>
      Translate(req, loaded) == Err(Fail(BadRequest, OnlyOneAtATime))
  {
  }
}
