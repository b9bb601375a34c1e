/**
 * The four section-entry forms of the CV editor
 * (frontend/src/components/cv/work-experience-form.tsx, education-form.tsx,
 * project-form.tsx and skill-form.tsx). Each keeps a `form` record of string
 * fields and an `errors` record; they differ only in their fields, their
 * required checks and which fields are sent as `undefined` when empty, so
 * one class serves all four, parameterised by the form's kind.
 */
module EntityForms {
  import opened Wrappers
  import opened Text
  import opened Validators

  datatype FormKind = WorkExperienceForm | EducationForm | ProjectForm | SkillForm

  /** The fields of the form's state, in declaration order. */
  function Fields(kind: FormKind): seq<string>
  {
    match kind
    case WorkExperienceForm => ["company", "position", "location", "start_date", "end_date", "description"]
    case EducationForm => ["institution", "degree", "field_of_study", "start_date", "end_date"]
    case ProjectForm => ["name", "description", "technologies", "url"]
    case SkillForm => ["name", "category"]
  }

  function FieldSet(kind: FormKind): set<string>
  {
    set f | f in Fields(kind)
  }

  /** `validate`'s checks in source order; the start date is not trimmed. */
  function Checks(kind: FormKind): seq<Check>
  {
    match kind
    case WorkExperienceForm => [
      Check("company", true, "Company is required"),
      Check("position", true, "Position is required"),
      Check("start_date", false, "Start date is required")]
    case EducationForm => [
      Check("institution", true, "Institution is required"),
      Check("degree", true, "Degree is required"),
      Check("start_date", false, "Start date is required")]
    case ProjectForm => [Check("name", true, "Project name is required")]
    case SkillForm => [Check("name", true, "Skill name is required")]
  }

  /** The fields `handleSubmit` sends as `form.x || undefined`. */
  function OptionalFields(kind: FormKind): set<string>
  {
    match kind
    case WorkExperienceForm => {"location", "end_date", "description"}
    case EducationForm => {"field_of_study", "end_date"}
    case ProjectForm => {"description", "technologies", "url"}
    case SkillForm => {"category"}
  }

  /** Every check is on a field of the form, one check per field, none on an optional field. */
  lemma ChecksWellFormed(kind: FormKind)
    ensures DistinctFields(Checks(kind))
    ensures forall k | 0 <= k < |Checks(kind)| ::
      Checks(kind)[k].field in FieldSet(kind) && Checks(kind)[k].field !in OptionalFields(kind)
    ensures OptionalFields(kind) <= FieldSet(kind)
  {
  }

  /** Every message `validate` can record is non-empty, so each recorded error is truthy. */
  lemma MessagesNonEmpty(kind: FormKind)
    ensures forall form: map<string, string>, f | f in ErrorsOf(Checks(kind), form) :: ErrorsOf(Checks(kind), form)[f] != ""
  {
    forall form: map<string, string>, f | f in ErrorsOf(Checks(kind), form)
      ensures ErrorsOf(Checks(kind), form)[f] != ""
    {
      ChecksWellFormed(kind);
      ErrorsOfExact(Checks(kind), form);
      var k :| 0 <= k < |Checks(kind)| && Checks(kind)[k].field == f && Fails(Checks(kind)[k], form);
    }
  }

  /** `x || ""`: null, undefined and "" all become "". */
  function OrEmpty(v: Option<string>): (r: string)
    ensures v.Some? ==> r == v.value
    ensures v.None? ==> r == ""
  {
    if v.Some? then v.value else ""
  }

  /**
   * `initialData` as the form receives it: absent altogether (`None`), or
   * a record whose fields may be missing or null (`None` values).
   */
  type InitialData = map<string, Option<string>>

  function InitialValue(initial: Option<InitialData>, f: string): string
  {
    if initial.Some? && f in initial.value then OrEmpty(initial.value[f]) else ""
  }

  /** The state `useState` starts from, and the one `useEffect` installs when `initialData` is given. */
  function InitialForm(kind: FormKind, initial: Option<InitialData>): (form: map<string, string>)
    ensures form.Keys == FieldSet(kind)
    ensures forall f | f in FieldSet(kind) ::
      form[f] == (if initial.Some? && f in initial.value && initial.value[f].Some? then initial.value[f].value else "")
  {
    map f | f in FieldSet(kind) :: InitialValue(initial, f)
  }

  /** `validate` succeeds exactly when every check passes. */
  predicate FormValid(kind: FormKind, form: map<string, string>)
  {
    ErrorsOf(Checks(kind), form) == map[]
  }

  /** The work-experience form is valid iff company and position are non-blank and a start date is set. */
  lemma WorkExperienceValidIff(form: map<string, string>)
    ensures FormValid(WorkExperienceForm, form) <==>
      JsTrim(FieldValue(form, "company")) != [] && JsTrim(FieldValue(form, "position")) != []
      && FieldValue(form, "start_date") != []
  {
    var cs := Checks(WorkExperienceForm);
    ChecksWellFormed(WorkExperienceForm);
    NoErrorsIff(cs, form);
    assert (forall k | 0 <= k < |cs| :: !Fails(cs[k], form)) <==>
      !Fails(cs[0], form) && !Fails(cs[1], form) && !Fails(cs[2], form);
  }

  /** The education form is valid iff institution and degree are non-blank and a start date is set. */
  lemma EducationValidIff(form: map<string, string>)
    ensures FormValid(EducationForm, form) <==>
      JsTrim(FieldValue(form, "institution")) != [] && JsTrim(FieldValue(form, "degree")) != []
      && FieldValue(form, "start_date") != []
  {
    var cs := Checks(EducationForm);
    ChecksWellFormed(EducationForm);
    NoErrorsIff(cs, form);
    assert (forall k | 0 <= k < |cs| :: !Fails(cs[k], form)) <==>
      !Fails(cs[0], form) && !Fails(cs[1], form) && !Fails(cs[2], form);
  }

  /** The project and skill forms are valid iff the name is non-blank; no other field matters. */
  lemma NameOnlyValidIff(kind: FormKind, form: map<string, string>)
    requires kind == ProjectForm || kind == SkillForm
    ensures FormValid(kind, form) <==> JsTrim(FieldValue(form, "name")) != []
  {
    ChecksWellFormed(kind);
    NoErrorsIff(Checks(kind), form);
    assert (forall k | 0 <= k < |Checks(kind)| :: !Fails(Checks(kind)[k], form)) <==> !Fails(Checks(kind)[0], form);
  }

  /** The submitted payload: every field but an empty optional one, each value as typed (untrimmed). */
  function Payload(kind: FormKind, form: map<string, string>): (p: map<string, string>)
    ensures forall f :: f in p <==> f in FieldSet(kind) && (f in OptionalFields(kind) ==> FieldValue(form, f) != "")
    ensures forall f | f in p :: p[f] == FieldValue(form, f)
  {
    map f | f in FieldSet(kind) && (f !in OptionalFields(kind) || FieldValue(form, f) != "") :: FieldValue(form, f)
  }

  /** The payload read back as `initialData` gives back the form it was submitted from. */
  lemma PayloadReloads(kind: FormKind, form: map<string, string>)
    requires form.Keys == FieldSet(kind)
    ensures InitialForm(kind, Some(map f | f in Payload(kind, form) :: Some(Payload(kind, form)[f]))) == form
  {
  }

  /** The state of one mounted form. */
  class EntityForm {
    const kind: FormKind
    var form: map<string, string>
    var errors: map<string, string>

    /** The form holds exactly its fields, and every recorded error has a message. */
    ghost predicate Valid()
      reads this
    {
      form.Keys == FieldSet(kind) && forall f | f in errors :: errors[f] != ""
    }

    constructor(kind: FormKind, initial: Option<InitialData>)
      ensures Valid()
      ensures this.kind == kind && form == InitialForm(kind, initial) && errors == map[]
    {
      this.kind := kind;
      form := InitialForm(kind, initial);
      errors := map[];
    }

    /** The `useEffect` on `initialData`: given data replaces the form; errors stay. */
    method Reload(initial: Option<InitialData>)
      requires Valid()
      modifies this
      ensures Valid()
      ensures form == (if initial.Some? then InitialForm(kind, initial) else old(form))
      ensures errors == old(errors)
    {
      if initial.Some? {
        form := InitialForm(kind, initial);
      }
    }

    /** `handleChange`: stores the value (or "" for undefined) and clears that field's error only. */
    method HandleChange(field: string, value: Option<string>)
      requires Valid() && field in FieldSet(kind)
      modifies this
      ensures Valid()
      ensures form == old(form)[field := OrEmpty(value)]
      ensures errors == old(errors) - {field}
    {
      form := form[field := OrEmpty(value)];
      if field in errors && errors[field] != "" {
        errors := errors - {field};
      }
    }

    /** `handleSubmit`: validates into `errors`, and only a valid form is submitted, as its payload. */
    method HandleSubmit() returns (submitted: Option<map<string, string>>)
      requires Valid()
      modifies this
      ensures Valid()
      ensures form == old(form)
      ensures errors == ErrorsOf(Checks(kind), form)
      ensures submitted.Some? <==> FormValid(kind, form)
      ensures submitted.Some? ==> submitted.value == Payload(kind, form)
    {
      MessagesNonEmpty(kind);
      var newErrors, ok := RunChecks(Checks(kind), form);
      errors := newErrors;
      if !ok {
        return None;
      }
      submitted := Some(Payload(kind, form));
    }
  }
}
