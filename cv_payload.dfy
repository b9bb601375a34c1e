/**
 * The partial CV that travels between the frontend, the backend's
 * translation endpoint and the translation microservice. Both Python
 * services declare the same shape (every field optional, lists default to
 * empty); dates and timestamps are kept as their ISO text.
 */
module CvPayload {
  import opened Wrappers

  datatype WorkExperience = WorkExperience(
    id: Option<int>, cvId: Option<int>,
    company: Option<string>, position: Option<string>, location: Option<string>,
    startDate: Option<string>, endDate: Option<string>, description: Option<string>,
    displayOrder: Option<int>, createdAt: Option<string>, updatedAt: Option<string>)

  datatype Education = Education(
    id: Option<int>, cvId: Option<int>,
    institution: Option<string>, degree: Option<string>, fieldOfStudy: Option<string>,
    startDate: Option<string>, endDate: Option<string>, description: Option<string>,
    gpa: Option<real>, honors: Option<string>, relevantSubjects: Option<string>, thesisTitle: Option<string>,
    displayOrder: Option<int>, createdAt: Option<string>, updatedAt: Option<string>)

  datatype Project = Project(
    id: Option<int>, cvId: Option<int>,
    name: Option<string>, description: Option<string>, role: Option<string>, technologies: Option<string>,
    startDate: Option<string>, endDate: Option<string>, url: Option<string>, githubUrl: Option<string>,
    displayOrder: Option<int>, createdAt: Option<string>, updatedAt: Option<string>)

  datatype Skill = Skill(
    id: Option<int>, cvId: Option<int>, name: Option<string>, category: Option<string>,
    displayOrder: Option<int>, createdAt: Option<string>, updatedAt: Option<string>)

  datatype Cv = Cv(
    id: Option<int>, userId: Option<int>,
    title: Option<string>, fullName: Option<string>, email: Option<string>, phone: Option<string>,
    location: Option<string>, summary: Option<string>, createdAt: Option<string>, updatedAt: Option<string>,
    workExperiences: seq<WorkExperience>, educations: seq<Education>,
    skills: seq<Skill>, projects: seq<Project>)

  /** Pydantic's bound on an education's grade point average: `ge=0, le=4.0`. */
  predicate GpaInRange(e: Education)
  {
    e.gpa.None? || 0.0 <= e.gpa.value <= 4.0
  }

  /** A payload request validation accepts (a violation is answered with 422 before any handler runs). */
  predicate Validates(cv: Cv)
  {
    forall i :: 0 <= i < |cv.educations| ==> GpaInRange(cv.educations[i])
  }

  /*
   * The translatable text fields, the ones both translation back ends
   * rewrite: four on the CV itself and a fixed list per section entry.
   */
  datatype TopField = Title | FullName | Location | Summary
  datatype WorkField = Company | Position | WorkLocation | WorkDescription
  datatype EducationField = Institution | Degree | FieldOfStudy | EducationDescription | Honors | RelevantSubjects | ThesisTitle
  datatype ProjectField = Name | ProjectDescription | Role | Technologies
  datatype SkillField = SkillName | Category

  /** One translatable field of a CV: a top-level field, or field `f` of entry `i` of a section. */
  datatype FieldRef =
    | Top(top: TopField)
    | InWork(i: nat, work: WorkField)
    | InEducation(i: nat, education: EducationField)
    | InProject(i: nat, project: ProjectField)
    | InSkill(i: nat, skill: SkillField)

  predicate ValidRef(cv: Cv, r: FieldRef)
  {
    match r
    case Top(_) => true
    case InWork(i, _) => i < |cv.workExperiences|
    case InEducation(i, _) => i < |cv.educations|
    case InProject(i, _) => i < |cv.projects|
    case InSkill(i, _) => i < |cv.skills|
  }

  function WorkGet(e: WorkExperience, f: WorkField): Option<string>
  {
    match f
    case Company => e.company
    case Position => e.position
    case WorkLocation => e.location
    case WorkDescription => e.description
  }

  function WorkSet(e: WorkExperience, f: WorkField, v: Option<string>): WorkExperience
  {
    match f
    case Company => e.(company := v)
    case Position => e.(position := v)
    case WorkLocation => e.(location := v)
    case WorkDescription => e.(description := v)
  }

  function EducationGet(e: Education, f: EducationField): Option<string>
  {
    match f
    case Institution => e.institution
    case Degree => e.degree
    case FieldOfStudy => e.fieldOfStudy
    case EducationDescription => e.description
    case Honors => e.honors
    case RelevantSubjects => e.relevantSubjects
    case ThesisTitle => e.thesisTitle
  }

  function EducationSet(e: Education, f: EducationField, v: Option<string>): Education
  {
    match f
    case Institution => e.(institution := v)
    case Degree => e.(degree := v)
    case FieldOfStudy => e.(fieldOfStudy := v)
    case EducationDescription => e.(description := v)
    case Honors => e.(honors := v)
    case RelevantSubjects => e.(relevantSubjects := v)
    case ThesisTitle => e.(thesisTitle := v)
  }

  function ProjectGet(p: Project, f: ProjectField): Option<string>
  {
    match f
    case Name => p.name
    case ProjectDescription => p.description
    case Role => p.role
    case Technologies => p.technologies
  }

  function ProjectSet(p: Project, f: ProjectField, v: Option<string>): Project
  {
    match f
    case Name => p.(name := v)
    case ProjectDescription => p.(description := v)
    case Role => p.(role := v)
    case Technologies => p.(technologies := v)
  }

  function SkillGet(s: Skill, f: SkillField): Option<string>
  {
    match f
    case SkillName => s.name
    case Category => s.category
  }

  function SkillSet(s: Skill, f: SkillField, v: Option<string>): Skill
  {
    match f
    case SkillName => s.(name := v)
    case Category => s.(category := v)
  }

  function TopGet(cv: Cv, f: TopField): Option<string>
  {
    match f
    case Title => cv.title
    case FullName => cv.fullName
    case Location => cv.location
    case Summary => cv.summary
  }

  /** The value of a translatable field. */
  function Get(cv: Cv, r: FieldRef): Option<string>
    requires ValidRef(cv, r)
  {
    match r
    case Top(f) => TopGet(cv, f)
    case InWork(i, f) => WorkGet(cv.workExperiences[i], f)
    case InEducation(i, f) => EducationGet(cv.educations[i], f)
    case InProject(i, f) => ProjectGet(cv.projects[i], f)
    case InSkill(i, f) => SkillGet(cv.skills[i], f)
  }

  /** The CV with one translatable field replaced. */
  function Set(cv: Cv, r: FieldRef, v: Option<string>): (out: Cv)
    requires ValidRef(cv, r)
    ensures |out.workExperiences| == |cv.workExperiences| && |out.educations| == |cv.educations|
    ensures |out.projects| == |cv.projects| && |out.skills| == |cv.skills|
  {
    match r
    case Top(Title) => cv.(title := v)
    case Top(FullName) => cv.(fullName := v)
    case Top(Location) => cv.(location := v)
    case Top(Summary) => cv.(summary := v)
    case InWork(i, f) => cv.(workExperiences := cv.workExperiences[i := WorkSet(cv.workExperiences[i], f, v)])
    case InEducation(i, f) => cv.(educations := cv.educations[i := EducationSet(cv.educations[i], f, v)])
    case InProject(i, f) => cv.(projects := cv.projects[i := ProjectSet(cv.projects[i], f, v)])
    case InSkill(i, f) => cv.(skills := cv.skills[i := SkillSet(cv.skills[i], f, v)])
  }

  function EraseWork(e: WorkExperience): WorkExperience
  {
    e.(company := None, position := None, location := None, description := None)
  }

  function EraseEducation(e: Education): Education
  {
    e.(institution := None, degree := None, fieldOfStudy := None, description := None,
       honors := None, relevantSubjects := None, thesisTitle := None)
  }

  function EraseProject(p: Project): Project
  {
    p.(name := None, description := None, role := None, technologies := None)
  }

  function EraseSkill(s: Skill): Skill
  {
    s.(name := None, category := None)
  }

  /**
   * Everything of a CV except its translatable text: identifiers, e-mail,
   * phone, dates, grades, links, ordering, and how many entries each section has.
   */
  function Skeleton(cv: Cv): Cv
  {
    cv.(title := None, fullName := None, location := None, summary := None,
        workExperiences := seq(|cv.workExperiences|, i requires 0 <= i < |cv.workExperiences| => EraseWork(cv.workExperiences[i])),
        educations := seq(|cv.educations|, i requires 0 <= i < |cv.educations| => EraseEducation(cv.educations[i])),
        projects := seq(|cv.projects|, i requires 0 <= i < |cv.projects| => EraseProject(cv.projects[i])),
        skills := seq(|cv.skills|, i requires 0 <= i < |cv.skills| => EraseSkill(cv.skills[i])))
  }

  lemma WorkDetermined(x: WorkExperience, y: WorkExperience)
    requires EraseWork(x) == EraseWork(y)
    requires forall f :: WorkGet(x, f) == WorkGet(y, f)
    ensures x == y
  {
    assert WorkGet(x, Company) == WorkGet(y, Company);
    assert WorkGet(x, Position) == WorkGet(y, Position);
    assert WorkGet(x, WorkLocation) == WorkGet(y, WorkLocation);
    assert WorkGet(x, WorkDescription) == WorkGet(y, WorkDescription);
  }

  lemma EducationDetermined(x: Education, y: Education)
    requires EraseEducation(x) == EraseEducation(y)
    requires forall f :: EducationGet(x, f) == EducationGet(y, f)
    ensures x == y
  {
    assert EducationGet(x, Institution) == EducationGet(y, Institution);
    assert EducationGet(x, Degree) == EducationGet(y, Degree);
    assert EducationGet(x, FieldOfStudy) == EducationGet(y, FieldOfStudy);
    assert EducationGet(x, EducationDescription) == EducationGet(y, EducationDescription);
    assert EducationGet(x, Honors) == EducationGet(y, Honors);
    assert EducationGet(x, RelevantSubjects) == EducationGet(y, RelevantSubjects);
    assert EducationGet(x, ThesisTitle) == EducationGet(y, ThesisTitle);
  }

  lemma ProjectDetermined(x: Project, y: Project)
    requires EraseProject(x) == EraseProject(y)
    requires forall f :: ProjectGet(x, f) == ProjectGet(y, f)
    ensures x == y
  {
    assert ProjectGet(x, Name) == ProjectGet(y, Name);
    assert ProjectGet(x, ProjectDescription) == ProjectGet(y, ProjectDescription);
    assert ProjectGet(x, Role) == ProjectGet(y, Role);
    assert ProjectGet(x, Technologies) == ProjectGet(y, Technologies);
  }

  lemma SkillDetermined(x: Skill, y: Skill)
    requires EraseSkill(x) == EraseSkill(y)
    requires forall f :: SkillGet(x, f) == SkillGet(y, f)
    ensures x == y
  {
    assert SkillGet(x, SkillName) == SkillGet(y, SkillName);
    assert SkillGet(x, Category) == SkillGet(y, Category);
  }

  lemma WorkSectionDetermined(a: Cv, b: Cv)
    requires Skeleton(a) == Skeleton(b)
    requires forall r :: ValidRef(a, r) ==> ValidRef(b, r) && Get(a, r) == Get(b, r)
    ensures a.workExperiences == b.workExperiences
  {
    assert |a.workExperiences| == |Skeleton(a).workExperiences| == |Skeleton(b).workExperiences| == |b.workExperiences|;
    forall i | 0 <= i < |a.workExperiences| ensures a.workExperiences[i] == b.workExperiences[i] {
      var x, y := a.workExperiences[i], b.workExperiences[i];
      assert EraseWork(x) == Skeleton(a).workExperiences[i] == Skeleton(b).workExperiences[i] == EraseWork(y);
      forall f ensures WorkGet(x, f) == WorkGet(y, f) {
        assert ValidRef(a, InWork(i, f));
      }
      WorkDetermined(x, y);
    }
  }

  lemma EducationSectionDetermined(a: Cv, b: Cv)
    requires Skeleton(a) == Skeleton(b)
    requires forall r :: ValidRef(a, r) ==> ValidRef(b, r) && Get(a, r) == Get(b, r)
    ensures a.educations == b.educations
  {
    assert |a.educations| == |Skeleton(a).educations| == |Skeleton(b).educations| == |b.educations|;
    forall i | 0 <= i < |a.educations| ensures a.educations[i] == b.educations[i] {
      var x, y := a.educations[i], b.educations[i];
      assert EraseEducation(x) == Skeleton(a).educations[i] == Skeleton(b).educations[i] == EraseEducation(y);
      forall f ensures EducationGet(x, f) == EducationGet(y, f) {
        assert ValidRef(a, InEducation(i, f));
      }
      EducationDetermined(x, y);
    }
  }

  lemma ProjectSectionDetermined(a: Cv, b: Cv)
    requires Skeleton(a) == Skeleton(b)
    requires forall r :: ValidRef(a, r) ==> ValidRef(b, r) && Get(a, r) == Get(b, r)
    ensures a.projects == b.projects
  {
    assert |a.projects| == |Skeleton(a).projects| == |Skeleton(b).projects| == |b.projects|;
    forall i | 0 <= i < |a.projects| ensures a.projects[i] == b.projects[i] {
      var x, y := a.projects[i], b.projects[i];
      assert EraseProject(x) == Skeleton(a).projects[i] == Skeleton(b).projects[i] == EraseProject(y);
      forall f ensures ProjectGet(x, f) == ProjectGet(y, f) {
        assert ValidRef(a, InProject(i, f));
      }
      ProjectDetermined(x, y);
    }
  }

  lemma SkillSectionDetermined(a: Cv, b: Cv)
    requires Skeleton(a) == Skeleton(b)
    requires forall r :: ValidRef(a, r) ==> ValidRef(b, r) && Get(a, r) == Get(b, r)
    ensures a.skills == b.skills
  {
    assert |a.skills| == |Skeleton(a).skills| == |Skeleton(b).skills| == |b.skills|;
    forall i | 0 <= i < |a.skills| ensures a.skills[i] == b.skills[i] {
      var x, y := a.skills[i], b.skills[i];
      assert EraseSkill(x) == Skeleton(a).skills[i] == Skeleton(b).skills[i] == EraseSkill(y);
      forall f ensures SkillGet(x, f) == SkillGet(y, f) {
        assert ValidRef(a, InSkill(i, f));
      }
      SkillDetermined(x, y);
    }
  }

  /** Two CVs with the same skeleton and the same translatable text are equal. */
  lemma SkeletonAndFieldsDetermine(a: Cv, b: Cv)
    requires Skeleton(a) == Skeleton(b)
    requires forall r :: ValidRef(a, r) ==> ValidRef(b, r) && Get(a, r) == Get(b, r)
    ensures a == b
  {
    assert a.title == b.title by { assert ValidRef(a, Top(Title)); }
    assert a.fullName == b.fullName by { assert ValidRef(a, Top(FullName)); }
    assert a.location == b.location by { assert ValidRef(a, Top(Location)); }
    assert a.summary == b.summary by { assert ValidRef(a, Top(Summary)); }
    WorkSectionDetermined(a, b);
    EducationSectionDetermined(a, b);
    ProjectSectionDetermined(a, b);
    SkillSectionDetermined(a, b);
  }

  /** Setting a field keeps the skeleton and which fields exist. */
  lemma SetKeepsSkeleton(cv: Cv, r: FieldRef, v: Option<string>)
    requires ValidRef(cv, r)
    ensures Skeleton(Set(cv, r, v)) == Skeleton(cv)
    ensures forall q :: ValidRef(Set(cv, r, v), q) <==> ValidRef(cv, q)
  {
    var out := Set(cv, r, v);
    match r {
      case Top(_) =>
      case InWork(i, f) =>
        assert EraseWork(WorkSet(cv.workExperiences[i], f, v)) == EraseWork(cv.workExperiences[i]);
        assert Skeleton(out).workExperiences == Skeleton(cv).workExperiences;
      case InEducation(i, f) =>
        assert EraseEducation(EducationSet(cv.educations[i], f, v)) == EraseEducation(cv.educations[i]);
        assert Skeleton(out).educations == Skeleton(cv).educations;
      case InProject(i, f) =>
        assert EraseProject(ProjectSet(cv.projects[i], f, v)) == EraseProject(cv.projects[i]);
        assert Skeleton(out).projects == Skeleton(cv).projects;
      case InSkill(i, f) =>
        assert EraseSkill(SkillSet(cv.skills[i], f, v)) == EraseSkill(cv.skills[i]);
        assert Skeleton(out).skills == Skeleton(cv).skills;
    }
  }

  /** Setting a field changes that field and no other. */
  lemma SetGet(cv: Cv, r: FieldRef, v: Option<string>, q: FieldRef)
    requires ValidRef(cv, r) && ValidRef(cv, q)
    ensures ValidRef(Set(cv, r, v), q)
    ensures Get(Set(cv, r, v), q) == if q == r then v else Get(cv, q)
  {
    SetKeepsSkeleton(cv, r, v);
    match r {
      case Top(f) =>
      case InWork(i, f) =>
        if q.InWork? && q.i == i { WorkSetGet(cv.workExperiences[i], f, v, q.work); }
      case InEducation(i, f) =>
        if q.InEducation? && q.i == i { EducationSetGet(cv.educations[i], f, v, q.education); }
      case InProject(i, f) =>
        if q.InProject? && q.i == i { ProjectSetGet(cv.projects[i], f, v, q.project); }
      case InSkill(i, f) =>
        if q.InSkill? && q.i == i { SkillSetGet(cv.skills[i], f, v, q.skill); }
    }
  }

  lemma WorkSetGet(e: WorkExperience, f: WorkField, v: Option<string>, g: WorkField)
    ensures WorkGet(WorkSet(e, f, v), g) == if g == f then v else WorkGet(e, g)
  {
  }

  lemma EducationSetGet(e: Education, f: EducationField, v: Option<string>, g: EducationField)
    ensures EducationGet(EducationSet(e, f, v), g) == if g == f then v else EducationGet(e, g)
  {
  }

  lemma ProjectSetGet(p: Project, f: ProjectField, v: Option<string>, g: ProjectField)
    ensures ProjectGet(ProjectSet(p, f, v), g) == if g == f then v else ProjectGet(p, g)
  {
  }

  lemma SkillSetGet(s: Skill, f: SkillField, v: Option<string>, g: SkillField)
    ensures SkillGet(SkillSet(s, f, v), g) == if g == f then v else SkillGet(s, g)
  {
  }
}
