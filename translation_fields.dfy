/**
 * The order in which the backend's batch translation client visits the
 * translatable fields of a CV: the four top-level fields, then every work
 * experience, education, project and skill entry in list order, each
 * entry's fields in declaration order. Position and field reference are
 * converted both ways.
 */
module TranslationFields {
  import opened CvPayload

  function TopAt(j: nat): TopField
    requires j < 4
  {
    if j == 0 then Title else if j == 1 then FullName else if j == 2 then Location else Summary
  }

  function TopOrd(f: TopField): nat
  {
    match f
    case Title => 0
    case FullName => 1
    case Location => 2
    case Summary => 3
  }

  function WorkAt(j: nat): WorkField
    requires j < 4
  {
    if j == 0 then Company else if j == 1 then Position else if j == 2 then WorkLocation else WorkDescription
  }

  function WorkOrd(f: WorkField): nat
  {
    match f
    case Company => 0
    case Position => 1
    case WorkLocation => 2
    case WorkDescription => 3
  }

  function EducationAt(j: nat): EducationField
    requires j < 7
  {
    if j == 0 then Institution else if j == 1 then Degree else if j == 2 then FieldOfStudy
    else if j == 3 then EducationDescription else if j == 4 then Honors
    else if j == 5 then RelevantSubjects else ThesisTitle
  }

  function EducationOrd(f: EducationField): nat
  {
    match f
    case Institution => 0
    case Degree => 1
    case FieldOfStudy => 2
    case EducationDescription => 3
    case Honors => 4
    case RelevantSubjects => 5
    case ThesisTitle => 6
  }

  /** `EducationAt` lists the education fields in their visiting order. */
  lemma EducationOrdAt(j: nat)
    requires j < 7
    ensures EducationOrd(EducationAt(j)) == j
  {
  }

  lemma EducationAtOrd(f: EducationField)
    ensures EducationOrd(f) < 7 && EducationAt(EducationOrd(f)) == f
  {
  }

  function ProjectAt(j: nat): ProjectField
    requires j < 4
  {
    if j == 0 then Name else if j == 1 then ProjectDescription else if j == 2 then Role else Technologies
  }

  function ProjectOrd(f: ProjectField): nat
  {
    match f
    case Name => 0
    case ProjectDescription => 1
    case Role => 2
    case Technologies => 3
  }

  function SkillAt(j: nat): SkillField
    requires j < 2
  {
    if j == 0 then SkillName else Category
  }

  function SkillOrd(f: SkillField): nat
  {
    match f
    case SkillName => 0
    case Category => 1
  }

  /** Where each section's fields start in the visiting order. */
  function WorkStart(cv: Cv): nat { 4 }
  function EducationStart(cv: Cv): nat { WorkStart(cv) + 4 * |cv.workExperiences| }
  function ProjectStart(cv: Cv): nat { EducationStart(cv) + 7 * |cv.educations| }
  function SkillStart(cv: Cv): nat { ProjectStart(cv) + 4 * |cv.projects| }
  function FieldCount(cv: Cv): nat { SkillStart(cv) + 2 * |cv.skills| }

  /** Quotient and remainder by repeated subtraction. */
  function DivMod(k: nat, d: nat): (qr: (nat, nat))
    requires d > 0
    ensures qr.1 < d && k == d * qr.0 + qr.1
    decreases k
  {
    if k < d then (0, k) else var qr := DivMod(k - d, d); (qr.0 + 1, qr.1)
  }

  /** The field visited at position `k`. */
  function RefAt(cv: Cv, k: nat): (r: FieldRef)
    requires k < FieldCount(cv)
    ensures ValidRef(cv, r)
  {
    if k < WorkStart(cv) then Top(TopAt(k))
    else if k < EducationStart(cv) then
      var qr := DivMod(k - WorkStart(cv), 4); InWork(qr.0, WorkAt(qr.1))
    else if k < ProjectStart(cv) then
      var qr := DivMod(k - EducationStart(cv), 7); InEducation(qr.0, EducationAt(qr.1))
    else if k < SkillStart(cv) then
      var qr := DivMod(k - ProjectStart(cv), 4); InProject(qr.0, ProjectAt(qr.1))
    else
      var qr := DivMod(k - SkillStart(cv), 2); InSkill(qr.0, SkillAt(qr.1))
  }

  /** The position at which field `r` is visited. */
  function Rank(cv: Cv, r: FieldRef): (k: nat)
    requires ValidRef(cv, r)
    ensures k < FieldCount(cv)
  {
    match r
    case Top(f) => TopOrd(f)
    case InWork(i, f) => WorkStart(cv) + 4 * i + WorkOrd(f)
    case InEducation(i, f) => EducationStart(cv) + 7 * i + EducationOrd(f)
    case InProject(i, f) => ProjectStart(cv) + 4 * i + ProjectOrd(f)
    case InSkill(i, f) => SkillStart(cv) + 2 * i + SkillOrd(f)
  }

  /** Every position names a field, every field has a position, and the two conversions are inverse. */
  lemma RankRefAt(cv: Cv, k: nat)
    requires k < FieldCount(cv)
    ensures Rank(cv, RefAt(cv, k)) == k
  {
  }

  /** The quotient and remainder are the only ones that fit. */
  lemma {:induction false} DivModUnique(k: nat, d: nat, q: nat, m: nat)
    requires d > 0 && m < d && k == d * q + m
    ensures DivMod(k, d) == (q, m)
    decreases k
  {
    if k >= d {
      assert q >= 1;
      assert k - d == d * (q - 1) + m;
      DivModUnique(k - d, d, q - 1, m);
    }
  }

  lemma RefAtRank(cv: Cv, r: FieldRef)
    requires ValidRef(cv, r)
    ensures RefAt(cv, Rank(cv, r)) == r
  {
    match r {
      case Top(f) =>
      case InWork(i, f) =>
        DivModUnique(Rank(cv, r) - WorkStart(cv), 4, i, WorkOrd(f));
        assert WorkAt(WorkOrd(f)) == f;
      case InEducation(i, f) =>
        DivModUnique(Rank(cv, r) - EducationStart(cv), 7, i, EducationOrd(f));
        EducationAtOrd(f);
      case InProject(i, f) =>
        DivModUnique(Rank(cv, r) - ProjectStart(cv), 4, i, ProjectOrd(f));
        assert ProjectAt(ProjectOrd(f)) == f;
      case InSkill(i, f) =>
        DivModUnique(Rank(cv, r) - SkillStart(cv), 2, i, SkillOrd(f));
        assert SkillAt(SkillOrd(f)) == f;
    }
  }

  /** Distinct positions name distinct fields. */
  lemma RefAtInjective(cv: Cv, k1: nat, k2: nat)
    requires k1 < FieldCount(cv) && k2 < FieldCount(cv) && k1 != k2
    ensures RefAt(cv, k1) != RefAt(cv, k2)
  {
    RankRefAt(cv, k1);
    RankRefAt(cv, k2);
  }

  /** The positions of each entry's fields, in declaration order. */
  lemma TopSlots(cv: Cv)
    ensures RefAt(cv, 0) == Top(Title) && RefAt(cv, 1) == Top(FullName)
    ensures RefAt(cv, 2) == Top(Location) && RefAt(cv, 3) == Top(Summary)
  {
  }

  lemma WorkSlot(cv: Cv, i: nat, f: WorkField)
    requires i < |cv.workExperiences|
    ensures WorkStart(cv) + 4 * i + WorkOrd(f) < FieldCount(cv)
    ensures RefAt(cv, WorkStart(cv) + 4 * i + WorkOrd(f)) == InWork(i, f)
  {
    RefAtRank(cv, InWork(i, f));
  }

  lemma EducationSlot(cv: Cv, i: nat, f: EducationField)
    requires i < |cv.educations|
    ensures EducationStart(cv) + 7 * i + EducationOrd(f) < FieldCount(cv)
    ensures RefAt(cv, EducationStart(cv) + 7 * i + EducationOrd(f)) == InEducation(i, f)
  {
    RefAtRank(cv, InEducation(i, f));
  }

  lemma ProjectSlot(cv: Cv, i: nat, f: ProjectField)
    requires i < |cv.projects|
    ensures ProjectStart(cv) + 4 * i + ProjectOrd(f) < FieldCount(cv)
    ensures RefAt(cv, ProjectStart(cv) + 4 * i + ProjectOrd(f)) == InProject(i, f)
  {
    RefAtRank(cv, InProject(i, f));
  }

  lemma SkillSlot(cv: Cv, i: nat, f: SkillField)
    requires i < |cv.skills|
    ensures SkillStart(cv) + 2 * i + SkillOrd(f) < FieldCount(cv)
    ensures RefAt(cv, SkillStart(cv) + 2 * i + SkillOrd(f)) == InSkill(i, f)
  {
    RefAtRank(cv, InSkill(i, f));
  }
}
