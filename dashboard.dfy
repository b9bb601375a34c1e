/**
 * The dashboard statistics (backend/app/api/v1/endpoints/dashboard.py): a
 * completion score per CV built from counters, the list of its empty
 * sections, and the per-user aggregate. Completion rates are whole
 * percentages: the score out of 10, times 10.
 */
module Dashboard {
  import opened Store

  const WorkSection := "Work Experience"
  const EducationSection := "Education"
  const SkillsSection := "Skills"
  const ProjectsSection := "Projects"

  /** How many entries of each kind a CV has (the four `count()` queries). */
  datatype SectionCounts = SectionCounts(work: nat, education: nat, skills: nat, projects: nat)

  function Indicator(b: bool): nat
  {
    if b then 1 else 0
  }

  /** 3 for the required fields, one per truthy optional contact field, one per non-empty section. */
  function Score(row: CvRow, counts: SectionCounts): nat
  {
    3 + Indicator(Truthy(Column(row.columns, "phone"))) + Indicator(Truthy(Column(row.columns, "location")))
      + Indicator(Truthy(Column(row.columns, "summary")))
      + Indicator(counts.work > 0) + Indicator(counts.education > 0)
      + Indicator(counts.skills > 0) + Indicator(counts.projects > 0)
  }

  /** `round(score / 10 * 100, 1)`, which is always a whole number. */
  function Rate(row: CvRow, counts: SectionCounts): nat
  {
    Score(row, counts) * 10
  }

  /** The empty sections, in the fixed order work, education, skills, projects. */
  function MissingSections(counts: SectionCounts): seq<string>
  {
    (if counts.work > 0 then [] else [WorkSection])
      + (if counts.education > 0 then [] else [EducationSection])
      + (if counts.skills > 0 then [] else [SkillsSection])
      + (if counts.projects > 0 then [] else [ProjectsSection])
  }

  /** `calculate_cv_completion`, with its counters and its `missing_sections` list. */
  method CalculateCvCompletion(row: CvRow, counts: SectionCounts) returns (rate: nat, missing: seq<string>)
    ensures rate == Rate(row, counts)
    ensures missing == MissingSections(counts)
  {
    var totalWeight := 6 + 4;
    var filled := 3;
    if Truthy(Column(row.columns, "phone")) {
      filled := filled + 1;
    }
    if Truthy(Column(row.columns, "location")) {
      filled := filled + 1;
    }
    if Truthy(Column(row.columns, "summary")) {
      filled := filled + 1;
    }
    assert filled == 3 + Indicator(Truthy(Column(row.columns, "phone"))) + Indicator(Truthy(Column(row.columns, "location")))
      + Indicator(Truthy(Column(row.columns, "summary")));
    missing := [];
    var sectionScore := 0;
    if counts.work > 0 {
      sectionScore := sectionScore + 1;
    } else {
      missing := missing + [WorkSection];
    }
    if counts.education > 0 {
      sectionScore := sectionScore + 1;
    } else {
      missing := missing + [EducationSection];
    }
    if counts.skills > 0 {
      sectionScore := sectionScore + 1;
    } else {
      missing := missing + [SkillsSection];
    }
    if counts.projects > 0 {
      sectionScore := sectionScore + 1;
    } else {
      missing := missing + [ProjectsSection];
    }
    assert filled + sectionScore == Score(row, counts);
    rate := (filled + sectionScore) * 100 / totalWeight;
    assert rate == (filled + sectionScore) * 10;
  }

  /** Every rate lies between 30 and 100. */
  lemma RateBounds(row: CvRow, counts: SectionCounts)
    ensures 30 <= Rate(row, counts) <= 100
  {
  }

  /** The position of a section name in the fixed order. */
  function SectionPosition(name: string): int
  {
    if name == WorkSection then 0
    else if name == EducationSection then 1
    else if name == SkillsSection then 2
    else 3
  }

  /**
   * A section is listed exactly when it is empty, each at most once and in
   * the fixed order; the list's length is the number of empty sections.
   */
  lemma MissingSectionsExact(counts: SectionCounts)
    ensures WorkSection in MissingSections(counts) <==> counts.work == 0
    ensures EducationSection in MissingSections(counts) <==> counts.education == 0
    ensures SkillsSection in MissingSections(counts) <==> counts.skills == 0
    ensures ProjectsSection in MissingSections(counts) <==> counts.projects == 0
    ensures |MissingSections(counts)| == 4 - Indicator(counts.work > 0) - Indicator(counts.education > 0)
      - Indicator(counts.skills > 0) - Indicator(counts.projects > 0)
    ensures forall i, j :: 0 <= i < j < |MissingSections(counts)| ==>
      SectionPosition(MissingSections(counts)[i]) < SectionPosition(MissingSections(counts)[j])
  {
    var m := MissingSections(counts);
    assert forall s :: s in m ==> s in [WorkSection, EducationSection, SkillsSection, ProjectsSection];
  }

  /** A CV is complete exactly when phone, location and summary are set and no section is missing. */
  lemma CompleteIff(row: CvRow, counts: SectionCounts)
    ensures Rate(row, counts) == 100 <==>
      (&& Truthy(Column(row.columns, "phone")) && Truthy(Column(row.columns, "location"))
       && Truthy(Column(row.columns, "summary")) && MissingSections(counts) == [])
  {
    if MissingSections(counts) == [] {
      MissingSectionsExact(counts);
    }
  }

  /** What the dashboard needs of one of the user's CVs, in query order. */
  datatype CvSnapshot = CvSnapshot(id: int, title: string, row: CvRow, counts: SectionCounts, updatedAt: int)

  datatype IncompleteCv = IncompleteCv(id: int, title: string, completionRate: nat, missingSections: seq<string>)

  datatype Stats = Stats(
    totalCvs: nat, templatesUsed: nat, averageCompletionRate: real, lastActivity: int,
    incompleteCvs: seq<IncompleteCv>)

  function IncompleteOf(cv: CvSnapshot): IncompleteCv
  {
    IncompleteCv(cv.id, cv.title, Rate(cv.row, cv.counts), MissingSections(cv.counts))
  }

  /** The CVs below 100%, in CV order. */
  function Incomplete(cvs: seq<CvSnapshot>): seq<IncompleteCv>
  {
    if cvs == [] then []
    else if Rate(cvs[|cvs| - 1].row, cvs[|cvs| - 1].counts) < 100
    then Incomplete(cvs[..|cvs| - 1]) + [IncompleteOf(cvs[|cvs| - 1])]
    else Incomplete(cvs[..|cvs| - 1])
  }

  predicate Listed(xs: seq<IncompleteCv>, info: IncompleteCv)
  {
    exists k | 0 <= k < |xs| :: xs[k] == info
  }

  /** The position in `cvs` of each entry of `Incomplete(cvs)`. */
  function IncompleteIndices(cvs: seq<CvSnapshot>): seq<int>
  {
    if cvs == [] then []
    else if Rate(cvs[|cvs| - 1].row, cvs[|cvs| - 1].counts) < 100
    then IncompleteIndices(cvs[..|cvs| - 1]) + [|cvs| - 1]
    else IncompleteIndices(cvs[..|cvs| - 1])
  }

  /** Entry `k` of the list is built from the CV at `IncompleteIndices(cvs)[k]`, which is below 100%,
    * and these positions strictly increase, so the list keeps CV order. */
  lemma {:induction false} IncompleteInOrder(cvs: seq<CvSnapshot>)
    ensures |IncompleteIndices(cvs)| == |Incomplete(cvs)|
    ensures forall k :: 0 <= k < |Incomplete(cvs)| ==>
      0 <= IncompleteIndices(cvs)[k] < |cvs|
      && Rate(cvs[IncompleteIndices(cvs)[k]].row, cvs[IncompleteIndices(cvs)[k]].counts) < 100
      && Incomplete(cvs)[k] == IncompleteOf(cvs[IncompleteIndices(cvs)[k]])
    ensures forall k, l :: 0 <= k < l < |IncompleteIndices(cvs)| ==>
      IncompleteIndices(cvs)[k] < IncompleteIndices(cvs)[l]
  {
    if cvs != [] {
      var init := cvs[..|cvs| - 1];
      IncompleteInOrder(init);
      forall k | 0 <= k < |IncompleteIndices(init)|
        ensures IncompleteIndices(init)[k] < |cvs| - 1
        ensures cvs[IncompleteIndices(init)[k]] == init[IncompleteIndices(init)[k]]
      {
      }
    }
  }

  /** Only CVs below 100% are listed, each entry is built from one of them, and every such CV is listed. */
  lemma {:induction false} IncompleteExact(cvs: seq<CvSnapshot>)
    ensures |Incomplete(cvs)| <= |cvs|
    ensures forall k :: 0 <= k < |Incomplete(cvs)| ==> Incomplete(cvs)[k].completionRate < 100
    ensures forall k :: 0 <= k < |Incomplete(cvs)| ==>
      exists i :: 0 <= i < |cvs| && Rate(cvs[i].row, cvs[i].counts) < 100 && Incomplete(cvs)[k] == IncompleteOf(cvs[i])
    ensures forall i :: 0 <= i < |cvs| && Rate(cvs[i].row, cvs[i].counts) < 100 ==>
      Listed(Incomplete(cvs), IncompleteOf(cvs[i]))
  {
    IncompleteInOrder(cvs);
    forall k | 0 <= k < |Incomplete(cvs)|
      ensures exists i :: 0 <= i < |cvs| && Rate(cvs[i].row, cvs[i].counts) < 100 && Incomplete(cvs)[k] == IncompleteOf(cvs[i])
    {
      var i := IncompleteIndices(cvs)[k];
      assert 0 <= i < |cvs| && Rate(cvs[i].row, cvs[i].counts) < 100 && Incomplete(cvs)[k] == IncompleteOf(cvs[i]);
    }
    if cvs != [] {
      var init := cvs[..|cvs| - 1];
      IncompleteExact(init);
      var last := cvs[|cvs| - 1];
      var out := Incomplete(cvs);
      forall i | 0 <= i < |cvs| && Rate(cvs[i].row, cvs[i].counts) < 100
        ensures Listed(out, IncompleteOf(cvs[i]))
      {
        if i < |cvs| - 1 {
          assert cvs[i] == init[i];
          var k :| 0 <= k < |Incomplete(init)| && Incomplete(init)[k] == IncompleteOf(cvs[i]);
          assert out[k] == Incomplete(init)[k];
        } else {
          assert out[|out| - 1] == IncompleteOf(last);
        }
      }
    }
  }

  /** The first `n` of a list (`xs[:n]`). */
  function Take<T>(xs: seq<T>, n: nat): (r: seq<T>)
    ensures |r| == if |xs| <= n then |xs| else n
    ensures forall k :: 0 <= k < |r| ==> r[k] == xs[k]
  {
    if |xs| <= n then xs else xs[..n]
  }

  function RateSum(cvs: seq<CvSnapshot>): nat
  {
    if cvs == [] then 0 else RateSum(cvs[..|cvs| - 1]) + Rate(cvs[|cvs| - 1].row, cvs[|cvs| - 1].counts)
  }

  /** The sum of the rates lies between 30 and 100 per CV, so the average does too. */
  lemma {:induction false} RateSumBounds(cvs: seq<CvSnapshot>)
    ensures 30 * |cvs| <= RateSum(cvs) <= 100 * |cvs|
  {
    if cvs != [] {
      RateSumBounds(cvs[..|cvs| - 1]);
      RateBounds(cvs[|cvs| - 1].row, cvs[|cvs| - 1].counts);
    }
  }

  /** The latest `updated_at` of a non-empty list. */
  function MaxUpdated(cvs: seq<CvSnapshot>): int
    requires cvs != []
  {
    if |cvs| == 1 then cvs[0].updatedAt
    else
      var rest := MaxUpdated(cvs[..|cvs| - 1]);
      if cvs[|cvs| - 1].updatedAt > rest then cvs[|cvs| - 1].updatedAt else rest
  }

  /** `max((cv.updated_at for cv in cvs), default=current_user.updated_at)`. */
  function LastActivity(cvs: seq<CvSnapshot>, userUpdatedAt: int): int
  {
    if cvs == [] then userUpdatedAt else MaxUpdated(cvs)
  }

  predicate UpdatedAtOf(cvs: seq<CvSnapshot>, t: int)
  {
    exists i | 0 <= i < |cvs| :: cvs[i].updatedAt == t
  }

  /** With CVs, the last activity is the latest update of one of them; without, the user's own. */
  lemma {:induction false} LastActivityIsLatest(cvs: seq<CvSnapshot>, userUpdatedAt: int)
    ensures cvs == [] ==> LastActivity(cvs, userUpdatedAt) == userUpdatedAt
    ensures cvs != [] ==> UpdatedAtOf(cvs, LastActivity(cvs, userUpdatedAt))
    ensures forall i :: 0 <= i < |cvs| ==> cvs[i].updatedAt <= LastActivity(cvs, userUpdatedAt)
  {
    if |cvs| > 1 {
      var init := cvs[..|cvs| - 1];
      LastActivityIsLatest(init, userUpdatedAt);
      var k :| 0 <= k < |init| && init[k].updatedAt == MaxUpdated(init);
      assert cvs[k] == init[k];
      forall i | 0 <= i < |cvs| - 1
        ensures cvs[i].updatedAt <= MaxUpdated(cvs)
      {
        assert cvs[i] == init[i];
      }
    }
  }

  function Average(sum: nat, count: nat): real
  {
    if count == 0 then 0.0 else sum as real / count as real
  }

  /** `get_dashboard_stats` over the user's CVs in query order. */
  method GetDashboardStats(cvs: seq<CvSnapshot>, userUpdatedAt: int) returns (s: Stats)
    ensures cvs == [] ==> s == Stats(0, 0, 0.0, userUpdatedAt, [])
    ensures s.totalCvs == |cvs|
    ensures s.templatesUsed == if |cvs| <= 3 then |cvs| else 3
    ensures s.averageCompletionRate == Average(RateSum(cvs), |cvs|)
    ensures s.lastActivity == LastActivity(cvs, userUpdatedAt)
    ensures s.incompleteCvs == Take(Incomplete(cvs), 5)
  {
    var total := |cvs|;
    if total == 0 {
      return Stats(0, 0, 0.0, userUpdatedAt, []);
    }
    var rateSum := 0;
    var incompleteList := [];
    var lastActivity := cvs[0].updatedAt;
    var i := 0;
    while i < total
      invariant 0 <= i <= total
      invariant rateSum == RateSum(cvs[..i])
      invariant incompleteList == Incomplete(cvs[..i])
      invariant lastActivity == if i == 0 then cvs[0].updatedAt else MaxUpdated(cvs[..i])
    {
      assert cvs[..i + 1][..i] == cvs[..i];
      var rate, missing := CalculateCvCompletion(cvs[i].row, cvs[i].counts);
      rateSum := rateSum + rate;
      if rate < 100 {
        incompleteList := incompleteList + [IncompleteCv(cvs[i].id, cvs[i].title, rate, missing)];
      }
      if i > 0 && cvs[i].updatedAt > lastActivity {
        lastActivity := cvs[i].updatedAt;
      }
      i := i + 1;
    }
    assert cvs[..total] == cvs;
    var templatesUsed := if total <= 3 then total else 3;
    s := Stats(total, templatesUsed, Average(rateSum, total), lastActivity, Take(incompleteList, 5));
  }
}
