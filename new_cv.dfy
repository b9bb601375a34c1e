/**
 * The new-CV wizard page (frontend/src/routes/app/cvs/new.tsx): a first step
 * of basic details that must validate before the wizard moves on, a choice of
 * sections, the AI summary sheet, and the create request with the section
 * choice remembered in local storage under `cv_sections_{id}`.
 */
module NewCv {
  import opened Wrappers
  import opened Text
  import opened Validators

  const TitleRequired := "CV title is required"
  const FullNameRequired := "Full name is required"
  const EmailRequired := "Email is required"
  const EmailInvalid := "Please enter a valid email"
  const NoSummaryYet := "No summary provided yet."

  /** The sections preselected when the page opens, in this order. */
  const DefaultSections: seq<string> := ["work_experience", "education", "skills", "projects"]

  /**
   * `validateStep1`'s record: a missing title or full name, and for the
   * email either "required" when it is empty or "valid email" when it does
   * not match the pattern.
   */
  function Step1Errors(title: string, fullName: string, email: string): (errors: map<string, string>)
    ensures "title" in errors <==> title == ""
    ensures "fullName" in errors <==> fullName == ""
    ensures "email" in errors <==> !MatchesEmailPattern(email)
    ensures errors.Keys <= {"title", "fullName", "email"}
    ensures "title" in errors ==> errors["title"] == TitleRequired
    ensures "fullName" in errors ==> errors["fullName"] == FullNameRequired
    ensures "email" in errors ==> errors["email"] == (if email == "" then EmailRequired else EmailInvalid)
  {
    var withTitle: map<string, string> := if title == "" then map["title" := TitleRequired] else map[];
    var withName := if fullName == "" then withTitle["fullName" := FullNameRequired] else withTitle;
    if email == "" then withName["email" := EmailRequired]
    else if !MatchesEmailPattern(email) then withName["email" := EmailInvalid]
    else withName
  }

  /** Step 1 passes exactly when title and full name are set and the email matches the pattern. */
  lemma Step1ValidIff(title: string, fullName: string, email: string)
    ensures Step1Errors(title, fullName, email) == map[] <==> title != "" && fullName != "" && MatchesEmailPattern(email)
  {
    var errors := Step1Errors(title, fullName, email);
    if title == "" {
      assert "title" in errors;
    } else if fullName == "" {
      assert "fullName" in errors;
    } else if !MatchesEmailPattern(email) {
      assert "email" in errors;
    }
  }

  /** `prev.filter((s) => s !== key)`. */
  function Without(sections: seq<string>, key: string): (r: seq<string>)
    ensures key !in r
    ensures forall s :: s in r <==> s in sections && s != key
    ensures |r| <= |sections|
  {
    if |sections| == 0 then []
    else
      var rest := Without(sections[..|sections| - 1], key);
      if sections[|sections| - 1] == key then rest else rest + [sections[|sections| - 1]]
  }

  /** Filtering out a key the list does not hold changes nothing. */
  lemma {:induction false} WithoutAbsent(sections: seq<string>, key: string)
    requires key !in sections
    ensures Without(sections, key) == sections
  {
    if |sections| > 0 {
      WithoutAbsent(sections[..|sections| - 1], key);
      assert sections[..|sections| - 1] + [sections[|sections| - 1]] == sections;
    }
  }

  /** `toggleSection`: a selected key is removed wherever it occurs, an unselected one appended. */
  function Toggle(sections: seq<string>, key: string): (r: seq<string>)
    ensures key in r <==> key !in sections
    ensures forall s | s != key :: s in r <==> s in sections
    ensures key !in sections ==> r == sections + [key]
  {
    if key in sections then Without(sections, key) else sections + [key]
  }

  /** Toggling an unselected key twice gives back the same list. */
  lemma ToggleTwiceRestores(sections: seq<string>, key: string)
    requires key !in sections
    ensures Toggle(Toggle(sections, key), key) == sections
  {
    var added := sections + [key];
    assert added[..|added| - 1] == sections;
    WithoutAbsent(sections, key);
  }

  /**
   * The `createCV` body: title, full name and email always; phone,
   * location and summary only when non-empty (`|| undefined`).
   */
  function CreatePayload(title: string, fullName: string, email: string, phone: string, location: string, summary: string)
    : (p: map<string, string>)
    ensures p.Keys * {"title", "full_name", "email"} == {"title", "full_name", "email"}
    ensures p["title"] == title && p["full_name"] == fullName && p["email"] == email
    ensures ("phone" in p <==> phone != "") && ("phone" in p ==> p["phone"] == phone)
    ensures ("location" in p <==> location != "") && ("location" in p ==> p["location"] == location)
    ensures ("summary" in p <==> summary != "") && ("summary" in p ==> p["summary"] == summary)
    ensures p.Keys <= {"title", "full_name", "email", "phone", "location", "summary"}
  {
    var base := map["title" := title, "full_name" := fullName, "email" := email];
    var withPhone := if phone != "" then base["phone" := phone] else base;
    var withLocation := if location != "" then withPhone["location" := location] else withPhone;
    if summary != "" then withLocation["summary" := summary] else withLocation
  }

  /** The local-storage key that remembers a created CV's section choice. */
  function SectionsKey(id: nat): string
  {
    "cv_sections_" + NatToString(id)
  }

  /** The key names the CV: its text after the prefix is the id's decimal digits. */
  lemma SectionsKeyShape(id: nat)
    ensures StartsWith(SectionsKey(id), "cv_sections_")
    ensures SectionsKey(id)[|"cv_sections_"|..] == NatToString(id)
  {
  }

  /** The local-storage write after a CV is created: the key and the list, only when a section is selected. */
  function SectionPreference(sections: seq<string>, id: nat): (w: Option<(string, seq<string>)>)
    ensures w.Some? <==> |sections| > 0
    ensures w.Some? ==> w.value == (SectionsKey(id), sections)
  {
    if |sections| > 0 then Some((SectionsKey(id), sections)) else None
  }

  /** A text input of step 1. */
  datatype Input = TitleInput | FullNameInput | EmailInput | PhoneInput | LocationInput | SummaryInput

  /** The wizard's state. */
  class Wizard {
    var step: int
    var errors: map<string, string>
    var title: string
    var fullName: string
    var email: string
    var phone: string
    var location: string
    var summary: string
    var selectedSections: seq<string>
    var summarySheetOpen: bool
    var summaryOriginal: string
    var summaryGenerated: string

    constructor()
      ensures step == 1 && errors == map[]
      ensures title == "" && fullName == "" && email == "" && phone == "" && location == "" && summary == ""
      ensures selectedSections == DefaultSections
      ensures !summarySheetOpen && summaryOriginal == "" && summaryGenerated == ""
    {
      step := 1;
      errors := map[];
      title, fullName, email, phone, location, summary := "", "", "", "", "", "";
      selectedSections := DefaultSections;
      summarySheetOpen := false;
      summaryOriginal, summaryGenerated := "", "";
    }

    /** An input's `onChange`. */
    method Type(input: Input, value: string)
      modifies this
      ensures title == (if input == TitleInput then value else old(title))
      ensures fullName == (if input == FullNameInput then value else old(fullName))
      ensures email == (if input == EmailInput then value else old(email))
      ensures phone == (if input == PhoneInput then value else old(phone))
      ensures location == (if input == LocationInput then value else old(location))
      ensures summary == (if input == SummaryInput then value else old(summary))
      ensures step == old(step) && errors == old(errors) && selectedSections == old(selectedSections)
      ensures summarySheetOpen == old(summarySheetOpen)
      ensures summaryOriginal == old(summaryOriginal) && summaryGenerated == old(summaryGenerated)
    {
      match input
      case TitleInput => title := value;
      case FullNameInput => fullName := value;
      case EmailInput => email := value;
      case PhoneInput => phone := value;
      case LocationInput => location := value;
      case SummaryInput => summary := value;
    }

    /** `validateStep1`: fills a fresh record check by check, stores it, and answers whether it is empty. */
    method ValidateStep1() returns (ok: bool)
      modifies this`errors
      ensures errors == Step1Errors(title, fullName, email)
      ensures ok <==> title != "" && fullName != "" && MatchesEmailPattern(email)
    {
      var newErrors: map<string, string> := map[];
      if title == "" {
        newErrors := newErrors["title" := TitleRequired];
      }
      if fullName == "" {
        newErrors := newErrors["fullName" := FullNameRequired];
      }
      if email == "" {
        newErrors := newErrors["email" := EmailRequired];
      } else if !MatchesEmailPattern(email) {
        newErrors := newErrors["email" := EmailInvalid];
      }
      errors := newErrors;
      Step1ValidIff(title, fullName, email);
      ok := |newErrors| == 0;
    }

    /** `handleNext`: step 1 moves on only when it validates; any other step always moves on. */
    method HandleNext()
      modifies this`step, this`errors
      ensures old(step) == 1 ==> errors == Step1Errors(title, fullName, email)
      ensures old(step) != 1 ==> errors == old(errors)
      ensures step == (if old(step) != 1 || Step1Errors(title, fullName, email) == map[] then old(step) + 1 else old(step))
    {
      if step == 1 {
        var ok := ValidateStep1();
        if !ok {
          return;
        }
      }
      step := step + 1;
    }

    /** `handleBack`. */
    method HandleBack()
      modifies this`step
      ensures step == old(step) - 1
    {
      step := step - 1;
    }

    /** `toggleSection`. */
    method ToggleSection(key: string)
      modifies this`selectedSections
      ensures selectedSections == Toggle(old(selectedSections), key)
    {
      if key in selectedSections {
        selectedSections := Without(selectedSections, key);
      } else {
        selectedSections := selectedSections + [key];
      }
    }

    /** `handleOpenSummaryAi`: shows the current summary (or a placeholder) and clears the last suggestion. */
    method OpenSummaryAi()
      modifies this`summaryOriginal, this`summaryGenerated, this`summarySheetOpen
      ensures summaryOriginal == (if summary != "" then summary else NoSummaryYet)
      ensures summaryGenerated == "" && summarySheetOpen
    {
      summaryOriginal := if summary != "" then summary else NoSummaryYet;
      summaryGenerated := "";
      summarySheetOpen := true;
    }

    /** The preview request's success: the suggestion replaces the previous one. */
    method ReceiveSummary(generated: string)
      modifies this`summaryGenerated
      ensures summaryGenerated == generated
    {
      summaryGenerated := generated;
    }

    /** `handleApplySummaryAi`: a non-empty suggestion replaces the summary; the sheet closes either way. */
    method ApplySummaryAi()
      modifies this`summary, this`summarySheetOpen
      ensures summary == (if old(summaryGenerated) != "" then old(summaryGenerated) else old(summary))
      ensures !summarySheetOpen
    {
      if summaryGenerated != "" {
        summary := summaryGenerated;
      }
      summarySheetOpen := false;
    }

    /** `handleSubmit`: the body sent to `createCV`. */
    method Submit() returns (payload: map<string, string>)
      ensures payload == CreatePayload(title, fullName, email, phone, location, summary)
    {
      payload := map["title" := title, "full_name" := fullName, "email" := email];
      if phone != "" {
        payload := payload["phone" := phone];
      }
      if location != "" {
        payload := payload["location" := location];
      }
      if summary != "" {
        payload := payload["summary" := summary];
      }
    }

    /** The create request's success handler: the local-storage write it makes, if any. */
    method OnCreated(id: nat) returns (write: Option<(string, seq<string>)>)
      ensures write == SectionPreference(selectedSections, id)
    {
      write := None;
      if |selectedSections| > 0 {
        write := Some((SectionsKey(id), selectedSections));
      }
    }
  }
}
