/**
 * The four section endpoints (backend/app/api/v1/endpoints/work_experiences.py,
 * educations.py, projects.py and skills.py), which follow one pattern and are
 * modelled once, by the kind of entry: create into a CV the caller owns, and
 * get, update and delete an entry, answering 404 for a missing entry before
 * 403 for an entry whose CV is someone else's.
 */
module Sections {
  import opened Wrappers
  import opened Http
  import opened Store

  /** The detail of `verify_cv_ownership`'s 403. */
  const NoCvAccess := "CV not found or you don't have access to this CV"
  /** The detail of pydantic's 422 for a request that fails validation. */
  const InvalidRequest := "Field required"

  /** The 404 detail of each endpoint file. */
  function NotFoundDetail(kind: Kind): string
  {
    match kind
    case WorkKind => "Work experience not found"
    case EducationKind => "Education not found"
    case ProjectKind => "Project not found"
    case SkillKind => "Skill not found"
  }

  /** The `...Create` schema of each kind, apart from `cv_id`. */
  function CreateSchema(kind: Kind): Schema
  {
    match kind
    case WorkKind => Schema({"company", "position", "start_date"},
      map["location" := NullValue, "end_date" := NullValue, "description" := NullValue,
          "display_order" := IntValue(0)])
    case EducationKind => Schema({"institution", "degree", "start_date"},
      map["field_of_study" := NullValue, "end_date" := NullValue, "description" := NullValue,
          "gpa" := NullValue, "honors" := NullValue, "relevant_subjects" := NullValue,
          "thesis_title" := NullValue, "display_order" := IntValue(0)])
    case ProjectKind => Schema({"name"},
      map["description" := NullValue, "role" := NullValue, "technologies" := NullValue,
          "start_date" := NullValue, "end_date" := NullValue, "url" := NullValue,
          "github_url" := NullValue, "display_order" := IntValue(0)])
    case SkillKind => Schema({"name"}, map["category" := NullValue, "display_order" := IntValue(0)])
  }

  /** The fields each `...Update` schema declares: the create fields, never `cv_id`. */
  function UpdateFields(kind: Kind): (r: set<string>)
    ensures r == CreateSchema(kind).required + CreateSchema(kind).defaults.Keys
    ensures "cv_id" !in r
  {
    match kind
    case WorkKind => {"company", "position", "location", "start_date", "end_date", "description", "display_order"}
    case EducationKind => {"institution", "degree", "field_of_study", "start_date", "end_date", "description",
      "gpa", "honors", "relevant_subjects", "thesis_title", "display_order"}
    case ProjectKind => {"name", "description", "role", "technologies", "start_date", "end_date", "url",
      "github_url", "display_order"}
    case SkillKind => {"name", "category", "display_order"}
  }

  /** A GPA, when one is sent, lies between 0 and 4.0 (`Field(None, ge=0, le=4.0)`). */
  predicate GpaAccepted(kind: Kind, body: map<string, Value>)
  {
    kind == EducationKind && "gpa" in body ==>
      match body["gpa"]
      case NullValue => true
      case IntValue(n) => 0 <= n <= 4
      case RealValue(r) => 0.0 <= r <= 4.0
      case _ => false
  }

  /** A create body pydantic accepts: an integer `cv_id`, the required fields, a valid GPA. */
  predicate CreateAccepted(kind: Kind, body: map<string, Value>)
  {
    && "cv_id" in body && body["cv_id"].IntValue?
    && HasRequired(CreateSchema(kind), body)
    && GpaAccepted(kind, body)
  }

  /** `verify_cv_ownership`: the CV, when it exists and the caller owns it, else 403. */
  function VerifyCvOwnership(cvs: map<int, CvRow>, cvId: int, caller: int): (r: Result<CvRow, HttpError>)
    ensures r.Ok? <==> cvId in cvs && cvs[cvId].owner == caller
    ensures r.Ok? ==> r.value == cvs[cvId]
    ensures r.Err? ==> r.error == Fail(Forbidden, NoCvAccess)
  {
    if cvId in cvs && cvs[cvId].owner == caller then Ok(cvs[cvId]) else Err(Fail(Forbidden, NoCvAccess))
  }

  /**
   * The lookup `get`, `update` and `delete` share: the entry by id, then
   * `verify_cv_ownership` on its CV.
   */
  function Lookup(cvs: map<int, CvRow>, entries: map<int, EntryRow>, kind: Kind, id: int, caller: int): Result<EntryRow, HttpError>
  {
    if id !in entries || entries[id].kind != kind then Err(Fail(NotFound, NotFoundDetail(kind)))
    else if VerifyCvOwnership(cvs, entries[id].cvId, caller).Err? then Err(Fail(Forbidden, NoCvAccess))
    else Ok(entries[id])
  }

  /**
   * 404 exactly when there is no such entry, whoever asks; 403 exactly when
   * the entry exists but its CV is not the caller's; otherwise the entry.
   */
  lemma LookupOrder(cvs: map<int, CvRow>, entries: map<int, EntryRow>, kind: Kind, id: int, caller: int)
    ensures Lookup(cvs, entries, kind, id, caller) == Err(Fail(NotFound, NotFoundDetail(kind)))
      <==> !(id in entries && entries[id].kind == kind)
    ensures Lookup(cvs, entries, kind, id, caller) == Err(Fail(Forbidden, NoCvAccess))
      <==> (id in entries && entries[id].kind == kind
            && !(entries[id].cvId in cvs && cvs[entries[id].cvId].owner == caller))
    ensures Lookup(cvs, entries, kind, id, caller).Ok?
      <==> (id in entries && entries[id].kind == kind
            && entries[id].cvId in cvs && cvs[entries[id].cvId].owner == caller)
    ensures Lookup(cvs, entries, kind, id, caller).Ok? ==> Lookup(cvs, entries, kind, id, caller).value == entries[id]
  {
    NotFoundIsNotForbidden(kind);
  }

  /** No 404 detail is the 403 detail. */
  lemma NotFoundIsNotForbidden(kind: Kind)
    ensures Fail(NotFound, NotFoundDetail(kind)) != Fail(Forbidden, NoCvAccess)
  {
  }

  /** The row a valid create body stores: its CV, and every declared field sent or defaulted. */
  function NewEntry(kind: Kind, body: map<string, Value>): (r: EntryRow)
    requires CreateAccepted(kind, body)
    ensures r.kind == kind && r.cvId == body["cv_id"].n
    ensures r.columns.Keys == UpdateFields(kind)
    ensures forall f :: f in r.columns && f in body ==> r.columns[f] == body[f]
  {
    EntryRow(kind, body["cv_id"].n, Dump(CreateSchema(kind), body))
  }

  /** `create_*`: 422 for an invalid body, 403 unless the caller owns the CV, else one new entry. */
  method CreateEntry(db: Database, kind: Kind, body: map<string, Value>, caller: int) returns (r: Result<int, HttpError>)
    requires db.Valid()
    modifies db
    ensures db.Valid()
    ensures !CreateAccepted(kind, body) ==> r == Err(Fail(UnprocessableEntity, InvalidRequest)) && unchanged(db)
    ensures CreateAccepted(kind, body) && VerifyCvOwnership(old(db.cvs), body["cv_id"].n, caller).Err? ==>
      r == Err(Fail(Forbidden, NoCvAccess)) && unchanged(db)
    ensures CreateAccepted(kind, body) && VerifyCvOwnership(old(db.cvs), body["cv_id"].n, caller).Ok? ==>
      && r == Ok(old(db.nextId))
      && old(db.nextId) !in old(db.entries)
      && db.entries == old(db.entries)[old(db.nextId) := NewEntry(kind, body)]
      && db.nextId == old(db.nextId) + 1
    ensures db.users == old(db.users) && db.cvs == old(db.cvs) && db.shareLinks == old(db.shareLinks)
  {
    if !CreateAccepted(kind, body) {
      return Err(Fail(UnprocessableEntity, InvalidRequest));
    }
    var owned := VerifyCvOwnership(db.cvs, body["cv_id"].n, caller);
    if owned.Err? {
      return Err(owned.error);
    }
    var id := db.nextId;
    db.entries := db.entries[id := NewEntry(kind, body)];
    db.nextId := id + 1;
    r := Ok(id);
  }

  /** The entry after `update_*`: the sent declared fields are assigned; its kind and CV are kept. */
  function UpdatedEntry(row: EntryRow, body: map<string, Value>): (r: EntryRow)
    ensures r.kind == row.kind && r.cvId == row.cvId
    ensures forall f :: f in body && f in UpdateFields(row.kind) ==> f in r.columns && r.columns[f] == body[f]
    ensures forall f :: !(f in body && f in UpdateFields(row.kind)) ==> (f in r.columns <==> f in row.columns)
    ensures forall f :: !(f in body && f in UpdateFields(row.kind)) && f in row.columns ==> r.columns[f] == row.columns[f]
  {
    EntryRow(row.kind, row.cvId, Assigned(row.columns, body, UpdateFields(row.kind)))
  }

  /** `update_*`: 422, 404 or 403 with no change, or the partial update of that one entry. */
  method UpdateEntry(db: Database, kind: Kind, id: int, body: map<string, Value>, caller: int)
    returns (r: Result<EntryRow, HttpError>)
    requires db.Valid()
    modifies db
    ensures db.Valid()
    ensures !GpaAccepted(kind, body) ==> r == Err(Fail(UnprocessableEntity, InvalidRequest)) && unchanged(db)
    ensures GpaAccepted(kind, body) && Lookup(old(db.cvs), old(db.entries), kind, id, caller).Err? ==>
      r == Lookup(old(db.cvs), old(db.entries), kind, id, caller) && unchanged(db)
    ensures GpaAccepted(kind, body) && Lookup(old(db.cvs), old(db.entries), kind, id, caller).Ok? ==>
      && r == Ok(UpdatedEntry(old(db.entries)[id], body))
      && db.entries == old(db.entries)[id := UpdatedEntry(old(db.entries)[id], body)]
    ensures db.users == old(db.users) && db.cvs == old(db.cvs) && db.shareLinks == old(db.shareLinks)
    ensures db.nextId == old(db.nextId)
  {
    if !GpaAccepted(kind, body) {
      return Err(Fail(UnprocessableEntity, InvalidRequest));
    }
    var found := Lookup(db.cvs, db.entries, kind, id, caller);
    if found.Err? {
      return found;
    }
    var columns := AssignFields(found.value.columns, body, UpdateFields(kind));
    var row := EntryRow(kind, found.value.cvId, columns);
    db.entries := db.entries[id := row];
    r := Ok(row);
  }

  /** `delete_*`: 404 or 403 with no change, or exactly that entry removed. */
  method DeleteEntry(db: Database, kind: Kind, id: int, caller: int) returns (r: Result<(), HttpError>)
    requires db.Valid()
    modifies db
    ensures db.Valid()
    ensures Lookup(old(db.cvs), old(db.entries), kind, id, caller).Err? ==>
      r == Err(Lookup(old(db.cvs), old(db.entries), kind, id, caller).error) && unchanged(db)
    ensures Lookup(old(db.cvs), old(db.entries), kind, id, caller).Ok? ==>
      r == Ok(()) && db.entries == old(db.entries) - {id}
    ensures db.users == old(db.users) && db.cvs == old(db.cvs) && db.shareLinks == old(db.shareLinks)
    ensures db.nextId == old(db.nextId)
  {
    var found := Lookup(db.cvs, db.entries, kind, id, caller);
    if found.Err? {
      return Err(found.error);
    }
    db.entries := db.entries - {id};
    r := Ok(());
  }
}
