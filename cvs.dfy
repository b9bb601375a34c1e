/**
 * The CV endpoints (backend/app/api/v1/endpoints/cvs.py): create, list with
 * offset and limit, get, partial update and cascading delete, each scoped to
 * the caller's own CVs. `caller` is the id of the user `get_current_user`
 * resolved.
 */
module Cvs {
  import opened Wrappers
  import opened Http
  import opened Store

  const NoAccess := "CV not found or you don't have access"
  /** The detail of pydantic's 422 for a missing required field. */
  const FieldRequired := "Field required"

  const OptionalCvFields: map<string, Value> :=
    map["phone" := NullValue, "location" := NullValue, "summary" := NullValue]

  /** `CVCreate` as declared in backend/app/schemas/cv.py: `user_id` is required. */
  const CreateSchemaAsWritten := Schema({"title", "full_name", "email", "user_id"}, OptionalCvFields)

  /** The create schema without `user_id`, which the endpoint takes from the caller. */
  const CreateSchema := Schema({"title", "full_name", "email"}, OptionalCvFields)

  /** The fields `CVUpdate` declares. */
  const UpdateFields: set<string> := {"title", "full_name", "email", "phone", "location", "summary"}

  /**
   * `CV(**cv_in.model_dump(), user_id=current_user.id)` as written: a body
   * without `user_id` fails validation, and a body with it passes `user_id`
   * twice, which Python rejects with a TypeError before any row exists.
   */
  function NewCvAsWritten(body: map<string, Value>, caller: int): Result<CvRow, HttpError>
  {
    if !HasRequired(CreateSchemaAsWritten, body) then Err(Fail(UnprocessableEntity, FieldRequired))
    else Err(Fail(InternalServerError, UncaughtError))
  }

  /** Whatever the body and the caller, the create endpoint as written stores nothing. */
  lemma AsWrittenCreateNeverSucceeds(body: map<string, Value>, caller: int)
    ensures NewCvAsWritten(body, caller).Err?
    ensures NewCvAsWritten(body, caller).error.status == UnprocessableEntity <==> !HasRequired(CreateSchemaAsWritten, body)
  {
  }

  /** The request the backend's own CV tests send is refused, with or without `user_id`. */
  lemma AsWrittenRefusesTestRequest(caller: int)
    ensures NewCvAsWritten(map["title" := TextValue("My CV"), "full_name" := TextValue("John Doe"),
      "email" := TextValue("john@example.com")], caller) == Err(Fail(UnprocessableEntity, FieldRequired))
    ensures NewCvAsWritten(map["title" := TextValue("My CV"), "full_name" := TextValue("John Doe"),
      "email" := TextValue("john@example.com"), "user_id" := IntValue(caller)], caller)
      == Err(Fail(InternalServerError, UncaughtError))
  {
    var body := map["title" := TextValue("My CV"), "full_name" := TextValue("John Doe"),
      "email" := TextValue("john@example.com")];
    assert "user_id" !in body;
    assert HasRequired(CreateSchemaAsWritten, body["user_id" := IntValue(caller)]);
  }

  /**
   * The row the create endpoint is evidently meant to store: the validated
   * contact fields, owned by the caller whatever `user_id` the body names.
   */
  function NewCv(body: map<string, Value>, caller: int): (r: Result<CvRow, HttpError>)
    ensures r.Ok? <==> HasRequired(CreateSchema, body)
    ensures r.Err? ==> r.error == Fail(UnprocessableEntity, FieldRequired)
    ensures r.Ok? ==> r.value.owner == caller
    ensures r.Ok? ==> r.value.columns.Keys == UpdateFields
    ensures r.Ok? ==> forall f :: f in UpdateFields ==> r.value.columns[f] == Column(body, f)
  {
    if !HasRequired(CreateSchema, body) then Err(Fail(UnprocessableEntity, FieldRequired))
    else Ok(CvRow(caller, Dump(CreateSchema, body)))
  }

  /** `create_cv` as written: it never changes the database. */
  method CreateCvAsWritten(db: Database, body: map<string, Value>, caller: int) returns (r: Result<int, HttpError>)
    ensures r.Err? && r.error == NewCvAsWritten(body, caller).error
  {
    var row := NewCvAsWritten(body, caller);
    r := Err(row.error);
  }

  /** `create_cv`, storing the new CV under the next free id. */
  method CreateCv(db: Database, body: map<string, Value>, caller: int) returns (r: Result<int, HttpError>)
    requires db.Valid() && caller in db.users
    modifies db
    ensures db.Valid()
    ensures NewCv(body, caller).Err? ==> r == Err(NewCv(body, caller).error) && unchanged(db)
    ensures NewCv(body, caller).Ok? ==>
      && r == Ok(old(db.nextId))
      && old(db.nextId) !in old(db.cvs)
      && db.cvs == old(db.cvs)[old(db.nextId) := NewCv(body, caller).value]
      && db.nextId == old(db.nextId) + 1
    ensures db.users == old(db.users) && db.entries == old(db.entries) && db.shareLinks == old(db.shareLinks)
  {
    var row := NewCv(body, caller);
    if row.Err? {
      return Err(row.error);
    }
    var id := db.nextId;
    db.cvs := db.cvs[id := row.value];
    db.nextId := id + 1;
    r := Ok(id);
  }

  /** The caller's CV ids below `n`, in ascending id order. */
  function OwnedIds(cvs: map<int, CvRow>, caller: int, n: nat): seq<int>
  {
    if n == 0 then []
    else if n - 1 in cvs && cvs[n - 1].owner == caller then OwnedIds(cvs, caller, n - 1) + [n - 1]
    else OwnedIds(cvs, caller, n - 1)
  }

  /** The caller's CVs below `n` are listed, each once, ascending, and nothing else is. */
  lemma {:induction false} OwnedIdsExact(cvs: map<int, CvRow>, caller: int, n: nat)
    ensures forall id :: id in OwnedIds(cvs, caller, n) <==> (0 <= id < n && id in cvs && cvs[id].owner == caller)
    ensures Ascending(OwnedIds(cvs, caller, n))
    ensures |OwnedIds(cvs, caller, n)| <= n
  {
    if n > 0 {
      OwnedIdsExact(cvs, caller, n - 1);
      var before := OwnedIds(cvs, caller, n - 1);
      assert forall i :: 0 <= i < |before| ==> before[i] < n - 1 by {
        forall i | 0 <= i < |before|
          ensures before[i] < n - 1
        {
          assert before[i] in before;
        }
      }
    }
  }

  /** SQL `OFFSET skip LIMIT limit` over a result list. */
  function Page(ids: seq<int>, skip: nat, limit: nat): (r: seq<int>)
    ensures |r| <= limit
    ensures |r| == if skip >= |ids| then 0 else if limit <= |ids| - skip then limit else |ids| - skip
    ensures forall i :: 0 <= i < |r| ==> r[i] == ids[skip + i]
  {
    if skip >= |ids| then []
    else if limit <= |ids| - skip then ids[skip..skip + limit]
    else ids[skip..]
  }

  /** Two consecutive pages make up the page that spans both. */
  lemma PagesConcatenate(ids: seq<int>, skip: nat, first: nat, second: nat)
    ensures Page(ids, skip, first) + Page(ids, skip + first, second) == Page(ids, skip, first + second)
  {
    var a := Page(ids, skip, first);
    var b := Page(ids, skip + first, second);
    var c := Page(ids, skip, first + second);
    assert |a + b| == |c|;
    forall i | 0 <= i < |c|
      ensures (a + b)[i] == c[i]
    {
      if i >= |a| {
        assert (a + b)[i] == b[i - |a|];
      }
    }
  }

  /** `list_cvs`: the caller's CVs (ids below `nextId`), skipping `skip`, at most `limit`. */
  function ListCvs(cvs: map<int, CvRow>, nextId: nat, caller: int, skip: nat, limit: nat): seq<int>
  {
    Page(OwnedIds(cvs, caller, nextId), skip, limit)
  }

  /** Only the caller's CVs are listed, in ascending id order, at most `limit` of them. */
  lemma ListCvsOwned(cvs: map<int, CvRow>, nextId: nat, caller: int, skip: nat, limit: nat)
    ensures forall id :: id in ListCvs(cvs, nextId, caller, skip, limit) ==> id in cvs && cvs[id].owner == caller
    ensures Ascending(ListCvs(cvs, nextId, caller, skip, limit))
    ensures |ListCvs(cvs, nextId, caller, skip, limit)| <= limit
  {
    OwnedIdsExact(cvs, caller, nextId);
    var owned := OwnedIds(cvs, caller, nextId);
    var page := ListCvs(cvs, nextId, caller, skip, limit);
    forall id | id in page
      ensures id in cvs && cvs[id].owner == caller
    {
      var i :| 0 <= i < |page| && page[i] == id;
      assert owned[skip + i] in owned;
    }
  }

  /** With no offset and a limit of at least `nextId`, every CV of the caller is listed. */
  lemma ListCvsComplete(cvs: map<int, CvRow>, nextId: nat, caller: int, limit: nat)
    requires forall id :: id in cvs ==> 0 <= id < nextId
    requires limit >= nextId
    ensures forall id :: id in cvs && cvs[id].owner == caller ==> id in ListCvs(cvs, nextId, caller, 0, limit)
  {
    OwnedIdsExact(cvs, caller, nextId);
    var owned := OwnedIds(cvs, caller, nextId);
    assert ListCvs(cvs, nextId, caller, 0, limit) == owned by {
      if |owned| > 0 {
        assert owned[0..] == owned;
      }
    }
  }

  /** `get_cv`: the caller's own CV, or 404 for a CV that is missing or belongs to someone else. */
  function GetCv(cvs: map<int, CvRow>, id: int, caller: int): (r: Result<CvRow, HttpError>)
    ensures r.Ok? <==> id in cvs && cvs[id].owner == caller
    ensures r.Ok? ==> r.value == cvs[id]
    ensures r.Err? ==> r.error == Fail(NotFound, NoAccess)
  {
    if id in cvs && cvs[id].owner == caller then Ok(cvs[id]) else Err(Fail(NotFound, NoAccess))
  }

  /** The CV after `update_cv`: the sent `CVUpdate` fields are assigned, its owner is kept. */
  function UpdatedCv(row: CvRow, body: map<string, Value>): (r: CvRow)
    ensures r.owner == row.owner
    ensures forall f :: f in body && f in UpdateFields ==> f in r.columns && r.columns[f] == body[f]
    ensures forall f :: !(f in body && f in UpdateFields) ==> (f in r.columns <==> f in row.columns)
    ensures forall f :: !(f in body && f in UpdateFields) && f in row.columns ==> r.columns[f] == row.columns[f]
  {
    CvRow(row.owner, Assigned(row.columns, body, UpdateFields))
  }

  /** `update_cv`: 404 with no change, or the partial update of the caller's CV. */
  method UpdateCv(db: Database, id: int, body: map<string, Value>, caller: int) returns (r: Result<CvRow, HttpError>)
    requires db.Valid()
    modifies db
    ensures db.Valid()
    ensures GetCv(old(db.cvs), id, caller).Err? ==> r == Err(Fail(NotFound, NoAccess)) && unchanged(db)
    ensures GetCv(old(db.cvs), id, caller).Ok? ==>
      && r == Ok(UpdatedCv(old(db.cvs)[id], body))
      && db.cvs == old(db.cvs)[id := UpdatedCv(old(db.cvs)[id], body)]
    ensures db.users == old(db.users) && db.entries == old(db.entries) && db.shareLinks == old(db.shareLinks)
    ensures db.nextId == old(db.nextId)
  {
    var found := GetCv(db.cvs, id, caller);
    if found.Err? {
      return Err(found.error);
    }
    var columns := AssignFields(found.value.columns, body, UpdateFields);
    var row := CvRow(found.value.owner, columns);
    db.cvs := db.cvs[id := row];
    r := Ok(row);
  }

  /** The entries that survive deleting a CV: those of every other CV. */
  function EntriesOutside(entries: map<int, EntryRow>, cvId: int): (r: map<int, EntryRow>)
    ensures forall e :: e in r <==> e in entries && entries[e].cvId != cvId
    ensures forall e :: e in r ==> r[e] == entries[e]
  {
    map e | e in entries && entries[e].cvId != cvId :: entries[e]
  }

  /** The share links that survive deleting a CV: those of every other CV. */
  function LinksOutside(links: map<int, ShareLinkRow>, cvId: int): (r: map<int, ShareLinkRow>)
    ensures forall l :: l in r <==> l in links && links[l].cvId != cvId
    ensures forall l :: l in r ==> r[l] == links[l]
  {
    map l | l in links && links[l].cvId != cvId :: links[l]
  }

  /** Deleting a CV with its entries and share links keeps every table consistent. */
  lemma CascadeConsistent(
    users: map<int, UserRow>, cvs: map<int, CvRow>, entries: map<int, EntryRow>,
    links: map<int, ShareLinkRow>, nextId: int, id: int)
    requires Consistent(users, cvs, entries, links, nextId)
    ensures Consistent(users, cvs - {id}, EntriesOutside(entries, id), LinksOutside(links, id), nextId)
  {
  }

  /** `delete_cv`: 404 with no change, or the CV removed together with all its entries and share links. */
  method DeleteCv(db: Database, id: int, caller: int) returns (r: Result<(), HttpError>)
    requires db.Valid()
    modifies db
    ensures db.Valid()
    ensures GetCv(old(db.cvs), id, caller).Err? ==> r == Err(Fail(NotFound, NoAccess)) && unchanged(db)
    ensures GetCv(old(db.cvs), id, caller).Ok? ==>
      && r == Ok(())
      && db.cvs == old(db.cvs) - {id}
      && db.entries == EntriesOutside(old(db.entries), id)
      && db.shareLinks == LinksOutside(old(db.shareLinks), id)
    ensures db.users == old(db.users) && db.nextId == old(db.nextId)
  {
    var found := GetCv(db.cvs, id, caller);
    if found.Err? {
      return Err(found.error);
    }
    CascadeConsistent(db.users, db.cvs, db.entries, db.shareLinks, db.nextId, id);
    db.cvs := db.cvs - {id};
    db.entries := EntriesOutside(db.entries, id);
    db.shareLinks := LinksOutside(db.shareLinks, id);
    r := Ok(());
  }

  /** After a delete, getting the same CV answers 404, and none of its entries or links remain. */
  lemma DeletedCvIsGone(
    cvs: map<int, CvRow>, entries: map<int, EntryRow>, links: map<int, ShareLinkRow>, id: int, caller: int)
    ensures GetCv(cvs - {id}, id, caller) == Err(Fail(NotFound, NoAccess))
    ensures forall e :: e in EntriesOutside(entries, id) ==> EntriesOutside(entries, id)[e].cvId != id
    ensures forall l :: l in LinksOutside(links, id) ==> LinksOutside(links, id)[l].cvId != id
  {
  }
}
