/**
 * The relational store behind the backend's endpoints: the user, CV,
 * section-entry and share-link tables (backend/app/models), the request
 * schemas that decide which fields a request may carry, and the `setattr`
 * loop every partial update runs.
 */
module Store {
  import opened Wrappers

  /** A column value as the ORM hands it over. */
  datatype Value =
    | NullValue
    | TextValue(text: string)
    | IntValue(n: int)
    | RealValue(r: real)
    | BoolValue(b: bool)

  /** Python truthiness of a column value (`if cv.phone:`). */
  predicate Truthy(v: Value)
  {
    match v
    case NullValue => false
    case TextValue(s) => s != []
    case IntValue(n) => n != 0
    case RealValue(r) => r != 0.0
    case BoolValue(b) => b
  }

  /** A row's columns by attribute name. */
  type Columns = map<string, Value>

  /** The value of a column, `None` when the row has no such column set. */
  function Column(columns: Columns, name: string): Value
  {
    if name in columns then columns[name] else NullValue
  }

  datatype UserRow = UserRow(
    email: string,
    hashedPassword: string,
    fullName: Option<string>,
    isActive: bool,
    isSuperuser: bool,
    profilePictureUrl: Option<string>)

  /** A CV: its owner (`user_id`) and its contact columns. */
  datatype CvRow = CvRow(owner: int, columns: Columns)

  /** The four section tables, kept as one table of entries tagged by kind. */
  datatype Kind = WorkKind | EducationKind | ProjectKind | SkillKind

  datatype EntryRow = EntryRow(kind: Kind, cvId: int, columns: Columns)

  datatype ShareLinkRow = ShareLinkRow(cvId: int, userId: int, url: string, expiresAt: int)

  /**
   * A pydantic request schema: the fields without a default, and the
   * defaults of the others. Fields the schema does not declare are ignored.
   */
  datatype Schema = Schema(required: set<string>, defaults: map<string, Value>)

  /** Every required field is present and not null; otherwise pydantic answers 422. */
  predicate HasRequired(schema: Schema, body: map<string, Value>)
  {
    forall f :: f in schema.required ==> f in body && body[f] != NullValue
  }

  /** `model_dump()`: every declared field, sent or defaulted; undeclared fields are dropped. */
  function Dump(schema: Schema, body: map<string, Value>): (r: Columns)
    ensures r.Keys == schema.required + schema.defaults.Keys
    ensures forall f :: f in r && f in body ==> r[f] == body[f]
    ensures forall f :: f in schema.defaults && f !in body ==> r[f] == schema.defaults[f]
  {
    map f | f in schema.required + schema.defaults.Keys ::
      if f in body then body[f] else if f in schema.defaults then schema.defaults[f] else NullValue
  }

  /**
   * The columns after `for field, value in update_data.items(): setattr(row, field, value)`
   * where `update_data = model_dump(exclude_unset=True)`: every sent field the
   * update schema declares takes the sent value (null included); every other
   * column keeps its value.
   */
  function Assigned(columns: Columns, body: map<string, Value>, declared: set<string>): (r: Columns)
    ensures forall f :: f in body && f in declared ==> f in r && r[f] == body[f]
    ensures forall f :: !(f in body && f in declared) ==> (f in r <==> f in columns)
    ensures forall f :: !(f in body && f in declared) && f in columns ==> r[f] == columns[f]
  {
    columns + map f | f in body && f in declared :: body[f]
  }

  /** The `setattr` loop of a partial update, one sent field at a time. */
  method AssignFields(columns: Columns, body: map<string, Value>, declared: set<string>) returns (r: Columns)
    ensures r == Assigned(columns, body, declared)
  {
    r := columns;
    var pending := body.Keys;
    while pending != {}
      invariant pending <= body.Keys
      invariant forall g :: g in body && g in declared && g !in pending ==> g in r && r[g] == body[g]
      invariant forall g :: !(g in body && g in declared && g !in pending) ==> (g in r <==> g in columns)
      invariant forall g :: !(g in body && g in declared && g !in pending) && g in columns ==> r[g] == columns[g]
      decreases |pending|
    {
      var f :| f in pending;
      if f in declared {
        r := r[f := body[f]];
      }
      pending := pending - {f};
    }
    var a := Assigned(columns, body, declared);
    assert r.Keys == a.Keys;
  }

  /** No two users share an email (`unique=True` on `user.email`). */
  predicate UniqueEmails(users: map<int, UserRow>)
  {
    forall a, b :: a in users && b in users && users[a].email == users[b].email ==> a == b
  }

  /**
   * The tables' integrity: every id lies below the next id to hand out,
   * every CV's owner exists, every entry's and share link's CV exists,
   * every share link's user exists, and emails are unique.
   */
  predicate Consistent(
    users: map<int, UserRow>, cvs: map<int, CvRow>, entries: map<int, EntryRow>,
    links: map<int, ShareLinkRow>, nextId: int)
  {
    && 0 <= nextId
    && (forall id :: id in users ==> 0 <= id < nextId)
    && (forall id :: id in cvs ==> 0 <= id < nextId)
    && (forall id :: id in entries ==> 0 <= id < nextId)
    && (forall id :: id in links ==> 0 <= id < nextId)
    && (forall id :: id in cvs ==> cvs[id].owner in users)
    && (forall id :: id in entries ==> entries[id].cvId in cvs)
    && (forall id :: id in links ==> links[id].cvId in cvs && links[id].userId in users)
    && UniqueEmails(users)
  }

  /** The database the endpoints share; each table is a map from primary key to row. */
  class Database {
    var users: map<int, UserRow>
    var cvs: map<int, CvRow>
    var entries: map<int, EntryRow>
    var shareLinks: map<int, ShareLinkRow>
    var nextId: int

    ghost predicate Valid()
      reads this
    {
      Consistent(users, cvs, entries, shareLinks, nextId)
    }

    constructor ()
      ensures Valid()
      ensures users == map[] && cvs == map[] && entries == map[] && shareLinks == map[]
    {
      users := map[];
      cvs := map[];
      entries := map[];
      shareLinks := map[];
      nextId := 0;
    }
  }

  /** The ids below `n` of the entries of one kind that belong to a CV, in ascending order. */
  function EntriesOf(entries: map<int, EntryRow>, cvId: int, kind: Kind, n: nat): seq<int>
  {
    if n == 0 then []
    else if n - 1 in entries && entries[n - 1].cvId == cvId && entries[n - 1].kind == kind
    then EntriesOf(entries, cvId, kind, n - 1) + [n - 1]
    else EntriesOf(entries, cvId, kind, n - 1)
  }

  /** A sequence of ids in strictly ascending order. */
  predicate Ascending(ids: seq<int>)
  {
    forall i, j :: 0 <= i < j < |ids| ==> ids[i] < ids[j]
  }

  /** The relationship `cv.work_experiences` (and the others) holds exactly the CV's entries of that kind, each once. */
  lemma {:induction false} EntriesOfExact(entries: map<int, EntryRow>, cvId: int, kind: Kind, n: nat)
    ensures forall id :: id in EntriesOf(entries, cvId, kind, n) <==>
      (0 <= id < n && id in entries && entries[id].cvId == cvId && entries[id].kind == kind)
    ensures Ascending(EntriesOf(entries, cvId, kind, n))
  {
    if n > 0 {
      EntriesOfExact(entries, cvId, kind, n - 1);
      var before := EntriesOf(entries, cvId, kind, n - 1);
      assert forall i :: 0 <= i < |before| ==> before[i] < n - 1 by {
        forall i | 0 <= i < |before|
          ensures before[i] < n - 1
        {
          assert before[i] in before;
        }
      }
    }
  }
}
