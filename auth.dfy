/**
 * The authentication endpoints (backend/app/api/v1/endpoints/auth.py):
 * registration with a unique email, the password login of section 4.3 of
 * RFC 6749 answering a bearer token (RFC 6750), the current-user echo, and
 * the profile-picture upload. Password hashing and checking and token
 * issuing are parameters: `hash`, `verify` and `issue`.
 */
module Auth {
  import opened Wrappers
  import opened Http
  import opened Store
  import opened BlobStorage
  import Config
  import Deps

  const DuplicateEmail := "A user with this email already exists"
  const BadCredentials := "Incorrect email or password"
  const InactiveUser := "Inactive user"
  const OnlyImages := "Only JPEG or PNG images are supported"
  const EmptyUpload := "Uploaded file is empty"
  const PictureFailed := "Failed to upload profile picture"

  /** The challenge header of a 401 (section 3 of RFC 6750). */
  const BearerChallenge: map<string, string> := map["WWW-Authenticate" := "Bearer"]

  /** A validated `UserCreate` body, its defaults (`is_active` true, `is_superuser` false) applied. */
  datatype UserCreate = UserCreate(
    email: string, password: string, fullName: Option<string>, isActive: bool, isSuperuser: bool)

  /** The `User` row `register` builds as written: the request's own `is_superuser` is stored. */
  function NewUserAsWritten(req: UserCreate, hash: string -> string): (r: UserRow)
    ensures r.isSuperuser == req.isSuperuser
    ensures r.hashedPassword == hash(req.password)
  {
    UserRow(req.email, hash(req.password), req.fullName, req.isActive, req.isSuperuser, None)
  }

  /** A registration anyone may send creates a superuser, which the superuser guard then admits. */
  lemma AsWrittenSelfGrantsSuperuser(hash: string -> string)
    ensures Deps.ActiveSuperuser(NewUserAsWritten(
      UserCreate("mallory@example.com", "password123", None, true, true), hash)).Ok?
  {
  }

  /**
   * The row `register` is evidently meant to build: the email, the hash of
   * the password (never the password itself unless the hash maps it to
   * itself), the full name and the active flag; never a superuser.
   */
  function NewUser(req: UserCreate, hash: string -> string): (r: UserRow)
    ensures r.email == req.email && r.fullName == req.fullName && r.isActive == req.isActive
    ensures r.hashedPassword == hash(req.password)
    ensures !r.isSuperuser && r.profilePictureUrl.None?
  {
    UserRow(req.email, hash(req.password), req.fullName, req.isActive, false, None)
  }

  /** No registration, whatever it sends, passes the superuser guard. */
  lemma RegisteredUserIsNoSuperuser(req: UserCreate, hash: string -> string)
    ensures Deps.ActiveSuperuser(NewUser(req, hash)).Err?
  {
  }

  /** Some user holds this email. */
  predicate EmailTaken(users: map<int, UserRow>, email: string)
  {
    exists id | id in users :: users[id].email == email
  }

  /** `db.query(User).filter(User.email == email).first()` over the ids below `n`: the lowest such id. */
  function FindByEmail(users: map<int, UserRow>, email: string, n: nat): (r: Option<int>)
    ensures r.Some? ==> 0 <= r.value < n && r.value in users && users[r.value].email == email
  {
    if n == 0 then None
    else
      var earlier := FindByEmail(users, email, n - 1);
      if earlier.Some? then earlier
      else if n - 1 in users && users[n - 1].email == email then Some(n - 1)
      else None
  }

  /** The lookup finds nothing exactly when no user below `n` holds the email. */
  lemma {:induction false} FindByEmailExact(users: map<int, UserRow>, email: string, n: nat)
    ensures FindByEmail(users, email, n).None? <==>
      forall id :: 0 <= id < n && id in users ==> users[id].email != email
  {
    if n > 0 {
      FindByEmailExact(users, email, n - 1);
    }
  }

  /** Over a table whose ids lie below `n`, the lookup finds a user exactly when the email is taken. */
  lemma FindByEmailTaken(users: map<int, UserRow>, email: string, n: nat)
    requires forall id :: id in users ==> 0 <= id < n
    ensures FindByEmail(users, email, n).Some? <==> EmailTaken(users, email)
  {
    FindByEmailExact(users, email, n);
  }

  /**
   * `register` once the row is built: 400 with no change when the email is
   * taken, else the row stored under the next free id.
   */
  method InsertUser(db: Database, row: UserRow) returns (r: Result<int, HttpError>)
    requires db.Valid()
    modifies db
    ensures db.Valid()
    ensures EmailTaken(old(db.users), row.email) ==> r == Err(Fail(BadRequest, DuplicateEmail)) && unchanged(db)
    ensures !EmailTaken(old(db.users), row.email) ==>
      && r == Ok(old(db.nextId))
      && old(db.nextId) !in old(db.users)
      && db.users == old(db.users)[old(db.nextId) := row]
      && db.nextId == old(db.nextId) + 1
    ensures db.cvs == old(db.cvs) && db.entries == old(db.entries) && db.shareLinks == old(db.shareLinks)
  {
    FindByEmailTaken(db.users, row.email, db.nextId);
    var found := FindByEmail(db.users, row.email, db.nextId);
    if found.Some? {
      return Err(Fail(BadRequest, DuplicateEmail));
    }
    var id := db.nextId;
    db.users := db.users[id := row];
    db.nextId := id + 1;
    r := Ok(id);
  }

  /** `register` as written. */
  method RegisterAsWritten(db: Database, req: UserCreate, hash: string -> string) returns (r: Result<int, HttpError>)
    requires db.Valid()
    modifies db
    ensures db.Valid()
    ensures EmailTaken(old(db.users), req.email) ==> r == Err(Fail(BadRequest, DuplicateEmail)) && unchanged(db)
    ensures !EmailTaken(old(db.users), req.email) ==>
      r == Ok(old(db.nextId)) && db.users == old(db.users)[old(db.nextId) := NewUserAsWritten(req, hash)]
  {
    r := InsertUser(db, NewUserAsWritten(req, hash));
  }

  /** `register` as evidently intended: the new user is never a superuser. */
  method Register(db: Database, req: UserCreate, hash: string -> string) returns (r: Result<int, HttpError>)
    requires db.Valid()
    modifies db
    ensures db.Valid()
    ensures EmailTaken(old(db.users), req.email) ==> r == Err(Fail(BadRequest, DuplicateEmail)) && unchanged(db)
    ensures !EmailTaken(old(db.users), req.email) ==>
      r == Ok(old(db.nextId)) && db.users == old(db.users)[old(db.nextId) := NewUser(req, hash)]
  {
    r := InsertUser(db, NewUser(req, hash));
  }

  /** The body of a successful login. */
  datatype Token = Token(accessToken: string, tokenType: string)

  /**
   * `login`: the user with the form's `username` as email; a wrong email or
   * password answers 401 with the bearer challenge, then an inactive user 400,
   * else a token for the user's id.
   */
  function Login(
    users: map<int, UserRow>, nextId: nat, username: string, password: string,
    verify: (string, string) -> bool, issue: int -> string): Result<Token, HttpError>
  {
    var found := FindByEmail(users, username, nextId);
    if found.None? || !verify(password, users[found.value].hashedPassword) then
      Err(HttpError(Unauthorized, BadCredentials, BearerChallenge))
    else if !users[found.value].isActive then Err(Fail(BadRequest, InactiveUser))
    else Ok(Token(issue(found.value), "bearer"))
  }

  /** An email nobody registered is refused with 401 and the challenge, whatever the password. */
  lemma LoginUnknownEmail(
    users: map<int, UserRow>, nextId: nat, username: string, password: string,
    verify: (string, string) -> bool, issue: int -> string)
    requires forall id :: id in users ==> 0 <= id < nextId
    requires !EmailTaken(users, username)
    ensures Login(users, nextId, username, password, verify, issue) == Err(HttpError(Unauthorized, BadCredentials, BearerChallenge))
  {
    FindByEmailTaken(users, username, nextId);
  }

  /**
   * For the user holding the email: a wrong password gives 401 with the
   * challenge, an inactive user with the right password 400, and an active
   * one a bearer token for that user's id, each exactly in its case.
   */
  lemma LoginKnownEmail(
    users: map<int, UserRow>, nextId: nat, password: string,
    verify: (string, string) -> bool, issue: int -> string, id: int)
    requires forall k :: k in users ==> 0 <= k < nextId
    requires UniqueEmails(users)
    requires id in users
    ensures Login(users, nextId, users[id].email, password, verify, issue) == Err(HttpError(Unauthorized, BadCredentials, BearerChallenge))
      <==> !verify(password, users[id].hashedPassword)
    ensures Login(users, nextId, users[id].email, password, verify, issue) == Err(Fail(BadRequest, InactiveUser))
      <==> verify(password, users[id].hashedPassword) && !users[id].isActive
    ensures Login(users, nextId, users[id].email, password, verify, issue) == Ok(Token(issue(id), "bearer"))
      <==> verify(password, users[id].hashedPassword) && users[id].isActive
  {
    FindByEmailTaken(users, users[id].email, nextId);
    var found := FindByEmail(users, users[id].email, nextId);
    assert found == Some(id);
  }

  const ImageTypes: set<string> := {"image/jpeg", "image/png"}

  /**
   * `upload_profile_picture`'s checks in source order: image type, non-empty
   * data, building the blob service (outside the `try`, so its failure is a
   * bare 500), then the outcome of the upload call on it.
   */
  function PictureUrl(contentType: string, data: seq<bv8>,
                      service: Result<BlobService, Exception>, upload: Result<Upload, Exception>)
    : (r: Result<string, HttpError>)
    ensures r.Ok? <==> contentType in ImageTypes && |data| > 0 && service.Ok? && upload.Ok?
    ensures r.Ok? ==> r.value == upload.value.url
    ensures contentType !in ImageTypes ==> r == Err(Fail(BadRequest, OnlyImages))
    ensures contentType in ImageTypes && |data| == 0 ==> r == Err(Fail(BadRequest, EmptyUpload))
    ensures contentType in ImageTypes && |data| > 0 && service.Err? ==>
      r == Err(Fail(InternalServerError, UncaughtError))
    ensures contentType in ImageTypes && |data| > 0 && service.Ok? && upload.Err? && upload.error.ValueError? ==>
      r == Err(Fail(BadRequest, upload.error.message))
    ensures contentType in ImageTypes && |data| > 0 && service.Ok? && upload.Err? && !upload.error.ValueError? ==>
      r == Err(Fail(BadGateway, PictureFailed))
  {
    if contentType !in ImageTypes then Err(Fail(BadRequest, OnlyImages))
    else if |data| == 0 then Err(Fail(BadRequest, EmptyUpload))
    else if service.Err? then Err(Fail(InternalServerError, UncaughtError))
    else match upload
      case Err(ValueError(message)) => Err(Fail(BadRequest, message))
      case Err(_) => Err(Fail(BadGateway, PictureFailed))
      case Ok(link) => Ok(link.url)
  }

  /**
   * As written: the service reads the backend's `Settings` object, and the
   * call is to `upload_profile_picture`, which the service does not define.
   */
  function PictureUrlAsWritten(contentType: string, data: seq<bv8>,
                               attributes: map<string, string>, client: Option<Exception>): Result<string, HttpError>
  {
    PictureUrl(contentType, data, NewBlobService(attributes, ContainerSetting, client), Err(MissingPictureMethod))
  }

  /**
   * Counterexample: as written no picture is ever stored. An image that
   * passes both checks is a bare 500 with the settings the backend declares,
   * and a 502 whenever the service could be built at all.
   */
  lemma PictureAsWrittenNeverStored(contentType: string, data: seq<bv8>,
                                    attributes: map<string, string>, client: Option<Exception>)
    ensures PictureUrlAsWritten(contentType, data, attributes, client).Err?
    ensures contentType in ImageTypes && |data| > 0 && attributes.Keys == Config.DeclaredSettings ==>
      PictureUrlAsWritten(contentType, data, attributes, client) == Err(Fail(InternalServerError, UncaughtError))
    ensures contentType in ImageTypes && |data| > 0 && NewBlobService(attributes, ContainerSetting, client).Ok? ==>
      PictureUrlAsWritten(contentType, data, attributes, client) == Err(Fail(BadGateway, PictureFailed))
  {
    if attributes.Keys == Config.DeclaredSettings {
      AsWrittenNeverBuilt(attributes, client);
    }
  }

  /**
   * Corrected: the service reads the declared picture container setting and
   * defines `upload_profile_picture` as `upload_cv_pdf` is defined.
   */
  function PictureUrlCorrected(contentType: string, data: seq<bv8>,
                               attributes: map<string, string>, client: Option<Exception>, sdk: SdkUpload)
    : Result<string, HttpError>
  {
    PictureUrl(contentType, data, NewBlobService(attributes, PictureContainerSetting, client), UploadSigned(attributes, sdk))
  }

  /**
   * Corrected, an image that passes both checks gets the URL the SDK signs
   * exactly when the connection string and the picture container are set,
   * the SDK stores the blob and an account key is at hand.
   */
  lemma PictureStoredWhenConfigured(contentType: string, data: seq<bv8>,
                                    attributes: map<string, string>, client: Option<Exception>, sdk: SdkUpload)
    requires attributes.Keys == CorrectedSettings
    requires contentType in ImageTypes && |data| > 0
    ensures PictureUrlCorrected(contentType, data, attributes, client, sdk).Ok? <==>
      && attributes[ConnectionStringSetting] != "" && attributes[PictureContainerSetting] != "" && client.None?
      && sdk.SdkStored? && (attributes[AccountKeySetting] != "" || sdk.credentialKey != "")
    ensures PictureUrlCorrected(contentType, data, attributes, client, sdk).Ok? ==>
      PictureUrlCorrected(contentType, data, attributes, client, sdk).value == sdk.link.url
  {
    assert ConnectionStringSetting in CorrectedSettings && PictureContainerSetting in CorrectedSettings;
    CorrectedUpload(attributes, sdk);
  }

  /**
   * `upload_profile_picture`: only a stored picture changes the caller's
   * row, and only its picture URL. `service` is how `get_blob_service()`
   * ended and `upload` what the upload call returned or raised on it.
   */
  method UploadProfilePicture(
    db: Database, caller: int, contentType: string, data: seq<bv8>,
    service: Result<BlobService, Exception>, upload: Result<Upload, Exception>)
    returns (r: Result<UserRow, HttpError>)
    requires db.Valid() && caller in db.users
    modifies db
    ensures db.Valid()
    ensures PictureUrl(contentType, data, service, upload).Err? ==>
      r == Err(PictureUrl(contentType, data, service, upload).error) && unchanged(db)
    ensures PictureUrl(contentType, data, service, upload).Ok? ==>
      && r == Ok(old(db.users)[caller].(profilePictureUrl := Some(PictureUrl(contentType, data, service, upload).value)))
      && db.users == old(db.users)[caller := r.value]
    ensures db.cvs == old(db.cvs) && db.entries == old(db.entries) && db.shareLinks == old(db.shareLinks)
    ensures db.nextId == old(db.nextId)
  {
    var url := PictureUrl(contentType, data, service, upload);
    if url.Err? {
      return Err(url.error);
    }
    var row := db.users[caller].(profilePictureUrl := Some(url.value));
    db.users := db.users[caller := row];
    r := Ok(row);
  }
}
