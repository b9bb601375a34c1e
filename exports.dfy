/**
 * The share-link export endpoint (backend/app/api/v1/endpoints/exports.py):
 * an unexpired link for the caller's CV is reused before anything else is
 * checked; otherwise the uploaded PDF is validated, stored, and a new link row
 * recorded. The blob service is obtained outside the `try`, so a failure to
 * build it is not mapped and becomes a bare 500. Timestamps are integers;
 * `now` is the clock reading.
 */
module Exports {
  import opened Wrappers
  import opened Http
  import opened Store
  import opened BlobStorage
  import Config

  const CvNotFound := "CV not found"
  const OnlyPdf := "Only PDF uploads are supported"
  const EmptyUpload := "Uploaded file is empty"
  const StorageFailed := "Failed to upload CV to storage"
  const PdfContentType := "application/pdf"

  datatype ShareLinkResponse = ShareLinkResponse(url: string, expiresAt: int)

  /** `_get_owned_cv`: the caller's CV, or 404. */
  function GetOwnedCv(cvs: map<int, CvRow>, cvId: int, caller: int): (r: Result<CvRow, HttpError>)
    ensures r.Ok? <==> cvId in cvs && cvs[cvId].owner == caller
    ensures r.Ok? ==> r.value == cvs[cvId]
    ensures r.Err? ==> r.error == Fail(NotFound, CvNotFound)
  {
    if cvId in cvs && cvs[cvId].owner == caller then Ok(cvs[cvId]) else Err(Fail(NotFound, CvNotFound))
  }

  /** A link of this CV and user that has not expired at `now`. */
  predicate Unexpired(link: ShareLinkRow, cvId: int, userId: int, now: int)
  {
    link.cvId == cvId && link.userId == userId && link.expiresAt > now
  }

  /**
   * `_get_existing_share_link` over the link ids below `n`: an unexpired link
   * with the latest expiry (on a tie, the lowest id).
   */
  function LatestUnexpired(links: map<int, ShareLinkRow>, cvId: int, userId: int, now: int, n: nat): (r: Option<int>)
    ensures r.Some? ==> 0 <= r.value < n && r.value in links && Unexpired(links[r.value], cvId, userId, now)
  {
    if n == 0 then None
    else
      var rest := LatestUnexpired(links, cvId, userId, now, n - 1);
      if n - 1 in links && Unexpired(links[n - 1], cvId, userId, now)
         && (rest.None? || links[rest.value].expiresAt < links[n - 1].expiresAt)
      then Some(n - 1)
      else rest
  }

  /** A link is found exactly when one is unexpired, and none expires later than it. */
  lemma {:induction false} LatestUnexpiredIsLatest(links: map<int, ShareLinkRow>, cvId: int, userId: int, now: int, n: nat)
    ensures LatestUnexpired(links, cvId, userId, now, n).None? <==>
      (forall id :: 0 <= id < n && id in links ==> !Unexpired(links[id], cvId, userId, now))
    ensures LatestUnexpired(links, cvId, userId, now, n).Some? ==>
      forall id :: 0 <= id < n && id in links && Unexpired(links[id], cvId, userId, now) ==>
        links[id].expiresAt <= links[LatestUnexpired(links, cvId, userId, now, n).value].expiresAt
  {
    if n > 0 {
      LatestUnexpiredIsLatest(links, cvId, userId, now, n - 1);
    }
  }

  /** What `create_share_link` does with a request. */
  datatype Decision =
    | Refuse(error: HttpError)
    | Reuse(link: ShareLinkRow)
    | Record(link: ShareLinkRow)

  /**
   * `create_share_link`'s checks in source order: ownership, reuse of an
   * unexpired link, content type, empty body, building the blob service,
   * then the outcome of `upload_cv_pdf` on it.
   */
  function Decide(
    cvs: map<int, CvRow>, links: map<int, ShareLinkRow>, nextId: nat, cvId: int, caller: int,
    now: int, contentType: string, data: seq<bv8>,
    service: Result<BlobService, Exception>, upload: Result<Upload, Exception>): Decision
  {
    if GetOwnedCv(cvs, cvId, caller).Err? then Refuse(Fail(NotFound, CvNotFound))
    else
      var existing := LatestUnexpired(links, cvId, caller, now, nextId);
      if existing.Some? then Reuse(links[existing.value])
      else if contentType != PdfContentType then Refuse(Fail(BadRequest, OnlyPdf))
      else if |data| == 0 then Refuse(Fail(BadRequest, EmptyUpload))
      else if service.Err? then Refuse(Fail(InternalServerError, UncaughtError))
      else match upload
        case Err(ValueError(message)) => Refuse(Fail(InternalServerError, message))
        case Err(_) => Refuse(Fail(BadGateway, StorageFailed))
        case Ok(link) => Record(ShareLinkRow(cvId, caller, link.url, link.expiresAt))
  }

  /** A CV that is not the caller's is refused with 404 whatever else the request holds. */
  lemma ForeignCvRefused(
    cvs: map<int, CvRow>, links: map<int, ShareLinkRow>, nextId: nat, cvId: int, caller: int,
    now: int, contentType: string, data: seq<bv8>,
    service: Result<BlobService, Exception>, upload: Result<Upload, Exception>)
    ensures Decide(cvs, links, nextId, cvId, caller, now, contentType, data, service, upload)
      == Refuse(Fail(NotFound, CvNotFound))
      <==> !(cvId in cvs && cvs[cvId].owner == caller)
  {
  }

  /**
   * An unexpired link of the caller's own CV is returned whatever the upload
   * is, even one that is not a PDF or is empty: it is the latest such link.
   */
  lemma ReuseBeforeValidation(
    cvs: map<int, CvRow>, links: map<int, ShareLinkRow>, nextId: nat, cvId: int, caller: int,
    now: int, contentType: string, data: seq<bv8>,
    service: Result<BlobService, Exception>, upload: Result<Upload, Exception>, id: int)
    requires cvId in cvs && cvs[cvId].owner == caller
    requires 0 <= id < nextId && id in links && Unexpired(links[id], cvId, caller, now)
    ensures Decide(cvs, links, nextId, cvId, caller, now, contentType, data, service, upload).Reuse?
    ensures Unexpired(Decide(cvs, links, nextId, cvId, caller, now, contentType, data, service, upload).link,
      cvId, caller, now)
    ensures links[id].expiresAt
      <= Decide(cvs, links, nextId, cvId, caller, now, contentType, data, service, upload).link.expiresAt
  {
    LatestUnexpiredIsLatest(links, cvId, caller, now, nextId);
  }

  /**
   * A new link is recorded exactly when the CV is the caller's, no link of it
   * is unexpired, the upload is a non-empty PDF, the blob service is built
   * and the upload returns a signed link; the row carries that CV, the
   * caller, the URL and the expiry.
   */
  lemma RecordOnlyAfterUpload(
    cvs: map<int, CvRow>, links: map<int, ShareLinkRow>, nextId: nat, cvId: int, caller: int,
    now: int, contentType: string, data: seq<bv8>,
    service: Result<BlobService, Exception>, upload: Result<Upload, Exception>)
    ensures Decide(cvs, links, nextId, cvId, caller, now, contentType, data, service, upload).Record? <==>
      && cvId in cvs && cvs[cvId].owner == caller
      && (forall id :: 0 <= id < nextId && id in links ==> !Unexpired(links[id], cvId, caller, now))
      && contentType == PdfContentType && |data| > 0 && service.Ok? && upload.Ok?
    ensures Decide(cvs, links, nextId, cvId, caller, now, contentType, data, service, upload).Record? ==>
      Decide(cvs, links, nextId, cvId, caller, now, contentType, data, service, upload).link
        == ShareLinkRow(cvId, caller, upload.value.url, upload.value.expiresAt)
  {
    LatestUnexpiredIsLatest(links, cvId, caller, now, nextId);
  }

  /**
   * Past the reuse check: a non-PDF and an empty body are 400s, a blob
   * service that cannot be built is a bare 500, an upload's ValueError a
   * 500 carrying its message and any other upload failure a 502.
   */
  lemma UploadFailures(
    cvs: map<int, CvRow>, links: map<int, ShareLinkRow>, nextId: nat, cvId: int, caller: int,
    now: int, contentType: string, data: seq<bv8>,
    service: Result<BlobService, Exception>, upload: Result<Upload, Exception>)
    requires cvId in cvs && cvs[cvId].owner == caller
    requires forall id :: 0 <= id < nextId && id in links ==> !Unexpired(links[id], cvId, caller, now)
    ensures contentType != PdfContentType ==>
      Decide(cvs, links, nextId, cvId, caller, now, contentType, data, service, upload)
        == Refuse(Fail(BadRequest, OnlyPdf))
    ensures contentType == PdfContentType && |data| == 0 ==>
      Decide(cvs, links, nextId, cvId, caller, now, contentType, data, service, upload)
        == Refuse(Fail(BadRequest, EmptyUpload))
    ensures contentType == PdfContentType && |data| > 0 && service.Err? ==>
      Decide(cvs, links, nextId, cvId, caller, now, contentType, data, service, upload)
        == Refuse(Fail(InternalServerError, UncaughtError))
    ensures contentType == PdfContentType && |data| > 0 && service.Ok? && upload.Err? && upload.error.ValueError? ==>
      Decide(cvs, links, nextId, cvId, caller, now, contentType, data, service, upload)
        == Refuse(Fail(InternalServerError, upload.error.message))
    ensures contentType == PdfContentType && |data| > 0 && service.Ok? && upload.Err? && !upload.error.ValueError? ==>
      Decide(cvs, links, nextId, cvId, caller, now, contentType, data, service, upload)
        == Refuse(Fail(BadGateway, StorageFailed))
  {
    LatestUnexpiredIsLatest(links, cvId, caller, now, nextId);
  }

  /** The endpoint as written: the service and the upload read the backend's `Settings` object. */
  function DecideAsWritten(
    cvs: map<int, CvRow>, links: map<int, ShareLinkRow>, nextId: nat, cvId: int, caller: int,
    now: int, contentType: string, data: seq<bv8>,
    attributes: map<string, string>, client: Option<Exception>, sdk: SdkUpload): Decision
  {
    Decide(cvs, links, nextId, cvId, caller, now, contentType, data,
           NewBlobService(attributes, ContainerSetting, client), UploadSigned(attributes, sdk))
  }

  /**
   * Counterexample: with the settings the backend declares, no share link
   * is ever recorded; a call of the handler that passes every check
   * fails with a bare 500, whatever storage would do.
   */
  lemma AsWrittenNeverRecords(
    cvs: map<int, CvRow>, links: map<int, ShareLinkRow>, nextId: nat, cvId: int, caller: int,
    now: int, contentType: string, data: seq<bv8>,
    attributes: map<string, string>, client: Option<Exception>, sdk: SdkUpload)
    requires attributes.Keys == Config.DeclaredSettings
    ensures !DecideAsWritten(cvs, links, nextId, cvId, caller, now, contentType, data, attributes, client, sdk).Record?
    ensures (
      && cvId in cvs && cvs[cvId].owner == caller
      && (forall id :: 0 <= id < nextId && id in links ==> !Unexpired(links[id], cvId, caller, now))
      && contentType == PdfContentType && |data| > 0) ==>
        DecideAsWritten(cvs, links, nextId, cvId, caller, now, contentType, data, attributes, client, sdk)
          == Refuse(Fail(InternalServerError, UncaughtError))
  {
    AsWrittenNeverBuilt(attributes, client);
    if && cvId in cvs && cvs[cvId].owner == caller
       && (forall id :: 0 <= id < nextId && id in links ==> !Unexpired(links[id], cvId, caller, now)) {
      UploadFailures(cvs, links, nextId, cvId, caller, now, contentType, data,
                     NewBlobService(attributes, ContainerSetting, client), UploadSigned(attributes, sdk));
    }
    RecordOnlyAfterUpload(cvs, links, nextId, cvId, caller, now, contentType, data,
                          NewBlobService(attributes, ContainerSetting, client), UploadSigned(attributes, sdk));
  }

  /**
   * Corrected: the service reads the declared PDF container setting, and
   * `Settings` also declares the link lifetime and the account key.
   */
  function DecideCorrected(
    cvs: map<int, CvRow>, links: map<int, ShareLinkRow>, nextId: nat, cvId: int, caller: int,
    now: int, contentType: string, data: seq<bv8>,
    attributes: map<string, string>, client: Option<Exception>, sdk: SdkUpload): Decision
  {
    Decide(cvs, links, nextId, cvId, caller, now, contentType, data,
           NewBlobService(attributes, PdfContainerSetting, client), UploadSigned(attributes, sdk))
  }

  /**
   * Corrected, a call of the handler that passes its checks records the link
   * the SDK signs exactly when the connection string and the PDF container
   * are set, the SDK stores the blob and an account key is at hand.
   */
  lemma CorrectedRecords(
    cvs: map<int, CvRow>, links: map<int, ShareLinkRow>, nextId: nat, cvId: int, caller: int,
    now: int, contentType: string, data: seq<bv8>,
    attributes: map<string, string>, client: Option<Exception>, sdk: SdkUpload)
    requires attributes.Keys == CorrectedSettings
    requires cvId in cvs && cvs[cvId].owner == caller
    requires forall id :: 0 <= id < nextId && id in links ==> !Unexpired(links[id], cvId, caller, now)
    requires contentType == PdfContentType && |data| > 0
    ensures DecideCorrected(cvs, links, nextId, cvId, caller, now, contentType, data, attributes, client, sdk).Record?
      <==>
      && attributes[ConnectionStringSetting] != "" && attributes[PdfContainerSetting] != "" && client.None?
      && sdk.SdkStored? && (attributes[AccountKeySetting] != "" || sdk.credentialKey != "")
    ensures DecideCorrected(cvs, links, nextId, cvId, caller, now, contentType, data, attributes, client, sdk).Record?
      ==>
      DecideCorrected(cvs, links, nextId, cvId, caller, now, contentType, data, attributes, client, sdk)
        == Record(ShareLinkRow(cvId, caller, sdk.link.url, sdk.link.expiresAt))
  {
    assert ConnectionStringSetting in CorrectedSettings && PdfContainerSetting in CorrectedSettings;
    CorrectedUpload(attributes, sdk);
    RecordOnlyAfterUpload(cvs, links, nextId, cvId, caller, now, contentType, data,
                          NewBlobService(attributes, PdfContainerSetting, client), UploadSigned(attributes, sdk));
  }

  /**
   * `create_share_link`: only a recorded link changes the database, by one
   * new row. `service` is how `get_blob_service()` ended and `upload` what
   * `upload_cv_pdf` returned or raised on it.
   */
  method CreateShareLink(
    db: Database, cvId: int, caller: int, now: int, contentType: string, data: seq<bv8>,
    service: Result<BlobService, Exception>, upload: Result<Upload, Exception>)
    returns (r: Result<ShareLinkResponse, HttpError>)
    requires db.Valid() && caller in db.users
    modifies db
    ensures db.Valid()
    ensures var d := Decide(old(db.cvs), old(db.shareLinks), old(db.nextId), cvId, caller, now, contentType, data,
                            service, upload);
      && (d.Refuse? ==> r == Err(d.error) && unchanged(db))
      && (d.Reuse? ==> r == Ok(ShareLinkResponse(d.link.url, d.link.expiresAt)) && unchanged(db))
      && (d.Record? ==>
        && r == Ok(ShareLinkResponse(d.link.url, d.link.expiresAt))
        && old(db.nextId) !in old(db.shareLinks)
        && db.shareLinks == old(db.shareLinks)[old(db.nextId) := d.link]
        && db.nextId == old(db.nextId) + 1)
    ensures db.users == old(db.users) && db.cvs == old(db.cvs) && db.entries == old(db.entries)
  {
    var d := Decide(db.cvs, db.shareLinks, db.nextId, cvId, caller, now, contentType, data, service, upload);
    match d
    case Refuse(error) =>
      r := Err(error);
    case Reuse(link) =>
      r := Ok(ShareLinkResponse(link.url, link.expiresAt));
    case Record(link) =>
      var id := db.nextId;
      db.shareLinks := db.shareLinks[id := link];
      db.nextId := id + 1;
      r := Ok(ShareLinkResponse(link.url, link.expiresAt));
  }
}
