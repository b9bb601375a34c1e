/**
 * The Azure blob storage service the export and profile-picture endpoints
 * obtain through `get_blob_service()` (backend/app/services/blob_service.py):
 * the settings its constructor checks, and the settings `upload_cv_pdf`
 * reads once the blob is stored. Settings are read off the `Settings`
 * object by attribute name (Config.ReadSetting); the Azure SDK's own calls
 * are parameters.
 */
module BlobStorage {
  import opened Wrappers
  import opened Http
  import Config

  const ConnectionStringSetting := "AZURE_STORAGE_CONNECTION_STRING"
  /** The container setting the constructor reads; `Settings` does not declare it. */
  const ContainerSetting := "AZURE_STORAGE_CONTAINER_NAME"
  /** The two container settings `Settings` does declare, one per kind of upload. */
  const PdfContainerSetting := "AZURE_STORAGE_PDF_CONTAINER_NAME"
  const PictureContainerSetting := "AZURE_STORAGE_PFP_CONTAINER_NAME"
  /** Read by `upload_cv_pdf` and `_get_account_key`; `Settings` declares neither. */
  const TtlSetting := "AZURE_STORAGE_SAS_TTL_MINUTES"
  const AccountKeySetting := "AZURE_STORAGE_ACCOUNT_KEY"

  const NoAccountKey := "AZURE_STORAGE_ACCOUNT_KEY not configured and no key available from connection string"

  /** The AttributeError of calling `upload_profile_picture`, which `AzureBlobService` does not define. */
  const MissingPictureMethod := OtherError("'AzureBlobService' object has no attribute 'upload_profile_picture'")

  /** The settings of the corrected `Settings`: the declared ones, the link lifetime and the account key. */
  const CorrectedSettings: set<string> := Config.DeclaredSettings + {TtlSetting, AccountKeySetting}

  /** A constructed service: the container it stores blobs in. */
  datatype BlobService = BlobService(container: string)

  /** A stored blob's signed URL and the expiry of its signature. */
  datatype Upload = Upload(url: string, expiresAt: int)

  /**
   * What the SDK does for one upload: `upload_blob` raises, or the blob is
   * stored and signed into `link`; `credentialKey` is the account key the
   * connection string carries ("" when it carries none).
   */
  datatype SdkUpload = SdkRaised(error: Exception) | SdkStored(credentialKey: string, link: Upload)

  /** The ValueError of a setting that is present but empty. */
  function NotConfigured(name: string): Exception
  {
    ValueError(name + " not configured")
  }

  /** `if not settings.<name>` passes: the attribute exists and is not empty. */
  predicate Configured(attributes: map<string, string>, name: string)
  {
    name in attributes && attributes[name] != ""
  }

  /**
   * `AzureBlobService()`: the connection string, then the setting named
   * `containerSetting`, must be set; `client` is how creating the SDK client
   * and the container ended (an existing container is not a failure).
   */
  function NewBlobService(attributes: map<string, string>, containerSetting: string, client: Option<Exception>)
    : (r: Result<BlobService, Exception>)
    ensures r.Ok? <==>
      Configured(attributes, ConnectionStringSetting) && Configured(attributes, containerSetting) && client.None?
    ensures r.Ok? ==> r.value == BlobService(attributes[containerSetting])
    ensures ConnectionStringSetting !in attributes ==> r == Err(Config.MissingAttribute(ConnectionStringSetting))
    ensures ConnectionStringSetting in attributes && attributes[ConnectionStringSetting] == "" ==>
      r == Err(NotConfigured(ConnectionStringSetting))
    ensures Configured(attributes, ConnectionStringSetting) && containerSetting !in attributes ==>
      r == Err(Config.MissingAttribute(containerSetting))
    ensures (Configured(attributes, ConnectionStringSetting) && containerSetting in attributes
      && attributes[containerSetting] == "") ==> r == Err(NotConfigured(containerSetting))
  {
    match Config.ReadSetting(attributes, ConnectionStringSetting)
    case Err(e) => Err(e)
    case Ok(connectionString) =>
      if connectionString == "" then Err(NotConfigured(ConnectionStringSetting))
      else match Config.ReadSetting(attributes, containerSetting)
        case Err(e) => Err(e)
        case Ok(container) =>
          if container == "" then Err(NotConfigured(containerSetting))
          else if client.Some? then Err(client.value)
          else Ok(BlobService(container))
  }

  /**
   * As written the constructor reads AZURE_STORAGE_CONTAINER_NAME, so with
   * the settings `Settings` declares it never succeeds: the default empty
   * connection string is a ValueError, any other an AttributeError.
   */
  lemma AsWrittenNeverBuilt(attributes: map<string, string>, client: Option<Exception>)
    requires attributes.Keys == Config.DeclaredSettings
    ensures NewBlobService(attributes, ContainerSetting, client).Err?
    ensures attributes[ConnectionStringSetting] == "" ==>
      NewBlobService(attributes, ContainerSetting, client) == Err(NotConfigured(ConnectionStringSetting))
    ensures attributes[ConnectionStringSetting] != "" ==>
      NewBlobService(attributes, ContainerSetting, client) == Err(Config.MissingAttribute(ContainerSetting))
  {
    assert ConnectionStringSetting in Config.DeclaredSettings;
    assert ContainerSetting !in Config.DeclaredSettings;
  }

  /**
   * Corrected, the constructor reads a declared container setting: it
   * succeeds exactly when the connection string and that container are set
   * and the SDK does not fail, and it never raises AttributeError.
   */
  lemma CorrectedBuilt(attributes: map<string, string>, containerSetting: string, client: Option<Exception>)
    requires attributes.Keys == Config.DeclaredSettings
    requires containerSetting == PdfContainerSetting || containerSetting == PictureContainerSetting
    ensures NewBlobService(attributes, containerSetting, client).Ok? <==>
      attributes[ConnectionStringSetting] != "" && attributes[containerSetting] != "" && client.None?
    ensures NewBlobService(attributes, containerSetting, client).Err? ==>
      NewBlobService(attributes, containerSetting, client).error
        in {NotConfigured(ConnectionStringSetting), NotConfigured(containerSetting)}
      || Some(NewBlobService(attributes, containerSetting, client).error) == client
  {
    assert ConnectionStringSetting in Config.DeclaredSettings;
    assert containerSetting in Config.DeclaredSettings;
  }

  /**
   * `upload_cv_pdf` on a constructed service: the SDK upload, then the link
   * lifetime setting, then `_get_account_key` (the setting when set, else
   * the connection string's key, else ValueError). The lifetime itself is
   * part of the SDK's `link`.
   */
  function UploadSigned(attributes: map<string, string>, sdk: SdkUpload): (r: Result<Upload, Exception>)
    ensures r.Ok? <==> (sdk.SdkStored? && TtlSetting in attributes && AccountKeySetting in attributes
      && (attributes[AccountKeySetting] != "" || sdk.credentialKey != ""))
    ensures r.Ok? ==> r.value == sdk.link
    ensures sdk.SdkRaised? ==> r == Err(sdk.error)
    ensures sdk.SdkStored? && TtlSetting !in attributes ==> r == Err(Config.MissingAttribute(TtlSetting))
    ensures sdk.SdkStored? && TtlSetting in attributes && AccountKeySetting !in attributes ==>
      r == Err(Config.MissingAttribute(AccountKeySetting))
    ensures (sdk.SdkStored? && TtlSetting in attributes && AccountKeySetting in attributes
      && attributes[AccountKeySetting] == "" && sdk.credentialKey == "") ==> r == Err(ValueError(NoAccountKey))
  {
    match sdk
    case SdkRaised(e) => Err(e)
    case SdkStored(credentialKey, link) =>
      match Config.ReadSetting(attributes, TtlSetting)
      case Err(e) => Err(e)
      case Ok(_) =>
        match Config.ReadSetting(attributes, AccountKeySetting)
        case Err(e) => Err(e)
        case Ok(accountKey) =>
          if accountKey == "" && credentialKey == "" then Err(ValueError(NoAccountKey)) else Ok(link)
  }

  /** As written, a stored blob is never signed: reading the link lifetime raises AttributeError. */
  lemma AsWrittenUploadFails(attributes: map<string, string>, sdk: SdkUpload)
    requires attributes.Keys == Config.DeclaredSettings
    ensures UploadSigned(attributes, sdk).Err?
    ensures sdk.SdkStored? ==> UploadSigned(attributes, sdk) == Err(Config.MissingAttribute(TtlSetting))
  {
    assert TtlSetting !in Config.DeclaredSettings;
  }

  /**
   * Corrected, with both settings declared, an upload is signed exactly when
   * the SDK stores it and an account key is at hand; otherwise the SDK's
   * exception or the ValueError about the missing key.
   */
  lemma CorrectedUpload(attributes: map<string, string>, sdk: SdkUpload)
    requires attributes.Keys == CorrectedSettings
    ensures UploadSigned(attributes, sdk).Ok? <==>
      sdk.SdkStored? && (attributes[AccountKeySetting] != "" || sdk.credentialKey != "")
    ensures UploadSigned(attributes, sdk).Err? ==>
      (sdk.SdkRaised? && UploadSigned(attributes, sdk).error == sdk.error)
      || UploadSigned(attributes, sdk).error == ValueError(NoAccountKey)
  {
    assert TtlSetting in CorrectedSettings && AccountKeySetting in CorrectedSettings;
  }
}
