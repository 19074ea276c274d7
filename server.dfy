/** The lifecycle coordinator of the video API (backend/server.js): the five
    route handlers over the two external stores, the metadata container (a
    map from id to record) and the blob container (a set of blob names).

    Each handler is given twice: a function from the stores before the
    request to the response and the stores after it, and a method of class
    `Backend` that updates the stores step by step as the route does and is
    proved to agree with the function. The properties of the handlers are
    stated about the functions. Clock readings are parameters (`now`, in
    milliseconds), and so is the outcome of every call into the cloud
    services (`Faults`). */
module Server {
  import opened Wrappers
  import opened Sas
  import opened Metadata
  import opened Text

  /** Status codes used by the routes (section 15 of RFC 9110). */
  const Ok: nat := 200
  const BadRequest: nat := 400
  const NotFound: nat := 404
  const InternalServerError: nat := 500

  const MissingFieldsMessage: string := "Missing title or fileName"
  const MissingKeyMessage: string := "Missing fileName (or id)"
  const StorageMissingMessage: string := "Storage account is not configured"
  const CosmosMissingMessage: string := "Cosmos DB is not configured"
  const UploadFailedMessage: string := "Failed to generate SAS token"
  const ConfirmFailedMessage: string := "Failed to confirm upload"
  const ListFailedMessage: string := "Failed to fetch videos"
  const VideoNotFoundMessage: string := "Video not found"
  const BlobNotFoundMessage: string := "Video file not found in blob storage"
  const DownloadFailedMessage: string := "Failed to generate download link"
  const DeleteFailedMessage: string := "Failed to delete video"
  const UploadTicketMessage: string := "SAS token generated and metadata stored"
  const ConfirmedMessage: string := "Upload confirmed and metadata updated"
  const DeletedMessage: string := "Video deleted (metadata and blob where present)"

  /** The environment read at start-up; "" stands for an unset variable. */
  datatype Config = Config(accountName: string, accountKey: string, cosmosConnection: string) {
    predicate StorageConfigured() {
      accountName != "" && accountKey != ""
    }
    predicate CosmosConfigured() {
      cosmosConnection != ""
    }
  }

  /** Which calls into the cloud services throw during one request.
      signing: building a link (the shared-key credential or the signature);
      metaConnect: constructing the database client;
      metaRead, metaWrite, metaQuery, metaDelete: the document operations;
      blobCheck, blobDelete: the blob existence check and deleteIfExists. */
  datatype Faults = Faults(
    signing: bool,
    metaConnect: bool,
    metaRead: bool,
    metaWrite: bool,
    metaQuery: bool,
    metaDelete: bool,
    blobCheck: bool,
    blobDelete: bool)

  const NoFaults: Faults := Faults(false, false, false, false, false, false, false, false)

  /** The JSON bodies the routes answer with. */
  datatype Body =
    | Error(error: string)
    | UploadTicket(uploadUrl: SasLink, fileName: string, message: string)
    | UploadConfirmed(message: string, fileName: string)
    | VideoList(videos: seq<VideoRecord>)
    | DownloadTicket(id: string, downloadUrl: SasLink, expiresInMinutes: nat)
    | VideoDeleted(message: string, blobDeleted: bool)

  datatype Response = Response(code: nat, body: Body)

  /** The state of the two external stores. */
  datatype Stores = Stores(meta: map<string, VideoRecord>, blobs: set<string>)

  datatype Outcome = Outcome(response: Response, stores: Stores)

  /** The fields of a POST /upload-request body; None when absent. */
  datatype UploadRequestBody = UploadRequestBody(title: Option<string>, fileName: Option<string>)

  /** The fields of a POST /confirm-upload body; None when absent. */
  datatype ConfirmUploadBody = ConfirmUploadBody(fileName: Option<string>, id: Option<string>, title: Option<string>)

  function ErrorResponse(code: nat, message: string): Response {
    Response(code, Error(message))
  }

  /** `fileName || id`: the key confirm-upload acts on, if any is given. */
  function ConfirmKey(body: ConfirmUploadBody): (key: Option<string>)
    ensures key.Some? <==> Truthy(body.fileName) || Truthy(body.id)
    ensures key.Some? ==> key.value != "" && (key == body.fileName || key == body.id)
    ensures Truthy(body.fileName) ==> key == body.fileName
  {
    if Truthy(body.fileName) then body.fileName
    else if Truthy(body.id) then body.id
    else None
  }

  /** POST /upload-request: validate, check the configuration, build the
      write link, upsert the provisional record. */
  function UploadRequestOutcome(s: Stores, cfg: Config, body: UploadRequestBody, now: nat, faults: Faults): (o: Outcome)
    ensures o.response.code in {Ok, BadRequest, InternalServerError}
    ensures o.response.code != Ok ==> o.stores == s && o.response.body.Error?
    ensures o.response.code == BadRequest <==> !Truthy(body.title) || !Truthy(body.fileName)
    ensures !Truthy(body.title) || !Truthy(body.fileName) ==> o.response == ErrorResponse(BadRequest, MissingFieldsMessage)
    ensures Truthy(body.title) && Truthy(body.fileName) && !cfg.StorageConfigured() ==>
      o.response == ErrorResponse(InternalServerError, StorageMissingMessage)
    ensures Truthy(body.title) && Truthy(body.fileName) && cfg.StorageConfigured() && !cfg.CosmosConfigured() ==>
      o.response == ErrorResponse(InternalServerError, CosmosMissingMessage)
    ensures (Truthy(body.title) && Truthy(body.fileName) && cfg.StorageConfigured() && cfg.CosmosConfigured()
      && (faults.signing || faults.metaConnect || faults.metaWrite)) ==>
      o.response == ErrorResponse(InternalServerError, UploadFailedMessage)
    ensures o.response.code == Ok <==>
      && Truthy(body.title) && Truthy(body.fileName)
      && cfg.StorageConfigured() && cfg.CosmosConfigured()
      && !faults.signing && !faults.metaConnect && !faults.metaWrite
    ensures o.response.code == Ok ==>
      var f := body.fileName.value;
      && o.stores.blobs == s.blobs
      && o.stores.meta.Keys == s.meta.Keys + {f}
      && o.stores.meta[f] == Provisional(f, body.title.value, now)
      && (forall k :: k in s.meta && k != f ==> o.stores.meta[k] == s.meta[k])
      && o.response.body.UploadTicket? && o.response.body.fileName == f
      && o.response.body.uploadUrl == BuildSasUrl(cfg.accountName, f, WritePermissions, LinkMinutes, now)
    ensures WellKeyed(s.meta) ==> WellKeyed(o.stores.meta)
  {
    if !Truthy(body.title) || !Truthy(body.fileName) then
      Outcome(ErrorResponse(BadRequest, MissingFieldsMessage), s)
    else if !cfg.StorageConfigured() then
      Outcome(ErrorResponse(InternalServerError, StorageMissingMessage), s)
    else if !cfg.CosmosConfigured() then
      Outcome(ErrorResponse(InternalServerError, CosmosMissingMessage), s)
    else if faults.signing || faults.metaConnect || faults.metaWrite then
      Outcome(ErrorResponse(InternalServerError, UploadFailedMessage), s)
    else
      var f := body.fileName.value;
      var uploadUrl := BuildSasUrl(cfg.accountName, f, WritePermissions, LinkMinutes, now);
      Outcome(
        Response(Ok, UploadTicket(uploadUrl, f, UploadTicketMessage)),
        Stores(s.meta[f := Provisional(f, body.title.value, now)], s.blobs))
  }

  /** The record confirm-upload reads before merging: none when the read
      throws or finds nothing. */
  function Existing(meta: map<string, VideoRecord>, key: string, readFails: bool): (r: Option<VideoRecord>)
    ensures r.Some? <==> !readFails && key in meta
    ensures r.Some? ==> r.value == meta[key]
  {
    if readFails || key !in meta then None else Some(meta[key])
  }

  /** POST /confirm-upload: pick the key, read the existing record (its
      absence is not an error), merge, upsert. The blob store is not consulted. */
  function ConfirmUploadOutcome(s: Stores, cfg: Config, body: ConfirmUploadBody, now: nat, faults: Faults): (o: Outcome)
    ensures o.response.code in {Ok, BadRequest, InternalServerError}
    ensures o.response.code != Ok ==> o.stores == s && o.response.body.Error?
    ensures o.response.code == BadRequest <==> ConfirmKey(body).None?
    ensures ConfirmKey(body).None? ==> o.response == ErrorResponse(BadRequest, MissingKeyMessage)
    ensures ConfirmKey(body).Some? && !cfg.CosmosConfigured() ==>
      o.response == ErrorResponse(InternalServerError, CosmosMissingMessage)
    ensures ConfirmKey(body).Some? && cfg.CosmosConfigured() && (faults.metaConnect || faults.metaWrite) ==>
      o.response == ErrorResponse(InternalServerError, ConfirmFailedMessage)
    ensures o.response.code == Ok <==>
      ConfirmKey(body).Some? && cfg.CosmosConfigured() && !faults.metaConnect && !faults.metaWrite
    ensures o.response.code == Ok ==>
      var k := ConfirmKey(body).value;
      && o.response.body == UploadConfirmed(ConfirmedMessage, k)
      && o.stores.blobs == s.blobs
      && o.stores.meta.Keys == s.meta.Keys + {k}
      && (forall k2 :: k2 in s.meta && k2 != k ==> o.stores.meta[k2] == s.meta[k2])
      && var r := o.stores.meta[k];
      && r.id == k && r.status == Uploaded && r.lastUpdated == Some(now) && r.title != ""
      && (Truthy(body.title) ==> r.title == body.title.value)
      && (!Truthy(body.title) && k in s.meta && !faults.metaRead && s.meta[k].title != "" ==> r.title == s.meta[k].title)
      && (k in s.meta && !faults.metaRead ==> r.uploadTime == s.meta[k].uploadTime && r.extra == s.meta[k].extra)
      && (k !in s.meta ==> r.uploadTime == now)
      && (k !in s.meta && !Truthy(body.title) ==> r.title == UntitledTitle)
    ensures WellKeyed(s.meta) ==> WellKeyed(o.stores.meta)
  {
    var key := ConfirmKey(body);
    if key.None? then
      Outcome(ErrorResponse(BadRequest, MissingKeyMessage), s)
    else if !cfg.CosmosConfigured() then
      Outcome(ErrorResponse(InternalServerError, CosmosMissingMessage), s)
    else if faults.metaConnect || faults.metaWrite then
      Outcome(ErrorResponse(InternalServerError, ConfirmFailedMessage), s)
    else
      var k := key.value;
      var updated := Confirmed(Existing(s.meta, k, faults.metaRead), k, body.title, now);
      Outcome(Response(Ok, UploadConfirmed(ConfirmedMessage, k)), Stores(s.meta[k := updated], s.blobs))
  }

  /** GET /videos: `response` is an answer the route may give. */
  ghost predicate IsListResponse(s: Stores, cfg: Config, faults: Faults, response: Response): (b: bool)
    ensures b ==> (response.code == Ok <==> cfg.CosmosConfigured() && !faults.metaConnect && !faults.metaQuery)
    ensures b && response.code != Ok ==> response.code == InternalServerError && response.body.Error?
    ensures b && response.code == Ok ==> response.body.VideoList?
    ensures b && response.code == Ok ==> var items := response.body.videos;
      && (forall i :: 0 <= i < |items| ==> items[i].id in s.meta && s.meta[items[i].id] == items[i])
      && (forall i, j :: 0 <= i < j < |items| ==> items[j].uploadTime <= items[i].uploadTime)
  {
    if !cfg.CosmosConfigured() then response == ErrorResponse(InternalServerError, CosmosMissingMessage)
    else if faults.metaConnect || faults.metaQuery then response == ErrorResponse(InternalServerError, ListFailedMessage)
    else response.code == Ok && response.body.VideoList? && IsListing(s.meta, response.body.videos)
  }

  /** GET /videos/:id/download: check the configuration, the record, the
      blob, then build the read link. Neither store changes. */
  function DownloadOutcome(s: Stores, cfg: Config, id: string, now: nat, faults: Faults): (r: Response)
    ensures r.code in {Ok, NotFound, InternalServerError}
    ensures r.code != Ok ==> r.body.Error?
    ensures r.code == Ok <==>
      && cfg.StorageConfigured() && cfg.CosmosConfigured()
      && !faults.metaConnect && !faults.metaQuery && !faults.blobCheck && !faults.signing
      && id in s.meta && id in s.blobs
    ensures r.code == NotFound <==>
      && cfg.StorageConfigured() && cfg.CosmosConfigured() && !faults.metaConnect && !faults.metaQuery
      && (id !in s.meta || (!faults.blobCheck && id !in s.blobs))
    ensures cfg.StorageConfigured() && cfg.CosmosConfigured() && !faults.metaConnect && !faults.metaQuery ==>
      && (id !in s.meta ==> r == ErrorResponse(NotFound, VideoNotFoundMessage))
      && (id in s.meta && !faults.blobCheck && id !in s.blobs ==> r == ErrorResponse(NotFound, BlobNotFoundMessage))
    ensures !cfg.StorageConfigured() ==> r == ErrorResponse(InternalServerError, StorageMissingMessage)
    ensures cfg.StorageConfigured() && !cfg.CosmosConfigured() ==> r == ErrorResponse(InternalServerError, CosmosMissingMessage)
    ensures cfg.StorageConfigured() && cfg.CosmosConfigured() && r.code == InternalServerError ==>
      r == ErrorResponse(InternalServerError, DownloadFailedMessage)
    ensures r.code == Ok ==>
      && r.body.DownloadTicket? && r.body.id == id && r.body.expiresInMinutes == LinkMinutes
      && r.body.downloadUrl == BuildSasUrl(cfg.accountName, id, ReadPermissions, LinkMinutes, now)
  {
    if !cfg.StorageConfigured() then ErrorResponse(InternalServerError, StorageMissingMessage)
    else if !cfg.CosmosConfigured() then ErrorResponse(InternalServerError, CosmosMissingMessage)
    else if faults.metaConnect || faults.metaQuery then ErrorResponse(InternalServerError, DownloadFailedMessage)
    else if id !in s.meta then ErrorResponse(NotFound, VideoNotFoundMessage)
    else if faults.blobCheck then ErrorResponse(InternalServerError, DownloadFailedMessage)
    else if id !in s.blobs then ErrorResponse(NotFound, BlobNotFoundMessage)
    else if faults.signing then ErrorResponse(InternalServerError, DownloadFailedMessage)
    else
      var downloadUrl := BuildSasUrl(cfg.accountName, id, ReadPermissions, LinkMinutes, now);
      Response(Ok, DownloadTicket(id, downloadUrl, LinkMinutes))
  }

  /** DELETE /videos/:id: delete the blob if it exists, then delete the
      record, swallowing a failure of that second delete. */
  function DeleteOutcome(s: Stores, cfg: Config, id: string, faults: Faults): (o: Outcome)
    ensures o.response.code in {Ok, InternalServerError}
    ensures o.response.code == Ok <==>
      cfg.CosmosConfigured() && cfg.StorageConfigured() && !faults.blobDelete && !faults.metaConnect
    ensures o.response.code != Ok ==> o.stores.meta == s.meta && o.response.body.Error?
    ensures o.response.code != Ok && (!cfg.CosmosConfigured() || !cfg.StorageConfigured() || faults.blobDelete) ==>
      o.stores == s
    ensures !cfg.CosmosConfigured() ==> o.response == ErrorResponse(InternalServerError, CosmosMissingMessage)
    ensures cfg.CosmosConfigured() && !cfg.StorageConfigured() ==>
      o.response == ErrorResponse(InternalServerError, StorageMissingMessage)
    ensures cfg.CosmosConfigured() && cfg.StorageConfigured() && !faults.blobDelete ==> o.stores.blobs == s.blobs - {id}
    ensures cfg.CosmosConfigured() && cfg.StorageConfigured() && o.response.code != Ok ==>
      o.response == ErrorResponse(InternalServerError, DeleteFailedMessage)
    ensures o.response.code == Ok ==>
      && o.response.body == VideoDeleted(DeletedMessage, id in s.blobs)
      && o.stores.blobs == s.blobs - {id}
      && (faults.metaDelete ==> o.stores.meta == s.meta)
      && (!faults.metaDelete ==> o.stores.meta == s.meta - {id})
    ensures WellKeyed(s.meta) ==> WellKeyed(o.stores.meta)
  {
    if !cfg.CosmosConfigured() then
      Outcome(ErrorResponse(InternalServerError, CosmosMissingMessage), s)
    else if !cfg.StorageConfigured() then
      Outcome(ErrorResponse(InternalServerError, StorageMissingMessage), s)
    else if faults.blobDelete then
      Outcome(ErrorResponse(InternalServerError, DeleteFailedMessage), s)
    else
      var blobs := s.blobs - {id};
      if faults.metaConnect then
        // the database client is built after the blob is gone: the route fails with the blob deleted
        Outcome(ErrorResponse(InternalServerError, DeleteFailedMessage), Stores(s.meta, blobs))
      else
        var meta := if faults.metaDelete then s.meta else s.meta - {id};
        Outcome(Response(Ok, VideoDeleted(DeletedMessage, id in s.blobs)), Stores(meta, blobs))
  }

  /** Whether the blob store takes a client's PUT through a link: it accepts
      a live link of its own account whose URL reaches the blob it is signed
      for and that may write the blob, or may create it when it does not
      exist yet, and then holds the blob. */
  predicate PutAccepted(blobs: set<string>, account: string, link: SasLink, now: int) {
    && link.account == account && Live(link, now) && Reaches(link)
    && (Grants(link, Write) || (Grants(link, Create) && link.blobName !in blobs))
  }

  /** The PUT through `link`: whether the store took it, and the stores after it. */
  function PutBlobOutcome(s: Stores, account: string, link: SasLink, now: int): (o: (bool, Stores))
    ensures o.0 ==> o.1 == Stores(s.meta, s.blobs + {link.blobName}) && Live(link, now) && Reaches(link)
    ensures !o.0 ==> o.1 == s
  {
    var accepted := PutAccepted(s.blobs, account, link, now);
    if accepted then (true, Stores(s.meta, s.blobs + {link.blobName})) else (false, s)
  }

  /** The API together with the two stores it coordinates. */
  class Backend {
    const config: Config
    var meta: map<string, VideoRecord>
    var blobs: set<string>

    ghost predicate Valid()
      reads this
    {
      WellKeyed(meta)
    }

    function State(): Stores
      reads this
    {
      Stores(meta, blobs)
    }

    constructor (config: Config, meta: map<string, VideoRecord>, blobs: set<string>)
      requires WellKeyed(meta)
      ensures Valid() && this.config == config && State() == Stores(meta, blobs)
    {
      this.config := config;
      this.meta := meta;
      this.blobs := blobs;
    }

    method UploadRequest(body: UploadRequestBody, now: nat, faults: Faults) returns (response: Response)
      requires Valid()
      modifies this
      ensures Valid()
      ensures Outcome(response, State()) == UploadRequestOutcome(old(State()), config, body, now, faults)
    {
      if !Truthy(body.title) || !Truthy(body.fileName) {
        return ErrorResponse(BadRequest, MissingFieldsMessage);
      }
      if !config.StorageConfigured() {
        return ErrorResponse(InternalServerError, StorageMissingMessage);
      }
      if !config.CosmosConfigured() {
        return ErrorResponse(InternalServerError, CosmosMissingMessage);
      }
      if faults.signing {
        return ErrorResponse(InternalServerError, UploadFailedMessage);
      }
      var fileName := body.fileName.value;
      var uploadUrl := BuildSasUrl(config.accountName, fileName, WritePermissions, LinkMinutes, now);
      if faults.metaConnect || faults.metaWrite {
        return ErrorResponse(InternalServerError, UploadFailedMessage);
      }
      meta := meta[fileName := Provisional(fileName, body.title.value, now)];
      response := Response(Ok, UploadTicket(uploadUrl, fileName, UploadTicketMessage));
    }

    method ConfirmUpload(body: ConfirmUploadBody, now: nat, faults: Faults) returns (response: Response)
      requires Valid()
      modifies this
      ensures Valid()
      ensures Outcome(response, State()) == ConfirmUploadOutcome(old(State()), config, body, now, faults)
    {
      var key := ConfirmKey(body);
      if key.None? {
        return ErrorResponse(BadRequest, MissingKeyMessage);
      }
      if !config.CosmosConfigured() {
        return ErrorResponse(InternalServerError, CosmosMissingMessage);
      }
      if faults.metaConnect {
        return ErrorResponse(InternalServerError, ConfirmFailedMessage);
      }
      var fileName := key.value;
      var existing: Option<VideoRecord> := None;
      if !faults.metaRead && fileName in meta {
        existing := Some(meta[fileName]);
      }
      var updated := Confirmed(existing, fileName, body.title, now);
      if faults.metaWrite {
        return ErrorResponse(InternalServerError, ConfirmFailedMessage);
      }
      meta := meta[fileName := updated];
      response := Response(Ok, UploadConfirmed(ConfirmedMessage, fileName));
    }

    /** The ordered query is answered by repeatedly taking a newest remaining
        record; which of several equally new records comes first is left open,
        as the store leaves it. */
    method ListVideos(faults: Faults) returns (response: Response)
      requires Valid()
      ensures IsListResponse(State(), config, faults, response)
    {
      if !config.CosmosConfigured() {
        return ErrorResponse(InternalServerError, CosmosMissingMessage);
      }
      if faults.metaConnect || faults.metaQuery {
        return ErrorResponse(InternalServerError, ListFailedMessage);
      }
      var rest := meta;
      var items: seq<VideoRecord> := [];
      assert Ids(items) == {};
      while rest != map[]
        invariant PartialListing(meta, rest, items)
        decreases |rest|
      {
        NewestExists(rest);
        var k :| k in rest && IsNewest(rest, k);
        ListingStep(meta, rest, items, k);
        items := items + [rest[k]];
        rest := rest - {k};
      }
      ListingDone(meta, items);
      response := Response(Ok, VideoList(items));
    }

    method DownloadLink(id: string, now: nat, faults: Faults) returns (response: Response)
      requires Valid()
      ensures response == DownloadOutcome(State(), config, id, now, faults)
    {
      if !config.StorageConfigured() {
        return ErrorResponse(InternalServerError, StorageMissingMessage);
      }
      if !config.CosmosConfigured() {
        return ErrorResponse(InternalServerError, CosmosMissingMessage);
      }
      if faults.metaConnect || faults.metaQuery {
        return ErrorResponse(InternalServerError, DownloadFailedMessage);
      }
      if id !in meta {
        return ErrorResponse(NotFound, VideoNotFoundMessage);
      }
      if faults.blobCheck {
        return ErrorResponse(InternalServerError, DownloadFailedMessage);
      }
      var blobExists := id in blobs;
      if !blobExists {
        return ErrorResponse(NotFound, BlobNotFoundMessage);
      }
      if faults.signing {
        return ErrorResponse(InternalServerError, DownloadFailedMessage);
      }
      var downloadUrl := BuildSasUrl(config.accountName, id, ReadPermissions, LinkMinutes, now);
      response := Response(Ok, DownloadTicket(id, downloadUrl, LinkMinutes));
    }

    method DeleteVideo(id: string, faults: Faults) returns (response: Response)
      requires Valid()
      modifies this
      ensures Valid()
      ensures Outcome(response, State()) == DeleteOutcome(old(State()), config, id, faults)
    {
      if !config.CosmosConfigured() {
        return ErrorResponse(InternalServerError, CosmosMissingMessage);
      }
      if !config.StorageConfigured() {
        return ErrorResponse(InternalServerError, StorageMissingMessage);
      }
      if faults.blobDelete {
        return ErrorResponse(InternalServerError, DeleteFailedMessage);
      }
      var blobDeleted := id in blobs;
      blobs := blobs - {id};
      if faults.metaConnect {
        return ErrorResponse(InternalServerError, DeleteFailedMessage);
      }
      if !faults.metaDelete {
        meta := meta - {id};
      }
      response := Response(Ok, VideoDeleted(DeletedMessage, blobDeleted));
    }

    /** The client's PUT of the video bytes through an upload link, as the
        blob store handles it. */
    method PutBlob(link: SasLink, now: int) returns (accepted: bool)
      requires Valid()
      modifies this
      ensures Valid()
      ensures (accepted, State()) == PutBlobOutcome(old(State()), config.accountName, link, now)
    {
      accepted := PutAccepted(blobs, config.accountName, link, now);
      if accepted {
        blobs := blobs + {link.blobName};
      }
    }
  }
}
