/** Properties of the video API that relate several requests: idempotence,
    repeated deletion, the forward-only status, what a listing shows after an
    upload request, the behaviour without a database, and the full
    upload/confirm/download/delete round trip. */
module ServerProperties {
  import opened Wrappers
  import opened Sas
  import opened Metadata
  import opened Text
  import opened Server

  /** Status never moves backwards for a record present before and after. */
  ghost predicate NoRegression(before: map<string, VideoRecord>, after: map<string, VideoRecord>) {
    forall k :: k in before && k in after ==> Rank(before[k].status) <= Rank(after[k].status)
  }

  /** Re-sending an accepted upload request at the same instant changes
      nothing further and gets the same answer. */
  lemma UploadRequestIdempotent(s: Stores, cfg: Config, body: UploadRequestBody, now: nat, faults: Faults)
    requires UploadRequestOutcome(s, cfg, body, now, faults).response.code == Ok
    ensures var o := UploadRequestOutcome(s, cfg, body, now, faults);
      UploadRequestOutcome(o.stores, cfg, body, now, faults) == o
  {
    var o := UploadRequestOutcome(s, cfg, body, now, faults);
    var f := body.fileName.value;
    assert o.stores.meta[f := Provisional(f, body.title.value, now)] == o.stores.meta;
  }

  /** Re-sending an accepted confirmation at the same instant changes nothing
      further and gets the same answer. */
  lemma ConfirmUploadIdempotent(s: Stores, cfg: Config, body: ConfirmUploadBody, now: nat, faults: Faults)
    requires ConfirmUploadOutcome(s, cfg, body, now, faults).response.code == Ok
    ensures var o := ConfirmUploadOutcome(s, cfg, body, now, faults);
      ConfirmUploadOutcome(o.stores, cfg, body, now, faults) == o
  {
    var o := ConfirmUploadOutcome(s, cfg, body, now, faults);
    var k := ConfirmKey(body).value;
    var first := Confirmed(Existing(s.meta, k, faults.metaRead), k, body.title, now);
    assert o.stores.meta[k] == first;
    ConfirmedIdempotent(Existing(s.meta, k, faults.metaRead), k, body.title, now);
    assert Confirmed(Existing(o.stores.meta, k, faults.metaRead), k, body.title, now) == first;
    assert o.stores.meta[k := first] == o.stores.meta;
  }

  /** A later confirmation of a confirmed record only refreshes lastUpdated. */
  lemma ConfirmAgainRefreshesLastUpdated(s: Stores, cfg: Config, body: ConfirmUploadBody, now1: nat, now2: nat, faults1: Faults, faults2: Faults)
    requires ConfirmUploadOutcome(s, cfg, body, now1, faults1).response.code == Ok
    requires !faults2.metaConnect && !faults2.metaWrite && !faults2.metaRead
    ensures var o1 := ConfirmUploadOutcome(s, cfg, body, now1, faults1);
      var o2 := ConfirmUploadOutcome(o1.stores, cfg, body, now2, faults2);
      var k := ConfirmKey(body).value;
      && o2.response == o1.response
      && o2.stores.meta == o1.stores.meta[k := o1.stores.meta[k].(lastUpdated := Some(now2))]
      && o2.stores.blobs == o1.stores.blobs
  {
  }

  /** Deleting twice: the second delete still answers 200, reports that no
      blob was deleted and changes nothing. */
  lemma DeleteTwice(s: Stores, cfg: Config, id: string, faults1: Faults, faults2: Faults)
    requires DeleteOutcome(s, cfg, id, faults1).response.code == Ok && !faults1.metaDelete
    requires !faults2.blobDelete && !faults2.metaConnect
    ensures var o1 := DeleteOutcome(s, cfg, id, faults1);
      var o2 := DeleteOutcome(o1.stores, cfg, id, faults2);
      && o1.response.body.blobDeleted == (id in s.blobs)
      && id !in o1.stores.meta && id !in o1.stores.blobs
      && o2.response == Response(Ok, VideoDeleted(DeletedMessage, false))
      && o2.stores == o1.stores
  {
    var o1 := DeleteOutcome(s, cfg, id, faults1);
    assert o1.stores.meta - {id} == o1.stores.meta;
    assert o1.stores.blobs - {id} == o1.stores.blobs;
  }

  /** Confirming never moves a record backwards. */
  lemma ConfirmUploadKeepsStatusForward(s: Stores, cfg: Config, body: ConfirmUploadBody, now: nat, faults: Faults)
    ensures NoRegression(s.meta, ConfirmUploadOutcome(s, cfg, body, now, faults).stores.meta)
  {
  }

  /** Deleting never moves a record backwards. */
  lemma DeleteKeepsStatusForward(s: Stores, cfg: Config, id: string, faults: Faults)
    ensures NoRegression(s.meta, DeleteOutcome(s, cfg, id, faults).stores.meta)
  {
  }

  /** Re-requesting an upload for a confirmed file name replaces its record by
      a provisional one: status goes back to sas-generated and the upload time
      is reset, so "status only moves forward" holds for the other routes but
      not for upload-request. */
  lemma UploadRequestResetsStatus(s: Stores, cfg: Config, body: UploadRequestBody, now: nat, faults: Faults)
    requires UploadRequestOutcome(s, cfg, body, now, faults).response.code == Ok
    requires body.fileName.value in s.meta && s.meta[body.fileName.value].status == Uploaded
    ensures var after := UploadRequestOutcome(s, cfg, body, now, faults).stores.meta;
      && after[body.fileName.value].status == SasGenerated
      && after[body.fileName.value].uploadTime == now
      && !NoRegression(s.meta, after)
  {
    var f := body.fileName.value;
    var after := UploadRequestOutcome(s, cfg, body, now, faults).stores.meta;
    assert f in s.meta && f in after && Rank(after[f].status) < Rank(s.meta[f].status);
  }

  /** After an accepted upload request, a listing shows exactly one record
      for the file name, provisional and titled as requested. */
  lemma ListingAfterUploadRequest(s: Stores, cfg: Config, body: UploadRequestBody, now: nat, faults: Faults,
                                  listFaults: Faults, response: Response)
    requires UploadRequestOutcome(s, cfg, body, now, faults).response.code == Ok
    requires !listFaults.metaConnect && !listFaults.metaQuery
    requires IsListResponse(UploadRequestOutcome(s, cfg, body, now, faults).stores, cfg, listFaults, response)
    ensures response.code == Ok && response.body.VideoList?
    ensures var items := response.body.videos;
      exists i :: 0 <= i < |items| && items[i].id == body.fileName.value
        && items[i].status == SasGenerated && items[i].title == body.title.value
    ensures var items := response.body.videos;
      forall i, j ::
        (0 <= i < |items| && 0 <= j < |items| && items[i].id == body.fileName.value && items[j].id == body.fileName.value) ==> i == j
  {
    var o := UploadRequestOutcome(s, cfg, body, now, faults);
    ListingHasEachRecordOnce(o.stores.meta, response.body.videos, body.fileName.value);
  }

  /** Confirmation trusts the client: it succeeds for a file whose blob was
      never stored, and a download of that file is then refused with 404. */
  lemma ConfirmedWithoutBlob(s: Stores, cfg: Config, key: string, now: nat, later: nat)
    requires cfg.StorageConfigured() && cfg.CosmosConfigured()
    requires key != "" && key !in s.blobs
    ensures var o := ConfirmUploadOutcome(s, cfg, ConfirmUploadBody(Some(key), None, None), now, NoFaults);
      && o.response.code == Ok && o.stores.meta[key].status == Uploaded
      && DownloadOutcome(o.stores, cfg, key, later, NoFaults) == ErrorResponse(NotFound, BlobNotFoundMessage)
  {
  }

  /** A read that throws is taken as "no record": the confirmed record then
      gets the current time as its upload time and loses its other properties. */
  lemma ConfirmAfterFailedRead(s: Stores, cfg: Config, body: ConfirmUploadBody, now: nat, faults: Faults)
    requires faults.metaRead
    requires ConfirmUploadOutcome(s, cfg, body, now, faults).response.code == Ok
    ensures var k := ConfirmKey(body).value;
      var r := ConfirmUploadOutcome(s, cfg, body, now, faults).stores.meta[k];
      && r.uploadTime == now && r.extra == map[]
      && (!Truthy(body.title) ==> r.title == UntitledTitle)
  {
    var k := ConfirmKey(body).value;
    ConfirmedMerge(None, k, body.title, now);
  }

  /** Without a database connection string every route that touches metadata
      answers 500 with an error body, and nothing changes. */
  lemma NoDatabaseMeans500(s: Stores, cfg: Config, up: UploadRequestBody, confirm: ConfirmUploadBody,
                            id: string, now: nat, faults: Faults, response: Response)
    requires !cfg.CosmosConfigured()
    requires IsListResponse(s, cfg, faults, response)
    ensures Truthy(up.title) && Truthy(up.fileName) ==>
      var o := UploadRequestOutcome(s, cfg, up, now, faults);
      o.response.code == InternalServerError && o.response.body.Error? && o.stores == s
    ensures ConfirmKey(confirm).Some? ==>
      ConfirmUploadOutcome(s, cfg, confirm, now, faults) == Outcome(ErrorResponse(InternalServerError, CosmosMissingMessage), s)
    ensures response == ErrorResponse(InternalServerError, CosmosMissingMessage)
    ensures DownloadOutcome(s, cfg, id, now, faults).code == InternalServerError
    ensures DeleteOutcome(s, cfg, id, faults) == Outcome(ErrorResponse(InternalServerError, CosmosMissingMessage), s)
  {
  }

  /** The whole life of one video: request an upload, put the bytes through
      the upload link before it expires, confirm by id alone, get a download
      link, delete, and find the video gone. The PUT goes through for every
      file name except "." and "..", which no link reaches. */
  lemma RoundTrip(s: Stores, cfg: Config, title: string, f: string, t0: nat, t1: nat, t2: nat, t3: nat, t4: nat)
    requires cfg.StorageConfigured() && cfg.CosmosConfigured()
    requires title != "" && f != ""
    requires t0 <= t1 && t1 - t0 < LinkMinutes * MillisPerMinute
    ensures
      var o1 := UploadRequestOutcome(s, cfg, UploadRequestBody(Some(title), Some(f)), t0, NoFaults);
      && o1.response.code == Ok
      && (PutBlobOutcome(o1.stores, cfg.accountName, o1.response.body.uploadUrl, t1).0 <==> !DotName(f))
    ensures !DotName(f) ==>
      var o1 := UploadRequestOutcome(s, cfg, UploadRequestBody(Some(title), Some(f)), t0, NoFaults);
      var put := PutBlobOutcome(o1.stores, cfg.accountName, o1.response.body.uploadUrl, t1);
      && var o3 := ConfirmUploadOutcome(put.1, cfg, ConfirmUploadBody(None, Some(f), None), t2, NoFaults);
      && o3.response.code == Ok
      && o3.stores.meta[f].title == title && o3.stores.meta[f].uploadTime == t0
      && o3.stores.meta[f].status == Uploaded
      && var d := DownloadOutcome(o3.stores, cfg, f, t3, NoFaults);
      && d.code == Ok && d.body.downloadUrl.blobName == f && Grants(d.body.downloadUrl, Read)
      && Reaches(d.body.downloadUrl)
      && var o5 := DeleteOutcome(o3.stores, cfg, f, NoFaults);
      && o5.response == Response(Ok, VideoDeleted(DeletedMessage, true))
      && DownloadOutcome(o5.stores, cfg, f, t4, NoFaults) == ErrorResponse(NotFound, VideoNotFoundMessage)
  {
    var o1 := UploadRequestOutcome(s, cfg, UploadRequestBody(Some(title), Some(f)), t0, NoFaults);
    LinkPermissions(cfg.accountName, f, t0);
    LinkPermissions(cfg.accountName, f, t3);
    var put := PutBlobOutcome(o1.stores, cfg.accountName, o1.response.body.uploadUrl, t1);
    EscapedIsServed(f);
    if !DotName(f) {
      assert put.0;
      var o3 := ConfirmUploadOutcome(put.1, cfg, ConfirmUploadBody(None, Some(f), None), t2, NoFaults);
      ConfirmedMerge(Some(put.1.meta[f]), f, None, t2);
      assert o3.stores.meta[f].uploadTime == t0;
    }
  }

  /** The link exactly as the route writes it: for the file name
      "clip#1.mp4" the store refuses the PUT through the live, writable
      upload link, because the '#' ends the path and leaves the signature in
      the fragment. The escaped link the handlers give is accepted. */
  lemma UnescapedUploadRefused(s: Stores, account: string, now: nat)
    ensures var f := "clip#1.mp4";
      var raw := BuildSasUrlAsWritten(account, f, WritePermissions, LinkMinutes, now);
      var fixed := BuildSasUrl(account, f, WritePermissions, LinkMinutes, now);
      && Live(raw, now) && Grants(raw, Write)
      && !PutBlobOutcome(s, account, raw, now).0
      && PutBlobOutcome(s, account, fixed, now).0
  {
    var f := "clip#1.mp4";
    assert f[4] == '#';
    AsWrittenLinkMisses(account, f, WritePermissions, LinkMinutes, now);
    LinkPermissions(account, f, now);
    assert WritePermissions == ['c', 'w'];
  }
}
