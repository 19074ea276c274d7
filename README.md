# Video platform lifecycle coordinator, in Dafny

This project models the core of a small video platform: an HTTP API that hands
out time-limited upload and download links for a blob container and keeps one
metadata document per video in a document database, and the browser client
that drives it.

The API is a state machine over two stores:

- the metadata container, a `map` from id to `VideoRecord`;
- the blob container, a `set` of blob names.

It has five route handlers: upload-request, confirm-upload, list, download
link and delete. Each handler appears twice:

- as a pure function from the stores before the request to the response and
  the stores after it (`Server.UploadRequestOutcome`, ...);
- as a method of the class `Server.Backend`, which holds the two stores as
  fields and updates them step by step, in the route's order. The methods
  for upload-request, confirm-upload and delete are proved to leave the
  answer and the stores that their function gives. The download method is
  proved to give the answer of `Server.DownloadOutcome`, which returns no
  stores because the route changes neither. The list method is proved
  against the relation `Server.IsListResponse`, because the store may order
  records with equal upload times either way.

The clock reading (`now`, in integer milliseconds) and the outcome of every
call into the cloud services (`Server.Faults`, one flag per call) are
parameters. So every branch of a handler is covered: the 400 on missing
fields, the 500 on missing configuration, each `catch` that turns into a 500,
and the 404s.

The link builder is modelled abstractly as a `Sas.SasLink` value. It keeps
what the builder fixes: the account, the blob name, the permission string and
the expiry `now + minutes * 60 * 1000`. It also keeps the file name as it is
written into the URL path, since that decides which blob a request through
the link reaches. The signature is dropped. The handlers use a builder that
escapes the name; see "## Findings".

The client side is in module `Client`. It holds the search predicate, the
progress clamp, the filter and render step of the list, the guards and
request sequence of an upload, and the 2xx test that settles a blob upload.
The page is a class whose fields stand for the DOM state the client writes.
Module `Text` holds the JavaScript string operations these rely on: `trim`,
`toLowerCase`, `includes`, and decimal rendering.

Files: `wrappers.dfy` (Option, Result), `sas.dfy`, `metadata.dfy`,
`server.dfy`, `server_properties.dfy`, `text.dfy`, `client.dfy`.

## Behaviour the code has that one might not expect

The model follows the code in each case.

- A record's status moves only forward under confirm-upload and delete
  (`ServerProperties.ConfirmUploadKeepsStatusForward`,
  `ServerProperties.DeleteKeepsStatusForward`). A repeated upload-request for
  a confirmed file name replaces the record with a provisional one, so the
  status goes back to `sas-generated` (`ServerProperties.UploadRequestResetsStatus`).
- Both the upload link and the read link last 10 minutes.
- confirm-upload keeps an existing title only when it is non-empty. An
  existing empty title falls back to "Untitled video", like a missing one.
- DELETE builds the database client only after the blob is gone. If that
  construction throws, the route answers 500 with the blob already deleted.
  `Server.DeleteOutcome` states this.
- upload-request accepts the file names "." and "..". No link reaches a blob of either name, escaped or not, because the browser's URL parser collapses them as dot segments (`Sas.BuildSasUrl`, `ServerProperties.RoundTrip`).
- confirm-upload treats a read that throws like a missing record. The merged
  record then takes the current time as its upload time and loses its other
  properties (`ServerProperties.ConfirmAfterFailedRead`).

## Model

| member | source | states |
|---|---|---|
| Sas.BuildSasUrl | backend/server.js:57-72 | The link is for the requested account, blob and permission string, and expires `minutesValid * 60000` ms after `now`. Its URL, with the name escaped, reaches the blob it is signed for exactly when the name is neither "." nor "..". |
| Sas.BuildSasUrlAsWritten | backend/server.js:57-72 | The builder as written puts the file name into the URL unchanged. For a name with no '?', '#', '%', '/', '\\', tab, LF or CR this is the same link as the escaped one, and it reaches its blob unless the name is "." or "..". |
| Sas.BuildSasUrlScope | backend/server.js:57-72 | A built link names exactly the requested account, blob and permission string, and reaches that blob exactly when the name is neither "." nor "..". It is live at a later instant exactly while fewer than `minutesValid * 60000` ms have passed since it was built. |
| Sas.EscapedIsServed | backend/server.js:70 | The URL parser sends the escaped path text unchanged, and the service decodes it back to the file name. The only exceptions are the names "." and "..": the parser collapses them as dot segments, and the request reaches no blob. |
| Sas.PlainNameUnchanged | backend/server.js:70 | A name with no '?', '#', '%', '/', '\\', tab, LF or CR is written the same escaped or not. The service reads it back unchanged, unless it is "." or "..". |
| Sas.AsWrittenLinkMisses | backend/server.js:70 | A link built as written does not reach its blob when the name holds a '?', a '#', a '\\', a tab, a LF or a CR. The escaped link does. |
| Sas.PathEndsWithBlob | backend/server.js:70 | The URL text of every link, before the signature, ends in `/videos/` followed by the name as written. |
| Sas.PathIdentifiesBlob | backend/server.js:57-70 | Two links of one account that reach their blobs and have the same URL text are signed for the same blob. So a link gives access to no other object. |
| Sas.LinkPermissions | backend/server.js:95 | The upload link ("cw") may create and write but not read. The download link ("r", line 220) may read but neither create nor write. |
| Metadata.Provisional | backend/server.js:98-103 | The record upload-request writes has id = file name, the requested title, uploadTime now and status `sas-generated`. It has no lastUpdated and no other properties. |
| Metadata.Confirmed | backend/server.js:146-153 | The merged record has the key as id, status `uploaded`, `lastUpdated = now`, and a title that is never empty. |
| Metadata.ConfirmedMerge | backend/server.js:146-153 | Title: the supplied one, else the existing non-empty one, else "Untitled video". An existing record keeps its uploadTime and all other properties. With no existing record, uploadTime is now. |
| Metadata.ConfirmedIdempotent | backend/server.js:146-155 | Merging the same inputs onto an already merged record gives that record back. |
| Metadata.ConfirmedNeverRegresses | backend/server.js:151 | The merged record never ranks below the record it merged onto. |
| Metadata.NewestExists | backend/server.js:179 | Every non-empty container has a record with the greatest uploadTime. |
| Metadata.ListingStep | backend/server.js:179-181 | Moving a newest remaining record to the end keeps a partial answer of the ordered query: ids distinct, newest first, none older than what is left. |
| Metadata.ListingUnique | backend/server.js:179 | When upload times are distinct, any two answers of `ORDER BY uploadTime DESC` are the same sequence. |
| Metadata.ListingOfThree | backend/server.js:179-182 | Three records uploaded at t1 < t2 < t3 are listed as [r3, r2, r1]. |
| Metadata.ListingHasEachRecordOnce | backend/server.js:179-182 | A listing holds every stored record, and holds it exactly once. |
| Server.ConfirmKey | backend/server.js:125-130 | The key is `fileName` when that is non-empty, else `id`. It is absent exactly when neither is a non-empty string. |
| Server.UploadRequestOutcome | backend/server.js:77-116 | The answer is 400 "Missing title or fileName" exactly when the title or fileName is missing or empty; this is checked before configuration. Missing storage gives 500 "Storage account is not configured". Then a missing database gives 500 "Cosmos DB is not configured". A failed signing, client construction or upsert gives 500 "Failed to generate SAS token". Any non-200 leaves both stores unchanged. 200 happens exactly when fields, configuration and cloud calls are all fine. It upserts exactly `{id: fileName, title, uploadTime: now, status: sas-generated}`, leaves every other id and the blobs alone, and returns the "cw" 10-minute link, with the name escaped as the corrected builder writes it (see "## Findings"). The store stays keyed by id. |
| Server.ConfirmUploadOutcome | backend/server.js:121-165 | The answer is 400 "Missing fileName (or id)" exactly when there is no key. With a key, no database gives 500 "Cosmos DB is not configured", and a failed client construction or upsert gives 500 "Failed to confirm upload". Any non-200 changes nothing. On 200 the record at the key is `uploaded` with lastUpdated = now and a non-empty title. The supplied title wins; otherwise an existing non-empty title that was read is kept. An existing record that was read keeps its uploadTime and other properties. A missing record is created with uploadTime now and title "Untitled video". Other ids and the blobs are unchanged. |
| Server.DownloadOutcome | backend/server.js:192-226 | 200 exactly when both stores hold the id, configuration is present and no cloud call fails. 404 exactly when the configuration is present, the query succeeds, and either the record is missing or the blob check finds no blob. A missing record gives "Video not found" and a missing blob gives "Video file not found in blob storage". Missing storage or database configuration gives 500 with its message, and every other failure gives 500 "Failed to generate download link". On 200 the answer is the id, the "r" link built at now with the name escaped as the corrected builder writes it (see "## Findings"), and `expiresInMinutes = 10`. |
| Server.DeleteOutcome | backend/server.js:231-261 | A missing database is reported first, then missing storage, each as 500 with its message. Any other failure is 500 "Failed to delete video". 200 exactly when configured and the blob delete does not throw. Then the blob is gone, `blobDeleted` is whether it existed, and the record is gone unless its delete failed, which is swallowed. A 500 leaves the metadata unchanged, and leaves the blobs unchanged unless the failure came after the blob delete. When the database client fails after the blob delete, the blob is gone. |
| Server.Existing | backend/server.js:138-144 | The record confirm-upload merges onto is the stored one exactly when the read does not throw and finds it; otherwise there is none. |
| Server.IsListResponse | backend/server.js:170-187 | An answer of GET /videos is 200 exactly when the database is configured and the connection and query succeed; otherwise it is a 500 error. A 200 lists stored records, newest first. |
| Server.PutBlobOutcome | frontend/app.js:131-156 | The blob store takes a PUT through a link only while the link is live and its URL reaches the blob it is signed for. It then holds the blob and nothing else changes. A refused PUT changes nothing. |
| Server.Backend.constructor | backend/server.js:14-25 | The backend starts with the given configuration and stores. |
| Server.Backend.UploadRequest | backend/server.js:77-116 | The step-by-step handler leaves the stores and answer that `UploadRequestOutcome` gives, and keeps the container keyed by id. |
| Server.Backend.ConfirmUpload | backend/server.js:121-165 | The step-by-step handler (read, merge, upsert) agrees with `ConfirmUploadOutcome`. |
| Server.Backend.ListVideos | backend/server.js:170-187 | Without a database the answer is 500 "Cosmos DB is not configured". A failed query gives 500 "Failed to fetch videos". Otherwise it is 200 with every stored record exactly once, newest first. |
| Server.Backend.DownloadLink | backend/server.js:192-226 | The handler's answer is that of `DownloadOutcome`, and it changes neither store. |
| Server.Backend.DeleteVideo | backend/server.js:231-261 | The handler (blob first, then the record, best effort) agrees with `DeleteOutcome`. |
| Server.Backend.PutBlob | frontend/app.js:131-156 | The client's PUT through a link changes the blob store as `PutBlobOutcome` says. |
| ServerProperties.UploadRequestIdempotent | backend/server.js:95-111 | Re-sending an accepted upload request at the same instant gets the same answer and changes nothing further. |
| ServerProperties.ConfirmUploadIdempotent | backend/server.js:138-160 | Re-sending an accepted confirmation at the same instant gets the same answer and changes nothing further. |
| ServerProperties.ConfirmAgainRefreshesLastUpdated | backend/server.js:146-155 | A later confirmation of a confirmed record changes only its lastUpdated. |
| ServerProperties.DeleteTwice | backend/server.js:242-256 | After a delete, the record and the blob are gone and `blobDeleted` reported prior existence. A second delete answers 200 with `blobDeleted = false` and changes nothing. |
| ServerProperties.ConfirmUploadKeepsStatusForward | backend/server.js:146-155 | No record present before and after a confirmation moves from `uploaded` back to `sas-generated`. |
| ServerProperties.DeleteKeepsStatusForward | backend/server.js:242-251 | A delete moves no record's status backwards. |
| ServerProperties.UploadRequestResetsStatus | backend/server.js:98-105 | Re-requesting an upload for a confirmed file name resets its status to `sas-generated` and its uploadTime to now. |
| ServerProperties.ListingAfterUploadRequest | backend/server.js:98-105 | After an accepted upload request, a successful listing shows exactly one record with that id. It is `sas-generated` and has the requested title. |
| ServerProperties.ConfirmedWithoutBlob | backend/server.js:138-155 | Confirmation does not consult the blob store. A file whose blob was never stored becomes `uploaded`, and its download is then refused with 404. |
| ServerProperties.ConfirmAfterFailedRead | backend/server.js:139-144 | When the read throws, the confirmed record gets uploadTime now and no other properties. Without a supplied title it is titled "Untitled video". |
| ServerProperties.NoDatabaseMeans500 | backend/server.js:88-240 | Without a database connection string, every route that touches metadata answers 500 with an error body and changes nothing: upload-request once its fields are present, confirm-upload once it has a key, list, download and delete. |
| ServerProperties.RoundTrip | backend/server.js:77-261 | This is the whole life of one video, through the handlers with the corrected builder. Request an upload, then PUT through its escaped link within 10 minutes. The PUT is accepted exactly when the file name is neither "." nor "..". For every other name the rest follows. For a name holding '?', '#', '\\', tab, LF or CR, the link as written would be refused (`ServerProperties.UnescapedUploadRefused`). Confirm by id alone: the record is `uploaded` with the requested title and the first uploadTime. Download gives a read link that reaches the file. Delete reports `blobDeleted = true`. A download after that is 404 "Video not found". |
| ServerProperties.UnescapedUploadRefused | backend/server.js:70 | For the file name "clip#1.mp4", the store refuses the PUT through the upload link as written, although that link is live and writable. It accepts the escaped link. |
| Text.Truthy | backend/server.js:83 | JavaScript truthiness of an optional string field: present and non-empty. It decides the 400s of upload-request (line 83) and confirm-upload (line 128), and the empty-query test of the client (frontend/app.js:50). |
| Text.OrElse | backend/server.js:149 | `s \|\| fallback` is the string when it is present and non-empty, and the fallback otherwise. The server's title fallback (line 149) and the client's "(Untitled)" and "unknown" (frontend/app.js:186-188) use it. |
| Text.OrEmpty | frontend/app.js:51 | `s \|\| ""` is the string when it is present and non-empty, and "" otherwise. |
| Text.Lower | frontend/app.js:51-52 | Lower-casing keeps the length and lower-cases each character. |
| Text.Includes | frontend/app.js:52 | `includes` is true exactly when the needle occurs at some position of the haystack. |
| Text.Trim | frontend/app.js:163 | `trim` never lengthens a string, and a non-empty result neither starts nor ends with whitespace. |
| Text.TrimSlice | frontend/app.js:163 | `trim` returns a slice of its input with only whitespace cut on either side. The result neither starts nor ends with whitespace. |
| Text.TrimEmptyIff | frontend/app.js:244-247 | A string trims to "" exactly when it is all whitespace. |
| Text.Decimal | frontend/app.js:240 | The decimal rendering of a count is a non-empty string of digits. |
| Text.DecimalRoundTrip | frontend/app.js:150 | Reading the rendered digits back gives the number, with no leading zero. |
| Client.Haystack | frontend/app.js:51 | The searched text is the title or "", a space, then the id or "". |
| Client.MatchesSearch | frontend/app.js:49-53 | A missing or empty query matches every video. |
| Client.MatchesSearchIsSubstringTest | frontend/app.js:49-53 | For a non-empty query, a match means exactly that the lower-cased query occurs in the lower-cased `title + " " + id`. |
| Client.MatchesTitle | frontend/app.js:51-52 | A query found in the title, ignoring case, matches, whatever the id. |
| Client.MatchesId | frontend/app.js:51-52 | A query found in the id, ignoring case, matches. A missing title counts as "". |
| Client.MatchesIgnoresQueryCase | frontend/app.js:52 | Queries that lower-case alike select the same videos. |
| Client.ClampProgress | frontend/app.js:35 | The bar width is in [0, 100]. It equals the progress inside that range, 0 below it and 100 above it. |
| Client.FilterVideos | frontend/app.js:166 | The filtered list holds only matching videos. It is a subsequence of the cached list, and holds every matching video as often as the cached list does. |
| Client.ItemNode | frontend/app.js:186-188 | The item for a video shows its title, or "(Untitled)" when the title is missing or empty. Its tag shows the status, or "unknown". |
| Client.ItemNodes | frontend/app.js:176-189 | One list item per video, in order, with title "(Untitled)" and tag "unknown" as fallbacks. |
| Client.Rendered | frontend/app.js:162-174 | When nothing matches the trimmed search text, the list shows only the "No videos found." placeholder. Otherwise it shows one item per matching video, in order, and no placeholder. |
| Client.UploadPlan | frontend/app.js:263-276 | An upload makes four requests, all for the chosen file. It starts with upload-request, ends with the list refresh, and confirm-upload comes right after the PUT. |
| Client.HandleUpload | frontend/app.js:243-286 | An empty trimmed title sends no request and shows "Missing title", whether or not a file is chosen. A title without a file shows "Missing file". Otherwise the requests sent are a prefix of upload-request, PUT, confirm-upload, list, starting with upload-request. A failing request is the last one sent, and the run ends "Upload failed". The run ends "Upload complete" exactly when none fails, and then all four were sent. |
| Client.ConfirmFollowsSuccessfulPut | frontend/app.js:264-276 | confirm-upload is sent exactly when the upload-request and the PUT succeeded. The list is refreshed exactly when the confirmation also succeeded. |
| Client.BlobUploadResult | frontend/app.js:148-153 | The blob upload resolves exactly when the load status is in 200..299. A network error rejects with "Network error during blob upload". |
| Client.BlobUploadSuccessIs2xx | frontend/app.js:149-150 | Success means the status is in class 2xx (section 15.3 of RFC 9110). A rejection message carries the status's decimal digits. |
| Client.Page.SetStatus | frontend/app.js:31-37 | Text and hint are set, with a missing hint shown as "". A null progress leaves the bar unchanged. Any other progress sets the clamped width. |
| Client.Page.RenderVideos | frontend/app.js:162-231 | After the clear-and-append loop, the list element's children are exactly `Rendered(cachedVideos, searchValue)`. |
| Client.Page.RefreshList | frontend/app.js:236-241 | On success the cache is the fetched list, the list is re-rendered, and the status is "Idle" / "Loaded N videos." with width 0. On failure the cache and list are unchanged and the status stays "Loading videos...". |

## Left out

- HTTP plumbing is left out: Express routing, CORS and JSON middleware, the health route and starting or closing the server (backend/server.js:11-12, 48-54, 264-269). It has no effect on the stores.
- The storage and database SDK calls are left out. Only their effect on the two stores is modelled, and whether each throws is a `Faults` flag. The signature of a link is not modelled.
- The cached blob container client (backend/server.js:28-40) is left out. It is caching with no observable behaviour.
- Logging is left out. Environment variables appear only as strings, where "" stands for unset.
- Concurrent requests are left out. Each handler runs atomically, one after another, so last-write-wins interleavings of two upserts are not modelled.
- Request bodies are modelled as optional strings. A JSON field that is a number, a boolean or an object is not modelled.
- Upload and update times are integer milliseconds, and ISO-8601 strings are not modelled. The two clock readings confirm-upload takes (backend/server.js:150, 152) are treated as one instant. So are the two that upload-request takes: `Date.now()` for the link expiry (backend/server.js:65) and `new Date()` for uploadTime (backend/server.js:101). Records always carry an uploadTime.
- Server.Backend.ListVideos: the store's choice among records with equal upload times is left open. The ordered query is modelled as repeatedly taking a newest remaining record.
- Strings are sequences of Unicode scalar values, not of the UTF-16 code units JavaScript uses. So lone surrogates are not modelled, and neither is a length counted in UTF-16 units for characters outside the Basic Multilingual Plane.
- Sas.Escaped escapes only '%', '#', '?', '/', '\\', tab, LF and CR. The service is taken to decode every ASCII escape, "%2F" included, back to its character. The percent-encoding the browser applies to spaces and non-ASCII characters in a path, which the service decodes back, is taken as the identity. Decoding of multi-byte UTF-8 escapes is not modelled.
- Text.Lower: only the ASCII letters are lower-cased. Unicode case mappings beyond ASCII, including those that change length, are not modelled.
- Client.ClampProgress: progress is an integer. Fractional and NaN values and the rounding `Math.round(loaded/total*100)` (frontend/app.js:143) are not modelled.
- Client.HandleUpload: the status messages between steps are not modelled, and neither are the disabling of the button and the delayed reset to "Idle".
- The client transport is left out: `fetch`, `XMLHttpRequest`, `safeJsonParse` and the five API helpers (frontend/app.js:39-41, 58-126). Their results are parameters.
- Locale date formatting (`formatDate`, frontend/app.js:43-47) is left out. So is the text of each list item's sub-line, which depends on it.
- The download and delete click handlers of each list item (`window.open`, `confirm`, `setTimeout`) are left out.
- The test files under backend/test are left out. Their one extra promise is the health text "Video API is running".

## Findings

| source | as written | input that shows it | evidently intended | confidence | as-written member | corrected member |
|---|---|---|---|---|---|---|
| backend/server.js:70 | The file name goes into the URL path unescaped, and the client sends that URL as the PUT target (frontend/app.js:135). | fileName "clip#1.mp4": the '#' ends the path at `/videos/clip`, and the signature moves into the fragment, so the store refuses the PUT. A '?', '\\', tab, LF or CR in the name fails the same way, and so do download links. | The name percent-escaped in the path, so that every accepted file name other than "." and ".." can be uploaded and downloaded. | medium; not executed | Sas.BuildSasUrlAsWritten, with Sas.AsWrittenLinkMisses and ServerProperties.UnescapedUploadRefused | Sas.BuildSasUrl, with Sas.EscapedIsServed and ServerProperties.RoundTrip |
