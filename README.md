# NFC tag API: verified model of the store and the routes

This project models the server core of an Android app that receives NFC tag
reads and serves them over a local REST API. It has two layers:

- **the tag store** (`NfcDataStorage`): records keyed by id. `saveNfcTag`
  upserts a record, generating an id when the caller leaves it empty.
  `getNfcTag` looks one up. `deleteNfcTag` removes one and reports whether it
  existed. `clear` empties the store and `size` counts it. Four list queries
  (all records, exact serial number, tag type containing a text, location
  containing a text, both ignoring case) answer newest first.
- **the REST handlers** (`nfcRoutes`): nine endpoints under `/api`. Each makes
  one store call and answers with an HTTP status and an `ApiResponse` envelope
  (`success`, `message`, optional `data`).

The model also covers the record and envelope types with their default values
and JSON field names, and the bounded, newest-first activity log of the main
screen (`addLog`).

Modules, one per source file:

- `Models` (models.dfy): `NfcTagData.kt`.
- `Storage` (storage.dfy): `NfcDataStorage.kt`.
- `Routes` (routes.dfy): `NfcRoutes.kt`.
- `Activity` (activity.dfy): `addLog`, `LogEntry` and `LogType` from `MainActivity.kt`.
- `Text` (text.dfy) and `Wrappers` (wrappers.dfy) hold the string helpers and `Option`.

How the source's form is kept:

- The store is a class whose `storage` field is a `map<string, NfcTagResponse>`.
- `SaveNfcTag`, `DeleteNfcTag` and `Clear` are methods that reassign the map.
  Each states the whole new map and what happens to every other key.
- The list queries are methods. They walk the stored records in an
  unspecified order, like iterating `storage.values`. They keep the matching
  records and sort them with a stable insertion sort.
- Each query is proved against `IsListing`, which means two things. The result
  is newest first (`SortedByTimestampDesc`). Its multiset equals the set of
  stored records the query selects (`Matching`). So the result is a
  permutation of the matching records, with no record twice.
- The class invariant `Valid()` says every record is filed under its own id
  and has status "processed".
- The routes are methods over the store where the source's handler writes to
  it or calls a list query. `GET /tags/{id}` and `GET /status` are functions,
  because they only branch on a lookup.
- Requests arrive already routed, as the `Request` datatype. A body the JSON
  decoder rejects is `Unparseable` and carries the exception message. A
  missing path parameter is `None`.
- `addLog` is a method on a `MainActivity` class whose `logs` field is a
  sequence. It is specified by the function `WithNewest`.

Two behaviours of the code that a reader might not expect, both kept:

- POST `/read` does not check for empty fields. Its only 400 answer comes from
  the `catch` around decoding and saving. A tag read with an empty serial
  number is stored like any other.
- The timestamp is never filled in by the store. It is whatever the decoded
  tag read carries.
- A POST body that leaves out `id` gets 400, not 200. The JSON decoder does
  not apply the Kotlin default `""`, so the id is null and `saveNfcTag` throws
  at NfcDataStorage.kt:12. This covers a request carrying only `tag_type`,
  `serial_number`, `actual_date` and `location`. Only a body with `"id": ""`
  has an id generated.

## Model

| member | source | states |
|---|---|---|
| `Text.ContainsIgnoreCaseFrom` | app/src/main/java/com/example/nfc_kotlin/api/storage/NfcDataStorage.kt:41-47 | the scan from an offset succeeds exactly when the text occurs at some later offset with every character equal up to ASCII case |
| `Text.ContainsIgnoreCase` | app/src/main/java/com/example/nfc_kotlin/api/storage/NfcDataStorage.kt:41-47 | `contains(…, ignoreCase = true)` holds exactly when some offset matches character by character up to case; the empty text is contained in every string |
| `Text.NatToString` | app/src/main/java/com/example/nfc_kotlin/api/routes/NfcRoutes.kt:54 | the decimal rendering of a count is non-empty, all digits, without a leading zero |
| `Text.NatToStringRoundTrip` | app/src/main/java/com/example/nfc_kotlin/api/routes/NfcRoutes.kt:54 | reading the rendered digits back gives the count |
| `Models.ResponseDefaultStatus` | app/src/main/java/com/example/nfc_kotlin/api/models/NfcTagData.kt:29-43 | a record built without a status has status "processed" |
| `Models.TagDataDefaultId` | app/src/main/java/com/example/nfc_kotlin/api/models/NfcTagData.kt:5-7 | a tag read built without an id has id "", the value that makes the store generate one |
| `Models.ApiResponseDefaultData` | app/src/main/java/com/example/nfc_kotlin/api/models/NfcTagData.kt:20-26 | an envelope built without data carries none |
| `Models.RecordFieldNames` | app/src/main/java/com/example/nfc_kotlin/api/models/NfcTagData.kt:29-43 | the JSON names of a record are id, tag_type, serial_number, actual_date, location, timestamp, status, pairwise distinct |
| `Models.SerializedNameInjective` | app/src/main/java/com/example/nfc_kotlin/api/models/NfcTagData.kt:29-43 | two fields with the same JSON name are the same field |
| `Storage.InsertByTimestampDesc` | app/src/main/java/com/example/nfc_kotlin/api/storage/NfcDataStorage.kt:30 | insertion adds one element and puts either the new record or the old head first |
| `Storage.InsertKeepsSorted` | app/src/main/java/com/example/nfc_kotlin/api/storage/NfcDataStorage.kt:30 | inserting into a newest-first list keeps it newest first |
| `Storage.InsertIsPermutation` | app/src/main/java/com/example/nfc_kotlin/api/storage/NfcDataStorage.kt:30 | insertion adds exactly the new record to the multiset |
| `Storage.SortByTimestampDesc` | app/src/main/java/com/example/nfc_kotlin/api/storage/NfcDataStorage.kt:30 | sorting keeps the length |
| `Storage.SortIsSorted` | app/src/main/java/com/example/nfc_kotlin/api/storage/NfcDataStorage.kt:30 | `sortedByDescending { it.timestamp }` gives non-increasing timestamps |
| `Storage.SortIsPermutation` | app/src/main/java/com/example/nfc_kotlin/api/storage/NfcDataStorage.kt:30 | the sort is a permutation of its input |
| `Storage.StoreKey` | app/src/main/java/com/example/nfc_kotlin/api/storage/NfcDataStorage.kt:12 | the key is the caller's id when it is non-empty and the generated id otherwise |
| `Storage.BuildResponse` | app/src/main/java/com/example/nfc_kotlin/api/storage/NfcDataStorage.kt:13-20 | the built record carries the chosen id and the read's tag type, serial number, actual date, location and timestamp, with status "processed" |
| `Storage.ClampedSize` | app/src/main/java/com/example/nfc_kotlin/api/storage/NfcDataStorage.kt:53-55 | the map's size as an `Int`: the count when it fits, `Int.MAX_VALUE` otherwise |
| `Storage.ListingSoundAndComplete` | app/src/main/java/com/example/nfc_kotlin/api/storage/NfcDataStorage.kt:37-47 | every listed record is stored and selected by the query, and every stored selected record is listed |
| `Storage.ListingDistinct` | app/src/main/java/com/example/nfc_kotlin/api/storage/NfcDataStorage.kt:29-47 | a listing holds no record twice |
| `Storage.ListingAllLength` | app/src/main/java/com/example/nfc_kotlin/api/storage/NfcDataStorage.kt:29-31 | listing all records of a well-formed store gives as many records as there are keys |
| `Storage.TypeFilterIgnoresCase` | app/src/main/java/com/example/nfc_kotlin/api/storage/NfcDataStorage.kt:41-43 | the type query "nfca" selects a record of type "NfcA" and rejects one of type "Desfire" |
| `Storage.UpsertKeepsLastWrite` | app/src/main/java/com/example/nfc_kotlin/api/storage/NfcDataStorage.kt:11-23 | two `saveNfcTag` calls under one non-empty id leave, under that id, the record built from the second read, every other key as before, and the size the first save gave |
| `Storage.NfcDataStorage.constructor` | app/src/main/java/com/example/nfc_kotlin/api/storage/NfcDataStorage.kt:8-9 | a new store is empty and well formed |
| `Storage.NfcDataStorage.SaveNfcTag` | app/src/main/java/com/example/nfc_kotlin/api/storage/NfcDataStorage.kt:11-23 | files the built record under the caller's non-empty id or under a fresh generated id; the record carries the read's fields with status "processed"; lookup then returns it; every other key keeps its record; size grows by one exactly when the id was new |
| `Storage.NfcDataStorage.GetNfcTag` | app/src/main/java/com/example/nfc_kotlin/api/storage/NfcDataStorage.kt:25-27 | present exactly when the id is a key, with the record filed under it, whose id is that id |
| `Storage.NfcDataStorage.CollectMatching` | app/src/main/java/com/example/nfc_kotlin/api/storage/NfcDataStorage.kt:37-47 | the walk over the stored values keeps exactly the selected records, each once |
| `Storage.NfcDataStorage.Select` | app/src/main/java/com/example/nfc_kotlin/api/storage/NfcDataStorage.kt:29-47 | filter then sort gives a correct listing: newest first, a permutation of the selected records |
| `Storage.NfcDataStorage.GetAllNfcTags` | app/src/main/java/com/example/nfc_kotlin/api/storage/NfcDataStorage.kt:29-31 | every stored record once, newest first, as many as the map holds |
| `Storage.NfcDataStorage.GetTagsBySerialNumber` | app/src/main/java/com/example/nfc_kotlin/api/storage/NfcDataStorage.kt:37-39 | exactly the records whose serial number equals the argument, newest first |
| `Storage.NfcDataStorage.GetTagsByType` | app/src/main/java/com/example/nfc_kotlin/api/storage/NfcDataStorage.kt:41-43 | exactly the records whose tag type contains the argument ignoring case, newest first |
| `Storage.NfcDataStorage.GetTagsByLocation` | app/src/main/java/com/example/nfc_kotlin/api/storage/NfcDataStorage.kt:45-47 | exactly the records whose location contains the argument ignoring case, newest first |
| `Storage.NfcDataStorage.DeleteNfcTag` | app/src/main/java/com/example/nfc_kotlin/api/storage/NfcDataStorage.kt:33-35 | returns true exactly when the id was a key; afterwards it is absent, every other key keeps its record, and size drops by one exactly when it returned true |
| `Storage.NfcDataStorage.Clear` | app/src/main/java/com/example/nfc_kotlin/api/storage/NfcDataStorage.kt:49-51 | afterwards the store is empty, size is 0 and every lookup is absent |
| `Storage.NfcDataStorage.Size` | app/src/main/java/com/example/nfc_kotlin/api/storage/NfcDataStorage.kt:53-55 | between 0 and `Int.MAX_VALUE`, and the number of records whenever that fits |
| `Routes.StatusCode` | app/src/main/java/com/example/nfc_kotlin/api/routes/NfcRoutes.kt:26-264 | OK, BadRequest, NotFound and InternalServerError are exactly 200, 400, 404 and 500 |
| `Routes.ExceptionText` | app/src/main/java/com/example/nfc_kotlin/api/routes/NfcRoutes.kt:40 | `${e.message}` renders the message itself, or "null" when there is none |
| `Routes.ListMessage` | app/src/main/java/com/example/nfc_kotlin/api/routes/NfcRoutes.kt:54-177 | each list message starts with "Retrieved " or "Found " followed by the count's digits, ends with " NFC tags" or with the endpoint's phrase and its path argument, and is exactly as long as those three parts together |
| `Routes.HandlePostRead` | app/src/main/java/com/example/nfc_kotlin/api/routes/NfcRoutes.kt:19-44 | a decoded body is saved and answered 200 with the saved record as data; an undecodable body is 400 with the exception text, no data, and an unchanged store |
| `Routes.ListResponse` | app/src/main/java/com/example/nfc_kotlin/api/routes/NfcRoutes.kt:47-191 | a list endpoint answers 200 with a correct listing as data and a message holding its count |
| `Routes.HandleGetTags` | app/src/main/java/com/example/nfc_kotlin/api/routes/NfcRoutes.kt:47-68 | 200 with every stored record newest first, and "Retrieved N NFC tags" with N the number of records |
| `Routes.HandleGetTag` | app/src/main/java/com/example/nfc_kotlin/api/routes/NfcRoutes.kt:71-104 | 200 "Tag found" with the record exactly when the id is stored; 404 "Tag not found" otherwise; 400 "Missing tag ID" without an id |
| `Routes.HandleGetTagsBySerial` | app/src/main/java/com/example/nfc_kotlin/api/routes/NfcRoutes.kt:107-133 | 400 "Missing serial number" without the parameter, otherwise 200 with the serial-number listing |
| `Routes.HandleGetTagsByType` | app/src/main/java/com/example/nfc_kotlin/api/routes/NfcRoutes.kt:136-162 | 400 "Missing tag type" without the parameter, otherwise 200 with the type listing |
| `Routes.HandleGetTagsByLocation` | app/src/main/java/com/example/nfc_kotlin/api/routes/NfcRoutes.kt:165-191 | 400 "Missing location" without the parameter, otherwise 200 with the location listing |
| `Routes.HandleDeleteTag` | app/src/main/java/com/example/nfc_kotlin/api/routes/NfcRoutes.kt:194-223 | 200 when a record was removed, 404 when the id was absent, the id absent afterwards in both cases; 400 "Missing tag ID" and an unchanged store without an id |
| `Routes.HandleDeleteTags` | app/src/main/java/com/example/nfc_kotlin/api/routes/NfcRoutes.kt:226-243 | 200 and an empty store |
| `Routes.HandleGetStatus` | app/src/main/java/com/example/nfc_kotlin/api/routes/NfcRoutes.kt:246-272 | 200 "API is running" with status "running", `total_tags` equal to the store's size, and the given time |
| `Routes.Handle` | app/src/main/java/com/example/nfc_kotlin/api/routes/NfcRoutes.kt:16-273 | for every request, `success` is true exactly on 200 and an error carries no data; only a decoded POST and the two deletes change the store; a missing path parameter is 400 with that endpoint's message |
| `Routes.ReadFindDeleteScenario` | app/src/main/java/com/example/nfc_kotlin/api/routes/NfcRoutes.kt:19-223 | on a new store, POST of a read whose id is empty (a body with `"id": ""`) gives 200 with a "processed" record under the generated id; finding by its serial number gives 200 with exactly that record; deleting it gives 200; looking it up again gives 404 "Tag not found" |
| `Activity.WithNewest` | app/src/main/java/com/example/nfc_kotlin/MainActivity.kt:42-50 | the new entry is first; below 50 entries the log grows by one with the old entries after it; at 50 the oldest is dropped and the length stays 50; a log within the bound stays within it |
| `Activity.MainActivity.constructor` | app/src/main/java/com/example/nfc_kotlin/MainActivity.kt:40 | the log starts empty |
| `Activity.MainActivity.AddLog` | app/src/main/java/com/example/nfc_kotlin/MainActivity.kt:42-50 | the log becomes `WithNewest` of the old log and the new entry |

## Left out

- The 500 branches of the handlers are not modelled. Every store operation in
  the model is total, so nothing a modelled call does can throw. Failures
  while writing the response are network I/O.
- Gson is not modelled: no JSON text is decoded or encoded. A request body is
  given as either the decoded `NfcTagData` or the decoder's exception
  message. `RecordFieldNames` only fixes the JSON names of a record's fields.
  Gson does not apply Kotlin default arguments. A body without `timestamp`
  decodes to 0. If its id is present it is a `Parsed` input here, and the
  record is stored with timestamp 0. Missing fields also give three more ways
  to reach the POST handler's 400. Each is one of the `Unparseable` inputs
  here:
  - A body without `id` decodes to a null id, which makes `saveNfcTag` throw
    (NfcDataStorage.kt:12).
  - A body without `tag_type`, `serial_number`, `actual_date` or `location`
    decodes with that field null. The `NfcTagResponse` constructor's null
    check then throws (NfcDataStorage.kt:13-20) before `storage[id] = response`
    runs. The store is unchanged.
  - If `call.respond` fails in the POST handler (NfcRoutes.kt:26-33), the
    400 `catch` runs after the save has already happened. The model does not
    capture this case: there, a 400 always leaves the store unchanged.
- The logging line at NfcRoutes.kt:22 refers to `tagData.uid`, which
  `NfcTagData` does not have. It is logging only and is ignored, as are all
  `Log.d` and `Log.e` calls.
- `UUID.randomUUID()` is not modelled. It is the `freshId` argument, required
  to be non-empty and not a key when it is used.
- `System.currentTimeMillis()` is not modelled. It is the timestamp a tag read
  carries, or the `now` argument of the status endpoint.
- `SimpleDateFormat` is not modelled. It is the timestamp string passed to `AddLog`.
- The thread safety of `ConcurrentHashMap` is not modelled. The store is
  sequential, and each operation is one atomic step.
- The process-wide singleton `NfcDataStorageInstance` is not modelled. The
  store object is passed to each handler.
- Ktor route matching and precedence are not modelled. Requests arrive already
  dispatched.
- Text.ContainsIgnoreCase folds case for ASCII letters only. Kotlin's
  `ignoreCase` folds all of Unicode, so non-ASCII letters may match in the
  source and not in the model.
- Storage.SortByTimestampDesc: the sort is stable, but no lemma states that
  equal timestamps keep their input order. The input order, the map's
  iteration order, is unspecified anyway.
- The status map's JSON serialization is not modelled. It becomes the `Stats`
  payload with the same three keys.
- KtorServer.kt is not part of this model: server start and stop, CORS,
  content negotiation and call logging.
- NfcModule.kt is not part of this model. It is platform NFC dispatch, the hex
  formatting of the UID, and the outbound OkHttp request.
- Not modelled from MainActivity.kt: the Compose screens, the previews, the
  lifecycle hooks, and the observable-state behaviour of `mutableStateListOf`.
