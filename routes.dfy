/**
 * The REST layer under `/api`: each endpoint makes one store call and wraps
 * the outcome in an `ApiResponse` envelope with an HTTP status. Requests
 * arrive already routed; a body the JSON decoder rejects and a missing path
 * parameter are part of the request value, the generated UUID and the clock
 * are arguments.
 */
module Routes {
  import opened Wrappers
  import opened Models
  import opened Storage
  import Text

  /** The HTTP statuses the endpoints answer with. */
  datatype HttpStatus = OK | BadRequest | NotFound | InternalServerError

  /** The numeric code of a status. */
  function StatusCode(s: HttpStatus): (code: int)
    ensures code == 200 <==> s == OK
    ensures code == 400 <==> s == BadRequest
    ensures code == 404 <==> s == NotFound
    ensures code == 500 <==> s == InternalServerError
  {
    match s
    case OK => 200
    case BadRequest => 400
    case NotFound => 404
    case InternalServerError => 500
  }

  /** A status and the envelope sent with it. */
  datatype Response = Response(status: HttpStatus, body: ApiResponse)

  /**
   * The outcome of `call.receive<NfcTagData>()`: the decoded tag read, or the
   * decoder's exception with its message (Kotlin's `e.message`, possibly null).
   */
  datatype Received = Parsed(tagData: NfcTagData) | Unparseable(errorMessage: Option<string>)

  /** A request that routing has already matched to one of the nine endpoints. */
  datatype Request =
    | PostRead(body: Received)
    | GetTags
    | GetTag(id: Option<string>)
    | GetTagsBySerial(serialNumber: Option<string>)
    | GetTagsByType(tagType: Option<string>)
    | GetTagsByLocation(location: Option<string>)
    | DeleteTag(id: Option<string>)
    | DeleteTags
    | GetStatus

  /** How a string template renders a nullable message: null becomes "null". */
  function ExceptionText(message: Option<string>): (text: string)
    ensures message.Some? ==> text == message.value
    ensures message.None? ==> text == "null"
  {
    match message
    case Some(s) => s
    case None => "null"
  }

  /** A successful envelope. */
  function Success(message: string, data: Option<Payload>): Response
  {
    Response(OK, ApiResponse(true, message, data))
  }

  /** An error envelope, built without data as every error in the routes is. */
  function Failure(status: HttpStatus, message: string): Response
  {
    Response(status, ApiResponse(success := false, message := message))
  }

  /** The envelope agrees with the status: success exactly on 200, and no data on an error. */
  predicate WellShaped(resp: Response)
  {
    && (resp.body.success <==> resp.status == OK)
    && (resp.status != OK ==> resp.body.data == None)
  }

  /** `s` ends with `suffix`. */
  predicate EndsWith(s: string, suffix: string)
  {
    |suffix| <= |s| && s[|s| - |suffix|..] == suffix
  }

  /** The message of a list endpoint, with the number of records found. */
  function ListMessage(q: Query, count: nat): (msg: string)
    ensures var n := Text.NatToString(count);
            var lead := if q.AllTags? then "Retrieved " else "Found ";
            && |lead| + |n| <= |msg|
            && msg[..|lead|] == lead
            && msg[|lead|..|lead| + |n|] == n
    ensures q.BySerialNumber? ==> EndsWith(msg, " tags with serial: " + q.serialNumber)
    ensures q.ByType? ==> EndsWith(msg, " tags with type: " + q.tagType)
    ensures q.ByLocation? ==> EndsWith(msg, " tags from location: " + q.location)
    ensures q.AllTags? ==> EndsWith(msg, " NFC tags")
    ensures var n := |Text.NatToString(count)|;
            match q
            case AllTags => |msg| == |"Retrieved "| + n + |" NFC tags"|
            case BySerialNumber(s) => |msg| == |"Found "| + n + |" tags with serial: " + s|
            case ByType(t) => |msg| == |"Found "| + n + |" tags with type: " + t|
            case ByLocation(l) => |msg| == |"Found "| + n + |" tags from location: " + l|
  {
    var n := Text.NatToString(count);
    var lead := if q.AllTags? then "Retrieved " else "Found ";
    var tail := match q
      case AllTags => " NFC tags"
      case BySerialNumber(s) => " tags with serial: " + s
      case ByType(t) => " tags with type: " + t
      case ByLocation(l) => " tags from location: " + l;
    ThreeParts(lead, n, tail);
    lead + n + tail
  }

  /** The pieces of a three-part concatenation can be read back at their places. */
  lemma ThreeParts(a: string, b: string, c: string)
    ensures (a + b + c)[..|a|] == a
    ensures (a + b + c)[|a|..|a| + |b|] == b
    ensures EndsWith(a + b + c, c)
  {
    var m := a + b + c;
    assert m[..|a|] == a;
    assert m[|a|..|a| + |b|] == b;
    assert m[|m| - |c|..] == c;
  }

  /** A 200 envelope whose data is a correct listing for the query, under the list message. */
  ghost predicate IsListResponse(resp: Response, m: map<string, NfcTagResponse>, q: Query)
  {
    && resp.status == OK && resp.body.success
    && resp.body.data.Some? && resp.body.data.value.Tags?
    && IsListing(resp.body.data.value.tags, m, q)
    && resp.body.message == ListMessage(q, |resp.body.data.value.tags|)
  }

  /** POST /read: store the decoded tag read and return it; a body that does not decode is a 400. */
  method HandlePostRead(storage: NfcDataStorage, body: Received, freshId: string) returns (resp: Response)
    requires storage.Valid()
    requires body.Parsed? ==> FreshFor(storage.storage, body.tagData, freshId)
    modifies storage
    ensures storage.Valid() && WellShaped(resp)
    ensures body.Parsed? ==>
              var saved := BuildResponse(body.tagData, StoreKey(body.tagData, freshId));
              && storage.storage == old(storage.storage)[saved.id := saved]
              && storage.GetNfcTag(saved.id) == Some(saved)
              && resp == Success("NFC tag processed successfully", Some(Tag(saved)))
    ensures body.Unparseable? ==>
              && storage.storage == old(storage.storage)
              && resp == Failure(BadRequest, "Error processing NFC tag: " + ExceptionText(body.errorMessage))
  {
    match body
    case Unparseable(message) =>
      resp := Failure(BadRequest, "Error processing NFC tag: " + ExceptionText(message));
    case Parsed(tagData) =>
      var saved := storage.SaveNfcTag(tagData, freshId);
      resp := Success("NFC tag processed successfully", Some(Tag(saved)));
  }

  /** The common tail of the four list endpoints: run the store query, answer 200 with the list. */
  method ListResponse(storage: NfcDataStorage, q: Query) returns (resp: Response)
    requires storage.Valid()
    ensures WellShaped(resp) && IsListResponse(resp, storage.storage, q)
  {
    var tags: seq<NfcTagResponse>;
    match q {
      case AllTags => tags := storage.GetAllNfcTags();
      case BySerialNumber(s) => tags := storage.GetTagsBySerialNumber(s);
      case ByType(t) => tags := storage.GetTagsByType(t);
      case ByLocation(l) => tags := storage.GetTagsByLocation(l);
    }
    resp := Success(ListMessage(q, |tags|), Some(Tags(tags)));
  }

  /** GET /tags: every stored record, newest first, and their number in the message. */
  method HandleGetTags(storage: NfcDataStorage) returns (resp: Response)
    requires storage.Valid()
    ensures WellShaped(resp) && IsListResponse(resp, storage.storage, AllTags)
    ensures |resp.body.data.value.tags| == |storage.storage|
    ensures resp.body.message == "Retrieved " + Text.NatToString(|storage.storage|) + " NFC tags"
  {
    resp := ListResponse(storage, AllTags);
    ListingAllLength(resp.body.data.value.tags, storage.storage);
  }

  /** GET /tags/{id}: the record with 200 "Tag found", 404 "Tag not found", or 400 without an id. */
  function HandleGetTag(storage: NfcDataStorage, id: Option<string>): (resp: Response)
    reads storage
    ensures WellShaped(resp)
    ensures resp.status == OK <==> id.Some? && id.value in storage.storage
    ensures resp.status == OK ==>
              resp.body.message == "Tag found" && resp.body.data == Some(Tag(storage.storage[id.value]))
    ensures id.None? ==> resp == Failure(BadRequest, "Missing tag ID")
    ensures id.Some? && id.value !in storage.storage ==> resp == Failure(NotFound, "Tag not found")
  {
    match id
    case None => Failure(BadRequest, "Missing tag ID")
    case Some(key) =>
      match storage.GetNfcTag(key)
      case Some(tag) => Success("Tag found", Some(Tag(tag)))
      case None => Failure(NotFound, "Tag not found")
  }

  /** GET /tags/serial/{serialNumber}: the records with exactly that serial number. */
  method HandleGetTagsBySerial(storage: NfcDataStorage, serialNumber: Option<string>) returns (resp: Response)
    requires storage.Valid()
    ensures WellShaped(resp)
    ensures serialNumber.None? ==> resp == Failure(BadRequest, "Missing serial number")
    ensures serialNumber.Some? ==> IsListResponse(resp, storage.storage, BySerialNumber(serialNumber.value))
  {
    match serialNumber
    case None => resp := Failure(BadRequest, "Missing serial number");
    case Some(s) => resp := ListResponse(storage, BySerialNumber(s));
  }

  /** GET /tags/type/{tagType}: the records whose type contains the text, ignoring case. */
  method HandleGetTagsByType(storage: NfcDataStorage, tagType: Option<string>) returns (resp: Response)
    requires storage.Valid()
    ensures WellShaped(resp)
    ensures tagType.None? ==> resp == Failure(BadRequest, "Missing tag type")
    ensures tagType.Some? ==> IsListResponse(resp, storage.storage, ByType(tagType.value))
  {
    match tagType
    case None => resp := Failure(BadRequest, "Missing tag type");
    case Some(t) => resp := ListResponse(storage, ByType(t));
  }

  /** GET /tags/location/{location}: the records whose location contains the text, ignoring case. */
  method HandleGetTagsByLocation(storage: NfcDataStorage, location: Option<string>) returns (resp: Response)
    requires storage.Valid()
    ensures WellShaped(resp)
    ensures location.None? ==> resp == Failure(BadRequest, "Missing location")
    ensures location.Some? ==> IsListResponse(resp, storage.storage, ByLocation(location.value))
  {
    match location
    case None => resp := Failure(BadRequest, "Missing location");
    case Some(l) => resp := ListResponse(storage, ByLocation(l));
  }

  /** DELETE /tags/{id}: 200 when a record was removed, 404 when there was none; either way it is gone. */
  method HandleDeleteTag(storage: NfcDataStorage, id: Option<string>) returns (resp: Response)
    requires storage.Valid()
    modifies storage
    ensures storage.Valid() && WellShaped(resp)
    ensures id.None? ==> storage.storage == old(storage.storage) && resp == Failure(BadRequest, "Missing tag ID")
    ensures id.Some? ==>
              && storage.storage == old(storage.storage) - {id.value}
              && storage.GetNfcTag(id.value) == None
              && (id.value in old(storage.storage) ==> resp == Success("Tag deleted successfully", None))
              && (id.value !in old(storage.storage) ==> resp == Failure(NotFound, "Tag not found"))
  {
    match id
    case None =>
      resp := Failure(BadRequest, "Missing tag ID");
    case Some(key) =>
      var deleted := storage.DeleteNfcTag(key);
      if deleted {
        resp := Success("Tag deleted successfully", None);
      } else {
        resp := Failure(NotFound, "Tag not found");
      }
  }

  /** DELETE /tags: empties the store. */
  method HandleDeleteTags(storage: NfcDataStorage) returns (resp: Response)
    requires storage.Valid()
    modifies storage
    ensures storage.Valid() && WellShaped(resp)
    ensures storage.storage == map[] && storage.Size() == 0
    ensures resp == Success("All tags cleared successfully", None)
  {
    storage.Clear();
    resp := Success("All tags cleared successfully", None);
  }

  /** GET /status: "running", the record count and the current time. */
  function HandleGetStatus(storage: NfcDataStorage, now: Long): (resp: Response)
    reads storage
    ensures WellShaped(resp) && resp.status == OK
    ensures resp.body.message == "API is running"
    ensures resp.body.data.Some? && resp.body.data.value.Stats?
    ensures resp.body.data.value.status == "running" && resp.body.data.value.timestamp == now
    ensures resp.body.data.value.totalTags == storage.Size()
    ensures |storage.storage| <= IntMaxValue ==> resp.body.data.value.totalTags == |storage.storage|
  {
    Success("API is running", Some(Stats(status := "running", totalTags := storage.Size(), timestamp := now)))
  }

  /** The requests that can change the store: a decoded POST and the two deletes with their inputs. */
  predicate MayWrite(req: Request)
  {
    || (req.PostRead? && req.body.Parsed?)
    || (req.DeleteTag? && req.id.Some?)
    || req.DeleteTags?
  }

  /** The requests whose path parameter is missing. */
  predicate MissingParameter(req: Request)
  {
    || (req.GetTag? && req.id.None?)
    || (req.GetTagsBySerial? && req.serialNumber.None?)
    || (req.GetTagsByType? && req.tagType.None?)
    || (req.GetTagsByLocation? && req.location.None?)
    || (req.DeleteTag? && req.id.None?)
  }

  /** The message each endpoint gives for its missing path parameter. */
  function MissingMessage(req: Request): string
    requires MissingParameter(req)
  {
    match req
    case GetTagsBySerial(_) => "Missing serial number"
    case GetTagsByType(_) => "Missing tag type"
    case GetTagsByLocation(_) => "Missing location"
    case _ => "Missing tag ID"
  }

  /**
   * The route table: hands a request to its endpoint. Whatever the request,
   * the envelope agrees with the status; only the writing requests change
   * the store; a missing path parameter is a 400 with that endpoint's message.
   */
  method Handle(storage: NfcDataStorage, req: Request, freshId: string, now: Long) returns (resp: Response)
    requires storage.Valid()
    requires req.PostRead? && req.body.Parsed? ==> FreshFor(storage.storage, req.body.tagData, freshId)
    modifies storage
    ensures storage.Valid() && WellShaped(resp)
    ensures !MayWrite(req) ==> storage.storage == old(storage.storage)
    ensures MissingParameter(req) ==> resp == Failure(BadRequest, MissingMessage(req))
    ensures req.DeleteTags? ==> storage.storage == map[]
    ensures req.DeleteTag? && req.id.Some? ==> req.id.value !in storage.storage
    ensures req.GetStatus? ==> resp.status == OK
  {
    match req
    case PostRead(body) => resp := HandlePostRead(storage, body, freshId);
    case GetTags => resp := HandleGetTags(storage);
    case GetTag(id) => resp := HandleGetTag(storage, id);
    case GetTagsBySerial(s) => resp := HandleGetTagsBySerial(storage, s);
    case GetTagsByType(t) => resp := HandleGetTagsByType(storage, t);
    case GetTagsByLocation(l) => resp := HandleGetTagsByLocation(storage, l);
    case DeleteTag(id) => resp := HandleDeleteTag(storage, id);
    case DeleteTags => resp := HandleDeleteTags(storage);
    case GetStatus => resp := HandleGetStatus(storage, now);
  }

  /**
   * A client run of the endpoints on a new store: save a read whose id is
   * empty (a body with `"id": ""`),
   * find it by serial number, delete it, and look it up again.
   */
  method ReadFindDeleteScenario(freshId: string, now: Long)
    returns (posted: Response, found: Response, deleted: Response, lookup: Response)
    requires freshId != ""
    ensures posted.status == OK && posted.body.success
    ensures posted.body.data.Some? && posted.body.data.value.Tag?
    ensures posted.body.data.value.tag.id == freshId && posted.body.data.value.tag.status == "processed"
    ensures found.status == OK && found.body.data == Some(Tags([posted.body.data.value.tag]))
    ensures deleted == Success("Tag deleted successfully", None)
    ensures lookup == Failure(NotFound, "Tag not found")
  {
    var storage := new NfcDataStorage();
    var tag := NfcTagData(tagType := "NfcA", serialNumber := "04A1B2C3",
                          actualDate := "2024-01-15 12:34:56", location := "Mobile Device",
                          timestamp := now);
    posted := HandlePostRead(storage, Parsed(tag), freshId);
    var saved := posted.body.data.value.tag;

    found := HandleGetTagsBySerial(storage, Some("04A1B2C3"));
    var tags := found.body.data.value.tags;
    assert Matching(storage.storage, BySerialNumber("04A1B2C3")) == {saved};
    assert |multiset(tags)| == 1;
    assert tags[0] in multiset(tags);
    assert tags == [saved];

    deleted := HandleDeleteTag(storage, Some(saved.id));
    lookup := HandleGetTag(storage, Some(saved.id));
  }
}
