/**
 * The records exchanged by the tag API: the tag read a client posts, the
 * record the store keeps and returns, and the envelope every endpoint
 * answers with. Kotlin's default argument values become Dafny default
 * parameter values, so a constructor call that leaves them out gets the same
 * value the source does.
 */
module Models {
  import opened Wrappers

  /** Kotlin's `Long`: a signed 64-bit integer (milliseconds since the epoch here). */
  newtype Long = x: int | -0x8000_0000_0000_0000 <= x < 0x8000_0000_0000_0000

  /** The status every stored record gets; callers cannot choose it. */
  const ProcessedStatus: string := "processed"

  /**
   * A tag read as posted to `/api/read`. The id defaults to the empty string,
   * which asks the store to generate one. The source's other default, the
   * timestamp `System.currentTimeMillis()`, reads a clock; here the caller
   * always passes the timestamp.
   */
  datatype NfcTagData = NfcTagData(
    id: string := "",
    tagType: string,
    serialNumber: string,
    actualDate: string,
    location: string,
    timestamp: Long)

  /** A stored record, as the store returns it. */
  datatype NfcTagResponse = NfcTagResponse(
    id: string,
    tagType: string,
    serialNumber: string,
    actualDate: string,
    location: string,
    timestamp: Long,
    status: string := ProcessedStatus)

  /**
   * What an envelope's `data` can hold: one record, a list of records, or the
   * `/api/status` map with its three keys `status`, `total_tags` and `timestamp`.
   */
  datatype Payload =
    | Tag(tag: NfcTagResponse)
    | Tags(tags: seq<NfcTagResponse>)
    | Stats(status: string, totalTags: int, timestamp: Long)

  /** The response envelope; `data` defaults to null. */
  datatype ApiResponse = ApiResponse(
    success: bool,
    message: string,
    data: Option<Payload> := None)

  /** A record built without an explicit status is "processed". */
  lemma ResponseDefaultStatus(id: string, tagType: string, serialNumber: string,
                              actualDate: string, location: string, timestamp: Long)
    ensures NfcTagResponse(id, tagType, serialNumber, actualDate, location, timestamp).status == "processed"
  {
  }

  /** A tag read built without an id has the empty id, the value that asks for a generated one. */
  lemma TagDataDefaultId(tagType: string, serialNumber: string, actualDate: string,
                         location: string, timestamp: Long)
    ensures NfcTagData(tagType := tagType, serialNumber := serialNumber, actualDate := actualDate,
                       location := location, timestamp := timestamp).id == ""
  {
  }

  /** An envelope built without data carries none. */
  lemma ApiResponseDefaultData(success: bool, message: string)
    ensures ApiResponse(success, message).data == None
  {
  }

  /** The fields of a stored record, in declaration order. */
  datatype RecordField = IdField | TagTypeField | SerialNumberField | ActualDateField
                       | LocationField | TimestampField | StatusField

  /** The JSON name each record field is serialized under. */
  function SerializedName(f: RecordField): string
  {
    match f
    case IdField => "id"
    case TagTypeField => "tag_type"
    case SerialNumberField => "serial_number"
    case ActualDateField => "actual_date"
    case LocationField => "location"
    case TimestampField => "timestamp"
    case StatusField => "status"
  }

  /** The JSON names of a record, in declaration order, all different. */
  function RecordFieldNames(): (names: seq<string>)
    ensures |names| == 7
    ensures forall i, j :: 0 <= i < j < |names| ==> names[i] != names[j]
    ensures names[0] == "id" && names[1] == "tag_type" && names[2] == "serial_number"
    ensures names[3] == "actual_date" && names[4] == "location" && names[5] == "timestamp"
    ensures names[6] == "status"
  {
    [SerializedName(IdField), SerializedName(TagTypeField), SerializedName(SerialNumberField),
     SerializedName(ActualDateField), SerializedName(LocationField), SerializedName(TimestampField),
     SerializedName(StatusField)]
  }

  /** No two record fields share a JSON name, so a serialized record loses no field. */
  lemma SerializedNameInjective(f: RecordField, g: RecordField)
    requires SerializedName(f) == SerializedName(g)
    ensures f == g
  {
  }
}
