/**
 * The HTTP endpoints of the server: creating, listing and deactivating API
 * keys, and the background-removal endpoint with its download filename.
 * Routing, CORS and the database session lifecycle are not modelled; the
 * endpoints act directly on an `ApiKeyTable`.
 */
module Api {
  import opened Wrappers
  import opened Text
  import opened Imaging
  import opened Database
  import opened Auth
  import opened Remover

  const BadRequest := 400
  const NotFound := 404
  const InternalError := 500

  const CreateFailed := "Error creating API key: "
  const DeactivateFailed := "Error deactivating API key: "
  const KeyNotFound := "API key not found"
  const DeactivatedMessage := "API key deactivated successfully"
  /** The database's complaint when a generated key is already stored. */
  const DuplicateKey := "UNIQUE constraint failed: api_keys.key"

  /** The JSON shape of a key record: `is_active` becomes a boolean. */
  datatype ApiKeyResponse = ApiKeyResponse(
    id: nat,
    key: string,
    name: string,
    createdAt: Time,
    lastUsed: Option<Time>,
    usageCount: nat,
    isActive: bool)

  /** Every column is copied; the record is reported active exactly when the stored string is "true". */
  function ToResponse(rec: ApiKey): (r: ApiKeyResponse)
    ensures r.id == rec.id && r.key == rec.key && r.name == rec.name && r.createdAt == rec.createdAt
    ensures r.lastUsed == rec.lastUsed && r.usageCount == rec.usageCount
    ensures r.isActive <==> rec.isActive == "true"
  {
    ApiKeyResponse(rec.id, rec.key, rec.name, rec.createdAt, rec.lastUsed, rec.usageCount, rec.isActive == "true")
  }

  /** Any value other than the exact string "true" reads as inactive, "True" and "1" included. */
  lemma OnlyTrueIsActive()
    ensures !ToResponse(ApiKey(1, "k", "n", 0, None, 0, "True")).isActive
    ensures !ToResponse(ApiKey(1, "k", "n", 0, None, 0, "1")).isActive
    ensures !ToResponse(ApiKey(1, "k", "n", 0, None, 0, "false")).isActive
  {
    assert "True"[0] != "true"[0];
  }

  // ---------------------------------------------------------------- exception text

  function Digit(d: nat): char
    requires d < 10
  {
    "0123456789"[d]
  }

  function Decimal(n: nat): string
    decreases n
  {
    if n < 10 then [Digit(n)] else Decimal(n / 10) + [Digit(n % 10)]
  }

  /** `str()` of an `HTTPException`: the status code, a colon, and the detail. */
  function ExceptionText(e: HttpError): string {
    Decimal(e.status) + ": " + e.detail
  }

  lemma NotFoundText()
    ensures ExceptionText(HttpError(NotFound, KeyNotFound)) == "404: API key not found"
  {
    assert Decimal(4) == "4";
    assert Decimal(40) == "40";
    assert Decimal(404) == "404";
  }

  // ---------------------------------------------------------------- create

  datatype Creation = Creation(result: Result<ApiKeyResponse, HttpError>, rows: seq<ApiKey>, nextId: nat)

  /**
   * `create_api_key` on the table: a new row with the next id, the generated
   * key, the given name and defaults elsewhere. A key that is already stored
   * makes the insert fail; the error is reported as 500 and nothing is added.
   */
  function Create(rows: seq<ApiKey>, nextId: nat, name: string, token: string, now: Time): (c: Creation)
    ensures c.result.Ok? <==> FindByKey(rows, GenerateApiKey(token)).None?
    ensures c.result.Err? ==>
      c.result.error == HttpError(InternalError, CreateFailed + DuplicateKey)
      && c.rows == rows && c.nextId == nextId
    ensures c.result.Ok? ==>
      |c.rows| == |rows| + 1 && c.rows[..|rows|] == rows && c.nextId == nextId + 1
      && c.rows[|rows|].id == nextId
      && c.result.value == ToResponse(c.rows[|rows|])
      && c.result.value.name == name && c.result.value.key == GenerateApiKey(token)
      && StartsWith(c.result.value.key, KeyPrefix)
      && c.result.value.usageCount == 0 && c.result.value.isActive && c.result.value.lastUsed.None?
  {
    var key := GenerateApiKey(token);
    if FindByKey(rows, key).Some? then
      Creation(Err(HttpError(InternalError, CreateFailed + DuplicateKey)), rows, nextId)
    else
      var rec := NewApiKey(nextId, key, name, now);
      assert (rows + [rec])[..|rows|] == rows;
      Creation(Ok(ToResponse(rec)), rows + [rec], nextId + 1)
  }

  lemma CreateKeepsTableValid(rows: seq<ApiKey>, nextId: nat, name: string, token: string, now: Time)
    requires TableValid(rows, nextId)
    ensures var c := Create(rows, nextId, name, token, now); TableValid(c.rows, c.nextId)
  {
    var c := Create(rows, nextId, name, token, now);
    if c.result.Ok? {
      assert c.rows == rows + [c.rows[|rows|]];
    }
  }

  /** A key just created is accepted by validation, which then counts its first use. */
  lemma CreatedKeyAuthenticates(rows: seq<ApiKey>, nextId: nat, name: string, token: string, now: Time, later: Time)
    requires TableValid(rows, nextId)
    requires Create(rows, nextId, name, token, now).result.Ok?
    ensures var c := Create(rows, nextId, name, token, now);
      var v := Authenticate(c.rows, GenerateApiKey(token), later);
      v.outcome.Ok? && v.outcome.value.usageCount == 1 && v.outcome.value.lastUsed == Some(later)
      && v.outcome.value.name == name
  {
    var c := Create(rows, nextId, name, token, now);
    CreateKeepsTableValid(rows, nextId, name, token, now);
    FindsTheKeyHolder(c.rows, |rows|);
  }

  method CreateApiKey(db: ApiKeyTable, name: string, token: string, now: Time)
    returns (r: Result<ApiKeyResponse, HttpError>)
    requires db.Valid()
    modifies db
    ensures db.Valid()
    ensures Creation(r, db.rows, db.nextId) == Create(old(db.rows), old(db.nextId), name, token, now)
  {
    var key := GenerateApiKey(token);
    var clash := FindByKey(db.rows, key);
    if clash.Some? {
      return Err(HttpError(InternalError, CreateFailed + DuplicateKey));
    }
    CreateKeepsTableValid(db.rows, db.nextId, name, token, now);
    var rec := NewApiKey(db.nextId, key, name, now);
    db.rows := db.rows + [rec];
    db.nextId := db.nextId + 1;
    r := Ok(ToResponse(rec));
  }

  // ---------------------------------------------------------------- list

  /** `list_api_keys`: one response per stored row, in query order. */
  method ListApiKeys(db: ApiKeyTable) returns (out: seq<ApiKeyResponse>)
    ensures |out| == |db.rows|
    ensures forall i :: 0 <= i < |out| ==> out[i] == ToResponse(db.rows[i])
  {
    out := [];
    for i := 0 to |db.rows|
      invariant |out| == i
      invariant forall k :: 0 <= k < i ==> out[k] == ToResponse(db.rows[k])
    {
      out := out + [ToResponse(db.rows[i])];
    }
  }

  // ---------------------------------------------------------------- deactivate

  /** `filter(APIKey.id == api_key_id).first()`: the index of the first record with that id. */
  function FindById(rows: seq<ApiKey>, id: int): (r: Option<nat>)
    ensures r.Some? ==> r.value < |rows| && rows[r.value].id == id
    ensures r.Some? ==> forall j :: 0 <= j < r.value ==> rows[j].id != id
    ensures r.None? <==> forall j :: 0 <= j < |rows| ==> rows[j].id != id
  {
    FirstWhere(rows, (rec: ApiKey) => rec.id == id)
  }

  datatype Deactivation = Deactivation(result: Result<string, HttpError>, rows: seq<ApiKey>)

  /**
   * `deactivate_api_key`: the record with that id gets "false". The 404 for an
   * unknown id is raised inside the `try` and comes back as a 500 whose detail
   * carries the 404's text.
   */
  function Deactivate(rows: seq<ApiKey>, id: int): (d: Deactivation)
    ensures FindById(rows, id).None? ==>
      d == Deactivation(Err(HttpError(InternalError, DeactivateFailed + ExceptionText(HttpError(NotFound, KeyNotFound)))), rows)
    ensures FindById(rows, id).Some? ==>
      var i := FindById(rows, id).value;
      d.result == Ok(DeactivatedMessage)
      && |d.rows| == |rows| && d.rows[i].isActive == "false"
      && d.rows[i] == rows[i].(isActive := "false")
      && forall j :: 0 <= j < |rows| && j != i ==> d.rows[j] == rows[j]
  {
    match FindById(rows, id)
    case None =>
      Deactivation(Err(HttpError(InternalError, DeactivateFailed + ExceptionText(HttpError(NotFound, KeyNotFound)))), rows)
    case Some(i) =>
      Deactivation(Ok(DeactivatedMessage), rows[i := rows[i].(isActive := "false")])
  }

  /** The failure detail reads "Error deactivating API key: 404: API key not found". */
  lemma UnknownIdDetail(rows: seq<ApiKey>, id: int)
    requires FindById(rows, id).None?
    ensures Deactivate(rows, id).result == Err(HttpError(500, "Error deactivating API key: 404: API key not found"))
  {
    NotFoundText();
    assert DeactivateFailed + "404: API key not found" == "Error deactivating API key: 404: API key not found";
  }

  /** Changing anything but ids leaves the id lookup where it was. */
  lemma {:induction false} FindByIdSameIds(a: seq<ApiKey>, b: seq<ApiKey>, id: int)
    requires |a| == |b| && forall j :: 0 <= j < |a| ==> a[j].id == b[j].id
    ensures FindById(a, id) == FindById(b, id)
  {
    if a != [] {
      FindByIdSameIds(a[1..], b[1..], id);
    }
  }

  /** Deactivating twice reports success twice and leaves the same table as deactivating once. */
  lemma DeactivateIdempotent(rows: seq<ApiKey>, id: int)
    ensures var once := Deactivate(rows, id);
      Deactivate(once.rows, id) == once
  {
    var once := Deactivate(rows, id);
    FindByIdSameIds(rows, once.rows, id);
    if FindById(rows, id).Some? {
      var i := FindById(rows, id).value;
      assert once.rows[i := once.rows[i].(isActive := "false")] == once.rows;
    }
  }

  lemma DeactivateKeepsTableValid(rows: seq<ApiKey>, nextId: nat, id: int)
    requires TableValid(rows, nextId)
    ensures TableValid(Deactivate(rows, id).rows, nextId)
  {
  }

  /** Once deactivated, the record's key is refused as inactive, without being counted. */
  lemma DeactivatedKeyRejected(rows: seq<ApiKey>, nextId: nat, id: int, now: Time)
    requires TableValid(rows, nextId) && FindById(rows, id).Some?
    ensures var after := Deactivate(rows, id).rows;
      var key := rows[FindById(rows, id).value].key;
      Authenticate(after, key, now) == Validation(Err(HttpError(Unauthorized, InactiveKey)), after)
  {
    var i := FindById(rows, id).value;
    var after := Deactivate(rows, id).rows;
    DeactivateKeepsTableValid(rows, nextId, id);
    FindsTheKeyHolder(after, i);
  }

  method DeactivateApiKey(db: ApiKeyTable, id: int) returns (r: Result<string, HttpError>)
    requires db.Valid()
    modifies db
    ensures db.Valid()
    ensures Deactivation(r, db.rows) == Deactivate(old(db.rows), id)
    ensures db.nextId == old(db.nextId)
  {
    var found := FindById(db.rows, id);
    if found.None? {
      return Err(HttpError(InternalError, DeactivateFailed + ExceptionText(HttpError(NotFound, KeyNotFound))));
    }
    DeactivateKeepsTableValid(db.rows, db.nextId, id);
    db.rows := db.rows[found.value := db.rows[found.value].(isActive := "false")];
    r := Ok(DeactivatedMessage);
  }

  // ---------------------------------------------------------------- remove-background

  const ProcessingFailed := "Processing failed"
  const InvalidImage := "Invalid image file"
  const InvalidImageDetails := "Please upload a valid image file (JPEG, PNG, etc.)"
  const RemovedMessage := "Background removed successfully"
  const PngDataUrlPrefix := "data:image/png;base64,"
  /** What the call to the absent `validate_image` raises. */
  const MissingValidator := "'BackgroundRemover' object has no attribute 'validate_image'"
  /** What `base64.b64encode` and `io.BytesIO` raise when handed an object of the named class instead of bytes. */
  function NotBytes(className: string): string {
    "a bytes-like object is required, not '" + className + "'"
  }

  /** The name offered for download: every '.' becomes '_', then a prefix and ".png" are added. */
  function DownloadName(filename: string): (r: string)
    ensures CountChar(r, '.') == 1
    ensures StartsWith(r, "processed_") && EndsWith(r, ".png")
    ensures |r| == |filename| + 14
    ensures forall i :: 0 <= i < |filename| && filename[i] != '.' ==> r[10 + i] == filename[i]
  {
    var middle := ReplaceChar(filename, '.', '_');
    ReplaceCharRemoves(filename, '.', '_');
    CountCharConcat("processed_", middle, '.');
    CountCharConcat("processed_" + middle, ".png", '.');
    assert CountChar("processed_", '.') == 0;
    assert CountChar(".png", '.') == 1;
    "processed_" + middle + ".png"
  }

  function ContentDisposition(filename: string): string {
    "attachment; filename=" + DownloadName(filename)
  }

  datatype Upload = Upload(filename: string, data: seq<byte>)

  datatype Header = Header(name: string, value: string)

  datatype Response =
    | ErrorJson(status: nat, error: string, details: string)
    | DetailJson(status: nat, detail: string)
    | RemovalJson(message: string, imageUrl: string, processingTime: nat)
    | Stream(mediaType: string, body: seq<byte>, headers: seq<Header>)

  /**
   * The codecs the endpoint relies on: a validity test for the upload, PNG
   * encoding, base64 text, the `str()` of a processing time, and the text of
   * the `UnicodeEncodeError` raised when a header value is encoded as latin-1.
   */
  datatype Codec = Codec(
    isImage: seq<byte> -> bool,
    encodePng: RgbaImage -> seq<byte>,
    base64: seq<byte> -> string,
    timeText: nat -> string,
    latin1Error: string -> string)

  /** A header value the response can encode: every character fits in latin-1. */
  predicate Latin1(s: string) {
    forall i :: 0 <= i < |s| ==> s[i] as int < 256
  }

  /** The first header value that does not fit in latin-1, in the order the headers are given. */
  function FirstNonLatin1(headers: seq<Header>): (r: Option<string>)
    ensures r.None? <==> forall k :: 0 <= k < |headers| ==> Latin1(headers[k].value)
    ensures r.Some? ==> exists k :: (0 <= k < |headers| && headers[k].value == r.value && !Latin1(r.value)
      && forall j :: 0 <= j < k ==> Latin1(headers[j].value))
  {
    if headers == [] then None
    else if !Latin1(headers[0].value) then Some(headers[0].value)
    else
      var rest := FirstNonLatin1(headers[1..]);
      if rest.Some? then
        var k :| 0 <= k < |headers[1..]| && headers[1..][k].value == rest.value && !Latin1(rest.value)
          && forall j :: 0 <= j < k ==> Latin1(headers[1..][j].value);
        assert headers[k + 1].value == rest.value;
        assert forall j :: 0 <= j < k + 1 ==> Latin1(headers[j].value) by {
          forall j | 0 <= j < k + 1 ensures Latin1(headers[j].value) {
            if j > 0 { assert headers[j] == headers[1..][j - 1]; }
          }
        }
        rest
      else
        rest
  }

  /**
   * The endpoint as written: the API-key dependency runs first; the body then
   * calls a `validate_image` that `BackgroundRemover` does not define, so every
   * authenticated request ends in the generic 500 — after its use was counted.
   */
  method RemoveBackgroundAsWritten(db: ApiKeyTable, key: string, now: Time, upload: Upload, returnJson: bool)
    returns (resp: Response)
    requires db.Valid()
    modifies db
    ensures db.Valid()
    ensures var v := Authenticate(old(db.rows), key, now);
      db.rows == v.rows
      && (v.outcome.Err? ==> resp == DetailJson(v.outcome.error.status, v.outcome.error.detail))
      && (v.outcome.Ok? ==> resp == ErrorJson(InternalError, ProcessingFailed, MissingValidator))
  {
    var auth := ValidateApiKey(db, key, now);
    if auth.Err? {
      return DetailJson(auth.error.status, auth.error.detail);
    }
    resp := ErrorJson(InternalError, ProcessingFailed, MissingValidator);
  }

  /**
   * Lines 166-190 as written: the `(image, metadata)` pair is unpacked as
   * `(bytes, time)`, and both the base64 encoder and the byte stream refuse a
   * PIL image, so every successful removal is reported as a failure naming the
   * image's class.
   */
  function DeliverAsWritten(removal: Removal, returnJson: bool): (resp: Response)
    ensures resp.ErrorJson? && resp.status == InternalError && resp.error == ProcessingFailed
    ensures removal.pilClass == OpenedClass ==>
      resp.details == "a bytes-like object is required, not 'PngImageFile'"
    ensures removal.pilClass == BuiltClass ==>
      resp.details == "a bytes-like object is required, not 'Image'"
  {
    ErrorJson(InternalError, ProcessingFailed, NotBytes(removal.pilClass))
  }

  /**
   * On an upload the remover processes, the message of the as-written
   * delivery names `PngImageFile` when the segmentation succeeded and
   * `Image` when the all-opaque fallback was used.
   */
  lemma AsWrittenNamesImageClass(data: seq<byte>, store: ModelStore, backend: Backend, elapsed: nat, returnJson: bool)
    requires RemovalRun(Encoded(data), "general", DefaultMatting, store, backend, elapsed).result.Ok?
    ensures backend.decode(data).Ok?
    ensures var removal := RemovalRun(Encoded(data), "general", DefaultMatting, store, backend, elapsed).result.value;
      var details := DeliverAsWritten(removal, returnJson).details;
      (backend.segment(backend.decode(data).value, DefaultMatting, DefaultModel).Some? ==>
         details == "a bytes-like object is required, not 'PngImageFile'")
      && (backend.segment(backend.decode(data).value, DefaultMatting, DefaultModel).None? ==>
         details == "a bytes-like object is required, not 'Image'")
  {
    assert InputImage(Encoded(data), backend).Some?;
  }

  /** The three headers of the streamed file. */
  function StreamHeaders(filename: string, keyName: string, processingTime: nat, codec: Codec): seq<Header> {
    [Header("Content-Disposition", ContentDisposition(filename)),
     Header("X-Processing-Time", codec.timeText(processingTime)),
     Header("X-API-Key-Name", keyName)]
  }

  /**
   * Lines 166-190 as intended: the processed image is encoded as PNG and sent
   * as JSON or as a file. Building the streamed response encodes every header
   * value as latin-1; a value that does not fit raises inside the `try`, and
   * the request ends in the generic 500.
   */
  function Deliver(removal: Removal, returnJson: bool, filename: string, keyName: string, codec: Codec): (resp: Response)
    ensures returnJson ==>
      resp.RemovalJson? && resp.message == RemovedMessage
      && StartsWith(resp.imageUrl, PngDataUrlPrefix)
      && resp.imageUrl[|PngDataUrlPrefix|..] == codec.base64(codec.encodePng(removal.image))
      && resp.processingTime == removal.metadata.processingTime
    ensures !returnJson ==>
      var headers := StreamHeaders(filename, keyName, removal.metadata.processingTime, codec);
      (FirstNonLatin1(headers).Some? ==>
         resp == ErrorJson(InternalError, ProcessingFailed, codec.latin1Error(FirstNonLatin1(headers).value)))
      && (FirstNonLatin1(headers).None? ==>
         resp.Stream? && resp.mediaType == "image/png" && resp.body == codec.encodePng(removal.image)
         && |resp.headers| == 3
         && resp.headers[0] == Header("Content-Disposition", ContentDisposition(filename))
         && resp.headers[1] == Header("X-Processing-Time", codec.timeText(removal.metadata.processingTime))
         && resp.headers[2] == Header("X-API-Key-Name", keyName))
  {
    var png := codec.encodePng(removal.image);
    if returnJson then
      RemovalJson(RemovedMessage, PngDataUrlPrefix + codec.base64(png), removal.metadata.processingTime)
    else
      var headers := StreamHeaders(filename, keyName, removal.metadata.processingTime, codec);
      match FirstNonLatin1(headers)
      case Some(value) => ErrorJson(InternalError, ProcessingFailed, codec.latin1Error(value))
      case None => Stream("image/png", png, headers)
  }

  /**
   * A key whose name does not fit in latin-1 never receives a streamed
   * image, whatever is uploaded; the JSON form still works.
   */
  lemma NonLatin1KeyNameNeverStreams(removal: Removal, filename: string, keyName: string, codec: Codec)
    requires !Latin1(keyName)
    ensures !Deliver(removal, false, filename, keyName, codec).Stream?
    ensures Deliver(removal, true, filename, keyName, codec).RemovalJson?
  {
    var headers := StreamHeaders(filename, keyName, removal.metadata.processingTime, codec);
    assert !Latin1(headers[2].value);
  }

  /**
   * The endpoint as intended: authenticate, reject an upload that is not an
   * image with 400 before any removal, remove the background with the default
   * hint and matting options, and deliver the result; a removal failure is the
   * generic 500 carrying the remover's message.
   */
  method RemoveBackgroundEndpoint(db: ApiKeyTable, remover: BackgroundRemover, key: string, now: Time,
                                  upload: Upload, returnJson: bool, store: ModelStore, backend: Backend,
                                  codec: Codec, elapsed: nat)
    returns (resp: Response, store': ModelStore)
    requires db.Valid()
    modifies db
    ensures db.Valid()
    ensures var v := Authenticate(old(db.rows), key, now);
      db.rows == v.rows
      && (v.outcome.Err? ==> resp == DetailJson(v.outcome.error.status, v.outcome.error.detail) && store' == store)
      && (v.outcome.Ok? && !codec.isImage(upload.data) ==>
            resp == ErrorJson(BadRequest, InvalidImage, InvalidImageDetails) && store' == store)
    ensures var v := Authenticate(old(db.rows), key, now);
      v.outcome.Ok? && codec.isImage(upload.data) ==>
        var o := RemovalRun(Encoded(upload.data), "general", DefaultMatting, store, backend, elapsed);
        store' == o.store
        && (o.result.Err? ==> resp == ErrorJson(InternalError, ProcessingFailed, o.result.error))
        && (o.result.Ok? ==> resp == Deliver(o.result.value, returnJson, upload.filename, v.outcome.value.name, codec))
    ensures var v := Authenticate(old(db.rows), key, now);
      resp.ErrorJson? && resp.status == InternalError ==>
        StartsWith(resp.details, FailurePrefix)
        || (v.outcome.Ok? && !returnJson
            && FirstNonLatin1(StreamHeaders(upload.filename, v.outcome.value.name, elapsed, codec)).Some?)
    ensures resp.Stream? ==>
      |resp.headers| == 3 && resp.headers[0] == Header("Content-Disposition", ContentDisposition(upload.filename))
      && CountChar(DownloadName(upload.filename), '.') == 1
  {
    var auth := ValidateApiKey(db, key, now);
    if auth.Err? {
      return DetailJson(auth.error.status, auth.error.detail), store;
    }
    if !codec.isImage(upload.data) {
      return ErrorJson(BadRequest, InvalidImage, InvalidImageDetails), store;
    }
    var removal;
    removal, store' := remover.RemoveBackground(Encoded(upload.data), "general", DefaultMatting, store, backend, elapsed);
    if removal.Err? {
      return ErrorJson(InternalError, ProcessingFailed, removal.error), store';
    }
    resp := Deliver(removal.value, returnJson, upload.filename, auth.value.name, codec);
  }
}
