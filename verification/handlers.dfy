/**
 * The three endpoints of functions/index.js as transitions of the record
 * store. Identifier generation, the clock, and the outcomes of database and
 * blob-store calls are parameters.
 */
module Handlers {
  import opened Wrappers
  import opened Promises
  import opened Media
  import opened Records
  import opened Api
  import opened Uploader

  /** A response and the record store it leaves behind. */
  datatype Exchange = Exchange(response: Response, store: Store)

  /** The body `GET /v1/resources/:id` answers with; `name` and `lastAccess` are not part of it. */
  function BodyOf(id: string, r: Record): Body {
    ResourceBody(id, OrEmpty(r.facebookId), OrEmpty(r.instagramId), OrEmpty(r.twitterId),
                 OrEmpty(r.url), OrEmpty(r.lineId), OrEmpty(r.thumbnailUrl), OrEmpty(r.markerUrl))
  }

  /** The text shown for a field: its value when truthy, `''` otherwise. */
  predicate Shows(f: Field, text: string) {
    if Truthy(f) then text == f.value else text == ""
  }

  /**
   * `GET /v1/resources/:id`. `readOk` is whether `once('value')` resolved,
   * `now` what `Date.now()` returned.
   */
  function GetResource(store: Store, id: string, readOk: bool, now: int): (out: Exchange)
    ensures !readOk ==> out == Exchange(Failed(ReadFailedCode), store)
    ensures readOk && id !in store ==> out == Exchange(NotFoundText, store)
    ensures readOk && id in store ==>
      && out.response.Json?
      && out.response.status == Status.Success
      && out.response.errorCode == Ok
      && out.response.body.ResourceBody?
      && out.response.body.id == id
      && Shows(store[id].facebookId, out.response.body.facebookId)
      && Shows(store[id].instagramId, out.response.body.instagramId)
      && Shows(store[id].twitterId, out.response.body.twitterId)
      && Shows(store[id].url, out.response.body.url)
      && Shows(store[id].lineId, out.response.body.lineId)
      && Shows(store[id].thumbnailUrl, out.response.body.thumbnailUrl)
      && Shows(store[id].markerUrl, out.response.body.markerUrl)
      && out.store.Keys == store.Keys
      && OthersUnchanged(store, out.store, id)
      && SameExceptLastAccess(out.store[id], store[id])
      && out.store[id].lastAccess == Some(now)
  {
    if !readOk then Exchange(Failed(ReadFailedCode), store)
    else if id !in store then Exchange(NotFoundText, store)
    else Exchange(Succeeded(BodyOf(id, store[id])), StampLastAccess(store, id, now))
  }

  /** The properties `POST /v1/resources/` copies from the request body. */
  datatype CreateRequest = CreateRequest(
    name: Field, facebookId: Field, instagramId: Field, twitterId: Field, lineId: Field, url: Field)

  /**
   * Every copied property is defined. The database client refuses an
   * object holding an `undefined` property: `set` throws instead of
   * returning a promise.
   */
  predicate AllProvided(req: CreateRequest) {
    && req.name.Some? && req.facebookId.Some? && req.instagramId.Some?
    && req.twitterId.Some? && req.lineId.Some? && req.url.Some?
  }

  /** The record a create request is stored as. */
  function NewRecord(req: CreateRequest): Record {
    Record(req.name, req.facebookId, req.instagramId, req.twitterId, req.lineId, req.url,
           Some(""), Some(""), None)
  }

  /**
   * `POST /v1/resources/`. `newId` is what `uuidv4()` returned, `writeOk`
   * whether `set` resolved. The write replaces whatever was at the key. When
   * a property is missing, `set` throws before `.then`/`.catch` are attached,
   * so neither code 0 nor 101 is sent and nothing is stored.
   */
  function CreateResource(store: Store, newId: string, req: CreateRequest, writeOk: bool): (out: Exchange)
    ensures !AllProvided(req) ==> out == Exchange(Unhandled, store)
    ensures AllProvided(req) && !writeOk ==> out == Exchange(Failed(CreateFailedCode), store)
    ensures AllProvided(req) && writeOk ==>
      && out.response == Succeeded(IdBody(newId))
      && out.store.Keys == store.Keys + {newId}
      && OthersUnchanged(store, out.store, newId)
      && var r := out.store[newId];
         && r.name == req.name && r.facebookId == req.facebookId && r.instagramId == req.instagramId
         && r.twitterId == req.twitterId && r.lineId == req.lineId && r.url == req.url
         && r.thumbnailUrl == Some("") && r.markerUrl == Some("") && r.lastAccess.None?
    ensures out.store != store ==> out.response == Succeeded(IdBody(newId))
  {
    if !AllProvided(req) then Exchange(Unhandled, store)
    else if writeOk then Exchange(Succeeded(IdBody(newId)), store[newId := NewRecord(req)])
    else Exchange(Failed(CreateFailedCode), store)
  }

  /** The four body properties of `POST /v1/resources/upload-images/:id`. */
  datatype UploadImagesRequest = UploadImagesRequest(
    thumbnail: Field, thumbnailMimeType: Field, marker: Field, markerMimeType: Field)

  /** The presence check: all four inputs truthy. */
  predicate InputsPresent(req: UploadImagesRequest) {
    Truthy(req.thumbnail) && Truthy(req.thumbnailMimeType) && Truthy(req.marker) && Truthy(req.markerMimeType)
  }

  /** The response, the store after it, the blob writes started and the record updates issued. */
  datatype Attachment = Attachment(response: Response, store: Store, writes: seq<BlobWrite>, updates: seq<AssetUpdate>)

  /** Both uploads succeed: supported types and both objects published. */
  predicate BothPublished(req: UploadImagesRequest, thumbnailBlob: BlobOutcome, markerBlob: BlobOutcome)
    requires InputsPresent(req)
  {
    && Supported(req.thumbnailMimeType.value) && thumbnailBlob.Published?
    && Supported(req.markerMimeType.value) && markerBlob.Published?
  }

  /** Some upload fails, so `Promise.all` rejects. */
  predicate SomeUploadFails(req: UploadImagesRequest, thumbnailBlob: BlobOutcome, markerBlob: BlobOutcome)
    requires InputsPresent(req)
  {
    UploadFails(req.thumbnailMimeType.value, thumbnailBlob) || UploadFails(req.markerMimeType.value, markerBlob)
  }

  /**
   * `POST /v1/resources/upload-images/:id`. `thumbnailBlob` and `markerBlob`
   * are what the blob store does with each upload, `updateOk` whether the
   * record update resolved.
   */
  function UploadImages(store: Store, id: string, req: UploadImagesRequest,
                        thumbnailBlob: BlobOutcome, markerBlob: BlobOutcome, updateOk: bool): (out: Attachment)
    // No I/O before validation.
    ensures !InputsPresent(req) ==> out == Attachment(Failed(MissingInputCode), store, [], [])
    // At most one update, issued exactly when both uploads succeed, with each URL from its own upload.
    ensures |out.updates| <= 1
    ensures |out.updates| == 1 <==> InputsPresent(req) && BothPublished(req, thumbnailBlob, markerBlob)
    ensures |out.updates| == 1 ==>
      out.updates[0] == AssetUpdate(id, thumbnailBlob.mediaLink, markerBlob.mediaLink)
    // All or nothing in the record store.
    ensures |out.updates| == 1 && updateOk ==> out.store == ApplyAssetUpdate(store, out.updates[0])
    ensures !(|out.updates| == 1 && updateOk) ==> out.store == store
    // Responses.
    ensures out.response == Succeeded(IdBody(id)) <==> |out.updates| == 1 && updateOk
    ensures InputsPresent(req) && SomeUploadFails(req, thumbnailBlob, markerBlob) ==>
      out.response == Failed(UploadFailedCode)
    ensures |out.updates| == 1 && !updateOk ==> out.response == Failed(UploadFailedCode)
    ensures out.response == NoResponse <==>
      InputsPresent(req) && !SomeUploadFails(req, thumbnailBlob, markerBlob)
      && (thumbnailBlob.WriteHangs? || markerBlob.WriteHangs?)
    // Blob writes stay inside the resource's folder, one per supported upload.
    ensures |out.writes| <= 2
    ensures forall w :: w in out.writes ==> ParsePath(w.path).Some? && ParsePath(w.path).value.id == id
    ensures forall w :: w in out.writes ==> Supported(w.contentType)
  {
    if !InputsPresent(req) then Attachment(Failed(MissingInputCode), store, [], [])
    else
      Combine(store, id,
              Upload(id, Thumbnail, req.thumbnail.value, req.thumbnailMimeType.value, thumbnailBlob),
              Upload(id, Marker, req.marker.value, req.markerMimeType.value, markerBlob),
              updateOk)
  }

  /**
   * The part of the handler after both uploads have started: `Promise.all`
   * on the two, then the single record update, then the response.
   */
  function Combine(store: Store, id: string, thumbnail: UploadRun, marker: UploadRun, updateOk: bool): Attachment {
    var writes := thumbnail.writes + marker.writes;
    match All(thumbnail.result, marker.result)
    case Pending => Attachment(NoResponse, store, writes, [])
    case Rejected(_) => Attachment(Failed(UploadFailedCode), store, writes, [])
    case Fulfilled(files) =>
      var u := AssetUpdate(id, files.0.mediaLink, files.1.mediaLink);
      if updateOk then Attachment(Succeeded(IdBody(id)), ApplyAssetUpdate(store, u), writes, [u])
      else Attachment(Failed(UploadFailedCode), store, writes, [u])
  }

  /** The handler exactly as functions/index.js has it, on the upload without its early exit. */
  function UploadImagesAsWritten(store: Store, id: string, req: UploadImagesRequest,
                                 thumbnailBlob: BlobOutcome, markerBlob: BlobOutcome, updateOk: bool): Attachment {
    if !InputsPresent(req) then Attachment(Failed(MissingInputCode), store, [], [])
    else
      Combine(store, id,
              UploadAsWritten(id, Thumbnail, req.thumbnail.value, req.thumbnailMimeType.value, thumbnailBlob),
              UploadAsWritten(id, Marker, req.marker.value, req.markerMimeType.value, markerBlob),
              updateOk)
  }

  /**
   * The missing early exit never reaches the client or the record store:
   * the handler as written answers, updates and stores exactly as
   * `UploadImages` does.
   */
  lemma AsWrittenHandlerAgrees(store: Store, id: string, req: UploadImagesRequest,
                               thumbnailBlob: BlobOutcome, markerBlob: BlobOutcome, updateOk: bool)
    ensures var written := UploadImagesAsWritten(store, id, req, thumbnailBlob, markerBlob, updateOk);
      var corrected := UploadImages(store, id, req, thumbnailBlob, markerBlob, updateOk);
      && written.response == corrected.response
      && written.store == corrected.store
      && written.updates == corrected.updates
  {
    if InputsPresent(req) {
      AsWrittenSettlesLikeUpload(id, Thumbnail, req.thumbnail.value, req.thumbnailMimeType.value, thumbnailBlob);
      AsWrittenSettlesLikeUpload(id, Marker, req.marker.value, req.markerMimeType.value, markerBlob);
    }
  }

  /**
   * But it does reach the blob store: with an unsupported thumbnail type the
   * handler as written answers 103 and still writes the thumbnail payload,
   * with that type, at a path no accepted upload has, which `UploadImages`
   * never does.
   */
  lemma AsWrittenHandlerWritesUnsupported(store: Store, id: string, req: UploadImagesRequest,
                                          thumbnailBlob: BlobOutcome, markerBlob: BlobOutcome, updateOk: bool)
    requires InputsPresent(req) && !Supported(req.thumbnailMimeType.value)
    ensures var written := UploadImagesAsWritten(store, id, req, thumbnailBlob, markerBlob, updateOk);
      && written.response == Failed(UploadFailedCode)
      && written.writes[0] == BlobWrite(StoragePath(id, Thumbnail, "undefined"), req.thumbnailMimeType.value, req.thumbnail.value)
      && ParsePath(written.writes[0].path).None?
    ensures forall w :: w in UploadImages(store, id, req, thumbnailBlob, markerBlob, updateOk).writes ==> Supported(w.contentType)
  {
    UnsupportedTypeStillWrites(id, Thumbnail, req.thumbnail.value, req.thumbnailMimeType.value, thumbnailBlob);
    AsWrittenHandlerAgrees(store, id, req, thumbnailBlob, markerBlob, updateOk);
  }
}
