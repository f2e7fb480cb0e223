/**
 * `uploadImageFromBase64`: resolve the extension, write the decoded bytes to
 * the blob store under the storage path, make the object public, and settle
 * the returned promise with the stored file or a rejection.
 */
module Uploader {
  import opened Wrappers
  import opened Promises
  import opened Media

  /**
   * What the blob store does with one upload. `WriteHangs`: the write
   * stream never finishes and never fails, so its completion callback
   * (which makes the object public) never runs. A stream that fails is not
   * one of these outcomes. `PublishFailed`: `makePublic` rejects.
   * `Published`: the object is public and its metadata carries `mediaLink`.
   */
  datatype BlobOutcome = WriteHangs | PublishFailed | Published(mediaLink: string)

  /** A write the uploader starts: storage path, declared content type, and the payload, kept opaque. */
  datatype BlobWrite = BlobWrite(path: string, contentType: string, payload: string)

  /** The file handle an upload resolves with. */
  datatype StoredFile = StoredFile(path: string, mediaLink: string)

  /** The promise's final state and the writes the call started. */
  datatype UploadRun = UploadRun(result: PromiseState<StoredFile>, writes: seq<BlobWrite>)

  /**
   * The rejection reason of every failed upload. Both rejections are built
   * as `new Error({errorCode, target})`; the object argument turns into the
   * message "[object Object]", so codes 104 and 109 and the target are lost.
   */
  const UploadRejection := JsError("[object Object]")

  /** The upload cannot succeed: its type is not whitelisted or publishing failed. */
  predicate UploadFails(mimeType: string, blob: BlobOutcome) {
    !Supported(mimeType) || blob.PublishFailed?
  }

  /** The settlement the completion callback makes, if it runs. */
  function PublishSettlements(path: string, blob: BlobOutcome): seq<Settlement<StoredFile>> {
    match blob
    case WriteHangs => []
    case PublishFailed => [Reject(UploadRejection)]
    case Published(link) => [Resolve(StoredFile(path, link))]
  }

  /**
   * The upload with the evidently intended early exit: an unsupported type
   * rejects and nothing is written. Every other outcome is that of
   * `uploadImageFromBase64` in functions/index.js.
   */
  function Upload(id: string, role: Role, payload: string, mimeType: string, blob: BlobOutcome): (run: UploadRun)
    ensures !Supported(mimeType) ==> run == UploadRun(Rejected(UploadRejection), [])
    ensures Supported(mimeType) ==>
      && |run.writes| == 1
      && run.writes[0].contentType == mimeType
      && run.writes[0].payload == payload
      && ParsePath(run.writes[0].path) == Some(PathParts(id, role, GetExtension(mimeType).value))
    ensures forall w :: w in run.writes ==>
      Supported(w.contentType) && ParsePath(w.path).Some? && ParsePath(w.path).value.id == id
    ensures run.result.Rejected? <==> UploadFails(mimeType, blob)
    ensures run.result.Rejected? ==> run.result.reason == UploadRejection
    ensures run.result.Pending? <==> Supported(mimeType) && blob.WriteHangs?
    ensures run.result.Fulfilled? ==>
      && blob.Published?
      && run.result.value.mediaLink == blob.mediaLink
      && [BlobWrite(run.result.value.path, mimeType, payload)] == run.writes
  {
    match GetExtension(mimeType)
    case Failure(_) => UploadRun(Rejected(UploadRejection), [])
    case Success(ext) =>
      var path := StoragePath(id, role, ext);
      ParseStoragePath(id, role, ext);
      FirstCallWins(PublishSettlements(path, blob));
      UploadRun(SettleAll(Pending, PublishSettlements(path, blob)), [BlobWrite(path, mimeType, payload)])
  }

  /**
   * `uploadImageFromBase64` as functions/index.js has it: after `reject` for an unsupported type
   * there is no `return`, so `ext` stays undefined, the path ends in
   * "undefined", the write still starts, and the completion callback still
   * calls `resolve` or `reject` on the already settled promise.
   */
  function UploadAsWritten(id: string, role: Role, payload: string, mimeType: string, blob: BlobOutcome): UploadRun {
    var extension := GetExtension(mimeType);
    var early := if extension.Failure? then [Reject(UploadRejection)] else [];
    var ext := if extension.Success? then extension.value else "undefined";
    var path := StoragePath(id, role, ext);
    UploadRun(SettleAll(Pending, early + PublishSettlements(path, blob)), [BlobWrite(path, mimeType, payload)])
  }

  /** An unsupported type ends in rejection whatever the blob store does afterwards. */
  lemma UnsupportedTypeRejects(id: string, role: Role, payload: string, mimeType: string, blob: BlobOutcome)
    requires !Supported(mimeType)
    ensures UploadAsWritten(id, role, payload, mimeType, blob).result == Rejected(UploadRejection)
  {
    var path := StoragePath(id, role, "undefined");
    FirstCallWins([Reject(UploadRejection)] + PublishSettlements(path, blob));
  }

  /** The missing `return` never shows in the promise: both versions settle alike. */
  lemma AsWrittenSettlesLikeUpload(id: string, role: Role, payload: string, mimeType: string, blob: BlobOutcome)
    ensures UploadAsWritten(id, role, payload, mimeType, blob).result == Upload(id, role, payload, mimeType, blob).result
  {
    if !Supported(mimeType) {
      UnsupportedTypeRejects(id, role, payload, mimeType, blob);
    } else {
      assert [] + PublishSettlements(StoragePath(id, role, GetExtension(mimeType).value), blob)
        == PublishSettlements(StoragePath(id, role, GetExtension(mimeType).value), blob);
    }
  }

  /**
   * But it shows in the blob store: an unsupported type still writes one
   * object, at a path no accepted upload can have.
   */
  lemma UnsupportedTypeStillWrites(id: string, role: Role, payload: string, mimeType: string, blob: BlobOutcome)
    requires !Supported(mimeType)
    ensures UploadAsWritten(id, role, payload, mimeType, blob).writes
      == [BlobWrite(ImagesPrefix + id + "/" + RoleName(role) + "undefined", mimeType, payload)]
    ensures ParsePath(UploadAsWritten(id, role, payload, mimeType, blob).writes[0].path).None?
    ensures Upload(id, role, payload, mimeType, blob).writes == []
  {
    var path := StoragePath(id, role, "undefined");
    StoragePathShape(id, role, "undefined");
    StripPrefixRoundTrip((id + RoleTail(role)) + "undefined");
    var rest := (id + RoleTail(role)) + "undefined";
    assert rest[|rest| - 4..] == "ined";
    assert "ined" !in Extensions;
  }

  /** A BMP thumbnail for resource "r1": rejected, yet written to "/images/r1/thumbnailundefined". */
  lemma BmpThumbnailExample()
    ensures UploadAsWritten("r1", Thumbnail, "Qk0=", "image/bmp", Published("https://storage/r1")).writes
      == [BlobWrite("/images/r1/thumbnailundefined", "image/bmp", "Qk0=")]
    ensures UploadAsWritten("r1", Thumbnail, "Qk0=", "image/bmp", Published("https://storage/r1")).result
      == Rejected(UploadRejection)
  {
    UnsupportedTypeRejects("r1", Thumbnail, "Qk0=", "image/bmp", Published("https://storage/r1"));
    UnsupportedTypeStillWrites("r1", Thumbnail, "Qk0=", "image/bmp", Published("https://storage/r1"));
    assert ImagesPrefix + "r1" + "/" + RoleName(Thumbnail) + "undefined" == "/images/r1/thumbnailundefined";
  }
}
