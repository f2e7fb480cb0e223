/**
 * Properties that span several requests: what a read returns after a
 * create or an attachment, the pairing of the two image URLs that every
 * endpoint keeps, and how repeated requests combine.
 */
module Lifecycle {
  import opened Wrappers
  import opened Media
  import opened Records
  import opened Api
  import opened Uploader
  import opened Handlers

  /**
   * A read right after a successful create returns exactly the submitted
   * properties and two empty image URLs. A create missing a property
   * stores nothing, so the read then answers as it did before.
   */
  lemma CreateThenGet(store: Store, newId: string, req: CreateRequest, now: int)
    ensures !AllProvided(req) ==>
      GetResource(CreateResource(store, newId, req, true).store, newId, true, now) == GetResource(store, newId, true, now)
    ensures AllProvided(req) ==>
      var created := CreateResource(store, newId, req, true).store;
      GetResource(created, newId, true, now).response
        == Succeeded(ResourceBody(newId, req.facebookId.value, req.instagramId.value,
                                  req.twitterId.value, req.url.value, req.lineId.value, "", ""))
  {
  }

  /** A read right after a successful attachment returns the two published links. */
  lemma AttachThenGet(store: Store, id: string, req: UploadImagesRequest,
                      thumbnailLink: string, markerLink: string, now: int)
    requires InputsPresent(req)
    requires Supported(req.thumbnailMimeType.value) && Supported(req.markerMimeType.value)
    ensures var attached := UploadImages(store, id, req, Published(thumbnailLink), Published(markerLink), true).store;
      var got := GetResource(attached, id, true, now).response;
      && got.Json? && got.body.ResourceBody?
      && got.body.thumbnailUrl == thumbnailLink
      && got.body.markerUrl == markerLink
  {
  }

  /** A failed attachment is invisible to a later read: it answers exactly as before. */
  lemma FailedAttachInvisible(store: Store, id: string, req: UploadImagesRequest,
                              thumbnailBlob: BlobOutcome, markerBlob: BlobOutcome, updateOk: bool, now: int)
    requires UploadImages(store, id, req, thumbnailBlob, markerBlob, updateOk).response != Succeeded(IdBody(id))
    ensures GetResource(UploadImages(store, id, req, thumbnailBlob, markerBlob, updateOk).store, id, true, now)
      == GetResource(store, id, true, now)
  {
  }

  /** Reads only stamp `lastAccess`, so a second read returns the same response as the first. */
  lemma GetIsRepeatable(store: Store, id: string, first: int, second: int)
    ensures var after := GetResource(store, id, true, first).store;
      GetResource(after, id, true, second).response == GetResource(store, id, true, first).response
  {
  }

  /** Attaching the same links twice leaves the store as attaching them once. */
  lemma AttachIsIdempotent(store: Store, id: string, req: UploadImagesRequest,
                           thumbnailBlob: BlobOutcome, markerBlob: BlobOutcome)
    ensures var once := UploadImages(store, id, req, thumbnailBlob, markerBlob, true).store;
      UploadImages(once, id, req, thumbnailBlob, markerBlob, true).store == once
  {
  }

  /** Of two successful attachments, the later one's links are the ones stored. */
  lemma LastAttachWins(store: Store, id: string, first: UploadImagesRequest, second: UploadImagesRequest,
                       t1: string, m1: string, t2: string, m2: string)
    requires InputsPresent(first) && BothPublished(first, Published(t1), Published(m1))
    requires InputsPresent(second) && BothPublished(second, Published(t2), Published(m2))
    ensures var s1 := UploadImages(store, id, first, Published(t1), Published(m1), true).store;
      var s2 := UploadImages(s1, id, second, Published(t2), Published(m2), true).store;
      && s2[id].thumbnailUrl == Some(t2) && s2[id].markerUrl == Some(m2)
      && SameExceptAssets(s2[id], Lookup(store, id))
  {
  }

  /** A create stores a record whose two image URLs are paired. */
  lemma CreateKeepsInvariant(store: Store, newId: string, req: CreateRequest, writeOk: bool)
    requires StoreInvariant(store)
    ensures StoreInvariant(CreateResource(store, newId, req, writeOk).store)
  {
  }

  /** A read does not touch the image URLs. */
  lemma GetKeepsInvariant(store: Store, id: string, readOk: bool, now: int)
    requires StoreInvariant(store)
    ensures StoreInvariant(GetResource(store, id, readOk, now).store)
  {
  }

  /**
   * An attachment sets both URLs or neither; with the non-empty links the
   * blob store hands out, the pair stays both-filled or both-empty.
   */
  lemma AttachKeepsInvariant(store: Store, id: string, req: UploadImagesRequest,
                             thumbnailBlob: BlobOutcome, markerBlob: BlobOutcome, updateOk: bool)
    requires StoreInvariant(store)
    requires thumbnailBlob.Published? ==> thumbnailBlob.mediaLink != ""
    requires markerBlob.Published? ==> markerBlob.mediaLink != ""
    ensures StoreInvariant(UploadImages(store, id, req, thumbnailBlob, markerBlob, updateOk).store)
  {
  }
}
