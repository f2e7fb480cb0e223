# Resource record service: image attachment pipeline

A Dafny model of the Cloud Functions API in `functions/index.js`. The API
keeps "resources" (a name and a few social-profile identifiers) in a
realtime database under `/resource/<id>`. It lets a client create a
resource, read it back, and attach two images to it: a thumbnail and a map
marker. The attachment endpoint checks its four inputs. It then uploads both
images to the blob store, makes them public, and writes both public links
into the record in one partial update.

The model is functional. The record store is a `map<string, Record>`, and
each endpoint is a pure function from the store, the request and the
outcomes of its external calls to a response and the next store. The blob
store is one outcome per upload: the write hangs (never finishes and never
fails), publishing fails, or the object is published with a `mediaLink`. JavaScript promises are
modelled by the state they end in. The parts the code relies on are made
explicit: a promise settles only once, and `Promise.all` is fail-fast.

Modules:

- `Wrappers`: `Option`, `Result`, and `JsError` for thrown errors.
- `Promises`: settle-once semantics of a promise executor, and `Promise.all` over two promises.
- `Media`: `getExtension`, the storage path, and its inverse `ParsePath`.
- `Records`: records, the store, JavaScript truthiness and `|| ''`, partial updates, and the pairing invariant of the two image URLs.
- `Api`: the response envelope and error codes 0, 101, 102, 103 and 105.
- `Uploader`: `uploadImageFromBase64`, both as written and with the missing early exit added.
- `Handlers`: `GET /v1/resources/:id`, `POST /v1/resources/` and `POST /v1/resources/upload-images/:id`.
- `Lifecycle`: properties across several requests.

Behaviours of `functions/index.js` the model keeps, some of them easy to miss:

- The two uploads are joined with `Promise.all`, which rejects as soon as either upload rejects. No list of per-role failures is collected.
- Upload failures are built as `new Error({errorCode, target})`. Their message is therefore `"[object Object]"`, and codes 104 and 109 never reach the client. The only upload failure code a client sees is 103.
- 103 is also the answer when both uploads succeed but the record update fails.
- Nothing settles an upload whose write hangs. If a write never finishes, its upload promise stays pending. Unless the other upload rejects, the handler never answers (`NoResponse`).
- `update` on an id with no record creates a node that holds only the two URLs. The handler does not check that the resource exists.
- After rejecting an unsupported MIME type, the uploader still writes the payload to the blob store (see Findings).
- The create endpoint passes request properties to `set` unchecked. If one is `undefined`, the database client throws before `.then`/`.catch` are attached. The framework then answers with its own error response (`Unhandled`), and nothing is stored.
- The read endpoint's body has no `name`.

## Model

| member | source | states |
|---|---|---|
| Promises.SettledIsFinal | functions/index.js:274-312 | once the upload promise has settled, later `resolve`/`reject` calls (the one at line 303 after the reject at 282) change nothing |
| Promises.FirstCallWins | functions/index.js:274-312 | a fresh promise ends in the state chosen by the first settlement call, or stays pending if no call is made |
| Promises.All | functions/index.js:211 | `Promise.all` on the two uploads fulfils with both files, in order, exactly when both fulfil. It rejects as soon as either rejects, even while the other is pending. Otherwise it is pending |
| Media.GetExtension | functions/index.js:260-271 | succeeds exactly for `image/jpeg`, `image/png` and `image/gif`, giving `.jpg`, `.png` and `.gif`, each mapping back to its type. Every other string fails with the one fixed error `getExtension` throws, whose message does not name the type |
| Media.ExtensionRoundTrip | functions/index.js:260-271 | each accepted extension is what `getExtension` returns for its MIME type |
| Media.StoragePath | functions/index.js:287 | the path `'/images/' + id + '/' + target + ext`. It has no contract of its own. Its behaviour is stated by Media.ParseStoragePath, Media.ParsedPathIsStoragePath and Media.StoragePathInjective (a two-sided inverse), and by Media.RolesHaveDistinctPaths |
| Media.ParseStoragePath | functions/index.js:287 | `'/images/' + id + '/' + target + ext` parses back to `(id, role, ext)` for every id and accepted extension |
| Media.ParsedPathIsStoragePath | functions/index.js:287 | every path that parses is exactly the storage path of its parts, so the parser is a two-sided inverse |
| Media.StoragePathInjective | functions/index.js:287 | distinct `(id, role, ext)` triples with accepted extensions never share a storage path. With arbitrary extensions they can: `("a", thumbnail, "/marker.png")` and `("a/thumbnail", marker, ".png")` collide |
| Media.RolesHaveDistinctPaths | functions/index.js:207-208 | the thumbnail and the marker of one resource are stored at different paths, whatever follows the role name, including the `undefined` an unsupported type leaves there at line 287 |
| Records.OrEmpty | functions/index.js:55-61 | the logical-or default to `''` gives the value when it is truthy and `''` when it is absent or empty |
| Records.ApplyAssetUpdate | functions/index.js:215-225 | the partial update overwrites `thumbnailUrl` and `markerUrl`, keeps every other property, touches no other key, and creates the node when it is missing |
| Records.StampLastAccess | functions/index.js:65-68 | stamping `lastAccess` changes only that property of that record |
| Uploader.Upload | functions/index.js:273-313 | an unsupported type rejects with no write. Otherwise there is one write of the payload, with its type, at a path that parses to `(id, role, ext)`. The upload rejects exactly when the type is unsupported or publishing fails, and stays pending exactly when the write never finishes. On success it yields the path written and the blob's `mediaLink` |
| Uploader.UploadAsWritten | functions/index.js:273-313 | `uploadImageFromBase64` as the file has it, with no early exit after the reject at line 282. It has no contract of its own. Its behaviour is stated by Uploader.UnsupportedTypeRejects, Uploader.AsWrittenSettlesLikeUpload, Uploader.UnsupportedTypeStillWrites and Uploader.BmpThumbnailExample |
| Uploader.UnsupportedTypeRejects | functions/index.js:276-283 | as written, an unsupported type ends in rejection whatever the blob store does afterwards |
| Uploader.AsWrittenSettlesLikeUpload | functions/index.js:273-313 | the missing `return` never changes the upload promise's final state |
| Uploader.UnsupportedTypeStillWrites | functions/index.js:276-300 | as written, an unsupported type still writes one object, at `'/images/' + id + '/' + target + 'undefined'`. No accepted upload has that path. The corrected upload writes nothing |
| Uploader.BmpThumbnailExample | functions/index.js:276-300 | a concrete case: a thumbnail of type `image/bmp` for `r1` is rejected, yet written to `/images/r1/thumbnailundefined` |
| Handlers.GetResource | functions/index.js:33-87 | a failed read gives failure/102, and a missing record gives the 404 text. Neither changes the store. Otherwise the response is success/0 with the id and the seven listed properties, each shown as stored when truthy and `''` otherwise. Only that record's `lastAccess` changes, to the given time |
| Handlers.CreateResource | functions/index.js:106-159 | a request missing any of the six copied properties makes `set` throw. No JSON answer is sent (`Unhandled`) and the store is unchanged. Otherwise a successful write stores, under the new id, the submitted name, social ids and url, with both image URLs `''`; no other key changes, and the response is success/0 with the id. A failed write leaves the store unchanged and gives failure/101. The store changes only on success |
| Handlers.UploadImages | functions/index.js:177-258 | a missing or empty input gives failure/105 with no write, no update and the store unchanged. At most one update is issued, exactly when both uploads succeed. It sets the thumbnail URL from the thumbnail upload and the marker URL from the marker upload. The store changes only by that update, and only if it lands; then the response is success/0 with the id. Any upload failure, or a failed update, gives failure/103 with the store unchanged. No response comes exactly when no upload fails and a write never finishes. Writes stay under the resource's folder and have supported types, because this is the handler on the corrected upload |
| Handlers.Combine | functions/index.js:211-257 | the part of the handler after both uploads have started: `Promise.all`, the single update, and the response. It has no contract of its own. What it does is stated through the contract of Handlers.UploadImages, which is built on it, and through Handlers.AsWrittenHandlerAgrees |
| Handlers.UploadImagesAsWritten | functions/index.js:177-258 | the upload handler exactly as the file has it, on Uploader.UploadAsWritten. It has no contract of its own. Its behaviour is stated by Handlers.AsWrittenHandlerAgrees (same responses, store and updates as Handlers.UploadImages) and Handlers.AsWrittenHandlerWritesUnsupported |
| Handlers.AsWrittenHandlerAgrees | functions/index.js:207-257 | the handler as written, on the upload without its early exit, gives the same response, record store and record updates as `UploadImages` for every input and every blob and database outcome |
| Handlers.AsWrittenHandlerWritesUnsupported | functions/index.js:207-208 | as written, an unsupported thumbnail type still answers 103. Its payload is nevertheless written, with that type, at `'/images/' + id + '/thumbnailundefined'`, a path that does not parse. `UploadImages` writes only supported types |
| Lifecycle.CreateThenGet | functions/index.js:112-121 | a read after a successful create returns exactly the submitted properties and `''` for both image URLs. After a create missing a property, a read answers as it did before |
| Lifecycle.AttachThenGet | functions/index.js:215-225 | a read after a successful attachment returns both published links |
| Lifecycle.FailedAttachInvisible | functions/index.js:244-257 | after an attachment that did not succeed, a read answers exactly as it would have before |
| Lifecycle.GetIsRepeatable | functions/index.js:65-69 | a second read returns the same response as the first. Only `lastAccess` moved, and it is not in the body |
| Lifecycle.AttachIsIdempotent | functions/index.js:222-225 | repeating an attachment with the same outcomes leaves the store as one attachment did |
| Lifecycle.LastAttachWins | functions/index.js:222-225 | of two successful attachments, the later links are stored and the other properties are as before either |
| Lifecycle.CreateKeepsInvariant | functions/index.js:119-120 | a create keeps every record's two image URLs paired: both present or both absent, and both empty or both filled |
| Lifecycle.GetKeepsInvariant | functions/index.js:65-68 | a read keeps the pairing |
| Lifecycle.AttachKeepsInvariant | functions/index.js:215-225 | with non-empty published links, an attachment keeps the pairing, because it sets both URLs or neither |

## Left out

- Express/Firebase bootstrap, CORS and region setup (functions/index.js:1-10, 315-323). They are plumbing with no effect on the model's state.
- The stub routers `routes/api/resources.js` and `routes/add-resources.js`. They return canned responses or echo the request and store nothing.
- Base64 decoding and the byte-level stream write (functions/index.js:291-300). These are library calls, so the payload is an opaque string.
- `uuidv4()` and `Date.now()`. The id and the timestamp are parameters.
- Logging. It has no effect on the state.
- Real concurrency. Each upload is modelled by the state its promise ends in. Of two rejections, `Promises.All` keeps the thumbnail's reason rather than whichever came first in time. Every rejection reason here is the same `"[object Object]"` error, so nothing observable depends on that choice.
- Storage contents. The model records the writes each request starts, but not the objects in the bucket. The orphaned object left when the sibling upload fails is therefore not part of the state.
- The second response attempt after the 404 in the read endpoint (functions/index.js:45-47 falls through to a TypeError caught at 73). Only the 404 is modelled. The store is unchanged in that case, because the TypeError comes before the `lastAccess` update.
- The outcome of the `lastAccess` write. The read endpoint does not wait for it, and the model assumes it lands.
- The database client's checks on property values beyond `undefined`. For example, it also refuses some key characters. That code is not part of this model. Its refusal of `undefined` in `set` is modelled, as `Unhandled`.
- Request-body values that are not strings (numbers, booleans, objects). Properties are modelled as strings or absent, and JavaScript truthiness is modelled for those only.
- Handlers.UploadImages: a blob write that fails is not modelled, only one that hangs (`WriteHangs`). The stream made at functions/index.js:293-298 has no `'error'` listener. A failed write raises an uncaught exception, and what happens next depends on the Node.js runtime. The `NoResponse` clause covers only a write that never finishes.
- Handlers.GetResource: ids are assumed to be valid single database path segments. ``ref(`/resource/${id}`)`` at functions/index.js:36-38 runs outside any promise. For an id containing `.`, `#`, `$`, `[` or `]`, it throws before the read, and the framework sends its own error response, not 102, 404 or success. An id containing `/` names a node inside another record. The same assumption holds for the id of the upload handler. There the `ref` call sits inside the `.then` at lines 222-225, so a throw would end in 103. Also, a stored record whose properties are all absent is an empty node. The database reads an empty node as null, so the endpoint would answer 404, but the model answers success for such a record. None of the three endpoints creates such a node, because a create and an attachment both store the image URLs. Only a store that already holds one reaches this case.
- Handlers.UploadImages: this is the handler on the corrected upload, so its write clauses do not hold of functions/index.js. For an unsupported type, the code also writes at `…/<target>undefined`. The handler exactly as written is `Handlers.UploadImagesAsWritten`. `Handlers.AsWrittenHandlerAgrees` proves it gives the same responses, store and updates, and `Handlers.AsWrittenHandlerWritesUnsupported` shows the extra write.
- Uploader.Upload: this is the corrected upload. The upload exactly as written is `Uploader.UploadAsWritten`, and `Uploader.AsWrittenSettlesLikeUpload` proves that the two reach the same promise state.

## Findings

| source | as written | input that shows it | evidently intended | confidence | as-written member | corrected member |
|---|---|---|---|---|---|---|
| functions/index.js:276-300 | after `reject` for an unsupported MIME type there is no `return`. `ext` stays undefined, and the upload goes on to write the payload to `'/images/' + id + '/' + target + 'undefined'` and to call `resolve` on the settled promise | thumbnail type `image/bmp` for resource `r1`: the request fails with 103, yet an object is written at `/images/r1/thumbnailundefined` | stop after rejecting, so that an unsupported type never reaches the blob store | high; not executed | Uploader.UploadAsWritten and Handlers.UploadImagesAsWritten (shown by Uploader.UnsupportedTypeStillWrites, Uploader.BmpThumbnailExample and Handlers.AsWrittenHandlerWritesUnsupported) | Uploader.Upload, whose contract says an unsupported type writes nothing, and Handlers.UploadImages on top of it, whose writes all have supported types; Handlers.AsWrittenHandlerAgrees proves the responses and store are unchanged by the correction |
