/**
 * The record store: the realtime database node `/resource/<id>`, seen as a
 * map from resource id to record. A record's properties may be absent, as
 * in the JSON the database holds.
 */
module Records {
  import opened Wrappers

  /** A string property of a request body or a stored record, possibly absent. */
  type Field = Option<string>

  /** JavaScript truthiness of a string property: present and not `''`. */
  predicate Truthy(f: Field) {
    f.Some? && f.value != ""
  }

  /** `value || ''`: the property's text, or `''` when it is absent or empty. */
  function OrEmpty(f: Field): (text: string)
    ensures text == "" <==> !Truthy(f)
    ensures Truthy(f) ==> text == f.value
  {
    f.GetOr("")
  }

  /** One resource as stored under `/resource/<id>`. */
  datatype Record = Record(
    name: Field,
    facebookId: Field,
    instagramId: Field,
    twitterId: Field,
    lineId: Field,
    url: Field,
    thumbnailUrl: Field,
    markerUrl: Field,
    lastAccess: Option<int>)

  /** The node a partial update starts from when nothing is stored at the key. */
  const NoRecord := Record(None, None, None, None, None, None, None, None, None)

  type Store = map<string, Record>

  /** The stored record at `id`, or the empty node when there is none. */
  function Lookup(store: Store, id: string): Record {
    if id in store then store[id] else NoRecord
  }

  /** The partial update the upload handler issues: `ref.update({thumbnailUrl, markerUrl})`. */
  datatype AssetUpdate = AssetUpdate(id: string, thumbnailUrl: string, markerUrl: string)

  /** The two records agree on every property except the two image URLs. */
  predicate SameExceptAssets(a: Record, b: Record) {
    a.(thumbnailUrl := None, markerUrl := None) == b.(thumbnailUrl := None, markerUrl := None)
  }

  /** The two records agree on every property except `lastAccess`. */
  predicate SameExceptLastAccess(a: Record, b: Record) {
    a.(lastAccess := None) == b.(lastAccess := None)
  }

  /** Every key other than `id` holds the same record in both stores. */
  predicate OthersUnchanged(before: Store, after: Store, id: string) {
    && before.Keys - {id} == after.Keys - {id}
    && forall k :: k in before && k != id ==> k in after && after[k] == before[k]
  }

  /**
   * Applies a partial update: the two URLs are overwritten, every other
   * property keeps its value, and a missing node is created holding only
   * the two URLs.
   */
  function ApplyAssetUpdate(store: Store, u: AssetUpdate): (after: Store)
    ensures after.Keys == store.Keys + {u.id}
    ensures OthersUnchanged(store, after, u.id)
    ensures after[u.id].thumbnailUrl == Some(u.thumbnailUrl)
    ensures after[u.id].markerUrl == Some(u.markerUrl)
    ensures SameExceptAssets(after[u.id], Lookup(store, u.id))
  {
    store[u.id := Lookup(store, u.id).(thumbnailUrl := Some(u.thumbnailUrl), markerUrl := Some(u.markerUrl))]
  }

  /** `ref.update({lastAccess: now})` on an existing record. */
  function StampLastAccess(store: Store, id: string, now: int): (after: Store)
    requires id in store
    ensures after.Keys == store.Keys
    ensures OthersUnchanged(store, after, id)
    ensures after[id].lastAccess == Some(now)
    ensures SameExceptLastAccess(after[id], store[id])
  {
    store[id := store[id].(lastAccess := Some(now))]
  }

  /**
   * The pairing the service keeps between the two image URLs: both present
   * or both absent, and both empty or both filled.
   */
  predicate AssetsPaired(r: Record) {
    && r.thumbnailUrl.Some? == r.markerUrl.Some?
    && Truthy(r.thumbnailUrl) == Truthy(r.markerUrl)
  }

  predicate StoreInvariant(store: Store) {
    forall id :: id in store ==> AssetsPaired(store[id])
  }
}
