/**
 * The image formats the service accepts and where an uploaded image is
 * stored: `getExtension` and the storage path built by
 * `uploadImageFromBase64` in functions/index.js.
 */
module Media {
  import opened Wrappers

  /** The two image slots of a resource; the name is the `target` the handler passes. */
  datatype Role = Thumbnail | Marker

  function RoleName(role: Role): string {
    match role
    case Thumbnail => "thumbnail"
    case Marker => "marker"
  }

  /**
   * The error `getExtension` throws on a type outside its whitelist. Its
   * message is fixed ("mimeType was not what was expected; ^image/(jpeg|png|gif)$
   * are allowed", in Japanese) and does not name the offending type.
   */
  const ExtensionError := JsError("mimeTypeが期待するものではありませんでした。^image/(jpeg|png|gif)$が許可されています。")

  /** The whitelisted MIME types. */
  predicate Supported(mimeType: string) {
    mimeType in {"image/jpeg", "image/png", "image/gif"}
  }

  /** The extensions `getExtension` can return. */
  const Extensions: set<string> := {".jpg", ".png", ".gif"}

  /** The MIME type an extension stands for; the inverse of `GetExtension`. */
  function MimeTypeFor(ext: string): (mimeType: string)
    requires ext in Extensions
    ensures Supported(mimeType)
  {
    if ext == ".jpg" then "image/jpeg"
    else if ext == ".png" then "image/png"
    else "image/gif"
  }

  /**
   * `getExtension`: the extension for a whitelisted MIME type (compared with
   * `===`, so case and parameters matter), a thrown error for anything else.
   */
  function GetExtension(mimeType: string): (r: Result<string, JsError>)
    ensures r.Success? <==> Supported(mimeType)
    ensures r.Success? ==> r.value in Extensions && MimeTypeFor(r.value) == mimeType
    ensures r.Failure? ==> r.error == ExtensionError
  {
    match mimeType
    case "image/jpeg" => Success(".jpg")
    case "image/png" => Success(".png")
    case "image/gif" => Success(".gif")
    case _ => Failure(ExtensionError)
  }

  /** Every accepted extension is reached from exactly one MIME type. */
  lemma ExtensionRoundTrip(ext: string)
    requires ext in Extensions
    ensures GetExtension(MimeTypeFor(ext)) == Success(ext)
  {
  }

  /** The folder all images live under. */
  const ImagesPrefix := "/images/"

  /** `'/images/' + id + '/' + target + ext`: where one image of one resource is stored. */
  function StoragePath(id: string, role: Role, ext: string): string {
    ImagesPrefix + id + "/" + RoleName(role) + ext
  }

  /** The components a storage path was built from. */
  datatype PathParts = PathParts(id: string, role: Role, ext: string)

  /** The separator and role name that end the stem of a storage path. */
  function RoleTail(role: Role): string {
    "/" + RoleName(role)
  }

  predicate EndsWith(s: string, suffix: string) {
    |suffix| <= |s| && s[|s| - |suffix|..] == suffix
  }

  /** The path without the images folder prefix. */
  function StripPrefix(path: string): Option<string> {
    if |ImagesPrefix| <= |path| && path[..|ImagesPrefix|] == ImagesPrefix then Some(path[|ImagesPrefix|..])
    else None
  }

  /** Splits off the extension; every accepted one has four characters. */
  function SplitExtension(rest: string): Option<(string, string)> {
    if 4 <= |rest| && rest[|rest| - 4..] in Extensions then Some((rest[..|rest| - 4], rest[|rest| - 4..]))
    else None
  }

  /** Splits off the role name after the last separator; what is left is the resource id. */
  function SplitRole(stem: string): Option<(string, Role)> {
    if EndsWith(stem, RoleTail(Thumbnail)) then Some((stem[..|stem| - |RoleTail(Thumbnail)|], Thumbnail))
    else if EndsWith(stem, RoleTail(Marker)) then Some((stem[..|stem| - |RoleTail(Marker)|], Marker))
    else None
  }

  /** Recovers `(id, role, ext)` from a storage path, or `None` for a path no accepted upload has. */
  function ParsePath(path: string): (r: Option<PathParts>)
    ensures r.Some? ==> r.value.ext in Extensions
  {
    match StripPrefix(path)
    case None => None
    case Some(rest) =>
      match SplitExtension(rest)
      case None => None
      case Some((stem, ext)) =>
        match SplitRole(stem)
        case None => None
        case Some((id, role)) => Some(PathParts(id, role, ext))
  }

  /** Splitting a concatenation where its parts meet gives the parts back. */
  lemma SplitConcat(a: string, b: string)
    ensures (a + b)[..|a|] == a && (a + b)[|a|..] == b
  {
  }

  lemma SplitRoleRoundTrip(id: string, role: Role)
    ensures SplitRole(id + RoleTail(role)) == Some((id, role))
  {
    var stem := id + RoleTail(role);
    SplitConcat(id, RoleTail(role));
    assert EndsWith(stem, RoleTail(role));
    if role == Marker {
      assert stem[|stem| - 1] == 'r';
      assert !EndsWith(stem, RoleTail(Thumbnail));
    }
  }

  lemma SplitRoleInverse(stem: string)
    requires SplitRole(stem).Some?
    ensures stem == SplitRole(stem).value.0 + RoleTail(SplitRole(stem).value.1)
  {
  }

  lemma SplitExtensionRoundTrip(stem: string, ext: string)
    requires ext in Extensions
    ensures SplitExtension(stem + ext) == Some((stem, ext))
  {
  }

  lemma SplitExtensionInverse(rest: string)
    requires SplitExtension(rest).Some?
    ensures rest == SplitExtension(rest).value.0 + SplitExtension(rest).value.1
  {
  }

  lemma StripPrefixRoundTrip(rest: string)
    ensures StripPrefix(ImagesPrefix + rest) == Some(rest)
  {
  }

  lemma StripPrefixInverse(path: string)
    requires StripPrefix(path).Some?
    ensures path == ImagesPrefix + StripPrefix(path).value
  {
  }

  /** The storage path, regrouped the way `ParsePath` takes it apart. */
  lemma StoragePathShape(id: string, role: Role, ext: string)
    ensures StoragePath(id, role, ext) == ImagesPrefix + ((id + RoleTail(role)) + ext)
  {
  }

  /** A path built from an accepted extension parses back to what it was built from, whatever the id. */
  lemma ParseStoragePath(id: string, role: Role, ext: string)
    requires ext in Extensions
    ensures ParsePath(StoragePath(id, role, ext)) == Some(PathParts(id, role, ext))
  {
    StoragePathShape(id, role, ext);
    StripPrefixRoundTrip((id + RoleTail(role)) + ext);
    SplitExtensionRoundTrip(id + RoleTail(role), ext);
    SplitRoleRoundTrip(id, role);
  }

  /** A path that parses is exactly the storage path of its parts. */
  lemma ParsedPathIsStoragePath(path: string)
    requires ParsePath(path).Some?
    ensures var parts := ParsePath(path).value;
      StoragePath(parts.id, parts.role, parts.ext) == path
  {
    var parts := ParsePath(path).value;
    StripPrefixInverse(path);
    var rest := StripPrefix(path).value;
    SplitExtensionInverse(rest);
    var stem := SplitExtension(rest).value.0;
    SplitRoleInverse(stem);
    StoragePathShape(parts.id, parts.role, parts.ext);
  }

  /**
   * The thumbnail and the marker of one resource never share a storage path,
   * whatever follows the role name (including the "undefined" an unsupported
   * type leaves there).
   */
  lemma RolesHaveDistinctPaths(id: string, thumbnailExt: string, markerExt: string)
    ensures StoragePath(id, Thumbnail, thumbnailExt) != StoragePath(id, Marker, markerExt)
  {
    var k := |ImagesPrefix + id + "/"|;
    assert StoragePath(id, Thumbnail, thumbnailExt)[k] == 't';
    assert StoragePath(id, Marker, markerExt)[k] == 'm';
  }

  /** Distinct resources, roles or extensions give distinct storage paths. */
  lemma StoragePathInjective(a: PathParts, b: PathParts)
    requires a.ext in Extensions && b.ext in Extensions
    requires StoragePath(a.id, a.role, a.ext) == StoragePath(b.id, b.role, b.ext)
    ensures a == b
  {
    ParseStoragePath(a.id, a.role, a.ext);
    ParseStoragePath(b.id, b.role, b.ext);
  }
}
