/**
 * `onSaveInstanceState` / `onRestoreInstanceState`: the session written into
 * and read back from a Bundle, modelled as a map from keys to values.
 */
module InstanceState {
  import opened Wrappers
  import opened Platform
  import opened Session

  const BitmapKey: string := "qrCodeBitmap"
  const UrlKey: string := "qrCodeUrl"
  const UriKey: string := "qrCodeImageUri"

  /** A Bundle entry: a (possibly null) parcelable bitmap or a (possibly null) string. */
  datatype BundleValue = ParcelableValue(parcelable: Option<Bitmap>) | StringValue(text: Option<string>)

  type Bundle = map<string, BundleValue>

  /** `getParcelable(key)`: null when the key is missing or holds no parcelable. */
  function GetParcelable(b: Bundle, key: string): (r: Option<Bitmap>)
    ensures r.Some? ==> key in b && b[key] == ParcelableValue(r)
  {
    if key in b && b[key].ParcelableValue? then b[key].parcelable else None
  }

  /** `getString(key)`: null when the key is missing or holds no string. */
  function GetString(b: Bundle, key: string): (r: Option<string>)
    ensures r.Some? ==> key in b && b[key] == StringValue(r)
  {
    if key in b && b[key].StringValue? then b[key].text else None
  }

  /**
   * What `onSaveInstanceState` leaves in `outState`: the bitmap and the URL
   * are always put (null included), the URI only when it is set, as its
   * string form; every other key is left as it was.
   */
  function SaveSession(s: SessionState, outState: Bundle): (b: Bundle)
    ensures BitmapKey in b && b[BitmapKey] == ParcelableValue(s.bitmap)
    ensures UrlKey in b && b[UrlKey] == StringValue(s.url)
    ensures s.imageUri.Some? ==> UriKey in b && b[UriKey] == StringValue(Some(UriToString(s.imageUri.value)))
    ensures s.imageUri.None? ==> (UriKey in b <==> UriKey in outState)
    ensures forall k :: k in outState && k != BitmapKey && k != UrlKey && (k != UriKey || s.imageUri.None?) ==> k in b && b[k] == outState[k]
    ensures b.Keys == outState.Keys + {BitmapKey, UrlKey} + (if s.imageUri.Some? then {UriKey} else {})
  {
    var withBitmap := outState[BitmapKey := ParcelableValue(s.bitmap)];
    var withUrl := withBitmap[UrlKey := StringValue(s.url)];
    match s.imageUri
    case Some(uri) => withUrl[UriKey := StringValue(Some(UriToString(uri)))]
    case None => withUrl
  }

  /** What `onRestoreInstanceState` reads back into the three fields. */
  function RestoreSession(b: Bundle): (s: SessionState)
    ensures s.imageUri.Some? ==> UriKey in b
  {
    var uri := match GetString(b, UriKey)
      case Some(text) => Some(ParseUri(text))
      case None => None;
    SessionState(GetParcelable(b, BitmapKey), GetString(b, UrlKey), uri)
  }

  /**
   * Restoring a saved state gives back the bitmap, URL and URI that were
   * saved, a null URI (whose key was omitted) included, provided the
   * incoming bundle did not already hold the URI key.
   */
  lemma RestoreAfterSave(s: SessionState, outState: Bundle)
    requires UriKey !in outState
    ensures RestoreSession(SaveSession(s, outState)) == s
  {
    var b := SaveSession(s, outState);
    assert GetParcelable(b, BitmapKey) == s.bitmap;
    assert GetString(b, UrlKey) == s.url;
    match s.imageUri
    case Some(uri) =>
      assert GetString(b, UriKey) == Some(uri.text);
    case None =>
      assert UriKey !in b;
  }

  /**
   * Why a fresh bundle matters: a URI entry already in the bundle is left as
   * it is when the URI is null, and restoring then brings that URI back.
   */
  lemma StaleUriSurvivesSave(s: SessionState, outState: Bundle, text: string)
    requires s.imageUri.None?
    requires UriKey in outState && outState[UriKey] == StringValue(Some(text))
    ensures RestoreSession(SaveSession(s, outState)).imageUri == Some(ParseUri(text))
  {
    assert GetString(SaveSession(s, outState), UriKey) == Some(text);
  }
}
