/** The link opened in the browser and the share request built from the session. */
module Links {
  import opened Wrappers
  import opened Platform

  /** The scheme put in front of every decoded text before it is opened. */
  const HttpScheme: string := "http://"

  /** `"http://$url"`: the decoded text behind a fixed insecure scheme, unchecked. */
  function BrowserUrl(text: string): (r: string)
    ensures |r| == |HttpScheme| + |text|
    ensures r[..|HttpScheme|] == HttpScheme && r[|HttpScheme|..] == text
  {
    HttpScheme + text
  }

  /** Different decoded texts open different links. */
  lemma BrowserUrlInjective(a: string, b: string)
    requires BrowserUrl(a) == BrowserUrl(b)
    ensures a == b
  {
    assert a == BrowserUrl(a)[|HttpScheme|..];
  }

  /** A text that already has a scheme gets a second one: no scheme detection. */
  lemma BrowserUrlDoesNotDetectScheme()
    ensures BrowserUrl("https://example.com") == "http://https://example.com"
  {
  }

  const ShareMimeType: string := "image/jpeg"
  const ShareCaptionPrefix: string := "Посилання з QR-коду: "
  const ShareChooserTitle: string := "Share via..."

  /** An ACTION_SEND intent wrapped in a chooser. */
  datatype ShareIntent = ShareIntent(
    mimeType: string,
    stream: Uri,
    text: string,
    grantReadUriPermission: bool,
    chooserTitle: string)

  /**
   * The guard and intent of `shareQRCodeImage`: nothing to share when the
   * image URI or the decoded text is missing, otherwise a JPEG share of the
   * stored URI captioned with the decoded text.
   */
  function ShareRequest(imageUri: Option<Uri>, url: Option<string>): (r: Option<ShareIntent>)
    ensures r.None? <==> imageUri.None? || url.None?
    ensures r.Some? ==> r.value.mimeType == ShareMimeType && r.value.stream == imageUri.value
    ensures r.Some? ==> |r.value.text| == |ShareCaptionPrefix| + |url.value|
    ensures r.Some? ==> r.value.text[..|ShareCaptionPrefix|] == ShareCaptionPrefix
    ensures r.Some? ==> r.value.text[|ShareCaptionPrefix|..] == url.value
    ensures r.Some? ==> r.value.grantReadUriPermission
  {
    if imageUri.None? || url.None? then None
    else Some(ShareIntent(ShareMimeType, imageUri.value, ShareCaptionPrefix + url.value, true, ShareChooserTitle))
  }
}
