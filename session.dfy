/**
 * The session of MainActivity as values: its three nullable fields, the
 * effects its callbacks ask of the platform, and one function per callback
 * giving the new fields and the effects in the order the callback issues
 * them. The callbacks of the class in module Activity are proved to follow
 * these functions.
 */
module Session {
  import opened Wrappers
  import opened Platform
  import opened Barcodes
  import opened Links
  import opened Permissions

  /** `qrCodeBitmap`, `qrCodeUrl` and `qrCodeImageUri`. */
  datatype SessionState = SessionState(bitmap: Option<Bitmap>, url: Option<string>, imageUri: Option<Uri>)

  /** All three fields start out null. */
  const Initial: SessionState := SessionState(None, None, None)

  /** What writing the image file ends in: the provider URI of the file, or an IOException. */
  datatype SaveOutcome = Written(uri: Uri) | IoFailure

  /** A request the activity makes of the platform. */
  datatype Effect =
    | ShowImage(bitmap: Bitmap)                                   // imageView.setImageBitmap
    | StartScan(bitmap: Bitmap)                                   // scanner.process
    | WriteImageFile(fileName: string, bitmap: Bitmap, quality: nat) // JPEG into filesDir
    | OpenLink(link: string)                                      // ACTION_VIEW
    | OpenShareChooser(intent: ShareIntent)                       // ACTION_SEND in a chooser
    | Gate(action: GateAction)                                    // camera launch or permission request
    | Toast(message: Message)

  /** The session after a callback, and the effects the callback issued. */
  datatype Step = Step(state: SessionState, effects: seq<Effect>)

  const ImageFileName: string := "qrcode_image.jpg"
  const JpegQuality: nat := 10

  /**
   * The camera result callback: a confirmed result that carries a bitmap
   * replaces the bitmap, shows it and starts a scan; anything else changes
   * nothing and reports nothing. The URL and URI are never touched.
   */
  function Capture(s: SessionState, resultCode: int, data: Option<Bitmap>): (r: Step)
    ensures r.state.url == s.url && r.state.imageUri == s.imageUri
    ensures resultCode == ResultOk && data.Some? ==>
      r.state.bitmap == data && r.effects == [ShowImage(data.value), StartScan(data.value)]
    ensures resultCode != ResultOk || data.None? ==> r == Step(s, [])
  {
    if resultCode == ResultOk then
      match data
      case Some(it) => Step(s.(bitmap := Some(it)), [ShowImage(it), StartScan(it)])
      case None => Step(s, [])
    else Step(s, [])
  }

  /** The capture button: the permission gate decides the one effect; the session is untouched. */
  function CheckPermissions(s: SessionState, granted: set<Permission>): (r: Step)
    ensures r.state == s && r.effects == [Gate(PermissionGate(granted))]
    ensures r.effects[0].action.LaunchCamera? <==> forall p :: p in RequiredPermissions ==> p in granted
    ensures r.effects[0].action.RequestPermissions? ==>
      r.effects[0].action == RequestPermissions(NotGranted(RequiredPermissions, granted), PermissionRequestCode)
  {
    Step(s, [Gate(PermissionGate(granted))])
  }

  /**
   * `saveImage`: the file write is attempted; on success the URI becomes the
   * file's handle, on failure the URI keeps whatever it held and a toast
   * reports it. Bitmap and URL are never touched.
   */
  function Save(s: SessionState, bitmap: Bitmap, outcome: SaveOutcome): (r: Step)
    ensures r.state.bitmap == s.bitmap && r.state.url == s.url
    ensures outcome.Written? ==> r.state.imageUri == Some(outcome.uri)
    ensures outcome.IoFailure? ==> r.state.imageUri == s.imageUri
    ensures r.effects == [WriteImageFile(ImageFileName, bitmap, JpegQuality)]
                         + (if outcome.IoFailure? then [Toast(FailedToSaveImage)] else [])
    ensures Toast(FailedToSaveImage) in r.effects <==> outcome.IoFailure?
  {
    match outcome
    case Written(uri) =>
      Step(s.(imageUri := Some(uri)), [WriteImageFile(ImageFileName, bitmap, JpegQuality)])
    case IoFailure =>
      Step(s, [WriteImageFile(ImageFileName, bitmap, JpegQuality), Toast(FailedToSaveImage)])
  }

  /**
   * The scanner's success listener, run with the bitmap the scan was started
   * on: take the first QR code; set the URL to its resolved text (even when
   * that is null); when there is a text, save the image and then open it.
   */
  function ScanSuccess(s: SessionState, bitmap: Bitmap, barcodes: seq<Barcode>, save: SaveOutcome): (r: Step)
    ensures r.state.bitmap == s.bitmap
    ensures r.state.imageUri == s.imageUri || (save.Written? && r.state.imageUri == Some(save.uri))
  {
    match FirstQrCode(barcodes)
    case None => Step(s, [Toast(NoQrCodeFound)])
    case Some(qrCode) =>
      var s1 := s.(url := ResolveText(qrCode));
      match s1.url
      case None => Step(s1, [Toast(NoUrlInQrCode)])
      case Some(text) =>
        var saved := Save(s1, bitmap, save);
        Step(saved.state, saved.effects + [OpenLink(BrowserUrl(text))])
  }

  /** The scanner's failure listener only reports. */
  function ScanFailure(s: SessionState): (r: Step)
    ensures r.state == s && r.effects == [Toast(FailedToProcessImage)]
  {
    Step(s, [Toast(FailedToProcessImage)])
  }

  /** Share-readiness is the share guard: both URI and URL present. */
  predicate ShareReady(s: SessionState)
  {
    s.imageUri.Some? && s.url.Some?
  }

  /**
   * `shareQRCodeImage`: with the URI or the URL missing, report and dispatch
   * nothing; otherwise open the share chooser, reporting when no app takes
   * it. The session is never changed.
   */
  function Share(s: SessionState, chooserAvailable: bool): (r: Step)
    ensures r.state == s && |r.effects| >= 1
    ensures !ShareReady(s) <==> r.effects == [Toast(NothingToShare)]
    ensures ShareReady(s) <==> r.effects[0].OpenShareChooser?
    ensures ShareReady(s) ==>
      r.effects[0].intent.stream == s.imageUri.value && r.effects[0].intent.mimeType == ShareMimeType
      && r.effects[0].intent.text == ShareCaptionPrefix + s.url.value
    ensures ShareReady(s) ==>
      r.effects == [OpenShareChooser(ShareRequest(s.imageUri, s.url).value)]
                   + (if chooserAvailable then [] else [Toast(NoCompatibleApp)])
  {
    match ShareRequest(s.imageUri, s.url)
    case None => Step(s, [Toast(NothingToShare)])
    case Some(intent) =>
      var effects := [OpenShareChooser(intent)] + (if chooserAvailable then [] else [Toast(NoCompatibleApp)]);
      assert effects[0] != Toast(NothingToShare);
      Step(s, effects)
  }

  /** No QR code among the candidates: nothing is saved or opened and no field changes. */
  lemma ScanWithoutQrCode(s: SessionState, bitmap: Bitmap, barcodes: seq<Barcode>, save: SaveOutcome)
    requires forall j :: 0 <= j < |barcodes| ==> !IsQrCode(barcodes[j])
    ensures ScanSuccess(s, bitmap, barcodes, save) == Step(s, [Toast(NoQrCodeFound)])
  {
  }

  /** A QR code without any text clears the URL, keeps the URI, and saves and opens nothing. */
  lemma ScanWithoutText(s: SessionState, bitmap: Bitmap, barcodes: seq<Barcode>, save: SaveOutcome)
    requires FirstQrCode(barcodes).Some?
    requires BookmarkUrl(FirstQrCode(barcodes).value).None?
    requires FirstQrCode(barcodes).value.displayValue.None?
    ensures ScanSuccess(s, bitmap, barcodes, save) == Step(s.(url := None), [Toast(NoUrlInQrCode)])
  {
  }

  /**
   * A QR code with a text: the URL becomes that text; the image is written
   * first, a failed write is reported, and the link "http://" + text is
   * opened last whatever the write did; the URI changes only on success.
   */
  lemma ScanWithText(s: SessionState, bitmap: Bitmap, barcodes: seq<Barcode>, save: SaveOutcome, text: string)
    requires FirstQrCode(barcodes).Some? && ResolveText(FirstQrCode(barcodes).value) == Some(text)
    ensures var r := ScanSuccess(s, bitmap, barcodes, save);
      && r.state == SessionState(s.bitmap, Some(text), if save.Written? then Some(save.uri) else s.imageUri)
      && r.effects == [WriteImageFile(ImageFileName, bitmap, JpegQuality)]
                      + (if save.IoFailure? then [Toast(FailedToSaveImage)] else [])
                      + [OpenLink("http://" + text)]
  {
  }

  /** The image write comes strictly before the one link opened, and the link is the last effect. */
  lemma SaveBeforeOpen(s: SessionState, bitmap: Bitmap, barcodes: seq<Barcode>, save: SaveOutcome, text: string)
    requires FirstQrCode(barcodes).Some? && ResolveText(FirstQrCode(barcodes).value) == Some(text)
    ensures var e := ScanSuccess(s, bitmap, barcodes, save).effects;
      && |e| >= 2 && e[0].WriteImageFile? && e[|e| - 1] == OpenLink(BrowserUrl(text))
      && forall i :: 0 <= i < |e| - 1 ==> !e[i].OpenLink?
  {
    ScanWithText(s, bitmap, barcodes, save, text);
  }

  /**
   * A failed save after a decode keeps the earlier URI, keeps the new URL,
   * reports the failure and still opens the link.
   */
  lemma FailedSaveKeepsPriorUri(s: SessionState, bitmap: Bitmap, barcodes: seq<Barcode>, text: string)
    requires FirstQrCode(barcodes).Some? && ResolveText(FirstQrCode(barcodes).value) == Some(text)
    ensures var r := ScanSuccess(s, bitmap, barcodes, IoFailure);
      && r.state.imageUri == s.imageUri && r.state.url == Some(text)
      && Toast(FailedToSaveImage) in r.effects && OpenLink(BrowserUrl(text)) in r.effects
  {
    ScanWithText(s, bitmap, barcodes, IoFailure, text);
  }

  /**
   * A later capture that finds no QR code, or whose scan fails, leaves the
   * URL and URI of the earlier cycle in place; only the bitmap is new.
   */
  lemma EarlierResultSurvives(s: SessionState, b: Bitmap, barcodes: seq<Barcode>, save: SaveOutcome, scanFails: bool)
    requires forall j :: 0 <= j < |barcodes| ==> !IsQrCode(barcodes[j])
    ensures var captured := Capture(s, ResultOk, Some(b)).state;
      var after := if scanFails then ScanFailure(captured) else ScanSuccess(captured, b, barcodes, save);
      after.state == SessionState(Some(b), s.url, s.imageUri)
  {
    ScanWithoutQrCode(Capture(s, ResultOk, Some(b)).state, b, barcodes, save);
  }

  /**
   * The URL and URI are not kept together: from a fresh session, one capture
   * whose QR code decodes but whose save fails leaves a URL without a URI,
   * and share then reports that there is nothing to share.
   */
  lemma UrlWithoutUriReachable(b: Bitmap, qrCode: Barcode, text: string)
    requires IsQrCode(qrCode) && ResolveText(qrCode) == Some(text)
    ensures var captured := Capture(Initial, ResultOk, Some(b)).state;
      var scanned := ScanSuccess(captured, b, [qrCode], IoFailure).state;
      && scanned.url == Some(text) && scanned.imageUri.None?
      && Share(scanned, true).effects == [Toast(NothingToShare)]
  {
    FirstQrCodeIsFirst([qrCode], 0);
    ScanWithText(Capture(Initial, ResultOk, Some(b)).state, b, [qrCode], IoFailure, text);
  }

  /**
   * A failed save does not take the session out of share-readiness: with an
   * image URI from an earlier cycle, share goes ahead with that URI and the
   * new cycle's text.
   */
  lemma FailedSaveStillShares(s: SessionState, b: Bitmap, qrCode: Barcode, text: string)
    requires s.imageUri.Some?
    requires IsQrCode(qrCode) && ResolveText(qrCode) == Some(text)
    ensures var scanned := ScanSuccess(s, b, [qrCode], IoFailure).state;
      && ShareReady(scanned)
      && Share(scanned, true).effects == [OpenShareChooser(ShareRequest(s.imageUri, Some(text)).value)]
  {
    FirstQrCodeIsFirst([qrCode], 0);
    ScanWithText(s, b, [qrCode], IoFailure, text);
  }

  /**
   * No stale-callback protection: when a first scan's result lands after a
   * second capture, it sets the URL and saves the first bitmap while the
   * session holds the second.
   */
  lemma LateScanResultOverwrites(s: SessionState, b1: Bitmap, b2: Bitmap, qrCode: Barcode, text: string, save: SaveOutcome)
    requires IsQrCode(qrCode) && ResolveText(qrCode) == Some(text)
    ensures var first := Capture(s, ResultOk, Some(b1)).state;
      var second := Capture(first, ResultOk, Some(b2)).state;
      var late := ScanSuccess(second, b1, [qrCode], save);
      && late.state.bitmap == Some(b2) && late.state.url == Some(text)
      && late.effects[0] == WriteImageFile(ImageFileName, b1, JpegQuality)
  {
    FirstQrCodeIsFirst([qrCode], 0);
    var second := Capture(Capture(s, ResultOk, Some(b1)).state, ResultOk, Some(b2)).state;
    ScanWithText(second, b1, [qrCode], save, text);
  }

  /**
   * A code of another format in front of a QR code carrying "example.com"
   * is skipped: the URL is "example.com" and "http://example.com" is opened.
   */
  lemma SkipsOtherFormatExample(s: SessionState, b: Bitmap, save: SaveOutcome, other: Barcode)
    requires !IsQrCode(other)
    ensures var qrCode := Barcode(FormatQrCode, None, Some("example.com"));
      var r := ScanSuccess(s, b, [other, qrCode], save);
      && r.state.url == Some("example.com")
      && r.effects[|r.effects| - 1] == OpenLink("http://example.com")
  {
    var qrCode := Barcode(FormatQrCode, None, Some("example.com"));
    FirstQrCodeIsFirst([other, qrCode], 1);
    SaveBeforeOpen(s, b, [other, qrCode], save, "example.com");
  }
}
