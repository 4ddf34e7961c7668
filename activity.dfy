/**
 * MainActivity: the three nullable session fields, updated in place by the
 * activity's callbacks, and the log of what it has asked the platform to do.
 * The callbacks are proved to follow the matching function of module
 * Session; the instance-state methods follow module InstanceState, and the
 * two helpers ProcessQrCode and OpenUrlInBrowser state their single effect.
 */
module Activity {
  import opened Wrappers
  import opened Platform
  import opened Barcodes
  import opened Links
  import opened Permissions
  import opened Session
  import opened InstanceState

  class MainActivity {
    var qrCodeBitmap: Option<Bitmap>
    var qrCodeUrl: Option<string>
    var qrCodeImageUri: Option<Uri>
    /** Every request made of the platform so far, oldest first. */
    var effects: seq<Effect>

    function State(): SessionState
      reads this
    {
      SessionState(qrCodeBitmap, qrCodeUrl, qrCodeImageUri)
    }

    constructor ()
      ensures State() == Initial && effects == []
    {
      qrCodeBitmap := None;
      qrCodeUrl := None;
      qrCodeImageUri := None;
      effects := [];
    }

    /** The capture button's handler. */
    method CheckPermissionsAndLaunchCamera(granted: set<Permission>)
      modifies this
      ensures State() == old(State())
      ensures effects == old(effects) + CheckPermissions(old(State()), granted).effects
    {
      var permissionsNeeded := NotGranted(RequiredPermissions, granted);
      if |permissionsNeeded| > 0 {
        effects := effects + [Gate(RequestPermissions(permissionsNeeded, PermissionRequestCode))];
      } else {
        effects := effects + [Gate(LaunchCamera)];
      }
    }

    /** The camera result callback (`cameraLauncher`). */
    method OnCaptureResult(resultCode: int, data: Option<Bitmap>)
      modifies this
      ensures State() == Capture(old(State()), resultCode, data).state
      ensures effects == old(effects) + Capture(old(State()), resultCode, data).effects
    {
      if resultCode == ResultOk {
        if data.Some? {
          var it := data.value;
          qrCodeBitmap := Some(it);
          effects := effects + [ShowImage(it)];
          ProcessQrCode(it);
        }
      }
    }

    /** Hands the bitmap to the scanner; its result arrives later as OnScanSuccess or OnScanFailure. */
    method ProcessQrCode(bitmap: Bitmap)
      modifies this
      ensures State() == old(State())
      ensures effects == old(effects) + [StartScan(bitmap)]
    {
      effects := effects + [StartScan(bitmap)];
    }

    /** The scanner's success listener, for a scan started on `bitmap`. */
    method OnScanSuccess(bitmap: Bitmap, barcodes: seq<Barcode>, save: SaveOutcome)
      modifies this
      ensures State() == ScanSuccess(old(State()), bitmap, barcodes, save).state
      ensures effects == old(effects) + ScanSuccess(old(State()), bitmap, barcodes, save).effects
    {
      var qrCode := FirstQrCode(barcodes);
      if qrCode.Some? {
        qrCodeUrl := ResolveText(qrCode.value);
        if qrCodeUrl.Some? {
          var it := qrCodeUrl.value;
          ghost var decoded := State();
          SaveImage(bitmap, save);
          assert State() == Save(decoded, bitmap, save).state;
          OpenUrlInBrowser(it);
        } else {
          effects := effects + [Toast(NoUrlInQrCode)];
        }
      } else {
        effects := effects + [Toast(NoQrCodeFound)];
      }
    }

    /** The scanner's failure listener. */
    method OnScanFailure()
      modifies this
      ensures State() == ScanFailure(old(State())).state
      ensures effects == old(effects) + ScanFailure(old(State())).effects
    {
      effects := effects + [Toast(FailedToProcessImage)];
    }

    method OpenUrlInBrowser(url: string)
      modifies this
      ensures State() == old(State())
      ensures effects == old(effects) + [OpenLink(BrowserUrl(url))]
    {
      var modifiedUrl := HttpScheme + url;
      effects := effects + [OpenLink(modifiedUrl)];
    }

    /** Writes the fixed-name JPEG; the write's result is `outcome`. */
    method SaveImage(bitmap: Bitmap, outcome: SaveOutcome)
      modifies this
      ensures State() == Save(old(State()), bitmap, outcome).state
      ensures effects == old(effects) + Save(old(State()), bitmap, outcome).effects
    {
      effects := effects + [WriteImageFile(ImageFileName, bitmap, JpegQuality)];
      match outcome
      case Written(uri) =>
        qrCodeImageUri := Some(uri);
      case IoFailure =>
        effects := effects + [Toast(FailedToSaveImage)];
    }

    /** The send button's handler; `chooserAvailable` is false when starting the chooser throws. */
    method ShareQrCodeImage(chooserAvailable: bool)
      modifies this
      ensures State() == old(State())
      ensures effects == old(effects) + Share(old(State()), chooserAvailable).effects
    {
      if qrCodeImageUri.None? || qrCodeUrl.None? {
        effects := effects + [Toast(NothingToShare)];
        return;
      }
      var shareIntent := ShareIntent(ShareMimeType, qrCodeImageUri.value,
        ShareCaptionPrefix + qrCodeUrl.value, true, ShareChooserTitle);
      effects := effects + [OpenShareChooser(shareIntent)];
      if !chooserAvailable {
        effects := effects + [Toast(NoCompatibleApp)];
      }
    }

    /** Puts the session into `outState`; the activity itself is left unchanged. */
    method OnSaveInstanceState(outState: Bundle) returns (saved: Bundle)
      ensures saved == SaveSession(State(), outState)
      ensures UriKey !in outState ==> RestoreSession(saved) == State()
    {
      saved := outState[BitmapKey := ParcelableValue(qrCodeBitmap)];
      saved := saved[UrlKey := StringValue(qrCodeUrl)];
      if qrCodeImageUri.Some? {
        saved := saved[UriKey := StringValue(Some(UriToString(qrCodeImageUri.value)))];
      }
      if UriKey !in outState {
        RestoreAfterSave(State(), outState);
      }
    }

    /** Reads the session back and shows the restored bitmap, if any. */
    method OnRestoreInstanceState(savedInstanceState: Bundle)
      modifies this
      ensures State() == RestoreSession(savedInstanceState)
      ensures effects == old(effects) + (if qrCodeBitmap.Some? then [ShowImage(qrCodeBitmap.value)] else [])
    {
      qrCodeBitmap := GetParcelable(savedInstanceState, BitmapKey);
      qrCodeUrl := GetString(savedInstanceState, UrlKey);
      var uriText := GetString(savedInstanceState, UriKey);
      qrCodeImageUri := if uriText.Some? then Some(ParseUri(uriText.value)) else None;
      if qrCodeBitmap.Some? {
        effects := effects + [ShowImage(qrCodeBitmap.value)];
      }
    }
  }
}
