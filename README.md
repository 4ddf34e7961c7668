# QR scanner session, modelled in Dafny

The app takes a photo, looks for a QR code in it, saves the photo, opens the
decoded text as a link and can later share the photo with the text. All of
its logic sits in `MainActivity`. The activity keeps a session of three
nullable fields: the last captured bitmap (`qrCodeBitmap`), the resolved QR
text (`qrCodeUrl`) and the URI of the saved image (`qrCodeImageUri`). Its
callbacks update these fields in a fixed order. This project models that
session and the small pure decisions the callbacks make.

Layout, one module per file:

- `wrappers.dfy` — `Option`, for Kotlin's nullable values.
- `platform.dfy` — stand-ins for Android values: `Bitmap`, `Uri` (its string form), `RESULT_OK`, the toast messages.
- `barcodes.dfy` — decoder candidates; the first-QR-code selection (`firstOrNull`); text resolution (`url?.url ?: displayValue`).
- `links.dfy` — the `"http://"` link; the share guard and the share intent.
- `permissions.dfy` — the not-granted filter and the camera permission gate.
- `session.dfy` — the session as a value. One function per callback gives the new fields and the effects the callback issues, in order. Lemmas state what the callbacks promise, alone and in sequence.
- `instance_state.dfy` — saving the session into a `Bundle` (a map) and restoring it.
- `activity.dfy` — `class MainActivity`. It has the three fields and an effect log. Its methods update them step by step, as the Kotlin does. The callbacks are proved to follow the matching `Session` function, the instance-state methods follow `InstanceState.SaveSession` and `InstanceState.RestoreSession`, and the helpers `ProcessQrCode` and `OpenUrlInBrowser` state their one effect directly.

Platform calls are inputs or recorded effects:

- The decoder's result is a separate call: `OnScanSuccess(bitmap, barcodes, save)` or `OnScanFailure()`. The bitmap is the one the scan was started on, as captured by the Kotlin closure.
- The file write ends in a `SaveOutcome`: `Written(uri)` or `IoFailure`.
- Whether the share chooser can start is a `bool`.
- The granted permissions are a set.
- Showing an image, starting a scan, writing the file, opening a link, opening the share chooser, the permission gate's action and every toast are appended to the `effects` log.

## Behaviour of note

The model follows the code, which does less than a tidy pipeline would:

- The URL and the image URI are not kept together. The URL is set before the save is tried. A failed save keeps the previous URI, and the link is opened anyway (`Session.FailedSaveKeepsPriorUri`, `Session.UrlWithoutUriReachable`). A failed save therefore does not stop a share: an earlier cycle's URI is shared with the new text (`Session.FailedSaveStillShares`).
- A QR code with neither a link nor a display value sets the URL to null. This drops an earlier cycle's URL (`Session.ScanWithoutText`).
- Nothing guards against a late scan result. A scan that finishes after a newer capture still sets the URL and saves its own, older bitmap (`Session.LateScanResultOverwrites`).

## Model

| member | source | states |
|---|---|---|
| Platform.ParseUri | app/src/main/java/com/example/scamer/MainActivity.kt:156 | parsing a URI's string form gives back a URI with that string form |
| Platform.MessageTextInjective | app/src/main/java/com/example/scamer/MainActivity.kt:94-140 | the six toast texts are pairwise different, so each reported condition is recognisable by its text |
| Barcodes.FirstQrCode | app/src/main/java/com/example/scamer/MainActivity.kt:86 | the selected candidate is a QR code from the list; nothing is selected exactly when no candidate is a QR code |
| Barcodes.FirstQrCodeIsFirst | app/src/main/java/com/example/scamer/MainActivity.kt:86 | when the QR code at index i has no QR code before it, that candidate is the one selected |
| Barcodes.FirstQrCodeSkipsOtherFormats | app/src/main/java/com/example/scamer/MainActivity.kt:86 | candidates of other formats in front of the list do not change the selection |
| Barcodes.ResolveText | app/src/main/java/com/example/scamer/MainActivity.kt:88 | the text is the bookmark's link when present, else the display value; it is null only when both are missing |
| Links.BrowserUrl | app/src/main/java/com/example/scamer/MainActivity.kt:106 | the opened link is exactly "http://" followed by the unchanged text |
| Links.BrowserUrlInjective | app/src/main/java/com/example/scamer/MainActivity.kt:106 | two texts that open the same link are equal |
| Links.BrowserUrlDoesNotDetectScheme | app/src/main/java/com/example/scamer/MainActivity.kt:106 | a text that already has a scheme gets "http://" in front of it anyway |
| Links.ShareRequest | app/src/main/java/com/example/scamer/MainActivity.kt:125-136 | no intent exactly when the URI or the URL is null; otherwise image/jpeg, the stored URI, read permission granted, caption prefix followed by the URL |
| Permissions.NotGranted | app/src/main/java/com/example/scamer/MainActivity.kt:62-64 | the result holds exactly the permissions of the list that are not granted, and is no longer than the list |
| Permissions.NotGrantedAppend | app/src/main/java/com/example/scamer/MainActivity.kt:62-64 | filtering keeps the order: filtering a concatenation concatenates the filtered parts |
| Permissions.NotGrantedNoneGranted | app/src/main/java/com/example/scamer/MainActivity.kt:62-64 | when none of the permissions is granted, the filter returns the list unchanged |
| Permissions.PermissionGate | app/src/main/java/com/example/scamer/MainActivity.kt:60-70 | the camera is launched exactly when every required permission is granted; otherwise the not-granted ones are requested with code 101 |
| Permissions.PermissionGateNothingGranted | app/src/main/java/com/example/scamer/MainActivity.kt:61-66 | with nothing granted, camera and storage are requested, in that order |
| Permissions.PermissionGateCameraGranted | app/src/main/java/com/example/scamer/MainActivity.kt:61-66 | with only the camera granted, only storage is requested |
| Session.Capture | app/src/main/java/com/example/scamer/MainActivity.kt:37-46 | a result that is not OK, or that has no bitmap, changes nothing and issues nothing; an accepted one replaces only the bitmap, then shows it and starts a scan |
| Session.CheckPermissions | app/src/main/java/com/example/scamer/MainActivity.kt:60-70 | the capture button leaves the session unchanged and issues exactly the gate's action: a camera launch exactly when all permissions are granted, otherwise a request for exactly the not-granted permissions, in order, with code 101 |
| Session.Save | app/src/main/java/com/example/scamer/MainActivity.kt:111-123 | the effects are exactly the fixed-name file write, followed on failure by one toast; success sets the URI to the file's handle; failure keeps the URI and reports "Failed to save image"; bitmap and URL are unchanged |
| Session.ScanSuccess | app/src/main/java/com/example/scamer/MainActivity.kt:85-99 | a scan result never changes the bitmap, and changes the URI only to the handle of a successful save |
| Session.ScanFailure | app/src/main/java/com/example/scamer/MainActivity.kt:100-102 | a failed scan changes no field and only reports "Failed to process image" |
| Session.Share | app/src/main/java/com/example/scamer/MainActivity.kt:125-142 | share never changes the session; it reports "nothing to share" and dispatches nothing exactly when the URI or the URL is null; otherwise its first effect is the chooser with the stored URI, image/jpeg and the caption; when no app can take the chooser, the chooser is followed by exactly the "No compatible app found" toast |
| Session.ScanWithoutQrCode | app/src/main/java/com/example/scamer/MainActivity.kt:96-98 | with no QR code among the candidates, only "No QR code found" is reported; no field changes and nothing is saved or opened |
| Session.ScanWithoutText | app/src/main/java/com/example/scamer/MainActivity.kt:88-95 | a QR code without link or display value sets the URL to null, keeps bitmap and URI, and only reports "No URL found in the QR code" |
| Session.ScanWithText | app/src/main/java/com/example/scamer/MainActivity.kt:88-92 | with a resolved text, the URL becomes the text and the URI changes only on a successful save; the effects are the file write, a failure toast if the write failed, then the link "http://" + text |
| Session.SaveBeforeOpen | app/src/main/java/com/example/scamer/MainActivity.kt:89-92 | the file write is the first effect; opening the link is the last effect and happens exactly once |
| Session.FailedSaveKeepsPriorUri | app/src/main/java/com/example/scamer/MainActivity.kt:111-122 | after a failed save the URI is the earlier one, the new URL stays set, the failure is reported and the link is still opened |
| Session.EarlierResultSurvives | app/src/main/java/com/example/scamer/MainActivity.kt:38-45 | an accepted capture followed by a scan without a QR code, or by a failed scan, leaves the earlier URL and URI in place, with the new bitmap |
| Session.UrlWithoutUriReachable | app/src/main/java/com/example/scamer/MainActivity.kt:88-92 | from a fresh session, one decoded capture whose save fails leaves a URL with no URI, and share then reports there is nothing to share |
| Session.FailedSaveStillShares | app/src/main/java/com/example/scamer/MainActivity.kt:126-136 | with a URI from an earlier cycle, a failed save leaves the session shareable, and share sends that old URI with the new text |
| Session.LateScanResultOverwrites | app/src/main/java/com/example/scamer/MainActivity.kt:84-92 | a scan result arriving after a newer capture still sets the URL and writes the older bitmap, while the session holds the newer one |
| Session.SkipsOtherFormatExample | app/src/main/java/com/example/scamer/MainActivity.kt:86-92 | a non-QR candidate before a QR code with display value "example.com" is skipped; the URL is "example.com" and "http://example.com" is opened last |
| InstanceState.SaveSession | app/src/main/java/com/example/scamer/MainActivity.kt:145-150 | bitmap and URL are always put (null included); the URI's string form is put only when the URI is set; every other entry, including an existing URI entry when the URI is null, is kept with its value |
| InstanceState.RestoreSession | app/src/main/java/com/example/scamer/MainActivity.kt:152-156 | the URI is restored only when its key is present |
| InstanceState.StaleUriSurvivesSave | app/src/main/java/com/example/scamer/MainActivity.kt:149-156 | with a null URI, a URI entry already in the bundle is left untouched by the save and is brought back by the restore |
| InstanceState.RestoreAfterSave | app/src/main/java/com/example/scamer/MainActivity.kt:145-156 | restoring a saved state gives back the same bitmap, URL and URI, a null URI with its key omitted included |
| Activity.MainActivity.constructor | app/src/main/java/com/example/scamer/MainActivity.kt:31-33 | the three session fields start null and nothing has been issued |
| Activity.MainActivity.CheckPermissionsAndLaunchCamera | app/src/main/java/com/example/scamer/MainActivity.kt:60-70 | leaves the fields unchanged and appends the gate's action to the effects |
| Activity.MainActivity.OnCaptureResult | app/src/main/java/com/example/scamer/MainActivity.kt:35-46 | the new fields and the appended effects are those of Session.Capture |
| Activity.MainActivity.ProcessQrCode | app/src/main/java/com/example/scamer/MainActivity.kt:81-84 | starts a scan of the given bitmap and changes no field |
| Activity.MainActivity.OnScanSuccess | app/src/main/java/com/example/scamer/MainActivity.kt:85-99 | the new fields and the appended effects are those of Session.ScanSuccess |
| Activity.MainActivity.OnScanFailure | app/src/main/java/com/example/scamer/MainActivity.kt:100-102 | the new fields and the appended effects are those of Session.ScanFailure |
| Activity.MainActivity.OpenUrlInBrowser | app/src/main/java/com/example/scamer/MainActivity.kt:105-109 | changes no field and appends an open of "http://" + url |
| Activity.MainActivity.SaveImage | app/src/main/java/com/example/scamer/MainActivity.kt:111-123 | the new fields and the appended effects are those of Session.Save |
| Activity.MainActivity.ShareQrCodeImage | app/src/main/java/com/example/scamer/MainActivity.kt:125-142 | changes no field; the appended effects are those of Session.Share |
| Activity.MainActivity.OnSaveInstanceState | app/src/main/java/com/example/scamer/MainActivity.kt:145-150 | the returned bundle is SaveSession of the current fields, and, when the incoming bundle holds no URI key, restoring it gives the fields back |
| Activity.MainActivity.OnRestoreInstanceState | app/src/main/java/com/example/scamer/MainActivity.kt:152-160 | the fields become RestoreSession of the bundle, and a restored bitmap is shown |

## Left out

- ML Kit decoding (`InputImage`, `BarcodeScanning`): a foreign library. The decoder's result is an input list of candidates, or a separate failure call. `FORMAT_QR_CODE` is ML Kit's value 256.
- Asynchronous delivery of the scan result: the success and failure listeners are separate, sequential method calls. Exactly-once delivery is the platform's promise and is not modelled.
- `launchCamera` (the camera intent, `ActivityResultLauncher`, and the "Camera app not found" toast): platform dispatch. The gate records only its decision to launch.
- Permission-request results: the activity does not handle them, so a grant does not start the camera until the button is pressed again. The model has no callback for it either.
- File I/O, JPEG compression and `FileProvider` URI construction: the write is a recorded effect with its fixed file name and quality. The URI is whatever the save outcome supplies. The stack trace that a failed save prints to the log is not recorded.
- Exceptions other than `IOException` in `saveImage`, and the `ActivityNotFoundException` that `openUrlInBrowser` does not catch: these end the process, which the model does not represent.
- `Uri.parse` of the `"http://"` link and the intent objects: the link is kept as its string.
- View wiring (`onCreate`, buttons, `ImageView`) and toast rendering: UI. Toasts are recorded as `Message` values, and displaying a bitmap is a recorded effect.
- The framework's own entries in the saved-state bundle: they are whatever `outState` already holds.
- InstanceState.RestoreAfterSave: requires that `outState` does not already hold the URI key. Android hands the activity a bundle without it. A stale entry would otherwise survive a save with a null URI (`InstanceState.StaleUriSurvivesSave`).
- Bitmap contents and parcelling: a bitmap is an opaque identity that survives the bundle unchanged.
