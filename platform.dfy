/**
 * Stand-ins for the Android values the activity handles. Only their identity
 * matters to the session logic, so each is a small value type.
 */
module Platform {

  /** An in-memory camera image (android.graphics.Bitmap). */
  datatype Bitmap = Bitmap(id: nat)

  /** An android.net.Uri, represented by its string form. */
  datatype Uri = Uri(text: string)

  /** `Uri.toString()` */
  function UriToString(u: Uri): string
  {
    u.text
  }

  /** `Uri.parse(s)`: parsing the string form gives back that string form. */
  function ParseUri(s: string): (u: Uri)
    ensures UriToString(u) == s
  {
    Uri(s)
  }

  /** Activity.RESULT_OK, the result code of a capture the user confirmed. */
  const ResultOk: int := -1

  /** The conditions the activity reports to the user as a short toast. */
  datatype Message =
    | NoUrlInQrCode
    | NoQrCodeFound
    | FailedToProcessImage
    | FailedToSaveImage
    | NothingToShare
    | NoCompatibleApp

  /** The text shown for each reported condition. */
  function MessageText(m: Message): string
  {
    match m
    case NoUrlInQrCode => "No URL found in the QR code"
    case NoQrCodeFound => "No QR code found"
    case FailedToProcessImage => "Failed to process image"
    case FailedToSaveImage => "Failed to save image"
    case NothingToShare => "No image or QR code URL to share"
    case NoCompatibleApp => "No compatible app found"
  }

  /** Different conditions are shown with different texts, so a toast tells which one occurred. */
  lemma MessageTextInjective(m1: Message, m2: Message)
    requires MessageText(m1) == MessageText(m2)
    ensures m1 == m2
  {
    assert MessageText(m1)[0] == MessageText(m2)[0] && |MessageText(m1)| == |MessageText(m2)|;
  }
}
