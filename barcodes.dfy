/**
 * The decoder's candidates and the two pure decisions the activity makes on
 * them: which candidate to use, and which of its texts to take.
 */
module Barcodes {
  import opened Wrappers

  /** ML Kit's format tag of a QR code (Barcode.FORMAT_QR_CODE). */
  const FormatQrCode: int := 256

  /** A link record found in a code (ML Kit's Barcode.UrlBookmark). */
  datatype UrlBookmark = UrlBookmark(title: Option<string>, url: Option<string>)

  /** One candidate returned by the decoder. */
  datatype Barcode = Barcode(format: int, url: Option<UrlBookmark>, displayValue: Option<string>)

  predicate IsQrCode(b: Barcode)
  {
    b.format == FormatQrCode
  }

  /**
   * `barcodes.firstOrNull { it.format == FORMAT_QR_CODE }`: a QR code that
   * occurs in the list, and nothing exactly when the list holds none.
   */
  function FirstQrCode(barcodes: seq<Barcode>): (r: Option<Barcode>)
    ensures r.Some? ==> IsQrCode(r.value) && r.value in barcodes
    ensures r.None? <==> forall j :: 0 <= j < |barcodes| ==> !IsQrCode(barcodes[j])
  {
    if |barcodes| == 0 then None
    else if IsQrCode(barcodes[0]) then Some(barcodes[0])
    else FirstQrCode(barcodes[1..])
  }

  /** The candidate chosen is the first QR code in list order. */
  lemma {:induction false} FirstQrCodeIsFirst(barcodes: seq<Barcode>, i: nat)
    requires i < |barcodes| && IsQrCode(barcodes[i])
    requires forall j :: 0 <= j < i ==> !IsQrCode(barcodes[j])
    ensures FirstQrCode(barcodes) == Some(barcodes[i])
  {
    if i > 0 {
      FirstQrCodeIsFirst(barcodes[1..], i - 1);
    }
  }

  /** Candidates of other formats in front of the list are skipped. */
  lemma {:induction false} FirstQrCodeSkipsOtherFormats(others: seq<Barcode>, rest: seq<Barcode>)
    requires forall j :: 0 <= j < |others| ==> !IsQrCode(others[j])
    ensures FirstQrCode(others + rest) == FirstQrCode(rest)
  {
    if others != [] {
      assert (others + rest)[0] == others[0] && (others + rest)[1..] == others[1..] + rest;
      FirstQrCodeSkipsOtherFormats(others[1..], rest);
    } else {
      assert others + rest == rest;
    }
  }

  /** `qrCode.url?.url`: the link of the code's bookmark, when it has both. */
  function BookmarkUrl(b: Barcode): Option<string>
  {
    match b.url
    case Some(bookmark) => bookmark.url
    case None => None
  }

  /**
   * `qrCode.url?.url ?: qrCode.displayValue`: the structured link when the
   * code carries one, otherwise the raw display value; nothing only when
   * both are missing.
   */
  function ResolveText(b: Barcode): (r: Option<string>)
    ensures r.Some? <==> BookmarkUrl(b).Some? || b.displayValue.Some?
    ensures BookmarkUrl(b).Some? ==> r == BookmarkUrl(b)
    ensures BookmarkUrl(b).None? ==> r == b.displayValue
  {
    match BookmarkUrl(b)
    case Some(link) => Some(link)
    case None => b.displayValue
  }
}
