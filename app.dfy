/** The generation / preview / download pipeline of the main page: the form
    state, the "generation slot" (`loading`, `error`, `qrCodeUrl`), routing of
    uploaded files, the retrying download with its minimum-size guard, and the
    small string rules around them. Backend answers are inputs. */
module App {
  import opened Common
  import Stickers

  const DefaultContent := "https://example.com"
  const GenerationFailed := "Failed to generate QR code"
  const UploadFailed := "Failed to upload file"
  const PhonePrefix := "tel:"
  /** Below this many bytes a downloaded body is treated as corrupt. */
  const MinPayloadSize: nat := 100
  /** Re-attempts `downloadWithRetry` makes after a first failure. */
  const DefaultRetries: nat := 2

  // ---------------------------------------------------------------------
  // String rules

  /** The preview request asks for PNG when PDF is selected; every other
      format, SVG included, is requested as is. */
  function PreviewFormat(format: string): (f: string)
    ensures f != "pdf"
    ensures format == "pdf" ==> f == "png"
    ensures format != "pdf" ==> f == format
  {
    if format == "pdf" then "png" else format
  }

  /** File extension of a download: "jpg" for "jpeg", else the format. */
  function DownloadExtension(format: string): (ext: string)
    ensures format == "jpeg" ==> ext == "jpg"
    ensures format != "jpeg" ==> ext == format
  {
    if format == "jpeg" then "jpg" else format
  }

  function DownloadFilename(format: string): (name: string)
    ensures |name| >= |"qrcode."| && name[..|"qrcode."|] == "qrcode."
    ensures name[|"qrcode."|..] == DownloadExtension(format)
  {
    "qrcode." + DownloadExtension(format)
  }

  /** The four formats the format selector offers. */
  predicate KnownFormat(format: string) {
    format == "png" || format == "jpeg" || format == "svg" || format == "pdf"
  }

  /** Distinct selectable formats download under distinct file names, and
      the preview format is itself a selectable raster or vector format. */
  lemma FilenamesDistinct(f1: string, f2: string)
    requires KnownFormat(f1) && KnownFormat(f2)
    ensures DownloadFilename(f1) == DownloadFilename(f2) ==> f1 == f2
    ensures KnownFormat(PreviewFormat(f1)) && PreviewFormat(PreviewFormat(f1)) == PreviewFormat(f1)
  {
  }

  /** The content a content-type tab installs when it is selected. */
  function TabDefault(tab: string): (content: string)
    ensures tab == "url" ==> content == DefaultContent
    ensures tab == "email" ==> content == "contact@example.com"
    ensures tab == "pdf" || tab == "rating" ==> content == ""
    ensures tab == "phone" ==> content == PhonePrefix
    ensures tab !in {"url", "email", "pdf", "phone", "rating"} ==> content == "Mon texte ici"
  {
    if tab == "url" then DefaultContent
    else if tab == "email" then "contact@example.com"
    else if tab == "pdf" then ""
    else if tab == "phone" then PhonePrefix
    else if tab == "rating" then ""
    else "Mon texte ici"
  }

  /** Whether `pat` occurs in `s` starting at index `i`. */
  predicate OccursAt(s: string, pat: string, i: nat) {
    i + |pat| <= |s| && s[i..i + |pat|] == pat
  }

  /** Index of the first occurrence of `pat` in `s` at or after `from`. */
  function IndexFrom(s: string, pat: string, from: nat): (r: Option<nat>)
    decreases |s| - from
    ensures r.Some? ==> from <= r.value && OccursAt(s, pat, r.value)
    ensures r.Some? ==> forall j :: from <= j < r.value ==> !OccursAt(s, pat, j)
    ensures r.None? ==> forall j :: from <= j ==> !OccursAt(s, pat, j)
  {
    if from + |pat| > |s| then None
    else if OccursAt(s, pat, from) then Some(from)
    else IndexFrom(s, pat, from + 1)
  }

  /** `s.replace(pat, rep)` with a string pattern: only the first occurrence
      is replaced; without one, `s` is returned unchanged. */
  function ReplaceFirst(s: string, pat: string, rep: string): (r: string)
    ensures IndexFrom(s, pat, 0).None? ==> r == s
    ensures IndexFrom(s, pat, 0).Some? ==>
              var i := IndexFrom(s, pat, 0).value;
              |r| == |s| - |pat| + |rep|
              && r[..i] == s[..i]
              && r[i..i + |rep|] == rep
              && r[i + |rep|..] == s[i + |pat|..]
  {
    match IndexFrom(s, pat, 0)
    case None => s
    case Some(i) => s[..i] + rep + s[i + |pat|..]
  }

  /** What the phone input shows for the current content. */
  function PhoneDisplay(content: string): (shown: string)
    ensures |content| >= |PhonePrefix| && content[..|PhonePrefix|] == PhonePrefix ==>
              shown == content[|PhonePrefix|..]
    ensures IndexFrom(content, PhonePrefix, 0).None? ==> shown == content
  {
    ReplaceFirst(content, PhonePrefix, "")
  }

  /** The content a phone input value sets. */
  function PhoneContent(input: string): (content: string)
    ensures |content| == |PhonePrefix| + |input|
    ensures content[..|PhonePrefix|] == PhonePrefix && content[|PhonePrefix|..] == input
  {
    PhonePrefix + input
  }

  /** Typing `v` into the phone input and displaying the result shows `v`
      again; displaying any content that starts with the prefix and typing
      the displayed text back restores that content. */
  lemma PhoneRoundTrip(v: string, content: string)
    ensures PhoneDisplay(PhoneContent(v)) == v
    ensures |content| >= |PhonePrefix| && content[..|PhonePrefix|] == PhonePrefix ==>
              PhoneContent(PhoneDisplay(content)) == content
  {
  }

  /** Selecting the phone tab leaves the phone input empty; only the PDF and
      review-link tabs leave the content empty, so only they do not lead to
      a generation request. */
  lemma TabDefaults(tab: string)
    ensures PhoneDisplay(TabDefault("phone")) == ""
    ensures TabDefault(tab) == "" <==> tab == "pdf" || tab == "rating"
  {
  }

  // ---------------------------------------------------------------------
  // Download with retry

  /** `downloadWithRetry(url, options, retries)`: attempt `k` (from 0) gets
      the answer `attempt(k)`; a rejection or a non-ok answer is retried
      while re-attempts remain, and the last failure is rethrown. */
  method DownloadWithRetry(attempt: nat -> Reply<nat>, retries: nat)
    returns (r: Result<nat, Reply<nat>>, attempts: nat)
    ensures 1 <= attempts <= retries + 1
    ensures forall k :: 0 <= k < attempts - 1 ==> !attempt(k).IsOk()
    ensures r.Success? <==> attempt(attempts - 1).IsOk()
    ensures r.Success? ==> r.value == attempt(attempts - 1).body
    ensures r.Failure? ==> attempts == retries + 1 && r.error == attempt(retries)
  {
    var left := retries;
    attempts := 0;
    while true
      invariant attempts + left == retries
      invariant forall k :: 0 <= k < attempts ==> !attempt(k).IsOk()
      decreases left
    {
      var reply := attempt(attempts);
      attempts := attempts + 1;
      if reply.IsOk() {
        return Success(reply.body), attempts;
      }
      if left == 0 {
        return Failure(reply), attempts;
      }
      left := left - 1;
    }
  }

  // ---------------------------------------------------------------------
  // Page state

  datatype GenerateRequest = GenerateRequest(
    content: string,
    color: string,
    background: string,
    size: int,
    margin: int,
    format: string,
    errorCorrection: string,
    logoUrl: Option<string>,
    bodyStyle: string,
    eyeStyle: string,
    stickerType: Option<string>
  )

  datatype File = File(name: string)

  /** What the download button achieved. */
  datatype DownloadOutcome =
    | NotStarted
    | Saved(filename: string, source: SaveSource, size: nat)
    | Failed

  /** Where a saved file comes from: the current preview object URL, or a
      PDF freshly generated for the download. */
  datatype SaveSource = PreviewBlob(url: string) | FreshPdf

  /** What the preview card shows. */
  datatype Pane =
    | Skeleton
    | Placeholder
    | PlainQr(url: string)
    | Composed(url: string, sticker: Stickers.StickerConfig)

  /** The preview card: a skeleton while loading, a placeholder without an
      image, else the image, laid over the selected sticker when the catalog
      has it and shown bare when it does not. */
  function PreviewPane(loading: bool, qrCodeUrl: Option<string>, selected: Option<string>): (p: Pane)
    ensures loading <==> p == Skeleton
    ensures !loading && !Truthy(qrCodeUrl) <==> p == Placeholder
    ensures p.PlainQr? || p.Composed? ==> Truthy(qrCodeUrl) && p.url == qrCodeUrl.value
    ensures p.Composed? ==> Truthy(selected) && Stickers.Find(Stickers.Catalog, selected.value) == Some(p.sticker)
    ensures p.PlainQr? ==> !Truthy(selected) || Stickers.Find(Stickers.Catalog, selected.value).None?
  {
    if loading then Skeleton
    else if !Truthy(qrCodeUrl) then Placeholder
    else if !Truthy(selected) then PlainQr(qrCodeUrl.value)
    else match Stickers.Find(Stickers.Catalog, selected.value)
      case None => PlainQr(qrCodeUrl.value)
      case Some(s) => Composed(qrCodeUrl.value, s)
  }

  /** An unknown sticker id falls back to the bare image, a known one is
      composed with its own catalog entry, and every composed overlay lies
      inside its background. */
  lemma PreviewPaneStickers(qrUrl: string, selected: string)
    requires qrUrl != "" && selected != ""
    ensures selected !in Stickers.Ids(Stickers.Catalog) ==>
              PreviewPane(false, Some(qrUrl), Some(selected)) == PlainQr(qrUrl)
    ensures selected in Stickers.Ids(Stickers.Catalog) ==>
              var p := PreviewPane(false, Some(qrUrl), Some(selected));
              p.Composed? && p.sticker in Stickers.Catalog && p.sticker.id == selected
              && Stickers.OverlayInside(p.sticker)
  {
  }

  class Page {
    var loading: bool
    var error: Option<string>
    var qrCodeUrl: Option<string>
    var logoUrl: Option<string>
    var content: string
    var color: string
    var bgColor: string
    var size: int
    var margin: int
    var format: string
    var errorCorrection: string
    var bodyStyle: string
    var eyeStyle: string
    var selectedSticker: Option<string>

    constructor ()
      ensures !loading && error.None? && qrCodeUrl.None? && logoUrl.None?
      ensures content == DefaultContent && color == "#000000" && bgColor == "#ffffff"
      ensures size == 500 && margin == 1 && format == "png" && errorCorrection == "M"
      ensures bodyStyle == "square" && eyeStyle == "square" && selectedSticker.None?
    {
      loading, error, qrCodeUrl, logoUrl := false, None, None, None;
      content, color, bgColor := DefaultContent, "#000000", "#ffffff";
      size, margin, format, errorCorrection := 500, 1, "png", "M";
      bodyStyle, eyeStyle, selectedSticker := "square", "square", None;
    }

    /** The generation request built from the current form state, asking for `fmt`. */
    function RequestFor(fmt: string): (req: GenerateRequest)
      reads this
      ensures req.content == content && req.format == fmt
      ensures req.logoUrl == logoUrl && req.stickerType == selectedSticker
    {
      GenerateRequest(content, color, bgColor, size, margin, fmt, errorCorrection,
                      logoUrl, bodyStyle, eyeStyle, selectedSticker)
    }

    /** First half of `generateQRCode`: nothing at all for empty content;
        otherwise the slot becomes pending (loading, error cleared, previous
        image kept) and the preview request is issued. */
    method BeginGenerate() returns (request: Option<GenerateRequest>)
      modifies this`loading, this`error
      ensures content == "" ==> request.None? && loading == old(loading) && error == old(error)
      ensures content != "" ==> request == Some(RequestFor(PreviewFormat(format)))
      ensures content != "" ==> loading && error.None?
    {
      if content == "" {
        return None;
      }
      loading := true;
      error := None;
      request := Some(RequestFor(PreviewFormat(format)));
    }

    /** Second half of `generateQRCode`: an ok answer installs the object URL
        made from its body; any failure records its message and keeps the
        previous image. Loading ends either way. */
    method FinishGenerate(reply: Reply<nat>, objectUrl: string)
      requires objectUrl != ""
      modifies this`loading, this`error, this`qrCodeUrl
      ensures !loading
      ensures old(Truthy(qrCodeUrl)) ==> Truthy(qrCodeUrl)
      ensures reply.IsOk() ==> qrCodeUrl == Some(objectUrl) && error == old(error)
      ensures !reply.IsOk() ==> qrCodeUrl == old(qrCodeUrl)
      ensures !reply.IsOk() ==> error == Some(CheckReply(reply, GenerationFailed).error)
      ensures reply.Answered? && !reply.ok ==> error == Some(DetailOr(reply.detail, GenerationFailed))
    {
      var checked := CheckReply(reply, GenerationFailed);
      if checked.Success? {
        qrCodeUrl := Some(objectUrl);
      } else {
        error := Some(checked.error);
      }
      loading := false;
    }

    /** `generateQRCode` with the request's answer and the object URL the
        browser would mint for an ok body (object URLs are never empty). */
    method GenerateQrCode(reply: Reply<nat>, objectUrl: string) returns (request: Option<GenerateRequest>)
      requires objectUrl != ""
      modifies this`loading, this`error, this`qrCodeUrl
      ensures old(content) == "" ==> request.None? && unchanged(this)
      ensures content != "" ==> request == Some(RequestFor(PreviewFormat(format))) && !loading
      ensures content != "" && reply.IsOk() ==> qrCodeUrl == Some(objectUrl) && error.None?
      ensures content != "" && !reply.IsOk() ==>
                qrCodeUrl == old(qrCodeUrl) && error == Some(CheckReply(reply, GenerationFailed).error)
      ensures old(qrCodeUrl).Some? ==> qrCodeUrl.Some?
      ensures old(Truthy(qrCodeUrl)) ==> Truthy(qrCodeUrl)
    {
      request := BeginGenerate();
      if request.Some? {
        FinishGenerate(reply, objectUrl);
      }
    }

    /** `handleFileUpload`: the first selected file is uploaded; its URL goes
        to the logo when `isLogo`, else to the content. */
    method HandleFileUpload(files: seq<File>, isLogo: bool, reply: Reply<string>) returns (uploaded: Option<File>)
      modifies this`logoUrl, this`content, this`error
      ensures |files| == 0 ==> uploaded.None? && unchanged(this)
      ensures |files| > 0 ==> uploaded == Some(files[0])
      ensures |files| > 0 && reply.IsOk() && isLogo ==>
                logoUrl == Some(reply.body) && content == old(content) && error == old(error)
      ensures |files| > 0 && reply.IsOk() && !isLogo ==>
                content == reply.body && logoUrl == old(logoUrl) && error == old(error)
      ensures |files| > 0 && !reply.IsOk() ==>
                error == Some(UploadFailed) && content == old(content) && logoUrl == old(logoUrl)
    {
      if |files| == 0 {
        return None;
      }
      uploaded := Some(files[0]);
      if !reply.IsOk() {
        error := Some(UploadFailed);
        return;
      }
      if isLogo {
        logoUrl := Some(reply.body);
      } else {
        content := reply.body;
      }
    }

    /** `handleDownload`. `pdfAttempt(k)` answers the k-th PDF generation
        attempt; `blobReply` answers the re-fetch of the preview object URL.
        The page state is not changed. Returns what was saved, whether the
        SVG-with-sticker warning was shown, and the PDF requests issued. */
    method HandleDownload(pdfAttempt: nat -> Reply<nat>, blobReply: Reply<nat>)
      returns (outcome: DownloadOutcome, warned: bool, pdfRequests: seq<GenerateRequest>)
      ensures !Truthy(qrCodeUrl) ==> outcome == NotStarted && !warned && pdfRequests == []
      ensures Truthy(qrCodeUrl) ==> outcome != NotStarted
      ensures warned <==> Truthy(qrCodeUrl) && format == "svg" && Truthy(selectedSticker)
      ensures outcome.Saved? ==> outcome.size >= MinPayloadSize && outcome.filename == DownloadFilename(format)
      ensures format != "pdf" ==> pdfRequests == []
      ensures format != "pdf" ==>
                (outcome.Saved? <==> Truthy(qrCodeUrl) && blobReply.IsOk() && blobReply.body >= MinPayloadSize)
      ensures format != "pdf" && outcome.Saved? ==>
                outcome.source == PreviewBlob(qrCodeUrl.value) && outcome.size == blobReply.body
      ensures Truthy(qrCodeUrl) && format == "pdf" ==>
                && 1 <= |pdfRequests| <= DefaultRetries + 1
                && (forall k :: 0 <= k < |pdfRequests| ==> pdfRequests[k] == RequestFor("pdf"))
                && (forall k :: 0 <= k < |pdfRequests| - 1 ==> !pdfAttempt(k).IsOk())
                && (!pdfAttempt(|pdfRequests| - 1).IsOk() ==> |pdfRequests| == DefaultRetries + 1)
                && (outcome.Saved? <==> pdfAttempt(|pdfRequests| - 1).IsOk()
                                        && pdfAttempt(|pdfRequests| - 1).body >= MinPayloadSize)
      ensures format == "pdf" && outcome.Saved? ==>
                outcome.source == FreshPdf && outcome.size == pdfAttempt(|pdfRequests| - 1).body
    {
      if !Truthy(qrCodeUrl) {
        return NotStarted, false, [];
      }
      var filename := DownloadFilename(format);
      warned := format == "svg" && Truthy(selectedSticker);
      pdfRequests := [];
      if format == "pdf" {
        var request := RequestFor("pdf");
        var r, attempts := DownloadWithRetry(pdfAttempt, DefaultRetries);
        pdfRequests := seq(attempts, _ => request);
        if r.Failure? || r.value < MinPayloadSize {
          return Failed, warned, pdfRequests;
        }
        return Saved(filename, FreshPdf, r.value), warned, pdfRequests;
      }
      if !blobReply.IsOk() || blobReply.body < MinPayloadSize {
        return Failed, warned, pdfRequests;
      }
      outcome := Saved(filename, PreviewBlob(qrCodeUrl.value), blobReply.body);
    }

    /** The content-type tabs' `onValueChange`. */
    method SwitchTab(tab: string)
      modifies this`content
      ensures content == TabDefault(tab)
    {
      content := TabDefault(tab);
    }

    /** The phone input's `onChange`. */
    method EditPhone(input: string)
      modifies this`content
      ensures content == PhoneContent(input)
      ensures PhoneDisplay(content) == input
    {
      content := PhoneContent(input);
      PhoneRoundTrip(input, "");
    }

    /** The sticker picker's `onSelect`. */
    method SelectSticker(next: Option<string>)
      modifies this`selectedSticker
      ensures selectedSticker == next
    {
      selectedSticker := next;
    }

    method SetFormat(f: string)
      modifies this`format
      ensures format == f
    {
      format := f;
    }
  }
}
