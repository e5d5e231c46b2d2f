/** The rendering decisions of src/components/DocumentPreview.tsx: which
    blocks of the preview page appear, and the export file name. */
module DocumentPreview {
  import opened Wrappers
  import opened AppTypes
  import opened Text
  import DocumentEditor

  /** The `filename` passed to the PDF export. */
  function ExportFilename(title: string): string {
    (if title != "" then title else "dokumen") + ".pdf"
  }

  /** The export name always carries the `.pdf` extension, and removing it
      gives back the title, or `dokumen` for an untitled document. */
  lemma ExportFilenameRoundTrip(title: string)
    ensures EndsWithPdf(ExportFilename(title))
    ensures title != "" ==> StripPdfExtension(ExportFilename(title)) == title
    ensures title == "" ==> StripPdfExtension(ExportFilename(title)) == "dokumen"
  {
    var f := ExportFilename(title);
    assert f[|f| - 4..] == ".pdf";
    assert f[..|f| - 4] == if title != "" then title else "dokumen";
  }

  /** An optional text line of the manual letterhead: present iff truthy. */
  function Line(s: Option<string>): (r: Option<string>)
    ensures r.Some? <==> Truthy(s)
    ensures r.Some? ==> r == s
  {
    if Truthy(s) then s else None
  }

  /** What `renderLetterhead` draws. */
  datatype LetterheadView =
    | NoLetterhead
    | UploadedImage(src: string)
    | UploadedPdf(src: string)
    | UploadedPlaceholder(name: string)
    | ManualHeader(logo: Option<string>, companyName: string, address: Option<string>,
                   phone: Option<string>, email: Option<string>, website: Option<string>)

  function RenderLetterhead(lh: Option<Letterhead>): (v: LetterheadView)
    ensures v.NoLetterhead? <==> lh.None?
    ensures v.UploadedImage? <==> lh.Some? && lh.value.kind == Uploaded && Truthy(lh.value.imageUrl)
    ensures v.UploadedImage? ==> Some(v.src) == lh.value.imageUrl
    ensures v.UploadedPdf? <==>
      (lh.Some? && lh.value.kind == Uploaded && !Truthy(lh.value.imageUrl) && Truthy(lh.value.base64Data))
    ensures v.UploadedPlaceholder? <==>
      (lh.Some? && lh.value.kind == Uploaded && !Truthy(lh.value.imageUrl) && !Truthy(lh.value.base64Data))
    ensures v.UploadedPdf? ==> Some(v.src) == lh.value.base64Data
    ensures v.UploadedPlaceholder? ==> v.name == lh.value.name
    ensures v.ManualHeader? <==> lh.Some? && lh.value.kind == Manual
    ensures v.ManualHeader? ==>
      && v.companyName == OrEmpty(lh.value.companyName)
      && (v.logo.Some? <==> Truthy(lh.value.logoBase64))
      && (v.address.Some? <==> Truthy(lh.value.address))
      && (v.phone.Some? <==> Truthy(lh.value.phone))
      && (v.email.Some? <==> Truthy(lh.value.email))
      && (v.website.Some? <==> Truthy(lh.value.website))
      && (v.logo.Some? ==> v.logo == lh.value.logoBase64)
      && (v.address.Some? ==> v.address == lh.value.address)
      && (v.phone.Some? ==> v.phone == lh.value.phone)
      && (v.email.Some? ==> v.email == lh.value.email)
      && (v.website.Some? ==> v.website == lh.value.website)
  {
    if lh.None? then NoLetterhead
    else
      var l := lh.value;
      if l.kind.Uploaded? then
        if Truthy(l.imageUrl) then UploadedImage(l.imageUrl.value)
        else if Truthy(l.base64Data) then UploadedPdf(l.base64Data.value)
        else UploadedPlaceholder(l.name)
      else
        ManualHeader(Line(l.logoBase64), OrEmpty(l.companyName), Line(l.address),
                     Line(l.phone), Line(l.email), Line(l.website))
  }

  /** The "Kop Surat" label of the side panel. */
  function SidebarLabel(l: Letterhead): (caption: string)
    ensures l.kind == Uploaded ==> caption == l.name
    ensures l.kind == Manual ==> caption == OrEmpty(l.companyName)
  {
    if l.kind == Uploaded then l.name else OrEmpty(l.companyName)
  }

  /** "Kepada Yth." block of a letter. */
  predicate LetterRecipientShown(d: DocumentData) {
    d.template.kind == Some(Letter) && Truthy(d.recipient)
  }

  /** The memo header block. */
  predicate MemoBlockShown(d: DocumentData) {
    d.template.kind == Some(Memo) && Truthy(d.recipient)
  }

  /** The "Perihal" line inside the memo block. */
  predicate MemoSubjectShown(d: DocumentData) {
    MemoBlockShown(d) && Truthy(d.subject)
  }

  /** The "Perihal" block of a letter. */
  predicate LetterSubjectShown(d: DocumentData) {
    d.template.kind == Some(Letter) && Truthy(d.subject)
  }

  /** The signature section. */
  predicate SignatureShown(d: DocumentData) {
    d.signature.Some? && (d.signature.value.name != "" || d.signature.value.position != "")
  }

  predicate SignatureImageShown(d: DocumentData) {
    SignatureShown(d) && Truthy(d.signature.value.signatureImage)
  }

  /** The blank spacer drawn where an absent signature image would be. */
  predicate SignatureSpacerShown(d: DocumentData) {
    SignatureShown(d) && !Truthy(d.signature.value.signatureImage)
  }

  /** The header blocks exclude each other by template type: a letter never
      shows the memo block, a memo never shows letter blocks, and invoices,
      reports and the blank template show none of them. Inside a shown
      signature section exactly one of image and spacer appears. */
  lemma BlocksExclusive(d: DocumentData)
    ensures !(LetterRecipientShown(d) && MemoBlockShown(d))
    ensures !(LetterSubjectShown(d) && MemoSubjectShown(d))
    ensures d.template.kind != Some(Letter) && d.template.kind != Some(Memo) ==>
      !LetterRecipientShown(d) && !MemoBlockShown(d) && !LetterSubjectShown(d)
    ensures SignatureShown(d) ==> (SignatureImageShown(d) <==> !SignatureSpacerShown(d))
    ensures !SignatureShown(d) ==> !SignatureImageShown(d) && !SignatureSpacerShown(d)
  {
  }

  /** Typing a non-empty signer name or position in the editor makes the
      signature section appear, with the image or the spacer as before. */
  lemma SignatureEditShowsSection(d: DocumentData, v: string)
    requires v != ""
    ensures SignatureShown(DocumentEditor.SetSignatureName(d, v))
    ensures SignatureShown(DocumentEditor.SetSignaturePosition(d, v))
    ensures SignatureImageShown(DocumentEditor.SetSignatureName(d, v))
      <==> Truthy(DocumentEditor.SignatureImage(d))
  {
  }

  /** Clearing both name and position hides the section even when an image
      was uploaded. */
  lemma EmptySignerHidesSection(d: DocumentData)
    ensures !SignatureShown(DocumentEditor.SetSignaturePosition(DocumentEditor.SetSignatureName(d, ""), ""))
  {
  }
}
