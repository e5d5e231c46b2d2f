/** The records declared in src/App.tsx: letterheads, templates, document data
    and saved documents, plus the wizard's five steps. */
module AppTypes {
  import opened Wrappers

  /** The wizard's `currentStep` values. */
  datatype Step = LetterheadStep | TemplateStep | EditorStep | PreviewStep | SavedStep

  datatype LetterheadKind = Uploaded | Manual

  /** One flat record for both variants, as in the source interface: the
      uploaded variant fills the image/PDF fields, the manual one the
      organisation fields. Every optional field is `None` when undefined. */
  datatype Letterhead = Letterhead(
    id: string,
    name: string,
    kind: LetterheadKind,
    imageUrl: Option<string>,
    pdfUrl: Option<string>,
    base64Data: Option<string>,
    fileType: Option<string>,
    companyName: Option<string>,
    address: Option<string>,
    phone: Option<string>,
    email: Option<string>,
    website: Option<string>,
    logoUrl: Option<string>,
    logoBase64: Option<string>)

  datatype TemplateKind = Letter | Invoice | Report | Memo

  /** A document template. `kind` is `None` only for the empty object `{}`
      that the document data holds before any template is chosen. */
  datatype DocumentTemplate = DocumentTemplate(
    id: string, name: string, kind: Option<TemplateKind>, description: string)

  /** The `{} as DocumentTemplate` placeholder: every field reads as absent. */
  const BlankTemplate := DocumentTemplate("", "", None, "")

  datatype Signature = Signature(name: string, position: string, signatureImage: Option<string>)

  datatype DocumentData = DocumentData(
    title: string,
    content: string,
    recipient: Option<string>,
    date: string,
    subject: Option<string>,
    template: DocumentTemplate,
    letterhead: Option<Letterhead>,
    signature: Option<Signature>)

  datatype SavedDocument = SavedDocument(
    id: string, name: string, data: DocumentData, createdAt: string, updatedAt: string)

  /** The parts of a browser `File` the code looks at. */
  datatype FileInfo = FileInfo(name: string, mimeType: string)

  /** JavaScript truthiness of an optional string: defined and non-empty. */
  predicate Truthy(s: Option<string>) {
    s.Some? && s.value != ""
  }

  /** `s || ''` for an optional string. */
  function OrEmpty(s: Option<string>): (r: string)
    ensures r == "" <==> !Truthy(s)
  {
    s.GetOr("")
  }

  /** `s || undefined`: an empty string becomes undefined. */
  function NonEmptyOrNone(s: Option<string>): (r: Option<string>)
    ensures Truthy(r) <==> Truthy(s)
    ensures r.Some? ==> r == s
  {
    if Truthy(s) then s else None
  }
}
