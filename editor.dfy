/** The document form of src/components/DocumentEditor.tsx: every edit builds
    a new `DocumentData` from the old one. */
module DocumentEditor {
  import opened Wrappers
  import opened AppTypes
  import opened Text

  /** The keys `handleFieldChange` is called with. */
  datatype DocField = Title | Content | Recipient | Date | Subject

  /** Reads a text field of the document, `None` when undefined. */
  function FieldValue(d: DocumentData, f: DocField): Option<string> {
    match f
    case Title => Some(d.title)
    case Content => Some(d.content)
    case Recipient => d.recipient
    case Date => Some(d.date)
    case Subject => d.subject
  }

  /** `handleFieldChange(field, value)`: `{...documentData, [field]: value}`. */
  function FieldChange(d: DocumentData, f: DocField, v: string): (r: DocumentData)
    ensures FieldValue(r, f) == Some(v)
    ensures forall g :: g != f ==> FieldValue(r, g) == FieldValue(d, g)
    ensures r.template == d.template && r.letterhead == d.letterhead && r.signature == d.signature
  {
    match f
    case Title => d.(title := v)
    case Content => d.(content := v)
    case Recipient => d.(recipient := Some(v))
    case Date => d.(date := v)
    case Subject => d.(subject := Some(v))
  }

  /** Writing a field twice keeps only the second value, and edits of two
      different fields commute. */
  lemma FieldChangeLastWins(d: DocumentData, f: DocField, g: DocField, v: string, w: string)
    ensures FieldChange(FieldChange(d, f, v), f, w) == FieldChange(d, f, w)
    ensures f != g ==> FieldChange(FieldChange(d, f, v), g, w) == FieldChange(FieldChange(d, g, w), f, v)
  {
  }

  function SignatureName(d: DocumentData): string {
    if d.signature.Some? then d.signature.value.name else ""
  }

  /** `documentData.signature?.position || ''`. */
  function SignaturePosition(d: DocumentData): string {
    if d.signature.Some? then d.signature.value.position else ""
  }

  function SignatureImage(d: DocumentData): Option<string> {
    if d.signature.Some? then d.signature.value.signatureImage else None
  }

  /** The name input's handler. */
  function SetSignatureName(d: DocumentData, v: string): (r: DocumentData)
    ensures r.signature.Some?
    ensures SignatureName(r) == v
    ensures SignaturePosition(r) == SignaturePosition(d) && SignatureImage(r) == SignatureImage(d)
    ensures r.(signature := d.signature) == d
  {
    d.(signature := Some(Signature(v, SignaturePosition(d), SignatureImage(d))))
  }

  /** The position input's handler. */
  function SetSignaturePosition(d: DocumentData, v: string): (r: DocumentData)
    ensures r.signature.Some?
    ensures SignaturePosition(r) == v
    ensures SignatureName(r) == SignatureName(d) && SignatureImage(r) == SignatureImage(d)
    ensures r.(signature := d.signature) == d
  {
    d.(signature := Some(Signature(SignatureName(d), v, SignatureImage(d))))
  }

  /** The "remove signature" button. */
  function RemoveSignatureImage(d: DocumentData): (r: DocumentData)
    ensures r.signature.Some? && SignatureImage(r).None?
    ensures SignatureName(r) == SignatureName(d) && SignaturePosition(r) == SignaturePosition(d)
    ensures r.(signature := d.signature) == d
  {
    d.(signature := Some(Signature(SignatureName(d), SignaturePosition(d), None)))
  }

  /** The signature upload: accepted only for an `image/` mime type; the
      reader's data URL becomes the image. */
  function UploadSignatureImage(d: DocumentData, file: Option<FileInfo>, dataUrl: string): (r: DocumentData)
    ensures file.None? || !StartsWith(file.value.mimeType, "image/") ==> r == d
    ensures file.Some? && StartsWith(file.value.mimeType, "image/") ==>
      && SignatureImage(r) == Some(dataUrl)
      && SignatureName(r) == SignatureName(d) && SignaturePosition(r) == SignaturePosition(d)
      && r.(signature := d.signature) == d
  {
    if file.Some? && StartsWith(file.value.mimeType, "image/") then
      d.(signature := Some(Signature(SignatureName(d), SignaturePosition(d), Some(dataUrl))))
    else d
  }

  /** Name and position edits commute, and removing an uploaded image leaves
      the signature as it was before the upload, with no image. */
  lemma SignatureEditsCompose(d: DocumentData, n: string, p: string, f: FileInfo, url: string)
    ensures SetSignaturePosition(SetSignatureName(d, n), p) == SetSignatureName(SetSignaturePosition(d, p), n)
    ensures RemoveSignatureImage(UploadSignatureImage(d, Some(f), url)) == RemoveSignatureImage(d)
  {
  }

  /** The draft auto-save fires only when title or content is non-empty. */
  predicate ShouldAutoSave(d: DocumentData) {
    d.title != "" || d.content != ""
  }

  /** Typing a non-empty title or body makes the draft eligible for
      auto-save; editing any other field leaves eligibility as it was. */
  lemma AutoSaveAfterEdit(d: DocumentData, f: DocField, v: string)
    ensures (f == Title || f == Content) && v != "" ==> ShouldAutoSave(FieldChange(d, f, v))
    ensures f != Title && f != Content ==> (ShouldAutoSave(FieldChange(d, f, v)) <==> ShouldAutoSave(d))
  {
    assert FieldValue(FieldChange(d, f, v), f) == Some(v);
    assert FieldValue(FieldChange(d, f, v), Title) == FieldValue(d, Title) || f == Title;
    assert FieldValue(FieldChange(d, f, v), Content) == FieldValue(d, Content) || f == Content;
  }

  /** `Math.ceil(length / 500)`. */
  function ParagraphCount(length: nat): (n: nat)
    ensures length > 0 ==> 500 * (n - 1) < length <= 500 * n
    ensures length == 0 ==> n == 0
  {
    (length + 499) / 500
  }

  /** The paragraph count is shown only for a non-empty body. */
  predicate ParagraphCountShown(content: string) {
    |content| > 0
  }

  /** The recipient input: the letter/memo block, the invoice block and the
      report block each carry one, so every typed template shows it. */
  function RecipientInputShown(t: DocumentTemplate): (shown: bool)
    ensures shown <==> t.kind.Some?
  {
    match t.kind
    case None => false
    case Some(k) => (k == Letter || k == Memo) || k == Invoice || k == Report
  }

  /** The subject input: in the invoice, report and letter blocks, not memo. */
  function SubjectInputShown(t: DocumentTemplate): (shown: bool)
    ensures shown <==> t.kind.Some? && t.kind != Some(Memo)
  {
    match t.kind
    case None => false
    case Some(k) => k == Invoice || k == Report || k == Letter
  }
}
