# Document wizard with letterheads — a Dafny model

This project models the logic of a small browser application for writing
letters, invoices, reports and memos on a letterhead. The user picks or
creates a letterhead, picks one of four templates, fills in the document,
previews it and saves it. Everything lives in the browser's storage.

Modelled parts:

- **Profile store** (`Storage`). A per-browser user id plus one profile per
  user holding two id-keyed lists, letterheads and saved documents.
  `LocalStore` is a class over the two storage entries. The profile entry is
  an `Option<UserData>`, where `None` stands for missing or unparsable.
  Saving upserts by id: an entry with the same id is replaced in place, a new
  id is appended. Deleting filters by id. A parsed profile without the list
  being saved to makes the source throw before writing; the model returns
  `ok == false` and writes nothing.
- **Wizard controller** (`App`). The step switches `Next` and `Back`, the
  forward gate `CanProceed`, and the `Wizard` class holding the component's
  state. Its handlers select, save, load and delete through the store.
- **Step bar** (`Header`). Step indices, and the active, completed and
  connector highlighting.
- **Template catalog** (`DocumentTemplates`). The four fixed entries, the
  selection highlight and the category chip.
- **Document form** (`DocumentEditor`). Single-field edits, signature edits,
  the signature-image type guard, the auto-save condition, the paragraph
  counter and which inputs each template shows.
- **Preview** (`DocumentPreview`). The letterhead branch, the side panel's
  label, which header and signature blocks appear, and the export file name.
- **Manual letterhead form** (`LetterheadCreator`). Field edits, the logo
  picker, validity and the submit handler.
- **PDF upload** (`LetterheadUpload`). The drop filter, the simulated
  progress counter, the uploaded letterhead, cancel and remove.
- **Crop dialog** (`PDFCropper`). The default and reset crops, the default
  name, the zoom clamp, and the mapping from a displayed-pixel crop to the
  natural-pixel source rectangle. It also covers the canvas sizing with its
  unsigned 32-bit conversion, and the dialog's state with its save handler.
- **Scenario** (`Scenario`). One full pass: a cropped upload named
  "HeaderA", the letter template, a title and a body, then a save. Reading
  the profile back gives exactly one document, on "Surat Resmi", carrying
  that letterhead.

Clock readings (`Date.now()`, ISO timestamps), the random part of a user id,
file conversions, PDF rendering results and other browser answers are all
method parameters. JavaScript numbers in the crop dialog are exact `real`s;
progress values and canvas sizes are `int`s.

Behaviour of the code worth knowing:

- The output canvas takes the crop's displayed size, not its natural-pixel
  size, so a page shown below its natural size is cropped at the lower
  resolution (`PDFCropper.OutputIsUnscaled`).
- A save always stamps a new id from the clock, so saving the same document
  twice, once the clock has advanced, appends two records rather than
  overwriting (`App.FreshSaveAppends`).
- The header lets the user jump to any step with no gate (`App.Wizard.ChangeStep`).
- No minimum crop size is enforced in the component's own code; the crop
  widget enforces it.
- `saveLetterhead` and `saveDocument` throw on a parsed profile without the
  list, while `getLetterheads` and `getSavedDocuments` fall back to `[]`.

## Model

| member | source | states |
|---|---|---|
| AppTypes.OrEmpty | src/components/DocumentEditor.tsx:43-44 | `s \|\| ''` is empty exactly when `s` is undefined or empty |
| AppTypes.NonEmptyOrNone | src/components/LetterheadCreator.tsx:84-85 | `s \|\| undefined` is truthy exactly when `s` is, and is `s` itself when defined |
| Text.Trim | src/components/LetterheadCreator.tsx:113 | `String.prototype.trim`, the composition of the two halves; its shape is stated by `Text.TrimIsCore` |
| Text.StartsWith | src/components/LetterheadCreator.tsx:41 | `startsWith`: the prefix is the string's first characters |
| Text.EndsWithPdf | src/components/PDFCropper.tsx:57 | the regular expression `/\.pdf$/i` matches: a dot and `pdf` in any case end the string |
| Text.StripPdfExtension | src/components/PDFCropper.tsx:57 | `replace(/\.pdf$/i, '')`; what it keeps is stated by `Text.StripPdfExtensionSplits` |
| Text.TrimStart | src/components/LetterheadCreator.tsx:113 | the result is the suffix of `s` after its leading JavaScript whitespace, starting at a non-whitespace character |
| Text.TrimEnd | src/components/LetterheadCreator.tsx:113 | the result is the prefix of `s` before its trailing whitespace, ending at a non-whitespace character |
| Text.TrimIsCore | src/components/LetterheadCreator.tsx:113 | `trim` yields the slice of `s` between all-whitespace borders, and starts and ends on non-whitespace |
| Text.TrimEmptyIff | src/components/LetterheadCreator.tsx:113 | a string trims to `''` iff it is all whitespace |
| Text.TrimIdempotent | src/components/PDFCropper.tsx:126 | trimming the already trimmed name changes nothing |
| Text.StripPdfExtensionSplits | src/components/PDFCropper.tsx:57 | `replace(/\.pdf$/i, '')` leaves a prefix and removes either nothing (no match) or exactly one four-character `.pdf` in any case |
| Storage.FirstIndex | src/utils/storage.ts:90 | `findIndex` gives -1 or a position holding the id, and no earlier position holds it |
| Storage.FindIndex | src/utils/storage.ts:110 | the linear search returns `FirstIndex`, and -1 exactly when the id is absent |
| Storage.Upsert | src/utils/storage.ts:90-96 | replace the first entry with the same id, else push; its laws are the four `Upsert…` lemmas below |
| Storage.UpsertReplacesInPlace | src/utils/storage.ts:92-93 | with the id present, the list keeps its length, the first match is replaced and every other entry is unchanged |
| Storage.UpsertAppends | src/utils/storage.ts:94-96 | with a new id, the entry is appended and the length grows by one |
| Storage.UpsertContents | src/utils/storage.ts:88-99 | after an upsert the new entry is present, nothing foreign appears, and every entry with another id survives |
| Storage.UpsertKeepsIdsUnique | src/utils/storage.ts:108-119 | unique ids stay unique through an upsert |
| Storage.RemoveId | src/utils/storage.ts:130 | the filter keeps only entries of the list whose id differs |
| Storage.RemoveIdConcat | src/utils/storage.ts:130 | filtering distributes over concatenation, so the survivors keep their relative order |
| Storage.RemoveIdKeepsOthers | src/utils/storage.ts:137 | every entry with another id survives the delete |
| Storage.RemoveIdAbsent | src/utils/storage.ts:128-132 | deleting an absent id leaves the list unchanged |
| Storage.RemoveIdUniqueDropsOne | src/utils/storage.ts:135-139 | with unique ids, deleting a present id removes exactly one entry |
| Storage.NewUserId | src/utils/storage.ts:23 | a generated user id is never empty |
| Storage.EmptyUserData | src/utils/storage.ts:42-47 | the fallback profile of the user with empty letterhead, document and project lists |
| Storage.LoadUserData | src/utils/storage.ts:30-48 | the parsed profile when the entry exists and parses, the fallback profile otherwise |
| Storage.ListOrEmpty | src/utils/storage.ts:104 | `list \|\| []`: the stored list, or `[]` when it is missing |
| Storage.ResolveUserId | src/utils/storage.ts:20-27 | the stored id is used when truthy, else a new one from the clock and random parts |
| Storage.UserIdIsStable | src/utils/storage.ts:20-27 | once the id is stored, later calls return it whatever clock and random values they get |
| Storage.LocalStore.constructor | src/utils/storage.ts:21 | the store starts with the given user-id and profile entries |
| Storage.LocalStore.GetUserId | src/utils/storage.ts:20-27 | returns the resolved id, keeps a truthy stored id, writes a new one otherwise, and leaves profiles alone |
| Storage.LocalStore.GetUserData | src/utils/storage.ts:30-48 | returns the parsed profile, or the empty profile for a missing or unparsable entry, and never writes a profile |
| Storage.LocalStore.SaveUserData | src/utils/storage.ts:51-58 | replaces exactly the current user's profile entry |
| Storage.LocalStore.SaveLetterhead | src/utils/storage.ts:88-99 | the stored letterhead list becomes its upsert; nothing is written when the list is absent |
| Storage.LocalStore.GetLetterheads | src/utils/storage.ts:102-105 | returns the stored list, or `[]` when absent, without writing a profile |
| Storage.LocalStore.SaveDocument | src/utils/storage.ts:108-119 | the stored document list becomes its upsert, and the letterhead list is unchanged |
| Storage.LocalStore.GetSavedDocuments | src/utils/storage.ts:122-125 | returns the stored list, or `[]` when absent, without writing a profile |
| Storage.LocalStore.DeleteDocument | src/utils/storage.ts:128-132 | the stored document list becomes its filter, and the letterhead list is unchanged |
| Storage.LocalStore.DeleteLetterhead | src/utils/storage.ts:135-139 | the stored letterhead list becomes its filter, and every saved document, with its embedded letterhead, is unchanged |
| Header.IndexOf | src/components/Header.tsx:18 | `findIndex` over the steps: -1 iff absent, otherwise the first position holding the step |
| Header.CurrentStepIndex | src/components/Header.tsx:18 | the position of the current step in the header's list; values are stated by `Header.StepIndices` |
| Header.IsActive | src/components/Header.tsx:54 | an entry is active when it is the current step |
| Header.IsCompleted | src/components/Header.tsx:55 | an entry is completed when its position is below the current step's |
| Header.ConnectorHighlighted | src/components/Header.tsx:83-88 | a connector is highlighted when its position is below the current step's |
| Header.StepBarVisible | src/components/Header.tsx:50 | the step bar is drawn on every step but saved |
| Header.BadgeVisible | src/components/Header.tsx:42 | the count badge is drawn only for a positive number of saved documents |
| Header.StepIndices | src/components/Header.tsx:10-18 | letterhead, template, editor and preview have indices 0 to 3; saved has -1 |
| Header.StepBarShownOnChain | src/components/Header.tsx:50 | the step bar is shown iff the current step is one of the four entries |
| Header.ActiveEntriesExact | src/components/Header.tsx:54 | exactly one entry is active on a chain step, and none on saved |
| Header.CompletedEntries | src/components/Header.tsx:55 | an entry is completed iff the current step comes later; none on letterhead or saved; the active entry is never completed |
| Header.ConnectorsFollowCompletion | src/components/Header.tsx:83-88 | there are three connectors, and connector i is highlighted iff entry i is completed |
| DocumentTemplates.CatalogShape | src/components/DocumentTemplates.tsx:10-39 | four entries in the order letter, invoice, report, memo; each id is its type's name; the letter is "Surat Resmi" |
| DocumentTemplates.CatalogIdsUnique | src/components/DocumentTemplates.tsx:12-37 | the catalog ids are pairwise distinct |
| DocumentTemplates.KindNameInjective | src/components/DocumentTemplates.tsx:14-35 | different template types have different names |
| DocumentTemplates.AtMostOneSelected | src/components/DocumentTemplates.tsx:46 | whatever is selected, at most one catalog entry is highlighted |
| DocumentTemplates.CategoryTag | src/components/DocumentTemplates.tsx:76-79 | the chip reads Formal, Keuangan, Dokumen or Internal by type, and nothing for the blank template |
| DocumentTemplates.KindName | src/components/DocumentTemplates.tsx:14-35 | the string value of each template `type` |
| DocumentTemplates.IsSelected | src/components/DocumentTemplates.tsx:46 | `selectedTemplate?.id === template.id`: a selection exists and has the entry's id |
| App.NextAdvancesOneEntry | src/App.tsx:125-137 | `handleNext` moves one entry right on the step bar, and stays on preview and on saved |
| App.BackRetreatsOneEntry | src/App.tsx:139-151 | `handleBack` moves one entry left, and stays on letterhead and on saved |
| App.Next | src/App.tsx:125-137 | `handleNext`'s switch over the current step; its movement is stated by `App.NextAdvancesOneEntry` |
| App.Back | src/App.tsx:139-151 | `handleBack`'s switch over the current step; its movement is stated by `App.BackRetreatsOneEntry` |
| App.NextBackInverse | src/App.tsx:125-151 | back undoes next on letterhead, template and editor; next undoes back on template, editor and preview |
| App.GatedNextMoves | src/App.tsx:153-164 | the enabled Next button needs a letterhead, a template, or a non-empty title and content; preview and saved always pass |
| App.CanProceed | src/App.tsx:153-164 | `canProceed`: a letterhead, a template, or a non-empty title and content, by step; true elsewhere |
| App.GatePassImpliesAutoSave | src/App.tsx:160-161 | a document that passes the editor step's `canProceed` meets the editor's auto-save condition (DocumentEditor.tsx:16), while a title without a body is auto-saved but cannot proceed |
| App.GatedNext | src/App.tsx:226-229 | the click on a Next button whose `disabled` is `!canProceed()` |
| App.Wizard.CanProceedNow | src/App.tsx:228 | `canProceed()` evaluated on the wizard's current state |
| App.SaveRecord | src/App.tsx:98-104 | the record carries the given id and timestamps and the current document |
| App.SaveRecordName | src/App.tsx:100 | the record name is the title, or "Dokumen Tanpa Judul" when it is empty, so never empty |
| App.FreshSaveAppends | src/App.tsx:97-110 | a record with a fresh id is appended to the saved list |
| App.Wizard.constructor | src/App.tsx:62-75 | the wizard opens on the letterhead step with nothing selected, an empty document dated today on the blank template, and empty lists |
| App.Wizard.Mount | src/App.tsx:78-83 | mounting loads both lists from storage without writing a profile |
| App.Wizard.HandleNext | src/App.tsx:125-137 | only the step changes, to `Next` of the old step |
| App.Wizard.HandleBack | src/App.tsx:139-151 | only the step changes, to `Back` of the old step |
| App.Wizard.ClickNext | src/App.tsx:226-291 | offered only where the button is rendered (letterhead, template, and editor while a template is selected), a click moves forward exactly when `canProceed` holds and changes nothing else |
| App.Wizard.ChangeStep | src/App.tsx:170 | the header sets any step, with no gate, and nothing else changes |
| App.Wizard.SelectLetterhead | src/App.tsx:213 | only the selected letterhead changes |
| App.Wizard.ChangeDocument | src/App.tsx:278 | only the document changes |
| App.Wizard.HandleTemplateSelect | src/App.tsx:92-95 | records the template and copies it and the selected letterhead into the document; no other field changes |
| App.Wizard.HandleLetterheadCreated | src/App.tsx:85-90 | stores the letterhead by upsert, reloads the list and selects it; nothing changes when storing throws |
| App.Wizard.HandleSaveDocument | src/App.tsx:97-110 | stores the freshly stamped record and reloads the saved list; nothing changes when storing throws |
| App.Wizard.HandleLoadDocument | src/App.tsx:112-117 | restores the document, its template and its letterhead, and opens the editor |
| App.Wizard.HandleDeleteDocument | src/App.tsx:119-123 | removes the id from storage and reloads the saved list |
| App.SaveThenLoad | src/App.tsx:97-117 | under an id the profile does not hold, the saved record becomes the last entry of the reloaded list, which equals the stored profile's list; loading that entry restores the same document, template and letterhead on the editor step |
| DocumentEditor.FieldChange | src/components/DocumentEditor.tsx:26-31 | exactly the named field takes the value; every other field, the template, letterhead and signature are unchanged |
| DocumentEditor.FieldChangeLastWins | src/components/DocumentEditor.tsx:26-31 | a second edit of the same field overrides the first; edits of different fields commute |
| DocumentEditor.SetSignatureName | src/components/DocumentEditor.tsx:217-225 | sets the signer name, keeps position (default `''`) and image, and changes nothing outside the signature |
| DocumentEditor.SetSignaturePosition | src/components/DocumentEditor.tsx:239-247 | sets the position, keeps name (default `''`) and image, and changes nothing outside the signature |
| DocumentEditor.RemoveSignatureImage | src/components/DocumentEditor.tsx:267-273 | clears the image and keeps name and position, each defaulting to `''` |
| DocumentEditor.UploadSignatureImage | src/components/DocumentEditor.tsx:33-51 | a non-image or missing file changes nothing; an image becomes the signature image, keeping name and position |
| DocumentEditor.SignatureEditsCompose | src/components/DocumentEditor.tsx:217-273 | name and position edits commute, and removing an uploaded image equals removing the old one |
| DocumentEditor.AutoSaveAfterEdit | src/components/DocumentEditor.tsx:16 | a non-empty title or body edit makes the draft eligible; other edits keep eligibility |
| DocumentEditor.ShouldAutoSave | src/components/DocumentEditor.tsx:16 | a draft is written when the title or the content is non-empty |
| DocumentEditor.ParagraphCount | src/components/DocumentEditor.tsx:325 | the count is `ceil(len / 500)`: the least n with len at most 500·n, and 0 for an empty body |
| DocumentEditor.ParagraphCountShown | src/components/DocumentEditor.tsx:324 | the paragraph count appears only for a non-empty body |
| DocumentEditor.RecipientInputShown | src/components/DocumentEditor.tsx:93-184 | a recipient input appears for every template type, and not for the blank template |
| DocumentEditor.SubjectInputShown | src/components/DocumentEditor.tsx:118-201 | a subject input appears for letter, invoice and report, never for memo or blank |
| DocumentPreview.ExportFilenameRoundTrip | src/components/DocumentPreview.tsx:46 | the export name ends in `.pdf`, and stripping it gives the title, or `dokumen` when the title is empty |
| DocumentPreview.ExportFilename | src/components/DocumentPreview.tsx:46 | the title, or `dokumen`, with `.pdf` appended; stated by `DocumentPreview.ExportFilenameRoundTrip` |
| DocumentPreview.Line | src/components/DocumentPreview.tsx:143-149 | an optional contact line is present iff the field is non-empty, and then shows it |
| DocumentPreview.RenderLetterhead | src/components/DocumentPreview.tsx:96-156 | no block without a letterhead; an uploaded one shows its image URL, else its PDF data, else a placeholder with its name, exclusively; a manual one shows its company name, and the logo and each contact line exactly when that field is non-empty, with that field's own text |
| DocumentPreview.SidebarLabel | src/components/DocumentPreview.tsx:217-219 | the label is the name of an uploaded letterhead and the company name of a manual one |
| DocumentPreview.LetterRecipientShown | src/components/DocumentPreview.tsx:241 | the letter's recipient block needs the letter type and a non-empty recipient |
| DocumentPreview.MemoBlockShown | src/components/DocumentPreview.tsx:249 | the memo header needs the memo type and a non-empty recipient |
| DocumentPreview.MemoSubjectShown | src/components/DocumentPreview.tsx:254 | the memo's subject line also needs a non-empty subject |
| DocumentPreview.LetterSubjectShown | src/components/DocumentPreview.tsx:258 | the letter's subject block needs the letter type and a non-empty subject |
| DocumentPreview.SignatureShown | src/components/DocumentPreview.tsx:277 | the signature section needs a signature with a non-empty name or position |
| DocumentPreview.SignatureImageShown | src/components/DocumentPreview.tsx:282 | inside a shown section, the image appears when it is non-empty |
| DocumentPreview.SignatureSpacerShown | src/components/DocumentPreview.tsx:292 | inside a shown section, the spacer appears when the image is empty |
| DocumentPreview.BlocksExclusive | src/components/DocumentPreview.tsx:241-296 | letter and memo blocks never appear together or for other types; a shown signature has exactly one of image and spacer |
| DocumentPreview.SignatureEditShowsSection | src/components/DocumentPreview.tsx:277 | typing a non-empty signer name or position makes the signature section appear |
| DocumentPreview.EmptySignerHidesSection | src/components/DocumentPreview.tsx:277 | with name and position both empty, the section is hidden even with an image |
| LetterheadCreator.WithField | src/components/LetterheadCreator.tsx:32-37 | exactly the named form field takes the value; the other five are unchanged |
| LetterheadCreator.FormExtensional | src/components/LetterheadCreator.tsx:19-26 | a form is determined by its six field values |
| LetterheadCreator.WithFieldLaws | src/components/LetterheadCreator.tsx:32-37 | a second edit of a field overrides the first; edits of different fields commute |
| LetterheadCreator.ValidFormPassesGuard | src/components/LetterheadCreator.tsx:63-113 | a valid form passes the submit guard; validity is "not all whitespace"; a blank company name passes the guard but is invalid |
| LetterheadCreator.IsFormValid | src/components/LetterheadCreator.tsx:113 | the form is valid when the company name does not trim to `''` |
| LetterheadCreator.SubmitGuard | src/components/LetterheadCreator.tsx:63 | the handler's own test: a non-empty, untrimmed company name |
| LetterheadCreator.NeedsReconversion | src/components/LetterheadCreator.tsx:67 | a logo file is chosen and the preview does not start with `data:` |
| LetterheadCreator.IsImageFile | src/components/LetterheadCreator.tsx:41 | the file type starts with `image/` |
| LetterheadCreator.SubmittedLogo | src/components/LetterheadCreator.tsx:64-73 | the preview is used unless a file needs converting again and that conversion succeeds |
| LetterheadCreator.ManualLetterhead | src/components/LetterheadCreator.tsx:75-86 | type manual, name is the form name or else the company name, contact fields copied, logo URL equal to the logo data and both undefined without a logo |
| LetterheadCreator.ManualLetterheadRenders | src/components/LetterheadCreator.tsx:75-86 | a created letterhead previews as the organisation header: each contact line shows the typed text when it is non-empty and is absent otherwise, the logo is the picked one when truthy, and the label is the company name |
| LetterheadCreator.Creator.constructor | src/components/LetterheadCreator.tsx:19-28 | the form starts empty with no logo |
| LetterheadCreator.Creator.HandleInputChange | src/components/LetterheadCreator.tsx:32-37 | only the named form field changes |
| LetterheadCreator.Creator.HandleLogoUpload | src/components/LetterheadCreator.tsx:39-51 | an `image/` file becomes the logo, with its data URL or the blob-URL fallback; anything else changes nothing |
| LetterheadCreator.Creator.RemoveLogo | src/components/LetterheadCreator.tsx:53-59 | clears both the logo file and the preview |
| LetterheadCreator.Creator.HandleSubmit | src/components/LetterheadCreator.tsx:61-102 | with an empty company name nothing happens; otherwise the built letterhead is stored and selected, then the form and logo are cleared |
| LetterheadUpload.ProgressTick | src/components/LetterheadUpload.tsx:49-71 | unset becomes 0, below 100 grows by 10, and 100 or more finalizes |
| LetterheadUpload.ProgressTickStaysOnGrid | src/components/LetterheadUpload.tsx:49-71 | from a multiple of ten in 0..100, a tick stays on that grid |
| LetterheadUpload.SimulateProgress | src/components/LetterheadUpload.tsx:41-72 | iterating the tick from any multiple of ten in 0..100, the counter shows each multiple of ten from there up to 100, one per tick; from 0 that is 0, 10, …, 100 over eleven ticks |
| LetterheadUpload.UploadedLetterhead | src/components/LetterheadUpload.tsx:54-62 | type uploaded, name is the crop name, image is the cropped image, file type is the file's, with the stored PDF data |
| LetterheadUpload.UploadedLetterheadRenders | src/components/LetterheadUpload.tsx:54-62 | an uploaded letterhead previews as its cropped image, or its PDF when the image is empty, labelled by the crop name |
| LetterheadUpload.AcceptsDrop | src/components/LetterheadUpload.tsx:28-29 | a first file exists and its type is exactly `application/pdf` |
| LetterheadUpload.Uploader.CropperVisible | src/components/LetterheadUpload.tsx:111 | the cropper replaces the drop zone while it is shown and a file is pending |
| LetterheadUpload.Uploader.constructor | src/components/LetterheadUpload.tsx:21-25 | no progress, no file, cropper hidden |
| LetterheadUpload.Uploader.OnDrop | src/components/LetterheadUpload.tsx:27-35 | only a first file of type exactly `application/pdf` becomes pending and opens the cropper; otherwise nothing changes |
| LetterheadUpload.Uploader.HandleCropComplete | src/components/LetterheadUpload.tsx:37-80 | no pending file: nothing happens; conversion failure: progress cleared, cropper hidden, file dropped; success: counter runs 0..100, then the letterhead is stored and selected |
| LetterheadUpload.Uploader.HandleCropCancel | src/components/LetterheadUpload.tsx:82-85 | hides the cropper and drops the pending file |
| LetterheadUpload.Uploader.RemoveFile | src/components/LetterheadUpload.tsx:104-108 | clears the uploaded file and progress, and the wizard's selection |
| PDFCropper.DefaultCropNameShape | src/components/PDFCropper.tsx:57 | the proposed name is the file name less at most one trailing `.pdf` (any case), followed by `_letterhead` |
| PDFCropper.DefaultCropNameExamples | src/components/PDFCropper.tsx:57 | `Kop.PDF` gives `Kop_letterhead`, `a.pdf.pdf` gives `a.pdf_letterhead`, `scan.png` keeps its extension |
| PDFCropper.DefaultCropName | src/components/PDFCropper.tsx:57 | the file name less `/\.pdf$/i`, followed by `_letterhead`; stated by `PDFCropper.DefaultCropNameShape` |
| PDFCropper.SourceRect | src/components/PDFCropper.tsx:86-103 | each source coordinate is the crop's times its own axis' natural/displayed ratio |
| PDFCropper.SourceRectAxesIndependent | src/components/PDFCropper.tsx:86-87 | the horizontal source values ignore heights and the vertical ones ignore widths |
| PDFCropper.SourceRectWholeImage | src/components/PDFCropper.tsx:97-103 | the whole displayed image maps to the whole natural image |
| PDFCropper.SourceRectWithinImage | src/components/PDFCropper.tsx:97-103 | a crop inside the displayed image maps inside the natural image |
| PDFCropper.Truncate | src/components/PDFCropper.tsx:94-95 | truncation toward zero, within one unit of the value |
| PDFCropper.CanvasDimension | src/components/PDFCropper.tsx:94-95 | a stored canvas size is the attribute default or lies in 0..2^31-1 |
| PDFCropper.CanvasDimensionExact | src/components/PDFCropper.tsx:94-95 | a whole size within range is stored as it is |
| PDFCropper.GetCroppedImg | src/components/PDFCropper.tsx:79-106 | rejects without a canvas or with a zero size, then without a context, with those messages; otherwise the canvas takes the displayed crop size and the source rectangle is drawn at the origin |
| PDFCropper.Canvas.constructor | src/components/PDFCropper.tsx:30 | a new canvas is 300 by 150 with nothing drawn |
| PDFCropper.DrawCroppedImage | src/components/PDFCropper.tsx:79-106 | the canvas is resized and drawn as `GetCroppedImg` plans, and left untouched on rejection |
| PDFCropper.OutputIsUnscaled | src/components/PDFCropper.tsx:94-95 | at half display size a 100 by 40 crop gives a 100 by 40 canvas from a 200 by 80 source |
| PDFCropper.ZoomOut | src/components/PDFCropper.tsx:198 | the new scale is the larger of 0.5 and the scale less 0.1 (at least both, and one of them), so never below 0.5 nor above 2 from a scale within it |
| PDFCropper.ZoomIn | src/components/PDFCropper.tsx:207 | the new scale is the smaller of 2 and the scale plus 0.1 (at most both, and one of them), so never above 2 nor below 0.5 from a scale within it |
| PDFCropper.ZoomStaysInRange | src/components/PDFCropper.tsx:28-207 | any sequence of zoom clicks from a scale in [0.5, 2], such as the initial 1, stays in [0.5, 2] |
| PDFCropper.ApplyZoom | src/components/PDFCropper.tsx:196-209 | the scale after a sequence of zoom clicks, first click first |
| PDFCropper.SaveDisabled | src/components/PDFCropper.tsx:269 | the save button is disabled without a committed crop, with a name that trims to `''`, or while processing |
| PDFCropper.EnabledSaveIsReady | src/components/PDFCropper.tsx:269 | an enabled save button means a committed crop and a name that trims to a non-empty, already trimmed value |
| PDFCropper.Cropper.constructor | src/components/PDFCropper.tsx:17-28 | the dialog opens on the crop (%, 100, 30, 0, 0) with no committed crop, no image, no name and scale 1 |
| PDFCropper.Cropper.ConvertPdf | src/components/PDFCropper.tsx:33-63 | a rendered page sets the image and the default name; a failure changes neither; processing ends either way |
| PDFCropper.Cropper.SpinnerShown | src/components/PDFCropper.tsx:142 | the spinner replaces the dialog while processing with no page image yet |
| PDFCropper.Cropper.ImageMounted | src/components/PDFCropper.tsx:233 | the crop area and its image exist only once a page image is set, and then the spinner is not shown |
| PDFCropper.Cropper.OnImageLoad | src/components/PDFCropper.tsx:69-77 | loading the page image sets the crop (%, 100, 25, 0, 0) |
| PDFCropper.Cropper.ResetSelection | src/components/PDFCropper.tsx:215-222 | the Reset button sets the crop (%, 100, 25, 0, 0) |
| PDFCropper.Cropper.ChangeCrop | src/components/PDFCropper.tsx:236 | only the live crop changes |
| PDFCropper.Cropper.CommitCrop | src/components/PDFCropper.tsx:237 | only the committed crop changes |
| PDFCropper.Cropper.ChangeName | src/components/PDFCropper.tsx:177 | only the crop name changes |
| PDFCropper.Cropper.ClickZoom | src/components/PDFCropper.tsx:196-209 | only the scale changes, by the clamped step |
| PDFCropper.Cropper.SaveButtonDisabled | src/components/PDFCropper.tsx:269 | `SaveDisabled` on the dialog's current state |
| PDFCropper.Cropper.HandleCropComplete | src/components/PDFCropper.tsx:124-140 | reachable only with the save button shown and an image only once mounted; without an image, a committed crop and a non-blank name nothing happens and the canvas is untouched; a rejection is reported with the canvas untouched; otherwise the canvas is resized and drawn as planned, success hands on the image and the trimmed name, and no blob leaves it processing |
| Scenario.UploadSelectWriteSave | src/App.tsx:85-110 | upload "HeaderA", choose the letter template, write and save: the profile holds exactly one document, on "Surat Resmi", with that letterhead |

## Left out

- Browser storage is a pair of fields. JSON text, quota errors (the `catch` in `saveUserData`) and a parsed value that is not an object are not modelled; an unparsable entry is `None`.
- `Math.random().toString(36).substr(2, 9)` and `Date.now()` are the `random` and `timestamp` parameters.
- `fileToBase64`, `base64ToBlob`, `FileReader` and `URL.createObjectURL` are browser I/O; their results are parameters.
- PDF rendering by the PDF library, canvas pixels, `toBlob` and `toDataURL` are foreign; only the rectangles and the canvas size attributes are modelled.
- PDFCropper.HandleCropComplete: a canvas with no blob leaves the promise pending forever; the model reports this as `Pending` with processing still on. What happens when the pending promise is abandoned (the dialog closed) is not modelled.
- PDFCropper.GetCroppedImg: requires a non-zero displayed image size. With a zero size JavaScript divides to infinity, which exact reals cannot express.
- The crop widget's drag and resize, and its `minWidth`/`minHeight` floors, happen inside the widget.
- Reals are exact: no IEEE rounding in the 0.1 zoom steps, and no NaN or infinity in the canvas conversion.
- The `setInterval` timer and React's batching of state updaters are not modelled; the progress simulation is a loop over the tick function.
- LetterheadUpload.Uploader.HandleCropComplete: when storing throws inside the final tick, the model leaves the counter at 100 and the file pending; React's handling of an updater that throws is not modelled.
- The editor's auto-save timer and its draft keys are timers and I/O; only the condition is kept.
- Each async handler runs as one step: the `await`s in the letterhead form's submit (`src/components/LetterheadCreator.tsx:69`), the upload's conversion (`src/components/LetterheadUpload.tsx:45`), the PDF rendering (`src/components/PDFCropper.tsx:38-53`) and the crop save (`src/components/PDFCropper.tsx:132`) are not interleaved with other events. So the spinner state of `PDFCropper.Cropper.SpinnerShown` never shows between two model steps, and edits made while such a handler waits, such as a form edit that the reset after submit discards, are not modelled.
- DocumentEditor.UploadSignatureImage: the upload is applied at once to the current document. In the source the `FileReader` callback spreads the document captured when the file was chosen, so edits typed before the read finishes are overwritten; the model does not capture that lost update.
- The template-specific placeholder texts and labels of the editor are presentation text.
- PDF export, printing, sharing and clipboard in the preview are foreign or I/O.
- Deleting a letterhead from the pickers goes through `confirm` and a page reload; these are UI. The pickers' dropdowns, their per-type filtering of the list, and the upload/create toggle are UI state.
- `src/components/SavedDocuments.tsx` only lists documents and is not part of this model.
- The `userId` state of the App component is never read after it is set, so it is not a field. Its `useState(getUserId())` initialiser runs on every render; the first render's id write is folded into `App.Wizard.Mount`, whose resolved id is the same one, and later renders find the id stored and write nothing.
- Strings are sequences of Unicode scalar values, not UTF-16 code units.
