/** One pass through the wizard, from a cropped PDF upload to a saved
    document that is read back from the profile. */
module Scenario {
  import opened Wrappers
  import opened AppTypes
  import opened Storage
  import App
  import DocumentEditor
  import DocumentTemplates
  import LetterheadUpload

  /** Starting from an empty profile of user `"u"` and a PDF waiting in the
      upload component: the crop named "HeaderA" is completed, the letter
      template chosen, title and body filled in and the document saved.
      Reading the saved documents back gives exactly one, on the "Surat
      Resmi" template, whose embedded letterhead is "HeaderA". */
  method UploadSelectWriteSave(w: App.Wizard, up: LetterheadUpload.Uploader, pdf: FileInfo,
                               croppedImage: string, base64Data: string, pdfUrl: string,
                               timestamp: string, random: string)
    returns (documents: seq<SavedDocument>)
    requires w.store.userIdItem == Some("u")
    requires w.store.dataItems == map["u" := Some(UserData("u", Some([]), Some([]), Some([])))]
    requires w.currentStep == LetterheadStep
    requires up.fileToProcess == Some(pdf)
    modifies w, w.store, up
    ensures |documents| == 1
    ensures documents[0].name == "Undangan" && documents[0].data.content == "Isi surat"
    ensures documents[0].data.template.name == "Surat Resmi"
    ensures documents[0].data.letterhead.Some? && documents[0].data.letterhead.value.name == "HeaderA"
    ensures w.currentStep == PreviewStep
  {
    var created, shown, ok := up.HandleCropComplete(w, croppedImage, "HeaderA", Some(base64Data),
                                                    "1", pdfUrl, timestamp, random);
    assert ok;
    w.ClickNext();
    assert w.currentStep == TemplateStep;
    var letter := DocumentTemplates.Templates[0];
    w.HandleTemplateSelect(letter);
    w.ClickNext();
    assert w.currentStep == EditorStep;
    var d := DocumentEditor.FieldChange(w.documentData, DocumentEditor.Title, "Undangan");
    d := DocumentEditor.FieldChange(d, DocumentEditor.Content, "Isi surat");
    w.ChangeDocument(d);
    w.ClickNext();
    assert w.currentStep == PreviewStep;
    ok := w.HandleSaveDocument("2", "t0", "t0", timestamp, random);
    assert ok;
    documents := w.store.GetSavedDocuments(timestamp, random);
  }
}
