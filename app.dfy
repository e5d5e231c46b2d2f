/** The wizard controller of src/App.tsx: the step switches, the forward gate,
    and the `App` component's state with its handlers. */
module App {
  import opened Wrappers
  import opened AppTypes
  import opened Storage
  import Header
  import DocumentEditor

  /** `handleNext`: moves one step along letterhead, template, editor, preview. */
  function Next(s: Step): Step {
    match s
    case LetterheadStep => TemplateStep
    case TemplateStep => EditorStep
    case EditorStep => PreviewStep
    case _ => s
  }

  /** `handleBack`: moves one step back along the same chain. */
  function Back(s: Step): Step {
    match s
    case TemplateStep => LetterheadStep
    case EditorStep => TemplateStep
    case PreviewStep => EditorStep
    case _ => s
  }

  /** Next moves exactly one entry to the right in the header's step bar, and
      stays put on the last entry and on `saved`, which is off the bar. */
  lemma NextAdvancesOneEntry(s: Step)
    ensures 0 <= Header.CurrentStepIndex(s) < 3 ==>
      Header.CurrentStepIndex(Next(s)) == Header.CurrentStepIndex(s) + 1
    ensures Header.CurrentStepIndex(s) == 3 || Header.CurrentStepIndex(s) == -1 ==> Next(s) == s
  {
    Header.StepIndices();
  }

  /** Back moves exactly one entry to the left, and stays put on the first
      entry and on `saved`. */
  lemma BackRetreatsOneEntry(s: Step)
    ensures 0 < Header.CurrentStepIndex(s) ==>
      Header.CurrentStepIndex(Back(s)) == Header.CurrentStepIndex(s) - 1
    ensures Header.CurrentStepIndex(s) <= 0 ==> Back(s) == s
  {
    Header.StepIndices();
  }

  /** Back undoes Next on letterhead, template and editor; Next undoes Back on
      template, editor and preview. */
  lemma NextBackInverse(s: Step)
    ensures s != PreviewStep && s != SavedStep ==> Back(Next(s)) == s
    ensures s != LetterheadStep && s != SavedStep ==> Next(Back(s)) == s
  {
  }

  /** `canProceed`: the condition under which the Next button is enabled. The
      editor test uses the untrimmed title and content. */
  predicate CanProceed(step: Step, selectedLetterhead: Option<Letterhead>,
                       selectedTemplate: Option<DocumentTemplate>, doc: DocumentData) {
    match step
    case LetterheadStep => selectedLetterhead.Some?
    case TemplateStep => selectedTemplate.Some?
    case EditorStep => doc.title != "" && doc.content != ""
    case _ => true
  }

  /** A document that passes the editor step's gate is always auto-saved as a
      draft; the converse fails: a title with no body is saved as a draft but
      cannot move on to the preview. */
  lemma GatePassImpliesAutoSave(l: Option<Letterhead>, t: Option<DocumentTemplate>, d: DocumentData)
    ensures CanProceed(EditorStep, l, t, d) ==> DocumentEditor.ShouldAutoSave(d)
    ensures var draft := d.(title := "T", content := "");
      DocumentEditor.ShouldAutoSave(draft) && !CanProceed(EditorStep, l, t, draft)
  {
  }

  /** A click on an enabled Next button: Next when `canProceed` holds. */
  function GatedNext(step: Step, selectedLetterhead: Option<Letterhead>,
                     selectedTemplate: Option<DocumentTemplate>, doc: DocumentData): Step {
    if CanProceed(step, selectedLetterhead, selectedTemplate, doc) then Next(step) else step
  }

  /** The gate on each chain step, stated as when the button moves forward. */
  lemma GatedNextMoves(step: Step, l: Option<Letterhead>, t: Option<DocumentTemplate>, doc: DocumentData)
    ensures GatedNext(LetterheadStep, l, t, doc) == TemplateStep <==> l.Some?
    ensures GatedNext(TemplateStep, l, t, doc) == EditorStep <==> t.Some?
    ensures GatedNext(EditorStep, l, t, doc) == PreviewStep <==> doc.title != "" && doc.content != ""
    ensures CanProceed(PreviewStep, l, t, doc) && CanProceed(SavedStep, l, t, doc)
    ensures GatedNext(PreviewStep, l, t, doc) == PreviewStep && GatedNext(SavedStep, l, t, doc) == SavedStep
  {
  }

  const UntitledName := "Dokumen Tanpa Judul"

  /** The record `handleSaveDocument` builds. */
  function SaveRecord(id: string, doc: DocumentData, createdAt: string, updatedAt: string): (r: SavedDocument)
    ensures r.id == id && r.data == doc
    ensures r.createdAt == createdAt && r.updatedAt == updatedAt
  {
    SavedDocument(id, if doc.title != "" then doc.title else UntitledName, doc, createdAt, updatedAt)
  }

  /** A saved document's display name is never empty; it is the title when
      there is one and the placeholder otherwise. */
  lemma SaveRecordName(id: string, doc: DocumentData, createdAt: string, updatedAt: string)
    ensures SaveRecord(id, doc, createdAt, updatedAt).name != ""
    ensures doc.title != "" ==> SaveRecord(id, doc, createdAt, updatedAt).name == doc.title
    ensures doc.title == "" ==> SaveRecord(id, doc, createdAt, updatedAt).name == UntitledName
  {
  }

  /** The freshly stamped record is appended when its id is new. */
  lemma FreshSaveAppends(docs: seq<SavedDocument>, id: string, doc: DocumentData, c: string, u: string)
    requires forall k :: 0 <= k < |docs| ==> docs[k].id != id
    ensures Upsert(docs, SaveRecord(id, doc, c, u), DocumentId) == docs + [SaveRecord(id, doc, c, u)]
  {
    UpsertAppends(docs, SaveRecord(id, doc, c, u), DocumentId);
  }

  /** The `App` component's state, for stating what a handler changes. */
  datatype AppState = AppState(
    currentStep: Step,
    selectedLetterhead: Option<Letterhead>,
    selectedTemplate: Option<DocumentTemplate>,
    documentData: DocumentData,
    letterheads: seq<Letterhead>,
    savedDocuments: seq<SavedDocument>)

  class Wizard {
    var currentStep: Step
    var selectedLetterhead: Option<Letterhead>
    var selectedTemplate: Option<DocumentTemplate>
    var documentData: DocumentData
    var letterheads: seq<Letterhead>
    var savedDocuments: seq<SavedDocument>
    /** The browser's storage, which the handlers go through. */
    const store: LocalStore

    function State(): AppState
      reads this
    {
      AppState(currentStep, selectedLetterhead, selectedTemplate, documentData, letterheads, savedDocuments)
    }

    /** The initial `useState` values; `today` is the ISO date of the clock. */
    constructor (store: LocalStore, today: string)
      ensures this.store == store
      ensures State() == AppState(LetterheadStep, None, None,
        DocumentData("", "", None, today, None, BlankTemplate, None, None), [], [])
    {
      this.store := store;
      currentStep := LetterheadStep;
      selectedLetterhead := None;
      selectedTemplate := None;
      documentData := DocumentData("", "", None, today, None, BlankTemplate, None, None);
      letterheads := [];
      savedDocuments := [];
    }

    /** The mount effect: both lists are read from storage. */
    method Mount(timestamp: string, random: string)
      modifies this, store
      ensures var id := ResolveUserId(old(store.userIdItem), timestamp, random);
        var data := LoadUserData(id, old(store.dataItems));
        && store.userIdItem == Some(id) && store.dataItems == old(store.dataItems)
        && State() == old(State()).(letterheads := ListOrEmpty(data.letterheads),
                                    savedDocuments := ListOrEmpty(data.savedDocuments))
    {
      var ls := store.GetLetterheads(timestamp, random);
      var ds := store.GetSavedDocuments(timestamp, random);
      letterheads, savedDocuments := ls, ds;
    }

    function CanProceedNow(): bool
      reads this
    {
      CanProceed(currentStep, selectedLetterhead, selectedTemplate, documentData)
    }

    method HandleNext()
      modifies this
      ensures State() == old(State()).(currentStep := Next(old(currentStep)))
    {
      match currentStep
      case LetterheadStep => currentStep := TemplateStep;
      case TemplateStep => currentStep := EditorStep;
      case EditorStep => currentStep := PreviewStep;
      case _ =>
    }

    method HandleBack()
      modifies this
      ensures State() == old(State()).(currentStep := Back(old(currentStep)))
    {
      match currentStep
      case TemplateStep => currentStep := LetterheadStep;
      case EditorStep => currentStep := TemplateStep;
      case PreviewStep => currentStep := EditorStep;
      case _ =>
    }

    /** A click on the Next button, which is disabled when `canProceed` fails.
        The button exists on the letterhead and template steps, and on the
        editor step only while a template is selected; preview and saved
        have none. */
    method ClickNext()
      requires currentStep == LetterheadStep || currentStep == TemplateStep
        || (currentStep == EditorStep && selectedTemplate.Some?)
      modifies this
      ensures State() == old(State()).(currentStep :=
        GatedNext(old(currentStep), old(selectedLetterhead), old(selectedTemplate), old(documentData)))
    {
      if CanProceedNow() {
        HandleNext();
      }
    }

    /** `setCurrentStep` as the header calls it: any step, with no gate. */
    method ChangeStep(step: Step)
      modifies this
      ensures State() == old(State()).(currentStep := step)
    {
      currentStep := step;
    }

    /** `setSelectedLetterhead`, as the letterhead pickers call it. */
    method SelectLetterhead(letterhead: Option<Letterhead>)
      modifies this
      ensures State() == old(State()).(selectedLetterhead := letterhead)
    {
      selectedLetterhead := letterhead;
    }

    /** `setDocumentData`, as the editor calls it. */
    method ChangeDocument(doc: DocumentData)
      modifies this
      ensures State() == old(State()).(documentData := doc)
    {
      documentData := doc;
    }

    /** `handleTemplateSelect`: records the template and copies the template and
        the selected letterhead into the document; no other document field changes. */
    method HandleTemplateSelect(template: DocumentTemplate)
      modifies this
      ensures State() == old(State()).(selectedTemplate := Some(template),
        documentData := old(documentData).(template := template, letterhead := old(selectedLetterhead)))
    {
      selectedTemplate := Some(template);
      documentData := documentData.(template := template, letterhead := selectedLetterhead);
    }

    /** `handleLetterheadCreated`: stores the letterhead, reloads the list and
        selects it. When the store throws (`ok` false) nothing else happens. */
    method HandleLetterheadCreated(letterhead: Letterhead, timestamp: string, random: string) returns (ok: bool)
      modifies this, store
      ensures var id := ResolveUserId(old(store.userIdItem), timestamp, random);
        var data := LoadUserData(id, old(store.dataItems));
        && store.userIdItem == Some(id)
        && ok == data.letterheads.Some?
        && (ok ==> var list := Upsert(data.letterheads.value, letterhead, LetterheadId);
             && store.dataItems == old(store.dataItems)[id := Some(data.(letterheads := Some(list)))]
             && State() == old(State()).(letterheads := list, selectedLetterhead := Some(letterhead)))
        && (!ok ==> store.dataItems == old(store.dataItems) && State() == old(State()))
    {
      ok := store.SaveLetterhead(letterhead, timestamp, random);
      if !ok {
        return;
      }
      var updated := store.GetLetterheads(timestamp, random);
      letterheads := updated;
      selectedLetterhead := Some(letterhead);
    }

    /** `handleSaveDocument`: stamps a new record from the current document
        (id from `Date.now()`, two ISO timestamps), stores it and reloads the list. */
    method HandleSaveDocument(now: string, createdAt: string, updatedAt: string,
                              timestamp: string, random: string) returns (ok: bool)
      modifies this, store
      ensures var id := ResolveUserId(old(store.userIdItem), timestamp, random);
        var data := LoadUserData(id, old(store.dataItems));
        var record := SaveRecord(now, old(documentData), createdAt, updatedAt);
        && store.userIdItem == Some(id)
        && ok == data.savedDocuments.Some?
        && (ok ==> var list := Upsert(data.savedDocuments.value, record, DocumentId);
             && store.dataItems == old(store.dataItems)[id := Some(data.(savedDocuments := Some(list)))]
             && State() == old(State()).(savedDocuments := list))
        && (!ok ==> store.dataItems == old(store.dataItems) && State() == old(State()))
    {
      var savedDoc := SaveRecord(now, documentData, createdAt, updatedAt);
      ok := store.SaveDocument(savedDoc, timestamp, random);
      if !ok {
        return;
      }
      var updated := store.GetSavedDocuments(timestamp, random);
      savedDocuments := updated;
    }

    /** `handleLoadDocument`: restores the document, its template and its
        letterhead, and opens the editor. */
    method HandleLoadDocument(saved: SavedDocument)
      modifies this
      ensures State() == old(State()).(documentData := saved.data,
        selectedTemplate := Some(saved.data.template),
        selectedLetterhead := saved.data.letterhead,
        currentStep := EditorStep)
    {
      documentData := saved.data;
      selectedTemplate := Some(saved.data.template);
      selectedLetterhead := saved.data.letterhead;
      currentStep := EditorStep;
    }

    /** `handleDeleteDocument`: removes the id from storage and reloads the list. */
    method HandleDeleteDocument(documentId: string, timestamp: string, random: string) returns (ok: bool)
      modifies this, store
      ensures var id := ResolveUserId(old(store.userIdItem), timestamp, random);
        var data := LoadUserData(id, old(store.dataItems));
        && store.userIdItem == Some(id)
        && ok == data.savedDocuments.Some?
        && (ok ==> var list := RemoveId(data.savedDocuments.value, documentId, DocumentId);
             && store.dataItems == old(store.dataItems)[id := Some(data.(savedDocuments := Some(list)))]
             && State() == old(State()).(savedDocuments := list))
        && (!ok ==> store.dataItems == old(store.dataItems) && State() == old(State()))
    {
      ok := store.DeleteDocument(documentId, timestamp, random);
      if !ok {
        return;
      }
      var updated := store.GetSavedDocuments(timestamp, random);
      savedDocuments := updated;
    }
  }

  /** Saving under an id the profile does not hold yet, then loading the last
      entry of the reloaded list: that entry is the record just saved, the
      wizard's list is the stored one, and loading it brings back the same
      document, template and letterhead, on the editor step. */
  method SaveThenLoad(w: Wizard, now: string, createdAt: string, updatedAt: string,
                      timestamp: string, random: string) returns (ok: bool)
    requires !HasId(ListOrEmpty(LoadUserData(ResolveUserId(w.store.userIdItem, timestamp, random),
                                             w.store.dataItems).savedDocuments), now, DocumentId)
    modifies w, w.store
    ensures var id := ResolveUserId(old(w.store.userIdItem), timestamp, random);
      var record := SaveRecord(now, old(w.documentData), createdAt, updatedAt);
      && ok == LoadUserData(id, old(w.store.dataItems)).savedDocuments.Some?
      && (ok ==> && LoadUserData(id, w.store.dataItems).savedDocuments == Some(w.savedDocuments)
                 && |w.savedDocuments| > 0 && w.savedDocuments[|w.savedDocuments| - 1] == record
                 && w.savedDocuments == ListOrEmpty(LoadUserData(id, old(w.store.dataItems)).savedDocuments) + [record])
    ensures ok ==> w.documentData == old(w.documentData)
    ensures ok ==> w.selectedTemplate == Some(old(w.documentData).template)
    ensures ok ==> w.selectedLetterhead == old(w.documentData).letterhead && w.currentStep == EditorStep
  {
    ghost var docs := ListOrEmpty(LoadUserData(ResolveUserId(w.store.userIdItem, timestamp, random),
                                               w.store.dataItems).savedDocuments);
    ghost var doc := w.documentData;
    ok := w.HandleSaveDocument(now, createdAt, updatedAt, timestamp, random);
    if ok {
      FreshSaveAppends(docs, now, doc, createdAt, updatedAt);
      var saved := w.savedDocuments[|w.savedDocuments| - 1];
      w.HandleLoadDocument(saved);
    }
  }
}
