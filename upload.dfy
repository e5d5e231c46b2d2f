/** The PDF letterhead upload of src/components/LetterheadUpload.tsx: the drop
    filter, the simulated progress counter, the uploaded letterhead it builds
    once the crop is done, and the cancel and remove handlers. */
module LetterheadUpload {
  import opened Wrappers
  import opened AppTypes
  import opened Storage
  import App
  import DocumentPreview

  const PdfMimeType := "application/pdf"

  /** What one interval tick does to the progress counter. */
  datatype Tick = Emit(next: int) | Finalize

  /** The updater passed to `setUploadProgress` on each tick: an unset
      counter restarts at 0, one below 100 grows by 10, and one at 100 or
      more ends the simulation (the letterhead is created). */
  function ProgressTick(prev: Option<int>): (t: Tick)
    ensures prev.None? ==> t == Emit(0)
    ensures prev.Some? && prev.value < 100 ==> t == Emit(prev.value + 10)
    ensures t.Finalize? <==> prev.Some? && prev.value >= 100
  {
    match prev
    case None => Emit(0)
    case Some(p) => if p >= 100 then Finalize else Emit(p + 10)
  }

  /** A tick keeps the counter on the multiples of ten between 0 and 100. */
  lemma ProgressTickStaysOnGrid(p: int)
    requires 0 <= p <= 100 && p % 10 == 0
    ensures ProgressTick(Some(p)).Emit? ==>
      var q := ProgressTick(Some(p)).next; 0 < q <= 100 && q % 10 == 0 && q == p + 10
  {
  }

  /** The counter from a value `start` on the grid up to the finalizing tick,
      iterating the tick updater: `shown` lists the values it takes and
      `ticks` counts the interval ticks. The component starts it with
      `setUploadProgress(0)`, which shows 0, 10, ..., 100 over eleven ticks. */
  method SimulateProgress(start: int) returns (shown: seq<int>, ticks: nat)
    requires 0 <= start <= 100 && start % 10 == 0
    ensures |shown| == (100 - start) / 10 + 1
    ensures forall i :: 0 <= i < |shown| ==> shown[i] == start + 10 * i
    ensures shown[|shown| - 1] == 100
    ensures ticks == |shown|
    ensures start == 0 ==> |shown| == 11 && ticks == 11
  {
    var progress: Option<int> := Some(start);
    shown := [start];
    var tick := ProgressTick(progress);
    ticks := 1;
    while tick.Emit?
      invariant 1 <= |shown| <= (100 - start) / 10 + 1
      invariant progress == Some(start + 10 * (|shown| - 1))
      invariant forall i :: 0 <= i < |shown| ==> shown[i] == start + 10 * i
      invariant tick == ProgressTick(progress)
      invariant ticks == |shown|
      decreases 100 - start - 10 * |shown|
    {
      progress := Some(tick.next);
      shown := shown + [tick.next];
      tick := ProgressTick(progress);
      ticks := ticks + 1;
    }
  }

  /** The letterhead built on the finalizing tick. `id` is `Date.now()`,
      `pdfUrl` the blob URL made from the stored data. */
  function UploadedLetterhead(id: string, cropName: string, croppedImage: string,
                              pdfUrl: string, base64Data: string, file: FileInfo): (l: Letterhead)
    ensures l.id == id && l.name == cropName && l.kind == Uploaded
    ensures l.imageUrl == Some(croppedImage) && l.fileType == Some(file.mimeType)
    ensures l.base64Data == Some(base64Data) && l.pdfUrl == Some(pdfUrl)
    ensures l.companyName.None? && l.logoUrl.None? && l.logoBase64.None?
  {
    Letterhead(id, cropName, Uploaded, Some(croppedImage), Some(pdfUrl), Some(base64Data),
               Some(file.mimeType), None, None, None, None, None, None, None)
  }

  /** An uploaded letterhead shows its cropped image, or the stored PDF when
      that image is empty, and the side panel names it by the crop name. */
  lemma UploadedLetterheadRenders(id: string, cropName: string, croppedImage: string,
                                  pdfUrl: string, base64Data: string, file: FileInfo)
    ensures var l := UploadedLetterhead(id, cropName, croppedImage, pdfUrl, base64Data, file);
      && (croppedImage != "" ==> DocumentPreview.RenderLetterhead(Some(l)) == DocumentPreview.UploadedImage(croppedImage))
      && (croppedImage == "" && base64Data != "" ==>
            DocumentPreview.RenderLetterhead(Some(l)) == DocumentPreview.UploadedPdf(base64Data))
      && (croppedImage == "" && base64Data == "" ==>
            DocumentPreview.RenderLetterhead(Some(l)) == DocumentPreview.UploadedPlaceholder(cropName))
      && DocumentPreview.SidebarLabel(l) == cropName
  {
  }

  /** `onDrop` opens the cropper only for a first file of type exactly
      `application/pdf`. */
  predicate AcceptsDrop(files: seq<FileInfo>) {
    |files| > 0 && files[0].mimeType == PdfMimeType
  }

  datatype UploadState = UploadState(
    uploadProgress: Option<int>, uploadedFile: Option<FileInfo>,
    showCropper: bool, fileToProcess: Option<FileInfo>)

  class Uploader {
    var uploadProgress: Option<int>
    var uploadedFile: Option<FileInfo>
    var showCropper: bool
    var fileToProcess: Option<FileInfo>

    function State(): UploadState
      reads this
    {
      UploadState(uploadProgress, uploadedFile, showCropper, fileToProcess)
    }

    constructor ()
      ensures State() == UploadState(None, None, false, None)
    {
      uploadProgress := None;
      uploadedFile := None;
      showCropper := false;
      fileToProcess := None;
    }

    /** The component renders the cropper instead of the drop zone. */
    function CropperVisible(): bool
      reads this
    {
      showCropper && fileToProcess.Some?
    }

    /** `onDrop`; a rejected drop only raises an alert. */
    method OnDrop(files: seq<FileInfo>)
      modifies this
      ensures AcceptsDrop(files) ==>
        State() == old(State()).(fileToProcess := Some(files[0]), showCropper := true)
      ensures AcceptsDrop(files) ==> CropperVisible()
      ensures !AcceptsDrop(files) ==> State() == old(State())
    {
      if AcceptsDrop(files) {
        fileToProcess := Some(files[0]);
        showCropper := true;
      }
    }

    /** `handleCropComplete`, called by the cropper with the cropped image and
        the trimmed name. `base64Data` is the conversion of the pending file,
        `None` when it throws. On success the simulated progress runs to its
        end, then the letterhead is stored and selected in the wizard; when
        storing throws (`ok` false) the finalizing tick stops there. */
    method HandleCropComplete(app: App.Wizard, croppedImage: string, cropName: string,
                              base64Data: Option<string>, id: string, pdfUrl: string,
                              timestamp: string, random: string)
      returns (created: Option<Letterhead>, progressShown: seq<int>, ok: bool)
      modifies this, app, app.store
      ensures old(fileToProcess).None? ==>
        && created.None? && progressShown == [] && !ok
        && State() == old(State()) && app.State() == old(app.State())
        && app.store.userIdItem == old(app.store.userIdItem)
        && app.store.dataItems == old(app.store.dataItems)
      ensures old(fileToProcess).Some? && base64Data.None? ==>
        && created.None? && progressShown == [0] && !ok
        && State() == old(State()).(uploadProgress := None, showCropper := false, fileToProcess := None)
        && app.State() == old(app.State())
        && app.store.userIdItem == old(app.store.userIdItem)
        && app.store.dataItems == old(app.store.dataItems)
      ensures old(fileToProcess).Some? && base64Data.Some? ==>
        var l := UploadedLetterhead(id, cropName, croppedImage, pdfUrl, base64Data.value, old(fileToProcess).value);
        var uid := ResolveUserId(old(app.store.userIdItem), timestamp, random);
        var data := LoadUserData(uid, old(app.store.dataItems));
        && created == Some(l)
        && |progressShown| == 11 && (forall i :: 0 <= i < 11 ==> progressShown[i] == 10 * i)
        && app.store.userIdItem == Some(uid)
        && ok == data.letterheads.Some?
        && (ok ==> var list := Upsert(data.letterheads.value, l, LetterheadId);
             && app.store.dataItems == old(app.store.dataItems)[uid := Some(data.(letterheads := Some(list)))]
             && app.State() == old(app.State()).(letterheads := list, selectedLetterhead := Some(l))
             && State() == old(State()).(uploadProgress := None, showCropper := false,
                                         uploadedFile := old(fileToProcess), fileToProcess := None))
        && (!ok ==> app.store.dataItems == old(app.store.dataItems) && app.State() == old(app.State())
                    && State() == old(State()).(uploadProgress := Some(100), showCropper := false))
    {
      created, progressShown, ok := None, [], false;
      if fileToProcess.None? {
        return;
      }
      var file := fileToProcess.value;
      uploadProgress := Some(0);
      showCropper := false;
      if base64Data.None? {
        progressShown := [0];
        uploadProgress := None;
        showCropper := false;
        fileToProcess := None;
        return;
      }
      var ticks;
      progressShown, ticks := SimulateProgress(0);
      uploadProgress := Some(progressShown[|progressShown| - 1]);
      var l := UploadedLetterhead(id, cropName, croppedImage, pdfUrl, base64Data.value, file);
      created := Some(l);
      ok := app.HandleLetterheadCreated(l, timestamp, random);
      if !ok {
        return;
      }
      app.SelectLetterhead(Some(l));
      uploadProgress := None;
      uploadedFile := Some(file);
      fileToProcess := None;
    }

    /** `handleCropCancel`. */
    method HandleCropCancel()
      modifies this
      ensures State() == old(State()).(showCropper := false, fileToProcess := None)
      ensures !CropperVisible()
    {
      showCropper := false;
      fileToProcess := None;
    }

    /** `removeFile`: forgets the uploaded file and clears the wizard's selection. */
    method RemoveFile(app: App.Wizard)
      modifies this, app
      ensures State() == old(State()).(uploadedFile := None, uploadProgress := None)
      ensures app.State() == old(app.State()).(selectedLetterhead := None)
    {
      uploadedFile := None;
      uploadProgress := None;
      app.SelectLetterhead(None);
    }
  }
}
