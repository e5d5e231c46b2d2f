/** The crop dialog of src/components/PDFCropper.tsx: its default crop and
    name, the zoom control, the mapping of the committed crop from displayed
    pixels to the image's natural pixels, and the dialog's state. Numbers of
    the browser are exact reals here. */
module PDFCropper {
  import opened Wrappers
  import opened AppTypes
  import opened Text

  datatype CropUnit = Percent | Pixels

  /** The live crop rectangle that react-image-crop edits. */
  datatype Crop = Crop(unit: CropUnit, width: real, height: real, x: real, y: real)

  /** The crop the dialog opens with: full width, the top 30%. */
  const InitialCrop := Crop(Percent, 100.0, 30.0, 0.0, 0.0)

  /** The crop set when the page image loads and by the Reset button: full
      width, the top 25%. */
  const ResetCrop := Crop(Percent, 100.0, 25.0, 0.0, 0.0)

  /** The committed crop, in pixels of the displayed image. */
  datatype PixelCrop = PixelCrop(x: real, y: real, width: real, height: real)

  /** The dimensions of the `<img>` element: intrinsic and displayed. */
  datatype ImageElement = ImageElement(naturalWidth: real, naturalHeight: real, width: real, height: real)

  datatype Rect = Rect(x: real, y: real, width: real, height: real)

  /** What `getCroppedImg` does to the canvas: its new size, and the source and
      destination rectangles of the single `drawImage` call. */
  datatype DrawPlan = DrawPlan(canvasWidth: int, canvasHeight: int, source: Rect, dest: Rect)

  // ---------------------------------------------------------------------------
  // Default name

  const CropSuffix := "_letterhead"

  /** The name proposed for a letterhead cut from `fileName`. */
  function DefaultCropName(fileName: string): string {
    StripPdfExtension(fileName) + CropSuffix
  }

  /** The proposed name is the file name with at most one trailing `.pdf` (in
      any letter case) removed, followed by `_letterhead`. */
  lemma DefaultCropNameShape(fileName: string)
    ensures var n := DefaultCropName(fileName);
      var base := n[..|n| - |CropSuffix|];
      && |n| >= |CropSuffix| && n[|n| - |CropSuffix|..] == CropSuffix
      && fileName == base + fileName[|base|..]
      && (fileName[|base|..] == "" <==> !EndsWithPdf(fileName))
      && (fileName[|base|..] != "" ==> |fileName[|base|..]| == 4 && EndsWithPdf(fileName[|base|..]))
  {
    var n := DefaultCropName(fileName);
    assert n[..|n| - |CropSuffix|] == StripPdfExtension(fileName);
    StripPdfExtensionSplits(fileName);
  }

  lemma DefaultCropNameExamples()
    ensures DefaultCropName("Kop.PDF") == "Kop_letterhead"
    ensures DefaultCropName("a.pdf.pdf") == "a.pdf_letterhead"
    ensures DefaultCropName("scan.png") == "scan.png_letterhead"
  {
    assert "Kop.PDF"[..3] == "Kop";
    assert "a.pdf.pdf"[..5] == "a.pdf";
  }

  // ---------------------------------------------------------------------------
  // Geometry

  /** The source rectangle of `drawImage`: each coordinate times its own axis
      ratio `naturalWidth / width` or `naturalHeight / height`. */
  function SourceRect(image: ImageElement, crop: PixelCrop): (r: Rect)
    requires image.width > 0.0 && image.height > 0.0
    ensures r.x * image.width == crop.x * image.naturalWidth
    ensures r.y * image.height == crop.y * image.naturalHeight
    ensures r.width * image.width == crop.width * image.naturalWidth
    ensures r.height * image.height == crop.height * image.naturalHeight
  {
    var scaleX := image.naturalWidth / image.width;
    var scaleY := image.naturalHeight / image.height;
    Rect(crop.x * scaleX, crop.y * scaleY, crop.width * scaleX, crop.height * scaleY)
  }

  /** The two axes are independent: the horizontal part of the source
      rectangle does not depend on heights, nor the vertical part on widths. */
  lemma SourceRectAxesIndependent(image: ImageElement, crop: PixelCrop, naturalHeight: real, height: real,
                                  naturalWidth: real, width: real)
    requires image.width > 0.0 && image.height > 0.0 && height > 0.0 && width > 0.0
    ensures var r := SourceRect(image, crop);
      var h := SourceRect(image.(naturalHeight := naturalHeight, height := height), crop);
      var w := SourceRect(image.(naturalWidth := naturalWidth, width := width), crop);
      r.x == h.x && r.width == h.width && r.y == w.y && r.height == w.height
  {
  }

  /** The whole displayed image maps to the whole natural image. */
  lemma SourceRectWholeImage(image: ImageElement)
    requires image.width > 0.0 && image.height > 0.0
    ensures SourceRect(image, PixelCrop(0.0, 0.0, image.width, image.height))
      == Rect(0.0, 0.0, image.naturalWidth, image.naturalHeight)
  {
  }

  /** A crop inside the displayed image maps to a rectangle inside the
      natural image. */
  lemma SourceRectWithinImage(image: ImageElement, crop: PixelCrop)
    requires image.width > 0.0 && image.height > 0.0
    requires image.naturalWidth >= 0.0 && image.naturalHeight >= 0.0
    requires 0.0 <= crop.x && 0.0 <= crop.width && crop.x + crop.width <= image.width
    requires 0.0 <= crop.y && 0.0 <= crop.height && crop.y + crop.height <= image.height
    ensures var r := SourceRect(image, crop);
      && 0.0 <= r.x && 0.0 <= r.width && r.x + r.width <= image.naturalWidth
      && 0.0 <= r.y && 0.0 <= r.height && r.y + r.height <= image.naturalHeight
  {
    var sx := image.naturalWidth / image.width;
    var sy := image.naturalHeight / image.height;
    assert sx >= 0.0 && sy >= 0.0;
    assert crop.x * sx + crop.width * sx == (crop.x + crop.width) * sx;
    assert (crop.x + crop.width) * sx <= image.width * sx;
    assert image.width * sx == image.naturalWidth;
    assert crop.y * sy + crop.height * sy == (crop.y + crop.height) * sy;
    assert (crop.y + crop.height) * sy <= image.height * sy;
    assert image.height * sy == image.naturalHeight;
  }

  /** Truncation toward zero, as ECMAScript's ToIntegerOrInfinity. */
  function Truncate(v: real): (n: int)
    ensures v >= 0.0 ==> n as real <= v < n as real + 1.0
    ensures v < 0.0 ==> n as real - 1.0 < v <= n as real
  {
    if v >= 0.0 then v.Floor else -((-v).Floor)
  }

  /** Assigning `v` to `canvas.width` or `canvas.height`: converted to an
      unsigned 32-bit integer (truncated, modulo 2^32), and replaced by the
      attribute's default when it exceeds 2^31 - 1. */
  function CanvasDimension(v: real, default: int): (n: int)
    ensures n == default || 0 <= n <= 0x7FFF_FFFF
  {
    var u := Truncate(v) % 0x1_0000_0000;
    if u <= 0x7FFF_FFFF then u else default
  }

  /** A whole-pixel size that fits is stored as it is. */
  lemma CanvasDimensionExact(n: int, default: int)
    requires 0 <= n <= 0x7FFF_FFFF
    ensures CanvasDimension(n as real, default) == n
  {
  }

  const CanvasDefaultWidth := 300
  const CanvasDefaultHeight := 150

  /** `getCroppedImg` up to the point where the canvas is drawn: rejects when
      the canvas or a non-zero crop size is missing, then when no 2d context
      is available; otherwise the canvas takes the crop's displayed size and
      the natural-pixel source rectangle is drawn onto it at the origin. */
  function GetCroppedImg(canvasAvailable: bool, contextAvailable: bool,
                         image: ImageElement, crop: PixelCrop): (r: Result<DrawPlan, string>)
    requires image.width > 0.0 && image.height > 0.0
    ensures r.Err? <==> !canvasAvailable || crop.width == 0.0 || crop.height == 0.0 || !contextAvailable
    ensures (!canvasAvailable || crop.width == 0.0 || crop.height == 0.0) ==>
      r == Err("Canvas or crop dimensions not available")
    ensures canvasAvailable && crop.width != 0.0 && crop.height != 0.0 && !contextAvailable ==>
      r == Err("No 2d context")
    ensures r.Ok? ==>
      && r.value.dest == Rect(0.0, 0.0, crop.width, crop.height)
      && r.value.source == SourceRect(image, crop)
      && r.value.canvasWidth == CanvasDimension(crop.width, CanvasDefaultWidth)
      && r.value.canvasHeight == CanvasDimension(crop.height, CanvasDefaultHeight)
  {
    if !canvasAvailable || crop.width == 0.0 || crop.height == 0.0 then
      Err("Canvas or crop dimensions not available")
    else
      var source := SourceRect(image, crop);
      if !contextAvailable then Err("No 2d context")
      else
        Ok(DrawPlan(CanvasDimension(crop.width, CanvasDefaultWidth),
                    CanvasDimension(crop.height, CanvasDefaultHeight),
                    source, Rect(0.0, 0.0, crop.width, crop.height)))
  }

  /** The hidden `<canvas>` element of the dialog: its size attributes and the
      last `drawImage` call, as source and destination rectangles. */
  class Canvas {
    var width: int
    var height: int
    var lastDraw: Option<(Rect, Rect)>

    constructor ()
      ensures width == CanvasDefaultWidth && height == CanvasDefaultHeight && lastDraw.None?
    {
      width := CanvasDefaultWidth;
      height := CanvasDefaultHeight;
      lastDraw := None;
    }
  }

  /** `getCroppedImg` on the canvas referenced by the dialog (`null` when it
      is not mounted): on success the canvas is resized and drawn as the plan
      says, otherwise it is left untouched. */
  method DrawCroppedImage(canvas: Canvas?, contextAvailable: bool, image: ImageElement, crop: PixelCrop)
    returns (r: Result<DrawPlan, string>)
    requires image.width > 0.0 && image.height > 0.0
    modifies canvas
    ensures r == GetCroppedImg(canvas != null, contextAvailable, image, crop)
    ensures r.Ok? ==> canvas != null && canvas.width == r.value.canvasWidth && canvas.height == r.value.canvasHeight
                      && canvas.lastDraw == Some((r.value.source, r.value.dest))
    ensures r.Err? && canvas != null ==> canvas.width == old(canvas.width) && canvas.height == old(canvas.height)
                                         && canvas.lastDraw == old(canvas.lastDraw)
  {
    if canvas == null || crop.width == 0.0 || crop.height == 0.0 {
      return Err("Canvas or crop dimensions not available");
    }
    var source := SourceRect(image, crop);
    if !contextAvailable {
      return Err("No 2d context");
    }
    canvas.width := CanvasDimension(crop.width, CanvasDefaultWidth);
    canvas.height := CanvasDimension(crop.height, CanvasDefaultHeight);
    var dest := Rect(0.0, 0.0, crop.width, crop.height);
    canvas.lastDraw := Some((source, dest));
    r := Ok(DrawPlan(canvas.width, canvas.height, source, dest));
  }

  /** The output canvas has the crop's displayed size, not its natural-pixel
      size: with a page shown at half its natural size, a 100 x 40 crop yields
      a 100 x 40 canvas while its source region is 200 x 80. */
  lemma OutputIsUnscaled()
    ensures var image := ImageElement(1000.0, 2000.0, 500.0, 1000.0);
      var plan := GetCroppedImg(true, true, image, PixelCrop(10.0, 20.0, 100.0, 40.0));
      && plan.Ok?
      && plan.value.canvasWidth == 100 && plan.value.canvasHeight == 40
      && plan.value.source == Rect(20.0, 40.0, 200.0, 80.0)
  {
    CanvasDimensionExact(100, CanvasDefaultWidth);
    CanvasDimensionExact(40, CanvasDefaultHeight);
  }

  // ---------------------------------------------------------------------------
  // Zoom

  const MinScale := 0.5
  const MaxScale := 2.0

  /** The zoom-out button: `Math.max(0.5, scale - 0.1)`. */
  function ZoomOut(scale: real): (r: real)
    ensures r >= MinScale && r >= scale - 0.1
    ensures r == MinScale || r == scale - 0.1
    ensures scale <= MaxScale ==> r <= MaxScale
  {
    if scale - 0.1 > MinScale then scale - 0.1 else MinScale
  }

  /** The zoom-in button: `Math.min(2, scale + 0.1)`. */
  function ZoomIn(scale: real): (r: real)
    ensures r <= MaxScale && r <= scale + 0.1
    ensures r == MaxScale || r == scale + 0.1
    ensures scale >= MinScale ==> r >= MinScale
  {
    if scale + 0.1 < MaxScale then scale + 0.1 else MaxScale
  }

  datatype ZoomClick = ZoomInClick | ZoomOutClick

  /** The scale after a sequence of clicks, first click first. */
  function ApplyZoom(scale: real, clicks: seq<ZoomClick>): real
    decreases |clicks|
  {
    if clicks == [] then scale
    else ApplyZoom(if clicks[0] == ZoomInClick then ZoomIn(scale) else ZoomOut(scale), clicks[1..])
  }

  /** Whatever the clicks, a scale in [0.5, 2] stays there; the dialog starts at 1. */
  lemma {:induction false} ZoomStaysInRange(scale: real, clicks: seq<ZoomClick>)
    requires MinScale <= scale <= MaxScale
    ensures MinScale <= ApplyZoom(scale, clicks) <= MaxScale
    decreases |clicks|
  {
    if clicks != [] {
      ZoomStaysInRange(if clicks[0] == ZoomInClick then ZoomIn(scale) else ZoomOut(scale), clicks[1..]);
    }
  }

  // ---------------------------------------------------------------------------
  // The dialog

  /** How a click on the save button ends. */
  datatype CropOutcome =
    | NotReady                       // the alert asking for a crop and a name
    | CropFailed(message: string)    // the rejection, caught and alerted
    | Cropped(imageData: string, name: string, plan: DrawPlan)  // onCropComplete is called
    | Pending                        // the canvas produced no blob: the promise never settles

  datatype CropperState = CropperState(
    crop: Crop, completedCrop: Option<PixelCrop>, pdfImageUrl: string,
    cropName: string, isProcessing: bool, scale: real)

  /** The save button's `disabled` condition. */
  predicate SaveDisabled(completedCrop: Option<PixelCrop>, cropName: string, isProcessing: bool) {
    completedCrop.None? || Trim(cropName) == "" || isProcessing
  }

  class Cropper {
    var crop: Crop
    var completedCrop: Option<PixelCrop>
    var pdfImageUrl: string
    var cropName: string
    var isProcessing: bool
    var scale: real
    const pdfFile: FileInfo

    function State(): CropperState
      reads this
    {
      CropperState(crop, completedCrop, pdfImageUrl, cropName, isProcessing, scale)
    }

    constructor (pdfFile: FileInfo)
      ensures this.pdfFile == pdfFile
      ensures State() == CropperState(InitialCrop, None, "", "", false, 1.0)
    {
      this.pdfFile := pdfFile;
      crop := InitialCrop;
      completedCrop := None;
      pdfImageUrl := "";
      cropName := "";
      isProcessing := false;
      scale := 1.0;
    }

    /** The conversion effect. `rendered` is the PNG data URL of page 1, or
        `None` when the PDF library fails (an alert is shown). */
    method ConvertPdf(rendered: Option<string>)
      modifies this
      ensures rendered.Some? ==> State() == old(State()).(pdfImageUrl := rendered.value,
        cropName := DefaultCropName(pdfFile.name), isProcessing := false)
      ensures rendered.None? ==> State() == old(State()).(isProcessing := false)
    {
      isProcessing := true;
      if rendered.Some? {
        pdfImageUrl := rendered.value;
        cropName := DefaultCropName(pdfFile.name);
      }
      isProcessing := false;
    }

    /** The spinner replaces the dialog while converting with no image yet. */
    function SpinnerShown(): bool
      reads this
    {
      isProcessing && pdfImageUrl == ""
    }

    /** The crop area, with its `<img>`, is rendered only once a page image
        exists, and never together with the spinner. */
    function ImageMounted(): (mounted: bool)
      reads this
      ensures mounted ==> !SpinnerShown()
    {
      pdfImageUrl != ""
    }

    /** `onImageLoad`. */
    method OnImageLoad()
      modifies this
      ensures State() == old(State()).(crop := ResetCrop)
    {
      crop := ResetCrop;
    }

    /** The Reset button. */
    method ResetSelection()
      modifies this
      ensures State() == old(State()).(crop := ResetCrop)
    {
      crop := ResetCrop;
    }

    /** react-image-crop's `onChange`, with the percentage crop. */
    method ChangeCrop(c: Crop)
      modifies this
      ensures State() == old(State()).(crop := c)
    {
      crop := c;
    }

    /** react-image-crop's `onComplete` after a gesture: latches the pixel crop. */
    method CommitCrop(c: PixelCrop)
      modifies this
      ensures State() == old(State()).(completedCrop := Some(c))
    {
      completedCrop := Some(c);
    }

    method ChangeName(name: string)
      modifies this
      ensures State() == old(State()).(cropName := name)
    {
      cropName := name;
    }

    method ClickZoom(click: ZoomClick)
      modifies this
      ensures State() == old(State()).(scale := ApplyZoom(old(scale), [click]))
    {
      if click == ZoomInClick {
        scale := ZoomIn(scale);
      } else {
        scale := ZoomOut(scale);
      }
    }

    function SaveButtonDisabled(): bool
      reads this
    {
      SaveDisabled(completedCrop, cropName, isProcessing)
    }

    /** `handleCropComplete`, reachable only from the save button, which is not
        rendered while the spinner is. `image` is the rendered `<img>` when mounted,
        `canvas` the hidden canvas (or `null`), `encoded` the data URL that `toBlob` and the file reader produce, or
        `None` when the canvas yields no blob. */
    method HandleCropComplete(image: Option<ImageElement>, canvas: Canvas?,
                              contextAvailable: bool, encoded: Option<string>)
      returns (outcome: CropOutcome)
      requires !SpinnerShown()
      requires image.Some? ==> ImageMounted()
      requires image.Some? ==> image.value.width > 0.0 && image.value.height > 0.0
      modifies this, canvas
      ensures var ready := image.Some? && old(completedCrop).Some? && Trim(old(cropName)) != "";
        && (!ready ==>
              && outcome == NotReady && State() == old(State())
              && (canvas != null ==>
                    && canvas.width == old(canvas.width) && canvas.height == old(canvas.height)
                    && canvas.lastDraw == old(canvas.lastDraw)))
        && (ready ==>
             var r := GetCroppedImg(canvas != null, contextAvailable, image.value, old(completedCrop).value);
             && (r.Err? ==> outcome == CropFailed(r.error) && State() == old(State()).(isProcessing := false))
             && (r.Ok? && encoded.Some? ==> outcome == Cropped(encoded.value, Trim(old(cropName)), r.value)
                                            && State() == old(State()).(isProcessing := false))
             && (r.Ok? && encoded.None? ==> outcome == Pending && State() == old(State()).(isProcessing := true))
             && (r.Ok? ==>
                   && canvas != null && canvas.width == r.value.canvasWidth
                   && canvas.height == r.value.canvasHeight
                   && canvas.lastDraw == Some((r.value.source, r.value.dest)))
             && (r.Err? && canvas != null ==>
                   && canvas.width == old(canvas.width) && canvas.height == old(canvas.height)
                   && canvas.lastDraw == old(canvas.lastDraw)))
    {
      if image.None? || completedCrop.None? || Trim(cropName) == "" {
        return NotReady;
      }
      isProcessing := true;
      var r := DrawCroppedImage(canvas, contextAvailable, image.value, completedCrop.value);
      if r.Err? {
        outcome := CropFailed(r.error);
      } else if encoded.None? {
        return Pending;
      } else {
        outcome := Cropped(encoded.value, Trim(cropName), r.value);
      }
      isProcessing := false;
    }
  }

  /** With the image mounted, an enabled save button always gets past the
      handler's guard, and the name handed on is trimmed and non-empty. */
  lemma EnabledSaveIsReady(completedCrop: Option<PixelCrop>, cropName: string, isProcessing: bool)
    requires !SaveDisabled(completedCrop, cropName, isProcessing)
    ensures completedCrop.Some? && Trim(cropName) != ""
    ensures Trim(cropName) == Trim(Trim(cropName))
  {
    TrimIdempotent(cropName);
  }
}
