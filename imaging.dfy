/**
 * core/funciones.py: the image holder `ProcesadorImagenes`, its canvas-fit arithmetic, and the
 * dispatcher `AnalizadorDefectos.analizar_imagen`.
 *
 * Decoding (PIL) and resampling are opaque: a load receives what decoding yielded, and the
 * resize is reduced to the target size it computes.
 */
module Imaging {
  import opened Outcomes
  import opened Detector
  import opened Numerics

  /** A decoded RGB image, by its size and its pixel data. */
  datatype Image = Image(width: nat, height: nat, pixels: seq<int>)

  /** The numpy array of an image: rows by columns by three channels. */
  datatype PixelArray = PixelArray(rows: nat, columns: nat, pixels: seq<int>)

  /** `np.array(img)`: same pixels, shape (height, width, 3). */
  function ToArray(img: Image): PixelArray {
    PixelArray(img.height, img.width, img.pixels)
  }

  /** The state `ProcesadorImagenes` keeps about the current image. */
  class ImageProcessor {
    var image: Option<Image>
    var imageArray: Option<PixelArray>
    var path: Option<string>

    /** The three fields are set together: all absent, or an image with its array and its path. */
    ghost predicate Valid()
      reads this
    {
      || (image.None? && imageArray.None? && path.None?)
      || (image.Some? && path.Some? && imageArray == Some(ToArray(image.value)))
    }

    constructor ()
      ensures Valid()
      ensures image.None? && imageArray.None? && path.None?
    {
      image, imageArray, path := None, None, None;
    }

    /**
     * `cargar_imagen`. `decoded` is what opening and converting the file yields, None when that
     * raises. A successful load sets all three fields and returns the image and its array; a
     * failed one returns (None, None) and changes nothing.
     */
    method Load(p: string, decoded: Option<Image>) returns (img: Option<Image>, arr: Option<PixelArray>)
      requires Valid()
      modifies this
      ensures Valid()
      ensures decoded.Some? ==> image == decoded && imageArray == Some(ToArray(decoded.value)) && path == Some(p)
      ensures decoded.None? ==> unchanged(this)
      ensures img == decoded && arr == (if decoded.Some? then Some(ToArray(decoded.value)) else None)
    {
      match decoded
      case None =>
        img, arr := None, None;
      case Some(d) =>
        var a := ToArray(d);
        image, imageArray, path := Some(d), Some(a), Some(p);
        img, arr := Some(d), Some(a);
    }

    /** `obtener_imagen_actual`. */
    function CurrentImage(): Option<Image>
      reads this
    {
      image
    }

    /** `obtener_array_actual`. */
    function CurrentArray(): Option<PixelArray>
      reads this
    {
      imageArray
    }

    /** `limpiar`: all three fields back to None. */
    method Clear()
      modifies this
      ensures Valid()
      ensures CurrentImage().None? && CurrentArray().None? && path.None?
    {
      image, imageArray, path := None, None, None;
    }
  }

  function AtLeastOne(n: int): int {
    if n < 1 then 1 else n
  }

  /** The margin `redimensionar_para_canvas` leaves on the side that limits the fit. */
  const Margin: int := 40

  /**
   * `redimensionar_para_canvas`: the size the image is resampled to, as (width, height).
   * Without aspect preservation, exactly the canvas size; with it, the limiting side becomes the
   * canvas side minus the margin, the other follows the image's ratio (truncated), and neither
   * goes below 1. The ratios divide by the image height and by the canvas height.
   */
  function ResizeForCanvas(imgW: nat, imgH: nat, maxW: int, maxH: int, keepAspect: bool): (r: (int, int))
    requires keepAspect ==> imgW > 0 && imgH > 0 && maxH != 0
  {
    if !keepAspect then (maxW, maxH)
    else
      var imgRatio := imgW as real / imgH as real;
      var canvasRatio := maxW as real / maxH as real;
      if imgRatio > canvasRatio then
        var w := maxW - Margin;
        (AtLeastOne(w), AtLeastOne(Trunc(w as real / imgRatio)))
      else
        var h := maxH - Margin;
        (AtLeastOne(Trunc(h as real * imgRatio)), AtLeastOne(h))
  }

  /**
   * The branches of the aspect-preserving fit: a relatively wider image gets the canvas width
   * minus the margin and the height that width implies at the image's ratio, rounded down; any
   * other gets the canvas height minus the margin and the width it implies, rounded down. A side
   * whose implied length is below 1 becomes 1; without aspect preservation the canvas size is
   * returned as given.
   */
  lemma ResizeForCanvasShape(imgW: nat, imgH: nat, maxW: int, maxH: int, keepAspect: bool)
    requires keepAspect ==> imgW > 0 && imgH > 0 && maxH != 0
    ensures var (w, h) := ResizeForCanvas(imgW, imgH, maxW, maxH, keepAspect);
      && (!keepAspect ==> w == maxW && h == maxH)
      && (keepAspect ==> w >= 1 && h >= 1)
      && (keepAspect && imgW as real / imgH as real > maxW as real / maxH as real ==>
          var implied := (maxW - Margin) as real / (imgW as real / imgH as real);
          && (maxW > Margin ==> w == maxW - Margin)
          && (implied >= 1.0 ==> h as real <= implied < h as real + 1.0)
          && (implied < 1.0 ==> h == 1))
      && (keepAspect && imgW as real / imgH as real <= maxW as real / maxH as real ==>
          var implied := (maxH - Margin) as real * (imgW as real / imgH as real);
          && (maxH > Margin ==> h == maxH - Margin)
          && (implied >= 1.0 ==> w as real <= implied < w as real + 1.0)
          && (implied < 1.0 ==> w == 1))
  {
  }

  /** With both canvas sides above the margin, the aspect-preserving fit lies inside the canvas. */
  lemma {:induction false} ResizeForCanvasFits(imgW: nat, imgH: nat, maxW: int, maxH: int)
    requires imgW > 0 && imgH > 0 && maxW > Margin && maxH > Margin
    ensures var (w, h) := ResizeForCanvas(imgW, imgH, maxW, maxH, true);
      1 <= w <= maxW && 1 <= h <= maxH
  {
    var rho := imgW as real / imgH as real;
    var c := maxW as real / maxH as real;
    assert rho >= 0.0;
    assert c * maxH as real == maxW as real;
    if rho > c {
      var a := (maxW - Margin) as real;
      WiderFits(a, rho, c, maxW as real, maxH as real);
      TruncBelow(a / rho);
    } else {
      var a := (maxH - Margin) as real;
      TallerFits(a, rho, c, maxW as real, maxH as real);
      TruncBelow(a * rho);
    }
  }

  lemma WiderFits(a: real, rho: real, c: real, mw: real, mh: real)
    requires 0.0 < a < mw && mh > 0.0 && c * mh == mw && rho > c
    ensures 0.0 < a / rho < mh
  {
    assert rho * mh > c * mh;
    assert a < rho * mh;
    assert a / rho < mh;
  }

  lemma TallerFits(a: real, rho: real, c: real, mw: real, mh: real)
    requires 0.0 < a < mh && mw > 0.0 && mh > 0.0 && c * mh == mw && 0.0 <= rho <= c
    ensures 0.0 <= a * rho < mw
  {
    assert c > 0.0;
    assert a * rho <= a * c;
    assert a * c < mh * c;
  }

  lemma TruncBelow(x: real)
    requires x >= 0.0
    ensures 0 <= Trunc(x) && Trunc(x) as real <= x
  {
  }

  /** `predecir`'s dictionary with the `imagen_array` key added. */
  datatype Analysis = Analysis(prediction: Prediction, image: PixelArray)

  /** `analizar_imagen` raises only when no detector is bound. */
  datatype AnalyzeError = ModelNotInitialised

  /**
   * `analizar_imagen` given an array and no path: no detector raises; no array yields None; a
   * prediction that raises yields None; otherwise the prediction with the analysed array.
   * `row` and `elapsed` are the forward pass and latency for that array.
   */
  function AnalyseArray(model: Option<Detector>, imageArray: Option<PixelArray>, row: Option<seq<real>>, elapsed: real)
    : (r: Result<Option<Analysis>, AnalyzeError>)
    ensures model.None? ==> r == Err(ModelNotInitialised)
    ensures model.Some? ==> r.Ok?
    ensures model.Some? && imageArray.None? ==> r == Ok(None)
    ensures model.Some? && imageArray.Some? ==>
      (r.value.None? <==> Predict(model.value, row, elapsed).Err?)
    ensures r.Ok? && r.value.Some? ==>
      imageArray.Some? && r.value.value.image == imageArray.value
      && Predict(model.value, row, elapsed) == Ok(r.value.value.prediction)
  {
    match model
    case None => Err(ModelNotInitialised)
    case Some(d) =>
      match imageArray
      case None => Ok(None)
      case Some(a) =>
        match Predict(d, row, elapsed)
        case Err(_) => Ok(None)
        case Ok(p) => Ok(Some(Analysis(p, a)))
  }

  /** Python truthiness of an optional path: present and non-empty. */
  predicate Truthy(path: Option<string>) {
    path.Some? && path.value != ""
  }

  /** `AnalizadorDefectos`: an image processor and the detector bound at construction, if any. */
  class Analyzer {
    const processor: ImageProcessor
    const model: Option<Detector>

    constructor (model: Option<Detector>)
      ensures this.model == model && fresh(processor)
      ensures processor.Valid() && processor.image.None?
    {
      this.model := model;
      processor := new ImageProcessor();
    }

    /**
     * `analizar_imagen`. A non-empty path takes precedence over an array and is loaded through
     * the processor (`decoded` is what decoding the file yields); a failed load yields None.
     */
    method Analyse(
      path: Option<string>, imageArray: Option<PixelArray>, decoded: Option<Image>,
      row: Option<seq<real>>, elapsed: real)
      returns (r: Result<Option<Analysis>, AnalyzeError>)
      requires processor.Valid()
      modifies processor
      ensures processor.Valid()
      ensures model.None? ==> r == Err(ModelNotInitialised) && unchanged(processor)
      ensures model.Some? && !Truthy(path) ==> r == AnalyseArray(model, imageArray, row, elapsed) && unchanged(processor)
      ensures model.Some? && Truthy(path) && decoded.None? ==> r == Ok(None) && unchanged(processor)
      ensures model.Some? && Truthy(path) && decoded.Some? ==>
        && r == AnalyseArray(model, Some(ToArray(decoded.value)), row, elapsed)
        && processor.image == decoded && processor.path == path
        && processor.imageArray == Some(ToArray(decoded.value))
    {
      if model.None? {
        return Err(ModelNotInitialised);
      }
      if Truthy(path) {
        var img, arr := processor.Load(path.value, decoded);
        if img.None? {
          return Ok(None);
        }
        r := AnalyseArray(model, arr, row, elapsed);
      } else {
        r := AnalyseArray(model, imageArray, row, elapsed);
      }
    }
  }
}
