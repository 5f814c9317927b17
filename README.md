# QualityVision in Dafny

QualityVision is a desktop inspector for industrial parts. A Tk window loads a photograph of a
part, and a MobileNetV2 network classifies it as DEFECT or OK. The window then shows a bar chart
of the two probabilities, a Grad-CAM heatmap of where the network looked, and a metrics panel. A
small animation library pulses buttons, fades windows in and slides panels.

This project models the decision layer of that program, and proves what each part promises:

- `Detector` (models/detector.py):
  - binding a model file, with auto-detection of the first `.keras` file;
  - telling a sigmoid head from a multiclass one;
  - turning the network's output row into probabilities, an argmax index, a label and a confidence.
- `GradCam` and `Fallback` (models/detector.py, core/graficas.py):
  - the Grad-CAM arithmetic: the weighted channel sum, then ReLU and normalisation by the maximum;
  - the fallback to a simulated Gaussian heatmap, whose centre is drawn with `randint`.
- `Imaging` (core/funciones.py):
  - the image holder `ProcesadorImagenes`;
  - its canvas-fit arithmetic;
  - the dispatcher `analizar_imagen`.
- `Charts` (core/graficas.py): the selection rules of the three figures, namely which bar is
  highlighted, the titles, the colour bands at 0.8 and 0.5, and where the heatmap comes from.
- `Session` (ui/interfaz.py): the state of the main window. This covers the busy flag, the
  results, the three buttons, the status line, the tabs and the clipboard, driven by loading,
  analysing, finishing, clearing and exporting.
- `Animation` (ui/animaciones.py):
  - the `#rrggbb` codec, including Python's `int(_, 16)` on two-character slices;
  - colour interpolation;
  - the step counters of the fade-in, pulse, slide and rotation animations;
  - the one-pulse-per-widget registry.

Where the code does not do what it evidently intends (see "## Findings"), the model has both
versions. The members named `...AsWritten` follow the code. The unsuffixed members carry the
correction, and the rest of the model builds on them.

Code that changes state in place is modelled as classes whose methods state the new state:
`ProcesadorImagenes`, `AnalizadorDefectos`, `GeneradorGraficas`, `QualityVisionUI`, the four
animations and `GestorAnimaciones`. Pure decision code is modelled as functions with lemmas.

Several things the program obtains from outside enter the model as parameters:
- the network's output row, the gradients and feature maps;
- decoded images and the file system listing;
- the clock's latency and date, the sine progress of a pulse, and the floating-point heatmap field.

Python's integer truncation, slicing, `lstrip`, `int(_, 16)` and `format(_, '02x')` are written
out.

## Model

| member | source | states |
|---|---|---|
| Numerics.Trunc | ui/animaciones.py:92-94 | `int()` on a float is the integer within 1 of it on zero's side (truncation toward zero, not floor) |
| Detector.Load | models/detector.py:39-91 | the constructor fails with ImportError without TensorFlow, FileNotFoundError for a missing path, and RuntimeError when loading fails; otherwise the detector holds the model, and it is binary exactly when the output width is 1 |
| Detector.KerasFiles | models/detector.py:283 | the glob keeps exactly the listing entries ending in `.keras` |
| Detector.KerasFilesHeadIsFirstMatch | models/detector.py:283-291 | the auto-detected model is the first `.keras` entry of the listing, and no earlier entry matches |
| Detector.CreateDetector | models/detector.py:268-294 | with no path and no `.keras` file it fails; an explicit missing path fails; an explicit path is kept; an auto-detected path is the first match |
| Detector.AnalyzerModel | core/funciones.py:97-139 | simulation mode binds no detector; otherwise a detector is bound or the error propagates; an empty path means auto-detection |
| Detector.ArgMax | models/detector.py:156 | `np.argmax` returns an index of a maximal entry, and no earlier entry is as large (the first maximum) |
| Detector.Probabilities | models/detector.py:141-150 | a sigmoid head gives `[1-s, s]`, which sums to 1, and fails on an empty row; a multiclass head passes the row through |
| Detector.Predict | models/detector.py:124-176 | no model raises; a failed pass raises; a result's label and confidence are those of the first maximal probability, and its index is a valid class; a sigmoid head with a non-empty row always succeeds |
| Detector.BinaryPrediction | models/detector.py:141-158 | for a sigmoid head, OK exactly when s > 0.5 (a tie goes to DEFECT), and the confidence is max(s, 1-s) |
| Detector.LoadIsConsistent | models/detector.py:74-81 | every loaded detector's head kind agrees with its output width |
| Detector.PredictionHasBothClasses | models/detector.py:141-158 | a successful prediction from a row of the model's own width carries at least two probabilities |
| Detector.MulticlassPrediction | models/detector.py:148-158 | a multiclass prediction succeeds exactly for a non-empty row whose first maximum is class 0 or 1, and it uses the row as the probabilities |
| Fallback.CentreRangeEmptyIff | models/detector.py:258-259 | `[n//4, 3n//4)` is non-empty exactly when n >= 2 |
| Fallback.PickCentreAsWritten | core/graficas.py:163-164 | the centre as drawn: it is undefined (randint raises) exactly when a side is shorter than 2, and otherwise lies in the code's ranges |
| Fallback.SinglePixelWidthHasNoCentre | models/detector.py:258 | a width of 1 gives an empty range |
| Fallback.SafeCentreRange | models/detector.py:258-259 | the corrected range is never empty, equals the code's range for sides of 2 or more, and stays inside the side |
| Fallback.PickCentre | models/detector.py:255-259 | the corrected centre always exists, lies in the code's range where that is non-empty, and lies inside any non-empty image |
| Fallback.Clip | core/graficas.py:171 | `np.clip(v, 0, 1)` lies in [0, 1], fixes values already there, and sends values outside to the nearer end |
| Fallback.SimulatedHeatmapAsWritten | core/graficas.py:161-173 | as written, the simulated map raises exactly for an image under 2 pixels on a side; otherwise its centre lies in the code's ranges and it has one value per pixel, all in [0, 1] |
| Fallback.SimulatedHeatmap | core/graficas.py:161-173 | with the corrected centre of the first finding, the simulated map never raises; it has one value per pixel, all in [0, 1], equal to the field wherever the field is already in range, with the centre in the code's ranges for sides of 2 or more |
| GradCam.Combine | models/detector.py:243-246 | the loop leaves in every cell the weighted sum over channels of `w[i] * maps[i][cell]` |
| GradCam.MaxOf | models/detector.py:250-251 | `np.max` bounds every cell and is attained |
| GradCam.RectifyAndNormaliseRange | models/detector.py:248-251 | after ReLU and normalisation every cell is in [0, 1], and it is 0 exactly where the sum was not positive |
| GradCam.RectifyAndNormaliseMonotone | models/detector.py:248-251 | normalisation preserves the order of cells |
| GradCam.RectifyAndNormalisePeak | models/detector.py:248-251 | a map with a positive cell reaches exactly 1; a map without one is all zero |
| GradCam.ComputeGradCam | models/detector.py:237-253 | the Grad-CAM map has one value per cell, all in [0, 1], with zeros exactly where the channel sum is not positive and a 1 when any cell is positive |
| GradCam.NegatedSum | models/detector.py:240-246 | negating every channel weight negates every cell of the combined map |
| GradCam.DefectMapOfSigmoidHead | models/detector.py:233-253 | for a sigmoid head, DEFECT's map is blank exactly where output column 0's combined evidence is not negative, so it never lights a cell that column 0's map lights |
| GradCam.SigmoidHeadExample | models/detector.py:233-234 | one channel with map (+1, -1): the code's map is (1, 0) and DEFECT's map is (0, 1) |
| GradCam.ActivationMapAsWritten | models/detector.py:178-205 | as written, the map is Grad-CAM of output column 0 whatever the predicted index; with failing gradients it is the simulated fallback with its centre in the code's ranges, and it raises exactly when a side is under 2 pixels |
| GradCam.ActivationMap | models/detector.py:178-205 | with both corrections (the centre of the first finding, the target of the fourth), the map is sized to the image and never raises; it is Grad-CAM of DEFECT's score when gradients exist, and otherwise the simulated fallback centred in the code's ranges |
| Imaging.ImageProcessor.constructor | core/funciones.py:14-17 | the image, array and path all start empty |
| Imaging.ImageProcessor.Load | core/funciones.py:19-41 | a decoded file sets the image, its array and the path together and returns them; a failure returns (None, None) and changes nothing |
| Imaging.ImageProcessor.Clear | core/funciones.py:84-88 | all three fields are empty afterwards |
| Imaging.ResizeForCanvasShape | core/funciones.py:56-74 | without aspect preservation the canvas size; otherwise the limiting side is the canvas side minus the 40-pixel margin, the other side is the length that side implies at the image's ratio rounded down, and a side whose implied length is below 1 becomes 1 |
| Imaging.ResizeForCanvasFits | core/funciones.py:59-74 | with both canvas sides above the margin, the aspect-preserving size fits inside the canvas |
| Imaging.AnalyseArray | core/funciones.py:152-178 | no detector raises; no array yields None; a prediction that raises yields None; a result carries the prediction and the analysed array |
| Imaging.Analyzer.constructor | core/funciones.py:97-99 | the analyzer has a fresh, empty image processor and the given detector |
| Imaging.Analyzer.Analyse | core/funciones.py:141-178 | a non-empty path is loaded through the processor (a failed load yields None) and takes precedence over the array; no detector raises and changes nothing |
| Charts.BarColours | core/graficas.py:38-46 | the loop colours the predicted class's bar in its class colour and every other bar in the neutral border colour |
| Charts.BarHighlight | core/graficas.py:38-46 | DEFECT gives [red, neutral], OK gives [neutral, green], and a label outside the class list highlights nothing |
| Charts.ChartTitle | core/graficas.py:67-72 | the title is the defect title exactly for DEFECT and the OK title for any other label |
| Charts.InfoBorder | core/graficas.py:92-95 | at confidence 0.8 or more the class colour, below it yellow |
| Charts.ConfidenceColour | core/graficas.py:245-247 | green exactly at 0.8 or more, yellow exactly in [0.5, 0.8), red exactly below 0.5 |
| Charts.MetricsHeadline | core/graficas.py:191-198 | the headline is the defect headline exactly for DEFECT |
| Charts.Metrics | core/graficas.py:212-247 | the panel exists exactly when there are at least two probabilities; each probability is highlighted exactly when strictly above 0.5; the confidence colour follows the bands |
| Charts.AtMostOneProbabilityHighlighted | core/graficas.py:212-228 | with probabilities summing to 1, never both are highlighted, and at 0.5 neither is |
| Charts.HeatmapForDisplayAsWritten | core/graficas.py:109-142 | as written, the overlay raises exactly when a simulated map is needed (no model, or failing gradients) on an image under 2 pixels on a side; otherwise it is the detector's map exactly when a model is given, Grad-CAM of column 0 when the gradients exist |
| Charts.HeatmapForDisplay | core/graficas.py:109-142 | with the corrected activation map and centre, the overlay never raises; it is the detector's map of DEFECT's score exactly when a model is given, sized to the image, and otherwise the clipped simulated map |
| Charts.DrawBarChart | core/graficas.py:37-103 | the drawing shows the two class names with the heights given, the highlighted bar, the title and the info border of the rules above |
| Charts.ChartGenerator.constructor | core/graficas.py:19-21 | no current figure and no canvas |
| Charts.ChartGenerator.CreateBarChartAsWritten | core/graficas.py:26-107 | as written, `ax.bar` raises for any count of probabilities other than one or two, and the current figure is then unchanged; otherwise the chart of all the probabilities becomes the current figure |
| Charts.ChartGenerator.CreateBarChart | core/graficas.py:26-107 | corrected, the chart shows one bar per class with the first two probabilities, never raises, and becomes the current figure |
| Charts.ChartGenerator.Clear | core/graficas.py:276-281 | the current figure and canvas are dropped |
| Session.VerdictFor | ui/interfaz.py:469-488 | the four verdicts, each exactly for its label (DEFECT or any other) and side of 0.8 |
| Session.VerdictAgreesWithHeadline | ui/interfaz.py:469-488 | the status line speaks of a defect exactly when the metrics headline does, and at high confidence their messages coincide |
| Session.BinaryConfidenceIsNeverLow | models/detector.py:143-158 | a sigmoid head's confidence is at least 0.5, so its confidence colour is never red |
| Session.FileName | ui/interfaz.py:365 | `split('/')[-1]` is the suffix of the path after its last slash, and contains no slash |
| Session.WorkerMessageAsWritten | ui/interfaz.py:437-445 | the worker posts the analysis result, and posts nothing exactly when `analizar_imagen` raises |
| Session.NoModelWorkerPostsNothing | core/funciones.py:152-155 | with no detector bound, the worker posts nothing for any image |
| Session.WorkerMessage | ui/interfaz.py:437-445 | the corrected worker posts an error result (None) when the analysis raises, and otherwise the same message as the code |
| Session.QualityVisionUI.constructor | ui/interfaz.py:24-40 | not busy, no results, Load and Clear enabled, Analyse disabled, status ready |
| Session.QualityVisionUI.LoadImage | ui/interfaz.py:340-368 | a cancelled or failed load changes nothing (a failure shows an error); a successful one replaces the image, shows the file name and enables Analyse, leaving the rest unchanged |
| Session.QualityVisionUI.StartAnalysis | ui/interfaz.py:408-435 | nothing while busy; a warning without an image; otherwise busy, all three buttons disabled, status analysing, and the worker handed the current array |
| Session.QualityVisionUI.ReactivateButtons | ui/interfaz.py:539-544 | Load and Clear are enabled; Analyse is enabled when an image is loaded and otherwise keeps its state |
| Session.ThreeClassRowBreaksDisplay | core/graficas.py:49 | a multiclass head of width 3 with row (0.5, 0.3, 0.2) predicts DEFECT with three probabilities, and the display as written raises for it |
| Session.QualityVisionUI.BuildTabsAsWritten | ui/interfaz.py:498-536 | as written, the tabs are left unfinished exactly when the bar chart or the heatmap raises; the bar chart is kept when only the heatmap raised; otherwise the three tabs show the chart (now the current figure), the heatmap (Grad-CAM exactly with a model) and the metrics |
| Session.QualityVisionUI.BuildTabs | ui/interfaz.py:498-536 | with the corrected chart and heatmap, the three tabs are always filled: the chart of the first two probabilities (now the current figure), the heatmap (Grad-CAM exactly with a model) and the metrics |
| Session.QualityVisionUI.FinishAsWritten | ui/interfaz.py:447-496 | as written, the result is stored even when None, and None shows the error status and clears busy; a result whose drawing raises leaves the session busy with Load and Clear disabled and the status and counters as they were; any other result shows its verdict and clears busy |
| Session.QualityVisionUI.Finish | ui/interfaz.py:447-496 | with the corrected display, the result is stored even when None; None shows the error status and keeps the tabs; a result fills the tabs and shows its verdict; both clear the busy flag and re-enable the buttons |
| Session.QualityVisionUI.CompleteAnalysis | ui/interfaz.py:437-496 | the corrected handoff always finishes: results are the worker's message for the array handed over, busy is cleared, and a failure shows the error status |
| Session.QualityVisionUI.CompleteAnalysisAsWritten | ui/interfaz.py:437-496 | as written, with no detector the session stays busy with Load and Clear disabled and nothing changed; with one, the results are the analysis of the array handed over, and the session stays busy exactly when drawing that result raises |
| Session.QualityVisionUI.ClearAll | ui/interfaz.py:546-575 | the image and figures are cleared, the results dropped, the tabs back to the placeholder, the status ready and Analyse disabled; the busy flag is untouched |
| Session.QualityVisionUI.Export | ui/interfaz.py:644-670 | without results only a notice and nothing changes; with results their report (label, confidence, time, both probabilities, date) goes to the clipboard |
| Session.QualityVisionUI.PressAnalyse | ui/interfaz.py:210-218 | a disabled Analyse button does nothing; while busy nothing changes; an enabled press while idle starts the analysis (busy, status analysing, all buttons disabled, the worker handed the current array); at most one analysis starts |
| Session.QualityVisionUI.PressLoad | ui/interfaz.py:201-208 | while busy the Load button does nothing; while idle a chosen file that decodes becomes the image, its name is shown and Analyse is enabled, and one that fails shows an error and changes nothing |
| Session.QualityVisionUI.PressClear | ui/interfaz.py:220-227 | while busy the Clear button does nothing; otherwise results and image are gone and Analyse is disabled |
| Session.QualityVisionUI.CanvasClick | ui/interfaz.py:185 | a click on the canvas loads an image even while busy and enables Analyse, without starting an analysis |
| Session.QualityVisionUI.ReloadDuringAnalysis | ui/interfaz.py:185 | reloading during an analysis re-enables Analyse, but pressing it starts nothing: the busy guard keeps one analysis in flight |
| Animation.ParseComponentRange | ui/animaciones.py:101 | a parsed two-character slice lies in [-15, 255], is non-negative without a '-', and two hex digits read as 16a + b |
| Animation.LStripHashSpec | ui/animaciones.py:100 | `lstrip('#')` removes exactly the leading run of '#' |
| Animation.Slice | ui/animaciones.py:101 | a Python slice is clamped to the string, and is the ordinary subsequence when in range |
| Animation.HexToRgbRange | ui/animaciones.py:98-101 | the components `_hex_a_rgb` yields lie in [-15, 255], and none is negative without a '-' in the colour |
| Animation.FormatByte | ui/animaciones.py:96 | a byte formats as its two lowercase hex digits |
| Animation.FormatHexShape | ui/animaciones.py:96 | three bytes format as '#' and six lowercase hex digits |
| Animation.HexRoundTrip | ui/animaciones.py:96-101 | parsing a formatted colour gives its three bytes back |
| Animation.HexCanonicalRoundTrip | ui/animaciones.py:96-101 | a '#' and six hex digits of either case parse to bytes that format as the same colour in lowercase |
| Animation.InterpolateBounds | ui/animaciones.py:92-94 | a component is the first at t = 0, the second at t = 1, and between the two for t in [0, 1] |
| Animation.InterpolateColour | ui/animaciones.py:87-96 | the interpolation is defined exactly when both colours parse |
| Animation.InterpolateColourEndpoints | ui/animaciones.py:87-96 | between well-formed colours the result is the start colour at t = 0 and the end colour at t = 1 (both in lowercase), and a valid '#rrggbb' for t in [0, 1] |
| Animation.NextBackgroundSpec | ui/animaciones.py:79-82 | a pulse step shows the interpolated colour between well-formed colours, and keeps the background when the start colour does not parse (the exception is swallowed) |
| Animation.FadeIn.constructor | ui/animaciones.py:14-20 | step 0, nothing shown, nothing scheduled |
| Animation.FadeIn.Animate | ui/animaciones.py:29-44 | before step 20 it shows alpha step/20 and schedules the next step; afterwards it shows 1.0, runs the callback once and stops |
| Animation.FadeIn.Start | ui/animaciones.py:22-44 | alpha 0.0, then the first step; a finished fade-in started again shows 0.0, then 1.0, and runs the callback again |
| Animation.FadeIn.Play | ui/animaciones.py:22-44 | a fresh fade-in run to completion shows 0.0, then k/20 for k = 0..19, then 1.0, and runs the callback exactly once |
| Animation.Pulse.constructor | ui/animaciones.py:50-58 | inactive at step 0 with the given colours |
| Animation.Pulse.Animate | ui/animaciones.py:72-85 | inactive it changes nothing; active it shows the next background and advances the step modulo 30 |
| Animation.Pulse.Start | ui/animaciones.py:60-63 | active, with the step reset and then advanced to 1 |
| Animation.Pulse.Stop | ui/animaciones.py:65-70 | inactive, the start colour restored, the step kept |
| Animation.EaseBounds | ui/animaciones.py:127 | smoothstep maps 0 to 0 and 1 to 1, and [0, 1] into [0, 1] |
| Animation.SlidePositionBetween | ui/animaciones.py:124-133 | step 0 places the widget at its start, and every eased position lies between the start and the target |
| Animation.Slide.constructor | ui/animaciones.py:107-114 | step 0, nothing placed, nothing scheduled |
| Animation.Slide.Animate | ui/animaciones.py:124-145 | before step 25 it places the eased position and schedules the next step; afterwards it places the exact target, runs the callback and stops |
| Animation.Slide.Start | ui/animaciones.py:116-122 | records both ends and runs one step, without resetting the step counter |
| Animation.Slide.Play | ui/animaciones.py:116-145 | a fresh slide run to completion places the 25 eased positions from the start, then exactly the target, and runs the callback once |
| Animation.Rotation.constructor | ui/animaciones.py:151-157 | angle 0, inactive |
| Animation.Rotation.Rotate | ui/animaciones.py:166-171 | inactive it changes nothing; active the angle advances 10 degrees modulo 360, staying a multiple of 10 |
| Animation.Rotation.Start | ui/animaciones.py:159-161 | active, and one rotation step taken |
| Animation.Rotation.Stop | ui/animaciones.py:163-164 | inactive, angle kept, still a multiple of 10 below 360 |
| Animation.AnimationManager.constructor | ui/animaciones.py:177-178 | no pulses registered |
| Animation.AnimationManager.StartPulse | ui/animaciones.py:186-200 | the widget's previous pulse is stopped, its start colour restored; a fresh pulse with the default colours (panel grey, blue accent) is registered and started; other widgets' pulses are untouched; the new pulse shows the colour interpolated from its own colours |
| Animation.AnimationManager.StopPulse | ui/animaciones.py:202-207 | the widget's pulse is stopped, its start colour restored, and unregistered; a widget without one changes nothing |
| Animation.AnimationManager.StartFadeIn | ui/animaciones.py:180-184 | a fresh fade-in, started (step 1, alphas 0.0 twice, next step scheduled), carrying the caller's callback, not yet run |
| Animation.AnimationManager.StartSlide | ui/animaciones.py:209-213 | a fresh slide, started, from the widget's own position to the given target, whose first position is the widget's own and whose callback has not run |

## Left out

- Rendering is not modelled. This covers Tk widgets, matplotlib figures and canvases, PhotoImage,
  the progress bar, message boxes and the menu. Each is reduced to the flag, value or choice the
  code makes for it.
- TensorFlow is not modelled: model loading, preprocessing, the forward pass and gradient tape.
  Their results are parameters.
- PIL decoding and resampling are not modelled, and neither is `cv2.resize` (Grad-CAM maps stay
  at feature-map resolution, tagged with the image size).
- `np.exp`, `np.random.normal` and `math.sin` are floating-point computations. The heatmap field
  and the pulse progress are parameters.
- Fallback.SimulatedHeatmap and Fallback.SimulatedHeatmapAsWritten: when the shorter side is 2
  or 3 pixels, `sigma = min(h, w) // 4` is 0 (core/graficas.py:167). numpy then computes 0/0 at
  the centre cell, which gives NaN with a warning, and `np.clip` keeps the NaN. The model's
  field holds reals, which cannot be NaN, so the claim that every value lies in [0, 1] does not
  hold for the source at that one cell. The same holds for the unclipped map of
  models/detector.py:262-264.
- Threads and the Tk event loop are not modelled. The worker and its `root.after` handoff are
  one atomic step (`CompleteAnalysis`), and `after` callbacks are explicit method calls. `Play`
  loops stand in for letting the event loop run an animation to completion.
- Session.QualityVisionUI.CompleteAnalysis: the worker is modelled as analysing the array
  captured when the analysis started. The code re-reads the current array on the worker thread
  (ui/interfaz.py:439), so a canvas reload racing with it is not captured.
- utils/constantes.py has no `acento_naranja` or `acento_naranja_hover` keys, but
  ui/interfaz.py reads them at lines 88, 118, 159, 262, 274, 373-374, 404, 429, 476, 486, 583,
  596 and 625. With that constants file, the constructor itself raises KeyError at line 88, which
  `_construir_interfaz` reaches from line 44, so no window exists. The model assumes a constants
  module that supplies both keys, as `HACKATHON SIC 2025/utils/constantes.py:21-22` does, so
  every colour lookup succeeds. Were only
  the status-line lookups at lines 476 and 486 missing, every verdict below 0.8 would raise
  before line 495 and leave the session busy. The status-line colours and the orange
  decorations are not modelled.
- The canvas display of a loaded image (`_mostrar_imagen_en_canvas`) is left out apart from its
  arithmetic, `ResizeForCanvas`.
- Imaging.ResizeForCanvas and Imaging.ResizeForCanvasShape require a positive image width and
  height and a non-zero canvas height. The source raises ZeroDivisionError for a zero-height
  image or a zero canvas height (core/funciones.py:59-60), and its caller always passes a canvas
  of at least 300 pixels (ui/interfaz.py:381-382). A zero-width image has ratio 0. The source
  then takes the taller branch and returns (1, maxH - 40) whenever the canvas ratio is not
  negative, and divides by that zero ratio otherwise. The model does not cover a zero-width
  image.
- The pulse on the Analyse button after a load (ui/interfaz.py:371-375) is not modelled; it is
  an `AnimationManager.StartPulse` call.
- Session.QualityVisionUI.Export: the percentage formatting of the report text (`:.3%`) is left
  out; the report is kept as numbers.
- Animation.Pulse.Animate and Animation.Pulse.Stop: the background records the colour string
  handed to the widget. Tk's rejection of a string it cannot read as a colour is not modelled.
  Such a string is an interpolation containing a '-', which only a malformed colour such as
  '#-f0000' can produce, or a malformed start colour; the `try` swallows the rejection.
- Animation.ParseComponent: `int(_, 16)` also accepts non-ASCII whitespace and digits. The model
  accepts ASCII whitespace and hex digits only.
- `preprocesar_imagen`, the `umbral_confianza` value 0.75 (never read by the code), the about,
  help and configuration dialogs, and drag-and-drop highlighting are outside the decision layer.

## Findings

| source | as written | input that shows it | evidently intended | confidence | as-written member | corrected member |
|---|---|---|---|---|---|---|
| models/detector.py:258-259 | The simulated heatmap draws its centre with `np.random.randint(w // 4, 3 * w // 4)`, which raises when the range is empty. The same line is at core/graficas.py:163-164. This exception escapes the `except` handler that called the fallback. `crear_mapa_calor`'s handler (core/graficas.py:129-135) then makes the same draw for the same image and raises again. `_finalizar_analisis` stops at line 462, before line 495, so the session stays busy with Load and Clear disabled (Session.QualityVisionUI.FinishAsWritten). | an image 1 pixel wide: the range is `[0, 0)` | a centre inside the image for every non-empty image | not executed | Fallback.PickCentreAsWritten | Fallback.PickCentre |
| ui/interfaz.py:437-445 | `_realizar_analisis` does not catch the RuntimeError that `analizar_imagen` raises with no detector bound (core/funciones.py:152-155). Simulation mode, the default at ui/interfaz.py:24, binds none. Nothing is posted back, so `analisis_en_curso` stays True and Load, Analyse and Clear stay disabled. | `QualityVisionUI(root)` with default arguments; load any image; press Analyse | the failure reported as an error result, with the buttons re-enabled | not executed | Session.QualityVisionUI.CompleteAnalysisAsWritten | Session.QualityVisionUI.CompleteAnalysis |
| core/graficas.py:33-49 | `crear_grafica_barras` draws all the probabilities against the two class names. `ax.bar` raises ValueError for any count other than one or two. A multiclass head whose first maximum is class 0 or 1 passes `predecir` with its whole row. `_mostrar_resultados` then raises inside `_finalizar_analisis` (ui/interfaz.py:462), lines 495-496 never run, and the session stays busy with Load and Clear disabled (Session.QualityVisionUI.FinishAsWritten, Session.ThreeClassRowBreaksDisplay). | a multiclass model of output width 3 producing the row (0.5, 0.3, 0.2) | the two classes' probabilities drawn, as the comment at line 33 says, and the session finished | not executed | Charts.ChartGenerator.CreateBarChartAsWritten | Charts.ChartGenerator.CreateBarChart |
| models/detector.py:233-234 | Grad-CAM differentiates output column 0, which the comment calls DEFECT. For the sigmoid head that column is s, which `predecir` reads as P(OK) (lines 141-146). So the heatmap shows the evidence for OK, and DEFECT's map is blank on every cell the drawn map lights (GradCam.DefectMapOfSigmoidHead). | a sigmoid head with one channel whose feature map is +1 on one cell and -1 on another: the drawn map lights the first cell, DEFECT's map only the second (GradCam.SigmoidHeadExample) | the map of DEFECT's score 1 - s, whose gradients are those of column 0 negated | not executed; medium, since the docstring at line 184 says only that class 0 is always used | GradCam.ActivationMapAsWritten | GradCam.ActivationMap |
