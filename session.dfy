/**
 * The state of `QualityVisionUI` (ui/interfaz.py): the busy flag, the current results, the three
 * buttons' enabled flags, the status line and the result tabs, as driven by loading, starting
 * and finishing an analysis, clearing, and exporting.
 *
 * Widgets are reduced to flags and values. The worker thread and its `root.after` handoff are
 * two atomic events: `StartAnalysis` in the interface thread, and `CompleteAnalysis` for the
 * worker's analysis followed by the posted `_finalizar_analisis`.
 */
module Session {
  import opened Outcomes
  import opened Constants
  import opened Detector
  import opened Imaging
  import opened Charts
  import GradCam

  /** The 2x2 verdict of the status line: label by confidence at or above 0.8. */
  datatype Verdict = DefectDetected | PossibleDefect | PieceOk | CheckPiece

  /** The verdict table of `_finalizar_analisis`; any label other than DEFECT counts as OK. */
  function VerdictFor(predicted: string, confidence: real): (v: Verdict)
    ensures v == DefectDetected <==> predicted == DefectLabel && confidence >= HighConfidence
    ensures v == PossibleDefect <==> predicted == DefectLabel && confidence < HighConfidence
    ensures v == PieceOk <==> predicted != DefectLabel && confidence >= HighConfidence
    ensures v == CheckPiece <==> predicted != DefectLabel && confidence < HighConfidence
  {
    if predicted == DefectLabel then
      (if confidence >= 0.8 then DefectDetected else PossibleDefect)
    else
      (if confidence >= 0.8 then PieceOk else CheckPiece)
  }

  /** The icon and message the status line shows for a verdict. */
  function VerdictText(v: Verdict): (string, string) {
    match v
    case DefectDetected => ("⚠️", "DEFECTO DETECTADO")
    case PossibleDefect => ("⚠️", "POSIBLE DEFECTO")
    case PieceOk => ("✅", "PIEZA OK")
    case CheckPiece => ("⚠️", "VERIFICAR PIEZA")
  }

  /**
   * The status line's verdict and the metrics panel's headline agree on the class: both speak
   * of a defect exactly for the DEFECT label, and at high confidence their messages coincide.
   */
  lemma VerdictAgreesWithHeadline(predicted: string, confidence: real)
    ensures VerdictFor(predicted, confidence) in {DefectDetected, PossibleDefect}
            <==> MetricsHeadline(predicted).message == "DEFECTO DETECTADO"
    ensures confidence >= HighConfidence ==>
      VerdictText(VerdictFor(predicted, confidence)).1 == MetricsHeadline(predicted).message
  {
  }

  /**
   * A sigmoid head's confidence is the larger of two probabilities summing to 1, so its
   * confidence colour is never the low band.
   */
  lemma {:induction false} BinaryConfidenceIsNeverLow(d: Detector, s: real, rest: seq<real>, elapsed: real)
    requires d.model.Some? && d.binary
    ensures Predict(d, Some([s] + rest), elapsed).Ok?
    ensures Predict(d, Some([s] + rest), elapsed).value.confidence >= Majority
    ensures ConfidenceColour(Predict(d, Some([s] + rest), elapsed).value.confidence) != DefectRed
  {
    BinaryPrediction(d, s, rest, elapsed);
  }

  /** `ruta.split('/')[-1]`: the part of a path after its last slash. */
  function FileName(p: string): (f: string)
    ensures |f| <= |p| && f == p[|p| - |f|..]
    ensures '/' !in f
    ensures |f| < |p| ==> p[|p| - |f| - 1] == '/'
  {
    if p == [] then []
    else if p[|p| - 1] == '/' then []
    else
      var f := FileName(p[..|p| - 1]);
      ExtendSuffix(p, f);
      f + [p[|p| - 1]]
  }

  /** A suffix of all but the last character, extended by that character, is a suffix of the whole. */
  lemma ExtendSuffix(p: string, f: string)
    requires p != [] && |f| < |p| && f == p[..|p| - 1][|p| - 1 - |f|..]
    ensures f + [p[|p| - 1]] == p[|p| - 1 - |f|..]
    ensures |f| + 1 < |p| ==> p[..|p| - 1][|p| - 1 - |f| - 1] == p[|p| - (|f| + 1) - 1]
  {
    var g := f + [p[|p| - 1]];
    assert forall i :: 0 <= i < |g| ==> g[i] == p[|p| - 1 - |f| + i];
  }

  /** The status line. */
  datatype Status =
    | Ready                                       // "Listo para análisis"
    | Loaded(fileName: string)                    // "Imagen cargada: <name>"
    | Analysing                                   // "Analizando imagen..."
    | AnalysisFailed                              // "Error en el análisis"
    | Judged(verdict: Verdict, confidence: real)  // verdict and confidence

  /** The message box an action shows, if any. */
  datatype Notice = NoNotice | LoadFailed | NoImage | NoResults | Exported

  /** What the three result tabs display. */
  datatype ResultTabs = ResultTabs(chart: BarChart, heatmap: DisplayedHeatmap, metrics: MetricsPanel)

  /**
   * The result area: the placeholder, the three filled tabs, or tabs that were emptied and then
   * left unfinished because drawing raised (holding the bar chart when only the heatmap raised).
   */
  datatype TabsView = Placeholder | Showing(shown: ResultTabs) | Broken(drawn: Option<BarChart>)

  /**
   * Whether `_mostrar_resultados` raises as written: the bar chart cannot draw the probabilities
   * against the two class names, or the heatmap needs a simulated centre (no model, or failing
   * gradients) on an image under two pixels on a side.
   */
  predicate DisplayRaisesAsWritten(a: Analysis, hasModel: bool, gradientsOk: bool) {
    || !BarsBroadcast(|a.prediction.probabilities|)
    || ((!hasModel || !gradientsOk) && (a.image.columns < 2 || a.image.rows < 2))
  }

  /**
   * A multiclass head of width 3 whose first maximum is DEFECT: the prediction succeeds with
   * three probabilities, which the bar chart as written cannot draw, so the display raises for
   * any image, with or without working gradients.
   */
  lemma ThreeClassRowBreaksDisplay(d: Detector, image: PixelArray, gradientsOk: bool, elapsed: real)
    requires d.model.Some? && !d.binary
    ensures Predict(d, Some([0.5, 0.3, 0.2]), elapsed).Ok?
    ensures var a := Analysis(Predict(d, Some([0.5, 0.3, 0.2]), elapsed).value, image);
      && a.prediction.classLabel == DefectLabel
      && |a.prediction.probabilities| == 3
      && DisplayRaisesAsWritten(a, true, gradientsOk)
  {
    var row := [0.5, 0.3, 0.2];
    assert ArgMax(row) == 0;
    MulticlassPrediction(d, row, elapsed);
  }

  /** The text `_exportar_resultados` copies, by its fields; the date comes from the clock. */
  datatype Report = Report(
    classLabel: string, confidence: real, time: real, defectProbability: real, okProbability: real,
    date: string)

  function ReportFor(a: Analysis, date: string): Report
    requires |a.prediction.probabilities| >= 2
  {
    Report(a.prediction.classLabel, a.prediction.confidence, a.prediction.time,
           a.prediction.probabilities[0], a.prediction.probabilities[1], date)
  }

  /**
   * The message the worker posts to the interface thread, as `_realizar_analisis` is written:
   * the analysis's result, or nothing at all when `analizar_imagen` raises.
   */
  function WorkerMessageAsWritten(r: Result<Option<Analysis>, AnalyzeError>): (m: Option<Option<Analysis>>)
    ensures m.None? <==> r.Err?
    ensures r.Ok? ==> m == Some(r.value)
  {
    match r
    case Ok(v) => Some(v)
    case Err(_) => None
  }

  /** With no detector bound, the worker as written posts nothing for any image. */
  lemma NoModelWorkerPostsNothing(imageArray: Option<PixelArray>, row: Option<seq<real>>, elapsed: real)
    ensures WorkerMessageAsWritten(AnalyseArray(None, imageArray, row, elapsed)).None?
  {
  }

  /**
   * The message the worker posts with the exception caught: a failed analysis is reported as
   * an error result (None) instead of never reaching the interface thread.
   */
  function WorkerMessage(r: Result<Option<Analysis>, AnalyzeError>): (m: Option<Analysis>)
    ensures r.Err? ==> m.None?
    ensures WorkerMessageAsWritten(r).Some? ==> m == WorkerMessageAsWritten(r).value
  {
    match r
    case Ok(v) => v
    case Err(_) => None
  }

  /** `QualityVisionUI` with the state its methods update. */
  class QualityVisionUI {
    const analyzer: Analyzer
    const charts: ChartGenerator
    var busy: bool                      // analisis_en_curso
    var results: Option<Analysis>       // resultados_actuales
    var loadEnabled: bool
    var analyseEnabled: bool
    var clearEnabled: bool
    var status: Status
    var tabs: TabsView
    var clipboard: Option<Report>
    var workerInput: Option<PixelArray> // the array the running worker analyses
    ghost var started: nat
    ghost var finished: nat

    /**
     * At most one analysis is in flight, and Load and Clear are enabled exactly when none is; Analyse
     * is enabled only with an image loaded; stored results carry both class probabilities.
     */
    ghost predicate Valid()
      reads this, analyzer.processor
    {
      && analyzer.processor.Valid()
      && started == finished + (if busy then 1 else 0)
      && loadEnabled == !busy && clearEnabled == !busy
      && (busy ==> workerInput.Some?)
      && (analyseEnabled ==> analyzer.processor.image.Some?)
      && (results.Some? ==> |results.value.prediction.probabilities| >= 2)
      && (analyzer.model.Some? ==> Consistent(analyzer.model.value))
    }

    /** Not busy, no results, Load and Clear enabled, Analyse disabled, status ready. */
    constructor (model: Option<Detector>)
      requires model.Some? ==> Consistent(model.value)
      ensures Valid() && fresh(analyzer) && fresh(analyzer.processor) && fresh(charts)
      ensures analyzer.model == model
      ensures !busy && results.None? && !analyseEnabled && loadEnabled && clearEnabled
      ensures status == Ready && tabs == Placeholder && started == 0
    {
      analyzer := new Analyzer(model);
      charts := new ChartGenerator();
      busy, results := false, None;
      loadEnabled, analyseEnabled, clearEnabled := true, false, true;
      status, tabs, clipboard, workerInput := Ready, Placeholder, None, None;
      started, finished := 0, 0;
    }

    /**
     * `cargar_imagen`. `path` is what the file dialog returns ("" when cancelled) and `decoded`
     * what decoding that file yields. A cancelled or failed load changes nothing; a successful
     * one replaces the image and enables Analyse, whatever else is going on.
     */
    method LoadImage(path: string, decoded: Option<Image>) returns (notice: Notice)
      requires Valid()
      modifies this, analyzer.processor
      ensures Valid()
      ensures path == "" ==> notice == NoNotice && unchanged(this) && unchanged(analyzer.processor)
      ensures path != "" && decoded.None? ==>
        notice == LoadFailed && unchanged(this) && unchanged(analyzer.processor)
      ensures path != "" && decoded.Some? ==>
        && notice == NoNotice
        && analyzer.processor.image == decoded && analyzer.processor.path == Some(path)
        && status == Loaded(FileName(path)) && analyseEnabled
        && busy == old(busy) && results == old(results) && loadEnabled == old(loadEnabled)
        && clearEnabled == old(clearEnabled) && tabs == old(tabs) && workerInput == old(workerInput)
        && started == old(started) && finished == old(finished) && clipboard == old(clipboard)
    {
      if path == "" {
        return NoNotice;
      }
      var img, arr := analyzer.processor.Load(path, decoded);
      if img.None? {
        return LoadFailed;
      }
      status := Loaded(FileName(path));
      analyseEnabled := true;
      notice := NoNotice;
    }

    /**
     * `iniciar_analisis`: nothing while busy; only a warning without a loaded array; otherwise
     * busy, all three buttons disabled, and the worker handed the current array.
     */
    method StartAnalysis() returns (notice: Notice)
      requires Valid()
      modifies this
      ensures Valid()
      ensures old(busy) ==> notice == NoNotice && unchanged(this)
      ensures !old(busy) && analyzer.processor.imageArray.None? ==> notice == NoImage && unchanged(this)
      ensures !old(busy) && analyzer.processor.imageArray.Some? ==>
        && notice == NoNotice && busy && started == old(started) + 1
        && !loadEnabled && !analyseEnabled && !clearEnabled
        && status == Analysing && workerInput == analyzer.processor.imageArray
        && results == old(results) && tabs == old(tabs) && clipboard == old(clipboard)
        && finished == old(finished)
    {
      if busy {
        return NoNotice;
      }
      var imageArray := analyzer.processor.CurrentArray();
      if imageArray.None? {
        return NoImage;
      }
      busy := true;
      analyseEnabled, loadEnabled, clearEnabled := false, false, false;
      status := Analysing;
      workerInput := imageArray;
      started := started + 1;
      notice := NoNotice;
    }

    /** `_reactivar_botones`: Load and Clear always, Analyse only with an image loaded. */
    method ReactivateButtons()
      modifies this
      ensures loadEnabled && clearEnabled
      ensures analyseEnabled == (old(analyseEnabled) || analyzer.processor.image.Some?)
      ensures busy == old(busy) && results == old(results) && status == old(status)
      ensures tabs == old(tabs) && clipboard == old(clipboard) && workerInput == old(workerInput)
      ensures started == old(started) && finished == old(finished)
    {
      loadEnabled, clearEnabled := true, true;
      if analyzer.processor.CurrentImage().Some? {
        analyseEnabled := true;
      }
    }

    /**
     * `_mostrar_resultados` as written: the tabs are emptied, then the bar chart (recorded as the
     * current figure), the heatmap and the metrics are drawn in turn; the first of these that
     * raises leaves the tabs unfinished.
     */
    method BuildTabsAsWritten(
      a: Analysis, gradients: nat -> Option<GradCam.ChannelData>, field: (int, int) -> seq<real>)
      returns (view: TabsView)
      requires |a.prediction.probabilities| >= 2
      requires forall c :: gradients(c).Some? ==> GradCam.WellShaped(gradients(c).value)
      requires forall x, y :: |field(x, y)| == a.image.rows * a.image.columns
      modifies charts
      ensures view != Placeholder
      ensures view.Broken? <==>
        DisplayRaisesAsWritten(a, analyzer.model.Some?, gradients(GradCam.TargetClass).Some?)
      ensures view.Broken? && !BarsBroadcast(|a.prediction.probabilities|) ==>
        view.drawn.None? && unchanged(charts)
      ensures view.Broken? && BarsBroadcast(|a.prediction.probabilities|) ==>
        view.drawn.Some? && charts.currentFigure == view.drawn
      ensures view.Showing? ==>
        var p := a.prediction;
        && view.shown.chart.probabilities == p.probabilities
        && view.shown.chart.title == ChartTitle(p.classLabel)
        && view.shown.chart.infoBorder == InfoBorder(p.classLabel, p.confidence)
        && Metrics(p.probabilities, p.classLabel, p.confidence) == Some(view.shown.metrics)
        && (view.shown.heatmap.Explained? <==> analyzer.model.Some?)
        && charts.currentFigure == Some(view.shown.chart)
    {
      var p := a.prediction;
      var chart := charts.CreateBarChartAsWritten(p.probabilities, p.classLabel, p.confidence, p.time);
      if chart.None? {
        return Broken(None);
      }
      var heatmap := HeatmapForDisplayAsWritten(a.image.rows, a.image.columns, p.index,
                                                analyzer.model.Some?, gradients, field);
      if heatmap.None? {
        return Broken(chart);
      }
      var metrics := Metrics(p.probabilities, p.classLabel, p.confidence);
      view := Showing(ResultTabs(chart.value, heatmap.value, metrics.value));
    }

    /**
     * `_mostrar_resultados` with both corrections: the bar chart shows the two classes'
     * probabilities, and the heatmap explains DEFECT's score with a centre that is always
     * defined. It always fills the three tabs.
     */
    method BuildTabs(
      a: Analysis, gradients: nat -> Option<GradCam.ChannelData>, field: (int, int) -> seq<real>)
      returns (shown: ResultTabs)
      requires |a.prediction.probabilities| >= 2
      requires forall c :: gradients(c).Some? ==> GradCam.WellShaped(gradients(c).value)
      requires forall x, y :: |field(x, y)| == a.image.rows * a.image.columns
      modifies charts
      ensures
        var p := a.prediction;
        && shown.chart.probabilities == p.probabilities[..2]
        && shown.chart.title == ChartTitle(p.classLabel)
        && shown.chart.infoBorder == InfoBorder(p.classLabel, p.confidence)
        && Metrics(p.probabilities, p.classLabel, p.confidence) == Some(shown.metrics)
        && (shown.heatmap.Explained? <==> analyzer.model.Some?)
        && charts.currentFigure == Some(shown.chart)
    {
      var p := a.prediction;
      var chart := charts.CreateBarChart(p.probabilities, p.classLabel, p.confidence, p.time);
      var binary := analyzer.model.Some? && analyzer.model.value.binary;
      var heatmap := HeatmapForDisplay(a.image.rows, a.image.columns, binary, p.index,
                                       analyzer.model.Some?, gradients, field);
      var metrics := Metrics(p.probabilities, p.classLabel, p.confidence);
      shown := ResultTabs(chart, heatmap, metrics.value);
    }

    /**
     * `_finalizar_analisis` as written: the result is stored even when it is None; None shows the
     * error status, clears the busy flag and reactivates the buttons. A result is drawn first;
     * when drawing raises, the rest of the method never runs, so the session stays busy with the
     * status, the counters and the buttons as they were. Otherwise the verdict is shown, the busy
     * flag cleared and the buttons reactivated.
     */
    method FinishAsWritten(
      message: Option<Analysis>,
      gradients: nat -> Option<GradCam.ChannelData>, field: (int, int) -> seq<real>)
      requires Valid() && busy
      requires message.Some? ==> |message.value.prediction.probabilities| >= 2
      requires forall c :: gradients(c).Some? ==> GradCam.WellShaped(gradients(c).value)
      requires message.Some? ==>
        forall x, y :: |field(x, y)| == message.value.image.rows * message.value.image.columns
      modifies this, charts
      ensures Valid()
      ensures results == message
      ensures clipboard == old(clipboard) && workerInput == old(workerInput) && started == old(started)
      ensures message.None? ==>
        && status == AnalysisFailed && tabs == old(tabs)
        && !busy && loadEnabled && clearEnabled && finished == old(finished) + 1
      ensures message.Some? ==> tabs.Showing? || tabs.Broken?
      ensures (message.Some? &&
               DisplayRaisesAsWritten(message.value, analyzer.model.Some?, gradients(GradCam.TargetClass).Some?)) ==>
        && tabs.Broken? && busy && !loadEnabled && !clearEnabled
        && status == old(status) && analyseEnabled == old(analyseEnabled) && finished == old(finished)
      ensures (message.Some? &&
               !DisplayRaisesAsWritten(message.value, analyzer.model.Some?, gradients(GradCam.TargetClass).Some?)) ==>
        var p := message.value.prediction;
        && tabs.Showing? && !busy && loadEnabled && clearEnabled && finished == old(finished) + 1
        && status == Judged(VerdictFor(p.classLabel, p.confidence), p.confidence)
    {
      results := message;
      match message {
        case None =>
          status := AnalysisFailed;
        case Some(a) =>
          var p := a.prediction;
          var view := BuildTabsAsWritten(a, gradients, field);
          tabs := view;
          if view.Broken? {
            return;
          }
          status := Judged(VerdictFor(p.classLabel, p.confidence), p.confidence);
      }
      busy := false;
      finished := finished + 1;
      ReactivateButtons();
    }

    /**
     * `_finalizar_analisis` with the corrected display: the result is stored even when it is
     * None; None shows the error status and leaves the tabs as they were; a result fills the
     * three tabs and shows its verdict. Both paths clear the busy flag and reactivate the buttons.
     */
    method Finish(
      message: Option<Analysis>,
      gradients: nat -> Option<GradCam.ChannelData>, field: (int, int) -> seq<real>)
      requires Valid() && busy
      requires message.Some? ==> |message.value.prediction.probabilities| >= 2
      requires forall c :: gradients(c).Some? ==> GradCam.WellShaped(gradients(c).value)
      requires message.Some? ==>
        forall x, y :: |field(x, y)| == message.value.image.rows * message.value.image.columns
      modifies this, charts
      ensures Valid()
      ensures results == message && !busy && loadEnabled && clearEnabled
      ensures analyseEnabled == (old(analyseEnabled) || analyzer.processor.image.Some?)
      ensures finished == old(finished) + 1 && started == old(started)
      ensures message.None? ==> status == AnalysisFailed && tabs == old(tabs)
      ensures message.Some? ==>
        var p := message.value.prediction;
        && status == Judged(VerdictFor(p.classLabel, p.confidence), p.confidence)
        && tabs.Showing?
        && tabs.shown.chart.probabilities == p.probabilities[..2]
        && tabs.shown.chart.title == ChartTitle(p.classLabel)
        && tabs.shown.chart.infoBorder == InfoBorder(p.classLabel, p.confidence)
        && Metrics(p.probabilities, p.classLabel, p.confidence) == Some(tabs.shown.metrics)
        && (tabs.shown.heatmap.Explained? <==> analyzer.model.Some?)
        && charts.currentFigure == Some(tabs.shown.chart)
      ensures clipboard == old(clipboard) && workerInput == old(workerInput)
    {
      results := message;
      match message {
        case None =>
          status := AnalysisFailed;
        case Some(a) =>
          var p := a.prediction;
          var shown := BuildTabs(a, gradients, field);
          tabs := Showing(shown);
          status := Judged(VerdictFor(p.classLabel, p.confidence), p.confidence);
      }
      busy := false;
      finished := finished + 1;
      ReactivateButtons();
    }

    /**
     * The worker's analysis of the array handed to it, followed by the posted finish, with the
     * worker's exception caught (the corrected handoff). `row` and `elapsed` are the forward
     * pass and latency for that array, `gradients` and `field` what the heatmap tab draws from.
     */
    method CompleteAnalysis(
      row: Option<seq<real>>, elapsed: real,
      gradients: nat -> Option<GradCam.ChannelData>, field: (int, int) -> seq<real>)
      requires Valid() && busy
      requires analyzer.model.Some? && analyzer.model.value.model.Some? && row.Some? ==>
        |row.value| == analyzer.model.value.model.value.outputWidth
      requires forall c :: gradients(c).Some? ==> GradCam.WellShaped(gradients(c).value)
      requires workerInput.Some? ==>
        forall x, y :: |field(x, y)| == workerInput.value.rows * workerInput.value.columns
      modifies this, analyzer.processor, charts
      ensures Valid()
      ensures results == WorkerMessage(AnalyseArray(analyzer.model, old(workerInput), row, elapsed))
      ensures !busy && loadEnabled && clearEnabled
      ensures finished == old(finished) + 1 && started == old(started)
      ensures unchanged(analyzer.processor)
      ensures results.None? ==> status == AnalysisFailed && tabs == old(tabs)
      ensures results.Some? ==>
        status == Judged(VerdictFor(results.value.prediction.classLabel, results.value.prediction.confidence),
                         results.value.prediction.confidence)
    {
      var r := analyzer.Analyse(None, workerInput, None, row, elapsed);
      var message := WorkerMessage(r);
      if message.Some? {
        PredictionHasBothClasses(analyzer.model.value, row.value, elapsed);
      }
      Finish(message, gradients, field);
    }

    /**
     * The same handoff as written: when `analizar_imagen` raises (no detector bound) nothing is
     * posted, so the session stays busy with all three buttons disabled; with a detector the
     * posted result goes through `_finalizar_analisis` as written, which leaves the session busy
     * exactly when drawing the result raises.
     */
    method CompleteAnalysisAsWritten(
      row: Option<seq<real>>, elapsed: real,
      gradients: nat -> Option<GradCam.ChannelData>, field: (int, int) -> seq<real>)
      requires Valid() && busy
      requires analyzer.model.Some? && analyzer.model.value.model.Some? && row.Some? ==>
        |row.value| == analyzer.model.value.model.value.outputWidth
      requires forall c :: gradients(c).Some? ==> GradCam.WellShaped(gradients(c).value)
      requires workerInput.Some? ==>
        forall x, y :: |field(x, y)| == workerInput.value.rows * workerInput.value.columns
      modifies this, analyzer.processor, charts
      ensures Valid()
      ensures analyzer.model.None? ==>
        unchanged(this) && busy && !loadEnabled && !clearEnabled
      ensures analyzer.model.Some? ==>
        var m := AnalyseArray(analyzer.model, old(workerInput), row, elapsed).value;
        && results == m
        && (busy <==> m.Some? && DisplayRaisesAsWritten(m.value, true, gradients(GradCam.TargetClass).Some?))
        && loadEnabled == !busy && clearEnabled == !busy
    {
      var r := analyzer.Analyse(None, workerInput, None, row, elapsed);
      var posted := WorkerMessageAsWritten(r);
      if posted.None? {
        return;
      }
      var message := posted.value;
      if message.Some? {
        PredictionHasBothClasses(analyzer.model.value, row.value, elapsed);
      }
      FinishAsWritten(message, gradients, field);
    }

    /**
     * `limpiar_todo`: the image holder and the figures are cleared, the results dropped, the
     * tabs back to the placeholder, the status ready and Analyse disabled.
     */
    method ClearAll()
      requires Valid()
      modifies this, analyzer.processor, charts
      ensures Valid()
      ensures analyzer.processor.image.None? && analyzer.processor.imageArray.None?
      ensures analyzer.processor.path.None?
      ensures charts.currentFigure.None? && charts.currentCanvas.None?
      ensures results.None? && tabs == Placeholder && status == Ready && !analyseEnabled
      ensures busy == old(busy) && loadEnabled == old(loadEnabled) && clearEnabled == old(clearEnabled)
      ensures clipboard == old(clipboard) && workerInput == old(workerInput)
      ensures started == old(started) && finished == old(finished)
    {
      analyzer.processor.Clear();
      charts.Clear();
      results, tabs := None, Placeholder;
      status := Ready;
      analyseEnabled := false;
    }

    /**
     * `_exportar_resultados`: without results only a notice; with results the report of the
     * current results goes to the clipboard. `date` is the clock's formatted date.
     */
    method Export(date: string) returns (notice: Notice)
      requires Valid()
      modifies this
      ensures Valid()
      ensures old(results).None? ==> notice == NoResults && unchanged(this)
      ensures old(results).Some? ==>
        notice == Exported && clipboard == Some(ReportFor(old(results).value, date))
      ensures results == old(results) && busy == old(busy) && status == old(status)
      ensures loadEnabled == old(loadEnabled) && analyseEnabled == old(analyseEnabled)
      ensures clearEnabled == old(clearEnabled) && tabs == old(tabs) && workerInput == old(workerInput)
    {
      if results.None? {
        return NoResults;
      }
      clipboard := Some(ReportFor(results.value, date));
      notice := Exported;
    }

    /** A click on the Analyse button: Tk runs the command only while the button is enabled. */
    method PressAnalyse() returns (notice: Notice)
      requires Valid()
      modifies this
      ensures Valid()
      ensures !old(analyseEnabled) ==> notice == NoNotice && unchanged(this)
      ensures old(busy) ==> unchanged(this)
      ensures started <= old(started) + 1
      ensures old(analyseEnabled) && !old(busy) ==>
        && notice == NoNotice && busy && started == old(started) + 1 && status == Analysing
        && workerInput == analyzer.processor.imageArray
        && !loadEnabled && !analyseEnabled && !clearEnabled
    {
      notice := NoNotice;
      if analyseEnabled {
        notice := StartAnalysis();
      }
    }

    /** A click on the Load button. */
    method PressLoad(path: string, decoded: Option<Image>) returns (notice: Notice)
      requires Valid()
      modifies this, analyzer.processor
      ensures Valid()
      ensures old(busy) ==> notice == NoNotice && unchanged(this) && unchanged(analyzer.processor)
      ensures !old(busy) && path != "" && decoded.Some? ==>
        && notice == NoNotice && analyzer.processor.image == decoded
        && analyzer.processor.path == Some(path)
        && status == Loaded(FileName(path)) && analyseEnabled && busy == old(busy)
      ensures !old(busy) && path != "" && decoded.None? ==>
        notice == LoadFailed && unchanged(this) && unchanged(analyzer.processor)
    {
      notice := NoNotice;
      if loadEnabled {
        notice := LoadImage(path, decoded);
      }
    }

    /** A click on the Clear button. */
    method PressClear()
      requires Valid()
      modifies this, analyzer.processor, charts
      ensures Valid()
      ensures old(busy) ==> unchanged(this) && unchanged(analyzer.processor) && unchanged(charts)
      ensures !old(busy) ==> results.None? && !analyseEnabled && analyzer.processor.image.None?
    {
      if clearEnabled {
        ClearAll();
      }
    }

    /**
     * A click on the image canvas, which is bound to `cargar_imagen` regardless of the busy flag:
     * it can load a new image and enable Analyse during an analysis.
     */
    method CanvasClick(path: string, decoded: Option<Image>) returns (notice: Notice)
      requires Valid()
      modifies this, analyzer.processor
      ensures Valid()
      ensures path != "" && decoded.Some? ==>
        analyseEnabled && busy == old(busy) && analyzer.processor.image == decoded
      ensures started == old(started) && finished == old(finished)
    {
      notice := LoadImage(path, decoded);
    }

    /**
     * Reloading through the canvas during an analysis and then pressing Analyse: the button is
     * enabled again, but the busy guard keeps the analysis in flight the only one.
     */
    method ReloadDuringAnalysis(path: string, decoded: Image)
      requires Valid() && busy && path != ""
      modifies this, analyzer.processor
      ensures Valid()
      ensures busy && analyseEnabled && started == old(started) && finished == old(finished)
      ensures analyzer.processor.image == Some(decoded)
    {
      var _ := CanvasClick(path, Some(decoded));
      var _ := PressAnalyse();
    }
  }
}
