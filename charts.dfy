/**
 * The selection rules of `GeneradorGraficas` (core/graficas.py): which bar is highlighted, the
 * titles and headline, the colour bands at 0.8 and 0.5, and where the heatmap comes from. The
 * figures themselves are matplotlib objects and are reduced to the choices made for them.
 */
module Charts {
  import opened Outcomes
  import opened Constants
  import GradCam
  import Fallback

  /** The colour of a class when its bar is the predicted one. */
  function ClassColour(classLabel: string): string {
    if classLabel == DefectLabel then DefectRed else ValidationGreen
  }

  /**
   * The loop of `crear_grafica_barras` that builds `colores_barras`: the predicted class's bar in
   * its class colour, every other bar in `borde_activo`.
   */
  method BarColours(predicted: string) returns (colours: seq<string>)
    ensures |colours| == |Classes|
    ensures forall i :: 0 <= i < |Classes| ==>
      colours[i] == (if Classes[i] == predicted then ClassColour(predicted) else BorderActive)
  {
    colours := [];
    for i := 0 to |Classes|
      invariant |colours| == i
      invariant forall k :: 0 <= k < i ==>
        colours[k] == (if Classes[k] == predicted then ClassColour(predicted) else BorderActive)
    {
      if Classes[i] == predicted {
        if predicted == DefectLabel {
          colours := colours + [DefectRed];
        } else {
          colours := colours + [ValidationGreen];
        }
      } else {
        colours := colours + [BorderActive];
      }
    }
  }

  /**
   * Only the predicted class's bar is highlighted: red for DEFECT, green for OK; the other bar
   * keeps the neutral colour, and a label outside the class list highlights nothing.
   */
  lemma BarHighlight(predicted: string, colours: seq<string>)
    requires |colours| == |Classes|
    requires forall i :: 0 <= i < |Classes| ==>
      colours[i] == (if Classes[i] == predicted then ClassColour(predicted) else BorderActive)
    ensures predicted == DefectLabel ==> colours == [DefectRed, BorderActive]
    ensures predicted == OkLabel ==> colours == [BorderActive, ValidationGreen]
    ensures predicted !in Classes ==> colours == [BorderActive, BorderActive]
  {
    assert Classes[0] == DefectLabel && Classes[1] == OkLabel;
    if predicted == DefectLabel {
      assert colours[0] == DefectRed && colours[1] == BorderActive;
    } else if predicted == OkLabel {
      assert colours[0] == BorderActive && colours[1] == ValidationGreen;
    } else {
      assert colours[0] == BorderActive && colours[1] == BorderActive;
    }
  }

  /** A chart title and its colour. */
  datatype Title = Title(text: string, colour: string)

  /** The bar chart's title: decided by the predicted label alone. */
  function ChartTitle(predicted: string): (t: Title)
    ensures predicted == DefectLabel <==> t == Title("⚠️ DEFECTO DETECTADO", DefectRed)
    ensures predicted != DefectLabel <==> t == Title("✓ PIEZA OK", ValidationGreen)
  {
    if predicted == DefectLabel then Title("⚠️ DEFECTO DETECTADO", DefectRed)
    else Title("✓ PIEZA OK", ValidationGreen)
  }

  /** The info box's border: the class colour at confidence 0.8 or more, yellow below. */
  function InfoBorder(predicted: string, confidence: real): (c: string)
    ensures confidence >= HighConfidence ==> c == ClassColour(predicted)
    ensures confidence < HighConfidence ==> c == Yellow
  {
    if predicted == DefectLabel then
      (if confidence >= 0.8 then DefectRed else Yellow)
    else
      (if confidence >= 0.8 then ValidationGreen else Yellow)
  }

  /** The three confidence bands of the metrics panel, with closed lower bounds. */
  function ConfidenceColour(confidence: real): (c: string)
    ensures c == ValidationGreen <==> confidence >= HighConfidence
    ensures c == Yellow <==> Majority <= confidence < HighConfidence
    ensures c == DefectRed <==> confidence < Majority
  {
    if confidence >= 0.8 then ValidationGreen
    else if confidence >= 0.5 then Yellow
    else DefectRed
  }

  /** The drawing `crear_grafica_barras` produces, by the choices made for it. */
  datatype BarChart = BarChart(
    classes: seq<string>,
    probabilities: seq<real>,
    barColours: seq<string>,
    title: Title,
    infoBorder: string,
    infoText: (string, real, real))

  /** The metrics panel's headline: icon, colour and message, decided by the label alone. */
  datatype Headline = Headline(icon: string, colour: string, message: string)

  function MetricsHeadline(predicted: string): (h: Headline)
    ensures predicted == DefectLabel <==> h == Headline("⚠️", Red, "DEFECTO DETECTADO")
    ensures predicted != DefectLabel <==> h == Headline("✓", Green, "PIEZA OK")
  {
    if predicted == DefectLabel then Headline("⚠️", Red, "DEFECTO DETECTADO")
    else Headline("✓", Green, "PIEZA OK")
  }

  /** The colour choices of `crear_metricas_panel`. */
  datatype MetricsPanel = MetricsPanel(
    headline: Headline,
    defectColour: string,
    okColour: string,
    confidenceColour: string)

  /**
   * `crear_metricas_panel`: DEFECT's probability is read at index 0 and OK's at index 1, each
   * highlighted only when strictly above 0.5; fewer than two probabilities make the indexing
   * raise (None).
   */
  function Metrics(probabilities: seq<real>, predicted: string, confidence: real): (r: Option<MetricsPanel>)
    ensures r.Some? <==> |probabilities| >= 2
    ensures r.Some? ==>
      && r.value.headline == MetricsHeadline(predicted)
      && (r.value.defectColour == DefectRed <==> probabilities[0] > Majority)
      && (r.value.okColour == ValidationGreen <==> probabilities[1] > Majority)
      && r.value.confidenceColour == ConfidenceColour(confidence)
  {
    if |probabilities| < 2 then None
    else
      var pDefect, pOk := probabilities[0], probabilities[1];
      Some(MetricsPanel(
        MetricsHeadline(predicted),
        if pDefect > 0.5 then DefectRed else TextPrimary,
        if pOk > 0.5 then ValidationGreen else TextPrimary,
        ConfidenceColour(confidence)))
  }

  /**
   * With two probabilities that sum to 1, at most one of them is highlighted, and at exactly
   * 0.5 each neither is.
   */
  lemma AtMostOneProbabilityHighlighted(pDefect: real, pOk: real, predicted: string, confidence: real)
    requires pDefect + pOk == 1.0
    ensures var m := Metrics([pDefect, pOk], predicted, confidence).value;
      && !(m.defectColour == DefectRed && m.okColour == ValidationGreen)
      && (pDefect == 0.5 ==> m.defectColour == TextPrimary && m.okColour == TextPrimary)
  {
  }

  /** The heatmap `crear_mapa_calor` overlays. */
  datatype DisplayedHeatmap =
    | Explained(heatmap: GradCam.Heatmap)
    | SimulatedOverlay(centreX: int, centreY: int, heat: seq<real>)

  /**
   * `crear_mapa_calor` minus the drawing, as written. With a model, the detector's activation
   * map; when that raises (its fallback on an image under two pixels on a side) the handler's
   * own simulated map raises for the same image, so the call raises (None). Without a model,
   * the clipped simulated heatmap, which raises on the same small images.
   */
  method HeatmapForDisplayAsWritten(
    height: nat, width: nat, predictedIndex: nat, hasModel: bool,
    gradients: nat -> Option<GradCam.ChannelData>, field: (int, int) -> seq<real>)
    returns (d: Option<DisplayedHeatmap>)
    requires forall c :: gradients(c).Some? ==> GradCam.WellShaped(gradients(c).value)
    requires forall x, y :: |field(x, y)| == height * width
    ensures d.None? <==> (!hasModel || gradients(GradCam.TargetClass).None?) && (width < 2 || height < 2)
    ensures d.Some? ==> (d.value.Explained? <==> hasModel)
    ensures hasModel && gradients(GradCam.TargetClass).Some? ==>
      d == Some(Explained(GradCam.Heatmap(height, width,
        GradCam.FromGradCam(GradCam.GradCamMap(gradients(GradCam.TargetClass).value)))))
  {
    if hasModel {
      var m := GradCam.ActivationMapAsWritten(height, width, predictedIndex, gradients);
      if m.Some? {
        return Some(Explained(m.value));
      }
      var s := Fallback.SimulatedHeatmapAsWritten(height, width, field);
      assert s.None?;
      return None;
    }
    var s := Fallback.SimulatedHeatmapAsWritten(height, width, field);
    if s.None? {
      return None;
    }
    d := Some(SimulatedOverlay(s.value.centreX, s.value.centreY, s.value.heat));
  }

  /**
   * `crear_mapa_calor` minus the drawing, with the corrected activation map and centre: the
   * detector's map of DEFECT's score when a model is given, the clipped simulated heatmap
   * otherwise. Neither raises.
   */
  method HeatmapForDisplay(
    height: nat, width: nat, binary: bool, predictedIndex: nat, hasModel: bool,
    gradients: nat -> Option<GradCam.ChannelData>, field: (int, int) -> seq<real>)
    returns (d: DisplayedHeatmap)
    requires forall c :: gradients(c).Some? ==> GradCam.WellShaped(gradients(c).value)
    requires forall x, y :: |field(x, y)| == height * width
    ensures d.Explained? <==> hasModel
    ensures d.Explained? ==> d.heatmap.height == height && d.heatmap.width == width
    ensures d.Explained? && gradients(GradCam.TargetClass).Some? ==>
      d.heatmap.source == GradCam.FromGradCam(GradCam.GradCamMap(
        GradCam.DefectData(binary, gradients(GradCam.TargetClass).value)))
    ensures d.SimulatedOverlay? ==>
      |d.heat| == height * width && forall k :: 0 <= k < |d.heat| ==> 0.0 <= d.heat[k] <= 1.0
  {
    if hasModel {
      var m := GradCam.ActivationMap(height, width, binary, predictedIndex, gradients);
      d := Explained(m);
    } else {
      var cx, cy, heat := Fallback.SimulatedHeatmap(height, width, field);
      d := SimulatedOverlay(cx, cy, heat);
    }
  }

  /**
   * Whether `ax.bar` accepts the heights: numpy broadcasts them against the two class names,
   * which works for one height or one per class and raises ValueError otherwise.
   */
  predicate BarsBroadcast(heights: nat) {
    heights == 1 || heights == |Classes|
  }

  /** The drawing of `crear_grafica_barras` for the heights it is given. */
  method DrawBarChart(heights: seq<real>, predicted: string, confidence: real, time: real)
    returns (chart: BarChart)
    ensures chart.classes == Classes && chart.probabilities == heights
    ensures predicted == DefectLabel ==> chart.barColours == [DefectRed, BorderActive]
    ensures predicted == OkLabel ==> chart.barColours == [BorderActive, ValidationGreen]
    ensures predicted !in Classes ==> chart.barColours == [BorderActive, BorderActive]
    ensures chart.title == ChartTitle(predicted)
    ensures chart.infoBorder == InfoBorder(predicted, confidence)
    ensures chart.infoText == (predicted, confidence, time)
  {
    var colours := BarColours(predicted);
    BarHighlight(predicted, colours);
    chart := BarChart(Classes, heights, colours, ChartTitle(predicted),
                      InfoBorder(predicted, confidence), (predicted, confidence, time));
  }

  /** The figure state of `GeneradorGraficas`. */
  class ChartGenerator {
    var currentFigure: Option<BarChart>
    var currentCanvas: Option<nat>

    constructor ()
      ensures currentFigure.None? && currentCanvas.None?
    {
      currentFigure, currentCanvas := None, None;
    }

    /**
     * `crear_grafica_barras` as written: all the probabilities are drawn against the two class
     * names, so any count other than one or two raises (None) before the figure is recorded.
     */
    method CreateBarChartAsWritten(probabilities: seq<real>, predicted: string, confidence: real, time: real)
      returns (chart: Option<BarChart>)
      modifies this
      ensures chart.None? <==> !BarsBroadcast(|probabilities|)
      ensures chart.None? ==> unchanged(this)
      ensures chart.Some? ==>
        && currentFigure == chart && currentCanvas == old(currentCanvas)
        && chart.value.classes == Classes && chart.value.probabilities == probabilities
        && chart.value.title == ChartTitle(predicted)
        && chart.value.infoBorder == InfoBorder(predicted, confidence)
    {
      if !BarsBroadcast(|probabilities|) {
        return None;
      }
      var c := DrawBarChart(probabilities, predicted, confidence, time);
      chart := Some(c);
      currentFigure := chart;
    }

    /**
     * `crear_grafica_barras` drawing the two classes' probabilities, as its "two classes" comment
     * intends: one bar per class, so it never raises.
     */
    method CreateBarChart(probabilities: seq<real>, predicted: string, confidence: real, time: real)
      returns (chart: BarChart)
      requires |probabilities| >= |Classes|
      modifies this
      ensures currentFigure == Some(chart) && currentCanvas == old(currentCanvas)
      ensures chart.classes == Classes && chart.probabilities == probabilities[..|Classes|]
      ensures |chart.probabilities| == |chart.classes|
      ensures predicted == DefectLabel ==> chart.barColours == [DefectRed, BorderActive]
      ensures predicted == OkLabel ==> chart.barColours == [BorderActive, ValidationGreen]
      ensures chart.title == ChartTitle(predicted)
      ensures chart.infoBorder == InfoBorder(predicted, confidence)
      ensures chart.infoText == (predicted, confidence, time)
    {
      chart := DrawBarChart(probabilities[..|Classes|], predicted, confidence, time);
      currentFigure := Some(chart);
    }

    /** `limpiar`: the current figure is closed and forgotten, and the canvas dropped. */
    method Clear()
      modifies this
      ensures currentFigure.None? && currentCanvas.None?
    {
      if currentFigure.Some? {
        currentFigure := None;
      }
      currentCanvas := None;
    }
  }
}
