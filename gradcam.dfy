/**
 * The arithmetic of `CNNDetector._grad_cam` and the fallback policy of
 * `obtener_mapa_activacion` (models/detector.py).
 *
 * Gradients and feature maps come from the framework: for a target class, it yields one weight
 * per channel (the spatial mean of the gradients) and one feature map per channel. A feature map
 * is a flat, row-major grid of `cells` values.
 */
module GradCam {
  import opened Outcomes
  import Fallback

  /** Channel weights and feature maps of the captured convolutional layer. */
  datatype ChannelData = ChannelData(weights: seq<real>, maps: seq<seq<real>>, cells: nat)

  /** One weight per channel, every map of `cells` values, and at least one cell. */
  predicate WellShaped(d: ChannelData) {
    && |d.weights| == |d.maps|
    && d.cells > 0
    && forall i :: 0 <= i < |d.maps| ==> |d.maps[i]| == d.cells
  }

  /** Cell j of the weighted sum over channels: the sum of `weights[i] * maps[i][j]`. */
  function ChannelSum(weights: seq<real>, maps: seq<seq<real>>, j: nat): real
    requires |weights| == |maps|
    requires forall i :: 0 <= i < |maps| ==> j < |maps[i]|
  {
    if |weights| == 0 then 0.0
    else
      var n := |weights| - 1;
      ChannelSum(weights[..n], maps[..n], j) + weights[n] * maps[n][j]
  }

  /** The loop of `_grad_cam` that accumulates `w * conv_outputs[:, :, i]` into a zero map. */
  method Combine(d: ChannelData) returns (cam: seq<real>)
    requires WellShaped(d)
    ensures |cam| == d.cells
    ensures forall j :: 0 <= j < d.cells ==> cam[j] == ChannelSum(d.weights, d.maps, j)
  {
    cam := seq(d.cells, _ => 0.0);
    for i := 0 to |d.weights|
      invariant |cam| == d.cells
      invariant forall j :: 0 <= j < d.cells ==> cam[j] == ChannelSum(d.weights[..i], d.maps[..i], j)
    {
      var acc := cam;
      cam := seq(d.cells, j requires 0 <= j < d.cells => acc[j] + d.weights[i] * d.maps[i][j]);
      forall j | 0 <= j < d.cells
        ensures cam[j] == ChannelSum(d.weights[..i + 1], d.maps[..i + 1], j)
      {
        assert d.weights[..i + 1][..i] == d.weights[..i];
        assert d.maps[..i + 1][..i] == d.maps[..i];
      }
    }
    assert d.weights[..|d.weights|] == d.weights;
    assert d.maps[..|d.maps|] == d.maps;
  }

  /** The largest value of a non-empty map (`np.max`). */
  function MaxOf(s: seq<real>): (m: real)
    requires |s| > 0
    ensures forall j :: 0 <= j < |s| ==> s[j] <= m
    ensures exists j :: 0 <= j < |s| && s[j] == m
  {
    if |s| == 1 then s[0]
    else
      var m := MaxOf(s[1..]);
      assert forall j :: 1 <= j < |s| ==> s[j] == s[1..][j - 1];
      if s[0] > m then s[0] else m
  }

  /** `np.maximum(cam, 0)`. */
  function Relu(cam: seq<real>): (r: seq<real>)
    ensures |r| == |cam|
  {
    seq(|cam|, j requires 0 <= j < |cam| => if cam[j] > 0.0 then cam[j] else 0.0)
  }

  /**
   * ReLU followed by division by the maximum, skipped when the maximum is not positive: the last
   * lines of `_grad_cam`.
   */
  function RectifyAndNormalise(cam: seq<real>): (out: seq<real>)
    requires |cam| > 0
    ensures |out| == |cam|
  {
    var r := Relu(cam);
    var m := MaxOf(r);
    if m > 0.0 then seq(|r|, j requires 0 <= j < |r| => r[j] / m) else r
  }

  /** After ReLU and normalisation every cell is in [0, 1], and it is 0 exactly where the input was not positive. */
  lemma {:induction false} RectifyAndNormaliseRange(cam: seq<real>)
    requires |cam| > 0
    ensures var out := RectifyAndNormalise(cam);
      && |out| == |cam|
      && (forall j :: 0 <= j < |out| ==> 0.0 <= out[j] <= 1.0)
      && (forall j :: 0 <= j < |out| ==> (out[j] == 0.0 <==> cam[j] <= 0.0))
  {
    var r := Relu(cam);
    var m := MaxOf(r);
    var out := RectifyAndNormalise(cam);
    if m > 0.0 {
      forall j | 0 <= j < |out| ensures 0.0 <= out[j] <= 1.0 && (out[j] == 0.0 <==> cam[j] <= 0.0) {
        DivideByMax(r[j], m);
      }
    } else {
      forall j | 0 <= j < |r| ensures r[j] == 0.0 {
        assert r[j] <= m;
      }
    }
  }

  /** Normalisation keeps the order of cells: a cell no larger than another stays no larger. */
  lemma {:induction false} RectifyAndNormaliseMonotone(cam: seq<real>, i: nat, j: nat)
    requires i < |cam| && j < |cam| && cam[i] <= cam[j]
    ensures |RectifyAndNormalise(cam)| == |cam|
    ensures RectifyAndNormalise(cam)[i] <= RectifyAndNormalise(cam)[j]
  {
    var r := Relu(cam);
    var m := MaxOf(r);
    if m > 0.0 {
      DivideMonotone(r[i], r[j], m);
    }
  }

  /** A map with a positive cell reaches exactly 1; a map without one becomes all zero. */
  lemma {:induction false} RectifyAndNormalisePeak(cam: seq<real>)
    requires |cam| > 0
    ensures var out := RectifyAndNormalise(cam);
      && |out| == |cam|
      && ((exists j :: 0 <= j < |cam| && cam[j] > 0.0) ==> exists j :: 0 <= j < |out| && out[j] == 1.0)
      && ((forall j :: 0 <= j < |cam| ==> cam[j] <= 0.0) ==> forall j :: 0 <= j < |out| ==> out[j] == 0.0)
  {
    var r := Relu(cam);
    var m := MaxOf(r);
    var out := RectifyAndNormalise(cam);
    var k :| 0 <= k < |r| && r[k] == m;
    if exists j :: 0 <= j < |cam| && cam[j] > 0.0 {
      var j :| 0 <= j < |cam| && cam[j] > 0.0;
      assert r[j] == cam[j] && r[j] <= m;
      DivideByMax(m, m);
      assert out[k] == r[k] / m == m / m;
      assert exists i :: 0 <= i < |out| && out[i] == 1.0;
    }
    if forall j :: 0 <= j < |cam| ==> cam[j] <= 0.0 {
      assert r[k] == 0.0;
      assert out == r;
      forall j | 0 <= j < |r| ensures r[j] == 0.0 {
      }
    }
  }

  lemma DivideByMax(x: real, m: real)
    requires 0.0 <= x <= m && m > 0.0
    ensures 0.0 <= x / m <= 1.0
    ensures x / m == 0.0 <==> x == 0.0
    ensures x / m == 1.0 <==> x == m
  {
  }

  lemma DivideMonotone(x: real, y: real, m: real)
    requires x <= y && m > 0.0
    ensures x / m <= y / m
  {
  }

  /** The map `_grad_cam` returns for the given channel data. */
  function GradCamMap(d: ChannelData): seq<real>
    requires WellShaped(d)
  {
    RectifyAndNormalise(seq(d.cells, j requires 0 <= j < d.cells => ChannelSum(d.weights, d.maps, j)))
  }

  /** `_grad_cam` from the weights on: combine the channels, rectify and normalise. */
  method ComputeGradCam(d: ChannelData) returns (cam: seq<real>)
    requires WellShaped(d)
    ensures cam == GradCamMap(d)
    ensures |cam| == d.cells
    ensures forall j :: 0 <= j < d.cells ==> 0.0 <= cam[j] <= 1.0
    ensures forall j :: 0 <= j < d.cells ==> (cam[j] == 0.0 <==> ChannelSum(d.weights, d.maps, j) <= 0.0)
    ensures (exists j :: 0 <= j < d.cells && ChannelSum(d.weights, d.maps, j) > 0.0)
            ==> exists j :: 0 <= j < d.cells && cam[j] == 1.0
  {
    var combined := Combine(d);
    assert combined == seq(d.cells, j requires 0 <= j < d.cells => ChannelSum(d.weights, d.maps, j));
    cam := RectifyAndNormalise(combined);
    RectifyAndNormaliseRange(combined);
    RectifyAndNormalisePeak(combined);
  }

  /** Where a heatmap's values come from. */
  datatype HeatSource =
    | FromGradCam(cam: seq<real>)         // the Grad-CAM map, before upsampling to the image size
    | Simulated(centreX: int, centreY: int) // the Gaussian fallback, by its centre

  /** A heatmap for an image of the given height and width. */
  datatype Heatmap = Heatmap(height: nat, width: nat, source: HeatSource)

  /**
   * The output column Grad-CAM differentiates (`predictions[:, 0]`). For a multiclass head that is
   * DEFECT's probability; for a sigmoid head it is the single output s, which `predecir` reads as
   * P(OK). The code's comment calls it DEFECT in both cases.
   */
  const TargetClass: nat := 0

  /** The weights with their signs flipped. */
  function Negated(weights: seq<real>): (n: seq<real>)
    ensures |n| == |weights|
  {
    seq(|weights|, i requires 0 <= i < |weights| => -weights[i])
  }

  /** Flipping the sign of every weight flips the sign of every combined cell. */
  lemma {:induction false} NegatedSum(weights: seq<real>, maps: seq<seq<real>>, j: nat)
    requires |weights| == |maps|
    requires forall i :: 0 <= i < |maps| ==> j < |maps[i]|
    ensures ChannelSum(Negated(weights), maps, j) == -ChannelSum(weights, maps, j)
    decreases |weights|
  {
    if |weights| > 0 {
      var n := |weights| - 1;
      assert Negated(weights)[..n] == Negated(weights[..n]);
      NegatedSum(weights[..n], maps[..n], j);
    }
  }

  /**
   * The channel data for DEFECT's score, given that of output column 0. A multiclass head's
   * column 0 is DEFECT's probability already. A sigmoid head's column 0 is s = P(OK), and DEFECT's
   * score 1 - s has the opposite gradients, hence the same maps with negated weights.
   */
  function DefectData(binary: bool, column0: ChannelData): (d: ChannelData)
    ensures WellShaped(column0) ==> WellShaped(d)
  {
    if binary then ChannelData(Negated(column0.weights), column0.maps, column0.cells) else column0
  }

  /**
   * For a sigmoid head the map of DEFECT's score is blank exactly where column 0's combined
   * evidence is not negative, so it never lights a cell that column 0's map (the map the code
   * draws) lights.
   */
  lemma {:induction false} DefectMapOfSigmoidHead(d: ChannelData)
    requires WellShaped(d)
    ensures |GradCamMap(DefectData(true, d))| == d.cells && |GradCamMap(d)| == d.cells
    ensures forall j :: 0 <= j < d.cells ==>
      (GradCamMap(DefectData(true, d))[j] == 0.0 <==> ChannelSum(d.weights, d.maps, j) >= 0.0)
    ensures forall j :: 0 <= j < d.cells ==>
      GradCamMap(d)[j] == 0.0 || GradCamMap(DefectData(true, d))[j] == 0.0
  {
    var n := DefectData(true, d);
    var plain := seq(d.cells, j requires 0 <= j < d.cells => ChannelSum(d.weights, d.maps, j));
    var flipped := seq(d.cells, j requires 0 <= j < d.cells => ChannelSum(n.weights, n.maps, j));
    forall j | 0 <= j < d.cells
      ensures flipped[j] == -plain[j]
    {
      NegatedSum(d.weights, d.maps, j);
    }
    RectifyAndNormaliseRange(plain);
    RectifyAndNormaliseRange(flipped);
  }

  /**
   * A sigmoid head with one channel whose feature map is +1 on the first cell and -1 on the
   * second: the code's map lights the first cell, which raises P(OK), while DEFECT's map lights
   * only the second.
   */
  lemma SigmoidHeadExample()
    ensures var d := ChannelData([1.0], [[1.0, -1.0]], 2);
      && WellShaped(d)
      && GradCamMap(d) == [1.0, 0.0]
      && GradCamMap(DefectData(true, d)) == [0.0, 1.0]
  {
    var d := ChannelData([1.0], [[1.0, -1.0]], 2);
    assert Negated([1.0]) == [-1.0];
    ExampleMap(1.0);
    ExampleMap(-1.0);
    NormaliseOppositePair();
  }

  /** The example's combined map for weight w on the map (1, -1) is (w, -w). */
  lemma ExampleMap(w: real)
    ensures var d := ChannelData([w], [[1.0, -1.0]], 2);
      WellShaped(d) && GradCamMap(d) == RectifyAndNormalise([w, -w])
  {
    var d := ChannelData([w], [[1.0, -1.0]], 2);
    var combined := seq(d.cells, j requires 0 <= j < d.cells => ChannelSum(d.weights, d.maps, j));
    assert d.weights[..0] == [] && d.maps[..0] == [];
    assert ChannelSum(d.weights, d.maps, 0) == w;
    assert ChannelSum(d.weights, d.maps, 1) == -w;
    assert combined == [w, -w];
  }

  /** ReLU and normalisation of (1, -1) and (-1, 1). */
  lemma NormaliseOppositePair()
    ensures RectifyAndNormalise([1.0, -1.0]) == [1.0, 0.0]
    ensures RectifyAndNormalise([-1.0, 1.0]) == [0.0, 1.0]
  {
    assert Relu([1.0, -1.0]) == [1.0, 0.0];
    assert Relu([-1.0, 1.0]) == [0.0, 1.0];
    assert MaxOf([1.0, 0.0]) == 1.0 && MaxOf([0.0, 1.0]) == 1.0;
  }

  /**
   * `obtener_mapa_activacion` as written. `gradients(c)` is what the framework yields for output
   * column c: the channel data, or None when the gradient computation raises (missing layer,
   * incompatible model). Column 0 is explained whatever the predicted index, and a failure falls
   * back to `_mapa_simulado`, whose centre draw raises (None) on an image under two pixels on a
   * side; that exception leaves the `except` handler.
   */
  method ActivationMapAsWritten(
    height: nat, width: nat, predictedIndex: nat, gradients: nat -> Option<ChannelData>)
    returns (h: Option<Heatmap>)
    requires forall c :: gradients(c).Some? ==> WellShaped(gradients(c).value)
    ensures h.None? <==> gradients(TargetClass).None? && (width < 2 || height < 2)
    ensures gradients(TargetClass).Some? ==>
      h == Some(Heatmap(height, width, FromGradCam(GradCamMap(gradients(TargetClass).value))))
    ensures h.Some? ==> h.value.height == height && h.value.width == width
    ensures h.Some? && h.value.source.Simulated? ==>
      && Fallback.CentreRange(width).0 <= h.value.source.centreX < Fallback.CentreRange(width).1
      && Fallback.CentreRange(height).0 <= h.value.source.centreY < Fallback.CentreRange(height).1
  {
    match gradients(TargetClass)
    case Some(d) =>
      var cam := ComputeGradCam(d);
      h := Some(Heatmap(height, width, FromGradCam(cam)));
    case None =>
      Fallback.CentreRangeEmptyIff(width);
      Fallback.CentreRangeEmptyIff(height);
      var c := Fallback.PickCentreAsWritten(height, width);
      if c.None? {
        return None;
      }
      h := Some(Heatmap(height, width, Simulated(c.value.0, c.value.1)));
  }

  /**
   * `obtener_mapa_activacion` corrected for both findings: it explains DEFECT's score (column 0
   * of a multiclass head, the negated column of a sigmoid head), and the fallback centre is drawn
   * from the safe range, so it never raises. The predicted index is accepted and ignored.
   */
  method ActivationMap(
    height: nat, width: nat, binary: bool, predictedIndex: nat, gradients: nat -> Option<ChannelData>)
    returns (h: Heatmap)
    requires forall c :: gradients(c).Some? ==> WellShaped(gradients(c).value)
    ensures h.height == height && h.width == width
    ensures gradients(TargetClass).Some? ==>
      h.source == FromGradCam(GradCamMap(DefectData(binary, gradients(TargetClass).value)))
    ensures gradients(TargetClass).None? ==> h.source.Simulated?
    ensures h.source.Simulated? && width >= 2 ==>
      Fallback.CentreRange(width).0 <= h.source.centreX < Fallback.CentreRange(width).1
    ensures h.source.Simulated? && height >= 2 ==>
      Fallback.CentreRange(height).0 <= h.source.centreY < Fallback.CentreRange(height).1
  {
    match gradients(TargetClass)
    case Some(d) =>
      var cam := ComputeGradCam(DefectData(binary, d));
      h := Heatmap(height, width, FromGradCam(cam));
    case None =>
      var cx, cy := Fallback.PickCentre(height, width);
      h := Heatmap(height, width, Simulated(cx, cy));
  }
}
