/**
 * The simulated heatmaps used when no Grad-CAM map is available: `CNNDetector._mapa_simulado`
 * (models/detector.py) and `GeneradorGraficas._generar_heatmap_simulado` (core/graficas.py).
 * Both draw a Gaussian blob around a random centre; the Gaussian and the noise are floating-point
 * work and enter the model as an opaque field of values, while the centre is a nondeterministic
 * choice from the range the code passes to `np.random.randint`.
 */
module Fallback {
  import opened Outcomes

  /** The half-open range `[n // 4, 3 * n // 4)` the centre is drawn from along a side of length n. */
  function CentreRange(n: nat): (nat, nat) {
    (n / 4, 3 * n / 4)
  }

  /**
   * The range is empty exactly for sides shorter than two pixels, where `np.random.randint(lo, hi)`
   * raises ValueError because `lo >= hi`.
   */
  lemma {:induction false} CentreRangeEmptyIff(n: nat)
    ensures CentreRange(n).0 < CentreRange(n).1 <==> n >= 2
  {
    var q := n / 4;
    var r := n % 4;
    assert n == 4 * q + r;
    assert 3 * n == 4 * (3 * q) + 3 * r;
    if n >= 2 {
      if r == 0 {
        assert q >= 1;
        assert 3 * n / 4 == 3 * q;
      } else if r == 1 {
        assert 3 * n / 4 == 3 * q;
        assert q >= 1;
      } else if r == 2 {
        assert 3 * n == 4 * (3 * q + 1) + 2;
        assert 3 * n / 4 == 3 * q + 1;
      } else {
        assert 3 * n == 4 * (3 * q + 2) + 1;
        assert 3 * n / 4 == 3 * q + 2;
      }
    } else {
      assert n / 4 == 0 && 3 * n / 4 == 0;
    }
  }

  /**
   * The centre as the code draws it: x from the width's range, y from the height's range, and
   * None where `randint` raises (a side shorter than two pixels). The exception escapes the
   * `except` handler that called the fallback.
   */
  method PickCentreAsWritten(height: nat, width: nat) returns (c: Option<(int, int)>)
    ensures c.None? <==> CentreRange(width).0 >= CentreRange(width).1
                         || CentreRange(height).0 >= CentreRange(height).1
    ensures c.Some? ==> CentreRange(width).0 <= c.value.0 < CentreRange(width).1
                        && CentreRange(height).0 <= c.value.1 < CentreRange(height).1
  {
    var (xLo, xHi) := CentreRange(width);
    if xLo >= xHi {
      return None;
    }
    var cx :| xLo <= cx < xHi;
    var (yLo, yHi) := CentreRange(height);
    if yLo >= yHi {
      return None;
    }
    var cy :| yLo <= cy < yHi;
    c := Some((cx, cy));
  }

  /** A one-pixel-wide image has no centre as the code draws it. */
  lemma SinglePixelWidthHasNoCentre()
    ensures CentreRange(1).0 >= CentreRange(1).1
  {
    CentreRangeEmptyIff(1);
  }

  /**
   * The range with its upper end raised to at least `lo + 1`, so it is never empty; it equals
   * the code's range for every side of two pixels or more.
   */
  function SafeCentreRange(n: nat): (r: (nat, nat))
    ensures r.0 < r.1
    ensures n >= 2 ==> r == CentreRange(n)
    ensures n >= 1 ==> r.1 <= n
  {
    CentreRangeEmptyIff(n);
    var (lo, hi) := CentreRange(n);
    (lo, if hi > lo then hi else lo + 1)
  }

  /** The centre drawn from the safe ranges: always defined, and inside any non-empty image. */
  method PickCentre(height: nat, width: nat) returns (cx: int, cy: int)
    ensures SafeCentreRange(width).0 <= cx < SafeCentreRange(width).1
    ensures SafeCentreRange(height).0 <= cy < SafeCentreRange(height).1
    ensures width >= 2 ==> CentreRange(width).0 <= cx < CentreRange(width).1
    ensures height >= 2 ==> CentreRange(height).0 <= cy < CentreRange(height).1
    ensures width >= 1 && height >= 1 ==> 0 <= cx < width && 0 <= cy < height
  {
    var (xLo, xHi) := SafeCentreRange(width);
    cx :| xLo <= cx < xHi;
    var (yLo, yHi) := SafeCentreRange(height);
    cy :| yLo <= cy < yHi;
  }

  /** `np.clip(v, 0, 1)` on one value. */
  function Clip(v: real): (c: real)
    ensures 0.0 <= c <= 1.0
    ensures 0.0 <= v <= 1.0 ==> c == v
    ensures v < 0.0 ==> c == 0.0
    ensures v > 1.0 ==> c == 1.0
  {
    if v < 0.0 then 0.0 else if v > 1.0 then 1.0 else v
  }

  /** A simulated heatmap: its centre and its clipped values. */
  datatype SimulatedMap = SimulatedMap(centreX: int, centreY: int, heat: seq<real>)

  /**
   * `_generar_heatmap_simulado` as written: the centre draw raises (None) on an image under two
   * pixels on a side; otherwise the Gaussian-plus-noise field for the centre (a flat, row-major
   * grid of `height * width` values) clipped into [0, 1].
   */
  method SimulatedHeatmapAsWritten(height: nat, width: nat, field: (int, int) -> seq<real>)
    returns (r: Option<SimulatedMap>)
    requires forall x, y :: |field(x, y)| == height * width
    ensures r.None? <==> width < 2 || height < 2
    ensures r.Some? ==>
      && CentreRange(width).0 <= r.value.centreX < CentreRange(width).1
      && CentreRange(height).0 <= r.value.centreY < CentreRange(height).1
      && |r.value.heat| == height * width
      && (forall k :: 0 <= k < |r.value.heat| ==> 0.0 <= r.value.heat[k] <= 1.0)
  {
    CentreRangeEmptyIff(width);
    CentreRangeEmptyIff(height);
    var c := PickCentreAsWritten(height, width);
    if c.None? {
      return None;
    }
    var raw := field(c.value.0, c.value.1);
    r := Some(SimulatedMap(c.value.0, c.value.1, seq(|raw|, k requires 0 <= k < |raw| => Clip(raw[k]))));
  }

  /**
   * `_generar_heatmap_simulado` with the corrected centre: pick a centre from the safe range,
   * take the Gaussian-plus-noise field for it and clip every value into [0, 1].
   */
  method SimulatedHeatmap(height: nat, width: nat, field: (int, int) -> seq<real>)
    returns (cx: int, cy: int, heat: seq<real>)
    requires forall x, y :: |field(x, y)| == height * width
    ensures width >= 2 ==> CentreRange(width).0 <= cx < CentreRange(width).1
    ensures height >= 2 ==> CentreRange(height).0 <= cy < CentreRange(height).1
    ensures |heat| == height * width
    ensures forall k :: 0 <= k < |heat| ==> 0.0 <= heat[k] <= 1.0
    ensures forall k :: 0 <= k < |heat| ==> (0.0 <= field(cx, cy)[k] <= 1.0 ==> heat[k] == field(cx, cy)[k])
  {
    cx, cy := PickCentre(height, width);
    var raw := field(cx, cy);
    heat := seq(|raw|, k requires 0 <= k < |raw| => Clip(raw[k]));
  }
}
