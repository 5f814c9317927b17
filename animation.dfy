/**
 * ui/animaciones.py: the hex colour codec and interpolation of `AnimacionPulso`, the step
 * counters of the four animations, and the one-pulse-per-widget registry of `GestorAnimaciones`.
 *
 * Each `_animar` (or `_rotar`) call is one method call; the `after` callbacks Tk schedules are
 * calls the caller makes in order. What a widget is shown (an alpha, a background, a position)
 * is recorded in the object, since the widget itself is opaque.
 */
module Animation {
  import opened Outcomes
  import opened Constants
  import opened Numerics

  // ---------------------------------------------------------------- hex colour codec

  const HexDigits: string := "0123456789abcdef"

  /** The value of one hexadecimal digit in either case, as `int(_, 16)` reads it. */
  function HexValue(c: char): (v: Option<nat>)
    ensures v.Some? ==> v.value < 16
  {
    if '0' <= c <= '9' then Some(c as nat - '0' as nat)
    else if 'a' <= c <= 'f' then Some(c as nat - 'a' as nat + 10)
    else if 'A' <= c <= 'F' then Some(c as nat - 'A' as nat + 10)
    else None
  }

  predicate IsHexDigit(c: char) {
    HexValue(c).Some?
  }

  /** The ASCII whitespace `int()` strips around its argument. */
  predicate IsSpace(c: char) {
    c == ' ' || c == '\t' || c == '\n' || c == '\r' || c == '\U{000B}' || c == '\U{000C}'
  }

  /**
   * `int(s, 16)` for the one- or two-character slices `_hex_a_rgb` takes: one or two hex digits,
   * a digit with whitespace on one side, or a signed digit; anything else (the empty slice
   * included) raises ValueError, which is None.
   */
  function ParseComponent(s: string): Option<int>
    requires |s| <= 2
  {
    if |s| == 0 then None
    else if |s| == 1 then
      (match HexValue(s[0]) case Some(v) => Some(v) case None => None)
    else
      match (HexValue(s[0]), HexValue(s[1]))
      case (Some(a), Some(b)) => Some(16 * a + b)
      case (None, Some(b)) =>
        if IsSpace(s[0]) || s[0] == '+' then Some(b)
        else if s[0] == '-' then Some(0 - b as int)
        else None
      case (Some(a), None) => if IsSpace(s[1]) then Some(a) else None
      case (None, None) => None
  }

  /**
   * What a component can be: at most 255, at least -15, and never negative without a '-'; two
   * hex digits read as 16 times the first plus the second.
   */
  lemma ParseComponentRange(s: string)
    requires |s| <= 2
    ensures ParseComponent(s).Some? ==> -15 <= ParseComponent(s).value <= 255
    ensures ParseComponent(s).Some? && '-' !in s ==> ParseComponent(s).value >= 0
    ensures |s| == 2 && IsHexDigit(s[0]) && IsHexDigit(s[1]) ==>
      ParseComponent(s) == Some(16 * HexValue(s[0]).value + HexValue(s[1]).value)
  {
  }

  /** `str.lstrip('#')`. */
  function LStripHash(s: string): string {
    if s != [] && s[0] == '#' then LStripHash(s[1..]) else s
  }

  /** `lstrip('#')` removes exactly the leading run of '#': what is left is a suffix not starting with '#'. */
  lemma {:induction false} LStripHashSpec(s: string)
    ensures var r := LStripHash(s);
      && |r| <= |s| && r == s[|s| - |r|..]
      && (r == [] || r[0] != '#')
      && forall i :: 0 <= i < |s| - |r| ==> s[i] == '#'
  {
    if s != [] && s[0] == '#' {
      var t := s[1..];
      LStripHashSpec(t);
      var r := LStripHash(t);
      assert LStripHash(s) == r;
      assert s[|s| - |r|..] == t[|t| - |r|..];
      forall i | 0 <= i < |s| - |r|
        ensures s[i] == '#'
      {
        if i > 0 {
          assert s[i] == t[i - 1];
        }
      }
    }
  }

  /** Python's slice `s[i:j]` for 0 <= i <= j: clamped to the string's length. */
  function Slice(s: string, i: nat, j: nat): (r: string)
    requires i <= j
    ensures |r| <= j - i
    ensures j <= |s| ==> r == s[i..j]
  {
    if i >= |s| then [] else if j <= |s| then s[i..j] else s[i..]
  }

  /** The tuple comprehension: it raises as soon as one component does. */
  function Triple(red: Option<int>, green: Option<int>, blue: Option<int>): Option<(int, int, int)> {
    if red.Some? && green.Some? && blue.Some? then Some((red.value, green.value, blue.value)) else None
  }

  /** `_hex_a_rgb`: strip the leading '#'s and read the slices [0:2], [2:4] and [4:6]. */
  function HexToRgb(colour: string): Option<(int, int, int)> {
    var h := LStripHash(colour);
    Triple(ParseComponent(Slice(h, 0, 2)), ParseComponent(Slice(h, 2, 4)), ParseComponent(Slice(h, 4, 6)))
  }

  /** A single '#' before six characters that do not start with '#': the three slices are pairs. */
  lemma HexToRgbOfSix(x: string)
    requires |x| == 6 && x[0] != '#'
    ensures HexToRgb("#" + x) == Triple(ParseComponent(x[0..2]), ParseComponent(x[2..4]), ParseComponent(x[4..6]))
  {
    var s := "#" + x;
    assert s[1..] == x;
    assert LStripHash(s) == LStripHash(x) == x;
  }

  /** Six characters whose three pairs each parse: `_hex_a_rgb` yields the three values. */
  lemma HexToRgbOfPairs(x: string, red: int, green: int, blue: int)
    requires |x| == 6 && x[0] != '#'
    requires ParseComponent(x[0..2]) == Some(red) && ParseComponent(x[2..4]) == Some(green)
    requires ParseComponent(x[4..6]) == Some(blue)
    ensures HexToRgb("#" + x) == Some((red, green, blue))
  {
    HexToRgbOfSix(x);
  }

  /**
   * The components `_hex_a_rgb` yields are at most 255 and at least -15, and none is negative
   * when the colour has no '-'.
   */
  lemma {:induction false} HexToRgbRange(colour: string)
    ensures HexToRgb(colour).Some? ==>
      var (red, green, blue) := HexToRgb(colour).value;
      -15 <= red <= 255 && -15 <= green <= 255 && -15 <= blue <= 255
    ensures HexToRgb(colour).Some? && '-' !in colour ==>
      var (red, green, blue) := HexToRgb(colour).value;
      red >= 0 && green >= 0 && blue >= 0
  {
    var h := LStripHash(colour);
    LStripHashSpec(colour);
    forall i, j | 0 <= i <= j ensures '-' in Slice(h, i, j) ==> '-' in colour {
      if '-' in Slice(h, i, j) {
        var k :| 0 <= k < |Slice(h, i, j)| && Slice(h, i, j)[k] == '-';
        assert h[i + k] == '-';
        assert colour[|colour| - |h| + i + k] == '-';
      }
    }
    ParseComponentRange(Slice(h, 0, 2));
    ParseComponentRange(Slice(h, 2, 4));
    ParseComponentRange(Slice(h, 4, 6));
  }

  /** The hexadecimal digits of n, lowercase, without leading zeros (`format(n, 'x')`). */
  function HexString(n: nat): (s: string)
    ensures |s| >= 1
    ensures n < 16 ==> s == [HexDigits[n]]
    ensures 16 <= n < 256 ==> s == [HexDigits[n / 16], HexDigits[n % 16]]
  {
    if n < 16 then [HexDigits[n]] else HexString(n / 16) + [HexDigits[n % 16]]
  }

  /** `format(n, '02x')`: zero-padded to two characters, the sign counting toward the width. */
  function FormatComponent(n: int): string {
    if n >= 0 then
      var d := HexString(n);
      if |d| < 2 then "0" + d else d
    else "-" + HexString(-n)
  }

  /** `f'#{r:02x}{g:02x}{b:02x}'`. */
  function FormatHex(red: int, green: int, blue: int): string {
    "#" + FormatComponent(red) + FormatComponent(green) + FormatComponent(blue)
  }

  predicate IsByte(n: int) {
    0 <= n < 256
  }

  /** A byte formats as its two lowercase hex digits. */
  lemma FormatByte(n: int)
    requires IsByte(n)
    ensures FormatComponent(n) == [HexDigits[n / 16], HexDigits[n % 16]]
  {
  }

  /** Reading a lowercase digit back gives its position in `HexDigits`. */
  lemma HexDigitRoundTrip(k: nat)
    requires k < 16
    ensures HexValue(HexDigits[k]) == Some(k)
  {
    if k < 10 {
      assert HexDigits[k] as nat == '0' as nat + k;
    } else {
      assert HexDigits[k] as nat == 'a' as nat + (k - 10);
    }
  }

  /** Formatting three bytes gives '#' and six lowercase hex digits. */
  lemma {:induction false} FormatHexShape(red: int, green: int, blue: int)
    requires IsByte(red) && IsByte(green) && IsByte(blue)
    ensures var s := FormatHex(red, green, blue);
      |s| == 7 && s[0] == '#' && forall i :: 1 <= i < 7 ==> s[i] in HexDigits
  {
    FormatByte(red);
    FormatByte(green);
    FormatByte(blue);
  }

  /** The two digits of a byte read back as the byte. */
  lemma ParseByteDigits(n: int)
    requires IsByte(n)
    ensures ParseComponent([HexDigits[n / 16], HexDigits[n % 16]]) == Some(n)
  {
    HexDigitRoundTrip(n / 16);
    HexDigitRoundTrip(n % 16);
  }

  /** Parsing a formatted colour gives its three bytes back. */
  lemma {:induction false} HexRoundTrip(red: int, green: int, blue: int)
    requires IsByte(red) && IsByte(green) && IsByte(blue)
    ensures HexToRgb(FormatHex(red, green, blue)) == Some((red, green, blue))
  {
    FormatByte(red);
    FormatByte(green);
    FormatByte(blue);
    ParseByteDigits(red);
    ParseByteDigits(green);
    ParseByteDigits(blue);
    var x := FormatComponent(red) + FormatComponent(green) + FormatComponent(blue);
    assert FormatHex(red, green, blue) == "#" + x;
    assert x[0..2] == FormatComponent(red);
    assert x[2..4] == FormatComponent(green);
    assert x[4..6] == FormatComponent(blue);
    assert x[0] == HexDigits[red / 16];
    HexToRgbOfPairs(x, red, green, blue);
  }

  /** A digit in lowercase; other characters unchanged. */
  function LowerHex(c: char): char {
    if 'A' <= c <= 'F' then (c as int - 'A' as int + 'a' as int) as char else c
  }

  function Lower(s: string): (r: string)
    ensures |r| == |s| && forall i :: 0 <= i < |s| ==> r[i] == LowerHex(s[i])
  {
    seq(|s|, i requires 0 <= i < |s| => LowerHex(s[i]))
  }

  /** Reading a digit of either case and formatting it again gives the digit in lowercase. */
  lemma HexDigitCanonical(c: char)
    requires IsHexDigit(c)
    ensures HexDigits[HexValue(c).value] == LowerHex(c)
  {
    var v := HexValue(c).value;
    if '0' <= c <= '9' {
      assert HexDigits[v] as int == '0' as int + v;
    } else if 'a' <= c <= 'f' {
      assert HexDigits[v] as int == 'a' as int + (v - 10);
    } else {
      assert HexDigits[v] as int == 'a' as int + (v - 10);
    }
  }

  lemma DivMod16(a: nat, b: nat)
    requires a < 16 && b < 16
    ensures (16 * a + b) / 16 == a && (16 * a + b) % 16 == b
  {
  }

  /** Two digits of either case read as a byte that formats as the same digits in lowercase. */
  lemma PairCanonical(c: char, d: char)
    requires IsHexDigit(c) && IsHexDigit(d)
    ensures var n := 16 * HexValue(c).value + HexValue(d).value;
      IsByte(n) && ParseComponent([c, d]) == Some(n) && FormatComponent(n) == [LowerHex(c), LowerHex(d)]
  {
    var n := 16 * HexValue(c).value + HexValue(d).value;
    DivMod16(HexValue(c).value, HexValue(d).value);
    FormatByte(n);
    HexDigitCanonical(c);
    HexDigitCanonical(d);
  }

  /**
   * A '#' followed by six hex digits of either case parses to three bytes, and formatting them
   * gives back the same colour in lowercase: the round trip in the other direction.
   */
  lemma {:induction false} HexCanonicalRoundTrip(digits: string)
    requires |digits| == 6 && forall i :: 0 <= i < 6 ==> IsHexDigit(digits[i])
    ensures HexToRgb("#" + digits).Some?
    ensures var (red, green, blue) := HexToRgb("#" + digits).value;
      IsByte(red) && IsByte(green) && IsByte(blue) && FormatHex(red, green, blue) == "#" + Lower(digits)
  {
    var pairs := [digits[0..2], digits[2..4], digits[4..6]];
    var red := PairCanonicalSlice(pairs[0]);
    var green := PairCanonicalSlice(pairs[1]);
    var blue := PairCanonicalSlice(pairs[2]);
    HexToRgbOfPairs(digits, red, green, blue);
    LowerSplit(digits);
  }

  /** A pair of digits of either case reads as a byte that formats as the pair in lowercase. */
  lemma PairCanonicalSlice(p: string) returns (n: int)
    requires |p| == 2 && IsHexDigit(p[0]) && IsHexDigit(p[1])
    ensures IsByte(n) && ParseComponent(p) == Some(n) && FormatComponent(n) == Lower(p)
  {
    PairCanonical(p[0], p[1]);
    n := 16 * HexValue(p[0]).value + HexValue(p[1]).value;
    assert p == [p[0], p[1]];
    assert Lower(p) == [LowerHex(p[0]), LowerHex(p[1])];
  }

  lemma LowerSplit(digits: string)
    requires |digits| == 6
    ensures Lower(digits) == Lower(digits[0..2]) + Lower(digits[2..4]) + Lower(digits[4..6])
  {
    var joined := Lower(digits[0..2]) + Lower(digits[2..4]) + Lower(digits[4..6]);
    assert forall i :: 0 <= i < 6 ==> joined[i] == Lower(digits)[i];
  }

  // ---------------------------------------------------------------- interpolation

  /** One component of `_interpolar_color`: `int(c1 + (c2 - c1) * t)`. */
  function Interpolate(c1: int, c2: int, t: real): int {
    Trunc(c1 as real + (c2 - c1) as real * t)
  }

  /** At t = 0 the first component, at t = 1 the second, and in between for t in [0, 1]. */
  lemma {:induction false} InterpolateBounds(c1: int, c2: int, t: real)
    ensures Interpolate(c1, c2, 0.0) == c1
    ensures Interpolate(c1, c2, 1.0) == c2
    ensures 0.0 <= t <= 1.0 ==>
      (if c1 <= c2 then c1 else c2) <= Interpolate(c1, c2, t) <= (if c1 <= c2 then c2 else c1)
  {
    InterpolateEnds(c1, c2);
    if 0.0 <= t <= 1.0 {
      var x := c1 as real + (c2 - c1) as real * t;
      LinearBetween(c1 as real, c2 as real, (c2 - c1) as real, t);
      if c1 <= c2 {
        TruncBetween(x, c1, c2);
      } else {
        TruncBetween(x, c2, c1);
      }
    }
  }

  lemma InterpolateEnds(c1: int, c2: int)
    ensures Interpolate(c1, c2, 0.0) == c1
    ensures Interpolate(c1, c2, 1.0) == c2
  {
    assert c1 as real + (c2 - c1) as real * 0.0 == c1 as real;
    assert c1 as real + (c2 - c1) as real * 1.0 == c2 as real;
    TruncOfInt(c1);
    TruncOfInt(c2);
  }

  /** A point on the segment from a to b, with d the step b - a, lies between the two. */
  lemma LinearBetween(a: real, b: real, d: real, t: real)
    requires d == b - a && 0.0 <= t <= 1.0
    ensures a <= b ==> a <= a + d * t <= b
    ensures b < a ==> b <= a + d * t <= a
  {
    ScaleBetween(d, t);
  }

  /** Scaling by a factor in [0, 1] keeps a value between 0 and itself. */
  lemma ScaleBetween(d: real, t: real)
    requires 0.0 <= t <= 1.0
    ensures d >= 0.0 ==> 0.0 <= d * t <= d
    ensures d <= 0.0 ==> d <= d * t <= 0.0
  {
    if d >= 0.0 {
      NonNegativeProduct(d, t);
      NonNegativeProduct(d, 1.0 - t);
    } else {
      NonNegativeProduct(-d, t);
      NonNegativeProduct(-d, 1.0 - t);
    }
  }

  /**
   * `_interpolar_color(t)` between two colours: None where either colour fails to parse (the
   * ValueError the caller's `try` swallows).
   */
  function InterpolateColour(start: string, end: string, t: real): (r: Option<string>)
    ensures r.Some? <==> HexToRgb(start).Some? && HexToRgb(end).Some?
  {
    match (HexToRgb(start), HexToRgb(end))
    case (Some((r1, g1, b1)), Some((r2, g2, b2))) =>
      Some(FormatHex(Interpolate(r1, r2, t), Interpolate(g1, g2, t), Interpolate(b1, b2, t)))
    case _ => None
  }

  /**
   * Between two well-formed colours and for t in [0, 1], the interpolated colour is again '#' and
   * six lowercase hex digits; at t = 0 it is the start colour in lowercase, at t = 1 the end one.
   */
  lemma {:induction false} InterpolateColourEndpoints(startDigits: string, endDigits: string, t: real)
    requires |startDigits| == 6 && forall i :: 0 <= i < 6 ==> IsHexDigit(startDigits[i])
    requires |endDigits| == 6 && forall i :: 0 <= i < 6 ==> IsHexDigit(endDigits[i])
    ensures InterpolateColour("#" + startDigits, "#" + endDigits, 0.0) == Some("#" + Lower(startDigits))
    ensures InterpolateColour("#" + startDigits, "#" + endDigits, 1.0) == Some("#" + Lower(endDigits))
    ensures 0.0 <= t <= 1.0 ==>
      var c := InterpolateColour("#" + startDigits, "#" + endDigits, t).value;
      |c| == 7 && c[0] == '#' && forall i :: 1 <= i < 7 ==> c[i] in HexDigits
  {
    HexCanonicalRoundTrip(startDigits);
    HexCanonicalRoundTrip(endDigits);
    var (r1, g1, b1) := HexToRgb("#" + startDigits).value;
    var (r2, g2, b2) := HexToRgb("#" + endDigits).value;
    InterpolateBounds(r1, r2, t);
    InterpolateBounds(g1, g2, t);
    InterpolateBounds(b1, b2, t);
    if 0.0 <= t <= 1.0 {
      FormatHexShape(Interpolate(r1, r2, t), Interpolate(g1, g2, t), Interpolate(b1, b2, t));
    }
  }

  // ---------------------------------------------------------------- fade in

  const FadeSteps: nat := 20

  /** `AnimacionFadeIn`: the alphas given to the window, in order, and the callback runs. */
  class FadeIn {
    const hasCallback: bool
    var step: nat
    var alphas: seq<real>
    var callbackRuns: nat
    var scheduled: bool   // an `after` call to `_animar` is pending

    ghost predicate Valid()
      reads this
    {
      step <= FadeSteps
    }

    constructor (hasCallback: bool)
      ensures Valid() && this.hasCallback == hasCallback
      ensures step == 0 && alphas == [] && callbackRuns == 0 && !scheduled
    {
      this.hasCallback := hasCallback;
      step, alphas, callbackRuns, scheduled := 0, [], 0, false;
    }

    /**
     * `_animar`: before the last step, alpha step/20 and one more step scheduled; then alpha
     * exactly 1.0, the callback, and nothing more scheduled.
     */
    method Animate()
      requires Valid()
      modifies this
      ensures Valid()
      ensures old(step) < FadeSteps ==>
        && step == old(step) + 1 && scheduled && callbackRuns == old(callbackRuns)
        && alphas == old(alphas) + [old(step) as real / FadeSteps as real]
      ensures old(step) >= FadeSteps ==>
        && step == old(step) && !scheduled && alphas == old(alphas) + [1.0]
        && callbackRuns == old(callbackRuns) + (if hasCallback then 1 else 0)
    {
      if step < FadeSteps {
        alphas := alphas + [step as real / FadeSteps as real];
        step := step + 1;
        scheduled := true;
      } else {
        alphas := alphas + [1.0];
        scheduled := false;
        if hasCallback {
          callbackRuns := callbackRuns + 1;
        }
      }
    }

    /**
     * `iniciar`: alpha 0.0, then the first `_animar`. The step is not reset, so a finished
     * fade-in started again shows 0.0, then 1.0, and runs the callback again.
     */
    method Start()
      requires Valid()
      modifies this
      ensures Valid()
      ensures old(step) < FadeSteps ==>
        step == old(step) + 1 && alphas == old(alphas) + [0.0, old(step) as real / FadeSteps as real]
        && scheduled && callbackRuns == old(callbackRuns)
      ensures old(step) >= FadeSteps ==>
        && step == old(step) && !scheduled && alphas == old(alphas) + [0.0, 1.0]
        && callbackRuns == old(callbackRuns) + (if hasCallback then 1 else 0)
    {
      alphas := alphas + [0.0];
      Animate();
    }

    /**
     * A fresh fade-in started and left to run until nothing is scheduled: the alphas are 0.0,
     * then k/20 for k = 0..19, then exactly 1.0, and the callback runs once.
     */
    method Play()
      requires Valid() && step == 0 && alphas == [] && callbackRuns == 0
      modifies this
      ensures alphas == [0.0] + seq(FadeSteps, k => k as real / FadeSteps as real) + [1.0]
      ensures callbackRuns == (if hasCallback then 1 else 0) && !scheduled
    {
      Start();
      while scheduled
        invariant Valid()
        invariant scheduled ==>
          callbackRuns == 0 && alphas == [0.0] + seq(step, k => k as real / FadeSteps as real)
        invariant !scheduled ==>
          && alphas == [0.0] + seq(FadeSteps, k => k as real / FadeSteps as real) + [1.0]
          && callbackRuns == (if hasCallback then 1 else 0)
        decreases FadeSteps - step + (if scheduled then 1 else 0)
      {
        ghost var before := alphas;
        Animate();
        if scheduled {
          assert seq(step, k => k as real / FadeSteps as real)
              == seq(step - 1, k => k as real / FadeSteps as real) + [(step - 1) as real / FadeSteps as real];
        } else {
          assert step == FadeSteps;
        }
      }
    }
  }

  // ---------------------------------------------------------------- pulse

  const PulseSteps: nat := 30

  /**
   * The background after one pulse step: the interpolated colour, or the previous background
   * when a colour fails to parse (the caller's `try` swallows the error).
   */
  function NextBackground(previous: Option<string>, start: string, end: string, progress: real): Option<string> {
    var c := InterpolateColour(start, end, progress);
    if c.Some? then c else previous
  }

  /**
   * Between two well-formed colours a pulse step shows the interpolated colour, a valid
   * '#rrggbb' string for progress in [0, 1]; with a malformed colour the background is kept.
   */
  lemma {:induction false} NextBackgroundSpec(
    previous: Option<string>, startDigits: string, endDigits: string, progress: real, start: string)
    requires |startDigits| == 6 && forall i :: 0 <= i < 6 ==> IsHexDigit(startDigits[i])
    requires |endDigits| == 6 && forall i :: 0 <= i < 6 ==> IsHexDigit(endDigits[i])
    ensures NextBackground(previous, "#" + startDigits, "#" + endDigits, progress)
            == InterpolateColour("#" + startDigits, "#" + endDigits, progress)
    ensures HexToRgb(start).None? ==> NextBackground(previous, start, "#" + endDigits, progress) == previous
  {
    HexCanonicalRoundTrip(startDigits);
    HexCanonicalRoundTrip(endDigits);
  }

  /** `AnimacionPulso`: a step counter cycling through 30 steps while active. */
  class Pulse {
    const startColour: string
    const endColour: string
    var step: nat
    var active: bool
    var background: Option<string>   // the widget's last background set by the pulse

    ghost predicate Valid()
      reads this
    {
      step < PulseSteps
    }

    constructor (startColour: string, endColour: string)
      ensures Valid() && this.startColour == startColour && this.endColour == endColour
      ensures step == 0 && !active && background.None?
    {
      this.startColour, this.endColour := startColour, endColour;
      step, active, background := 0, false, None;
    }

    /**
     * `_animar`. `progress` is `sin(step / 30 * pi)`, taken as given. Inactive, nothing changes;
     * active, the background is interpolated (kept when a colour fails to parse, as the `try`
     * swallows it) and the step advances modulo 30.
     */
    method Animate(progress: real)
      requires Valid()
      modifies this
      ensures Valid()
      ensures !old(active) ==> unchanged(this)
      ensures old(active) ==>
        && active && step == (old(step) + 1) % PulseSteps
        && background == NextBackground(old(background), startColour, endColour, progress)
    {
      if !active {
        return;
      }
      background := NextBackground(background, startColour, endColour, progress);
      step := (step + 1) % PulseSteps;
    }

    /** `iniciar`: active, step reset to 0, then the first `_animar` (which moves it to 1). */
    method Start(progress: real)
      requires Valid()
      modifies this
      ensures Valid() && active && step == 1
      ensures background == NextBackground(old(background), startColour, endColour, progress)
    {
      active := true;
      step := 0;
      Animate(progress);
    }

    /** `detener`: inactive, background back to the start colour, step kept. */
    method Stop()
      requires Valid()
      modifies this
      ensures Valid() && !active && background == Some(startColour) && step == old(step)
    {
      active := false;
      background := Some(startColour);
    }
  }

  // ---------------------------------------------------------------- slide

  const SlideSteps: nat := 25

  /** The smoothstep easing of `AnimacionSlide`: t * t * (3 - 2 * t). */
  function Ease(t: real): real {
    t * t * (3.0 - 2.0 * t)
  }

  /** Ease(0) = 0, Ease(1) = 1, and Ease stays in [0, 1] on [0, 1]. */
  lemma EaseBounds(t: real)
    ensures Ease(0.0) == 0.0 && Ease(1.0) == 1.0
    ensures 0.0 <= t <= 1.0 ==> 0.0 <= Ease(t) <= 1.0
  {
    if 0.0 <= t <= 1.0 {
      NonNegativeProduct(t * t, 3.0 - 2.0 * t);
      assert 1.0 - Ease(t) == (1.0 - t) * (1.0 - t) * (1.0 + 2.0 * t);
      NonNegativeProduct((1.0 - t) * (1.0 - t), 1.0 + 2.0 * t);
    }
  }

  lemma NonNegativeProduct(a: real, b: real)
    requires a >= 0.0 && b >= 0.0
    ensures a * b >= 0.0
  {
  }

  /** The position placed at step k of a slide from (x0, y0) to (x1, y1). */
  function SlidePosition(x0: int, y0: int, x1: int, y1: int, k: nat): (int, int) {
    var e := Ease(k as real / SlideSteps as real);
    (Trunc(x0 as real + (x1 - x0) as real * e), Trunc(y0 as real + (y1 - y0) as real * e))
  }

  /** Each coordinate of a slide position is the interpolation of that coordinate at the eased step. */
  lemma SlidePositionIsInterpolation(x0: int, y0: int, x1: int, y1: int, k: nat)
    ensures SlidePosition(x0, y0, x1, y1, k).0 == Interpolate(x0, x1, Ease(k as real / SlideSteps as real))
    ensures SlidePosition(x0, y0, x1, y1, k).1 == Interpolate(y0, y1, Ease(k as real / SlideSteps as real))
  {
  }

  /** Every intermediate position lies between the start and the target; step 0 is the start. */
  lemma {:induction false} SlidePositionBetween(x0: int, y0: int, x1: int, y1: int, k: nat)
    requires k <= SlideSteps
    ensures SlidePosition(x0, y0, x1, y1, 0) == (x0, y0)
    ensures var (x, y) := SlidePosition(x0, y0, x1, y1, k);
      && (if x0 <= x1 then x0 else x1) <= x <= (if x0 <= x1 then x1 else x0)
      && (if y0 <= y1 then y0 else y1) <= y <= (if y0 <= y1 then y1 else y0)
  {
    EaseBounds(0.0);
    var e := Ease(k as real / SlideSteps as real);
    EaseBounds(k as real / SlideSteps as real);
    InterpolateBounds(x0, x1, e);
    InterpolateBounds(y0, y1, e);
    SlidePositionIsInterpolation(x0, y0, x1, y1, 0);
    SlidePositionIsInterpolation(x0, y0, x1, y1, k);
    assert Interpolate(x0, x1, 0.0) == x0;
    assert Interpolate(y0, y1, 0.0) == y0;
  }

  /** `AnimacionSlide`: the positions placed, in order, and the callback runs. */
  class Slide {
    const hasCallback: bool
    var step: nat
    var x0: int
    var y0: int
    var x1: int
    var y1: int
    var placed: seq<(int, int)>
    var callbackRuns: nat
    var scheduled: bool

    ghost predicate Valid()
      reads this
    {
      step <= SlideSteps
    }

    constructor (hasCallback: bool)
      ensures Valid() && this.hasCallback == hasCallback
      ensures step == 0 && placed == [] && callbackRuns == 0 && !scheduled
    {
      this.hasCallback := hasCallback;
      step, x0, y0, x1, y1 := 0, 0, 0, 0, 0;
      placed, callbackRuns, scheduled := [], 0, false;
    }

    /**
     * `_animar`: before the last step, the eased position for the current step; then exactly the
     * target, the callback, and nothing more scheduled.
     */
    method Animate()
      requires Valid()
      modifies this
      ensures Valid()
      ensures x0 == old(x0) && y0 == old(y0) && x1 == old(x1) && y1 == old(y1)
      ensures old(step) < SlideSteps ==>
        && step == old(step) + 1 && scheduled && callbackRuns == old(callbackRuns)
        && placed == old(placed) + [SlidePosition(x0, y0, x1, y1, old(step))]
      ensures old(step) >= SlideSteps ==>
        && step == old(step) && !scheduled && placed == old(placed) + [(x1, y1)]
        && callbackRuns == old(callbackRuns) + (if hasCallback then 1 else 0)
    {
      if step < SlideSteps {
        placed := placed + [SlidePosition(x0, y0, x1, y1, step)];
        step := step + 1;
        scheduled := true;
      } else {
        placed := placed + [(x1, y1)];
        scheduled := false;
        if hasCallback {
          callbackRuns := callbackRuns + 1;
        }
      }
    }

    /**
     * `iniciar(x_final, y_final)` with the widget at (x, y): records both ends and runs the first
     * `_animar`. The step counter is not reset, so a finished slide started again jumps to the
     * target.
     */
    method Start(x: int, y: int, xTarget: int, yTarget: int)
      requires Valid()
      modifies this
      ensures Valid()
      ensures x0 == x && y0 == y && x1 == xTarget && y1 == yTarget
      ensures old(step) < SlideSteps ==>
        && step == old(step) + 1 && scheduled && callbackRuns == old(callbackRuns)
        && placed == old(placed) + [SlidePosition(x, y, xTarget, yTarget, old(step))]
      ensures old(step) >= SlideSteps ==>
        && step == old(step) && !scheduled && placed == old(placed) + [(xTarget, yTarget)]
        && callbackRuns == old(callbackRuns) + (if hasCallback then 1 else 0)
    {
      x0, y0, x1, y1 := x, y, xTarget, yTarget;
      Animate();
    }

    /**
     * A fresh slide started and left to run: the eased positions for steps 0..24, each between the
     * start and the target, then exactly the target; the callback runs once.
     */
    method Play(x: int, y: int, xTarget: int, yTarget: int)
      requires Valid() && step == 0 && placed == [] && callbackRuns == 0
      modifies this
      ensures placed == seq(SlideSteps, k requires 0 <= k => SlidePosition(x, y, xTarget, yTarget, k)) + [(xTarget, yTarget)]
      ensures placed[0] == (x, y) && placed[|placed| - 1] == (xTarget, yTarget)
      ensures callbackRuns == (if hasCallback then 1 else 0) && !scheduled
    {
      Start(x, y, xTarget, yTarget);
      assert placed == seq(step, k requires 0 <= k => SlidePosition(x, y, xTarget, yTarget, k));
      while scheduled
        invariant Valid()
        invariant x0 == x && y0 == y && x1 == xTarget && y1 == yTarget
        invariant scheduled ==>
          callbackRuns == 0 && placed == seq(step, k requires 0 <= k => SlidePosition(x, y, xTarget, yTarget, k))
        invariant !scheduled ==>
          && placed == seq(SlideSteps, k requires 0 <= k => SlidePosition(x, y, xTarget, yTarget, k)) + [(xTarget, yTarget)]
          && callbackRuns == (if hasCallback then 1 else 0)
        decreases SlideSteps - step + (if scheduled then 1 else 0)
      {
        Animate();
        if scheduled {
          assert seq(step, k requires 0 <= k => SlidePosition(x, y, xTarget, yTarget, k))
              == seq(step - 1, k requires 0 <= k => SlidePosition(x, y, xTarget, yTarget, k))
                 + [SlidePosition(x, y, xTarget, yTarget, step - 1)];
        } else {
          assert step == SlideSteps;
        }
      }
      SlidePositionBetween(x, y, xTarget, yTarget, 0);
    }
  }

  // ---------------------------------------------------------------- rotation

  /** `AnimacionRotacion`: an angle advancing by 10 degrees modulo 360 while active. */
  class Rotation {
    var angle: nat
    var active: bool

    ghost predicate Valid()
      reads this
    {
      angle < 360 && angle % 10 == 0
    }

    constructor ()
      ensures Valid() && angle == 0 && !active
    {
      angle, active := 0, false;
    }

    /** `_rotar`: inactive, nothing; active, ten degrees further, modulo 360. */
    method Rotate()
      requires Valid()
      modifies this
      ensures Valid()
      ensures !old(active) ==> unchanged(this)
      ensures old(active) ==> active && angle == (old(angle) + 10) % 360
    {
      if !active {
        return;
      }
      angle := (angle + 10) % 360;
    }

    /** `iniciar`: active, then the first `_rotar`. */
    method Start()
      requires Valid()
      modifies this
      ensures Valid() && active && angle == (old(angle) + 10) % 360
    {
      active := true;
      Rotate();
    }

    /** `detener`. */
    method Stop()
      requires Valid()
      modifies this
      ensures Valid() && !active && angle == old(angle)
    {
      active := false;
    }
  }

  // ---------------------------------------------------------------- registry

  /** `GestorAnimaciones`: the running pulses, keyed by the widget's identity. */
  class AnimationManager {
    var pulses: map<nat, Pulse>

    /** Every registered pulse is well formed, and no pulse is registered for two widgets. */
    ghost predicate Valid()
      reads this, pulses.Values
    {
      && (forall w :: w in pulses ==> pulses[w].Valid())
      && (forall v, w :: v in pulses && w in pulses && v != w ==> pulses[v] != pulses[w])
    }

    constructor ()
      ensures Valid() && pulses == map[]
    {
      pulses := map[];
    }

    /**
     * `pulso`: stop the widget's running pulse if it has one, then register and start a new one,
     * with the panel background and the blue accent as default colours. `progress` is the sine
     * value of the first step.
     */
    method StartPulse(widget: nat, startColour: Option<string>, endColour: Option<string>, progress: real)
      returns (p: Pulse)
      requires Valid()
      modifies this, pulses.Values
      ensures Valid()
      ensures fresh(p) && pulses == old(pulses)[widget := p]
      ensures p.active && p.step == 1
      ensures p.background == NextBackground(None, p.startColour, p.endColour, progress)
      ensures p.startColour == (if startColour.Some? then startColour.value else BgPanel)
      ensures p.endColour == (if endColour.Some? then endColour.value else AccentBlue)
      ensures widget in old(pulses) ==>
        !old(pulses)[widget].active && old(pulses)[widget].background == Some(old(pulses)[widget].startColour)
      ensures forall w :: w in old(pulses) && w != widget ==> unchanged(old(pulses)[w])
    {
      var from := if startColour.Some? then startColour.value else BgPanel;
      var to := if endColour.Some? then endColour.value else AccentBlue;
      if widget in pulses {
        pulses[widget].Stop();
      }
      p := new Pulse(from, to);
      pulses := pulses[widget := p];
      p.Start(progress);
    }

    /** `detener_pulso`: stop and forget the widget's pulse; nothing when it has none. */
    method StopPulse(widget: nat)
      requires Valid()
      modifies this, pulses.Values
      ensures Valid()
      ensures widget !in old(pulses) ==> unchanged(this) && unchanged(old(pulses).Values)
      ensures widget in old(pulses) ==>
        && pulses == old(pulses) - {widget} && !old(pulses)[widget].active
        && old(pulses)[widget].background == Some(old(pulses)[widget].startColour)
      ensures forall w :: w in old(pulses) && w != widget ==> unchanged(old(pulses)[w])
    {
      if widget in pulses {
        pulses[widget].Stop();
        pulses := pulses - {widget};
      }
    }

    /** `fade_in`: a new fade-in, started; the registry is not involved. */
    method StartFadeIn(hasCallback: bool) returns (f: FadeIn)
      ensures fresh(f) && f.Valid() && f.step == 1 && f.alphas == [0.0, 0.0] && f.scheduled
      ensures f.callbackRuns == 0 && f.hasCallback == hasCallback
    {
      f := new FadeIn(hasCallback);
      f.Start();
    }

    /** `slide`: a new slide from the widget's position (x, y), started. */
    method StartSlide(x: int, y: int, xTarget: int, yTarget: int, hasCallback: bool) returns (s: Slide)
      ensures fresh(s) && s.Valid() && s.step == 1 && s.placed == [(x, y)] && s.scheduled
      ensures s.x0 == x && s.y0 == y && s.x1 == xTarget && s.y1 == yTarget
      ensures s.callbackRuns == 0 && s.hasCallback == hasCallback
    {
      s := new Slide(hasCallback);
      s.Start(x, y, xTarget, yTarget);
      SlidePositionBetween(x, y, xTarget, yTarget, 0);
    }
  }
}
