/** Option and Result for the error paths of the Python code (exceptions and `None` returns). */
module Outcomes {

  datatype Option<+T> = None | Some(value: T)

  datatype Result<+T, +E> = Ok(value: T) | Err(error: E)
}

/** Python's numeric conversions that the code relies on. */
module Numerics {

  /** Python's `int()` on a float: truncation toward zero, the integer within 1 of x on 0's side. */
  function Trunc(x: real): (t: int)
    ensures x >= 0.0 ==> 0 <= t && t as real <= x < t as real + 1.0
    ensures x < 0.0 ==> t <= 0 && t as real - 1.0 < x <= t as real
  {
    if x >= 0.0 then x.Floor else -((-x).Floor)
  }

  /** Truncating a value that lies between two integers stays between them. */
  lemma TruncBetween(x: real, lo: int, hi: int)
    requires lo as real <= x <= hi as real
    ensures lo <= Trunc(x) <= hi
  {
    if x < 0.0 {
      assert (-x).Floor as real <= -x;
      assert -hi <= (-x).Floor;
    }
  }

  /** Truncating an integral value gives it back. */
  lemma TruncOfInt(n: int)
    ensures Trunc(n as real) == n
  {
  }
}

/** Values copied from utils/constantes.py that the decision rules use. */
module Constants {

  /** Class order of the trained network: DEFECT is class 0, OK is class 1. */
  const Classes: seq<string> := ["DEFECT", "OK"]
  const DefectLabel: string := "DEFECT"
  const OkLabel: string := "OK"

  /** The only decision thresholds the code compares against. */
  const HighConfidence: real := 0.8
  const Majority: real := 0.5

  /** Colours of the `COLORES` table, spelt exactly as in the constants file. */
  const BgPanel: string := "#353535"
  const BgSecondary: string := "#2b2b2b"
  const AccentBlue: string := "#007BFF"
  const ValidationGreen: string := "#43A047"
  const DefectRed: string := "#E53935"
  const Green: string := "#00C853"
  const Red: string := "#E53935"
  const Yellow: string := "#FDD835"
  const TextPrimary: string := "#FFFFFF"
  const TextSecondary: string := "#b0b0b0"
  const BorderActive: string := "#007BFF"
}
