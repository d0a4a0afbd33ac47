/** Small shared vocabulary: optional values, bytes, 16-bit samples and a
    first-match search over a sequence. */
module Common {

  datatype Option<+T> = None | Some(value: T)

  /** An unsigned 8-bit value, as read from the capture pipe. */
  newtype byte = x: int | 0 <= x < 0x100

  /** A signed 16-bit PCM sample (numpy's int16). */
  newtype int16 = x: int | -0x8000 <= x < 0x8000

  function Abs(x: real): (r: real)
    ensures r >= 0.0 && (r == x || r == -x)
  {
    if x < 0.0 then -x else x
  }

  /** Python's `int(x)` on a float: truncation toward zero. */
  function Trunc(x: real): (r: int)
    ensures x >= 0.0 ==> r as real <= x < r as real + 1.0
    ensures x < 0.0 ==> r as real - 1.0 < x <= r as real
  {
    if x >= 0.0 then x.Floor else -((-x).Floor)
  }

  /** The index of the first element of `s` that satisfies `p`, as a Python
      `for ... if p(x): return x` loop finds it. */
  function FirstIndex<T>(s: seq<T>, p: T -> bool): (r: Option<nat>)
    ensures r.Some? ==> r.value < |s| && p(s[r.value])
    ensures r.Some? ==> forall j :: 0 <= j < r.value ==> !p(s[j])
    ensures r.None? ==> forall j :: 0 <= j < |s| ==> !p(s[j])
  {
    if s == [] then None
    else if p(s[0]) then Some(0)
    else match FirstIndex(s[1..], p)
      case None => None
      case Some(k) => Some(k + 1)
  }
}
