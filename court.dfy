/** Dimensions of the volleyball court (`COURT` in main.js), in metres.
    The court is centred on the origin: x runs across the court, z along
    it, and the net stands on the plane z = 0. */
module Court {
  const HalfWidth: real := 4.5
  const HalfLength: real := 9.0

  function Min(a: real, b: real): (r: real)
    ensures r <= a && r <= b && (r == a || r == b)
  {
    if a <= b then a else b
  }

  function Max(a: real, b: real): (r: real)
    ensures r >= a && r >= b && (r == a || r == b)
  {
    if a >= b then a else b
  }

  function Abs(a: real): (r: real)
    ensures r >= 0.0 && (r == a || r == -a)
  {
    if a < 0.0 then -a else a
  }

  /** `THREE.MathUtils.clamp(value, min, max)`, which is
      `Math.max(min, Math.min(max, value))`. */
  function Clamp(value: real, lo: real, hi: real): (r: real)
    ensures r >= lo
    ensures lo <= hi ==> r <= hi
    ensures lo <= value <= hi ==> r == value
    ensures value < lo ==> r == lo
    ensures lo <= hi && hi < value ==> r == hi
  {
    Max(lo, Min(hi, value))
  }
}
