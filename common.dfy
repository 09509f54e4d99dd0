/** Value types and small real-number helpers shared by every part of the engine. */
module Common {

  datatype Option<T> = None | Some(value: T)

  /** The two ends of the table: the human player (bottom of the canvas) and the computer (top). */
  datatype Side = Player | AI

  datatype Point = Point(x: real, y: real)

  /** An axis-aligned rectangle in canvas coordinates (y grows downwards). */
  datatype Rect = Rect(x: real, y: real, width: real, height: real)

  /** The playing surface and the height of the net above it. */
  datatype Table = Table(x: real, y: real, width: real, height: real, netHeight: real)

  /** Colours the engine attaches to hit effects. */
  const WallColor: string := "#fff"
  const NetColor: string := "#ff6b6b"
  const PlayerColor: string := "#4f46e5"
  const AIColor: string := "#dc2626"

  /** Math.abs */
  function Abs(r: real): (a: real)
    ensures a >= 0.0 && (a == r || a == -r)
  {
    if r < 0.0 then -r else r
  }

  /** Math.max of two reals */
  function Max(a: real, b: real): (m: real)
    ensures m >= a && m >= b && (m == a || m == b)
  {
    if a >= b then a else b
  }

  /** Math.min of two reals */
  function Min(a: real, b: real): (m: real)
    ensures m <= a && m <= b && (m == a || m == b)
  {
    if a <= b then a else b
  }

  /** Math.sign: -1, 0 or 1 */
  function Sign(r: real): (s: real)
    ensures s * r == Abs(r)
    ensures r != 0.0 ==> Abs(s) == 1.0
    ensures r == 0.0 ==> s == 0.0
  {
    if r > 0.0 then 1.0 else if r < 0.0 then -1.0 else 0.0
  }

  /** Math.max(lo, Math.min(hi, v)): the clamp used for both paddles. */
  function Clamp(lo: real, hi: real, v: real): (r: real)
    ensures lo <= hi ==> lo <= r <= hi
    ensures lo <= v <= hi ==> r == v
    ensures v < lo ==> r == lo
    ensures lo <= hi < v ==> r == hi
  {
    Max(lo, Min(hi, v))
  }
}
