/** Values shared by the game-logic models: vectors, optional values and results,
    and the clamping and minimum helpers of Unity's `Mathf`. Floating-point
    numbers are modelled as `real`; rounding is not modelled. */
module Common {

  /** A 3D vector (Unity's `Vector3`), the y axis pointing up. */
  datatype Vec3 = Vec3(x: real, y: real, z: real)

  const Zero := Vec3(0.0, 0.0, 0.0)

  function Scale(v: Vec3, k: real): Vec3 {
    Vec3(v.x * k, v.y * k, v.z * k)
  }

  function Dot(u: Vec3, v: Vec3): real {
    u.x * v.x + u.y * v.y + u.z * v.z
  }

  /** `v.sqrMagnitude` */
  function SqrMagnitude(v: Vec3): real {
    Dot(v, v)
  }

  /** The vector with its vertical component set to 0 (`v.y = 0f`). */
  function Horizontal(v: Vec3): (h: Vec3)
    ensures h.y == 0.0 && h.x == v.x && h.z == v.z
  {
    v.(y := 0.0)
  }

  /** `n` may be what `v.normalized` returns: the zero vector (Unity returns it for
      a vector too short to normalise), or a positive multiple of `v` of length 1.
      Square roots are not modelled, so callers supply `n` and this says which
      vectors qualify. */
  ghost predicate NormalOf(n: Vec3, v: Vec3) {
    n == Zero || exists k: real :: k > 0.0 && n == Scale(v, k) && SqrMagnitude(n) == 1.0
  }

  datatype Option<T> = None | Some(value: T)

  /** `obj?.SetActive(value)` on an optional flag: `None` stays `None`. */
  function SetIfAssigned(flag: Option<bool>, value: bool): (r: Option<bool>)
    ensures r.Some? == flag.Some? && (r.Some? ==> r.value == value)
  {
    if flag.Some? then Some(value) else None
  }

  /** The outcome of an operation that the source lets throw. */
  datatype Result<T> = Success(value: T) | Failure(error: string)

  /** `Mathf.Min` */
  function Min(a: real, b: real): (m: real)
    ensures m <= a && m <= b && (m == a || m == b)
  {
    if a < b then a else b
  }

  /** `Mathf.Clamp(value, lo, hi)` on floats: raise to `lo`, else lower to `hi`. */
  function Clamp(value: real, lo: real, hi: real): (r: real)
    ensures lo <= hi ==> lo <= r <= hi
    ensures lo <= value <= hi ==> r == value
    ensures value < lo ==> r == lo
  {
    if value < lo then lo else if value > hi then hi else value
  }

  /** `Mathf.Clamp(value, lo, hi)` on ints. */
  function ClampInt(value: int, lo: int, hi: int): (r: int)
    ensures lo <= hi ==> lo <= r <= hi
    ensures lo <= value <= hi ==> r == value
    ensures value > hi && lo <= hi ==> r == hi
  {
    if value < lo then lo else if value > hi then hi else value
  }
}
