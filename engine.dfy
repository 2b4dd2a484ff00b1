/// Value types of the game engine and the few `Mathf` operations the game's
/// scripts lean on. Unity's floats are modelled as `real`; Unity tags as strings.
module Engine {

  datatype Vec2 = Vec2(x: real, y: real)

  datatype Vec3 = Vec3(x: real, y: real, z: real)

  /// A colour with channels on the 0..1 scale the engine uses.
  datatype Color = Color(r: real, g: real, b: real, a: real)

  /// A GameObject tag, compared by `CompareTag`.
  type Tag = string

  /** `Mathf.Clamp`: a value below `min` becomes `min`, else a value above `max`
      becomes `max`. The lower bound is tested first, so with `min > max` the
      result is always one of the two bounds. */
  function Clamp(value: real, min: real, max: real): (r: real)
    ensures min <= max ==> min <= r <= max
    ensures min <= value <= max ==> r == value
    ensures r == value || r == min || r == max
    ensures value < min ==> r == min
    ensures min <= value && max < value ==> r == max
  {
    if value < min then min else if value > max then max else value
  }

  function Max(a: real, b: real): (r: real)
    ensures r >= a && r >= b && (r == a || r == b)
  {
    if a >= b then a else b
  }

  /** `Mathf.Lerp`: the interpolation parameter is clamped to 0..1 first, so
      parameters outside that range give the nearer endpoint. */
  function Lerp(a: real, b: real, t: real): (r: real)
    ensures t <= 0.0 ==> r == a
    ensures t >= 1.0 ==> r == b
    ensures t == 0.5 ==> r == (a + b) / 2.0
  {
    a + (b - a) * Clamp(t, 0.0, 1.0)
  }

  /** The countdown step every timer of the game uses: subtract the frame time
      and stop at zero (`t -= Time.deltaTime; t = Mathf.Max(0, t)`). */
  function CountDown(t: real, dt: real): (r: real)
    requires dt >= 0.0
    ensures r >= 0.0
    ensures t >= 0.0 ==> r <= t
    ensures r == 0.0 || r == t - dt
    ensures t - dt >= 0.0 ==> r == t - dt
  {
    Max(0.0, t - dt)
  }

  /// A run of frame times, none negative.
  predicate FrameTimes(dts: seq<real>)
  {
    forall k :: 0 <= k < |dts| ==> dts[k] >= 0.0
  }

  /// The time that passes over a run of frames.
  function Elapsed(dts: seq<real>): real
    decreases |dts|
  {
    if dts == [] then 0.0 else dts[0] + Elapsed(dts[1..])
  }

  lemma {:induction false} ElapsedNonNegative(dts: seq<real>)
    requires FrameTimes(dts)
    ensures Elapsed(dts) >= 0.0
    decreases |dts|
  {
    if dts != [] {
      ElapsedNonNegative(dts[1..]);
    }
  }
}
