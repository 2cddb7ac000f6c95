/**
 * Vectors and the foreign numeric functions the track code relies on.
 *
 * The Rust code computes with `f32`/`f64` through Bevy's `Vec2`/`Vec3`, the
 * standard library's `sin`, `cos`, `exp` and `ceil`, and the `noise` crate's
 * Perlin generator.  Here vectors hold reals; `ceil` is exact; `sin`, `cos`,
 * `exp` and Perlin noise are functions handed in from outside, about which a
 * member knows only what its own hypotheses say.
 */
module Maths {

  datatype Vec2 = Vec2(x: real, y: real)

  datatype Vec3 = Vec3(x: real, y: real, z: real)

  function Add(a: Vec3, b: Vec3): Vec3
  {
    Vec3(a.x + b.x, a.y + b.y, a.z + b.z)
  }

  function Scale(a: Vec3, s: real): Vec3
  {
    Vec3(a.x * s, a.y * s, a.z * s)
  }

  function Dot(a: Vec3, b: Vec3): real
  {
    a.x * b.x + a.y * b.y + a.z * b.z
  }

  const ZERO: Vec3 := Vec3(0.0, 0.0, 0.0)

  /** `Vec3::Z` */
  const UNIT_Z: Vec3 := Vec3(0.0, 0.0, 1.0)

  /** `std::f32::consts::PI`, as a real. */
  const PI: real := 3.14159265358979323846

  function Abs(x: real): (r: real)
    ensures r >= 0.0 && (r == x || r == -x)
  {
    if x < 0.0 then -x else x
  }

  /** `f32::ceil`: the least integer not below `x`. */
  function Ceil(x: real): (r: int)
    ensures x <= r as real < x + 1.0
  {
    -((-x).Floor)
  }

  type Positive = r: real | r > 0.0 witness 1.0

  /** The standard library's `sin`, `cos` and `exp`; `exp` is known to be positive. */
  datatype Libm = Libm(sin: real -> real, cos: real -> real, exp: real -> Positive)

  /** `cos(a)^2 + sin(a)^2 == 1` at the angle `a`. */
  predicate UnitAt(libm: Libm, a: real)
  {
    libm.cos(a) * libm.cos(a) + libm.sin(a) * libm.sin(a) == 1.0
  }

  /** The rotation by `a` is the identity: `cos(a) == 1` and `sin(a) == 0`. */
  predicate IdentityAt(libm: Libm, a: real)
  {
    libm.cos(a) == 1.0 && libm.sin(a) == 0.0
  }

  /** The `noise` crate's Perlin sampler as a function of the seed and of the
      sample point (2-D and 3-D sampling are two different functions). */
  datatype PerlinLib = PerlinLib(get2: (nat, real, real) -> real, get3: (nat, real, real, real) -> real)

  /** `Perlin::new(seed)`: a sampler bound to a seed. */
  datatype Perlin = Perlin(lib: PerlinLib, seed: nat)
  {
    function Get2(x: real, y: real): real
    {
      lib.get2(seed, x, y)
    }

    function Get3(x: real, y: real, z: real): real
    {
      lib.get3(seed, x, y, z)
    }
  }
}
