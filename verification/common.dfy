/**
 * Shared vocabulary of the two entity systems: 3-vectors over the reals,
 * the palette, the constant pi, stand-ins for the host's trigonometry and
 * random source, and JavaScript's remainder by one.
 */
module Common {

  datatype Option<T> = None | Some(value: T)

  /** A Three.js Vector3 (position, rotation or scale), with real coordinates. */
  datatype Vec3 = Vec3(x: real, y: real, z: real)

  const Zero: Vec3 := Vec3(0.0, 0.0, 0.0)
  const Ones: Vec3 := Vec3(1.0, 1.0, 1.0)

  /** Math.PI, written as the shortest decimal that reads back as the double. */
  const Pi: real := 3.141592653589793

  /** The three colours (cyan, pink, purple) every entity kind draws from. */
  const Palette: seq<int> := [0x00D9FF, 0xFF006E, 0x8338EC]

  /**
   * A periodic unit wave such as Math.sin or Math.cos. Nothing is assumed of
   * it except that its values lie in [-1, 1].
   */
  type Wave = f: real -> real | forall a :: -1.0 <= f(a) <= 1.0 witness (a: real) => 0.0

  /**
   * Math.cos, written through the sine it is paired with: over the reals
   * cos(a) = sin(a + pi/2), here up to the rounding of pi.
   */
  function Cos(sin: Wave, a: real): (c: real)
    ensures -1.0 <= c <= 1.0
  {
    sin(a + Pi / 2.0)
  }

  /**
   * The values the program's own Math.random() calls return, in the order
   * it makes them; every draw lies in [0, 1).
   */
  type Draws = f: nat -> real | forall k :: 0.0 <= f(k) < 1.0 witness (k: nat) => 0.0

  /** The draws that remain after the first `n` have been consumed. */
  function Skip(rand: Draws, n: nat): Draws
  {
    (k: nat) => rand(n + k)
  }

  /** `Math.floor(r * len)` for a draw `r`: a valid index into a list of `len` items. */
  function PickIndex(r: real, len: nat): (k: nat)
    requires 0.0 <= r < 1.0 && 0 < len
    ensures k < len
    ensures k as real <= r * len as real < k as real + 1.0
  {
    var factor := len as real;
    ScaleBelow(r, factor);
    var scaled := r * factor;
    scaled.Floor
  }

  /** The palette colour `colors[Math.floor(r * colors.length)]` for a draw `r`. */
  function PickColor(r: real): (c: int)
    requires 0.0 <= r < 1.0
    ensures c in Palette
  {
    Palette[PickIndex(r, |Palette|)]
  }

  /** A drift `(r - 0.5) * 0.02` for a draw `r` (a velocity or spin component), in [-0.01, 0.01). */
  function Drift(r: real): (v: real)
    requires 0.0 <= r < 1.0
    ensures -0.01 <= v < 0.01
  {
    (r - 0.5) * 0.02
  }

  /** A phase `r * pi * 2` for a draw `r`, in [0, 2 pi). */
  function PhaseOf(r: real): (phase: real)
    requires 0.0 <= r < 1.0
    ensures 0.0 <= phase < 2.0 * Pi
  {
    ScaleBelow(r, Pi * 2.0);
    assert r * Pi * 2.0 == r * (Pi * 2.0);
    r * Pi * 2.0
  }

  /**
   * JavaScript's `a % 1`: the remainder of truncating division, which has
   * the sign of `a` (Dafny's own `%` is Euclidean and only defined on int).
   */
  function RemOne(a: real): (r: real)
    ensures (a - r).Floor as real == a - r
    ensures 0.0 <= a ==> 0.0 <= r < 1.0
    ensures a < 0.0 ==> -1.0 < r <= 0.0
  {
    if 0.0 <= a then
      var whole := a.Floor;
      assert (whole as real).Floor == whole;
      a - whole as real
    else
      var whole := -((-a).Floor);
      assert (whole as real).Floor == whole;
      a - whole as real
  }

  /** Appending to the empty sequence gives the sequence itself. */
  lemma EmptyAppend<T>(s: seq<T>)
    ensures [] + s == s
  {
  }

  /** Scaling a unit wave by a non-negative amplitude keeps it within that amplitude. */
  lemma Amplitude(w: real, amp: real)
    requires -1.0 <= w <= 1.0 && 0.0 <= amp
    ensures -amp <= w * amp <= amp
  {
    if 0.0 <= w {
      assert w * amp <= 1.0 * amp;
    } else {
      assert (-w) * amp <= 1.0 * amp;
    }
  }

  /** A product of two unit values is a unit value. */
  lemma UnitProduct(u: real, v: real)
    requires -1.0 <= u <= 1.0 && -1.0 <= v <= 1.0
    ensures -1.0 <= u * v <= 1.0
  {
    if 0.0 <= v {
      Amplitude(u, v);
    } else {
      Amplitude(u, -v);
    }
  }

  /** A draw in [0, 1) scaled by a positive factor lies in [0, factor). */
  lemma ScaleBelow(r: real, factor: real)
    requires 0.0 <= r < 1.0 && 0.0 < factor
    ensures 0.0 <= r * factor < factor
  {
    assert r * factor < 1.0 * factor;
  }
}
