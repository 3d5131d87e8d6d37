/** Value types shared by the Paint-the-Rings components: the global game
    state, the per-level configuration, the engine's vector and colour
    interpolation, and the engine's random ranges. */
module Common {

  datatype Option<T> = None | Some(value: T)

  /** The controller's game state. */
  datatype GameState = Prepare | Playing | Pause | Revive | PassLevel | GameOver

  /** The easing curves named by level configuration. The curve library
      itself is not part of this model: only EaseOutQuad is named by the
      core, every other curve is an opaque identifier. */
  datatype LerpType = EaseOutQuad | OtherCurve(id: nat)

  /** The easing library, injected as a total function of a curve and a
      normalised time. Nothing is assumed about its values. */
  type Easing = (LerpType, real) -> real

  datatype Vec3 = Vec3(x: real, y: real, z: real)

  const Zero3 := Vec3(0.0, 0.0, 0.0)
  const One3 := Vec3(1.0, 1.0, 1.0)
  const Up := Vec3(0.0, 1.0, 0.0)
  const Down := Vec3(0.0, -1.0, 0.0)
  const Forward := Vec3(0.0, 0.0, 1.0)
  const Back := Vec3(0.0, 0.0, -1.0)

  function Add(a: Vec3, b: Vec3): Vec3 {
    Vec3(a.x + b.x, a.y + b.y, a.z + b.z)
  }

  function Scale(a: Vec3, k: real): Vec3 {
    Vec3(a.x * k, a.y * k, a.z * k)
  }

  /** Elapsed time that has reached a positive duration gives a factor of
      at least one, so the clamped interpolation lands on its target. */
  lemma ElapsedFactor(elapsed: real, duration: real)
    requires 0.0 < duration <= elapsed
    ensures elapsed / duration >= 1.0
  {
    assert elapsed / duration * duration == elapsed;
  }

  /** The engine clamps every interpolation factor to [0, 1]. */
  function Clamp01(f: real): (r: real)
    ensures 0.0 <= r <= 1.0
    ensures 0.0 <= f <= 1.0 ==> r == f
    ensures f >= 1.0 ==> r == 1.0
    ensures f <= 0.0 ==> r == 0.0
  {
    if f < 0.0 then 0.0 else if f > 1.0 then 1.0 else f
  }

  function LerpReal(a: real, b: real, f: real): real {
    a + (b - a) * Clamp01(f)
  }

  /** Vector3.Lerp: clamped linear interpolation. A factor of one or more
      lands exactly on the target, zero or less stays at the start. */
  function Lerp(a: Vec3, b: Vec3, f: real): (r: Vec3)
    ensures f >= 1.0 ==> r == b
    ensures f <= 0.0 ==> r == a
  {
    Vec3(LerpReal(a.x, b.x, f), LerpReal(a.y, b.y, f), LerpReal(a.z, b.z, f))
  }

  datatype Color = Color(r: real, g: real, b: real, a: real)

  const White := Color(1.0, 1.0, 1.0, 1.0)

  /** The same colour made fully transparent. */
  function Transparent(c: Color): Color {
    c.(a := 0.0)
  }

  /** Color.Lerp: clamped linear interpolation of every channel. */
  function LerpColor(c: Color, d: Color, f: real): (r: Color)
    ensures f >= 1.0 ==> r == d
    ensures f <= 0.0 ==> r == c
    ensures c.r == d.r && c.g == d.g && c.b == d.b ==> r.r == c.r && r.g == c.g && r.b == c.b
    ensures 0.0 <= c.a && d.a == 0.0 ==> 0.0 <= r.a <= c.a
  {
    Color(LerpReal(c.r, d.r, f), LerpReal(c.g, d.g, f), LerpReal(c.b, d.b, f), LerpReal(c.a, d.a, f))
  }

  /** Random.Range(int, int) as a function of a free sample: the maximum is
      exclusive, equal bounds give the minimum, and reversed bounds are
      swapped. Every value of the range is reached by some sample
      (RangeIntCovers), so quantifying over the sample is exactly the
      engine's nondeterminism. */
  function RangeInt(min: int, max: int, sample: nat): (r: int)
    ensures min < max ==> min <= r < max
    ensures min == max ==> r == min
    ensures max < min ==> max <= r < min
  {
    if min == max then min
    else if min < max then min + sample % (max - min)
    else max + sample % (min - max)
  }

  lemma RangeIntCovers(min: int, max: int, v: int)
    requires min <= v < max
    ensures RangeInt(min, max, v - min) == v
  {
  }

  /** Random.Range(float, float): both bounds inclusive. */
  function RangeReal(min: real, max: real, u: real): (r: real)
    ensures min <= max ==> min <= r <= max
    ensures max <= min ==> max <= r <= min
  {
    if min <= max then min + Portion(max - min, Clamp01(u))
    else max + Portion(min - max, 1.0 - Clamp01(u))
  }

  /** The part c of a non-negative span a. */
  function Portion(a: real, c: real): (r: real)
    requires 0.0 <= a && 0.0 <= c <= 1.0
    ensures 0.0 <= r <= a
  {
    assert a * (1.0 - c) >= 0.0;
    a * c
  }

  /** One entry of the controller's level table. */
  datatype LevelData = LevelData(
    minLevel: int, maxLevel: int,
    minRingNumber: int, maxRingNumber: int,
    minPaintedPiece: int, maxPaintedPiece: int,
    minPaintedBall: int, maxPaintedBall: int,
    minRotatingDegrees: real, maxRotatingDegrees: real,
    minRotatingSpeed: real, maxRotatingSpeed: real,
    minTimeToPaintOneRing: int, maxTimeToPaintOneRing: real,
    rotatingTypes: seq<LerpType>,
    ringColors: seq<Color>)

  /** The value a LevelData field holds before any level is selected. */
  const NoLevelData := LevelData(0, 0, 0, 0, 0, 0, 0, 0, 0.0, 0.0, 0.0, 0.0, 0, 0.0, [], [])

  predicate Contains(d: LevelData, level: int) {
    d.minLevel <= level < d.maxLevel
  }

  predicate Distinct<T(==)>(s: seq<T>) {
    forall i, j :: 0 <= i < j < |s| ==> s[i] != s[j]
  }

  /** Number of occurrences of x in s. */
  function CountOf<T(==)>(s: seq<T>, x: T): nat {
    if s == [] then 0 else (if s[0] == x then 1 else 0) + CountOf(s[1..], x)
  }

  lemma {:induction false} CountOfAppend<T>(s: seq<T>, t: seq<T>, x: T)
    ensures CountOf(s + t, x) == CountOf(s, x) + CountOf(t, x)
  {
    if s == [] {
      assert s + t == t;
    } else {
      assert (s + t)[1..] == s[1..] + t;
      CountOfAppend(s[1..], t, x);
    }
  }

  /** Cardinality of the set of a sequence without repetitions. */
  lemma {:induction false} DistinctCard<T>(s: seq<T>)
    requires Distinct(s)
    ensures |set x | x in s| == |s|
  {
    if s != [] {
      var tail := s[1..];
      DistinctCard(tail);
      assert (set x | x in s) == (set x | x in tail) + {s[0]} by {
        forall x | x in s ensures x in tail || x == s[0] {
          var i :| 0 <= i < |s| && s[i] == x;
          if i > 0 { assert tail[i - 1] == x; }
        }
      }
      assert s[0] !in tail by {
        forall i | 0 <= i < |tail| ensures tail[i] != s[0] {
          assert tail[i] == s[i + 1];
        }
      }
    }
  }
}
