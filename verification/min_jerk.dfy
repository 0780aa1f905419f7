/**
 * The minimum-jerk straight-line trajectory of the wrist camera
 * (`minimumJerkStraightLineTrajectory` in both `WristCameraMovement` scripts).
 *
 * The script returns, for each of the `framesPerIteration` frames, the offset of the
 * camera with respect to the previous frame. The k-th entry is the difference between
 * the waypoints of frames k+1 and k of the curve x0 + (x0 - xf) * Blend(k / F), where
 * the running sum starts at 0 rather than at x0. Single-precision arithmetic and
 * `Math.Pow` are modelled over the reals.
 */
module MinimumJerk {

  /** `Math.Pow` with a whole exponent. */
  function Pow(t: real, n: nat): real
    decreases n
  {
    if n == 0 then 1.0 else t * Pow(t, n - 1)
  }

  /** The polynomial the script evaluates: 15 t^4 - 6 t^5 - 10 t^3. */
  function Blend(t: real): real {
    15.0 * Pow(t, 4) - 6.0 * Pow(t, 5) - 10.0 * Pow(t, 3)
  }

  /** The blend's polynomial written with plain products. */
  function Poly(t: real): real {
    15.0 * t * t * t * t - 6.0 * t * t * t * t * t - 10.0 * t * t * t
  }

  /** The powers of the script are plain products. */
  lemma BlendExpanded(t: real)
    ensures Blend(t) == Poly(t)
  {
    assert Pow(t, 3) == t * t * t by {
      assert Pow(t, 1) == t;
    }
  }

  /** The blend starts at 0 and ends at -1, so the curve runs from x0 to xf. */
  lemma BlendEnds()
    ensures Blend(0.0) == 0.0 && Blend(1.0) == -1.0
  {
    BlendExpanded(0.0);
    BlendExpanded(1.0);
  }

  /** The blend is point-symmetric about t = 1/2. */
  lemma BlendSymmetric(t: real)
    ensures Blend(t) + Blend(1.0 - t) == -1.0
  {
    BlendExpanded(t);
    BlendExpanded(1.0 - t);
  }

  /**
   * The average, over [a, a + d], of the blend's slope taken with the opposite sign,
   * 30 t^2 (1 - t)^2, written out in powers of a and d.
   */
  function Slope(a: real, d: real): real {
    30.0 * a * a + 30.0 * a * d + 10.0 * d * d
    - 60.0 * a * a * a - 90.0 * a * a * d - 60.0 * a * d * d - 15.0 * d * d * d
    + 30.0 * a * a * a * a + 60.0 * a * a * a * d + 60.0 * a * a * d * d + 30.0 * a * d * d * d
    + 6.0 * d * d * d * d
  }

  /** Over [a, a + d] the polynomial drops by d times the average slope. */
  lemma PolyDifference(a: real, d: real)
    ensures Poly(a) - Poly(a + d) == d * Slope(a, d)
  {
  }

  /** A sum of squares that certifies the sign of the average slope. */
  function Certificate(a: real, d: real): real {
    var al := a * (1.0 - a);
    var be := d * (1.0 - 2.0 * a);
    var ga := -d * d;
    var u := al + be / 2.0 + ga / 3.0;
    var v := be + ga;
    u * u + v * v / 12.0 + ga * ga / 180.0
  }

  lemma CertificateNonNegative(a: real, d: real)
    ensures Certificate(a, d) >= 0.0
  {
    var al := a * (1.0 - a);
    var be := d * (1.0 - 2.0 * a);
    var ga := -d * d;
    var u := al + be / 2.0 + ga / 3.0;
    var v := be + ga;
    assert u * u >= 0.0 && v * v >= 0.0 && ga * ga >= 0.0;
  }

  lemma SlopeCertified(a: real, d: real)
    ensures Slope(a, d) == 30.0 * Certificate(a, d)
  {
  }

  /** The average slope never has the wrong sign, wherever the interval lies. */
  lemma SlopeNonNegative(a: real, d: real)
    ensures Slope(a, d) >= 0.0
  {
    SlopeCertified(a, d);
    CertificateNonNegative(a, d);
  }

  lemma ProductNonNegative(x: real, y: real)
    requires x >= 0.0 && y >= 0.0
    ensures x * y >= 0.0
  {
  }

  lemma PolyMonotone(a: real, b: real)
    requires a <= b
    ensures Poly(b) <= Poly(a)
  {
    var d := b - a;
    assert a + d == b;
    PolyDifference(a, d);
    SlopeNonNegative(a, d);
    ProductNonNegative(d, Slope(a, d));
  }

  /** The blend never increases, on the whole real line. */
  lemma BlendMonotone(a: real, b: real)
    requires a <= b
    ensures Blend(b) <= Blend(a)
  {
    BlendExpanded(a);
    BlendExpanded(b);
    PolyMonotone(a, b);
  }

  /** Frame fractions k / F grow with k and mirror each other about the middle. */
  lemma FractionFacts(k: nat, frames: int)
    requires 0 < frames && k <= frames
    ensures k as real / frames as real <= (k + 1) as real / frames as real
    ensures (frames - k) as real / frames as real == 1.0 - k as real / frames as real
    ensures frames as real / frames as real == 1.0
  {
    var f := frames as real;
    assert (k + 1) as real / f - k as real / f == 1.0 / f;
    assert (frames - k) as real / f == f / f - k as real / f;
  }

  /**
   * Where the camera stands after k of the F frames, on one axis, as the sum of the
   * first k offsets: 0 before the first frame, then x0 + (x0 - xf) * Blend(k / F).
   */
  function Waypoint(x0: real, xf: real, k: nat, frames: int): real
    requires frames > 0
  {
    if k == 0 then 0.0 else x0 + (x0 - xf) * Blend(k as real / frames as real)
  }

  /** The offset of frame k (0-based) with respect to the previous frame, on one axis. */
  function Offset(x0: real, xf: real, k: nat, frames: int): real
    requires frames > 0
  {
    Waypoint(x0, xf, k + 1, frames) - Waypoint(x0, xf, k, frames)
  }

  /** Sum of the first components of a list of offset pairs. */
  function SumX(points: seq<(real, real)>): real
    decreases |points|
  {
    if |points| == 0 then 0.0 else SumX(points[..|points| - 1]) + points[|points| - 1].0
  }

  /** Sum of the second components of a list of offset pairs. */
  function SumY(points: seq<(real, real)>): real
    decreases |points|
  {
    if |points| == 0 then 0.0 else SumY(points[..|points| - 1]) + points[|points| - 1].1
  }

  /** The offsets of the first n frames of the line from (x0, y0) to (xf, yf) over F frames. */
  function Offsets(x0: real, y0: real, xf: real, yf: real, n: nat, frames: int): (r: seq<(real, real)>)
    requires frames > 0
    ensures |r| == n
    decreases n
  {
    if n == 0 then []
    else Offsets(x0, y0, xf, yf, n - 1, frames) + [(Offset(x0, xf, n - 1, frames), Offset(y0, yf, n - 1, frames))]
  }

  /** Entry k of the offset list is the pair of single-axis offsets of frame k. */
  lemma {:induction false} OffsetsAt(x0: real, y0: real, xf: real, yf: real, n: nat, frames: int, k: nat)
    requires frames > 0 && k < n
    ensures Offsets(x0, y0, xf, yf, n, frames)[k] == (Offset(x0, xf, k, frames), Offset(y0, yf, k, frames))
    decreases n
  {
    if k < n - 1 {
      OffsetsAt(x0, y0, xf, yf, n - 1, frames, k);
    }
  }

  /** `points` is the offset list of the straight line from (x0, y0) to (xf, yf) over F frames. */
  predicate IsTrajectory(points: seq<(real, real)>, x0: real, y0: real, xf: real, yf: real, frames: int)
  {
    frames > 0 && points == Offsets(x0, y0, xf, yf, frames, frames)
  }

  /**
   * `minimumJerkStraightLineTrajectory`: one offset per frame; each offset is the
   * difference between consecutive minimum-jerk waypoints. With no frames the list is empty.
   */
  method Trajectory(x0: real, y0: real, xf: real, yf: real, frames: int) returns (points: seq<(real, real)>)
    ensures frames <= 0 ==> points == []
    ensures frames > 0 ==> IsTrajectory(points, x0, y0, xf, yf, frames)
  {
    points := [];
    var sumX := 0.0;
    var sumY := 0.0;
    var i := 1;
    while i < frames + 1
      invariant frames <= 0 ==> i == 1 && points == []
      invariant frames > 0 ==> 1 <= i <= frames + 1
      invariant |points| == i - 1
      invariant frames > 0 ==> sumX == Waypoint(x0, xf, i - 1, frames)
      invariant frames > 0 ==> sumY == Waypoint(y0, yf, i - 1, frames)
      invariant frames > 0 ==> points == Offsets(x0, y0, xf, yf, i - 1, frames)
    {
      var tau := i as real / frames as real;
      var xComponent := x0 + (x0 - xf) * Blend(tau);
      var yComponent := y0 + (y0 - yf) * Blend(tau);
      assert xComponent == Waypoint(x0, xf, i, frames);
      assert yComponent == Waypoint(y0, yf, i, frames);
      xComponent := xComponent - sumX;
      yComponent := yComponent - sumY;
      assert (xComponent, yComponent) == (Offset(x0, xf, i - 1, frames), Offset(y0, yf, i - 1, frames));
      points := points + [(xComponent, yComponent)];
      sumX := sumX + xComponent;
      sumY := sumY + yComponent;
      i := i + 1;
    }
  }

  /** After k frames the camera has moved by exactly the k-th waypoint, on both axes. */
  lemma {:induction false} TrajectoryPrefixSum(points: seq<(real, real)>, x0: real, y0: real, xf: real, yf: real, frames: int, k: nat)
    requires IsTrajectory(points, x0, y0, xf, yf, frames)
    requires k <= |points|
    ensures SumX(points[..k]) == Waypoint(x0, xf, k, frames)
    ensures SumY(points[..k]) == Waypoint(y0, yf, k, frames)
    decreases k
  {
    if k > 0 {
      TrajectoryPrefixSum(points, x0, y0, xf, yf, frames, k - 1);
      assert points[..k][..k - 1] == points[..k - 1];
      OffsetsAt(x0, y0, xf, yf, frames, frames, k - 1);
    }
  }

  /** Over a whole iteration the camera is carried from its start to exactly (xf, yf). */
  lemma TrajectoryReachesTarget(points: seq<(real, real)>, x0: real, y0: real, xf: real, yf: real, frames: int)
    requires IsTrajectory(points, x0, y0, xf, yf, frames)
    ensures SumX(points) == xf && SumY(points) == yf
  {
    TrajectoryPrefixSum(points, x0, y0, xf, yf, frames, |points|);
    assert points[..|points|] == points;
    FractionFacts(0, frames);
    BlendEnds();
    assert Waypoint(x0, xf, frames, frames) == x0 + (x0 - xf) * -1.0;
    assert Waypoint(y0, yf, frames, frames) == y0 + (y0 - yf) * -1.0;
  }

  /** From the origin towards a non-negative target, no frame moves the camera backwards. */
  lemma TrajectoryForwardOnly(points: seq<(real, real)>, xf: real, yf: real, frames: int, k: nat)
    requires IsTrajectory(points, 0.0, 0.0, xf, yf, frames)
    requires 0.0 <= xf && 0.0 <= yf && k < |points|
    ensures points[k].0 >= 0.0 && points[k].1 >= 0.0
  {
    OffsetsAt(0.0, 0.0, xf, yf, frames, frames, k);
    var a := k as real / frames as real;
    var b := (k + 1) as real / frames as real;
    FractionFacts(k, frames);
    BlendMonotone(a, b);
    OffsetFromOrigin(xf, k, frames);
    OffsetFromOrigin(yf, k, frames);
    ProductNonNegative(xf, Blend(a) - Blend(b));
    ProductNonNegative(yf, Blend(a) - Blend(b));
  }

  /** From the origin, the waypoint of frame k is the blend scaled by -xf (frame 0 included). */
  lemma WaypointFromOrigin(xf: real, k: nat, frames: int)
    requires frames > 0
    ensures Waypoint(0.0, xf, k, frames) == -xf * Blend(k as real / frames as real)
  {
    if k == 0 {
      BlendEnds();
      assert 0 as real / frames as real == 0.0;
    }
  }

  /** From the origin, the offset of frame k is xf times the drop of the blend over that frame. */
  lemma OffsetFromOrigin(xf: real, k: nat, frames: int)
    requires frames > 0
    ensures Offset(0.0, xf, k, frames)
         == xf * (Blend(k as real / frames as real) - Blend((k + 1) as real / frames as real))
  {
    WaypointFromOrigin(xf, k, frames);
    WaypointFromOrigin(xf, k + 1, frames);
  }

  /** The blend drops as much over frame k as over frame F-1-k. */
  lemma BlendDropMirrored(k: nat, frames: int)
    requires 0 <= k < frames
    ensures Blend((frames - 1 - k) as real / frames as real) - Blend((frames - k) as real / frames as real)
         == Blend(k as real / frames as real) - Blend((k + 1) as real / frames as real)
  {
    var f := frames as real;
    var j := frames - 1 - k;
    FractionFacts(k, frames);
    FractionFacts(k + 1, frames);
    assert j + 1 == frames - k;
    BlendSymmetric(k as real / f);
    BlendSymmetric((k + 1) as real / f);
  }

  /** From the origin, frame k moves as far as frame F-1-k, on one axis. */
  lemma OffsetSymmetric(xf: real, k: nat, frames: int)
    requires 0 <= k < frames
    ensures Offset(0.0, xf, k, frames) == Offset(0.0, xf, frames - 1 - k, frames)
  {
    OffsetFromOrigin(xf, k, frames);
    OffsetFromOrigin(xf, frames - 1 - k, frames);
    BlendDropMirrored(k, frames);
    assert frames - 1 - k + 1 == frames - k;
  }

  /** From the origin, the speed profile is symmetric: frame k moves as far as frame F-1-k. */
  lemma TrajectorySymmetric(points: seq<(real, real)>, xf: real, yf: real, frames: int, k: nat)
    requires IsTrajectory(points, 0.0, 0.0, xf, yf, frames)
    requires k < |points|
    ensures points[k] == points[frames - 1 - k]
  {
    OffsetsAt(0.0, 0.0, xf, yf, frames, frames, k);
    OffsetsAt(0.0, 0.0, xf, yf, frames, frames, frames - 1 - k);
    OffsetSymmetric(xf, k, frames);
    OffsetSymmetric(yf, k, frames);
  }

  /** An axis whose start and end are both 0 never moves. */
  lemma TrajectoryStillAxis(points: seq<(real, real)>, yf: real, frames: int, k: nat)
    requires IsTrajectory(points, 0.0, 0.0, 0.0, yf, frames)
    requires k < |points|
    ensures points[k].0 == 0.0
  {
    OffsetsAt(0.0, 0.0, 0.0, yf, frames, frames, k);
  }
}
