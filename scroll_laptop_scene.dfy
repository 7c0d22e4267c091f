/**
 * The scroll-driven laptop scene (src/three/ScrollLaptopScene.jsx): each
 * frame turns the scroll offset into a progress in [0, 1], names the phase,
 * and derives the laptop's rotation and the camera's position from
 * `smoothstep` ramps.
 */
module ScrollLaptopScene {
  import opened JsMath

  /** The phase boundaries, all three set to 0.1. */
  const RotateEnd: real := 0.1
  const ZoomEnd: real := 0.1
  const EnterEnd: real := 0.1

  /** The Hermite ease t^2 (3 - 2t) that `smoothstep` applies to the clamped ramp. */
  function Ease(t: real): (r: real)
    requires 0.0 <= t <= 1.0
    ensures 0.0 <= r <= 1.0
    ensures t == 0.0 ==> r == 0.0
    ensures t == 1.0 ==> r == 1.0
  {
    assert 1.0 - t * t * (3.0 - 2.0 * t) == ((1.0 - t) * (1.0 - t)) * (1.0 + 2.0 * t);
    MulNonNegative(1.0 - t, 1.0 - t);
    MulNonNegative((1.0 - t) * (1.0 - t), 1.0 + 2.0 * t);
    MulNonNegative(t, t);
    MulNonNegative(t * t, 3.0 - 2.0 * t);
    t * t * (3.0 - 2.0 * t)
  }

  /** Names the three products of t and u and bounds them: on [0, 1] a product is at most either factor. */
  lemma Products(t: real, u: real) returns (uu: real, ut: real, tt: real)
    requires 0.0 <= t <= u <= 1.0
    ensures uu == u * u && ut == u * t && tt == t * t
    ensures uu <= u && ut <= t && tt <= t
  {
    uu, ut, tt := u * u, u * t, t * t;
    MulNonNegative(1.0 - u, u);
    assert uu <= u;
    MulNonNegative(1.0 - u, t);
    assert ut <= t;
    MulNonNegative(1.0 - t, t);
    assert tt <= t;
  }

  /** Ease(u) - Ease(t) factors as (u - t) (3(u + t) - 2(u^2 + ut + t^2)). */
  lemma EaseFactors(t: real, u: real, uu: real, ut: real, tt: real)
    requires 0.0 <= t <= 1.0 && 0.0 <= u <= 1.0
    requires uu == u * u && ut == u * t && tt == t * t
    ensures Ease(u) - Ease(t) == (u - t) * (3.0 * (u + t) - 2.0 * (uu + ut + tt))
  {
  }

  /**
   * The ease never decreases on [0, 1]: in the factorisation of
   * Ease(u) - Ease(t) the second factor is non-negative because
   * u^2 <= u, ut <= t and t^2 <= t.
   */
  lemma EaseMonotone(t: real, u: real)
    requires 0.0 <= t <= u <= 1.0
    ensures Ease(t) <= Ease(u)
  {
    var uu, ut, tt := Products(t, u);
    var k := 3.0 * (u + t) - 2.0 * (uu + ut + tt);
    assert k >= 0.0;
    EaseFactors(t, u, uu, ut, tt);
    MulNonNegative(u - t, k);
  }

  /** The clamped linear ramp inside `smoothstep`. */
  function Ramp(edge0: real, edge1: real, x: real): (t: real)
    requires edge0 < edge1
    ensures 0.0 <= t <= 1.0
    ensures x <= edge0 ==> t == 0.0
    ensures x >= edge1 ==> t == 1.0
  {
    var t := Min(1.0, Max(0.0, (x - edge0) / (edge1 - edge0)));
    if x <= edge0 then
      assert (x - edge0) / (edge1 - edge0) <= 0.0 by { QuotientMonotone(x - edge0, 0.0, edge1 - edge0); }
      t
    else if x >= edge1 then
      assert (x - edge0) / (edge1 - edge0) >= 1.0 by { QuotientAtLeast(x - edge0, edge1 - edge0, 1.0); }
      t
    else t
  }

  /** `smoothstep(edge0, edge1, x)` for a proper interval. */
  function Smoothstep(edge0: real, edge1: real, x: real): (r: real)
    requires edge0 < edge1
    ensures 0.0 <= r <= 1.0
    ensures x <= edge0 ==> r == 0.0
    ensures x >= edge1 ==> r == 1.0
  {
    Ease(Ramp(edge0, edge1, x))
  }

  /** smoothstep never decreases in x. */
  lemma SmoothstepMonotone(edge0: real, edge1: real, x: real, y: real)
    requires edge0 < edge1 && x <= y
    ensures Smoothstep(edge0, edge1, x) <= Smoothstep(edge0, edge1, y)
  {
    QuotientMonotone(x - edge0, y - edge0, edge1 - edge0);
    EaseMonotone(Ramp(edge0, edge1, x), Ramp(edge0, edge1, y));
  }

  /**
   * `smoothstep(edge0, edge1, x)` with equal edges, as used for the zoom and
   * enter ramps whose edges are both 0.1: the division by zero gives minus
   * or plus infinity, which the clamp turns into 0 below the edge and 1
   * above it. At x == edge0 it is 0 / 0, NaN, which this model excludes.
   */
  function DegenerateSmoothstep(edge0: real, edge1: real, x: real): (r: real)
    requires edge0 == edge1 && x != edge0
    ensures r == 0.0 || r == 1.0
    ensures r == 1.0 <==> x > edge0
  {
    if x < edge0 then Ease(0.0) else Ease(1.0)
  }

  /** `Math.max(1, viewportHeight)`. */
  function Total(viewportHeight: real): (r: real)
    ensures r >= 1.0
    ensures viewportHeight >= 1.0 ==> r == viewportHeight
  {
    Max(1.0, viewportHeight)
  }

  /** `Math.min(1, Math.max(0, scrollY / total))`. */
  function Progress(scrollY: real, viewportHeight: real): (p: real)
    ensures 0.0 <= p <= 1.0
    ensures scrollY <= 0.0 ==> p == 0.0
    ensures scrollY >= Total(viewportHeight) ==> p == 1.0
  {
    var total := Total(viewportHeight);
    if scrollY <= 0.0 then
      QuotientMonotone(scrollY, 0.0, total);
      Min(1.0, Max(0.0, scrollY / total))
    else if scrollY >= total then
      QuotientAtLeast(scrollY, total, 1.0);
      Min(1.0, Max(0.0, scrollY / total))
    else
      Min(1.0, Max(0.0, scrollY / total))
  }

  datatype Phase = Rotate | Zoom | Enter

  /**
   * The phase reported to `onPhaseChange`. With rotateEnd == zoomEnd the
   * zoom test `progress >= 0.1 && progress < 0.1` can never hold.
   */
  function PhaseOf(progress: real): (ph: Phase)
    ensures ph != Zoom
    ensures ph == Rotate <==> progress < RotateEnd
    ensures ph == Enter <==> progress >= ZoomEnd
  {
    if progress >= RotateEnd && progress < ZoomEnd then Zoom
    else if progress >= ZoomEnd then Enter
    else Rotate
  }

  /** `-PI / 2 * (1 - rotateT)`: from side-on to facing the viewer. */
  function RotationY(progress: real): (r: real)
    ensures -PI / 2.0 <= r <= 0.0
    ensures progress >= RotateEnd ==> r == 0.0
    ensures progress <= 0.0 ==> r == -PI / 2.0
  {
    var rotateT := Smoothstep(0.0, RotateEnd, progress);
    PiInRange();
    MulMonotone(1.0 - rotateT, 1.0, PI / 2.0);
    MulNonNegative(1.0 - rotateT, PI / 2.0);
    -PI / 2.0 * (1.0 - rotateT)
  }

  /** `4 - zoomT * (4 - 1.6)`: the camera distance. */
  function CamZ(zoomT: real): (z: real)
    ensures 0.0 <= zoomT <= 1.0 ==> 1.6 <= z <= 4.0
    ensures zoomT == 0.0 ==> z == 4.0
    ensures zoomT == 1.0 ==> z == 1.6
  {
    4.0 - zoomT * (4.0 - 1.6)
  }

  /** The values one frame derives from the progress: camera height and distance, laptop height and rotation. */
  datatype Pose = Pose(cameraY: real, cameraZ: real, groupY: real, rotationY: real)

  /**
   * The rotation, zoom and enter ramps of one frame and the camera and laptop
   * placement built from them. Below progress 0.1 the camera is at z = 4;
   * above it both degenerate ramps are 1, so the camera jumps to
   * z = 1.6 - 0.9 = 0.7 and the rotation is finished.
   */
  function PoseAt(progress: real): (pose: Pose)
    requires progress != ZoomEnd
    ensures -PI / 2.0 <= pose.rotationY <= 0.0
    ensures progress <= 0.0 ==> pose.rotationY == -PI / 2.0
    ensures progress < ZoomEnd ==> pose.cameraY == 0.0 && pose.cameraZ == 4.0 && pose.groupY == -0.3
    ensures progress > ZoomEnd ==>
              pose.cameraY == 0.4 && pose.cameraZ == 0.7 && pose.groupY == -0.2 && pose.rotationY == 0.0
  {
    var rotationY := RotationY(progress);
    var zoomT := DegenerateSmoothstep(RotateEnd, ZoomEnd, progress);
    var camZ := CamZ(zoomT);
    var camY := 0.4 * zoomT;
    var enterT := DegenerateSmoothstep(ZoomEnd, EnterEnd, progress);
    var enterOffsetZ := enterT * 0.9;
    Pose(camY, camZ - enterOffsetZ, -0.3 + zoomT * 0.1, rotationY)
  }

  /** The camera and laptop transform written by one `useFrame` callback. */
  class LaptopRig {
    var cameraNear: real
    var cameraFar: real
    var cameraX: real
    var cameraY: real
    var cameraZ: real
    var groupRotationY: real
    var groupX: real
    var groupY: real
    var groupZ: real

    /**
     * The writes of one frame: `camera.near`/`camera.far`, then
     * `camera.position.set(0, camY, camZ - enterOffsetZ)`, the group's
     * `rotation.y` and `position.set(0, -0.3 + zoomT * 0.1, 0)`.
     */
    method ApplyPose(pose: Pose)
      modifies this
      ensures cameraNear == 0.01 && cameraFar == 100.0
      ensures cameraX == 0.0 && groupX == 0.0 && groupZ == 0.0
      ensures cameraY == pose.cameraY && cameraZ == pose.cameraZ
      ensures groupY == pose.groupY && groupRotationY == pose.rotationY
    {
      cameraNear, cameraFar := 0.01, 100.0;
      cameraX, cameraY, cameraZ := 0.0, pose.cameraY, pose.cameraZ;
      groupRotationY := pose.rotationY;
      groupX, groupY, groupZ := 0.0, pose.groupY, 0.0;
    }

    /**
     * One frame for the scroll offset `scrollY` (the ref's current value).
     * The phase is the value handed to `onPhaseChange`; the camera and the
     * laptop group are placed as `PoseAt` the progress says.
     */
    method Frame(scrollY: real, viewportHeight: real) returns (phase: Phase)
      requires Progress(scrollY, viewportHeight) != ZoomEnd
      modifies this
      ensures phase == PhaseOf(Progress(scrollY, viewportHeight))
      ensures cameraNear == 0.01 && cameraFar == 100.0
      ensures cameraX == 0.0 && groupX == 0.0 && groupZ == 0.0
      ensures var pose := PoseAt(Progress(scrollY, viewportHeight));
                && cameraY == pose.cameraY && cameraZ == pose.cameraZ
                && groupY == pose.groupY && groupRotationY == pose.rotationY
    {
      var progress := Progress(scrollY, viewportHeight);
      phase := PhaseOf(progress);
      ApplyPose(PoseAt(progress));
    }
  }
}
