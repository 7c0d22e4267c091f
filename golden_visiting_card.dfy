/**
 * The interactive 3D business card (src/components/GoldenVisitingCard.jsx):
 * drag-to-rotate with a clamped pitch, the click gate that opens the detail
 * modal, the 30 fps frame gate, the per-frame exponential approach of the
 * card's rotation, lift and scale, the two-breakpoint renderer size and the
 * hero scroll-opacity rule.
 *
 * Real numbers stand for JavaScript doubles. The three.js scene, the canvas
 * textures and `renderer.render` are not modelled; `Math.sin` values reach the
 * frame step as parameters.
 */
module GoldenVisitingCard {
  import opened JsMath
  import opened Wrappers

  // ---------------------------------------------------------------------
  // Constants of the component
  // ---------------------------------------------------------------------

  /** Radians of target rotation per pixel of pointer travel. */
  const Sensitivity: real := 0.01
  /** The target pitch is kept within plus or minus pi/3. */
  const PitchLimit: real := PI / 3.0
  const TargetFps: real := 30.0
  /** Milliseconds that must pass between two frames that do work: 1000 / 30. */
  const FrameInterval: real := 1000.0 / TargetFps
  /** Fraction of the remaining gap closed on each frame that does work. */
  const Damping: real := 0.05
  /** Uniform scale of the card while the pointer is over it. */
  const HoverScale: real := 1.08
  /** Viewport widths below this many pixels count as mobile. */
  const MobileBreakpoint: int := 768

  // ---------------------------------------------------------------------
  // Drag-to-rotate
  // ---------------------------------------------------------------------

  /**
   * `mouseRef` (pressed flag and last pointer position) together with
   * `targetRotationRef` (x is the pitch, y the yaw).
   */
  datatype Drag = Drag(isDown: bool, x: real, y: real, pitch: real, yaw: real)

  /** The pitch clamp of `handleMouseMove`, `max(-pi/3, min(pi/3, v))`. */
  function ClampPitch(v: real): (r: real)
    ensures -PitchLimit <= r <= PitchLimit
    ensures -PitchLimit <= v <= PitchLimit ==> r == v
    ensures v < -PitchLimit ==> r == -PitchLimit
    ensures v > PitchLimit ==> r == PitchLimit
  {
    Max(-PitchLimit, Min(PitchLimit, v))
  }

  /** `handleMouseDown`: press and anchor the pointer; the target is untouched. */
  function MouseDown(d: Drag, cx: real, cy: real): (r: Drag)
    ensures r.isDown && r.x == cx && r.y == cy
    ensures r.pitch == d.pitch && r.yaw == d.yaw
  {
    d.(isDown := true, x := cx, y := cy)
  }

  /** `handleMouseMove`: while pressed, add the scaled deltas, clamp the pitch and re-anchor. */
  function MouseMove(d: Drag, cx: real, cy: real): (r: Drag)
    ensures !d.isDown ==> r == d
    ensures d.isDown ==> r.isDown && r.x == cx && r.y == cy
    ensures d.isDown ==> r.yaw - d.yaw == Sensitivity * (cx - d.x)
    ensures d.isDown ==> r.pitch == ClampPitch(d.pitch + Sensitivity * (cy - d.y))
    ensures d.isDown ==> -PitchLimit <= r.pitch <= PitchLimit
    ensures d.isDown && -PitchLimit <= d.pitch + Sensitivity * (cy - d.y) <= PitchLimit ==>
              r.pitch - d.pitch == Sensitivity * (cy - d.y)
  {
    if d.isDown then
      var yaw := d.yaw + (cx - d.x) * Sensitivity;
      var pitch := ClampPitch(d.pitch + (cy - d.y) * Sensitivity);
      Drag(true, cx, cy, pitch, yaw)
    else
      d
  }

  /** `handleMouseUp`, and the drag part of the mouse-leave handler. */
  function Release(d: Drag): (r: Drag)
    ensures !r.isDown && r.x == d.x && r.y == d.y
    ensures r.pitch == d.pitch && r.yaw == d.yaw
  {
    d.(isDown := false)
  }

  /** A pointer position reported by a mousemove event. */
  datatype Point = Point(x: real, y: real)

  /** The drag state after the moves `pts`, delivered in order. */
  function MoveAll(d: Drag, pts: seq<Point>): Drag
  {
    if |pts| == 0 then d else
      var last := pts[|pts| - 1];
      MouseMove(MoveAll(d, pts[..|pts| - 1]), last.x, last.y)
  }

  /** Moves while the button is up change neither the target nor the stored pointer position. */
  lemma {:induction false} MovesWhileReleasedChangeNothing(d: Drag, pts: seq<Point>)
    requires !d.isDown
    ensures MoveAll(d, pts) == d
  {
    if |pts| > 0 {
      MovesWhileReleasedChangeNothing(d, pts[..|pts| - 1]);
    }
  }

  /** After a release, further moves leave the drag exactly as the release left it. */
  lemma ReleaseThenMoves(d: Drag, pts: seq<Point>)
    ensures MoveAll(Release(d), pts) == Release(d)
  {
    MovesWhileReleasedChangeNothing(Release(d), pts);
  }

  /**
   * Over one drag the yaw grows by exactly `Sensitivity` times the net
   * horizontal travel: each move re-anchors the pointer, so the deltas
   * telescope. The pointer ends at the last reported position, and the pitch
   * is within the clamp as soon as one move has happened.
   */
  lemma {:induction false} DragYawTelescopes(d: Drag, pts: seq<Point>)
    requires d.isDown
    ensures var r := MoveAll(d, pts);
      && r.isDown
      && (|pts| == 0 ==> r == d)
      && (|pts| > 0 ==> r.x == pts[|pts| - 1].x && r.y == pts[|pts| - 1].y)
      && (|pts| > 0 ==> -PitchLimit <= r.pitch <= PitchLimit)
      && r.yaw == d.yaw + Sensitivity * (r.x - d.x)
  {
    if |pts| > 0 {
      DragYawTelescopes(d, pts[..|pts| - 1]);
    }
  }

  /** A whole gesture: press at (x0, y0), move through `pts`. The yaw grows by 0.01 times (xn - x0). */
  lemma GestureYaw(d: Drag, x0: real, y0: real, pts: seq<Point>)
    requires |pts| > 0
    ensures MoveAll(MouseDown(d, x0, y0), pts).yaw == d.yaw + Sensitivity * (pts[|pts| - 1].x - x0)
    ensures -PitchLimit <= MoveAll(MouseDown(d, x0, y0), pts).pitch <= PitchLimit
  {
    DragYawTelescopes(MouseDown(d, x0, y0), pts);
  }

  /** Any sequence of moves keeps a pitch that started in range within the clamp. */
  lemma {:induction false} PitchStaysClamped(d: Drag, pts: seq<Point>)
    requires -PitchLimit <= d.pitch <= PitchLimit
    ensures -PitchLimit <= MoveAll(d, pts).pitch <= PitchLimit
  {
    if |pts| > 0 {
      PitchStaysClamped(d, pts[..|pts| - 1]);
    }
  }

  // ---------------------------------------------------------------------
  // Per-frame interpolation
  // ---------------------------------------------------------------------

  /** `current += (target - current) * 0.05`: one worked frame of the exponential approach. */
  function Approach(current: real, target: real): (r: real)
    ensures target - r == (1.0 - Damping) * (target - current)
    ensures current <= target ==> current <= r <= target
    ensures target <= current ==> target <= r <= current
  {
    current + (target - current) * Damping
  }

  /** The factor 0.95^n by which n worked frames shrink the gap. */
  function Decay(n: nat): (r: real)
    ensures 0.0 < r <= 1.0
    ensures n > 0 ==> r < 1.0
  {
    if n == 0 then 1.0 else (1.0 - Damping) * Decay(n - 1)
  }

  /** The value after n worked frames with a fixed target. */
  function Settle(current: real, target: real, n: nat): real
  {
    if n == 0 then current else Approach(Settle(current, target, n - 1), target)
  }

  /**
   * After n worked frames towards a fixed target the gap is 0.95^n times the
   * first gap: it keeps its sign (no overshoot) and never grows.
   */
  lemma {:induction false} SettleGap(current: real, target: real, n: nat)
    ensures target - Settle(current, target, n) == Decay(n) * (target - current)
    ensures current <= target ==> current <= Settle(current, target, n) <= target
    ensures target <= current ==> target <= Settle(current, target, n) <= current
  {
    if n > 0 {
      SettleGap(current, target, n - 1);
      var s := Settle(current, target, n - 1);
      var gap, d := target - current, Decay(n - 1);
      assert target - Settle(current, target, n) == (1.0 - Damping) * (target - s);
      assert target - s == d * gap;
      MulAssociates(1.0 - Damping, d, gap);
    }
  }

  // ---------------------------------------------------------------------
  // Frame gate
  // ---------------------------------------------------------------------

  /** `animate` does work only when at least `frameInterval` has elapsed since `lastTime`. */
  predicate FrameDue(currentTime: real, lastTime: real)
  {
    currentTime - lastTime >= FrameInterval
  }

  /** Consecutive entries are at least one frame interval apart. */
  ghost predicate Gated(times: seq<real>)
  {
    forall i :: 0 < i < |times| ==> times[i] - times[i - 1] >= FrameInterval
  }

  /** Entries i and j of a gated history are at least (j - i) frame intervals apart. */
  lemma {:induction false} GatedSpread(times: seq<real>, i: nat, j: nat)
    requires Gated(times)
    requires i <= j < |times|
    ensures times[j] - times[i] >= (j - i) as real * FrameInterval
  {
    if i < j {
      GatedSpread(times, i, j - 1);
      assert times[j] - times[j - 1] >= FrameInterval;
    }
  }

  /** A due frame appended to a gated history keeps it gated. */
  lemma GatedAppend(times: seq<real>, t: real)
    requires Gated(times) && |times| > 0
    requires FrameDue(t, times[|times| - 1])
    ensures Gated(times + [t])
  {
  }

  // ---------------------------------------------------------------------
  // Renderer size and hero opacity
  // ---------------------------------------------------------------------

  datatype Size = Size(width: int, height: int)

  /** `setRendererSize`: 320 by 200 below the breakpoint, 480 by 300 at or above it. */
  function RendererSize(innerWidth: int): (s: Size)
    ensures s.width > 0 && s.height > 0
    ensures s.width as real / s.height as real == 1.6
  {
    if innerWidth < MobileBreakpoint then Size(320, 200) else Size(480, 300)
  }

  /** Both sizes, tied to the breakpoint in both directions. */
  lemma RendererSizeByBreakpoint(innerWidth: int)
    ensures RendererSize(innerWidth) == Size(320, 200) <==> innerWidth < MobileBreakpoint
    ensures RendererSize(innerWidth) == Size(480, 300) <==> innerWidth >= MobileBreakpoint
  {
  }

  /**
   * `handleScroll` of the first effect: the hero is twice the viewport high;
   * inside it the opacity falls linearly at 1.5 per hero height, floored at 0,
   * and beyond it the opacity is 0.
   */
  function HeroOpacity(scrollY: real, innerHeight: real): (opacity: real)
    requires innerHeight >= 0.0 && (innerHeight > 0.0 || scrollY > 0.0)
    ensures opacity >= 0.0
    ensures scrollY > innerHeight * 2.0 ==> opacity == 0.0
  {
    var heroHeight := innerHeight * 2.0;
    if scrollY <= heroHeight then Max(0.0, 1.0 - (scrollY / heroHeight) * 1.5) else 0.0
  }

  lemma HeroOpacityInRange(scrollY: real, innerHeight: real)
    requires innerHeight >= 0.0 && (innerHeight > 0.0 || scrollY > 0.0) && scrollY >= 0.0
    ensures 0.0 <= HeroOpacity(scrollY, innerHeight) <= 1.0
    ensures scrollY == 0.0 ==> HeroOpacity(scrollY, innerHeight) == 1.0
  {
    var h := innerHeight * 2.0;
    if h > 0.0 {
      assert scrollY / h >= 0.0;
    }
  }

  /** The card is fully transparent from two thirds of the hero height on, and beyond the hero. */
  lemma HeroOpacityVanishes(scrollY: real, innerHeight: real)
    requires innerHeight > 0.0
    requires scrollY >= (2.0 / 3.0) * (innerHeight * 2.0)
    ensures HeroOpacity(scrollY, innerHeight) == 0.0
  {
    var h := innerHeight * 2.0;
    if scrollY <= h {
      QuotientAtLeast(scrollY, h, 2.0 / 3.0);
    }
  }

  /** Scrolling further down never makes the card more opaque. */
  lemma HeroOpacityNonIncreasing(a: real, b: real, innerHeight: real)
    requires innerHeight > 0.0
    requires 0.0 <= a <= b
    ensures HeroOpacity(b, innerHeight) <= HeroOpacity(a, innerHeight)
  {
    var h := innerHeight * 2.0;
    if b <= h {
      QuotientMonotone(a, b, h);
    }
    HeroOpacityInRange(a, innerHeight);
  }

  // ---------------------------------------------------------------------
  // The component's state and event handlers
  // ---------------------------------------------------------------------

  class CardController {
    // mouseRef
    var isDown: bool
    var mouseX: real
    var mouseY: real
    // targetRotationRef: x is the pitch, y the yaw
    var targetPitch: real
    var targetYaw: real
    // rotationRef, which `animate` copies into card.rotation.x and .y
    var rotX: real
    var rotY: real
    // card.rotation.z, card.position.y and card.scale
    var rotZ: real
    var posY: real
    var scaleX: real
    var scaleY: real
    var scaleZ: real
    // frame gate
    var lastTime: real
    /** The times of the frames that did work so far, oldest first. */
    ghost var worked: seq<real>
    // React state
    var showModal: bool
    var isHovered: bool
    var cardOpacity: real
    // renderer and camera
    var size: Option<Size>
    var aspect: real

    /** The pointer and target view as one value. */
    function DragState(): Drag
      reads this
    {
      Drag(isDown, mouseX, mouseY, targetPitch, targetYaw)
    }

    /**
     * The invariant the handlers keep: both pitches lie in the clamp, the
     * frames that did work are a frame interval apart with `lastTime` the
     * latest of them (0 before the first), and the scale stays uniform.
     */
    ghost predicate Valid()
      reads this
    {
      && -PitchLimit <= targetPitch <= PitchLimit
      && -PitchLimit <= rotX <= PitchLimit
      && Gated([0.0] + worked)
      && lastTime == ([0.0] + worked)[|worked|]
      && scaleX == scaleY == scaleZ
    }

    /** Mount: refs start at zero, the card at rest, the modal closed and the card opaque. */
    constructor ()
      ensures Valid()
      ensures !isDown && mouseX == 0.0 && mouseY == 0.0
      ensures targetPitch == 0.0 && targetYaw == 0.0 && rotX == 0.0 && rotY == 0.0
      ensures rotZ == 0.0 && posY == 0.0 && scaleX == 1.0
      ensures lastTime == 0.0 && worked == []
      ensures !showModal && !isHovered && cardOpacity == 1.0
      ensures size == None && aspect == 1.6
    {
      isDown, mouseX, mouseY := false, 0.0, 0.0;
      targetPitch, targetYaw := 0.0, 0.0;
      rotX, rotY, rotZ := 0.0, 0.0, 0.0;
      posY := 0.0;
      scaleX, scaleY, scaleZ := 1.0, 1.0, 1.0;
      lastTime := 0.0;
      worked := [];
      showModal, isHovered := false, false;
      cardOpacity := 1.0;
      size, aspect := None, 1.6;
    }

    method HandleMouseDown(clientX: real, clientY: real)
      requires Valid()
      modifies this`isDown, this`mouseX, this`mouseY
      ensures Valid()
      ensures DragState() == MouseDown(old(DragState()), clientX, clientY)
      ensures isDown && mouseX == clientX && mouseY == clientY
    {
      isDown := true;
      mouseX := clientX;
      mouseY := clientY;
    }

    method HandleMouseMove(clientX: real, clientY: real)
      requires Valid()
      modifies this`mouseX, this`mouseY, this`targetPitch, this`targetYaw
      ensures Valid()
      ensures DragState() == MouseMove(old(DragState()), clientX, clientY)
      ensures !old(isDown) ==> unchanged(this)
    {
      if isDown {
        var deltaX := clientX - mouseX;
        var deltaY := clientY - mouseY;
        targetYaw := targetYaw + deltaX * Sensitivity;
        targetPitch := targetPitch + deltaY * Sensitivity;
        targetPitch := Max(-PitchLimit, Min(PitchLimit, targetPitch));
        mouseX := clientX;
        mouseY := clientY;
      }
    }

    method HandleMouseUp()
      requires Valid()
      modifies this`isDown
      ensures Valid()
      ensures DragState() == Release(old(DragState()))
      ensures !isDown
    {
      isDown := false;
    }

    /** `handleClick`: open the modal only if no press is in progress. */
    method HandleClick()
      requires Valid()
      modifies this`showModal
      ensures Valid()
      ensures showModal == (old(showModal) || !isDown)
      ensures !isDown ==> showModal
      ensures isDown ==> showModal == old(showModal)
    {
      if !isDown {
        showModal := true;
      }
    }

    /** The modal's close button. */
    method CloseModal()
      requires Valid()
      modifies this`showModal
      ensures Valid()
      ensures !showModal
    {
      showModal := false;
    }

    method HandleMouseEnter()
      requires Valid()
      modifies this`isHovered
      ensures Valid()
      ensures isHovered
    {
      isHovered := true;
    }

    /** Leaving the canvas clears the hover and also ends any press. */
    method HandleMouseLeave()
      requires Valid()
      modifies this`isHovered, this`isDown
      ensures Valid()
      ensures !isHovered && !isDown
      ensures DragState() == Release(old(DragState()))
    {
      isHovered := false;
      isDown := false;
    }

    /**
     * One `requestAnimationFrame` callback at `currentTime` (milliseconds).
     * `sinRoll` and `sinFloat` are `Math.sin(currentTime * 0.0005)` and
     * `Math.sin(currentTime * 0.001)`. A frame that is not due changes nothing;
     * a due frame records its time, moves the rotation towards the target,
     * and either lifts and enlarges the card (hovered) or lets it settle back
     * to rest. `rendered` tells whether the frame reached `renderer.render`.
     */
    method Animate(currentTime: real, sinRoll: real, sinFloat: real) returns (rendered: bool)
      requires Valid()
      requires -1.0 <= sinRoll <= 1.0 && -1.0 <= sinFloat <= 1.0
      modifies this`lastTime, this`worked, this`rotX, this`rotY, this`rotZ,
               this`posY, this`scaleX, this`scaleY, this`scaleZ
      ensures Valid()
      ensures rendered == FrameDue(currentTime, old(lastTime))
      ensures !rendered ==> unchanged(this)
      ensures rendered ==> lastTime == currentTime && worked == old(worked) + [currentTime]
      ensures rendered ==> (&& rotX == Approach(old(rotX), targetPitch)
                            && rotY == Approach(old(rotY), targetYaw)
                            && rotZ == sinRoll * 0.02 && -0.02 <= rotZ <= 0.02)
      ensures rendered && isHovered ==> posY == sinFloat * 0.15 + 0.3 && scaleX == HoverScale
      ensures rendered && !isHovered ==>
                posY == Approach(old(posY), 0.0) && scaleX == Approach(old(scaleX), 1.0)
    {
      if currentTime - lastTime < FrameInterval {
        return false;
      }
      ghost var history := [0.0] + worked;
      GatedAppend(history, currentTime);
      assert [0.0] + (worked + [currentTime]) == history + [currentTime];
      lastTime := currentTime;
      worked := worked + [currentTime];

      rotX := rotX + (targetPitch - rotX) * Damping;
      rotY := rotY + (targetYaw - rotY) * Damping;
      rotZ := sinRoll * 0.02;
      if isHovered {
        posY := sinFloat * 0.15 + 0.3;
        scaleX, scaleY, scaleZ := HoverScale, HoverScale, HoverScale;
      } else {
        posY := posY + (0.0 - posY) * Damping;
        scaleX := scaleX + (1.0 - scaleX) * Damping;
        scaleY := scaleY + (1.0 - scaleY) * Damping;
        scaleZ := scaleZ + (1.0 - scaleZ) * Damping;
      }
      rendered := true;
    }

    /**
     * `setRendererSize`, run by the resize observer, the window resize
     * listener and the initial timeout; it does nothing once the mount node
     * is gone. The new size depends on the width alone, so a repeated call
     * with the same width leaves the same size.
     */
    method SetRendererSize(innerWidth: int, mounted: bool)
      requires Valid()
      modifies this`size, this`aspect
      ensures Valid()
      ensures !mounted ==> unchanged(this)
      ensures mounted ==> size == Some(RendererSize(innerWidth)) && aspect == 1.6
    {
      if mounted {
        var s := RendererSize(innerWidth);
        size := Some(s);
        aspect := s.width as real / s.height as real;
      }
    }

    /** The scroll listener: store the hero opacity for the current scroll offset. */
    method HandleScroll(scrollY: real, innerHeight: real)
      requires Valid()
      requires innerHeight >= 0.0 && (innerHeight > 0.0 || scrollY > 0.0)
      modifies this`cardOpacity
      ensures Valid()
      ensures cardOpacity == HeroOpacity(scrollY, innerHeight)
      ensures scrollY >= 0.0 ==> 0.0 <= cardOpacity <= 1.0
    {
      var heroHeight := innerHeight * 2.0;
      if scrollY <= heroHeight {
        cardOpacity := Max(0.0, 1.0 - (scrollY / heroHeight) * 1.5);
      } else {
        cardOpacity := 0.0;
      }
      if scrollY >= 0.0 {
        HeroOpacityInRange(scrollY, innerHeight);
      }
    }
  }

  /**
   * The browser delivers mousedown, mouseup and then click. Because mouseup
   * already cleared the press, the click gate lets every press-release pair
   * open the modal, including one with moves (a drag) in between.
   */
  method DragThenClickOpensModal(c: CardController, x0: real, y0: real, x1: real, y1: real)
    requires c.Valid()
    modifies c
    ensures c.Valid() && c.showModal
  {
    c.HandleMouseDown(x0, y0);
    c.HandleMouseMove(x1, y1);
    c.HandleMouseUp();
    c.HandleClick();
  }
}
