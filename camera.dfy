/**
 * FirstPersonCamera (FirstPersonCamera.cs): touch-drag look control. A drag starts
 * with a touch that begins right of the dead zone; while it lasts, moves turn the
 * player body (yaw) and tilt the camera (pitch, clamped to the vertical limit).
 * Only the first touch of a frame is read. The player body's rotation is reduced to
 * its accumulated yaw angle in degrees.
 */
module Camera {
  import opened Engine

  datatype Phase = Began | Moved | Stationary | Ended | Canceled

  /** Input.GetTouch(0): horizontal screen position, phase and the movement since the last frame. */
  datatype Touch = Touch(x: real, phase: Phase, dx: real, dy: real)

  /** The look state: camera pitch (rotationX), whether a drag is on, and the body's yaw. */
  datatype Look = Look(rotationX: real, isDragging: bool, yaw: real)

  /** The Inspector settings and the frame constants a touch is read against. */
  datatype View = View(screenWidth: real, deadZoneWidth: real, sensitivity: real, verticalClamp: real, deltaTime: real)

  /** The touch lands in the left part of the screen that never moves the camera. */
  predicate InDeadZone(t: Touch, v: View) {
    t.x < v.screenWidth * v.deadZoneWidth
  }

  /** HandleTouchInput for the first touch of a frame. */
  function TouchStep(l: Look, t: Touch, v: View): (r: Look)
    ensures InDeadZone(t, v) ==> r == l
    ensures !InDeadZone(t, v) && t.phase == Began ==> r == l.(isDragging := true)
    ensures !InDeadZone(t, v) && (t.phase == Ended || t.phase == Canceled) ==> r == l.(isDragging := false)
    ensures t.phase == Stationary || (t.phase == Moved && !l.isDragging) ==> r == l
    ensures !InDeadZone(t, v) && t.phase == Moved && l.isDragging ==>
      && r.isDragging
      && r.yaw == l.yaw + t.dx * v.sensitivity * v.deltaTime
      && r.rotationX == Clamp(l.rotationX - t.dy * v.sensitivity * v.deltaTime, -v.verticalClamp, v.verticalClamp)
    ensures v.verticalClamp >= 0.0 && -v.verticalClamp <= l.rotationX <= v.verticalClamp ==>
      -v.verticalClamp <= r.rotationX <= v.verticalClamp
  {
    if InDeadZone(t, v) then l
    else match t.phase
      case Began => l.(isDragging := true)
      case Moved =>
        if l.isDragging then
          var mouseX := t.dx * v.sensitivity * v.deltaTime;
          var mouseY := t.dy * v.sensitivity * v.deltaTime;
          l.(yaw := l.yaw + mouseX, rotationX := Clamp(l.rotationX - mouseY, -v.verticalClamp, v.verticalClamp))
        else l
      case Stationary => l
      case Ended => l.(isDragging := false)
      case Canceled => l.(isDragging := false)
  }

  /** The look state after a run of frames, each with its first touch. */
  function TouchRun(l: Look, touches: seq<Touch>, v: View): Look
    decreases |touches|
  {
    if touches == [] then l else TouchRun(TouchStep(l, touches[0], v), touches[1..], v)
  }

  /** The pitch never leaves the vertical limit, however the player drags. */
  lemma {:induction false} PitchStaysClamped(l: Look, touches: seq<Touch>, v: View)
    requires v.verticalClamp >= 0.0 && -v.verticalClamp <= l.rotationX <= v.verticalClamp
    ensures -v.verticalClamp <= TouchRun(l, touches, v).rotationX <= v.verticalClamp
    decreases |touches|
  {
    if touches != [] {
      PitchStaysClamped(TouchStep(l, touches[0], v), touches[1..], v);
    }
  }

  /** With no drag on, a run without a Began touch leaves the view exactly where it was. */
  lemma {:induction false} NoDragWithoutBegan(l: Look, touches: seq<Touch>, v: View)
    requires !l.isDragging
    requires forall i :: 0 <= i < |touches| ==> touches[i].phase != Began
    ensures TouchRun(l, touches, v) == l
    decreases |touches|
  {
    if touches != [] {
      assert TouchStep(l, touches[0], v) == l;
      NoDragWithoutBegan(l, touches[1..], v);
    }
  }

  class FirstPersonCamera {
    const verticalClamp: real
    const deadZoneWidth: real
    const enableDragging: bool
    var sensitivity: real
    var rotationX: real
    var isDragging: bool
    /** The yaw of the player body, turned by horizontal drags. */
    var yaw: real
    /** The pitch of the camera's local rotation, last set from rotationX. */
    var pitch: real

    function Current(): Look
      reads this
    {
      Look(rotationX, isDragging, yaw)
    }

    function Settings(screenWidth: real, deltaTime: real): View
      reads this
    {
      View(screenWidth, deadZoneWidth, sensitivity, verticalClamp, deltaTime)
    }

    /** The camera as the scene starts it: level, no drag, with the body's and camera's initial angles. */
    constructor (sensitivity: real, verticalClamp: real, deadZoneWidth: real, enableDragging: bool, yaw: real, pitch: real)
      ensures this.sensitivity == sensitivity && this.verticalClamp == verticalClamp
      ensures this.deadZoneWidth == deadZoneWidth && this.enableDragging == enableDragging
      ensures Current() == Look(0.0, false, yaw) && this.pitch == pitch
    {
      this.sensitivity := sensitivity;
      this.verticalClamp := verticalClamp;
      this.deadZoneWidth := deadZoneWidth;
      this.enableDragging := enableDragging;
      rotationX := 0.0;
      isDragging := false;
      this.yaw := yaw;
      this.pitch := pitch;
    }

    /** The first touch of the frame moves a drag in progress: the camera's rotation is set. */
    predicate Drags(touches: seq<Touch>, screenWidth: real, deltaTime: real)
      reads this
    {
      && touches != []
      && !InDeadZone(touches[0], Settings(screenWidth, deltaTime))
      && touches[0].phase == Moved && isDragging
    }

    /** The touches of this frame, first one first; `screenWidth` and `deltaTime` as the engine reports them. */
    method Update(touches: seq<Touch>, screenWidth: real, deltaTime: real)
      modifies this`rotationX, this`isDragging, this`yaw, this`pitch
      ensures !enableDragging || touches == [] ==> Current() == old(Current()) && pitch == old(pitch)
      ensures enableDragging && touches != [] ==>
        Current() == TouchStep(old(Current()), touches[0], Settings(screenWidth, deltaTime))
      ensures enableDragging && old(Drags(touches, screenWidth, deltaTime)) ==> pitch == rotationX
      ensures !(enableDragging && old(Drags(touches, screenWidth, deltaTime))) ==> pitch == old(pitch)
    {
      if enableDragging {
        HandleTouchInput(touches, screenWidth, deltaTime);
      }
    }

    method HandleTouchInput(touches: seq<Touch>, screenWidth: real, deltaTime: real)
      modifies this`rotationX, this`isDragging, this`yaw, this`pitch
      ensures touches == [] ==> Current() == old(Current()) && pitch == old(pitch)
      ensures touches != [] ==> Current() == TouchStep(old(Current()), touches[0], Settings(screenWidth, deltaTime))
      ensures old(Drags(touches, screenWidth, deltaTime)) ==> pitch == rotationX
      ensures !old(Drags(touches, screenWidth, deltaTime)) ==> pitch == old(pitch)
    {
      if |touches| > 0 {
        var touch := touches[0];
        if touch.x < screenWidth * deadZoneWidth {
          return;
        }
        if touch.phase == Began {
          isDragging := true;
        } else if touch.phase == Moved && isDragging {
          var mouseX := touch.dx * sensitivity * deltaTime;
          var mouseY := touch.dy * sensitivity * deltaTime;
          yaw := yaw + mouseX;
          rotationX := rotationX - mouseY;
          rotationX := Clamp(rotationX, -verticalClamp, verticalClamp);
          pitch := rotationX;
        } else if touch.phase == Ended || touch.phase == Canceled {
          isDragging := false;
        }
      }
    }

    /** The sensitivity slider's callback. */
    method AdjustSensitivity(newSensitivity: real)
      modifies this`sensitivity
      ensures sensitivity == newSensitivity
    {
      sensitivity := newSensitivity;
    }
  }
}
