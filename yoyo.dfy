/**
 * The yo-yo toy of js/yoyo.js, without its Three.js scene: the vertical
 * position, the ping-pong direction, the animating and dragging flags, and
 * the plain numbers the scene is driven by (the yo-yo's height, the two
 * ends of its string, its spin).
 */
module Yoyo {

  /** Lowest and highest rest positions of the yo-yo (0 at the top). */
  const BOTTOM: real := -3.0
  const TOP: real := 0.0
  /** Distance travelled by one animation frame. */
  const STEP: real := 0.02
  /** Spin added by every frame. */
  const SPIN: real := 0.05
  /** Drag sensitivity: position change per pixel of mouse movement. */
  const DRAG_SCALE: real := 0.01
  /** Height of the yo-yo when its position is 0, and of the string's fixed top. */
  const REST_HEIGHT: real := 2.0
  const ANCHOR_HEIGHT: real := 4.0

  datatype Vec3 = Vec3(x: real, y: real, z: real)

  /** THREE.MathUtils.clamp(v, lo, hi), which is max(lo, min(hi, v)). */
  function Clamp(v: real, lo: real, hi: real): (r: real)
    ensures lo <= hi ==> lo <= r <= hi
    ensures lo <= v <= hi ==> r == v
    ensures r != v ==> r == lo || r == hi
    ensures v < lo ==> r == lo
    ensures lo <= hi < v ==> r == hi
  {
    var m := if hi < v then hi else v;
    if lo > m then lo else m
  }

  /** The position a drag moves to, from the old position and the mouse's vertical movement. */
  function Dragged(position: real, previousY: real, clientY: real): (r: real)
    ensures BOTTOM <= r <= TOP
    ensures BOTTOM <= position + (clientY - previousY) * DRAG_SCALE <= TOP ==>
              r == position + (clientY - previousY) * DRAG_SCALE
    ensures position + (clientY - previousY) * DRAG_SCALE < BOTTOM ==> r == BOTTOM
    ensures TOP < position + (clientY - previousY) * DRAG_SCALE ==> r == TOP
  {
    Clamp(position + (clientY - previousY) * DRAG_SCALE, BOTTOM, TOP)
  }

  /** A part of a positive whole is between none and all of it. */
  lemma Fraction(part: real, whole: real)
    requires whole != 0.0
    ensures 0.0 < whole && 0.0 <= part <= whole ==> 0.0 <= part / whole <= 1.0
  {
    var q := part / whole;
    assert q * whole == part;
    if 0.0 < whole && q < 0.0 {
      assert q * whole < 0.0;
    }
    if 0.0 < whole && q > 1.0 {
      assert q * whole > whole;
    }
  }

  /** The position set by a scroll event: 0 at the top of the page, -3 at the bottom. */
  function ScrollPosition(scrollY: real, scrollHeight: real, innerHeight: real): (r: real)
    requires scrollHeight != innerHeight
    ensures scrollY == 0.0 ==> r == TOP
    ensures scrollY == scrollHeight - innerHeight ==> r == BOTTOM
    ensures scrollHeight > innerHeight && 0.0 <= scrollY <= scrollHeight - innerHeight ==>
              BOTTOM <= r <= TOP
  {
    var range := scrollHeight - innerHeight;
    var scrollPercent := scrollY / range;
    assert scrollPercent * range == scrollY;
    Fraction(scrollY, range);
    -scrollPercent * 3.0
  }

  /** The animated part of the state: where the yo-yo is and where it is heading. */
  datatype Swing = Swing(position: real, direction: real)

  /** One frame of the ping-pong animation while it is running. */
  function Frame(s: Swing): Swing
  {
    var p := s.position + STEP * s.direction;
    Swing(p, if p <= BOTTOM then 1.0 else if p >= TOP then -1.0 else s.direction)
  }

  /** `count` frames in a row. */
  function Frames(s: Swing, count: nat): Swing
    decreases count
  {
    if count == 0 then s else Frames(Frame(s), count - 1)
  }

  ghost predicate UnitDirection(s: Swing)
  {
    s.direction == 1.0 || s.direction == -1.0
  }

  /**
   * The overshoot bound: at most one step outside [BOTTOM, TOP], and when
   * outside, heading back in.
   */
  ghost predicate Bounded(s: Swing)
  {
    UnitDirection(s) &&
    BOTTOM - STEP <= s.position <= TOP + STEP &&
    (s.position < BOTTOM ==> s.direction == 1.0) &&
    (s.position > TOP ==> s.direction == -1.0)
  }

  /** A frame moves by exactly one step in the current direction, and the direction stays a unit. */
  lemma FrameMoves(s: Swing)
    requires UnitDirection(s)
    ensures Frame(s).position == s.position + STEP * s.direction
    ensures UnitDirection(Frame(s))
    ensures Frame(s).position <= BOTTOM ==> Frame(s).direction == 1.0
    ensures Frame(s).position >= TOP ==> Frame(s).direction == -1.0
    ensures BOTTOM < Frame(s).position < TOP ==> Frame(s).direction == s.direction
  {
  }

  lemma FrameKeepsBounded(s: Swing)
    requires Bounded(s)
    ensures Bounded(Frame(s))
  {
  }

  /** From any rest position in [BOTTOM, TOP], any number of frames stays within the overshoot bound. */
  lemma {:induction false} FramesStayBounded(s: Swing, count: nat)
    requires UnitDirection(s) && BOTTOM <= s.position <= TOP
    ensures Bounded(Frames(s, count))
  {
    BoundedFrames(s, count);
  }

  lemma {:induction false} BoundedFrames(s: Swing, count: nat)
    requires Bounded(s)
    ensures Bounded(Frames(s, count))
    decreases count
  {
    if count > 0 {
      FrameKeepsBounded(s);
      BoundedFrames(Frame(s), count - 1);
    }
  }

  /**
   * The module-level state of js/yoyo.js and the local drag state of
   * initYoyo, one method per event handler and one per animation frame.
   */
  class YoyoToy {
    var position: real
    var direction: real
    var animating: bool
    var dragging: bool
    var previousMouseY: real
    /** yoyo.position.y */
    var height: real
    /** The two points of the string's line geometry. */
    var stringTop: Vec3
    var stringEnd: Vec3
    /** yoyo.rotation.y */
    var spin: real

    /** Direction is a unit, and the yo-yo and the string's lower end sit at 2 + position. */
    ghost predicate Valid()
      reads this
    {
      UnitDirection(Swing(position, direction)) &&
      height == REST_HEIGHT + position &&
      stringTop == Vec3(0.0, ANCHOR_HEIGHT, 0.0) &&
      stringEnd == Vec3(0.0, height, 0.0)
    }

    ghost function State(): Swing
      reads this
    {
      Swing(position, direction)
    }

    /** The initial values of the globals, of createYoyo's height and of createString's points. */
    constructor ()
      ensures Valid()
      ensures position == 0.0 && direction == 1.0 && !animating && !dragging
      ensures previousMouseY == 0.0 && spin == 0.0
      ensures height == REST_HEIGHT && stringEnd.y == height
    {
      position := 0.0;
      direction := 1.0;
      animating := false;
      dragging := false;
      previousMouseY := 0.0;
      height := REST_HEIGHT;
      stringTop := Vec3(0.0, ANCHOR_HEIGHT, 0.0);
      stringEnd := Vec3(0.0, REST_HEIGHT, 0.0);
      spin := 0.0;
    }

    /** updateYoyoPosition: moves the yo-yo and the string's lower end to 2 + position. */
    method UpdateYoyoPosition()
      modifies this`height, this`stringTop, this`stringEnd
      ensures height == REST_HEIGHT + position
      ensures stringTop == Vec3(0.0, ANCHOR_HEIGHT, 0.0)
      ensures stringEnd == Vec3(0.0, height, 0.0)
    {
      height := REST_HEIGHT + position;
      stringTop := Vec3(0.0, ANCHOR_HEIGHT, 0.0);
      stringEnd := Vec3(0.0, REST_HEIGHT + position, 0.0);
    }

    method MouseDown(clientY: real)
      requires Valid()
      modifies this`dragging, this`previousMouseY, this`animating
      ensures Valid()
      ensures dragging && previousMouseY == clientY && !animating
    {
      dragging := true;
      previousMouseY := clientY;
      animating := false;
    }

    method MouseMove(clientY: real)
      requires Valid()
      modifies this
      ensures Valid()
      ensures old(dragging) ==> position == Dragged(old(position), old(previousMouseY), clientY)
      ensures old(dragging) ==> previousMouseY == clientY
      ensures old(dragging) ==>
                direction == old(direction) && animating == old(animating) &&
                dragging && spin == old(spin)
      ensures !old(dragging) ==> unchanged(this)
    {
      if dragging {
        var deltaY := (clientY - previousMouseY) * DRAG_SCALE;
        position := Clamp(position + deltaY, BOTTOM, TOP);
        UpdateYoyoPosition();
        previousMouseY := clientY;
      }
    }

    method MouseUp()
      requires Valid()
      modifies this`dragging, this`animating
      ensures Valid()
      ensures !dragging && animating
    {
      dragging := false;
      animating := true;
    }

    method MouseLeave()
      requires Valid()
      modifies this`dragging
      ensures Valid()
      ensures !dragging
    {
      dragging := false;
    }

    method Click()
      requires Valid()
      modifies this`animating
      ensures Valid()
      ensures animating == !old(animating)
    {
      animating := !animating;
    }

    method Scroll(scrollY: real, scrollHeight: real, innerHeight: real)
      requires Valid()
      requires scrollHeight != innerHeight
      modifies this
      ensures Valid()
      ensures position == ScrollPosition(scrollY, scrollHeight, innerHeight)
      ensures !animating
      ensures direction == old(direction) && dragging == old(dragging)
      ensures previousMouseY == old(previousMouseY) && spin == old(spin)
    {
      var scrollPercent := scrollY / (scrollHeight - innerHeight);
      position := -scrollPercent * 3.0;
      UpdateYoyoPosition();
      animating := false;
    }

    /** One call of animate: spin, and while animating one ping-pong frame. */
    method Animate()
      requires Valid()
      modifies this
      ensures Valid()
      ensures spin == old(spin) + SPIN
      ensures old(animating) ==> State() == Frame(old(State()))
      ensures !old(animating) ==> position == old(position) && direction == old(direction)
      ensures Bounded(old(State())) ==> Bounded(State())
      ensures animating == old(animating) && dragging == old(dragging)
      ensures previousMouseY == old(previousMouseY)
    {
      spin := spin + SPIN;
      if animating {
        position := position + STEP * direction;
        if position <= BOTTOM {
          direction := 1.0;
        } else if position >= TOP {
          direction := -1.0;
        }
        UpdateYoyoPosition();
      }
      if Bounded(old(State())) {
        FrameKeepsBounded(old(State()));
      }
    }
  }

  /**
   * A press and release on the container is followed by the browser's click
   * event on it; mouseup starts the animation and the click toggles it off
   * again.
   */
  method PressReleaseClick(toy: YoyoToy, clientY: real)
    requires toy.Valid()
    modifies toy
    ensures toy.Valid() && !toy.animating && !toy.dragging
    ensures toy.position == old(toy.position)
  {
    toy.MouseDown(clientY);
    toy.MouseUp();
    toy.Click();
  }
}
