/**
 * The per-node rules of js/skills-tree.js: where a child is placed, how far
 * the sway and the mouse push a target angle, one damped-spring step, and
 * the colours and sizes a node is drawn with.
 */
module SkillRules {
  import opened Wrappers
  import opened JsMath

  /** Width of the arc a node's children are spread over. */
  const SPREAD: real := PI * 0.75
  const STIFFNESS: real := 0.05
  const DAMPING: real := 0.92
  /** Angle and edge length initSkillsTree gives the root. */
  const ROOT_ANGLE: real := PI / 2.0
  const ROOT_LENGTH: real := 110.0
  /** Mouse distance below which a node is pushed. */
  const REACH: real := 250.0
  /** Velocity a hover adds. */
  const IMPULSE: real := 0.15
  /** Where the root is pinned: half the container's width (400 without one), 120 down. */
  const FALLBACK_X: real := 400.0
  const ROOT_Y: real := 120.0
  const WHITE: string := "#ffffff"
  const ACCENT: string := "var(--accent)"

  // ---------------------------------------------------------------- layout

  /** `data.children.length - 1 || 1`: a single child divides by 1 instead of 0. */
  function Divisor(n: nat): (d: real)
    requires 1 <= n
    ensures 1.0 <= d
    ensures 2 <= n ==> d == (n - 1) as real
    ensures n == 1 ==> d == 1.0
  {
    if n - 1 == 0 then 1.0 else (n - 1) as real
  }

  /** Base angle of child i of n whose parent was built with `angle`. */
  function ChildAngle(angle: real, i: nat, n: nat): real
    requires i < n
  {
    angle + (SPREAD * (i as real / Divisor(n)) - SPREAD / 2.0)
  }

  /** Edge length of a child of a node at `depth`. */
  function ChildLength(depth: nat): real
  {
    if depth == 0 then 180.0 else 130.0
  }

  /** With two or more children, child i sits at angle - 3π/8 + (3π/4)·i/(n-1). */
  lemma ChildAngleFormula(angle: real, i: nat, n: nat)
    requires 2 <= n && i < n
    ensures ChildAngle(angle, i, n) == angle - 3.0 * PI / 8.0 + (3.0 * PI / 4.0) * (i as real) / ((n - 1) as real)
  {
  }

  /** The first and the last of two or more children sit at -3π/8 and +3π/8 from the parent. */
  lemma ChildAngleEnds(angle: real, n: nat)
    requires 2 <= n
    ensures ChildAngle(angle, 0, n) == angle - 3.0 * PI / 8.0
    ensures ChildAngle(angle, n - 1, n) == angle + 3.0 * PI / 8.0
  {
    var d := (n - 1) as real;
    assert (n - 1) as real / d == 1.0;
  }

  /** Neighbouring children are one equal step apart, and the step is positive. */
  lemma ChildAngleStep(angle: real, i: nat, n: nat)
    requires 2 <= n && i + 1 < n
    ensures ChildAngle(angle, i + 1, n) - ChildAngle(angle, i, n) == SPREAD / ((n - 1) as real)
    ensures ChildAngle(angle, i, n) < ChildAngle(angle, i + 1, n)
  {
    var d := (n - 1) as real;
    assert (i + 1) as real / d - i as real / d == 1.0 / d;
    assert SPREAD * ((i + 1) as real / d) - SPREAD * (i as real / d) == SPREAD * (1.0 / d);
  }

  /** Children's base angles strictly increase with their index. */
  lemma {:induction false} ChildAnglesIncrease(angle: real, i: nat, j: nat, n: nat)
    requires i < j < n
    ensures ChildAngle(angle, i, n) < ChildAngle(angle, j, n)
    decreases j - i
  {
    ChildAngleStep(angle, i, n);
    if i + 1 < j {
      ChildAnglesIncrease(angle, i + 1, j, n);
    }
  }

  /**
   * A single child is not centred on its parent: the divisor falls back to 1
   * and index 0 leaves it at the left end of the arc, 3π/8 before the parent.
   */
  lemma SingleChildAngle(angle: real)
    ensures ChildAngle(angle, 0, 1) == angle - 3.0 * PI / 8.0
    ensures ChildAngle(angle, 0, 1) != angle
  {
  }

  // ---------------------------------------------------------------- physics

  /** The time-varying sway: sin(time·0.0007 + depth), scaled 0.01 at the root and 0.03 below. */
  function Sway(m: Math, depth: nat, time: real): real
  {
    Sin(m, time * 0.0007 + depth as real) * (if depth == 0 then 0.01 else 0.03)
  }

  /** Math.sqrt(dx * dx + dy * dy): the mouse's distance from a node. */
  function Distance(m: Math, dx: real, dy: real): real
  {
    Sqrt(m, dx * dx + dy * dy)
  }

  /** The mouse is defined on both axes and closer than REACH to (x, y). */
  ghost predicate InReach(m: Math, mouseX: Option<real>, mouseY: Option<real>, x: real, y: real)
  {
    mouseX.Some? && mouseY.Some? &&
    Distance(m, mouseX.value - x, mouseY.value - y) < REACH
  }

  /** The repulsion force at distance `dist`: (250 - dist) / 2500. */
  function Force(dist: real): (f: real)
    requires dist < REACH
    ensures 0.0 < f
    ensures 0.0 <= dist ==> f <= 0.1
  {
    (REACH - dist) / 2500.0
  }

  /**
   * What the mouse adds to a node's target angle when the node was last
   * drawn at (x, y): nothing when it is undefined or out of reach, otherwise
   * the force, pushed negative when the mouse is to the right (dx > 0) and
   * positive otherwise.
   */
  function Repulsion(m: Math, mouseX: Option<real>, mouseY: Option<real>, x: real, y: real): (r: real)
    ensures r != 0.0 <==> InReach(m, mouseX, mouseY, x, y)
    ensures r < 0.0 <==> InReach(m, mouseX, mouseY, x, y) && mouseX.value - x > 0.0
    ensures r > 0.0 <==> InReach(m, mouseX, mouseY, x, y) && mouseX.value - x <= 0.0
    ensures SqrtIsRoot(m) ==> -0.1 <= r <= 0.1
  {
    if mouseX.Some? && mouseY.Some? then
      var dx := mouseX.value - x;
      var dy := mouseY.value - y;
      var dist := Distance(m, dx, dy);
      if dist < REACH then Force(dist) * (if dx > 0.0 then -1.0 else 1.0) else 0.0
    else 0.0
  }

  /** Mirroring the mouse left-right across the node flips the push and keeps its size. */
  lemma RepulsionMirror(m: Math, x: real, y: real, dx: real, dy: real)
    requires dx != 0.0
    ensures Repulsion(m, Some(x + dx), Some(y + dy), x, y) == -Repulsion(m, Some(x - dx), Some(y + dy), x, y)
  {
    assert x + dx - x == dx && x - dx - x == -dx;
    assert dx * dx == (-dx) * (-dx);
    assert Distance(m, dx, y + dy - y) == Distance(m, -dx, y + dy - y);
  }

  /** The target angle of one tick: the base angle, the sway, and the mouse's push. */
  function TargetAngle(m: Math, baseAngle: real, depth: nat, time: real,
                       mouseX: Option<real>, mouseY: Option<real>, x: real, y: real): (t: real)
    ensures !InReach(m, mouseX, mouseY, x, y) ==> t == baseAngle + Sway(m, depth, time)
    ensures SqrtIsRoot(m) ==> -0.1 <= t - baseAngle - Sway(m, depth, time) <= 0.1
  {
    baseAngle + Sway(m, depth, time) + Repulsion(m, mouseX, mouseY, x, y)
  }

  /** The angle, velocity and acceleration after one spring step. */
  datatype Spring = Spring(angle: real, vel: real, acc: real)

  /** acc = (target - angle)·stiffness; vel = (vel + acc)·damping; angle = angle + vel. */
  function SpringStep(angle: real, vel: real, target: real): Spring
  {
    var acc := (target - angle) * STIFFNESS;
    var v := (vel + acc) * DAMPING;
    Spring(angle + v, v, acc)
  }

  /** A node at its target with no velocity stays where it is. */
  lemma SpringAtRest(angle: real)
    ensures SpringStep(angle, 0.0, angle) == Spring(angle, 0.0, 0.0)
  {
  }

  /** Starting at rest, a step moves the angle toward the target without passing it. */
  lemma SpringFromRest(angle: real, target: real)
    ensures angle < target ==> angle < SpringStep(angle, 0.0, target).angle < target
    ensures target < angle ==> target < SpringStep(angle, 0.0, target).angle < angle
  {
  }

  // ---------------------------------------------------------------- drawing

  /** JavaScript truthiness of an optional colour string: defined and not empty. */
  predicate Truthy(c: Option<string>)
  {
    c.Some? && c.value != ""
  }

  /** `own || parent || "#ffffff"`: the stroke colour of a node's line. */
  function LineColor(own: Option<string>, parentColor: Option<string>): (c: string)
    ensures c != ""
    ensures Truthy(own) ==> c == own.value
    ensures !Truthy(own) && Truthy(parentColor) ==> c == parentColor.value
    ensures !Truthy(own) && !Truthy(parentColor) ==> c == WHITE
  {
    if Truthy(own) then own.value
    else if Truthy(parentColor) then parentColor.value
    else WHITE
  }

  /**
   * `own || (parent ? parent.color : "#ffffff")`: the circle's fill. Under a
   * parent this is the parent's colour as it is, undefined included.
   */
  function CircleFill(own: Option<string>, hasParent: bool, parentColor: Option<string>): (c: Option<string>)
    ensures Truthy(own) ==> c == own
    ensures !Truthy(own) && hasParent ==> c == parentColor
    ensures !Truthy(own) && !hasParent ==> c == Some(WHITE)
  {
    if Truthy(own) then own
    else if hasParent then parentColor
    else Some(WHITE)
  }

  /**
   * The colour of the circle's drop shadow: the node's own colour (never the
   * parent's), else white, with "aa" opacity appended.
   */
  function Glow(own: Option<string>): (c: string)
    ensures |c| >= 2 && c[|c| - 2..] == "aa"
    ensures Truthy(own) ==> c == own.value + "aa"
    ensures !Truthy(own) ==> c == WHITE + "aa"
  {
    (if Truthy(own) then own.value else WHITE) + "aa"
  }

  /** max(1, 4 - depth). */
  function StrokeWidth(depth: nat): (w: real)
    ensures 1.0 <= w <= 4.0
    ensures depth <= 3 ==> w == 4.0 - depth as real
    ensures 3 <= depth ==> w == 1.0
  {
    if 1.0 > 4.0 - depth as real then 1.0 else 4.0 - depth as real
  }

  /** Stroke width never grows with depth. */
  lemma StrokeWidthMonotone(d1: nat, d2: nat)
    requires d1 <= d2
    ensures StrokeWidth(d2) <= StrokeWidth(d1)
  {
  }

  function Radius(depth: nat): real
  {
    if depth == 0 then 10.0 else 5.0
  }

  function HoverRadius(depth: nat): real
  {
    if depth == 0 then 15.0 else 8.0
  }

  function FontSize(depth: nat): nat
  {
    if depth == 0 then 18 else 13
  }

  function HoverFontSize(depth: nat): nat
  {
    if depth == 0 then 20 else 15
  }

  function FontWeight(depth: nat): nat
  {
    if depth == 0 then 700 else 500
  }

  /** Hovering enlarges both the circle and the label, the root's more than the others'. */
  lemma HoverEnlarges(depth: nat)
    ensures Radius(depth) < HoverRadius(depth)
    ensures FontSize(depth) < HoverFontSize(depth)
    ensures depth == 0 <==> Radius(depth) == 10.0
  {
  }
}
