/**
 * The skills tree as a value: what a SkillNode and its owned SVG elements
 * hold at one moment, and the three things done to a whole tree in
 * js/skills-tree.js: building it from the configuration (the SkillNode
 * constructor), creating its elements (initDOM) and one animation tick
 * (update). The SkillNode class is specified by these functions.
 */
module SkillTree {
  import opened Wrappers
  import opened JsMath
  import opened SkillConfig
  import opened SkillRules

  datatype Point = Point(x: real, y: real)

  /** The attributes the tree writes to its SVG line, circle and text elements. */
  datatype Line = Line(stroke: string, width: real, x1: real, y1: real, x2: real, y2: real)
  datatype Circle = Circle(r: real, fill: Option<string>, glow: string, cx: real, cy: real)
  datatype Label = Label(text: string, fontSize: nat, fontWeight: nat, fill: string, x: real, y: real)
  /** A node's elements: no line for the root, a circle and a label for every node. */
  datatype Dom = Dom(line: Option<Line>, circle: Circle, text: Label)

  /** One node and its subtree. `dom` is None until initDOM has created the elements. */
  datatype NodeVal = NodeVal(
    data: Skill, depth: nat, baseAngle: real, length: real,
    angle: real, targetAngle: real, vel: real, acc: real,
    x: real, y: real,
    dom: Option<Dom>,
    kids: seq<NodeVal>)

  /** What one tick reads from the page: the mouse (undefined until it moves), the time, the container's width. */
  datatype Input = Input(mouseX: Option<real>, mouseY: Option<real>, time: real, containerWidth: Option<real>)

  // ---------------------------------------------------------------- build

  /** `new SkillNode(data, parent, depth, angle, length)`, as a value. */
  function Built(data: Skill, depth: nat, angle: real, length: real): NodeVal
    decreases data
  {
    var n := |data.children|;
    NodeVal(data, depth, angle, length, angle, angle, 0.0, 0.0, 0.0, 0.0, None,
            seq(n, i requires 0 <= i < n =>
                      Built(data.children[i], depth + 1, ChildAngle(angle, i, n), ChildLength(depth))))
  }

  /**
   * Every node mirrors its configuration: one child per configured child, in
   * order, each one level deeper, placed on its parent's arc at the parent's
   * child length.
   */
  ghost predicate LaidOut(v: NodeVal)
    decreases v
  {
    |v.kids| == |v.data.children| &&
    forall i :: 0 <= i < |v.kids| ==>
      v.kids[i].data == v.data.children[i] &&
      v.kids[i].depth == v.depth + 1 &&
      v.kids[i].baseAngle == ChildAngle(v.baseAngle, i, |v.kids|) &&
      v.kids[i].length == ChildLength(v.depth) &&
      LaidOut(v.kids[i])
  }

  /** Every node is at rest at its base angle, at the origin, with no elements yet. */
  ghost predicate AtRest(v: NodeVal)
    decreases v
  {
    v.angle == v.baseAngle && v.targetAngle == v.baseAngle &&
    v.vel == 0.0 && v.acc == 0.0 && v.x == 0.0 && v.y == 0.0 && v.dom.None? &&
    forall i :: 0 <= i < |v.kids| ==> AtRest(v.kids[i])
  }

  lemma {:induction false} BuiltMirrorsConfig(data: Skill, depth: nat, angle: real, length: real)
    ensures var v := Built(data, depth, angle, length);
      v.data == data && v.depth == depth && v.baseAngle == angle && v.length == length &&
      LaidOut(v) && AtRest(v)
    decreases data
  {
    var v := Built(data, depth, angle, length);
    forall i | 0 <= i < |v.kids|
      ensures LaidOut(v.kids[i]) && AtRest(v.kids[i])
    {
      BuiltMirrorsConfig(data.children[i], depth + 1, ChildAngle(angle, i, |v.kids|), ChildLength(depth));
    }
  }

  /** The number of nodes in a configuration and in a tree. */
  function ConfigSize(data: Skill): nat
    decreases data
  {
    1 + SumConfig(data.children)
  }

  function SumConfig(cs: seq<Skill>): nat
    decreases cs
  {
    if cs == [] then 0 else ConfigSize(cs[0]) + SumConfig(cs[1..])
  }

  function Size(v: NodeVal): nat
    decreases v
  {
    1 + SumSize(v.kids)
  }

  function SumSize(vs: seq<NodeVal>): nat
    decreases vs
  {
    if vs == [] then 0 else Size(vs[0]) + SumSize(vs[1..])
  }

  /** A laid-out tree has exactly one node per configuration record. */
  lemma {:induction false} LaidOutSize(v: NodeVal)
    requires LaidOut(v)
    ensures Size(v) == ConfigSize(v.data)
    decreases v, 1
  {
    LaidOutSizes(v.kids, v.data.children);
  }

  lemma {:induction false} LaidOutSizes(vs: seq<NodeVal>, cs: seq<Skill>)
    requires |vs| == |cs|
    requires forall i :: 0 <= i < |vs| ==> vs[i].data == cs[i] && LaidOut(vs[i])
    ensures SumSize(vs) == SumConfig(cs)
    decreases vs, 0
  {
    if vs != [] {
      LaidOutSize(vs[0]);
      LaidOutSizes(vs[1..], cs[1..]);
    }
  }

  // ---------------------------------------------------------------- initDOM

  /**
   * The elements initDOM creates for a node at `depth` whose parent's
   * configuration is `up` (None at the root). Coordinates are unset until the
   * first update, which SVG reads as 0.
   */
  function Elements(data: Skill, depth: nat, up: Option<Skill>): Dom
  {
    var line := if up.Some? then Some(Line(LineColor(data.color, up.value.color), StrokeWidth(depth), 0.0, 0.0, 0.0, 0.0))
                else None;
    var fill := CircleFill(data.color, up.Some?, if up.Some? then up.value.color else None);
    Dom(line,
        Circle(Radius(depth), fill, Glow(data.color), 0.0, 0.0),
        Label(data.name, FontSize(depth), FontWeight(depth), WHITE, 0.0, 0.0))
  }

  /** initDOM on a subtree whose root's parent has configuration `up`. */
  function Style(v: NodeVal, up: Option<Skill>): NodeVal
    decreases v
  {
    v.(dom := Some(Elements(v.data, v.depth, up)),
       kids := seq(|v.kids|, i requires 0 <= i < |v.kids| => Style(v.kids[i], Some(v.data))))
  }

  /** The tree initSkillsTree builds and draws: the configured skills under a root at angle π/2 with length 110. */
  function Planted(): NodeVal
  {
    Style(Built(SkillsData, 0, ROOT_ANGLE, ROOT_LENGTH), None)
  }

  /** Every node has its elements, and a line exactly when it has a parent. */
  ghost predicate Mounted(v: NodeVal, hasParent: bool)
    decreases v
  {
    v.dom.Some? && (v.dom.value.line.Some? <==> hasParent) &&
    forall i :: 0 <= i < |v.kids| ==> Mounted(v.kids[i], true)
  }

  /** Every node has its circle and label: what update needs, since it writes to them unguarded. */
  ghost predicate Created(v: NodeVal)
    decreases v
  {
    v.dom.Some? && forall i :: 0 <= i < |v.kids| ==> Created(v.kids[i])
  }

  lemma {:induction false} MountedIsCreated(v: NodeVal, hasParent: bool)
    requires Mounted(v, hasParent)
    ensures Created(v)
    decreases v
  {
    forall i | 0 <= i < |v.kids|
      ensures Created(v.kids[i])
    {
      MountedIsCreated(v.kids[i], true);
    }
  }

  /** The tree without its elements: what initDOM and update leave alone is read off this. */
  function Bare(v: NodeVal): NodeVal
    decreases v
  {
    v.(dom := None, kids := seq(|v.kids|, i requires 0 <= i < |v.kids| => Bare(v.kids[i])))
  }

  /** initDOM mounts every node and changes nothing but the elements. */
  lemma {:induction false} StyleMounts(v: NodeVal, up: Option<Skill>)
    ensures Mounted(Style(v, up), up.Some?)
    ensures Bare(Style(v, up)) == Bare(v)
    decreases v
  {
    var s := Style(v, up);
    forall i | 0 <= i < |v.kids|
      ensures Mounted(s.kids[i], true) && Bare(s.kids[i]) == Bare(v.kids[i])
    {
      StyleMounts(v.kids[i], Some(v.data));
    }
    assert Bare(s).kids == Bare(v).kids;
  }

  /**
   * Colour fallback looks one level up only: a grandchild without a colour
   * whose parent has none is drawn white even when the grandparent is coloured.
   */
  lemma LineColorIgnoresGrandparent(name: string, color: string)
    requires color != ""
    ensures var g := Skill(name, Some(color), [Skill(name, None, [Leaf(name)])]);
      var s := Style(Built(g, 0, ROOT_ANGLE, ROOT_LENGTH), None);
      |s.kids| == 1 && |s.kids[0].kids| == 1 &&
      s.kids[0].dom.Some? && s.kids[0].dom.value.line.Some? &&
      s.kids[0].dom.value.line.value.stroke == color &&
      s.kids[0].kids[0].dom.Some? && s.kids[0].kids[0].dom.value.line.Some? &&
      s.kids[0].kids[0].dom.value.line.value.stroke == WHITE
  {
    var leaf := Leaf(name);
    var mid := Skill(name, None, [leaf]);
    var g := Skill(name, Some(color), [mid]);
    var b := Built(g, 0, ROOT_ANGLE, ROOT_LENGTH);
    assert b.kids[0] == Built(mid, 1, ChildAngle(ROOT_ANGLE, 0, 1), ChildLength(0));
    assert b.kids[0].kids[0] == Built(leaf, 2, ChildAngle(ChildAngle(ROOT_ANGLE, 0, 1), 0, 1), ChildLength(1));
    var s := Style(b, None);
    assert s.kids[0] == Style(b.kids[0], Some(g));
    assert s.kids[0].kids[0] == Style(b.kids[0].kids[0], Some(mid));
  }

  // ---------------------------------------------------------------- update

  /** Where the root is pinned: the container's horizontal centre, or x = 400 without one; y = 120. */
  function Pinned(input: Input): Point
  {
    Point(if input.containerWidth.Some? then input.containerWidth.value / 2.0 else FALLBACK_X, ROOT_Y)
  }

  /** The element attributes update writes for a node drawn at `p` whose parent is at `origin`. */
  function Render(d: Dom, origin: Option<Point>, p: Point): Dom
  {
    var line := if d.line.Some? && origin.Some?
                then Some(d.line.value.(x1 := origin.value.x, y1 := origin.value.y, x2 := p.x, y2 := p.y))
                else d.line;
    Dom(line, d.circle.(cx := p.x, cy := p.y), d.text.(x := p.x + 15.0, y := p.y + 5.0))
  }

  /**
   * update's own part for one node: target, spring step, position (pinned for
   * the root, else from the parent's position at `origin`), element
   * attributes. The target is computed from the position the node was last
   * drawn at.
   */
  function StepNode(v: NodeVal, origin: Option<Point>, m: Math, input: Input): NodeVal
  {
    var target := TargetAngle(m, v.baseAngle, v.depth, input.time, input.mouseX, input.mouseY, v.x, v.y);
    var s := SpringStep(v.angle, v.vel, target);
    var p := if origin.None? then Pinned(input)
             else Point(origin.value.x + Cos(m, s.angle) * v.length, origin.value.y + Sin(m, s.angle) * v.length);
    v.(targetAngle := target, acc := s.acc, vel := s.vel, angle := s.angle, x := p.x, y := p.y,
       dom := if v.dom.Some? then Some(Render(v.dom.value, origin, p)) else None)
  }

  /** A node's own step does not depend on its children, and a tick starts with that step. */
  lemma StepNodeOwn(v: NodeVal, origin: Option<Point>, m: Math, input: Input)
    ensures StepNode(v.(kids := []), origin, m, input) == StepNode(v, origin, m, input).(kids := [])
    ensures Tick(v, origin, m, input).(kids := []) == StepNode(v, origin, m, input).(kids := [])
  {
  }

  /** update on a subtree: this node first, then each child, in order, from this node's new position. */
  function Tick(v: NodeVal, origin: Option<Point>, m: Math, input: Input): NodeVal
    decreases v
  {
    var s := StepNode(v, origin, m, input);
    s.(kids := seq(|v.kids|, i requires 0 <= i < |v.kids| => Tick(v.kids[i], Some(Point(s.x, s.y)), m, input)))
  }

  /** The fixed part of a node: configuration, depth, base angle, length, children. */
  datatype Shape = Shape(data: Skill, depth: nat, baseAngle: real, length: real, kids: seq<Shape>)

  function ShapeOf(v: NodeVal): Shape
    decreases v
  {
    Shape(v.data, v.depth, v.baseAngle, v.length,
          seq(|v.kids|, i requires 0 <= i < |v.kids| => ShapeOf(v.kids[i])))
  }

  /** A tick never touches the configuration, depth, base angle, length or children, and keeps the elements. */
  lemma {:induction false} TickKeepsShape(v: NodeVal, origin: Option<Point>, m: Math, input: Input, hasParent: bool)
    ensures ShapeOf(Tick(v, origin, m, input)) == ShapeOf(v)
    ensures Mounted(v, hasParent) ==> Mounted(Tick(v, origin, m, input), hasParent)
    ensures Created(v) ==> Created(Tick(v, origin, m, input))
    decreases v
  {
    var t := Tick(v, origin, m, input);
    forall i | 0 <= i < |v.kids|
      ensures ShapeOf(t.kids[i]) == ShapeOf(v.kids[i])
      ensures Mounted(v.kids[i], true) ==> Mounted(t.kids[i], true)
      ensures Created(v.kids[i]) ==> Created(t.kids[i])
    {
      TickKeepsShape(v.kids[i], Some(Point(t.x, t.y)), m, input, true);
    }
    assert ShapeOf(t).kids == ShapeOf(v).kids;
  }

  /** A node's circle is centred on it and its label anchored 15 right and 5 down from it. */
  ghost predicate Drawn(v: NodeVal)
  {
    v.dom.Some? ==>
      v.dom.value.circle.cx == v.x && v.dom.value.circle.cy == v.y &&
      v.dom.value.text.x == v.x + 15.0 && v.dom.value.text.y == v.y + 5.0
  }

  /** A node hangs from its parent's position p at length·(cos angle, sin angle), its line running from p to it. */
  ghost predicate Hangs(p: Point, kid: NodeVal, m: Math)
  {
    kid.x == p.x + Cos(m, kid.angle) * kid.length &&
    kid.y == p.y + Sin(m, kid.angle) * kid.length &&
    (kid.dom.Some? && kid.dom.value.line.Some? ==>
       var l := kid.dom.value.line.value;
       l.x1 == p.x && l.y1 == p.y && l.x2 == kid.x && l.y2 == kid.y)
  }

  /**
   * After a tick every child hangs from its parent's position from the same
   * tick, and every node is drawn where it is.
   */
  ghost predicate Positioned(v: NodeVal, m: Math)
    decreases v
  {
    Drawn(v) &&
    forall i :: 0 <= i < |v.kids| ==> Hangs(Point(v.x, v.y), v.kids[i], m) && Positioned(v.kids[i], m)
  }

  /** The top node of a ticked subtree: pinned or hanging from its parent, and drawn where it is. */
  lemma TickTop(v: NodeVal, origin: Option<Point>, m: Math, input: Input)
    ensures var t := Tick(v, origin, m, input);
      Drawn(t) &&
      (origin.None? ==> Point(t.x, t.y) == Pinned(input)) &&
      (origin.Some? ==> Hangs(origin.value, t, m))
  {
  }

  lemma {:induction false} TickPositions(v: NodeVal, origin: Option<Point>, m: Math, input: Input)
    ensures Positioned(Tick(v, origin, m, input), m)
    decreases v
  {
    var t := Tick(v, origin, m, input);
    TickTop(v, origin, m, input);
    forall i | 0 <= i < |v.kids|
      ensures Hangs(Point(t.x, t.y), t.kids[i], m) && Positioned(t.kids[i], m)
    {
      assert t.kids[i] == Tick(v.kids[i], Some(Point(t.x, t.y)), m, input);
      TickTop(v.kids[i], Some(Point(t.x, t.y)), m, input);
      TickPositions(v.kids[i], Some(Point(t.x, t.y)), m, input);
    }
  }

  /**
   * Node by node, `after` is one spring step from `before`: the target is
   * the base angle plus the sway for the node's depth plus the mouse's push
   * from the node's previous position, then acc = (target - angle)·0.05,
   * vel = (vel + acc)·0.92, angle = angle + vel.
   */
  ghost predicate Stepped(before: NodeVal, after: NodeVal, m: Math, input: Input)
    decreases before
  {
    after.targetAngle ==
      before.baseAngle + Sway(m, before.depth, input.time) +
      Repulsion(m, input.mouseX, input.mouseY, before.x, before.y) &&
    after.acc == (after.targetAngle - before.angle) * STIFFNESS &&
    after.vel == (before.vel + after.acc) * DAMPING &&
    after.angle == before.angle + after.vel &&
    |after.kids| == |before.kids| &&
    forall i :: 0 <= i < |before.kids| ==> Stepped(before.kids[i], after.kids[i], m, input)
  }

  lemma {:induction false} TickSteps(v: NodeVal, origin: Option<Point>, m: Math, input: Input)
    ensures Stepped(v, Tick(v, origin, m, input), m, input)
    decreases v
  {
    var t := Tick(v, origin, m, input);
    forall i | 0 <= i < |v.kids|
      ensures Stepped(v.kids[i], t.kids[i], m, input)
    {
      TickSteps(v.kids[i], Some(Point(t.x, t.y)), m, input);
    }
  }
}
