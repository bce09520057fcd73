/**
 * The SkillNode class of js/skills-tree.js as a heap object with its
 * parent back-reference and its owned children, and the page-level state
 * (initSkillsTree, the mousemove listener, animate). Each method is
 * specified by the value-level function of SkillTree it performs on the
 * node's subtree.
 */
module SkillNodes {
  import opened Wrappers
  import opened JsMath
  import opened SkillConfig
  import opened SkillRules
  import opened SkillTree

  class SkillNode {
    const data: Skill
    const parent: SkillNode?
    const depth: nat
    const baseAngle: real
    const length: real
    var children: seq<SkillNode>
    var angle: real
    var targetAngle: real
    var vel: real
    var acc: real
    var x: real
    var y: real
    /** The line, circle and text elements; None until initDOM. */
    var dom: Option<Dom>
    /** This node and every node of its subtree. */
    ghost var Repr: set<object>

    /**
     * The subtree is a tree: each child points back to this node, owns a part
     * of the footprint disjoint from its siblings' and not containing this
     * node, and is itself valid. Only a node with a parent has a line.
     */
    ghost predicate Valid()
      reads this, Repr
      decreases Repr
    {
      this in Repr &&
      (dom.Some? && dom.value.line.Some? ==> parent != null) &&
      (forall i :: 0 <= i < |children| ==>
         children[i] in Repr && children[i].Repr <= Repr && this !in children[i].Repr &&
         children[i].parent == this && children[i].Valid()) &&
      (forall i, j :: 0 <= i < j < |children| ==> children[i].Repr !! children[j].Repr)
    }

    /** The subtree's current value. */
    ghost function Snapshot(): NodeVal
      reads this, Repr
      requires Valid()
      decreases Repr
    {
      NodeVal(data, depth, baseAngle, length, angle, targetAngle, vel, acc, x, y, dom,
              seq(|children|, i requires 0 <= i < |children| && children[i].Repr < Repr && children[i].Valid()
                                reads this, if 0 <= i < |children| then {children[i]} + children[i].Repr else {}
                                => children[i].Snapshot()))
    }

    /** The node's own fields, without its children. */
    ghost function Local(): NodeVal
      reads this
    {
      NodeVal(data, depth, baseAngle, length, angle, targetAngle, vel, acc, x, y, dom, [])
    }

    /** A subtree none of whose objects changed keeps its validity and its value. */
    static twostate lemma Framed(n: SkillNode)
      requires old(n.Valid())
      requires forall o :: o in old(n.Repr) ==> unchanged(o)
      ensures n.Valid() && n.Snapshot() == old(n.Snapshot())
    {
    }

    /** The subtree's value lists the children's values, in order. */
    lemma SnapshotKids()
      requires Valid()
      ensures |Snapshot().kids| == |children|
      ensures forall k :: 0 <= k < |children| ==> Snapshot().kids[k] == children[k].Snapshot()
    {
    }

    /** A valid subtree's value is the node's own fields over its children's values. */
    lemma Assemble(kids: seq<NodeVal>)
      requires Valid() && |kids| == |children|
      requires forall k :: 0 <= k < |children| ==> children[k].Snapshot() == kids[k]
      ensures Snapshot() == Local().(kids := kids)
    {
      SnapshotKids();
    }

    /**
     * Appending a freshly built valid child, whose parent is this node, keeps
     * the subtree valid and the earlier children's values.
     */
    twostate lemma ChildAppended(new child: SkillNode)
      requires old(Valid()) && child.Valid() && child.parent == this && fresh(child.Repr)
      requires children == old(children) + [child] && Repr == old(Repr) + child.Repr
      requires forall o :: o in old(Repr) && o != this ==> unchanged(o)
      requires Local() == old(Local())
      ensures Valid()
      ensures forall k :: 0 <= k < |old(children)| ==> children[k].Snapshot() == old(children[k].Snapshot())
    {
      forall k | 0 <= k < |old(children)|
        ensures children[k].Valid() && children[k].Snapshot() == old(children[k].Snapshot())
      {
        Framed(children[k]);
      }
    }

    /**
     * When only this node's own fields changed (keeping a line only under a
     * parent), the subtree stays valid and every child keeps its value.
     */
    twostate lemma OwnFieldsChanged()
      requires old(Valid())
      requires children == old(children) && Repr == old(Repr)
      requires dom.Some? && dom.value.line.Some? ==> parent != null
      requires forall o :: o in old(Repr) && o != this ==> unchanged(o)
      ensures Valid()
      ensures forall k :: 0 <= k < |children| ==> children[k].Snapshot() == old(children[k].Snapshot())
    {
      forall k | 0 <= k < |children|
        ensures children[k].Valid() && children[k].Snapshot() == old(children[k].Snapshot())
      {
        Framed(children[k]);
      }
    }

    /**
     * When only child `i`'s subtree changed, staying valid over the same
     * footprint, this subtree stays valid and the other children keep their values.
     */
    twostate lemma OneChildChanged(i: int)
      requires old(Valid()) && 0 <= i < |old(children)|
      requires old(children)[i].Valid() && old(children)[i].Repr == old(children[i].Repr)
      requires forall o :: o in old(Repr) && o !in old(children[i].Repr) ==> unchanged(o)
      ensures Valid() && Repr == old(Repr) && Local() == old(Local()) && children == old(children)
      ensures forall k :: 0 <= k < |children| && k != i ==> children[k].Snapshot() == old(children[k].Snapshot())
    {
      forall k | 0 <= k < |children| && k != i
        ensures children[k].Valid() && children[k].Snapshot() == old(children[k].Snapshot())
      {
        Framed(children[k]);
      }
    }

    /** `new SkillNode(data, parent, depth, angle, length)`: the node and, recursively, its children. */
    constructor (data: Skill, parent: SkillNode?, depth: nat, angle: real, length: real)
      ensures Valid() && fresh(Repr)
      ensures this.parent == parent
      ensures Snapshot() == Built(data, depth, angle, length)
      decreases data
    {
      this.data := data;
      this.parent := parent;
      this.depth := depth;
      this.children := [];
      this.baseAngle := angle;
      this.angle := angle;
      this.targetAngle := angle;
      this.length := length;
      this.vel := 0.0;
      this.acc := 0.0;
      this.x := 0.0;
      this.y := 0.0;
      this.dom := None;
      this.Repr := {this};
      new;
      ghost var built := Built(data, depth, angle, length);
      var n := |data.children|;
      var i := 0;
      while i < n
        invariant 0 <= i <= n && |children| == i
        invariant Valid() && fresh(Repr) && Local() == built.(kids := [])
        invariant forall k :: 0 <= k < i ==> children[k].Snapshot() == built.kids[k]
      {
        label Before:
        var child := new SkillNode(data.children[i], this, depth + 1, ChildAngle(angle, i, n), ChildLength(depth));
        children := children + [child];
        Repr := Repr + child.Repr;
        ChildAppended@Before(child);
        i := i + 1;
      }
      Assemble(built.kids);
    }

    /** The node's own part of initDOM: its line (only under a parent), circle and text. */
    method CreateElements()
      modifies this`dom
      ensures dom == Some(Elements(data, depth, if parent == null then None else Some(parent.data)))
    {
      var line: Option<Line> := None;
      if parent != null {
        line := Some(Line(LineColor(data.color, parent.data.color), StrokeWidth(depth), 0.0, 0.0, 0.0, 0.0));
      }
      var circle := Circle(Radius(depth), CircleFill(data.color, parent != null, if parent != null then parent.data.color else None),
                           Glow(data.color), 0.0, 0.0);
      var text := Label(data.name, FontSize(depth), FontWeight(depth), WHITE, 0.0, 0.0);
      dom := Some(Dom(line, circle, text));
    }

    /**
     * initDOM on this subtree: create the node's line (only under a parent),
     * circle and text with their colours and sizes, then do the same for each
     * child in order.
     */
    method InitDOM()
      requires Valid()
      modifies Repr
      ensures Valid() && Repr == old(Repr)
      ensures Snapshot() == Style(old(Snapshot()), if parent == null then None else Some(parent.data))
      decreases Repr
    {
      ghost var before := Snapshot();
      ghost var up := if parent == null then None else Some(parent.data);
      ghost var styled := Style(before, up);
      SnapshotKids();
      CreateElements();
      OwnFieldsChanged();
      ghost var own := Local();
      assert own == styled.(kids := []);
      var i := 0;
      while i < |children|
        invariant 0 <= i <= |children|
        invariant Valid() && Repr == old(Repr) && children == old(children) && Local() == own
        invariant forall k :: 0 <= k < i ==> children[k].Snapshot() == styled.kids[k]
        invariant forall k :: i <= k < |children| ==> children[k].Snapshot() == before.kids[k]
      {
        label Before:
        children[i].InitDOM();
        OneChildChanged@Before(i);
        i := i + 1;
      }
      Assemble(styled.kids);
    }

    /**
     * The target angle update aims for: the base angle plus the idle sway,
     * plus, within reach, a push on the angle that is negative when the mouse
     * is to the right (dx > 0) and positive otherwise.
     */
    method Aim(m: Math, input: Input) returns (target: real)
      ensures target == TargetAngle(m, baseAngle, depth, input.time, input.mouseX, input.mouseY, x, y)
    {
      var swayScale := if depth == 0 then 0.01 else 0.03;
      target := baseAngle + Sin(m, input.time * 0.0007 + depth as real) * swayScale;
      if input.mouseX.Some? && input.mouseY.Some? {
        var dx := input.mouseX.value - x;
        var dy := input.mouseY.value - y;
        var dist := Distance(m, dx, dy);
        if dist < REACH {
          var force := Force(dist);
          target := target + force * (if dx > 0.0 then -1.0 else 1.0);
        }
      }
    }

    /**
     * The node's own part of update: the target angle from the sway and the
     * mouse, one spring step, the position (pinned at the root, else at the
     * end of the branch from the parent) and the element attributes.
     */
    method Move(m: Math, input: Input)
      requires dom.Some? && parent != this
      requires dom.value.line.Some? ==> parent != null
      modifies this`targetAngle, this`acc, this`vel, this`angle, this`x, this`y, this`dom
      ensures Local() == StepNode(old(Local()), if parent == null then None else Some(Point(parent.x, parent.y)), m, input)
    {
      ghost var origin := if parent == null then None else Some(Point(parent.x, parent.y));
      ghost var st := StepNode(Local(), origin, m, input);
      var target := Aim(m, input);
      assert st.targetAngle == target;
      var a := (target - angle) * STIFFNESS;
      var v := (vel + a) * DAMPING;
      var turned := angle + v;
      assert st.acc == a && st.vel == v && st.angle == turned;
      var p;
      if parent == null {
        p := Pinned(input);
      } else {
        p := Point(parent.x + Cos(m, turned) * length, parent.y + Sin(m, turned) * length);
        assert p == Point(origin.value.x + Cos(m, st.angle) * length, origin.value.y + Sin(m, st.angle) * length);
      }
      assert st.x == p.x && st.y == p.y;
      var d := dom.value;
      if d.line.Some? {
        d := d.(line := Some(d.line.value.(x1 := parent.x, y1 := parent.y, x2 := p.x, y2 := p.y)));
      }
      d := d.(circle := d.circle.(cx := p.x, cy := p.y), text := d.text.(x := p.x + 15.0, y := p.y + 5.0));
      assert Some(d) == st.dom;
      targetAngle, acc, vel, angle, x, y, dom := target, a, v, turned, p.x, p.y, Some(d);
    }

    /**
     * update on this subtree: the node's target, spring step and position
     * (pinned at the root, else from the parent's position of this same tick),
     * its element attributes, then each child in order.
     */
    method Update(m: Math, input: Input)
      requires Valid() && Created(Snapshot())
      requires parent != null ==> parent !in Repr
      modifies Repr
      ensures Valid() && Repr == old(Repr)
      ensures Snapshot() == Tick(old(Snapshot()), if parent == null then None else Some(Point(parent.x, parent.y)), m, input)
      decreases Repr
    {
      ghost var before := Snapshot();
      ghost var origin := if parent == null then None else Some(Point(parent.x, parent.y));
      ghost var ticked := Tick(before, origin, m, input);
      SnapshotKids();
      assert Local() == before.(kids := []);
      StepNodeOwn(before, origin, m, input);
      Move(m, input);
      OwnFieldsChanged();
      ghost var own := Local();
      assert own == ticked.(kids := []);
      var i := 0;
      while i < |children|
        invariant 0 <= i <= |children|
        invariant Valid() && Repr == old(Repr) && children == old(children) && Local() == own
        invariant forall k :: 0 <= k < i ==> children[k].Snapshot() == ticked.kids[k]
        invariant forall k :: i <= k < |children| ==> children[k].Snapshot() == before.kids[k]
      {
        label Before:
        children[i].Update(m, input);
        OneChildChanged@Before(i);
        i := i + 1;
      }
      Assemble(ticked.kids);
    }

    /** The mouseenter listener: enlarge the circle and label, highlight the label, nudge the velocity. */
    method MouseEnter()
      requires dom.Some?
      modifies this`vel, this`dom
      ensures vel == old(vel) + IMPULSE
      ensures dom == Some(old(dom.value).(circle := old(dom.value.circle).(r := HoverRadius(depth)),
                                          text := old(dom.value.text).(fontSize := HoverFontSize(depth), fill := ACCENT)))
    {
      var d := dom.value;
      d := d.(circle := d.circle.(r := HoverRadius(depth)));
      d := d.(text := d.text.(fontSize := HoverFontSize(depth), fill := ACCENT));
      dom := Some(d);
      vel := vel + IMPULSE;
    }

    /** The mouseleave listener: restore the circle and label; the velocity is left alone. */
    method MouseLeave()
      requires dom.Some?
      modifies this`dom
      ensures dom == Some(old(dom.value).(circle := old(dom.value.circle).(r := Radius(depth)),
                                          text := old(dom.value.text).(fontSize := FontSize(depth), fill := WHITE)))
    {
      var d := dom.value;
      d := d.(circle := d.circle.(r := Radius(depth)));
      d := d.(text := d.text.(fontSize := FontSize(depth), fill := WHITE));
      dom := Some(d);
    }
  }

  /**
   * The page-level state of js/skills-tree.js: the root node, the mouse
   * position relative to the container (undefined until the first mousemove)
   * and the number of mousemove listeners initSkillsTree has registered.
   */
  class SkillsTreePage {
    var root: SkillNode?
    var mouseX: Option<real>
    var mouseY: Option<real>
    var listeners: nat
    ghost var Repr: set<object>

    /** A root, when there is one, is a drawn top-level tree owned by the page. */
    ghost predicate Valid()
      reads this, Repr
    {
      this in Repr &&
      (root != null ==>
         root in Repr && root.Repr <= Repr && this !in root.Repr &&
         root.parent == null && root.Valid() && Created(root.Snapshot()))
    }

    /** The page before DOMContentLoaded: no tree, no mouse, no listener. */
    constructor ()
      ensures Valid() && fresh(Repr)
      ensures root == null && mouseX == None && mouseY == None && listeners == 0
    {
      root := null;
      mouseX := None;
      mouseY := None;
      listeners := 0;
      Repr := {this};
    }

    /**
     * initSkillsTree: without a container nothing happens; otherwise a new
     * root is built from the configuration and drawn, and one more mousemove
     * listener is registered.
     */
    method Init(containerPresent: bool)
      requires Valid()
      modifies this
      ensures Valid() && fresh(Repr - old(Repr))
      ensures mouseX == old(mouseX) && mouseY == old(mouseY)
      ensures !containerPresent ==> root == old(root) && listeners == old(listeners) && Repr == old(Repr)
      ensures containerPresent ==> root != null && fresh(root) && root.Snapshot() == Planted()
      ensures containerPresent ==> listeners == old(listeners) + 1
    {
      if !containerPresent {
        return;
      }
      var node := Sprout(SkillsData);
      root := node;
      listeners := listeners + 1;
      Repr := {this} + node.Repr;
    }

    /** A root built from `data` and drawn: a top-level tree with every element created. */
    static method Sprout(data: Skill) returns (node: SkillNode)
      ensures node.Valid() && fresh(node.Repr) && node.parent == null
      ensures node.Snapshot() == Style(Built(data, 0, ROOT_ANGLE, ROOT_LENGTH), None)
      ensures Created(node.Snapshot())
    {
      node := new SkillNode(data, null, 0, ROOT_ANGLE, ROOT_LENGTH);
      node.InitDOM();
      StyleMounts(Built(data, 0, ROOT_ANGLE, ROOT_LENGTH), None);
      MountedIsCreated(node.Snapshot(), false);
    }

    /** The mousemove listener: the mouse relative to the container's top-left corner. */
    method MouseMove(clientX: real, clientY: real, rectLeft: real, rectTop: real)
      modifies this`mouseX, this`mouseY
      ensures listeners > 0 ==> mouseX == Some(clientX - rectLeft) && mouseY == Some(clientY - rectTop)
      ensures listeners == 0 ==> mouseX == old(mouseX) && mouseY == old(mouseY)
    {
      if listeners > 0 {
        mouseX := Some(clientX - rectLeft);
        mouseY := Some(clientY - rectTop);
      }
    }

    /** One animation frame: update the whole tree with the current mouse, if there is a tree. */
    method Animate(m: Math, time: real, containerWidth: Option<real>)
      requires Valid()
      modifies Repr
      ensures Valid() && Repr == old(Repr) && root == old(root)
      ensures mouseX == old(mouseX) && mouseY == old(mouseY) && listeners == old(listeners)
      ensures root != null ==>
                root.Snapshot() == Tick(old(root.Snapshot()), None, m, Input(old(mouseX), old(mouseY), time, containerWidth))
    {
      if root != null {
        ghost var before := root.Snapshot();
        root.Update(m, Input(mouseX, mouseY, time, containerWidth));
        TickKeepsShape(before, None, m, Input(mouseX, mouseY, time, containerWidth), false);
      }
    }
  }
}
