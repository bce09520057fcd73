# Skills tree and yo-yo: a Dafny model

This project models the two pieces of computed behaviour in a personal
portfolio page's scripts.

**The skills tree** (`js/skills-tree.js`) is an SVG tree of skill categories.
It is built recursively from a static configuration. Each child is spread over
a 3π/4 arc around its parent's angle, with an edge length that depends on the
parent's depth. Each animation frame, every node:

- computes a target angle from a time-varying sway and, when the mouse is
  near, a push on the angle whose sign depends on which side of the node the
  mouse is (lowering the angle when the mouse is to the right). Whether that
  swings the node towards or away from the mouse depends on where the node
  hangs;
- takes one damped-spring step towards that target;
- recomputes its position from its parent's position of the same frame, parent
  before children.

Colours, stroke widths, radii and font sizes are chosen by small rules. A
hover enlarges a node and nudges its velocity. Two behaviours are kept as the
code has them: the colour fallback looks exactly one level up, not at the
nearest coloured ancestor, and a single child sits 3π/8 before its parent's
angle rather than on it.

**The yo-yo** (`js/yoyo.js`) is a state machine over the position, the
ping-pong direction, and the animating and dragging flags. Dragging, releasing,
leaving, clicking, scrolling and each animation frame change this state. The
Three.js scene is reduced to the numbers it is driven by: the yo-yo's height,
the two ends of its string, and its spin.

Modules:

- `Wrappers`: `Option`.
- `JsMath`: `Math.PI`, and `Math.sin`, `Math.cos` and `Math.sqrt` as functions
  passed in by the caller.
- `SkillConfig`: the configuration record and the page's configuration.
- `SkillRules`: layout, physics and drawing rules for one node.
- `SkillTree`: the tree as a value. It has three specification functions:
  - `Built`: the constructor;
  - `Style`: `initDOM`;
  - `Tick`: one `update`.
- `SkillNodes`: the `SkillNode` class, over a heap of nodes with parent
  back-references, whose methods are proved against those functions. It also
  has the page state (`initSkillsTree`, the mousemove listener, `animate`).
- `Yoyo`: the `YoyoToy` class, with one method per event handler and one per
  animation frame, plus the frame function and its invariants.

## Model

| member | source | states |
|---|---|---|
| SkillRules.Divisor | js/skills-tree.js:72 | `length - 1 \|\| 1`: at least 1, n−1 for two or more children, 1 for a single child, so there is never a division by zero |
| SkillRules.ChildAngleFormula | js/skills-tree.js:70-72 | with n ≥ 2 children, child i sits at angle − 3π/8 + (3π/4)·i/(n−1) |
| SkillRules.ChildAngleEnds | js/skills-tree.js:70-72 | the first child sits 3π/8 before the parent's angle and the last 3π/8 after it |
| SkillRules.ChildAngleStep | js/skills-tree.js:70-72 | neighbouring children are exactly (3π/4)/(n−1) apart, and that gap is positive |
| SkillRules.ChildAnglesIncrease | js/skills-tree.js:71-72 | children's base angles strictly increase with their index |
| SkillRules.SingleChildAngle | js/skills-tree.js:72 | a single child gets angle − 3π/8, which is not the parent's angle |
| SkillRules.Force | js/skills-tree.js:133-134 | within reach the force (250 − dist)/2500 is positive, and at most 0.1 for a non-negative distance |
| SkillRules.Repulsion | js/skills-tree.js:128-137 | the push is non-zero exactly when both mouse coordinates are defined and the distance is below 250; it is negative exactly when dx > 0, positive exactly when dx ≤ 0 (dx = 0 included); with a true square root it lies in [−0.1, 0.1] |
| SkillRules.RepulsionMirror | js/skills-tree.js:128-137 | mirroring the mouse left-right across the node flips the sign of the push and keeps its size |
| SkillRules.TargetAngle | js/skills-tree.js:124-137 | out of reach, the target is the base angle plus the sway; with a true square root it is never more than 0.1 away from that |
| SkillRules.SpringAtRest | js/skills-tree.js:139-143 | a node at its target with zero velocity stays where it is, with zero acceleration |
| SkillRules.SpringFromRest | js/skills-tree.js:139-143 | from rest, one step moves the angle strictly towards the target without reaching or passing it |
| SkillRules.LineColor | js/skills-tree.js:83 | the node's own colour, else the parent's own colour, else white; never empty |
| SkillRules.CircleFill | js/skills-tree.js:92 | the node's own colour; else, under a parent, the parent's colour as it is (possibly undefined); else, at the root, white |
| SkillRules.Glow | js/skills-tree.js:94 | the drop-shadow colour is the node's own colour when it has one, else white, never the parent's, followed by the "aa" opacity suffix |
| SkillRules.StrokeWidth | js/skills-tree.js:84 | max(1, 4 − depth): between 1 and 4; 4 − depth down to depth 3, and 1 from depth 3 on |
| SkillRules.StrokeWidthMonotone | js/skills-tree.js:84 | stroke width never grows with depth |
| SkillRules.HoverEnlarges | js/skills-tree.js:91-118 | hovering makes the radius and the font size larger than at rest; the resting radius is 10 exactly at the root |
| SkillRules.ChildAngle | js/skills-tree.js:70-72 | computes a child's base angle, angle + (3π/4)·i/divisor − 3π/8; its layout is stated by ChildAngleFormula, ChildAngleEnds, ChildAngleStep, ChildAnglesIncrease and SingleChildAngle |
| SkillRules.ChildLength | js/skills-tree.js:74 | computes a child's edge length, 180 under the root and 130 deeper; BuiltMirrorsConfig states that every child gets it |
| SkillRules.Sway | js/skills-tree.js:124-125 | computes sin(time·0.0007 + depth) scaled by 0.01 at the root and 0.03 below; TargetAngle and TickSteps state where it enters |
| SkillRules.Distance | js/skills-tree.js:132 | computes Math.sqrt(dx² + dy²); Repulsion states the reach test on it |
| SkillRules.SpringStep | js/skills-tree.js:139-143 | computes one spring step; SpringAtRest, SpringFromRest and TickSteps state its behaviour |
| SkillRules.Radius | js/skills-tree.js:91 | computes the resting radius, 10 at the root and 5 below; HoverEnlarges compares it with the hover radius |
| SkillRules.HoverRadius | js/skills-tree.js:108 | computes the hover radius, 15 at the root and 8 below; HoverEnlarges states it is larger than the resting one |
| SkillRules.FontSize | js/skills-tree.js:99 | computes the resting font size, 18 at the root and 13 below; HoverEnlarges compares it with the hover size |
| SkillRules.HoverFontSize | js/skills-tree.js:109 | computes the hover font size, 20 at the root and 15 below; HoverEnlarges states it is larger than the resting one |
| SkillRules.FontWeight | js/skills-tree.js:100 | computes the font weight, 700 at the root and 500 below; CreateElements puts it on every label |
| SkillTree.Built | js/skills-tree.js:43-77 | the constructor as a value: a node at rest with one built child per configuration child; BuiltMirrorsConfig and LaidOutSize state its shape, and the SkillNode constructor is proved to produce it |
| SkillTree.Elements | js/skills-tree.js:81-105 | the elements initDOM creates for one node: a line only under a parent, the circle and the label with the colours and sizes of the rules; CreateElements is proved to produce it |
| SkillTree.Style | js/skills-tree.js:80-121 | initDOM on a subtree, the node's elements and then each child's under it; StyleMounts states what it produces, and InitDOM is proved to perform it |
| SkillConfig.SkillsData | js/skills-tree.js:6-40 | the page's configuration, record by record: names, colours and children in display order |
| SkillConfig.SkillsDataShape | js/skills-tree.js:6-40 | the root is uncoloured and has three coloured categories, each with four uncoloured leaves and nothing below them |
| SkillTree.Planted | js/skills-tree.js:188-189 | the tree initSkillsTree builds and draws, from the configuration at angle π/2 and length 110; SkillsTreePage.Init is proved to produce it |
| SkillTree.Pinned | js/skills-tree.js:146-149 | the root's position, half the container's width or 400, and 120; TickTop states the root lands there |
| SkillTree.Render | js/skills-tree.js:155-166 | the element attributes update writes; TickTop and TickPositions state where the line, circle and label end up |
| SkillTree.StepNode | js/skills-tree.js:123-166 | update's own part for one node; Move is proved to perform it and TickSteps states its equations |
| SkillTree.Tick | js/skills-tree.js:123-168 | update on a subtree, this node first and then each child from its new position; TickSteps, TickPositions and TickKeepsShape state its properties, and Update is proved to perform it |
| SkillTree.BuiltMirrorsConfig | js/skills-tree.js:43-77 | a built tree keeps the caller's configuration, depth, angle and length. Recursively it has one child per configuration child, in order, each one level deeper, at its index's arc angle and at length 180 under the root and 130 deeper. Every node is at rest at its base angle with zero velocity and acceleration, at (0, 0), with no elements yet |
| SkillTree.LaidOutSize | js/skills-tree.js:68-77 | a laid-out tree has exactly as many nodes as its configuration has records |
| SkillTree.StyleMounts | js/skills-tree.js:80-120 | after initDOM, every node has its circle and text, and has a line exactly when it has a parent; nothing but the elements changes |
| SkillTree.LineColorIgnoresGrandparent | js/skills-tree.js:83 | the colour fallback looks one level up only: an uncoloured grandchild of a coloured root, under an uncoloured parent, gets a white line, while that parent's line takes the root's colour |
| SkillTree.TickKeepsShape | js/skills-tree.js:123-168 | an update never changes any node's configuration, depth, base angle, length or children, and keeps the elements mounted |
| SkillTree.TickTop | js/skills-tree.js:145-166 | after an update, the top node is pinned at (width/2 or 400, 120) when it is the root, or hangs at its parent's position plus length·(cos, sin) of its new angle. Its line runs from the parent to it, its circle is centred on it and its label sits 15 right and 5 down |
| SkillTree.TickPositions | js/skills-tree.js:145-168 | after an update, every child in the tree hangs from its parent's position of the same update, and every node is drawn where it is |
| SkillTree.TickSteps | js/skills-tree.js:123-143 | at every node, the new target is base angle + sway + push from the previous position; then acc = (target − angle)·0.05, vel = (vel + acc)·0.92 and angle = angle + vel |
| SkillNodes.SkillNode.constructor | js/skills-tree.js:43-77 | the new node and its children, created in a loop, form a valid tree with back-references to their parents whose value is the built tree |
| SkillNodes.SkillNode.CreateElements | js/skills-tree.js:81-105 | the node's elements are the line (only under a parent), the circle and the text, with the colours and sizes of the rules |
| SkillNodes.SkillNode.InitDOM | js/skills-tree.js:80-121 | the subtree stays valid over the same objects, and its value becomes initDOM of its old value (own elements first, then each child in order) |
| SkillNodes.SkillNode.Aim | js/skills-tree.js:124-137 | the target computed from the sway and the mouse is the target-angle rule at the node's previous position |
| SkillNodes.SkillNode.Move | js/skills-tree.js:123-166 | the node's own fields become one step of the rules: target, spring step, position from the parent's current position, and element attributes |
| SkillNodes.SkillNode.Update | js/skills-tree.js:123-168 | the subtree stays valid over the same objects, and its value becomes one tick of its old value: this node first, then each child from this node's new position |
| SkillNodes.SkillNode.MouseEnter | js/skills-tree.js:107-112 | adds exactly 0.15 to this node's velocity and sets the radius to 15 or 8, the font size to 20 or 15 and the label fill to the accent colour; only this node changes |
| SkillNodes.SkillNode.MouseLeave | js/skills-tree.js:114-118 | restores radius 10 or 5, font size 18 or 13 and a white label; the velocity is untouched |
| SkillNodes.SkillsTreePage.constructor | js/skills-tree.js:172-174 | no tree, mouse undefined, no listener |
| SkillNodes.SkillsTreePage.Sprout | js/skills-tree.js:188-189 | a root built from the configuration at angle π/2 and length 110, then drawn, is a valid top-level tree with every element created |
| SkillNodes.SkillsTreePage.Init | js/skills-tree.js:176-198 | without a container nothing changes; otherwise the root is a fresh tree whose value is the configured tree drawn (the same value on every re-initialisation), and one more listener is registered |
| SkillNodes.SkillsTreePage.MouseMove | js/skills-tree.js:191-195 | once a listener exists, the mouse is the client position minus the container's top-left corner; with no listener it is unchanged |
| SkillNodes.SkillsTreePage.Animate | js/skills-tree.js:200-205 | with a tree, the whole tree takes one tick with the mouse position as it was before the frame (the one the last mousemove set), the frame time and the container width, as a root pinned at the top; the mouse position and the listener count are unchanged and the page stays valid |
| Yoyo.Clamp | js/yoyo.js:64 | the result lies in [lo, hi], is the value itself when that is in range, and otherwise is the nearer bound: lo below the range, hi above it |
| Yoyo.Dragged | js/yoyo.js:62-66 | a drag lands in [−3, 0], and moves by exactly 0.01·(clientY − previousY) when that stays in range, and otherwise stops at the nearer end: −3 past the bottom, 0 past the top |
| Yoyo.ScrollPosition | js/yoyo.js:89-91 | scroll position 0 at the top of the page, −3 at the bottom, and within [−3, 0] in between |
| Yoyo.Frame | js/yoyo.js:194-200 | one ping-pong frame on position and direction; FrameMoves and FrameKeepsBounded state its behaviour, and YoyoToy.Animate is proved to perform it |
| Yoyo.Frames | js/yoyo.js:186-203 | a run of frames with the animation on; FramesStayBounded and BoundedFrames state the overshoot bound over it |
| Yoyo.FrameMoves | js/yoyo.js:193-200 | a frame moves by exactly 0.02·direction. The direction becomes +1 at or below −3 and −1 at or above 0; otherwise it is kept, and it stays ±1 |
| Yoyo.FrameKeepsBounded | js/yoyo.js:193-200 | a frame keeps the overshoot bound: the position stays in [−3.02, 0.02], and outside [−3, 0] the direction points back in |
| Yoyo.FramesStayBounded | js/yoyo.js:186-203 | from any position in [−3, 0] with direction ±1, any number of frames stays within the overshoot bound |
| Yoyo.BoundedFrames | js/yoyo.js:193-200 | the overshoot bound, once true, holds after any number of frames |
| Yoyo.YoyoToy.constructor | js/yoyo.js:3-5 | position 0, direction +1, not animating (lines 3-5), not dragging with previousMouseY 0 (lines 52-53); the yo-yo at height 2 (line 153) with the string from (0, 4, 0) to (0, 2, 0) (lines 165-168) |
| Yoyo.YoyoToy.UpdateYoyoPosition | js/yoyo.js:175-184 | the yo-yo's height is 2 + position, and the string runs from (0, 4, 0) to (0, 2 + position, 0) |
| Yoyo.YoyoToy.MouseDown | js/yoyo.js:55-59 | starts dragging from clientY and stops the animation |
| Yoyo.YoyoToy.MouseMove | js/yoyo.js:61-68 | while dragging, the position becomes the clamped drag and previousY becomes clientY, keeping the string on the yo-yo; when not dragging, nothing changes |
| Yoyo.YoyoToy.MouseUp | js/yoyo.js:70-73 | stops dragging and starts the animation |
| Yoyo.YoyoToy.MouseLeave | js/yoyo.js:75-77 | stops dragging only |
| Yoyo.YoyoToy.Click | js/yoyo.js:80-82 | negates the animating flag |
| Yoyo.YoyoToy.Scroll | js/yoyo.js:88-94 | the position becomes −3·scrollY/(scrollHeight − innerHeight), the string follows, and the animation stops |
| Yoyo.YoyoToy.Animate | js/yoyo.js:186-203 | the spin always grows by 0.05. While animating, the position and direction take one frame; otherwise they are unchanged. The overshoot bound and the string coupling are preserved |
| Yoyo.PressReleaseClick | js/yoyo.js:55-82 | a press and release on the container, followed by the click event the browser sends, leaves the yo-yo not animating: the click undoes the mouseup's start |

## Left out

- Three.js and the DOM are not modelled: the scene, camera, renderer, lights,
  `createYoyo`, `createString`, `onWindowResize`, `renderer.render`,
  `createElementNS`, `setAttribute`, `style` writes, `appendChild`,
  `innerHTML`, `getBoundingClientRect` and listener registration. Only the
  computed values are kept, as fields: colours, stroke width, radius, font
  size and weight, label text, coordinates, the yo-yo's height, the string's
  points and the spin.
- The constant styles written in `js/skills-tree.js` are dropped: the line's
  stroke-linecap "round" and opacity "0.25", the circle's cursor and the
  "0 0 10px" offsets of its drop shadow (only the shadow's colour is kept),
  the label's font family, pointer-events "none" and opacity "1", and the
  SVG's width, height and overflow. The label's `fill` attribute and its
  `style.fill` are merged into one field. In `js/yoyo.js`, the camera aspect
  and renderer size that `onWindowResize` sets are dropped.
- Scheduling is the browser's job, so `requestAnimationFrame` and the resize
  `setTimeout` debounce are not modelled. One frame or one event is one method
  call. Each re-initialisation asks for another `animate` loop, so after k
  initialisations the tree is updated k times per frame. The model counts the
  mousemove listeners that accumulate the same way, but not the loops.
- Numbers are reals, not IEEE doubles. `Math.sin`, `Math.cos` and `Math.sqrt`
  are functions the caller passes in. Where a property needs the square root
  to be one, it says so with `SqrtIsRoot`. Nothing is claimed about spring
  convergence or the sway's values over time.
- `js/header-icon.js` and `js/script.js` are not part of this model.
- SkillNodes.SkillNode.Update requires every node to have its elements.
  Before `initDOM` the source throws a TypeError on the first `setAttribute`,
  and no property is claimed for that case.
- SkillNodes.SkillNode.MouseEnter and SkillNodes.SkillNode.MouseLeave are
  stated for the node they belong to. Their effect on the value of the
  enclosing tree, as seen from the page, is not stated.
- Yoyo.YoyoToy.Scroll requires the page and the window to differ in height. With equal
  heights, the source divides by zero and the position becomes NaN or
  infinite, which reals cannot represent.
- Element coordinates that are unset before the first update are modelled as
  0, which is how SVG reads a missing coordinate.
- The circle fill of an uncoloured node under an uncoloured parent is the
  parent's undefined colour (`CircleFill` returns `None`). The model keeps it
  that way rather than falling back to white.
