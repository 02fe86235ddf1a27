# Fractal tree: a Dafny model

This project models a small JavaFX program that draws a fractal tree and can animate the tree growing.

- **Tree** (`tree.dfy`) models `FractalTree`. `drawBranch` strokes one segment from a start point at a heading. The segment's length is `depth * 10`. Its colour factor is `1 - t` and its line width is `t * maxThickness + 1`, where `t = depth / maxDepth`. It then recurses at `depth - 1`: first turned by `-angle`, then by `+angle`. `draw` starts this at heading `-90`, which points straight up.
  - The graphics context is a `Canvas` whose `strokes` is the sequence of segments stroked since the last clear.
  - The pure function `Branch` gives the exact sequence that `drawBranch` appends. The methods `Draw` and `DrawBranch` are proved against it.
  - The lemmas about `Branch` state what the tree looks like:
    - how many segments it has, and how many at each depth;
    - the pre-order layout;
    - where each segment starts;
    - which headings are possible;
    - the bounds on colour factor and thickness.
- **TreeApp** (`tree_app.dfy`) models `FractalTreeApp`: the Draw and Animate Growth handlers, the timeline's tick and `redraw`. The class `FractalTreeApp` has the fields `depth`, `angle`, `fractalTree`, `growthAnimation` and `currentDepth`.
  - The handlers take the parsed text fields as `Option` values. `None` means parsing would throw `NumberFormatException`.
  - Each handler returns an `Outcome` naming the console message it prints, or `Done`.
  - The animation state is a `Growth` value: the depth the next tick draws, and the current `Timeline` (its target depth and whether it plays). `TickGrowth` and `TickDraw` are the tick as functions. `GrowthRun` proves what a whole run of ticks draws.

Points where the model follows the code as written:

- `FractalTreeApp.java:47`, `:73` and `:98` call a one-argument constructor `FractalTree(angle)`, but the only constructor takes three arguments (`FractalTree.java:12`). The model therefore gives the application `maxDepth` and `maxThickness` as constructor parameters, and every tree is built with them. `maxDepth` has the type `NonZero`, because it divides at `FractalTree.java:42`.
- The Animate handler builds its new tree from the field `angle`, not from the angle just entered and checked (`FractalTreeApp.java:98`). No part of the Animate path updates `angle`. `GrowPressed` reproduces this.
- The Draw handler replaces the tree but does not stop a running animation. Later ticks go on from the current `currentDepth` with the new tree. `DrawPressed` leaves the growth state unchanged.
- The handlers replace the tree instead of changing its angle, but `setAngle` still exists and mutates the field (`FractalTree.java:19-24`). `FractalTree.angle` is therefore a mutable field with `SetAngle`.
- JavaFX's `start()` is split in two:
  - the constructor covers the field initialisers and the creation of the canvas and tree;
  - `Start` covers the initial `redraw(gc, depth)` (`FractalTreeApp.java:149`).

## Model

| member | source | states |
|---|---|---|
| Tree.Branch | FractalTree.java:32-54 | the segments one drawBranch call strokes number exactly `2^depth - 1`; depth 0 strokes nothing |
| Tree.FractalTree.DrawBranch | FractalTree.java:32-54 | the canvas gains exactly `Branch` of the tree's parameters, start, heading and depth, appended after what it held |
| Tree.FractalTree.Draw | FractalTree.java:26-30 | the canvas gains exactly the tree grown from the start point at heading -90 |
| Tree.FractalTree.constructor | FractalTree.java:12-17 | the new tree holds the given angle, maximum depth and maximum thickness |
| Tree.FractalTree.SetAngle | FractalTree.java:19-24 | only the angle changes, to the given value |
| Tree.Canvas.Clear | FractalTreeApp.java:154 | clearRect leaves no strokes |
| Tree.Canvas.StrokeLine | FractalTree.java:50 | strokeLine appends exactly one segment |
| Tree.DrawRoot | FractalTree.java:26-30 | a drawn tree of depth d >= 1 has `2^d - 1` segments; the first starts at the start point with heading -90, depth d and length `10d`; depth 1 is one segment of length 10 |
| Tree.NodeAt | FractalTree.java:32-54 | the segment at each position of the drawing has depth between 1 and the tree's depth, and is exactly what drawBranch computes from its own start, heading and depth |
| Tree.BranchAt | FractalTree.java:50-53 | the i-th stroked segment is the one NodeAt finds by walking root, then left subtree, then right subtree |
| Tree.SubtreeAt | FractalTree.java:50-53 | emission is pre-order: a segment at depth k heads a contiguous run of `2^k - 1` segments that is exactly the tree drawn from its start and heading at depth k |
| Tree.Children | FractalTree.java:38-53 | a segment with depth k >= 2 is followed right away by its left child (heading -angle), and `2^(k-1)` positions later by its right child (heading +angle); both start at its endpoint and have depth k - 1 |
| Tree.SegmentShape | FractalTree.java:38-47 | every stroked segment has length `depth * 10`, ends at the endpoint along its heading, and has colour factor `1 - depth/maxDepth` and thickness `depth/maxDepth * maxThickness + 1` |
| Tree.HeadingReach | FractalTree.java:29-53 | a segment at depth d' in a tree of depth d has heading `h0 + k*angle` for some k with `abs(k) <= d - d'`, and `k` has the same parity as `d - d'` |
| Tree.StraightWhenAngleZero | FractalTree.java:52-53 | with angle 0 every segment keeps the first heading (-90 when drawn by draw) |
| Tree.DepthCensus | FractalTree.java:33-53 | a tree of depth d has exactly `2^(d-k)` segments at each depth k in 1..d and none at any other depth |
| Tree.ColorFactorRange | FractalTree.java:42-43 | the colour factor `1 - t` is 0 exactly when depth equals maxDepth; with maxDepth > 0 it lies in [0, 1] for depths up to maxDepth and is below 1 for every drawn depth |
| Tree.ThicknessRange | FractalTree.java:42-47 | the thickness is `maxThickness + 1` at maxDepth; with maxDepth > 0 and maxThickness >= 0 it is at least 1 at every depth and at most `maxThickness + 1` at every depth up to maxDepth |
| Tree.ThicknessMonotone | FractalTree.java:42-47 | with maxDepth > 0 and maxThickness >= 0, thickness never decreases as the depth grows |
| TreeApp.DrawOutcome | FractalTreeApp.java:60-77 | Draw succeeds exactly when both fields parse and the depth is at least 1; it reports invalid input exactly when either field does not parse (even when the depth is too small), and a too-small depth exactly when both parse and the depth is below 1; no angle range is checked |
| TreeApp.GrowOutcome | FractalTreeApp.java:86-125 | Animate succeeds exactly when the depth parses and is at least 1 and the angle parses and is in [0, 90]; it reports a too-small depth exactly when the depth parses below 1, whatever the angle field holds; invalid input exactly when the depth does not parse, or it is valid and the angle does not parse; an out-of-range angle exactly when the depth is valid and the parsed angle lies outside [0, 90] |
| TreeApp.StartGrowth | FractalTreeApp.java:99-122 | a started animation plays towards the given target with depth 1 next |
| TreeApp.TickDraw | FractalTreeApp.java:112-115 | a tick redraws exactly when its timeline plays and currentDepth <= targetDepth, and then at currentDepth |
| TreeApp.TickGrowth | FractalTreeApp.java:111-120 | a tick that redraws increments currentDepth and keeps playing; otherwise currentDepth stays and the timeline is (or stays) stopped; the target never changes; a stopped timeline does nothing |
| TreeApp.StoppedStays | FractalTreeApp.java:116-119 | once stopped, no number of ticks redraws or changes the state |
| TreeApp.GrowingFrom | FractalTreeApp.java:112-119 | playing from depth c towards t with c <= t + 1, n ticks redraw c, c+1, ... up to t, then the next tick stops at depth t + 1 |
| TreeApp.GrowthRun | FractalTreeApp.java:98-122 | after a valid Animate towards t >= 1, the first n ticks redraw depths 1..min(n, t) in order; the animation plays with depth n+1 while n <= t, and is stopped with depth t+1 after that |
| TreeApp.NthTick | FractalTreeApp.java:112-119 | the k-th tick after a valid Animate towards t redraws at depth k if k <= t and not at all otherwise |
| TreeApp.FractalTreeApp.constructor | FractalTreeApp.java:31-47 | the app keeps the given trigonometry, maximum depth and maximum thickness; depth 10, angle 30, currentDepth 1, no animation, a fresh empty canvas and a fresh tree at angle 30 |
| TreeApp.FractalTreeApp.Start | FractalTreeApp.java:149 | the initial drawing shows exactly one tree at the current depth |
| TreeApp.FractalTreeApp.Redraw | FractalTreeApp.java:152-156 | the canvas then holds exactly one tree from (450, 700) at the given depth; earlier strokes do not remain |
| TreeApp.FractalTreeApp.DrawPressed | FractalTreeApp.java:60-77 | refused input changes nothing. Accepted input sets depth and angle, makes a fresh tree with the new angle, and leaves exactly that tree at the new depth on the canvas. The animation state is never touched |
| TreeApp.FractalTreeApp.GrowPressed | FractalTreeApp.java:86-125 | refused input changes nothing, and a running animation keeps running. Accepted input makes a fresh tree from the old angle field and replaces the animation by a new one playing from depth 1 towards the entered depth. depth, angle and the canvas never change |
| TreeApp.FractalTreeApp.Tick | FractalTreeApp.java:111-120 | the growth state advances by TickGrowth. When TickDraw gives depth k, the canvas shows exactly the tree at k; otherwise the canvas is unchanged |

## Left out

- JavaFX windowing, layout, text fields, buttons and styling (`FractalTreeApp.java:41-56`, `129-147`, `158-160`): user-interface plumbing. The handlers take the parsed field values as inputs.
- `Integer.parseInt` and `Double.parseDouble`: library parsing. Their result is an `Option` input.
- `System.out.println`: console output. The message is modelled as the returned `Outcome`.
- The timing of `Timeline` and `KeyFrame` (the 200 ms cadence and `INDEFINITE` cycle count): each firing is an explicit `Tick` call.
- Timeline objects as shared objects: a timeline is a value. The previous timeline, which the code stops while it replaces it, is simply replaced.
- `Math.toRadians`, `Math.cos` and `Math.sin`: floating-point trigonometry. They are the `Trig` parameter, an arbitrary pair of functions on degrees.
- `Color.interpolate` and the colours themselves: a foreign library. Only the interpolation factor `1 - t` is recorded, unclamped.
- `setStroke` and `setLineWidth`: these are recorded as the segment's colour factor and thickness.
- Floating-point rounding, NaN and infinities: every `double` is a `real`. As a consequence, a NaN angle, which the range check at `FractalTreeApp.java:93` lets through, has no counterpart.
- Tree.Branch: depth is a `nat`. A negative Java `int` depth never reaches the base case at `FractalTree.java:33`, so it is not modelled.
- TreeApp.FractalTreeApp.Tick: `currentDepth` is an unbounded integer. Its 32-bit overflow after about 2^31 ticks is not modelled.
- Tree.FractalTree.constructor: `maxDepth` is non-zero by type. A zero maximum depth, which would make `t` infinite or NaN, is not modelled.
