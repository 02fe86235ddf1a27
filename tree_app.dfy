/**
 * The application around the tree (FractalTreeApp.java): a canvas, the depth
 * and angle last drawn with, the current tree, and a growth animation that
 * redraws the tree one level deeper on every tick of its timeline.
 *
 * The text fields are represented by what parsing them yields: `None` when
 * Integer.parseInt or Double.parseDouble would throw NumberFormatException,
 * `Some(v)` otherwise. The console message a handler prints is its Outcome.
 */
module TreeApp {
  import opened Tree

  datatype Option<T> = None | Some(value: T)

  /** How a button handler ends: normally, or with one of its console messages. */
  datatype Outcome =
    | Done
    | InvalidInput      // "Invalid input. Please enter numbers."
    | DepthTooSmall     // "Depth must be at least 1."
    | AngleOutOfRange   // "Angle must be between 0 and 90 degrees."

  /** Canvas size. */
  const Width: int := 900
  const Height: int := 700

  /** The depth and angle the application starts with. */
  const DefaultDepth: int := 10
  const DefaultAngle: real := 30.0

  /** Where redraw plants the tree: the middle of the bottom edge (integer division, as in `WIDTH / 2`). */
  const Origin: Point := Point((Width / 2) as real, Height as real)

  /** What the canvas shows after redraw at `depth` with a tree of parameters `p`. */
  function Frame(p: Params, trig: Trig, depth: nat): seq<Segment>
  {
    DrawTree(p, trig, Origin, depth)
  }

  /**
   * The Draw handler's decision. Both fields are parsed before the depth is
   * checked, so an unparsable angle is reported even when the depth is too
   * small; no range applies to the angle.
   */
  function DrawOutcome(depthIn: Option<int>, angleIn: Option<real>): (r: Outcome)
    ensures r == Done <==> depthIn.Some? && angleIn.Some? && depthIn.value >= 1
    ensures r == InvalidInput <==> depthIn.None? || angleIn.None?
    ensures r == DepthTooSmall <==> depthIn.Some? && angleIn.Some? && depthIn.value < 1
    ensures r != AngleOutOfRange
  {
    if depthIn.None? || angleIn.None? then InvalidInput
    else if depthIn.value < 1 then DepthTooSmall
    else Done
  }

  /**
   * The Animate handler's decision. The depth is checked before the angle is
   * even parsed, so a too-small depth is reported whatever the angle field
   * holds; the angle must lie in [0, 90].
   */
  function GrowOutcome(depthIn: Option<int>, angleIn: Option<real>): (r: Outcome)
    ensures r == Done <==>
              depthIn.Some? && depthIn.value >= 1 && angleIn.Some? && 0.0 <= angleIn.value <= 90.0
    ensures r == InvalidInput <==> depthIn.None? || (depthIn.value >= 1 && angleIn.None?)
    ensures r == DepthTooSmall <==> depthIn.Some? && depthIn.value < 1
    ensures r == AngleOutOfRange <==>
              depthIn.Some? && depthIn.value >= 1 && angleIn.Some? && !(0.0 <= angleIn.value <= 90.0)
  {
    if depthIn.None? then InvalidInput
    else if depthIn.value < 1 then DepthTooSmall
    else if angleIn.None? then InvalidInput
    else if angleIn.value < 0.0 || angleIn.value > 90.0 then AngleOutOfRange
    else Done
  }

  /** A Timeline whose key frame ticks the growth towards `targetDepth`, and whether it is playing. */
  datatype Timeline = Timeline(targetDepth: int, playing: bool)

  /** The animation state: the depth the next tick draws, and the current timeline if any. */
  datatype Growth = Growth(currentDepth: int, animation: Option<Timeline>)

  predicate Playing(g: Growth)
  {
    g.animation.Some? && g.animation.value.playing
  }

  /** The state a valid Animate leaves: depth 1 next, and a fresh timeline playing towards the target. */
  function StartGrowth(targetDepth: int): (g: Growth)
    ensures Playing(g) && g.currentDepth == 1 && g.animation.value.targetDepth == targetDepth
  {
    Growth(1, Some(Timeline(targetDepth, true)))
  }

  /** The depth a tick redraws at, if it redraws. */
  function TickDraw(g: Growth): (r: Option<int>)
    ensures r.Some? <==> Playing(g) && g.currentDepth <= g.animation.value.targetDepth
    ensures r.Some? ==> r.value == g.currentDepth
  {
    match g.animation
    case None => None
    case Some(tl) => if tl.playing && g.currentDepth <= tl.targetDepth then Some(g.currentDepth) else None
  }

  /**
   * The state after one tick: a stopped (or absent) timeline does not fire; a
   * tick that redraws moves on to the next depth; a tick past the target stops
   * the timeline. The target never changes.
   */
  function TickGrowth(g: Growth): (r: Growth)
    ensures !Playing(g) ==> r == g
    ensures r.animation.Some? == g.animation.Some?
    ensures r.animation.Some? ==> r.animation.value.targetDepth == g.animation.value.targetDepth
    ensures TickDraw(g).Some? ==> r.currentDepth == g.currentDepth + 1 && Playing(r)
    ensures TickDraw(g).None? ==> r.currentDepth == g.currentDepth && !Playing(r)
  {
    match g.animation
    case None => g
    case Some(tl) =>
      if !tl.playing then g
      else if g.currentDepth <= tl.targetDepth then g.(currentDepth := g.currentDepth + 1)
      else g.(animation := Some(tl.(playing := false)))
  }

  /** The state after n ticks. */
  function After(g: Growth, n: nat): Growth
    decreases n
  {
    if n == 0 then g else After(TickGrowth(g), n - 1)
  }

  /** The depths redrawn, in order, during n ticks. */
  function Redraws(g: Growth, n: nat): seq<int>
    decreases n
  {
    if n == 0 then []
    else
      (match TickDraw(g) case Some(k) => [k] case None => []) + Redraws(TickGrowth(g), n - 1)
  }

  /** A stopped animation never redraws and never changes again. */
  lemma {:induction false} StoppedStays(g: Growth, n: nat)
    requires !Playing(g)
    ensures Redraws(g, n) == [] && After(g, n) == g
    decreases n
  {
    if n > 0 {
      StoppedStays(TickGrowth(g), n - 1);
    }
  }

  /**
   * A playing animation at depth c (at most one past its target t) redraws
   * c, c+1, ..., t on consecutive ticks, then stops on the next one and stays
   * stopped with the depth at t + 1.
   */
  lemma {:induction false} GrowingFrom(c: int, t: int, n: nat)
    requires c <= t + 1
    ensures var g := Growth(c, Some(Timeline(t, true)));
      var r := Redraws(g, n);
      |r| == (if n <= t + 1 - c then n else t + 1 - c) &&
      (forall i :: 0 <= i < |r| ==> r[i] == c + i) &&
      After(g, n) == if n <= t + 1 - c then Growth(c + n, Some(Timeline(t, true)))
                     else Growth(t + 1, Some(Timeline(t, false)))
    decreases n
  {
    var g := Growth(c, Some(Timeline(t, true)));
    if n > 0 {
      if c <= t {
        GrowingFrom(c + 1, t, n - 1);
        assert Redraws(g, n) == [c] + Redraws(Growth(c + 1, Some(Timeline(t, true))), n - 1);
      } else {
        StoppedStays(Growth(t + 1, Some(Timeline(t, false))), n - 1);
        assert Redraws(g, n) == [] + Redraws(Growth(t + 1, Some(Timeline(t, false))), n - 1);
      }
    }
  }

  /**
   * After a valid Animate towards t: ticks 1..t redraw at depths 1, 2, ..., t
   * in that order, tick t + 1 stops the animation, and no later tick redraws.
   */
  lemma GrowthRun(t: int, n: nat)
    requires t >= 1
    ensures var r := Redraws(StartGrowth(t), n);
      |r| == (if n <= t then n else t) &&
      (forall i :: 0 <= i < |r| ==> r[i] == i + 1) &&
      (n <= t ==> After(StartGrowth(t), n) == Growth(n + 1, Some(Timeline(t, true)))) &&
      (n > t ==> After(StartGrowth(t), n) == Growth(t + 1, Some(Timeline(t, false))))
  {
    GrowingFrom(1, t, n);
  }

  /** The k-th tick after a valid Animate towards t redraws at depth k if k <= t, and not at all otherwise. */
  lemma NthTick(t: int, k: nat)
    requires t >= 1 && k >= 1
    ensures TickDraw(After(StartGrowth(t), k - 1)) == if k <= t then Some(k) else None
  {
    GrowthRun(t, k - 1);
  }

  class FractalTreeApp {
    /** Math.cos and Math.sin on degrees, as used by every tree the application draws. */
    const trig: Trig
    /** The maximum depth and thickness every tree is built with. */
    const maxDepth: NonZero
    const maxThickness: real
    /** The graphics context of the canvas, shared by all handlers. */
    const gc: Canvas

    var depth: int
    var angle: real
    var fractalTree: FractalTree
    var growthAnimation: Option<Timeline>
    var currentDepth: int

    /**
     * The depth drawn with is at least 1, so is the depth the next tick draws,
     * and the tree carries the application's maximum depth and thickness.
     */
    ghost predicate Valid()
      reads this
    {
      depth >= 1 && currentDepth >= 1 &&
      fractalTree.maxDepth == maxDepth && fractalTree.maxThickness == maxThickness
    }

    function GrowthState(): Growth
      reads this
    {
      Growth(currentDepth, growthAnimation)
    }

    /**
     * The field initialisers, then start() up to the initial redraw: the canvas
     * and its graphics context, and a tree at the default angle.
     */
    constructor (trig: Trig, maxDepth: NonZero, maxThickness: real)
      ensures Valid()
      ensures this.trig == trig && this.maxDepth == maxDepth && this.maxThickness == maxThickness
      ensures depth == DefaultDepth && angle == DefaultAngle
      ensures currentDepth == 1 && growthAnimation == None
      ensures fresh(gc) && fresh(fractalTree)
      ensures fractalTree.Parameters() == Params(DefaultAngle, maxDepth, maxThickness)
      ensures gc.strokes == []
    {
      this.trig := trig;
      this.maxDepth := maxDepth;
      this.maxThickness := maxThickness;
      depth := DefaultDepth;
      angle := DefaultAngle;
      currentDepth := 1;
      growthAnimation := None;
      gc := new Canvas();
      fractalTree := new FractalTree(DefaultAngle, maxDepth, maxThickness);
    }

    /** The end of start(): the initial drawing at the current depth. */
    method Start()
      requires Valid()
      modifies gc
      ensures gc.strokes == Frame(fractalTree.Parameters(), trig, depth)
    {
      Redraw(depth);
    }

    /** Clears the whole canvas, then draws one tree from the middle of the bottom edge. */
    method Redraw(drawDepth: nat)
      modifies gc
      ensures gc.strokes == Frame(fractalTree.Parameters(), trig, drawDepth)
    {
      gc.Clear();
      fractalTree.Draw(gc, trig, (Width / 2) as real, Height as real, drawDepth);
    }

    /**
     * The Draw button. Refused input changes nothing; accepted input sets the
     * depth and angle, builds a new tree with the new angle and redraws at the
     * new depth. A running animation is left alone.
     */
    method DrawPressed(depthIn: Option<int>, angleIn: Option<real>) returns (outcome: Outcome)
      requires Valid()
      modifies this`depth, this`angle, this`fractalTree, gc
      ensures Valid()
      ensures outcome == DrawOutcome(depthIn, angleIn)
      ensures GrowthState() == old(GrowthState())
      ensures outcome != Done ==>
                depth == old(depth) && angle == old(angle) && fractalTree == old(fractalTree) &&
                gc.strokes == old(gc.strokes)
      ensures outcome == Done ==>
                depth == depthIn.value && angle == angleIn.value &&
                fresh(fractalTree) && fractalTree.Parameters() == Params(angleIn.value, maxDepth, maxThickness) &&
                gc.strokes == Frame(fractalTree.Parameters(), trig, depthIn.value)
    {
      if depthIn.None? || angleIn.None? {
        return InvalidInput;
      }
      var newDepth := depthIn.value;
      var newAngle := angleIn.value;
      if newDepth < 1 {
        return DepthTooSmall;
      }
      depth := newDepth;
      angle := newAngle;
      fractalTree := new FractalTree(angle, maxDepth, maxThickness);
      Redraw(depth);
      return Done;
    }

    /**
     * The Animate Growth button. Refused input changes nothing and any
     * running animation keeps running. Accepted input builds a new tree from
     * the angle field as it already was (not from the angle just entered),
     * and replaces whatever animation there was by a new one, playing from
     * depth 1 towards the entered depth. The depth and angle fields and the
     * canvas are untouched.
     */
    method GrowPressed(depthIn: Option<int>, angleIn: Option<real>) returns (outcome: Outcome)
      requires Valid()
      modifies this`fractalTree, this`currentDepth, this`growthAnimation
      ensures Valid()
      ensures outcome == GrowOutcome(depthIn, angleIn)
      ensures depth == old(depth) && angle == old(angle) && gc.strokes == old(gc.strokes)
      ensures outcome != Done ==>
                fractalTree == old(fractalTree) && GrowthState() == old(GrowthState())
      ensures outcome == Done ==>
                fresh(fractalTree) && fractalTree.Parameters() == Params(old(angle), maxDepth, maxThickness) &&
                GrowthState() == StartGrowth(depthIn.value)
    {
      if depthIn.None? {
        return InvalidInput;
      }
      var targetDepth := depthIn.value;
      if targetDepth < 1 {
        return DepthTooSmall;
      }
      if angleIn.None? {
        return InvalidInput;
      }
      var newAngle := angleIn.value;
      if newAngle < 0.0 || newAngle > 90.0 {
        return AngleOutOfRange;
      }
      fractalTree := new FractalTree(angle, maxDepth, maxThickness);
      currentDepth := 1;
      // The previous timeline, if any, is stopped and dropped: only the new one can tick.
      growthAnimation := Some(Timeline(targetDepth, true));
      return Done;
    }

    /**
     * One key frame of the current timeline. While the depth to draw is
     * within the target it redraws at that depth and moves on; past the target
     * it stops the timeline. A stopped or absent timeline does not fire.
     */
    method Tick()
      requires Valid()
      modifies this`currentDepth, this`growthAnimation, gc
      ensures Valid()
      ensures GrowthState() == TickGrowth(old(GrowthState()))
      ensures match TickDraw(old(GrowthState()))
        case Some(k) => k >= 1 && gc.strokes == Frame(fractalTree.Parameters(), trig, k)
        case None => gc.strokes == old(gc.strokes)
    {
      match growthAnimation
      case None =>
      case Some(tl) =>
        if tl.playing {
          if currentDepth <= tl.targetDepth {
            Redraw(currentDepth);
            currentDepth := currentDepth + 1;
          } else {
            growthAnimation := Some(tl.(playing := false));
          }
        }
    }
  }
}
