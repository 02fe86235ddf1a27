/**
 * The recursive branch generator of the fractal tree (FractalTree.java).
 *
 * A FractalTree draws one segment at the current heading, then recurses twice
 * one level shallower, first turned by -angle, then by +angle. The drawing
 * surface is modelled as an append-only sequence of segment records; the
 * trigonometry of the endpoint is a parameter of the model.
 */
module Tree {

  /** A point of the canvas; x grows to the right and y grows downwards. */
  datatype Point = Point(x: real, y: real)

  /** The maximum depth divides every branch depth, so it is never zero. */
  type NonZero = r: real | r != 0.0 witness 1.0

  /**
   * The trigonometry drawBranch takes from java.lang.Math, as functions of an
   * angle in degrees: cosDeg(h) stands for Math.cos(Math.toRadians(h)).
   */
  datatype Trig = Trig(cosDeg: real -> real, sinDeg: real -> real)

  /** The three fields of a FractalTree: branch angle, maximum depth, maximum thickness. */
  datatype Params = Params(angle: real, maxDepth: NonZero, maxThickness: real)

  /**
   * One stroked line: its two end points, the heading and remaining depth that
   * produced it, its length, the factor by which its colour is interpolated
   * from the trunk colour towards the leaf colour, and its line width.
   */
  datatype Segment = Segment(from: Point, to: Point, heading: real, depth: nat,
                             length: real, colorFactor: real, thickness: real)

  /** The heading of the trunk: straight up on a canvas whose y grows downwards. */
  const Up: real := -90.0

  /** Length units per level of remaining depth. */
  const Scale: real := 10.0

  function Pow2(n: nat): (r: nat)
    ensures r >= 1
  {
    if n == 0 then 1 else 2 * Pow2(n - 1)
  }

  /** A branch with `depth` levels still to go is `depth * 10` long. */
  function Length(depth: nat): real
  {
    depth as real * Scale
  }

  /** The far end of a branch of the given length leaving `from` at `heading`. */
  function Endpoint(trig: Trig, from: Point, heading: real, length: real): Point
  {
    Point(from.x + trig.cosDeg(heading) * length, from.y + trig.sinDeg(heading) * length)
  }

  /** The fraction `t` of the maximum depth that a branch still has to go. */
  function Fraction(p: Params, depth: nat): real
  {
    depth as real / p.maxDepth
  }

  /**
   * The colour interpolation factor `1 - t`: 0 is the pure trunk colour, 1 the
   * pure leaf colour.
   */
  function ColorFactor(p: Params, depth: nat): real
  {
    1.0 - Fraction(p, depth)
  }

  /** The line width `t * maxThickness + 1`. */
  function Thickness(p: Params, depth: nat): real
  {
    Fraction(p, depth) * p.maxThickness + 1.0
  }

  /**
   * The colour factor is 0 (pure trunk colour) exactly at the maximum depth;
   * for a positive maximum depth it stays within [0, 1] up to it, and never
   * reaches 1 (pure leaf colour) at a drawn depth.
   */
  lemma ColorFactorRange(p: Params, depth: nat)
    ensures ColorFactor(p, depth) == 0.0 <==> depth as real == p.maxDepth
    ensures 0.0 < p.maxDepth && depth as real <= p.maxDepth ==> 0.0 <= ColorFactor(p, depth) <= 1.0
    ensures 0.0 < p.maxDepth && depth >= 1 ==> ColorFactor(p, depth) < 1.0
  {
  }

  /**
   * The thickness is at least 1, is `maxThickness + 1` at the maximum depth and
   * no more than that up to it.
   */
  lemma ThicknessRange(p: Params, depth: nat)
    ensures 0.0 < p.maxDepth && 0.0 <= p.maxThickness ==> Thickness(p, depth) >= 1.0
    ensures depth as real == p.maxDepth ==> Thickness(p, depth) == p.maxThickness + 1.0
    ensures 0.0 < p.maxDepth && 0.0 <= p.maxThickness && depth as real <= p.maxDepth ==>
              Thickness(p, depth) <= p.maxThickness + 1.0
  {
    var f := Fraction(p, depth);
    if depth as real == p.maxDepth {
      assert f == 1.0;
    }
    if 0.0 < p.maxDepth && 0.0 <= p.maxThickness && depth as real <= p.maxDepth {
      assert f * p.maxDepth == depth as real;
      assert f <= 1.0;
      assert 0.0 <= (1.0 - f) * p.maxThickness;
      assert p.maxThickness - f * p.maxThickness == (1.0 - f) * p.maxThickness;
    }
  }

  /** Thinner branches are never nearer the root: thickness grows with the remaining depth. */
  lemma ThicknessMonotone(p: Params, a: nat, b: nat)
    requires 0.0 < p.maxDepth && 0.0 <= p.maxThickness
    requires a <= b
    ensures Thickness(p, a) <= Thickness(p, b)
  {
  }

  /** The segment one call of drawBranch strokes. */
  function MakeSegment(p: Params, trig: Trig, from: Point, heading: real, depth: nat): Segment
  {
    var length := Length(depth);
    Segment(from, Endpoint(trig, from, heading, length), heading, depth,
            length, ColorFactor(p, depth), Thickness(p, depth))
  }

  /**
   * The segments drawBranch strokes, in order, from `from` at `heading` with
   * `depth` levels to go: the branch itself, then the whole left subtree, then
   * the whole right subtree, both starting where the branch ends.
   */
  function Branch(p: Params, trig: Trig, from: Point, heading: real, depth: nat): (r: seq<Segment>)
    ensures |r| == Pow2(depth) - 1
    decreases depth
  {
    if depth == 0 then []
    else
      var s := MakeSegment(p, trig, from, heading, depth);
      [s] + Branch(p, trig, s.to, heading - p.angle, depth - 1)
          + Branch(p, trig, s.to, heading + p.angle, depth - 1)
  }

  /** The segments draw strokes: a whole tree grown straight up from `from`. */
  function DrawTree(p: Params, trig: Trig, from: Point, depth: nat): seq<Segment>
  {
    Branch(p, trig, from, Up, depth)
  }

  /**
   * The segment at position i of the tree drawn from `from` at `heading` with
   * `depth` levels to go, found by walking down from the root: position 0 is
   * the root, the next `2^(depth-1) - 1` positions hold the left subtree and
   * the rest the right subtree. Every one of them is the segment drawBranch
   * computes from its own start, heading and depth.
   */
  function NodeAt(p: Params, trig: Trig, from: Point, heading: real, depth: nat, i: nat): (s: Segment)
    requires i < Pow2(depth) - 1
    ensures 1 <= s.depth <= depth
    ensures s == MakeSegment(p, trig, s.from, s.heading, s.depth)
    decreases depth
  {
    var root := MakeSegment(p, trig, from, heading, depth);
    var n := Pow2(depth - 1) - 1;
    if i == 0 then root
    else if i <= n then NodeAt(p, trig, root.to, heading - p.angle, depth - 1, i - 1)
    else NodeAt(p, trig, root.to, heading + p.angle, depth - 1, i - 1 - n)
  }

  /** Branch lists the nodes of the tree in the order NodeAt numbers them. */
  lemma {:induction false} BranchAt(p: Params, trig: Trig, from: Point, heading: real, depth: nat, i: nat)
    requires i < |Branch(p, trig, from, heading, depth)|
    ensures Branch(p, trig, from, heading, depth)[i] == NodeAt(p, trig, from, heading, depth, i)
    decreases depth, 1
  {
    if i == 0 {
    } else if i <= Pow2(depth - 1) - 1 {
      BranchAtLeft(p, trig, from, heading, depth, i);
    } else {
      BranchAtRight(p, trig, from, heading, depth, i);
    }
  }

  lemma {:induction false} BranchAtLeft(p: Params, trig: Trig, from: Point, heading: real, depth: nat, i: nat)
    requires depth > 0 && 0 < i <= Pow2(depth - 1) - 1
    ensures i < |Branch(p, trig, from, heading, depth)|
    ensures Branch(p, trig, from, heading, depth)[i] == NodeAt(p, trig, from, heading, depth, i)
    decreases depth, 0
  {
    var s := MakeSegment(p, trig, from, heading, depth);
    var left := Branch(p, trig, s.to, heading - p.angle, depth - 1);
    var right := Branch(p, trig, s.to, heading + p.angle, depth - 1);
    var r := Branch(p, trig, from, heading, depth);
    assert r == [s] + left + right;
    assert r[i] == left[i - 1];
    BranchAt(p, trig, s.to, heading - p.angle, depth - 1, i - 1);
  }

  lemma {:induction false} BranchAtRight(p: Params, trig: Trig, from: Point, heading: real, depth: nat, i: nat)
    requires depth > 0 && Pow2(depth - 1) - 1 < i < Pow2(depth) - 1
    ensures i < |Branch(p, trig, from, heading, depth)|
    ensures Branch(p, trig, from, heading, depth)[i] == NodeAt(p, trig, from, heading, depth, i)
    decreases depth, 0
  {
    var s := MakeSegment(p, trig, from, heading, depth);
    var left := Branch(p, trig, s.to, heading - p.angle, depth - 1);
    var right := Branch(p, trig, s.to, heading + p.angle, depth - 1);
    var r := Branch(p, trig, from, heading, depth);
    assert r == [s] + left + right;
    assert r[i] == right[i - Pow2(depth - 1)];
    BranchAt(p, trig, s.to, heading + p.angle, depth - 1, i - Pow2(depth - 1));
  }

  /** The m-th node of the subtree headed by node i is node i + m of the whole tree. */
  lemma {:induction false} NodeInSubtree(p: Params, trig: Trig, from: Point, heading: real, depth: nat, i: nat, m: nat)
    requires i < Pow2(depth) - 1
    requires m < Pow2(NodeAt(p, trig, from, heading, depth, i).depth) - 1
    ensures var s := NodeAt(p, trig, from, heading, depth, i);
      i + m < Pow2(depth) - 1 &&
      NodeAt(p, trig, from, heading, depth, i + m) == NodeAt(p, trig, s.from, s.heading, s.depth, m)
    decreases depth, 1
  {
    if i == 0 {
    } else if i <= Pow2(depth - 1) - 1 {
      NodeInLeft(p, trig, from, heading, depth, i, m);
    } else {
      NodeInRight(p, trig, from, heading, depth, i, m);
    }
  }

  lemma {:induction false} NodeInLeft(p: Params, trig: Trig, from: Point, heading: real, depth: nat, i: nat, m: nat)
    requires depth > 0 && 0 < i <= Pow2(depth - 1) - 1
    requires m < Pow2(NodeAt(p, trig, from, heading, depth, i).depth) - 1
    ensures var s := NodeAt(p, trig, from, heading, depth, i);
      i + m < Pow2(depth) - 1 &&
      NodeAt(p, trig, from, heading, depth, i + m) == NodeAt(p, trig, s.from, s.heading, s.depth, m)
    decreases depth, 0
  {
    var root := MakeSegment(p, trig, from, heading, depth);
    NodeInSubtree(p, trig, root.to, heading - p.angle, depth - 1, i - 1, m);
  }

  lemma {:induction false} NodeInRight(p: Params, trig: Trig, from: Point, heading: real, depth: nat, i: nat, m: nat)
    requires depth > 0 && Pow2(depth - 1) - 1 < i < Pow2(depth) - 1
    requires m < Pow2(NodeAt(p, trig, from, heading, depth, i).depth) - 1
    ensures var s := NodeAt(p, trig, from, heading, depth, i);
      i + m < Pow2(depth) - 1 &&
      NodeAt(p, trig, from, heading, depth, i + m) == NodeAt(p, trig, s.from, s.heading, s.depth, m)
    decreases depth, 0
  {
    var root := MakeSegment(p, trig, from, heading, depth);
    NodeInSubtree(p, trig, root.to, heading + p.angle, depth - 1, i - Pow2(depth - 1), m);
  }

  /**
   * Emission is pre-order: the segment at position i, with k levels to go,
   * heads a contiguous run of `2^k - 1` segments that is exactly the tree
   * drawn from its start at its heading with depth k.
   */
  lemma SubtreeAt(p: Params, trig: Trig, from: Point, heading: real, depth: nat, i: nat)
    requires i < |Branch(p, trig, from, heading, depth)|
    ensures var r := Branch(p, trig, from, heading, depth);
      var s := r[i];
      1 <= s.depth <= depth &&
      i + Pow2(s.depth) - 1 <= |r| &&
      r[i..i + Pow2(s.depth) - 1] == Branch(p, trig, s.from, s.heading, s.depth)
  {
    var r := Branch(p, trig, from, heading, depth);
    BranchAt(p, trig, from, heading, depth, i);
    var s := r[i];
    var size := Pow2(s.depth) - 1;
    var sub := Branch(p, trig, s.from, s.heading, s.depth);
    NodeInSubtree(p, trig, from, heading, depth, i, size - 1);
    forall m | 0 <= m < size
      ensures r[i + m] == sub[m]
    {
      NodeInSubtree(p, trig, from, heading, depth, i, m);
      BranchAt(p, trig, from, heading, depth, i + m);
      BranchAt(p, trig, s.from, s.heading, s.depth, m);
    }
    assert r[i..i + size] == sub;
  }

  /**
   * Every stroked segment is the one drawBranch computes from its own start,
   * heading and depth: its length is `depth * 10`, it ends at the endpoint of
   * that length along its heading, and its colour factor `1 - t` and thickness
   * `t * maxThickness + 1` follow from `t = depth / maxDepth`.
   */
  lemma SegmentShape(p: Params, trig: Trig, from: Point, heading: real, depth: nat, i: nat)
    requires i < |Branch(p, trig, from, heading, depth)|
    ensures var s := Branch(p, trig, from, heading, depth)[i];
      1 <= s.depth <= depth &&
      s.length == s.depth as real * 10.0 &&
      s.to == Endpoint(trig, s.from, s.heading, s.length) &&
      s.colorFactor == 1.0 - s.depth as real / p.maxDepth &&
      s.thickness == s.depth as real / p.maxDepth * p.maxThickness + 1.0
  {
    BranchAt(p, trig, from, heading, depth, i);
  }

  /**
   * Both children of a segment with at least two levels to go start where it
   * ends, one level shallower: the left child (turned by -angle) comes right
   * after it, the right child (turned by +angle) right after the whole left
   * subtree.
   */
  lemma Children(p: Params, trig: Trig, from: Point, heading: real, depth: nat, i: nat)
    requires i < |Branch(p, trig, from, heading, depth)|
    requires Branch(p, trig, from, heading, depth)[i].depth >= 2
    ensures var r := Branch(p, trig, from, heading, depth);
      var s := r[i];
      var j := i + Pow2(s.depth - 1);
      j < |r| &&
      r[i + 1] == MakeSegment(p, trig, s.to, s.heading - p.angle, s.depth - 1) &&
      r[j] == MakeSegment(p, trig, s.to, s.heading + p.angle, s.depth - 1)
  {
    var r := Branch(p, trig, from, heading, depth);
    BranchAt(p, trig, from, heading, depth, i);
    var s := r[i];
    var k := s.depth;
    var j := i + Pow2(k - 1);
    NodeInSubtree(p, trig, from, heading, depth, i, 1);
    NodeInSubtree(p, trig, from, heading, depth, i, Pow2(k - 1));
    BranchAt(p, trig, from, heading, depth, i + 1);
    BranchAt(p, trig, from, heading, depth, j);
  }

  /** `h0` turned k times by `angle`. */
  function Turned(h0: real, angle: real, k: int): real
  {
    h0 + (k as real) * angle
  }

  /** One more turn by -angle or +angle. */
  lemma TurnedShift(h0: real, angle: real, k: int)
    ensures Turned(h0 - angle, angle, k) == Turned(h0, angle, k - 1)
    ensures Turned(h0 + angle, angle, k) == Turned(h0, angle, k + 1)
  {
  }

  /**
   * `heading` is `h0` turned k times by `angle`, for some k no larger in
   * magnitude than n and of the same parity as n.
   */
  ghost predicate Reachable(h0: real, angle: real, n: int, heading: real)
  {
    exists k: int :: -n <= k <= n && (n - k) % 2 == 0 && heading == Turned(h0, angle, k)
  }

  lemma {:induction false} NodeHeading(p: Params, trig: Trig, from: Point, heading: real, depth: nat, i: nat)
    requires i < Pow2(depth) - 1
    ensures var s := NodeAt(p, trig, from, heading, depth, i);
      Reachable(heading, p.angle, depth - s.depth, s.heading)
    decreases depth
  {
    var root := MakeSegment(p, trig, from, heading, depth);
    var n := Pow2(depth - 1) - 1;
    if i == 0 {
      assert heading == Turned(heading, p.angle, 0);
    } else {
      var h', j, sign;
      if i <= n {
        h', j, sign := heading - p.angle, i - 1, -1;
      } else {
        h', j, sign := heading + p.angle, i - 1 - n, 1;
      }
      NodeHeading(p, trig, root.to, h', depth - 1, j);
      var c := NodeAt(p, trig, root.to, h', depth - 1, j);
      assert NodeAt(p, trig, from, heading, depth, i) == c;
      var m := depth - 1 - c.depth;
      var k :| -m <= k <= m && (m - k) % 2 == 0 && c.heading == Turned(h', p.angle, k);
      TurnedShift(heading, p.angle, k);
      assert c.heading == Turned(heading, p.angle, k + sign);
      assert -(m + 1) <= k + sign <= m + 1 && (m + 1 - (k + sign)) % 2 == 0;
    }
  }

  /**
   * A segment with d levels to go in a tree drawn with `depth` levels has the
   * first heading turned k times by the branch angle, for some k with
   * `|k| <= depth - d` and of the same parity: each level adds one turn of
   * -angle or +angle.
   */
  lemma HeadingReach(p: Params, trig: Trig, from: Point, heading: real, depth: nat, i: nat)
    requires i < |Branch(p, trig, from, heading, depth)|
    ensures var s := Branch(p, trig, from, heading, depth)[i];
      s.depth <= depth && Reachable(heading, p.angle, depth - s.depth, s.heading)
  {
    BranchAt(p, trig, from, heading, depth, i);
    NodeHeading(p, trig, from, heading, depth, i);
  }

  /** With a branch angle of 0 the tree is one straight line: every segment keeps the first heading. */
  lemma StraightWhenAngleZero(p: Params, trig: Trig, from: Point, heading: real, depth: nat, i: nat)
    requires p.angle == 0.0
    requires i < |Branch(p, trig, from, heading, depth)|
    ensures Branch(p, trig, from, heading, depth)[i].heading == heading
  {
    var s := Branch(p, trig, from, heading, depth)[i];
    HeadingReach(p, trig, from, heading, depth, i);
    var n := depth - s.depth;
    var k :| -n <= k <= n && (n - k) % 2 == 0 && s.heading == Turned(heading, p.angle, k);
  }

  /** How many segments of `s` have exactly `k` levels to go. */
  function CountDepth(s: seq<Segment>, k: nat): nat
  {
    if s == [] then 0 else (if s[0].depth == k then 1 else 0) + CountDepth(s[1..], k)
  }

  lemma {:induction false} CountDepthConcat(a: seq<Segment>, b: seq<Segment>, k: nat)
    ensures CountDepth(a + b, k) == CountDepth(a, k) + CountDepth(b, k)
  {
    if a == [] {
      assert a + b == b;
    } else {
      assert (a + b)[1..] == a[1..] + b;
      CountDepthConcat(a[1..], b, k);
    }
  }

  /** A tree of depth d holds `2^(d-k)` segments at each depth k from 1 to d, and none at any other depth. */
  lemma {:induction false} DepthCensus(p: Params, trig: Trig, from: Point, heading: real, depth: nat, k: nat)
    ensures CountDepth(Branch(p, trig, from, heading, depth), k)
            == if 1 <= k <= depth then Pow2(depth - k) else 0
    decreases depth
  {
    if depth > 0 {
      var s := MakeSegment(p, trig, from, heading, depth);
      var left := Branch(p, trig, s.to, heading - p.angle, depth - 1);
      var right := Branch(p, trig, s.to, heading + p.angle, depth - 1);
      assert Branch(p, trig, from, heading, depth) == [s] + left + right;
      CountDepthConcat([s] + left, right, k);
      CountDepthConcat([s], left, k);
      var top := CountDepth([s], k);
      assert top == if k == depth then 1 else 0 by {
        assert [s][1..] == [];
      }
      var below := if 1 <= k <= depth - 1 then Pow2(depth - 1 - k) else 0;
      DepthCensus(p, trig, s.to, heading - p.angle, depth - 1, k);
      DepthCensus(p, trig, s.to, heading + p.angle, depth - 1, k);
      assert CountDepth(Branch(p, trig, from, heading, depth), k) == top + below + below;
      if 1 <= k < depth {
        assert Pow2(depth - k) == 2 * Pow2(depth - 1 - k);
      }
    }
  }

  /**
   * draw starts at the given point, straight up, with the requested depth; a
   * tree of depth 1 is that one segment of length 10.
   */
  lemma DrawRoot(p: Params, trig: Trig, from: Point, depth: nat)
    requires depth >= 1
    ensures var r := DrawTree(p, trig, from, depth);
      |r| == Pow2(depth) - 1 &&
      r[0].from == from && r[0].heading == -90.0 && r[0].depth == depth &&
      r[0].length == depth as real * 10.0 &&
      (depth == 1 ==> |r| == 1 && r[0].length == 10.0)
  {
  }

  /**
   * One call of drawBranch: after stroking `s` and then the two subtrees from
   * where `s` ends, the canvas has gained exactly the tree from `from`.
   */
  lemma BranchStep(p: Params, trig: Trig, from: Point, heading: real, depth: nat, s: Segment,
                   to: Point, leftHeading: real, rightHeading: real,
                   a0: seq<Segment>, a1: seq<Segment>, a2: seq<Segment>, a3: seq<Segment>)
    requires depth > 0 && s == MakeSegment(p, trig, from, heading, depth)
    requires to == s.to && leftHeading == heading - p.angle && rightHeading == heading + p.angle
    requires a1 == a0 + [s]
    requires a2 == a1 + Branch(p, trig, to, leftHeading, depth - 1)
    requires a3 == a2 + Branch(p, trig, to, rightHeading, depth - 1)
    ensures a3 == a0 + Branch(p, trig, from, heading, depth)
  {
  }

  /** The drawing surface (JavaFX's GraphicsContext): the segments stroked since it was last cleared. */
  class Canvas {
    var strokes: seq<Segment>

    constructor ()
      ensures strokes == []
    {
      strokes := [];
    }

    /** clearRect over the whole canvas. */
    method Clear()
      modifies this
      ensures strokes == []
    {
      strokes := [];
    }

    /** strokeLine with the current stroke colour and line width. */
    method StrokeLine(s: Segment)
      modifies this
      ensures strokes == old(strokes) + [s]
    {
      strokes := strokes + [s];
    }
  }

  class FractalTree {
    var angle: real
    const maxDepth: NonZero
    const maxThickness: real

    constructor (angle: real, maxDepth: NonZero, maxThickness: real)
      ensures Parameters() == Params(angle, maxDepth, maxThickness)
    {
      this.angle := angle;
      this.maxDepth := maxDepth;
      this.maxThickness := maxThickness;
    }

    function Parameters(): Params
      reads this
    {
      Params(angle, maxDepth, maxThickness)
    }

    method SetAngle(angle: real)
      modifies this`angle
      ensures Parameters() == old(Parameters()).(angle := angle)
    {
      this.angle := angle;
    }

    /** Strokes a whole tree grown straight up from (startX, startY). */
    method Draw(gc: Canvas, trig: Trig, startX: real, startY: real, depth: nat)
      modifies gc
      ensures gc.strokes == old(gc.strokes) + DrawTree(Parameters(), trig, Point(startX, startY), depth)
    {
      DrawBranch(gc, trig, startX, startY, Up, depth);
    }

    method DrawBranch(gc: Canvas, trig: Trig, x1: real, y1: real, angleDeg: real, depth: nat)
      modifies gc
      ensures gc.strokes == old(gc.strokes) + Branch(Parameters(), trig, Point(x1, y1), angleDeg, depth)
      decreases depth
    {
      if depth == 0 {
        return;
      }
      var x2 := x1 + trig.cosDeg(angleDeg) * depth as real * 10.0;
      var y2 := y1 + trig.sinDeg(angleDeg) * depth as real * 10.0;
      var t := depth as real / maxDepth;
      var colorFactor := 1.0 - t;
      var thickness := t * maxThickness + 1.0;
      var s := Segment(Point(x1, y1), Point(x2, y2), angleDeg, depth, depth as real * 10.0, colorFactor, thickness);
      ghost var p := Parameters();
      assert s == MakeSegment(p, trig, Point(x1, y1), angleDeg, depth);
      var leftHeading := angleDeg - angle;
      var rightHeading := angleDeg + angle;
      ghost var a0 := gc.strokes;
      gc.StrokeLine(s);
      ghost var a1 := gc.strokes;
      DrawBranch(gc, trig, x2, y2, leftHeading, depth - 1);
      ghost var a2 := gc.strokes;
      DrawBranch(gc, trig, x2, y2, rightHeading, depth - 1);
      BranchStep(p, trig, Point(x1, y1), angleDeg, depth, s, Point(x2, y2), leftHeading, rightHeading,
                 a0, a1, a2, gc.strokes);
    }
  }
}
