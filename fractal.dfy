/**
 Model of the fractal tree demo (fractal_tree.py).

 The drawing is kept symbolic. A point of the drawing is an Anchor: either the
 fixed origin of a call, or the tip reached by walking `length` pixels from
 another anchor in direction pi/2 + angle * angleFactor, with angleFactor = pi/5.
 An angle is therefore an integer count of angleFactor steps away from pi/2,
 and no trigonometry is evaluated. A segment is one `create_line` call.
 */
module Fractal {

  /** Side of the square canvas. */
  const SIZE: int := 400
  /** `xval` and `yval`: the root branch starts at (xval / 2, yval). */
  const XVAL: int := 400
  const YVAL: int := 400
  /** Length of the root branch, a third of the canvas (true division). */
  const BRANCH_L: real := SIZE as real / 3.0
  /** Each child branch is this fraction of its parent's length. */
  const SIZE_FACTOR: real := 0.58

  /** A point of the drawing, kept symbolic. */
  datatype Anchor =
    | Origin(x: real, y: real)
    | Tip(from: Anchor, angle: int, length: real)

  /** One line on the canvas: from `from`, `length` long, at angle pi/2 + angle * pi/5. */
  datatype Segment = Segment(from: Anchor, angle: int, length: real)

  /** Where a segment ends (x2, y2 in draw_fractal). */
  function End(s: Segment): Anchor
  {
    Tip(s.from, s.angle, s.length)
  }

  /** How many segments lead from an origin to this anchor. */
  function Height(a: Anchor): nat
  {
    match a
    case Origin(_, _) => 0
    case Tip(from, _, _) => Height(from) + 1
  }

  function Pow2(n: nat): nat
  {
    if n == 0 then 1 else 2 * Pow2(n - 1)
  }

  function Power(b: real, n: nat): real
  {
    if n == 0 then 1.0 else b * Power(b, n - 1)
  }

  /** A length scaled down j times by SIZE_FACTOR, as each recursion level does. */
  function Scaled(length: real, j: nat): real
    decreases j
  {
    if j == 0 then length else Scaled(length * SIZE_FACTOR, j - 1)
  }

  /** The point every tree is drawn from: (xval / 2, yval). */
  const BASE: Anchor := Origin(XVAL as real / 2.0, YVAL as real)

  /** The upright root branch drawn by the constructor. */
  const ROOT_SEGMENT: Segment := Segment(BASE, 0, BRANCH_L)

  /**
   The lines one call draw_fractal(start, branchL, angle, depth) appends to the
   canvas, in drawing order: nothing when depth < 0; otherwise one segment, then
   the whole subtree turned left and the whole subtree turned right, each one
   level shallower and SIZE_FACTOR times shorter.
   */
  function Branches(start: Anchor, branchL: real, angle: int, depth: int): (r: seq<Segment>)
    ensures |r| == if depth < 0 then 0 else Pow2(depth + 1) - 1
    decreases if depth < 0 then 0 else depth + 1
  {
    if depth >= 0 then
      var end := Tip(start, angle, branchL);
      [Segment(start, angle, branchL)]
        + Branches(end, branchL * SIZE_FACTOR, angle + 1, depth - 1)
        + Branches(end, branchL * SIZE_FACTOR, angle - 1, depth - 1)
    else
      []
  }

  /** The full tree at a given recursion level, as advance and reset draw it. */
  function Tree(level: nat): (r: seq<Segment>)
    ensures |r| == Pow2(level + 1) - 1
  {
    Branches(BASE, BRANCH_L, 0, level)
  }

  /**
   What the canvas holds after the constructor (or reset) and `level` advances:
   advance does not clear, so every tree from level 0 up to `level` is on it.
   */
  function Drawn(level: nat): (r: seq<Segment>)
    ensures |r| == Pow2(level + 2) - level - 3
  {
    if level == 0 then Tree(0) else Drawn(level - 1) + Tree(level)
  }

  /** A non-negative call draws at least its first segment, from where it starts. */
  lemma {:induction false} FirstBranch(start: Anchor, branchL: real, angle: int, depth: int)
    requires depth >= 0
    ensures Branches(start, branchL, angle, depth)[0] == Segment(start, angle, branchL)
    ensures Segment(start, angle, branchL) in Branches(start, branchL, angle, depth)
  {
  }

  /** The tree at level 0 is exactly the root branch the constructor draws. */
  lemma TreeZero()
    ensures Tree(0) == [ROOT_SEGMENT]
  {
  }

  /** Membership in a call's output splits into the segment itself and its two subtrees. */
  lemma {:induction false} InBranches(start: Anchor, branchL: real, angle: int, depth: int, s: Segment)
    requires depth >= 0
    ensures s in Branches(start, branchL, angle, depth) <==>
      s == Segment(start, angle, branchL)
      || s in Branches(Tip(start, angle, branchL), branchL * SIZE_FACTOR, angle + 1, depth - 1)
      || s in Branches(Tip(start, angle, branchL), branchL * SIZE_FACTOR, angle - 1, depth - 1)
  {
  }

  /**
   A segment's recursion level below a call is the number of segments between
   the call's start and the segment's start; it is at most the call's depth.
   */
  lemma {:induction false} BranchLevel(start: Anchor, branchL: real, angle: int, depth: int, s: Segment)
    requires s in Branches(start, branchL, angle, depth)
    ensures Height(start) <= Height(s.from) <= Height(start) + depth
    decreases if depth < 0 then 0 else depth + 1
  {
    InBranches(start, branchL, angle, depth, s);
    var end := Tip(start, angle, branchL);
    if s != Segment(start, angle, branchL) {
      var sub := if s in Branches(end, branchL * SIZE_FACTOR, angle + 1, depth - 1) then angle + 1 else angle - 1;
      BranchLevel(end, branchL * SIZE_FACTOR, sub, depth - 1, s);
    }
  }

  /** A segment at level j below a call is as long as the call's branch scaled j times. */
  lemma {:induction false} BranchScaled(start: Anchor, branchL: real, angle: int, depth: int, s: Segment)
    requires s in Branches(start, branchL, angle, depth)
    ensures Height(s.from) >= Height(start)
    ensures s.length == Scaled(branchL, Height(s.from) - Height(start))
    decreases if depth < 0 then 0 else depth + 1
  {
    InBranches(start, branchL, angle, depth, s);
    var end := Tip(start, angle, branchL);
    if s != Segment(start, angle, branchL) {
      var sub := if s in Branches(end, branchL * SIZE_FACTOR, angle + 1, depth - 1) then angle + 1 else angle - 1;
      BranchScaled(end, branchL * SIZE_FACTOR, sub, depth - 1, s);
    }
  }

  /** A segment at level j below a call is branchL * SIZE_FACTOR^j long. */
  lemma BranchLength(start: Anchor, branchL: real, angle: int, depth: int, s: Segment)
    requires s in Branches(start, branchL, angle, depth)
    ensures Height(s.from) >= Height(start)
    ensures s.length == branchL * Power(SIZE_FACTOR, Height(s.from) - Height(start))
  {
    BranchScaled(start, branchL, angle, depth, s);
    var j := Height(s.from) - Height(start);
    ScaledIsPower(branchL, j);
    assert s.length == Scaled(branchL, j) == branchL * Power(SIZE_FACTOR, j);
  }

  /**
   A segment at level j below a call is turned j times by +-angleFactor from the
   call's angle: it lies within j steps of it, with the parity of j.
   */
  lemma {:induction false} BranchAngle(start: Anchor, branchL: real, angle: int, depth: int, s: Segment)
    requires s in Branches(start, branchL, angle, depth)
    ensures Height(s.from) >= Height(start)
    ensures angle - (Height(s.from) - Height(start)) <= s.angle <= angle + (Height(s.from) - Height(start))
    ensures (s.angle - angle + Height(s.from) - Height(start)) % 2 == 0
    decreases if depth < 0 then 0 else depth + 1
  {
    InBranches(start, branchL, angle, depth, s);
    var end := Tip(start, angle, branchL);
    if s != Segment(start, angle, branchL) {
      var sub := if s in Branches(end, branchL * SIZE_FACTOR, angle + 1, depth - 1) then angle + 1 else angle - 1;
      BranchAngle(end, branchL * SIZE_FACTOR, sub, depth - 1, s);
      var j := Height(s.from) - Height(end);
      assert s.angle - angle + j + 1 == (s.angle - sub + j) + (sub - angle + 1);
      EvenSum(s.angle - sub + j, sub - angle + 1);
    }
  }

  /** Turning by 0 or 2 steps keeps the parity of an even step count. */
  lemma EvenSum(a: int, b: int)
    requires a % 2 == 0 && (b == 0 || b == 2)
    ensures (a + b) % 2 == 0
  {
  }

  /** Scaling by SIZE_FACTOR j times is multiplying by SIZE_FACTOR^j. */
  lemma {:induction false} ScaledIsPower(length: real, j: nat)
    ensures Scaled(length, j) == length * Power(SIZE_FACTOR, j)
    decreases j
  {
    if j > 0 {
      ScaledIsPower(length * SIZE_FACTOR, j - 1);
      assert length * SIZE_FACTOR * Power(SIZE_FACTOR, j - 1) == length * (SIZE_FACTOR * Power(SIZE_FACTOR, j - 1));
    }
  }

  /**
   The first segment of a call is the only one that starts at the call's start;
   every other segment starts where a segment of the same call ends, is
   SIZE_FACTOR times as long as that parent and is turned one angleFactor step
   from it (parent + angleFactor or parent - angleFactor).
   */
  lemma {:induction false} ChildOfParent(start: Anchor, branchL: real, angle: int, depth: int, s: Segment)
    requires s in Branches(start, branchL, angle, depth)
    ensures s.from == start ==> s == Segment(start, angle, branchL)
    ensures s.from != start ==>
      exists p :: p in Branches(start, branchL, angle, depth)
        && End(p) == s.from && s.length == p.length * SIZE_FACTOR
        && (s.angle == p.angle + 1 || s.angle == p.angle - 1)
    decreases if depth < 0 then 0 else depth + 1
  {
    InBranches(start, branchL, angle, depth, s);
    var root := Segment(start, angle, branchL);
    var end := Tip(start, angle, branchL);
    var left := Branches(end, branchL * SIZE_FACTOR, angle + 1, depth - 1);
    var right := Branches(end, branchL * SIZE_FACTOR, angle - 1, depth - 1);
    InBranches(start, branchL, angle, depth, root);
    if s != root {
      var sub := if s in left then angle + 1 else angle - 1;
      var subtree := Branches(end, branchL * SIZE_FACTOR, sub, depth - 1);
      assert s in subtree;
      BranchLevel(end, branchL * SIZE_FACTOR, sub, depth - 1, s);
      assert s.from != start by {
        assert Height(s.from) > Height(start);
      }
      ChildOfParent(end, branchL * SIZE_FACTOR, sub, depth - 1, s);
      if s.from == end {
        assert s == Segment(end, sub, branchL * SIZE_FACTOR);
        assert End(root) == s.from;
      } else {
        var p :| p in subtree && End(p) == s.from && s.length == p.length * SIZE_FACTOR
          && (s.angle == p.angle + 1 || s.angle == p.angle - 1);
        InBranches(start, branchL, angle, depth, p);
      }
    }
  }

  /** Every segment above the deepest level has both children in the same call's output. */
  lemma {:induction false} ParentHasChildren(start: Anchor, branchL: real, angle: int, depth: int, p: Segment)
    requires p in Branches(start, branchL, angle, depth)
    requires Height(p.from) < Height(start) + depth
    ensures Segment(End(p), p.angle + 1, p.length * SIZE_FACTOR) in Branches(start, branchL, angle, depth)
    ensures Segment(End(p), p.angle - 1, p.length * SIZE_FACTOR) in Branches(start, branchL, angle, depth)
    decreases if depth < 0 then 0 else depth + 1
  {
    var end := Tip(start, angle, branchL);
    var l := Segment(End(p), p.angle + 1, p.length * SIZE_FACTOR);
    var r := Segment(End(p), p.angle - 1, p.length * SIZE_FACTOR);
    InBranches(start, branchL, angle, depth, p);
    InBranches(start, branchL, angle, depth, l);
    InBranches(start, branchL, angle, depth, r);
    if p == Segment(start, angle, branchL) {
      assert l == Segment(end, angle + 1, branchL * SIZE_FACTOR) && r == Segment(end, angle - 1, branchL * SIZE_FACTOR);
      FirstBranch(end, branchL * SIZE_FACTOR, angle + 1, depth - 1);
      FirstBranch(end, branchL * SIZE_FACTOR, angle - 1, depth - 1);
    } else if p in Branches(end, branchL * SIZE_FACTOR, angle + 1, depth - 1) {
      ParentHasChildren(end, branchL * SIZE_FACTOR, angle + 1, depth - 1, p);
    } else {
      ParentHasChildren(end, branchL * SIZE_FACTOR, angle - 1, depth - 1, p);
    }
  }

  /** A deeper call with the same start redraws every segment of a shallower one. */
  lemma {:induction false} BranchesGrow(start: Anchor, branchL: real, angle: int, depth: int, s: Segment)
    requires s in Branches(start, branchL, angle, depth)
    ensures s in Branches(start, branchL, angle, depth + 1)
    decreases if depth < 0 then 0 else depth + 1
  {
    var end := Tip(start, angle, branchL);
    InBranches(start, branchL, angle, depth, s);
    InBranches(start, branchL, angle, depth + 1, s);
    if s != Segment(start, angle, branchL) {
      var sub := if s in Branches(end, branchL * SIZE_FACTOR, angle + 1, depth - 1) then angle + 1 else angle - 1;
      BranchesGrow(end, branchL * SIZE_FACTOR, sub, depth - 1, s);
    }
  }

  /**
   Although advance never clears, the distinct lines on the canvas are exactly
   those of a fresh tree at the current level: each earlier tree is part of it.
   */
  lemma {:induction false} DrawnLooksLikeTree(level: nat, s: Segment)
    ensures s in Drawn(level) <==> s in Tree(level)
  {
    if level > 0 {
      var earlier, latest := Drawn(level - 1), Tree(level);
      assert Drawn(level) == earlier + latest;
      assert s in earlier + latest <==> s in earlier || s in latest;
      DrawnLooksLikeTree(level - 1, s);
      if s in Tree(level - 1) {
        BranchesGrow(BASE, BRANCH_L, 0, level - 1, s);
      }
    }
  }

  /** The demo window's state: the recursion level and the lines on its canvas. */
  class FractalTree {
    var currentLevelsOfRecursion: int
    var canvas: seq<Segment>

    /** The level never goes below 0 and the canvas holds the trees drawn since the last reset. */
    ghost predicate Valid()
      reads this
    {
      currentLevelsOfRecursion >= 0 && canvas == Drawn(currentLevelsOfRecursion)
    }

    /** The initial state: level 0 and the root branch alone. */
    constructor ()
      ensures Valid()
      ensures currentLevelsOfRecursion == 0 && canvas == [ROOT_SEGMENT]
    {
      currentLevelsOfRecursion := 0;
      canvas := [ROOT_SEGMENT];
      TreeZero();
    }

    /** draw_fractal: appends the lines of one recursive call to the canvas. */
    method DrawFractal(start: Anchor, branchL: real, angle: int, depth: int)
      modifies this`canvas
      ensures canvas == old(canvas) + Branches(start, branchL, angle, depth)
      decreases if depth < 0 then 0 else depth + 1
    {
      if depth >= 0 {
        var levels := depth - 1;
        var end := Tip(start, angle, branchL);
        ghost var before := canvas;
        canvas := canvas + [Segment(start, angle, branchL)];
        DrawFractal(end, branchL * SIZE_FACTOR, angle + 1, levels);
        ghost var left := canvas[|before| + 1..];
        DrawFractal(end, branchL * SIZE_FACTOR, angle - 1, levels);
        assert canvas == before + ([Segment(start, angle, branchL)] + left
          + Branches(end, branchL * SIZE_FACTOR, angle - 1, levels));
      }
    }

    /** advance: one more level, drawn on top of what is already there. */
    method Advance()
      requires Valid()
      modifies this
      ensures Valid()
      ensures currentLevelsOfRecursion == old(currentLevelsOfRecursion) + 1
      ensures canvas == old(canvas) + Tree(currentLevelsOfRecursion)
      ensures |canvas| == |old(canvas)| + Pow2(currentLevelsOfRecursion + 1) - 1
    {
      currentLevelsOfRecursion := currentLevelsOfRecursion + 1;
      DrawFractal(BASE, BRANCH_L, 0, currentLevelsOfRecursion);
    }

    /** reset: clear the canvas and redraw level 0, the root branch alone. */
    method Reset()
      modifies this
      ensures Valid()
      ensures currentLevelsOfRecursion == 0 && canvas == [ROOT_SEGMENT]
    {
      canvas := [];
      currentLevelsOfRecursion := 0;
      DrawFractal(BASE, BRANCH_L, 0, currentLevelsOfRecursion);
      TreeZero();
    }
  }
}
