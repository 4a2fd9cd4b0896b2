/**
 * The control state of renderer/components/ConveyorBelt.js: belt speed and
 * running flag, the rollers built for each belt shape, and the boxes that ride
 * the belt with a progress in [0, 1). Geometry, materials, the texture offset
 * and roller spin are not modelled; a box's mesh position is.
 */
module Conveyor {
  import opened Vectors

  const Straight := "straight"
  const LShape := "l-shape"
  const Circular := "circular"

  /** Speed a new belt runs at. */
  const InitialSpeed: real := 0.5
  /** Bounds `setSpeed` clamps into. */
  const MaxSpeed: real := 2.0
  /** Height boxes are lifted above the belt surface. */
  const BoxLift: real := 0.2
  /** Fraction of the L-shaped path taken by its first leg. */
  const LCorner: real := 0.6

  /**
   * Where a box mesh sits. Circular belts place boxes by cos/sin of the angle,
   * which the model keeps symbolic: `OnCircle(p, y)` is the point of radius 2
   * at angle 2*pi*p and height y.
   */
  datatype Placement = At(v: Vec3) | OnCircle(turns: real, y: real)

  /** One entry of `movingBoxes`. */
  datatype Box = Box(progress: real, speed: real, mesh: Placement)

  /** The abstract state of one belt. */
  datatype BeltState = BeltState(
    kind: string,
    speed: real,
    isRunning: bool,
    rollerCount: nat,
    boxes: seq<Box>)

  function Min(a: real, b: real): real { if a <= b then a else b }
  function Max(a: real, b: real): real { if a >= b then a else b }

  /** `Math.max(0, Math.min(2, speed))`. */
  function Clamp(v: real): (r: real)
    ensures 0.0 <= r <= MaxSpeed
    ensures 0.0 <= v <= MaxSpeed ==> r == v
    ensures v < 0.0 ==> r == 0.0
    ensures v > MaxSpeed ==> r == MaxSpeed
  {
    Max(0.0, Min(MaxSpeed, v))
  }

  /** Clamping twice is clamping once. */
  lemma ClampIdempotent(v: real)
    ensures Clamp(Clamp(v)) == Clamp(v)
  {
  }

  /** `createMovingBoxes`: four boxes on a circular belt, three on any other. */
  function BoxCount(kind: string): (n: nat)
    ensures n == 4 <==> kind == Circular
    ensures n == 3 <==> kind != Circular
  {
    if kind == Circular then 4 else 3
  }

  /**
   * Rollers that `create` passes to `createRollers`; an unknown kind builds
   * the straight belt.
   */
  function RollerCount(kind: string): (n: nat)
    ensures kind == LShape ==> n == 3
    ensures kind == Circular ==> n == 8
    ensures kind != LShape && kind != Circular ==> n == 2
  {
    if kind == LShape then 3 else if kind == Circular then 8 else 2
  }

  /** A freshly pushed box: progress i/n, speed from a random draw in [0, 1), mesh at the origin. */
  function NewBox(i: nat, n: nat, draw: real): (b: Box)
    requires i < n && 0.0 <= draw < 1.0
    ensures 0.0 <= b.progress < 1.0
    ensures 0.002 <= b.speed < 0.003
  {
    Box(i as real / n as real, 0.002 + draw * 0.001, At(Origin))
  }

  /** Every box has progress in [0, 1) and a non-negative speed. */
  ghost predicate BoxesOk(boxes: seq<Box>)
  {
    forall k :: 0 <= k < |boxes| ==> 0.0 <= boxes[k].progress < 1.0 && boxes[k].speed >= 0.0
  }

  ghost predicate RandomDraws(draws: seq<real>)
  {
    forall k :: 0 <= k < |draws| ==> 0.0 <= draws[k] < 1.0
  }

  /** The boxes `createMovingBoxes` pushes, one per random draw. */
  function InitialBoxes(draws: seq<real>): (r: seq<Box>)
    requires RandomDraws(draws)
    ensures |r| == |draws| && BoxesOk(r)
    ensures forall k :: 0 <= k < |r| ==> r[k].progress == k as real / |draws| as real
  {
    seq(|draws|, k requires 0 <= k < |draws| => NewBox(k, |draws|, draws[k]))
  }

  /** The box positions are spread evenly: box k starts k/n of the way along. */
  lemma InitialBoxesSpread(draws: seq<real>, j: nat, k: nat)
    requires RandomDraws(draws) && j < k < |draws|
    ensures InitialBoxes(draws)[j].progress < InitialBoxes(draws)[k].progress
  {
    var n := |draws| as real;
    assert j as real / n < k as real / n by {
      assert k as real / n - j as real / n == (k - j) as real / n;
      assert (k - j) as real / n > 0.0;
    }
  }

  /** First leg of the L-shaped path, valid for p in [0, 0.6]. */
  function LFirstLeg(p: real): Vec3 { Vec3(-6.0 + (p / LCorner) * 9.0, 0.0, 0.0) }
  /** Second leg of the L-shaped path, valid for p in [0.6, 1]. */
  function LSecondLeg(p: real): Vec3 { Vec3(3.0, 0.0, ((p - LCorner) / 0.4) * 4.0) }

  /** `calculateBoxPosition(progress)` for a belt of the given kind. */
  function BoxPosition(kind: string, p: real): (r: Placement)
    ensures kind == Straight ==> r == At(Vec3(-4.0 + p * 8.0, 0.0, 0.0))
    ensures kind == LShape ==> r == At(if p < LCorner then LFirstLeg(p) else LSecondLeg(p))
    ensures kind == Circular ==> r == OnCircle(p, 0.0)
    ensures kind != Straight && kind != LShape && kind != Circular ==> r == At(Origin)
  {
    match kind
    case "straight" => At(Vec3(-4.0 + p * 8.0, 0.0, 0.0))
    case "l-shape" => At(if p < LCorner then LFirstLeg(p) else LSecondLeg(p))
    case "circular" => OnCircle(p, 0.0)
    case _ => At(Origin)
  }

  /** On a straight belt a box moves from x = -4 toward x = 4, linearly in progress. */
  lemma StraightPath(p: real, q: real)
    requires 0.0 <= p < q < 1.0
    ensures var a := BoxPosition(Straight, p).v; var b := BoxPosition(Straight, q).v;
      && -4.0 <= a.x < b.x < 4.0 && a.y == b.y == 0.0 && a.z == b.z == 0.0
      && b.x - a.x == 8.0 * (q - p)
  {
  }

  /**
   * On the L-shaped belt a box runs along x from -6 to 3 at z = 0, then along
   * z from 0 toward 4 at x = 3, and the two legs meet at progress 0.6.
   */
  lemma LShapePath(p: real)
    requires 0.0 <= p < 1.0
    ensures LFirstLeg(LCorner) == LSecondLeg(LCorner) == Vec3(3.0, 0.0, 0.0)
    ensures var v := BoxPosition(LShape, p).v;
      && -6.0 <= v.x <= 3.0 && 0.0 <= v.z < 4.0 && v.y == 0.0
      && (p < LCorner ==> v.z == 0.0) && (p >= LCorner ==> v.x == 3.0)
  {
    var v := BoxPosition(LShape, p).v;
    if p < LCorner {
      assert p / LCorner < 1.0;
    } else {
      assert (p - LCorner) / 0.4 < 1.0;
    }
  }

  /** An unknown belt kind builds straight geometry yet leaves every box at the origin. */
  lemma UnknownKindAtOrigin(kind: string, p: real)
    requires kind != Straight && kind != LShape && kind != Circular
    ensures RollerCount(kind) == RollerCount(Straight) && BoxCount(kind) == BoxCount(Straight)
    ensures BoxPosition(kind, p) == At(Origin)
  {
  }

  /** The mesh position after `position.y += 0.2`. */
  function Lifted(pl: Placement): (r: Placement)
    ensures r.At? == pl.At?
    ensures r.At? ==> r.v == Vec3(pl.v.x, pl.v.y + BoxLift, pl.v.z)
  {
    match pl
    case At(v) => At(Vec3(v.x, v.y + BoxLift, v.z))
    case OnCircle(t, y) => OnCircle(t, y + BoxLift)
  }

  /** One box's step in `updateMovingBoxes` on a belt of the given kind and speed. */
  function Advance(kind: string, b: Box, beltSpeed: real): (r: Box)
    ensures r.speed == b.speed
    ensures (0.0 <= b.progress < 1.0 && b.speed >= 0.0 && beltSpeed >= 0.0) ==> 0.0 <= r.progress < 1.0
    ensures r.mesh == Lifted(BoxPosition(kind, r.progress))
  {
    var moved := b.progress + b.speed * beltSpeed;
    var p := if moved >= 1.0 then 0.0 else moved;
    Box(p, b.speed, Lifted(BoxPosition(kind, p)))
  }

  /** Progress grows by speed times belt speed, and wraps to 0 on reaching 1. */
  lemma AdvanceProgress(kind: string, b: Box, beltSpeed: real)
    ensures var moved := b.progress + b.speed * beltSpeed;
      && (moved < 1.0 ==> Advance(kind, b, beltSpeed).progress == moved)
      && (moved >= 1.0 ==> Advance(kind, b, beltSpeed).progress == 0.0)
  {
  }

  function AdvanceAll(kind: string, boxes: seq<Box>, beltSpeed: real): (r: seq<Box>)
    ensures |r| == |boxes|
    ensures forall k :: 0 <= k < |r| ==> r[k] == Advance(kind, boxes[k], beltSpeed)
  {
    seq(|boxes|, k requires 0 <= k < |boxes| => Advance(kind, boxes[k], beltSpeed))
  }

  /** The invariant of every belt. */
  ghost predicate Consistent(s: BeltState)
  {
    0.0 <= s.speed <= MaxSpeed && BoxesOk(s.boxes)
  }

  function InitialBelt(kind: string): BeltState
  {
    BeltState(kind, InitialSpeed, true, 0, [])
  }

  /** `create()`: rollers for the shape, then one box per draw. */
  function Build(s: BeltState, draws: seq<real>): (r: BeltState)
    requires RandomDraws(draws) && |draws| == BoxCount(s.kind)
    ensures Consistent(s) ==> Consistent(r)
  {
    s.(rollerCount := s.rollerCount + RollerCount(s.kind), boxes := s.boxes + InitialBoxes(draws))
  }

  /** `setSpeed(v)`. */
  function WithSpeed(s: BeltState, v: real): (r: BeltState)
    ensures Consistent(s) ==> Consistent(r)
  {
    s.(speed := Clamp(v))
  }

  /** `setRunning(on)`. */
  function WithRunning(s: BeltState, on: bool): (r: BeltState)
    ensures Consistent(s) ==> Consistent(r)
  {
    s.(isRunning := on)
  }

  /** `update()`: a stopped belt does nothing; a running one advances every box. */
  function Step(s: BeltState): (r: BeltState)
    ensures Consistent(s) ==> Consistent(r)
    ensures !s.isRunning ==> r == s
    ensures r.speed == s.speed && r.isRunning == s.isRunning && |r.boxes| == |s.boxes|
  {
    if s.isRunning then s.(boxes := AdvanceAll(s.kind, s.boxes, s.speed)) else s
  }

  /** Setting the speed twice with the same value is the same as setting it once. */
  lemma SetSpeedIdempotent(s: BeltState, v: real)
    ensures WithSpeed(WithSpeed(s, v), v) == WithSpeed(s, v)
    ensures WithSpeed(s, v).speed == Clamp(v)
  {
  }

  class ConveyorBelt {
    /** The belt shape: "straight", "l-shape", "circular" or anything else. */
    const kind: string
    /** Built as a `HotConveyorBelt`; its extra heat effects are not modelled. */
    const hot: bool
    var speed: real
    var isRunning: bool
    var rollerCount: nat
    var boxes: seq<Box>

    function State(): BeltState
      reads this
    {
      BeltState(kind, speed, isRunning, rollerCount, boxes)
    }

    ghost predicate Valid()
      reads this
    {
      Consistent(State())
    }

    constructor (kind: string, hot: bool)
      ensures this.kind == kind && this.hot == hot
      ensures Valid() && State() == InitialBelt(kind)
    {
      this.kind := kind;
      this.hot := hot;
      speed := InitialSpeed;
      isRunning := true;
      rollerCount := 0;
      boxes := [];
    }

    /** `create()`; `draws` are the `Math.random()` values behind the box speeds. */
    method Create(draws: seq<real>)
      requires Valid() && RandomDraws(draws) && |draws| == BoxCount(kind)
      modifies this
      ensures Valid() && State() == Build(old(State()), draws)
    {
      rollerCount := rollerCount + RollerCount(kind);
      var n := BoxCount(kind);
      var i := 0;
      while i < n
        invariant 0 <= i <= n
        invariant boxes == old(boxes) + InitialBoxes(draws)[..i]
        invariant rollerCount == old(rollerCount) + RollerCount(kind)
        invariant speed == old(speed) && isRunning == old(isRunning)
      {
        boxes := boxes + [NewBox(i, n, draws[i])];
        i := i + 1;
      }
      assert InitialBoxes(draws)[..n] == InitialBoxes(draws);
    }

    /** `setSpeed(v)`. */
    method SetSpeed(v: real)
      requires Valid()
      modifies this
      ensures Valid() && State() == WithSpeed(old(State()), v)
    {
      speed := Max(0.0, Min(MaxSpeed, v));
    }

    /** `setRunning(on)`. */
    method SetRunning(on: bool)
      requires Valid()
      modifies this
      ensures Valid() && State() == WithRunning(old(State()), on)
    {
      isRunning := on;
    }

    /** `update()`. */
    method Update()
      requires Valid()
      modifies this
      ensures Valid() && State() == Step(old(State()))
    {
      if !isRunning {
        return;
      }
      UpdateMovingBoxes();
    }

    /** `updateMovingBoxes()`: advances each box in place, in order. */
    method UpdateMovingBoxes()
      requires Valid()
      modifies this
      ensures Valid() && State() == old(State()).(boxes := AdvanceAll(kind, old(boxes), speed))
    {
      var i := 0;
      while i < |boxes|
        modifies this`boxes
        invariant 0 <= i <= |boxes| == |old(boxes)|
        invariant forall k :: 0 <= k < i ==> boxes[k] == Advance(kind, old(boxes)[k], speed)
        invariant forall k :: i <= k < |boxes| ==> boxes[k] == old(boxes)[k]
      {
        var b := boxes[i];
        var p := b.progress + b.speed * speed;
        if p >= 1.0 {
          p := 0.0;
        }
        var next := Box(p, b.speed, Lifted(BoxPosition(kind, p)));
        assert next == Advance(kind, old(boxes)[i], speed);
        boxes := boxes[i := next];
        i := i + 1;
      }
    }
  }
}
