/** The planar simulation of rvo2d.cpp: two robots, each stepping towards its
    goal and stepping sideways around the other robot when the two are closer
    than the sum of their radii.

    The arithmetic is over exact reals; `sqrt` is a parameter satisfying
    `RealMath.IsSqrt`. A step that would divide by a zero norm is excluded by
    `StepDefined`.
 */
module Rvo2D {
  import opened RealMath

  /** A `std::array<double, 2>`: a point or a displacement in the plane. */
  datatype Vec2 = Vec2(x: real, y: real)

  const Zero := Vec2(0.0, 0.0)

  function Sub(a: Vec2, b: Vec2): Vec2 { Vec2(a.x - b.x, a.y - b.y) }

  function Scale(k: real, v: Vec2): Vec2 { Vec2(k * v.x, k * v.y) }

  function Dot(a: Vec2, b: Vec2): real { a.x * b.x + a.y * b.y }

  /** The z component of the cross product: zero exactly when `a` and `b` are parallel. */
  function Cross(a: Vec2, b: Vec2): real { a.x * b.y - a.y * b.x }

  /** The squared Euclidean norm, the radicand the source hands to `sqrt`. */
  function Norm2(v: Vec2): real { Sq(v.x) + Sq(v.y) }

  /** The avoidance vector of the planar robot: `v` turned a quarter turn
      counter-clockwise. It has the length of `v` and is orthogonal to it. */
  function Perp(v: Vec2): (r: Vec2)
    ensures Dot(r, v) == 0.0
    ensures Norm2(r) == Norm2(v)
    ensures r == Zero <==> v == Zero
  {
    Vec2(-v.y, v.x)
  }

  /** One coordinate of a move: `(c / norm) * speed`. */
  function AxisStep(c: real, norm: real, speed: real): real
    requires norm != 0.0
  {
    (c / norm) * speed
  }

  /** `position + (v / |v|) * speed`: a move of length `speed` along `v`.
      The displacement has squared length `Sq(speed)`, is parallel to `v`,
      and its projection on `v` is `speed * |v|` (so it points along `v`
      when `speed` is positive, against it when negative). */
  function MoveAlong(sqrt: real -> real, position: Vec2, v: Vec2, speed: real): (r: Vec2)
    requires IsSqrt(sqrt)
    requires v != Zero
    ensures Norm2(Sub(r, position)) == Sq(speed)
    ensures Cross(Sub(r, position), v) == 0.0
    ensures Dot(Sub(r, position), v) == speed * sqrt(Norm2(v))
  {
    NormPositive(v);
    SqrtPositive(sqrt, Norm2(v));
    var norm := sqrt(Norm2(v));
    var r := Vec2(position.x + AxisStep(v.x, norm, speed), position.y + AxisStep(v.y, norm, speed));
    UnitStep(v, norm, speed, Sub(r, position));
    r
  }

  /** The displacement of `MoveAlong` is `v` scaled by `speed / |v|`. */
  lemma MoveAlongIsMultiple(sqrt: real -> real, position: Vec2, v: Vec2, speed: real)
    requires IsSqrt(sqrt)
    requires v != Zero
    ensures 0.0 < sqrt(Norm2(v))
    ensures Sub(MoveAlong(sqrt, position, v, speed), position) == Scale(speed / sqrt(Norm2(v)), v)
  {
    NormPositive(v);
    SqrtPositive(sqrt, Norm2(v));
    StepIsScaled(v, sqrt(Norm2(v)), speed);
  }

  /** `MoveAlong` written out component by component. */
  lemma MoveAlongComponents(sqrt: real -> real, position: Vec2, v: Vec2, speed: real, norm: real)
    requires IsSqrt(sqrt)
    requires v != Zero
    requires norm == sqrt(Sq(v.x) + Sq(v.y))
    ensures norm != 0.0
    ensures MoveAlong(sqrt, position, v, speed)
              == Vec2(position.x + AxisStep(v.x, norm, speed), position.y + AxisStep(v.y, norm, speed))
  {
    NormPositive(v);
    SqrtPositive(sqrt, Norm2(v));
  }

  /** A robot's state as a value: the fields of the C++ `Robot`. */
  datatype Agent = Agent(position: Vec2, goal: Vec2, speed: real, radius: real, path: seq<Vec2>)

  /** The offset from `self` to `other` (`rel_position`). */
  function Offset(self: Agent, other: Agent): Vec2 {
    Sub(other.position, self.position)
  }

  /** The branch rule: `distance < radius + other.radius`, strict. */
  predicate Avoids(sqrt: real -> real, self: Agent, other: Agent) {
    sqrt(Norm2(Offset(self, other))) < self.radius + other.radius
  }

  /** The vector the chosen branch normalises is non-zero: in the avoidance
      branch the robots do not coincide, in the goal branch the robot is not
      on its goal. Otherwise the source divides by a zero norm. */
  predicate StepDefined(sqrt: real -> real, self: Agent, other: Agent) {
    if Avoids(sqrt, self, other) then other.position != self.position
    else self.goal != self.position
  }

  /** The position `compute_new_velocity(other)` moves `self` to. */
  function NextPosition(sqrt: real -> real, self: Agent, other: Agent): (r: Vec2)
    requires IsSqrt(sqrt)
    requires StepDefined(sqrt, self, other)
    ensures Norm2(Sub(r, self.position)) == Sq(self.speed)
    ensures Avoids(sqrt, self, other) ==>
              Dot(Sub(r, self.position), Offset(self, other)) == 0.0
    ensures !Avoids(sqrt, self, other) ==>
              Cross(Sub(r, self.position), Sub(self.goal, self.position)) == 0.0 &&
              Dot(Sub(r, self.position), Sub(self.goal, self.position))
                == self.speed * sqrt(Norm2(Sub(self.goal, self.position)))
  {
    var rel := Offset(self, other);
    var distance := sqrt(Norm2(rel));
    if distance < self.radius + other.radius then
      var r := MoveAlong(sqrt, self.position, Perp(rel), self.speed);
      CrossWithPerp(Sub(r, self.position), rel);
      r
    else
      MoveAlong(sqrt, self.position, Sub(self.goal, self.position), self.speed)
  }

  /** The vector `compute_new_velocity` normalises: the avoidance vector of
      the offset when the robots are too close, the direction to the goal
      otherwise. */
  function StepVector(sqrt: real -> real, self: Agent, other: Agent): Vec2 {
    if Avoids(sqrt, self, other) then Perp(Offset(self, other)) else Sub(self.goal, self.position)
  }

  /** `NextPosition` written out component by component, for the vector `v`
      the branch normalises (as the source computes it) and its length
      `norm`, which is not zero. */
  lemma StepComponents(sqrt: real -> real, self: Agent, other: Agent, v: Vec2, norm: real)
    requires IsSqrt(sqrt)
    requires StepDefined(sqrt, self, other)
    requires v == StepVector(sqrt, self, other)
    requires norm == sqrt(Sq(v.x) + Sq(v.y))
    ensures norm != 0.0
    ensures NextPosition(sqrt, self, other)
              == Vec2(self.position.x + AxisStep(v.x, norm, self.speed),
                      self.position.y + AxisStep(v.y, norm, self.speed))
  {
    assert Offset(self, other) == Zero ==> other.position == self.position;
    MoveAlongComponents(sqrt, self.position, v, self.speed, norm);
  }

  /** The whole state after one `compute_new_velocity(other)`: the new position,
      recorded once more at the end of the path; nothing else changes. */
  function Advance(sqrt: real -> real, self: Agent, other: Agent): Agent
    requires IsSqrt(sqrt)
    requires StepDefined(sqrt, self, other)
  {
    var next := NextPosition(sqrt, self, other);
    self.(position := next, path := self.path + [next])
  }

  // ---------------------------------------------------------------------
  // Properties of one step

  /** The avoidance branch is taken exactly when the squared distance is below
      the squared radius sum and the radius sum is positive. */
  lemma AvoidsIffWithinRadii(sqrt: real -> real, self: Agent, other: Agent)
    requires IsSqrt(sqrt)
    ensures Avoids(sqrt, self, other) <==>
              var sum := self.radius + other.radius;
              0.0 < sum && Norm2(Offset(self, other)) < Sq(sum)
  {
    NormNonNegative(Offset(self, other));
    SqrtBelow(sqrt, Norm2(Offset(self, other)), self.radius + other.radius);
  }

  /** The test is strict: at distance exactly `radius + other.radius` the
      robot keeps heading for its goal. */
  lemma BoundaryTakesGoalBranch(sqrt: real -> real, self: Agent, other: Agent)
    requires IsSqrt(sqrt)
    requires 0.0 <= self.radius + other.radius
    requires Norm2(Offset(self, other)) == Sq(self.radius + other.radius)
    ensures !Avoids(sqrt, self, other)
  {
    var sum := self.radius + other.radius;
    SqrtOfSquare(sqrt, sum);
    assert sqrt(Norm2(Offset(self, other))) == sum;
  }

  /** Every defined step moves the robot by exactly `|speed|`. */
  lemma StepLength(sqrt: real -> real, self: Agent, other: Agent)
    requires IsSqrt(sqrt)
    requires StepDefined(sqrt, self, other)
    ensures sqrt(Norm2(Sub(NextPosition(sqrt, self, other), self.position)))
              == if self.speed < 0.0 then -self.speed else self.speed
  {
    assert Norm2(Sub(NextPosition(sqrt, self, other), self.position)) == Sq(self.speed);
    SqrtOfSquare(sqrt, self.speed);
  }

  /** In the goal branch the displacement is a positive multiple of
      `goal - position` when the speed is positive. */
  lemma GoalBranchPointsAtGoal(sqrt: real -> real, self: Agent, other: Agent)
    requires IsSqrt(sqrt)
    requires StepDefined(sqrt, self, other)
    requires !Avoids(sqrt, self, other)
    requires 0.0 < self.speed
    ensures exists k :: 0.0 < k &&
              Sub(NextPosition(sqrt, self, other), self.position) == Scale(k, Sub(self.goal, self.position))
  {
    var v := Sub(self.goal, self.position);
    MoveAlongIsMultiple(sqrt, self.position, v, self.speed);
    NormPositive(v);
    SqrtPositive(sqrt, Norm2(v));
    var k := self.speed / sqrt(Norm2(v));
    assert 0.0 < k;
    assert Sub(NextPosition(sqrt, self, other), self.position) == Scale(k, v);
  }

  /** In the goal branch the robot ends `|distance - speed|` from its goal:
      closer by `speed` unless it overshoots. */
  lemma GoalBranchRemainingDistance(sqrt: real -> real, self: Agent, other: Agent)
    requires IsSqrt(sqrt)
    requires StepDefined(sqrt, self, other)
    requires !Avoids(sqrt, self, other)
    ensures var n := sqrt(Norm2(Sub(self.goal, self.position)));
            Norm2(Sub(self.goal, NextPosition(sqrt, self, other)))
              == Sq(n - self.speed)
  {
    var p, r, g := self.position, NextPosition(sqrt, self, other), self.goal;
    var n := sqrt(Norm2(Sub(g, p)));
    NormNonNegative(Sub(g, p));
    assert Sub(g, r) == Sub(Sub(g, p), Sub(r, p));
    NormOfDifference(Sub(g, p), Sub(r, p));
    SqrtOfSquare(sqrt, n);
    assert Sq(n) == Norm2(Sub(g, p)) by {
      assert 0.0 <= n && Sq(n) == Norm2(Sub(g, p));
    }
    SquareOfDifference(n, self.speed);
  }

  /** An avoidance step is orthogonal to the offset, so it moves the robot
      away from where the other robot stood: the squared distance grows by
      `speed * speed`. */
  lemma AvoidanceMovesAway(sqrt: real -> real, self: Agent, other: Agent)
    requires IsSqrt(sqrt)
    requires StepDefined(sqrt, self, other)
    requires Avoids(sqrt, self, other)
    ensures Norm2(Sub(other.position, NextPosition(sqrt, self, other)))
              == Norm2(Offset(self, other)) + Sq(self.speed)
  {
    var p, r, q := self.position, NextPosition(sqrt, self, other), other.position;
    assert Sub(q, r) == Sub(Sub(q, p), Sub(r, p));
    NormOfDifference(Sub(q, p), Sub(r, p));
  }

  /** The step is undefined exactly when the robots coincide and their radius
      sum is positive (avoidance with a zero vector), or when the robot sits on
      its goal outside the other's reach (goal seeking with a zero vector). */
  lemma StepUndefinedCases(sqrt: real -> real, self: Agent, other: Agent)
    requires IsSqrt(sqrt)
    ensures var sum := self.radius + other.radius;
            var near := 0.0 < sum && Norm2(Offset(self, other)) < Sq(sum);
            !StepDefined(sqrt, self, other) <==>
              (near && self.position == other.position) ||
              (!near && self.position == self.goal)
  {
    AvoidsIffWithinRadii(sqrt, self, other);
  }

  // ---------------------------------------------------------------------
  // The driver: `STEPS` rounds, robot1 first, then robot2 against robot1's new position

  datatype World = World(robot1: Agent, robot2: Agent)

  /** Both steps of a round are defined; robot2's is taken against robot1's new state. */
  predicate RoundDefined(sqrt: real -> real, w: World)
    requires IsSqrt(sqrt)
  {
    StepDefined(sqrt, w.robot1, w.robot2) &&
    StepDefined(sqrt, w.robot2, Advance(sqrt, w.robot1, w.robot2))
  }

  /** One iteration of the driver loop. */
  function Round(sqrt: real -> real, w: World): World
    requires IsSqrt(sqrt)
    requires RoundDefined(sqrt, w)
  {
    var robot1 := Advance(sqrt, w.robot1, w.robot2);
    World(robot1, Advance(sqrt, w.robot2, robot1))
  }

  /** Every one of the first `n` rounds from `w` is defined. */
  predicate RunDefined(sqrt: real -> real, w: World, n: nat)
    requires IsSqrt(sqrt)
    decreases n
  {
    n == 0 || (RoundDefined(sqrt, w) && RunDefined(sqrt, Round(sqrt, w), n - 1))
  }

  /** The state after `n` rounds from `w`. */
  function Run(sqrt: real -> real, w: World, n: nat): World
    requires IsSqrt(sqrt)
    requires RunDefined(sqrt, w, n)
    decreases n
  {
    if n == 0 then w else Run(sqrt, Round(sqrt, w), n - 1)
  }

  // ---------------------------------------------------------------------
  // Properties of the run

  /** A round appends one entry to each path and leaves the goals, the
      speeds and the radii as they were. */
  lemma RoundAppendsOne(sqrt: real -> real, w: World)
    requires IsSqrt(sqrt)
    requires RoundDefined(sqrt, w)
    ensures var v := Round(sqrt, w);
            v.robot1.path == w.robot1.path + [v.robot1.position] &&
            v.robot2.path == w.robot2.path + [v.robot2.position] &&
            SameParameters(v, w)
  {
  }

  /** Two worlds whose robots have the same goals, speeds and radii. */
  predicate SameParameters(v: World, w: World) {
    v.robot1.goal == w.robot1.goal && v.robot1.speed == w.robot1.speed &&
    v.robot1.radius == w.robot1.radius &&
    v.robot2.goal == w.robot2.goal && v.robot2.speed == w.robot2.speed &&
    v.robot2.radius == w.robot2.radius
  }

  /** A run appends one entry per round to each path and leaves the earlier
      entries, the goals, the speeds and the radii as they were. */
  lemma {:induction false} RunAppendsOnePerRound(sqrt: real -> real, w: World, n: nat)
    requires IsSqrt(sqrt)
    requires RunDefined(sqrt, w, n)
    ensures var v := Run(sqrt, w, n);
            |v.robot1.path| == |w.robot1.path| + n && v.robot1.path[..|w.robot1.path|] == w.robot1.path &&
            |v.robot2.path| == |w.robot2.path| + n && v.robot2.path[..|w.robot2.path|] == w.robot2.path &&
            SameParameters(v, w)
    decreases n
  {
    if n > 0 {
      var u := Round(sqrt, w);
      RoundAppendsOne(sqrt, w);
      RunAppendsOnePerRound(sqrt, u, n - 1);
      var v := Run(sqrt, w, n);
      assert v.robot1.path[..|w.robot1.path|] == v.robot1.path[..|u.robot1.path|][..|w.robot1.path|];
      assert v.robot2.path[..|w.robot2.path|] == v.robot2.path[..|u.robot2.path|][..|w.robot2.path|];
    }
  }

  /** The path of `a` records its moves from entry `from` on, and every one of
      those moves has squared length `speed * speed`. */
  ghost predicate MovesAtSpeed(a: Agent, from: nat) {
    |a.path| >= 1 && a.path[|a.path| - 1] == a.position &&
    forall i :: from <= i < |a.path| - 1 ==> Norm2(Sub(a.path[i + 1], a.path[i])) == Sq(a.speed)
  }

  /** Over a run the last path entry stays the current position, and each new
      path entry is exactly `|speed|` from the one before it. */
  lemma {:induction false} RunMovesAtSpeed(sqrt: real -> real, w: World, n: nat, from1: nat, from2: nat)
    requires IsSqrt(sqrt)
    requires RunDefined(sqrt, w, n)
    requires from1 < |w.robot1.path| && MovesAtSpeed(w.robot1, from1)
    requires from2 < |w.robot2.path| && MovesAtSpeed(w.robot2, from2)
    ensures MovesAtSpeed(Run(sqrt, w, n).robot1, from1)
    ensures MovesAtSpeed(Run(sqrt, w, n).robot2, from2)
    decreases n
  {
    if n > 0 {
      AdvanceMovesAtSpeed(sqrt, w.robot1, w.robot2, from1);
      var robot1 := Advance(sqrt, w.robot1, w.robot2);
      AdvanceMovesAtSpeed(sqrt, w.robot2, robot1, from2);
      RunMovesAtSpeed(sqrt, Round(sqrt, w), n - 1, from1, from2);
    }
  }

  lemma AdvanceMovesAtSpeed(sqrt: real -> real, self: Agent, other: Agent, from: nat)
    requires IsSqrt(sqrt)
    requires StepDefined(sqrt, self, other)
    requires from < |self.path|
    requires MovesAtSpeed(self, from)
    ensures MovesAtSpeed(Advance(sqrt, self, other), from)
  {
    var a := Advance(sqrt, self, other);
    assert a.path[|a.path| - 2] == self.position;
    forall i | from <= i < |a.path| - 1
      ensures Norm2(Sub(a.path[i + 1], a.path[i])) == Sq(a.speed)
    {
      if i < |self.path| - 1 {
        assert a.path[i] == self.path[i] && a.path[i + 1] == self.path[i + 1];
      }
    }
  }

  // ---------------------------------------------------------------------
  // The robot object

  class Robot {
    var position: Vec2
    const goal: Vec2
    const speed: real
    const radius: real
    var path: seq<Vec2>

    /** The robot's fields as a value. */
    function Model(): Agent
      reads this
    {
      Agent(position, goal, speed, radius, path)
    }

    /** The last entry of the path is the current position. */
    ghost predicate Valid()
      reads this
    {
      |path| >= 1 && path[|path| - 1] == position
    }

    /** The path starts as the one-entry sequence holding the start position. */
    constructor (position: Vec2, goal: Vec2, speed: real, radius: real)
      ensures Model() == Agent(position, goal, speed, radius, [position])
      ensures Valid()
    {
      this.position := position;
      this.goal := goal;
      this.speed := speed;
      this.radius := radius;
      this.path := [position];
    }

    /** One step against `other`, appending the new position to `path`.
        Only this robot changes. */
    method ComputeNewVelocity(other: Robot, sqrt: real -> real)
      requires IsSqrt(sqrt)
      requires StepDefined(sqrt, Model(), other.Model())
      modifies this
      ensures Model() == Advance(sqrt, old(Model()), old(other.Model()))
      ensures path == old(path) + [position]
      ensures other != this ==> other.Model() == old(other.Model())
      ensures Valid()
    {
      ghost var self, them := Model(), other.Model();
      var relPosition := Vec2(other.position.x - position.x, other.position.y - position.y);
      var distance := sqrt(Sq(relPosition.x) + Sq(relPosition.y));
      if distance < radius + other.radius {
        var avoidance := Vec2(-relPosition.y, relPosition.x);
        var norm := sqrt(Sq(avoidance.x) + Sq(avoidance.y));
        StepComponents(sqrt, self, them, avoidance, norm);
        position := position.(x := position.x + AxisStep(avoidance.x, norm, speed));
        position := position.(y := position.y + AxisStep(avoidance.y, norm, speed));
        assert position == NextPosition(sqrt, self, them);
      } else {
        var direction := Vec2(goal.x - position.x, goal.y - position.y);
        var norm := sqrt(Sq(direction.x) + Sq(direction.y));
        StepComponents(sqrt, self, them, direction, norm);
        position := position.(x := position.x + AxisStep(direction.x, norm, speed));
        position := position.(y := position.y + AxisStep(direction.y, norm, speed));
        assert position == NextPosition(sqrt, self, them);
      }
      path := path + [position];
    }

    /** The recorded positions, oldest first; the last is the current position. */
    method GetPath() returns (p: seq<Vec2>)
      requires Valid()
      ensures p == path
      ensures |p| >= 1 && p[|p| - 1] == position
    {
      p := path;
    }
  }

  /** The driver loop: `steps` rounds of robot1 stepping against robot2, then
      robot2 against robot1's already updated state. */
  method Simulate(robot1: Robot, robot2: Robot, steps: nat, sqrt: real -> real)
    requires robot1 != robot2
    requires IsSqrt(sqrt)
    requires RunDefined(sqrt, World(robot1.Model(), robot2.Model()), steps)
    requires robot1.Valid() && robot2.Valid()
    modifies robot1, robot2
    ensures World(robot1.Model(), robot2.Model())
              == Run(sqrt, old(World(robot1.Model(), robot2.Model())), steps)
    ensures robot1.Valid() && robot2.Valid()
  {
    ghost var start := World(robot1.Model(), robot2.Model());
    ghost var left := steps;
    for i := 0 to steps
      invariant left == steps - i
      invariant RunDefined(sqrt, World(robot1.Model(), robot2.Model()), left)
      invariant Run(sqrt, World(robot1.Model(), robot2.Model()), left) == Run(sqrt, start, steps)
      invariant robot1.Valid() && robot2.Valid()
    {
      PlayRound(robot1, robot2, sqrt);
      left := left - 1;
    }
  }

  /** One pass of the driver loop's body: robot1 steps against robot2, then
      robot2 against the moved robot1. */
  method PlayRound(robot1: Robot, robot2: Robot, sqrt: real -> real)
    requires robot1 != robot2
    requires IsSqrt(sqrt)
    requires RoundDefined(sqrt, World(robot1.Model(), robot2.Model()))
    modifies robot1, robot2
    ensures World(robot1.Model(), robot2.Model())
              == Round(sqrt, old(World(robot1.Model(), robot2.Model())))
    ensures robot1.Valid() && robot2.Valid()
  {
    ghost var w := World(robot1.Model(), robot2.Model());
    robot1.ComputeNewVelocity(robot2, sqrt);
    assert robot1.Model() == Round(sqrt, w).robot1 && robot2.Model() == w.robot2;
    robot2.ComputeNewVelocity(robot1, sqrt);
  }

  /** The number of rounds the demonstration runs. */
  const STEPS: nat := 100

  /** Where the demonstration's robots start: robot1 at the origin, robot2 at
      `(100, 100)`; each heads for the other's start. */
  const Corner1 := Vec2(0.0, 0.0)
  const Corner2 := Vec2(100.0, 100.0)

  /** The demonstration's two robots, both with speed 2 and radius 15, each
      path holding its start position. */
  const DemoStart := World(
    Agent(Corner1, Corner2, 2.0, 15.0, [Corner1]),
    Agent(Corner2, Corner1, 2.0, 15.0, [Corner2]))

  /** The demonstration: build the two robots, run `STEPS` rounds and hand
      back both paths, which are those of the model's run from `DemoStart`
      (`RunFromStart` gives their shape). */
  method Demo(sqrt: real -> real) returns (path1: seq<Vec2>, path2: seq<Vec2>)
    requires IsSqrt(sqrt)
    requires RunDefined(sqrt, DemoStart, STEPS)
    ensures path1 == Run(sqrt, DemoStart, STEPS).robot1.path
    ensures path2 == Run(sqrt, DemoStart, STEPS).robot2.path
    ensures |path1| == STEPS + 1 && path1[0] == Corner1
    ensures |path2| == STEPS + 1 && path2[0] == Corner2
  {
    var robot1 := new Robot(Corner1, Corner2, 2.0, 15.0);
    var robot2 := new Robot(Corner2, Corner1, 2.0, 15.0);
    ghost var start := World(robot1.Model(), robot2.Model());
    assert start == DemoStart;
    Simulate(robot1, robot2, STEPS, sqrt);
    RunFromStart(sqrt, start, STEPS);
    path1 := robot1.GetPath();
    path2 := robot2.GetPath();
  }

  /** A run of `n` rounds from robots whose paths hold just their start
      positions leaves paths of `n + 1` entries that begin at the start
      positions, end at the current positions and advance by exactly the
      robot's speed at every step. */
  lemma RunFromStart(sqrt: real -> real, w: World, n: nat)
    requires IsSqrt(sqrt)
    requires RunDefined(sqrt, w, n)
    requires w.robot1.path == [w.robot1.position] && w.robot2.path == [w.robot2.position]
    ensures var end := Run(sqrt, w, n);
            |end.robot1.path| == n + 1 && end.robot1.path[0] == w.robot1.position &&
            |end.robot2.path| == n + 1 && end.robot2.path[0] == w.robot2.position &&
            MovesAtSpeed(end.robot1, 0) && end.robot1.speed == w.robot1.speed &&
            MovesAtSpeed(end.robot2, 0) && end.robot2.speed == w.robot2.speed
  {
    var end := Run(sqrt, w, n);
    RunAppendsOnePerRound(sqrt, w, n);
    assert end.robot1.path[..1] == w.robot1.path && end.robot2.path[..1] == w.robot2.path;
    RunMovesAtSpeed(sqrt, w, n, 0, 0);
  }

  // ---------------------------------------------------------------------
  // Vector algebra

  lemma NormNonNegative(v: Vec2)
    ensures 0.0 <= Norm2(v)
  {
    SquareNonNegative(v.x);
    SquareNonNegative(v.y);
  }

  lemma NormPositive(v: Vec2)
    requires v != Zero
    ensures 0.0 < Norm2(v)
  {
    SquareNonNegative(v.x);
    SquareNonNegative(v.y);
    if v.x != 0.0 {
      SquarePositive(v.x);
    } else {
      SquarePositive(v.y);
    }
  }

  /** `|a - b|^2 == |a|^2 - 2 a.b + |b|^2` */
  lemma NormOfDifference(a: Vec2, b: Vec2)
    ensures Norm2(Sub(a, b)) == Norm2(a) - 2.0 * Dot(a, b) + Norm2(b)
  {
    SquareOfDifference(a.x, b.x);
    SquareOfDifference(a.y, b.y);
  }

  /** Crossing with the quarter-turned vector is the dot product. */
  lemma CrossWithPerp(d: Vec2, v: Vec2)
    ensures Cross(d, Perp(v)) == Dot(d, v)
  {
  }

  lemma AxisStepIsScaled(x: real, norm: real, speed: real)
    requires norm != 0.0
    ensures AxisStep(x, norm, speed) == (speed / norm) * x
  {
  }

  /** The component-wise step `(v / norm) * speed` is `v` scaled by `speed / norm`. */
  lemma StepIsScaled(v: Vec2, norm: real, speed: real)
    requires norm != 0.0
    ensures Vec2(AxisStep(v.x, norm, speed), AxisStep(v.y, norm, speed)) == Scale(speed / norm, v)
  {
    AxisStepIsScaled(v.x, norm, speed);
    AxisStepIsScaled(v.y, norm, speed);
  }

  /** A multiple `k * v` has squared length `k^2 |v|^2`, is parallel to `v`
      and projects to `k |v|^2` on it. */
  lemma ScaledFacts(k: real, v: Vec2)
    ensures Norm2(Scale(k, v)) == Sq(k) * Norm2(v)
    ensures Cross(Scale(k, v), v) == 0.0
    ensures Dot(Scale(k, v), v) == k * Norm2(v)
  {
    SquareOfProduct(k, v.x);
    SquareOfProduct(k, v.y);
  }

  /** The displacement `(v / norm) * speed`, component-wise, where `norm` is
      the length of `v`: squared length `Sq(speed)`, parallel to `v`, and
      projection `speed * norm` on `v`. */
  lemma UnitStep(v: Vec2, norm: real, speed: real, d: Vec2)
    requires 0.0 < norm && Sq(norm) == Norm2(v)
    requires d == Vec2(AxisStep(v.x, norm, speed), AxisStep(v.y, norm, speed))
    ensures Norm2(d) == Sq(speed)
    ensures Cross(d, v) == 0.0
    ensures Dot(d, v) == speed * norm
  {
    var k := speed / norm;
    StepIsScaled(v, norm, speed);
    ScaledFacts(k, v);
    assert k * norm == speed;
    SquareOfProduct(k, norm);
    assert Norm2(d) == Sq(k) * Sq(norm);
    assert Dot(d, v) == k * (norm * Id(norm));
  }
}
