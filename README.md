# Reciprocal velocity obstacles: the two-robot step rule in Dafny

The repository has two demonstration programs, `rvo2d.cpp` (in the plane) and
`rvo3d.cpp` (in space). Each contains one `Robot` class. A robot holds:

- a `position`;
- a fixed `goal`, `speed` and `radius`;
- an append-only `path` of the positions it has occupied.

`compute_new_velocity(other)` makes one kinematic step:

- If the robot is closer to `other` than the sum of the two radii (strict `<`), it moves `speed` units along the avoidance vector. That vector is the offset to `other` turned a quarter turn: `(-y, x)` in the plane, `(-y, x, 0)` in space.
- Otherwise it moves `speed` units straight at its goal.
- Either way it appends the new position to `path`.

`main` builds two robots that head for each other's start. It then runs `STEPS = 100` rounds: robot1 steps against robot2, then robot2 steps against the robot1 that has already moved.

The model has three modules:

- `RealMath` holds the real-number facts shared by the two variants: squares, and the square-root property `IsSqrt`.
- `Rvo2D` (`rvo2d.dfy`) models `rvo2d.cpp`.
- `Rvo3D` (`rvo3d.dfy`) models `rvo3d.cpp`.

Each variant is built in the same layers:

- **Vectors as values.** `Vec2` / `Vec3`, with `Sub`, `Scale`, `Dot`, `Cross`, the squared norm `Norm2`, and the avoidance vector `Perp`.
- **One step as a pure specification.** `Agent` is a robot's fields as a value. `Avoids` is the branch rule. `StepDefined` says that the vector to be normalised is non-zero. `NextPosition` is where the step lands, and `MoveAlong` is the move of length `speed` along a vector. `Advance` is the whole new state. Lemmas about these state the step's geometry:
  - the branch rule on squares;
  - strictness at the boundary;
  - the step length is `|speed|`;
  - an avoidance step is orthogonal to the offset, and in space it keeps the height;
  - a goal step points at the goal, and leaves the robot `|distance - speed|` from it;
  - exactly when a step is undefined.
- **The driver as a pure specification.** `World` holds both robots. `Round` is one loop iteration, with robot2 stepping against robot1's new state. `Run(w, n)` is `n` rounds. Lemmas give the bookkeeping:
  - every round appends one entry to each path;
  - earlier entries stay as they were;
  - goals, speeds and radii stay as they were;
  - after `n` rounds from a fresh start each path has `n + 1` entries, begins at the start position, ends at the current position, and moves exactly `speed` at each step.
- **The program itself, imperatively.**
  - `class Robot` has a mutable `position` and `path` and constant `goal`, `speed` and `radius`.
  - Its constructor, `ComputeNewVelocity` and `GetPath` follow the C++ members statement for statement. This includes the component-by-component `+=` updates and the `push_back`.
  - `Simulate` is the `for` loop of `main`, `PlayRound` its body, and `Demo` the whole of `main` up to reading both paths.
  - Each method is proved against the pure layer: `ComputeNewVelocity` leaves exactly `Advance(old state, other)`, and `Simulate` leaves exactly `Run(old world, steps)`.

`double` is modelled as `real`. `std::sqrt` is a parameter `sqrt: real -> real` constrained by `IsSqrt`: `sqrt(x)` is non-negative and squares to `x` for every non-negative `x`. `IsSqrt` determines the function on the non-negative reals (`SqrtOfSquare`). Each coordinate of a move, `(c / norm) * speed`, is written through the one-line function `AxisStep`, exactly as the C++ writes it.

## Model

| member | source | states |
|---|---|---|
| Rvo2D.Perp | rvo2d.cpp:40-43 | the avoidance vector `(-y, x)` is orthogonal to the offset, has the offset's squared length, and is zero exactly when the offset is zero |
| Rvo2D.MoveAlong | rvo2d.cpp:52-54 | normalising `v` and scaling by `speed` gives a displacement of squared length `speed^2`, parallel to `v` (zero cross product), whose projection on `v` is `speed * ‖v‖` |
| Rvo2D.MoveAlongIsMultiple | rvo2d.cpp:52-54 | the displacement is `v` scaled by `speed / ‖v‖`, and `‖v‖` is positive |
| Rvo2D.NextPosition | rvo2d.cpp:31-55 | the step has squared length `speed^2`; in the avoidance branch it is orthogonal to `rel_position`; in the goal branch it is parallel to `goal - position` with projection `speed * ‖goal - position‖` |
| Rvo2D.StepComponents | rvo2d.cpp:44-54 | for the vector the branch normalises and its root-of-sum-of-squares `norm`, `norm` is non-zero and the new position is `position[i] + (v[i] / norm) * speed` coordinate by coordinate |
| Rvo2D.AvoidsIffWithinRadii | rvo2d.cpp:37-39 | the avoidance branch is taken exactly when the radius sum is positive and the squared distance is below its square |
| Rvo2D.BoundaryTakesGoalBranch | rvo2d.cpp:39 | at distance exactly `radius + other.radius` the strict test fails and the goal branch is taken |
| Rvo2D.StepLength | rvo2d.cpp:44-54 | every defined step moves the robot by exactly the absolute value of `speed` |
| Rvo2D.GoalBranchPointsAtGoal | rvo2d.cpp:48-54 | with positive speed the goal-branch displacement is a positive multiple of `goal - position` |
| Rvo2D.GoalBranchRemainingDistance | rvo2d.cpp:48-54 | after a goal step the squared distance to the goal is `(distance - speed)^2`: closer by `speed`, or past the goal when `speed` exceeds the distance |
| Rvo2D.AvoidanceMovesAway | rvo2d.cpp:40-46 | an avoidance step raises the squared distance to the other robot's position by exactly `speed^2` |
| Rvo2D.StepUndefinedCases | rvo2d.cpp:37-54 | a step divides by a zero norm exactly when the robots coincide within a positive radius sum, or the robot stands on its goal outside the other's reach |
| Rvo2D.Robot.constructor | rvo2d.cpp:26-29 | the fields are the arguments and `path` is the one-entry sequence holding the start position |
| Rvo2D.Robot.ComputeNewVelocity | rvo2d.cpp:31-58 | the new state is `Advance(old state, other)`; the path is the old path plus the new position; `other` is unchanged when distinct; the last path entry is the position |
| Rvo2D.Robot.GetPath | rvo2d.cpp:60-62 | returns the recorded path, non-empty and ending at the current position |
| Rvo2D.AdvanceMovesAtSpeed | rvo2d.cpp:45-57 | a step keeps "the last path entry is the position, and each recorded move has squared length `speed^2`" |
| Rvo2D.RoundAppendsOne | rvo2d.cpp:85-88 | a round appends exactly the new position to each path and keeps goals, speeds and radii |
| Rvo2D.RunAppendsOnePerRound | rvo2d.cpp:85-88 | `n` rounds add `n` entries to each path, keep the earlier entries, and keep goals, speeds and radii |
| Rvo2D.RunMovesAtSpeed | rvo2d.cpp:85-88 | over a run every recorded move has squared length `speed^2` and the last entry stays the position |
| Rvo2D.RunFromStart | rvo2d.cpp:82-88 | from fresh robots, `n` rounds leave paths of `n + 1` entries that start at the start positions and move by `speed` at every step |
| Rvo2D.PlayRound | rvo2d.cpp:86-87 | robot1 steps against robot2, then robot2 against the moved robot1: the new world is `Round(old world)`, and each robot's last path entry is its position afterwards |
| Rvo2D.Simulate | rvo2d.cpp:85-88 | `steps` iterations of the loop leave the world `Run(old world, steps)` and keep each robot's last path entry equal to its position, so `GetPath` can be called afterwards |
| Rvo2D.Demo | rvo2d.cpp:81-91 | the two paths are those of `Run(DemoStart, 100)`; each has 101 entries, and they start at `(0, 0)` and `(100, 100)` |
| Rvo3D.Perp | rvo3d.cpp:40-44 | the avoidance vector `(-y, x, 0)` is orthogonal to the offset and horizontal; its squared length is `x^2 + y^2`; it is zero exactly when the offset has no horizontal part |
| Rvo3D.MoveAlong | rvo3d.cpp:55-58 | normalising `v` and scaling by `speed` gives a displacement of squared length `speed^2`, parallel to `v` (zero cross product), whose projection on `v` is `speed * ‖v‖` |
| Rvo3D.MoveAlongIsMultiple | rvo3d.cpp:55-58 | the displacement is `v` scaled by `speed / ‖v‖`, and `‖v‖` is positive |
| Rvo3D.AvoidanceStep | rvo3d.cpp:40-48 | a move along the avoidance vector keeps `position[2]` and is orthogonal to `rel_position` |
| Rvo3D.NextPosition | rvo3d.cpp:30-59 | the step has squared length `speed^2`; in the avoidance branch it is orthogonal to `rel_position` and leaves `z` unchanged; in the goal branch it is parallel to `goal - position` with projection `speed * ‖goal - position‖` |
| Rvo3D.StepComponents | rvo3d.cpp:45-58 | for the vector the branch normalises and its root-of-sum-of-squares `norm`, `norm` is non-zero and the new position is `position[i] + (v[i] / norm) * speed` coordinate by coordinate |
| Rvo3D.AvoidsIffWithinRadii | rvo3d.cpp:37-39 | the branch uses the full 3-D distance: avoidance exactly when the radius sum is positive and the squared distance is below its square |
| Rvo3D.BoundaryTakesGoalBranch | rvo3d.cpp:39 | at distance exactly `radius + other.radius` the goal branch is taken |
| Rvo3D.StepLength | rvo3d.cpp:45-58 | every defined step moves the robot by exactly the absolute value of `speed` |
| Rvo3D.GoalBranchPointsAtGoal | rvo3d.cpp:50-58 | with positive speed the goal-branch displacement is a positive multiple of `goal - position` |
| Rvo3D.GoalBranchRemainingDistance | rvo3d.cpp:50-58 | after a goal step the squared distance to the goal is `(distance - speed)^2` |
| Rvo3D.AvoidanceMovesAway | rvo3d.cpp:40-48 | an avoidance step raises the squared distance to the other robot's position by exactly `speed^2` |
| Rvo3D.StepUndefinedCases | rvo3d.cpp:37-58 | a step divides by zero exactly when the robots share `x` and `y` (whatever their heights) within a positive radius sum, or the robot stands on its goal outside the other's reach |
| Rvo3D.Robot.constructor | rvo3d.cpp:25-28 | the fields are the arguments and `path` is the one-entry sequence holding the start position |
| Rvo3D.Robot.ComputeNewVelocity | rvo3d.cpp:30-62 | the new state is `Advance(old state, other)`; the path is the old path plus the new position; `other` is unchanged when distinct; the last path entry is the position |
| Rvo3D.Robot.GetPath | rvo3d.cpp:64-66 | returns the recorded path, non-empty and ending at the current position |
| Rvo3D.AdvanceMovesAtSpeed | rvo3d.cpp:46-61 | a step keeps "the last path entry is the position, and each recorded move has squared length `speed^2`" |
| Rvo3D.RoundAppendsOne | rvo3d.cpp:88-91 | a round appends exactly the new position to each path and keeps goals, speeds and radii |
| Rvo3D.RunAppendsOnePerRound | rvo3d.cpp:88-91 | `n` rounds add `n` entries to each path, keep the earlier entries, and keep goals, speeds and radii |
| Rvo3D.RunMovesAtSpeed | rvo3d.cpp:88-91 | over a run every recorded move has squared length `speed^2` and the last entry stays the position |
| Rvo3D.RunFromStart | rvo3d.cpp:85-91 | from fresh robots, `n` rounds leave paths of `n + 1` entries that start at the start positions and move by `speed` at every step |
| Rvo3D.PlayRound | rvo3d.cpp:89-90 | robot1 steps against robot2, then robot2 against the moved robot1: the new world is `Round(old world)`, and each robot's last path entry is its position afterwards |
| Rvo3D.Simulate | rvo3d.cpp:88-91 | `steps` iterations of the loop leave the world `Run(old world, steps)` and keep each robot's last path entry equal to its position, so `GetPath` can be called afterwards |
| Rvo3D.Demo | rvo3d.cpp:84-94 | the two paths are those of `Run(DemoStart, 100)`; each has 101 entries, and they start at `(0, 0, 0)` and `(100, 100, 100)` |

## Left out

- Plotting: `plot2D` / `plot3D` and every `matplotlibcpp` call (rvo2d.cpp:68-77, rvo3d.cpp:71-80, and the calls after the loops). This is output to an external library; nothing in the simulation depends on it.
- The loops that copy the paths into `std::vector<float>` (rvo2d.cpp:93-101, rvo3d.cpp:96-106). They are display marshalling with a narrowing to `float`, and the simulation never reads the copies.
- IEEE-754 `double` arithmetic. Coordinates are exact reals, so rounding is not modelled, and neither are the infinities and NaNs that a zero-norm division produces and then carries into later steps.
- `std::sqrt` is not part of this model. Every member that needs it takes it as the parameter `sqrt`, with `IsSqrt(sqrt)` as its only assumption.
- Zero-norm divisions: `StepDefined` is a precondition of `ComputeNewVelocity`, and `RunDefined` of `Simulate`. The source divides without a guard; `StepUndefinedCases` characterises exactly the excluded states.
- Rvo2D.Demo / Rvo3D.Demo: these require `RunDefined(sqrt, DemoStart, STEPS)`, that is, that no round of the hard-coded scenario divides by zero, instead of proving it. Proving it would need the exact numeric trajectory of all 100 rounds. For the same reason the concrete positions (for example `(sqrt 2, sqrt 2)` after the first step) are not stated.
- Rvo2D.Simulate / Rvo3D.Simulate / PlayRound: these require `robot1 != robot2`. `main` always passes two distinct objects. A robot stepping against itself is covered by `ComputeNewVelocity`, but not by the loop. `Simulate` also requires both robots to satisfy `Valid()` (the last path entry is the position), which the constructor establishes and every step keeps.
- Rvo2D.Robot.GetPath / Rvo3D.Robot.GetPath: these return the path as an immutable sequence rather than a `const` reference. The robot's later changes cannot be observed through the result.
- The loop counter `int i` is an unbounded `nat`. It never exceeds `STEPS = 100`, so overflow cannot arise.
