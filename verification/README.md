# aurora-game movement core, in Dafny

This project models the movement core of an early 2D platformer prototype (`src/main.rs`):

- **Input decoding.** The held W, S, A and D keys become a frame's move events, one per held key, in the order Up, Down, Left, Right.
- **Direction to displacement.** Each direction maps to a fixed step of 3 units along one axis.
- **Guarded stepping.** The move-event handler and the gravity system share one rule. A displacement is proposed from the player's current position. It is committed unless the proposed box overlaps the obstacle being examined. The rule runs once per obstacle, and each run starts from wherever the previous run left the player. So one displacement moves the player by anywhere from 0 to N steps when there are N obstacles. With no obstacles the player never moves.
- **Gravity.** Gravity applies the same rule with a constant fall of 5 units.

Modules:

- `Geometry` (`geometry.dfy`): positions, the transform and the overlap test.
- `Input` (`input.dfy`): directions, events and key decoding.
- `Movement` (`movement.dfy`): the two systems, as folds over events, players and obstacles, plus one imperative version of the move-event handler written as its three nested loops.
- `Frame` (`frame.dfy`): one frame with the systems in registration order.
- `Level` (`level.dfy`): the level the game sets up.
- `Intended` (`intended.dfy`): the corrected stepping rule and the counterexamples listed under Findings.

Coordinates are unbounded whole numbers. Every displacement the game applies is 3 or 5 units, and every setup value is whole.

**Assumption about the engine's collision test.** The engine's `collide` function is not part of this model. `Geometry.IsCollide` states how it is assumed to behave:

- the two boxes overlap on x and on y, with strict inequalities (open intervals);
- each box reaches `scale/2` either side of its centre;
- the z components of the centres and sizes are dropped.

The comparisons are doubled so the half-extents stay whole. `Geometry.Overlap1IsHalfExtentOverlap` shows this equals the real-valued `scale/2` form.

**What the program has.** The program has no jumping, dashing, climbing, timers or per-axis clipping against obstacles. It has:

- a fixed 3-unit move step and a fixed 5-unit fall;
- a commit-or-keep check per obstacle;
- no grounded flag.

## Model

| member | source | states |
|---|---|---|
| Geometry.Overlap1IsHalfExtentOverlap | src/main.rs:139-146 | The doubled whole-number overlap test is exactly the open-interval test with half-extents `scale/2` that the collision query is assumed to perform |
| Geometry.IsCollideIgnoresZ | src/main.rs:139-146 | Collision depends only on the x and y parts of both positions and sizes; changing any z component, such as the player's depth 10 against the floor's 0, never changes the answer |
| Input.StepShape | src/main.rs:148-155 | Every direction moves by 3 along exactly one of x and y and by 0 along z; the sign and axis identify the direction (positive y iff Up, negative y iff Down, negative x iff Left, positive x iff Right) |
| Input.OppositeStepsCancel | src/main.rs:148-155 | Up and Down, and Left and Right, move by exactly opposite displacements |
| Input.InputToEventCount | src/main.rs:84-100 | One event per held key: the number of events equals the number of held keys, so at most 4, and no key held gives no events |
| Input.InputToEventMembers | src/main.rs:88-99 | An event for a direction is emitted iff that direction's key (W for Up, S for Down, A for Left, D for Right) is held |
| Input.InputToEventOrder | src/main.rs:88-99 | Events come strictly in the order Up, Down, Left, Right, so no direction appears twice |
| Input.InputToEventRoundTrip | src/main.rs:88-99 | The held keys can be recovered from the emitted events, so decoding loses nothing |
| Movement.GuardedStep | src/main.rs:110-114 | One obstacle examination writes only the translation; the player either stays or moves by exactly the proposed displacement; it ends at the proposed position iff the proposed box does not overlap that obstacle (or the displacement is zero); after a committed step the player does not overlap the obstacle just tested |
| Movement.StepAgainstAll | src/main.rs:109-115 | The obstacle loop keeps the player's size, and keeps its z whenever the displacement has no z part |
| Movement.StepAgainstAllDisplacement | src/main.rs:107-117 | After the obstacle loop, the player has moved by exactly k times the displacement, for some 0 <= k <= number of obstacles |
| Movement.StepAgainstAllFarObstacles | src/main.rs:109-115 | When no obstacle overlaps any box along the first N steps, the loop over N obstacles moves the player N whole steps, so the upper bound is reached |
| Movement.StepAgainstAllBlocked | src/main.rs:109-115 | When the first step would overlap every obstacle, the loop leaves the player exactly where it was, so the lower bound 0 is reached |
| Movement.NoObstaclesNoStep | src/main.rs:109-115 | With an empty obstacle list the loop body never runs and the player is unchanged |
| Movement.HandleMoveEvents | src/main.rs:107-117 | Handling any sequence of move events keeps the player's size and its z coordinate |
| Movement.MoveEventDisplacement | src/main.rs:107-117 | A single move event keeps the size and displaces the player by k steps of that event's direction, for some 0 <= k <= number of obstacles |
| Movement.PlayerMoveEventHandler | src/main.rs:102-118 | The move-event system returns one transform per player, and every player keeps its size and its z coordinate |
| Movement.PlayersMoveIndependently | src/main.rs:107-117 | Running events outermost and players inside gives each player the same result as handling all events for that player alone |
| Movement.RunPlayerMoveEventHandler | src/main.rs:102-118 | The three nested loops (events, then players, then obstacles) compute exactly the functional move-event system |
| Movement.GravityDisplacement | src/main.rs:120-133 | A gravity pass keeps the size, x and z; it never raises y; and it lowers y by exactly 5k for some 0 <= k <= number of obstacles |
| Movement.NoObstaclesNoMovement | src/main.rs:102-133 | With no obstacles, neither the move-event system (for any events) nor gravity changes any player |
| Frame.FrameKeepsSizeAndDepth | src/main.rs:102-133 | Over a frame of input, movement and gravity, every player keeps its size and its z coordinate |
| Frame.IdleFrameIsGravity | src/main.rs:88-99 | With no key held, a frame is just a gravity pass |
| Frame.EmptyLevelFrameIsStill | src/main.rs:102-133 | In a level without obstacles no frame moves anybody, whatever keys are held |
| Level.FallsFreelyAboveFloor | src/main.rs:120-133 | In the set-up level, the floor does not block a fall that stays at or above the resting height y = -240; the player drops exactly 5 |
| Level.RestsOnFloor | src/main.rs:120-133 | At y = -240, anywhere over the floor's width, the next fall would overlap the floor, so gravity leaves the player unchanged |
| Level.FallsOntoFloor | src/main.rs:120-133 | A player n falls above the resting height reaches it after exactly n gravity passes |
| Level.StaysOnFloor | src/main.rs:120-133 | A player resting on the floor stays there for any number of gravity passes |
| Level.StartLandsOnFloor | src/main.rs:47-81 | From the start position (0, 0) the player lands on the floor at y = -240 after 48 passes, although its depth is 10 and the floor's is 0 |
| Level.WalksAlongFloor | src/main.rs:107-117 | A player resting on the floor that receives one Right event moves exactly 3 to the right, because the floor is the level's only obstacle |
| Intended.StepIfClear | src/main.rs:109-114 | Corrected step: at most one step per displacement, taken iff the proposed box overlaps no obstacle; a player clear of all obstacles stays clear |
| Intended.IntendedMoveEvents | src/main.rs:107-117 | Corrected move-event handling keeps size and z and keeps a player that starts clear of every obstacle clear of every obstacle |
| Intended.IntendedGravityPass | src/main.rs:124-132 | Corrected gravity: the player falls 5 or stays put, and a player clear of every obstacle stays clear |
| Intended.SingleObstacleAgrees | src/main.rs:109-114 | With exactly one obstacle, as in the set-up level, the code's rule and the corrected rule give the same result |
| Intended.EmptyLevelDisagrees | src/main.rs:109-115 | With no obstacles the code never moves the player, while the corrected rule always takes the step |
| Intended.EmptyLevelCounterexample | src/main.rs:109-115 | Holding D in an empty level: the code leaves the player at (0, 0, 10), the corrected rule moves it to (3, 0, 10) |
| Intended.OvershootDisagrees | src/main.rs:109-114 | With two obstacles, where one step is clear of both but two steps run into the first: the code takes two steps and ends inside the first obstacle, while the corrected rule takes one step and stays clear |
| Intended.OvershootConfiguration | src/main.rs:139-146 | In the concrete two-obstacle layout, the player's box is clear of both obstacles at x = 0 and x = 3, and at x = 6 it is inside the near obstacle only |
| Intended.OvershootCounterexample | src/main.rs:109-114 | Holding D in that layout: the code ends at x = 6, overlapping the near obstacle; the corrected rule ends at x = 3 |
| Intended.OvershootNeedsNearFirst | src/main.rs:109-114 | In the same layout with the far obstacle examined first, the code refuses the second step and stops at x = 3, clear of both obstacles, so the overshoot depends on the examination order |

## Left out

- App construction and system registration (src/main.rs:5-14). The engine does not order the three per-frame systems and may run them in parallel. `Frame` assumes they run one after the other in registration order.
- The entity/component plumbing: queries, event writers and readers, commands, bundles and marker components. These are replaced by plain sequences of players, events and obstacles. The order of the obstacle sequence stands for the order in which the engine's query yields the obstacles. The engine does not promise that order, and every lemma in `Movement` holds for any order.
- Camera, sprites and colours in `setup`. Only the player's and the floor's transforms are kept, in `Level`.
- Rotation. It is part of a transform but is never read or written by the modelled systems.
- The engine's `collide` function. It is taken as the assumed predicate `Geometry.IsCollide` described above, not derived.
- 32-bit floating-point arithmetic. Coordinates are unbounded whole numbers. This is exact while every coordinate stays below 2^24 in magnitude. Positions are not bounded, though: a player who walks past the floor's edge falls 5 units every frame for ever (src/main.rs:124-132). Beyond 2^24, f32 rounding changes or cancels a step: past 2^26 a fall of 5 rounds to 8 and a move of 3 rounds to 0, and past 2^27 the fall rounds to 0. The model does not capture this, so `Movement.GravityDisplacement` keeps lowering y by exactly 5 per committed step without limit.
- Keyboard capture. The held keys are four booleans.

## Findings

| source | as written | input that shows it | evidently intended | confidence | as-written member | corrected member |
|---|---|---|---|---|---|---|
| src/main.rs:107-117 | The step is committed only inside the loop over obstacles, so with no obstacles it is never committed. This holds for gravity too (src/main.rs:124-132). | A level with no obstacles and D held: the player stays at (0, 0, 10) | A step that nothing blocks is taken | medium, not executed | Intended.EmptyLevelCounterexample | Intended.StepIfClear |
| src/main.rs:109-114 | Each obstacle commits the step again, starting from the already moved position. One event can move the player several steps and leave it inside an obstacle examined earlier. This holds for gravity too (src/main.rs:126-130). | A 10 by 10 player at the origin with 10 by 10 obstacles at (15, 0) and (1000, 0), the near obstacle examined first, and D held: the player ends at (6, 0), overlapping the near obstacle. Examined in the other order, the player stops at (3, 0) (`Intended.OvershootNeedsNearFirst`). | One step per event, taken only if the moved box overlaps no obstacle | medium, not executed | Intended.OvershootCounterexample | Intended.IntendedMoveEvents |

The `Movement` and `Frame` modules model the code as written, because that is the behaviour of the program. `Intended` gives the corrected step, with both systems built on it. `Intended.SingleObstacleAgrees` shows that the written and corrected rules coincide in the shipped one-floor level.
