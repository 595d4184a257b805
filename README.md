# Behaviour-tree engine of the 2D chase demo, in Dafny

The demo drives one enemy with a behaviour tree. The enemy chases the player
while it is within 80 units and wanders at random otherwise. The tree is
re-evaluated from its root on every timer tick. This project models the
tree engine:

- the three-valued `Status`;
- the two short-circuiting composites, `SequenceNode` and `SelectorNode`;
- the three leaves: the range condition, the chase action and the wander
  action;
- the player and the enemy with their movements;
- the one tree the panel assembles.

It is split into three modules:

- `Entities` (`entities.dfy`) holds the positions as a `World` value
  `(ex, ey, px, py)`. It defines the unit chase step `StepToward` and the
  wander step `WanderBy`. It also has the imperative classes `Player`,
  `Enemy` and `Random`. `Random` stands in for `Math.random()`: a fixed
  oracle `nat -> Draw` and a call counter, where a `Draw` in {0, 1, 2} is
  one value of `(int)(Math.random() * 3)`.
- `BehaviorNodes` (`nodes.dfy`) holds the `Node` datatype. `Tick` is the
  reference semantics of one tick. It threads the world and the generator's
  call count through the children in order. Sequence and Selector share one
  loop, `TickChildren`, which takes the status it passes on: Success for a
  Sequence, Failure for a Selector. This module also has the imperative
  evaluator `TickNode` / `TickComposite`, a recursive method with the
  source's for-loop and early return. It is proved to do exactly what
  `Tick` says to the `Enemy` and `Random` objects. Finally, there is the
  `CompositeNode` class with its mutable children list and `AddChild`.
- `Game` (`game.dfy`) holds the assembled tree
  `Selector[Sequence[InRange(80), Chase], Wander]`. `BuildTree` builds it
  with `AddChild` the way the panel constructor does. The module also holds
  the panel, and the lemmas about one tick and about many ticks of the tree.

The range condition compares the squared distance with the squared range.
`InRangeLeaf` proves that this decides exactly `dist <= range`, where `dist`
is any real `d >= 0` with `d * d = dx² + dy²`. A negative range always
gives Failure, as in the source. The source does not reject a negative
range when the node is built, although a construction-time check would be
a reasonable design; the model follows the source.

## Model

| member | source | states |
|---|---|---|
| `BehaviorNodes.ChildrenShortCircuit` | BehaviorTreeGame.java:19-35 | the composite loop reports the outcome of the first child whose status differs from the pass status; world and generator are then as that child left them, so no later child acted. It reports the pass status exactly when every child passes, and an empty list reports it with nothing changed |
| `BehaviorNodes.SequenceReturnsFirstNonSuccess` | BehaviorTreeGame.java:19-25 | Sequence returns the first non-SUCCESS child outcome. It returns SUCCESS iff every child does, with the world the last child left. An empty Sequence returns SUCCESS and changes nothing |
| `BehaviorNodes.SelectorReturnsFirstNonFailure` | BehaviorTreeGame.java:29-35 | Selector returns the first non-FAILURE child outcome. It returns FAILURE iff every child does. An empty Selector returns FAILURE and changes nothing |
| `BehaviorNodes.ChildrenAppend` | BehaviorTreeGame.java:15-35 | appending children to a composite changes its tick only when every earlier child passed; the new children then run from the world the earlier ones left |
| `BehaviorNodes.TickComposite` | BehaviorTreeGame.java:19-35 | the for-loop with early return, run on the Enemy and Random objects, leaves them exactly as `TickChildren` says and returns its status |
| `BehaviorNodes.TickNode` | BehaviorTreeGame.java:8-80 | one tick of any node on the objects returns the status of `Tick` and leaves the enemy and the generator as `Tick` says |
| `BehaviorNodes.Tick` | BehaviorTreeGame.java:19-80 | the reference semantics of every node's tick: no tick of any tree moves the player, and the generator's call count never goes down. Its other properties are stated by `ChildrenShortCircuit`, `InRangeLeaf`, `ChaseLeaf`, `WanderLeaf` and `ConditionTreeIsPure` |
| `BehaviorNodes.TickChildren` | BehaviorTreeGame.java:19-35 | the loop shared by both composites leaves the player where it was and never lowers the call count. Its short-circuit is stated by `ChildrenShortCircuit` and `ChildrenAppend` |
| `BehaviorNodes.CompositeNode.constructor` | BehaviorTreeGame.java:14 | a new composite of either kind starts with an empty list of children |
| `BehaviorNodes.CompositeNode.AddChild` | BehaviorTreeGame.java:15 | the children list becomes the old list with the child appended at the end. The node the composite stands for keeps its kind and gains that child last |
| `BehaviorNodes.SqDist` | BehaviorTreeGame.java:51 | the squared distance is zero exactly when the enemy and the player stand on the same spot |
| `BehaviorNodes.WithinRange` | BehaviorTreeGame.java:51-52 | the squared range test never holds for a negative range. With a zero range it holds exactly when the two coincide; when they coincide it holds for every range of at least zero. `InRangeLeaf` ties it to the real distance |
| `BehaviorNodes.InRangeLeaf` | BehaviorTreeGame.java:50-53 | the range condition returns SUCCESS iff the Euclidean distance is at most the range, boundary included, and FAILURE otherwise. It never returns RUNNING and changes neither position nor the generator |
| `BehaviorNodes.SquaresOrdered` | BehaviorTreeGame.java:51-52 | for non-negative reals, comparing squares agrees with comparing values, so the integer squared test replaces the square root exactly |
| `BehaviorNodes.ChaseLeaf` | BehaviorTreeGame.java:65-68 | the chase action returns RUNNING and leaves the player and the generator alone. Each axis distance drops by one, or stays zero |
| `BehaviorNodes.WanderLeaf` | BehaviorTreeGame.java:78-81 | the wander action returns RUNNING, leaves the player alone, moves the enemy at most one unit per axis and makes two generator calls |
| `BehaviorNodes.ConditionTreeIsPure` | BehaviorTreeGame.java:39-53 | a tree without action leaves never returns RUNNING and changes neither the world nor the generator |
| `BehaviorNodes.ChaseNeverRecedes` | BehaviorTreeGame.java:104-109 | a chase step never increases the squared distance to the player |
| `Entities.StepToward` | BehaviorTreeGame.java:105-108 | one axis of moveTowards moves by exactly 1 when the coordinates differ and by 0 when they are equal. It stays between the start and the target, and the distance to the target drops by one or stays zero |
| `Entities.MoveTowards` | BehaviorTreeGame.java:104-109 | moveTowards closes each axis distance by one, or keeps it at zero. It never overshoots and leaves the player alone, and the target position is a fixed point |
| `Entities.ApproachDistance` | BehaviorTreeGame.java:104-109 | after n steps toward a fixed target the distance is max(distance - n, 0), so that many steps reach the target |
| `Entities.Enemy.MoveTowards` | BehaviorTreeGame.java:104-109 | the method moves the enemy's fields exactly as `StepToward` says on each axis |
| `Entities.Enemy.Wander` | BehaviorTreeGame.java:111-114 | the method adds `draw - 1` from the next two generator calls to x and then to y, consuming exactly two calls |
| `Entities.WanderDelta` | BehaviorTreeGame.java:112-113 | one per-axis wander step lies in {-1, 0, 1} |
| `Entities.WanderBy` | BehaviorTreeGame.java:111-114 | wandering leaves the player alone and moves the enemy at most one unit per axis |
| `Entities.WanderCoversSteps` | BehaviorTreeGame.java:112-113 | every one of the nine steps in {-1, 0, 1}² comes from some pair of draws |
| `Entities.WanderDrawsDetermined` | BehaviorTreeGame.java:112-113 | each step has only one pair of draws behind it; with `WanderCoversSteps`, the pairs of draws and the nine steps correspond one to one |
| `Entities.Random.constructor` | BehaviorTreeGame.java:112 | a new generator yields the given sequence of draws and has made no call yet |
| `Entities.Random.Next` | BehaviorTreeGame.java:112 | a generator call returns the oracle's value at the current count and advances the count by one |
| `Entities.Player.SetPosition` | BehaviorTreeGame.java:95-98 | both coordinates are overwritten with the given values |
| `Entities.Player.constructor` | BehaviorTreeGame.java:93 | a new player stands at the given position |
| `Entities.Enemy.constructor` | BehaviorTreeGame.java:102 | a new enemy stands at the given position |
| `Game.BuildTree` | BehaviorTreeGame.java:129-135 | building with addChild, as the panel does, yields `Selector[Sequence[InRange(80), Chase], Wander]` |
| `Game.RootTick` | BehaviorTreeGame.java:129-134 | the assembled tree always returns RUNNING. In range, exactly one chase step is applied and the generator is not called, so wander did not run. Out of range, exactly one wander step on the next two draws is applied. The player never moves |
| `Game.ChaseFollowsApproach` | BehaviorTreeGame.java:129-134 | with the player still and in range, every later tick chases, because the range keeps holding, and the generator is never called. After n ticks each enemy coordinate is where n chase steps along its axis lead |
| `Game.ChaseCatchesPlayer` | BehaviorTreeGame.java:129-134 | with the player still and in range, after as many ticks as the larger axis distance the enemy is on the player |
| `Game.RangeExamples` | BehaviorTreeGame.java:50-53 | a player 100 units away is out of range 80 and in range 100 |
| `Game.ChaseExample` | BehaviorTreeGame.java:104-109 | one chase step from (0,0) toward (5,2) lands on (1,1) |
| `Game.GamePanel.constructor` | BehaviorTreeGame.java:123-135 | the panel starts with the player at (200,200), the enemy at (50,50), a fresh generator and the assembled tree |
| `Game.GamePanel.Tick` | BehaviorTreeGame.java:148 | a root tick on the panel's objects returns RUNNING. It chases one step when the player is in range and leaves the generator untouched; otherwise it wanders one step on the next two draws |

## Left out

- The Swing painting (`paintComponent`), the mouse listener, the 50 ms timer
  and `main`: these are user interface and scheduling, not the engine. The
  mouse listener's effect is `Player.SetPosition`. `Game.ChaseThenWander`
  is an example client, not a model of a source member. It drives two ticks
  and moves the player between them, as the timer and the mouse listener
  would.
- `Math.random()` is an oracle parameter, so the model says nothing about
  how its values are distributed. `WanderCoversSteps` and
  `WanderDrawsDetermined` show only that each step has exactly one pair of
  draws behind it.
- The `double` square root of `Point.distance` is replaced by an exact
  comparison of integer squares, related to the real distance by
  `InRangeLeaf`. The two agree with the source's floating-point test only
  while the coordinates stay well below about 2^26 in magnitude; rounding of
  larger values is not modelled.
- Java's 32-bit `int` wrap-around in `x++`, `x--` and `x += …` is not
  modelled: coordinates are unbounded integers.
- Java object references are not modelled: each leaf reaches the enemy and
  the player through references it holds. In the model there is one enemy
  and one player, passed to `TickNode`. `BuildTree` freezes a child composite
  when it is added, which matches the source because the panel never
  changes a composite after adding it.
- Cyclic trees: a `Node` value is finite, so a composite cannot contain
  itself. Java allows that, for example `root.addChild(root)`. A tick of
  such a tree recurses without end only once the scan reaches a composite
  that contains itself, for example a composite whose first child is
  itself. Whether the scan gets there depends on the statuses of the
  earlier children. The panel's `root` with itself appended never gets
  there, because its chase sequence or its wander leaf stops the scan
  first. The panel's own tree is acyclic.
