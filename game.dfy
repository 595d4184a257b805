/** The game's one behaviour tree, "chase the player while in range,
    otherwise wander", and the panel that owns it with the two entities. */
module Game {
  import opened Entities
  import opened BehaviorNodes

  /** The detection range the panel gives its range condition. */
  const DetectionRange: int := 80

  /** Selector[Sequence[InRange(range), Chase], Wander]. */
  function ChaseOrWander(range: int): (root: Node)
  {
    Selector([Sequence([InRange(range), Chase]), Wander])
  }

  /** Builds the tree the way the panel does, child by child. */
  method BuildTree() returns (root: Node)
    ensures root == ChaseOrWander(DetectionRange)
  {
    var selector := new CompositeNode(SelectorKind);
    var chaseSeq := new CompositeNode(SequenceKind);
    chaseSeq.AddChild(InRange(DetectionRange));
    chaseSeq.AddChild(Chase);
    selector.AddChild(chaseSeq.AsNode());
    selector.AddChild(Wander);
    assert chaseSeq.children == [InRange(DetectionRange), Chase];
    assert selector.children == [Sequence([InRange(DetectionRange), Chase]), Wander];
    root := selector.AsNode();
  }

  /** Every tick of the tree reports Running. With the player in range the
      enemy takes exactly one chase step and the generator is not called;
      otherwise the enemy takes exactly one wander step, using the next two
      draws, and the player stays where it is. */
  lemma RootTick(range: int, rand: Oracle, w: World, k: nat)
    ensures var o := Tick(ChaseOrWander(range), rand, w, k);
      && o.status == Running
      && (WithinRange(w, range) ==> o.world == MoveTowards(w) && o.calls == k)
      && (!WithinRange(w, range) ==> o.world == WanderBy(w, rand(k), rand(k + 1)) && o.calls == k + 2)
      && o.world.px == w.px && o.world.py == w.py
  {
    var chase := Sequence([InRange(range), Chase]);
    SequenceReturnsFirstNonSuccess([InRange(range), Chase], rand, w, k);
    SelectorReturnsFirstNonFailure([chase, Wander], rand, w, k);
  }

  /** `ticks` consecutive ticks of `n` while the player stands still. */
  function Run(n: Node, rand: Oracle, w: World, k: nat, ticks: nat): (o: Outcome)
    requires ticks >= 1
    decreases ticks
  {
    var o := Tick(n, rand, w, k);
    if ticks == 1 then o else Run(n, rand, o.world, o.calls, ticks - 1)
  }

  /** Once the still player is in range, the tree chases on every tick (it
      re-checks the range each time and the range keeps holding) and never
      calls the generator: after any number of ticks each enemy coordinate is
      where that many chase steps along its axis lead. */
  lemma {:induction false} ChaseFollowsApproach(range: int, rand: Oracle, w: World, k: nat, ticks: nat)
    requires WithinRange(w, range) && 1 <= ticks
    ensures var o := Run(ChaseOrWander(range), rand, w, k, ticks);
      && o.status == Running && o.calls == k
      && o.world == w.(ex := Approach(w.ex, w.px, ticks), ey := Approach(w.ey, w.py, ticks))
    decreases ticks
  {
    RootTick(range, rand, w, k);
    if ticks > 1 {
      ChaseNeverRecedes(w);
      ChaseFollowsApproach(range, rand, MoveTowards(w), k, ticks - 1);
    }
  }

  /** After as many ticks as the larger axis distance, the enemy chasing a
      still player in range sits on the player. */
  lemma ChaseCatchesPlayer(range: int, rand: Oracle, w: World, k: nat, ticks: nat)
    requires WithinRange(w, range)
    requires 1 <= ticks && Abs(w.px - w.ex) <= ticks && Abs(w.py - w.ey) <= ticks
    ensures var o := Run(ChaseOrWander(range), rand, w, k, ticks);
      o.status == Running && o.calls == k && o.world == w.(ex := w.px, ey := w.py)
  {
    ChaseFollowsApproach(range, rand, w, k, ticks);
    ApproachDistance(w.ex, w.px, ticks);
    ApproachDistance(w.ey, w.py, ticks);
  }

  /** The panel: the player, the enemy, the generator and the tree, built once
      and then only ticked. */
  class GamePanel {
    const player: Player
    const enemy: Enemy
    const rng: Random
    const behaviorTree: Node

    constructor (oracle: Oracle)
      ensures fresh(player) && fresh(enemy) && fresh(rng)
      ensures player.x == 200 && player.y == 200 && enemy.x == 50 && enemy.y == 50
      ensures rng.oracle == oracle && rng.calls == 0
      ensures behaviorTree == ChaseOrWander(DetectionRange)
    {
      var tree := BuildTree();
      player := new Player(200, 200);
      enemy := new Enemy(50, 50);
      rng := new Random(oracle);
      behaviorTree := tree;
    }

    /** One tick of the tree, as the panel's timer asks for it. */
    method Tick() returns (s: Status)
      requires behaviorTree == ChaseOrWander(DetectionRange)
      modifies enemy, rng
      ensures var w := World(old(enemy.x), old(enemy.y), player.x, player.y);
        BehaviorNodes.Tick(behaviorTree, rng.oracle, w, old(rng.calls))
          == Outcome(s, World(enemy.x, enemy.y, player.x, player.y), rng.calls)
      ensures s == Running
      ensures var w := World(old(enemy.x), old(enemy.y), player.x, player.y);
        if WithinRange(w, DetectionRange) then
          enemy.x == StepToward(w.ex, w.px) && enemy.y == StepToward(w.ey, w.py) && rng.calls == old(rng.calls)
        else
          && enemy.x == w.ex + WanderDelta(rng.oracle(old(rng.calls)))
          && enemy.y == w.ey + WanderDelta(rng.oracle(old(rng.calls) + 1))
          && rng.calls == old(rng.calls) + 2
    {
      RootTick(DetectionRange, rng.oracle, World(enemy.x, enemy.y, player.x, player.y), rng.calls);
      s := TickNode(behaviorTree, enemy, player, rng);
    }
  }

  /** The range test is inclusive: a player 100 units away is out of range 80
      and in range 100. */
  lemma RangeExamples(rand: Oracle, k: nat)
    ensures Tick(InRange(80), rand, World(0, 0, 100, 0), k).status == Failure
    ensures Tick(InRange(100), rand, World(0, 0, 100, 0), k).status == Success
  {
  }

  /** A chase step from (0, 0) toward (5, 2) lands on (1, 1). */
  lemma ChaseExample(rand: Oracle, k: nat)
    ensures Tick(Chase, rand, World(0, 0, 5, 2), k) == Outcome(Running, World(1, 1, 5, 2), k)
  {
  }

  /** A client of the entities and the tree: a near player is chased, then a
      player moved far away makes the enemy wander instead. */
  method ChaseThenWander(oracle: Oracle)
  {
    var player := new Player(10, 0);
    var enemy := new Enemy(0, 0);
    var rng := new Random(oracle);
    var root := BuildTree();
    RootTick(DetectionRange, oracle, World(0, 0, 10, 0), 0);
    var s := TickNode(root, enemy, player, rng);
    assert s == Running && enemy.x == 1 && enemy.y == 0 && rng.calls == 0;
    player.SetPosition(1000, 1000);
    RootTick(DetectionRange, oracle, World(1, 0, 1000, 1000), 0);
    s := TickNode(root, enemy, player, rng);
    assert s == Running && 0 <= enemy.x <= 2 && -1 <= enemy.y <= 1 && rng.calls == 2;
  }
}
