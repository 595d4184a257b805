/** Behaviour-tree nodes: the three-valued status, the two short-circuiting
    composites, the three leaves, and what one tick of a node does to the
    world. */
module BehaviorNodes {
  import opened Entities

  datatype Status = Success | Failure | Running

  /** A node of the tree. A composite owns an ordered list of children; the
      leaves all act on the one enemy and the one player of the world. */
  datatype Node =
    | Sequence(children: seq<Node>)
    | Selector(children: seq<Node>)
    | InRange(range: int)
    | Chase
    | Wander

  /** What a tick reports, with the world after it and the number of calls
      made to the random generator so far. */
  datatype Outcome = Outcome(status: Status, world: World, calls: nat)

  /** Squared Euclidean distance between the enemy and the player. */
  function SqDist(w: World): (d: nat)
    ensures d == 0 <==> w.ex == w.px && w.ey == w.py
  {
    SquareZero(w.px - w.ex);
    SquareZero(w.py - w.ey);
    (w.px - w.ex) * (w.px - w.ex) + (w.py - w.ey) * (w.py - w.ey)
  }

  lemma SquareZero(a: int)
    ensures a * a >= 0 && (a * a == 0 <==> a == 0)
  {
    if a != 0 {
      var x := Abs(a);
      assert a * a == x * x >= x;
    }
  }

  /** The player is within `r` of the enemy, boundary included; a negative
      range holds nothing, since a distance is never negative, and a range of
      zero holds only when the two stand on the same spot. */
  predicate WithinRange(w: World, r: int)
    ensures WithinRange(w, r) ==> r >= 0
    ensures r == 0 ==> (WithinRange(w, r) <==> w.ex == w.px && w.ey == w.py)
    ensures w.ex == w.px && w.ey == w.py ==> (WithinRange(w, r) <==> r >= 0)
  {
    r >= 0 && SqDist(w) <= r * r
  }

  /** The reference semantics: one tick of `n` in world `w`, with `k` calls of
      the generator `rand` already made. No node moves the player, and no tick
      gives back calls of the generator. */
  function Tick(n: Node, rand: Oracle, w: World, k: nat): (o: Outcome)
    ensures o.world.px == w.px && o.world.py == w.py && k <= o.calls
    decreases n, 1
  {
    match n
    case Sequence(cs) => TickChildren(cs, Success, rand, w, k)
    case Selector(cs) => TickChildren(cs, Failure, rand, w, k)
    case InRange(r) => Outcome(if WithinRange(w, r) then Success else Failure, w, k)
    case Chase => Outcome(Running, MoveTowards(w), k)
    case Wander => Outcome(Running, WanderBy(w, rand(k), rand(k + 1)), k + 2)
  }

  /** The loop shared by both composites: tick the children in order, stop at
      the first whose status is not `pass` and report it, and report `pass`
      if there is none. A Sequence passes on Success, a Selector on Failure. */
  function TickChildren(cs: seq<Node>, pass: Status, rand: Oracle, w: World, k: nat): (o: Outcome)
    ensures o.world.px == w.px && o.world.py == w.py && k <= o.calls
    decreases cs, 0
  {
    if cs == [] then Outcome(pass, w, k)
    else
      var o := Tick(cs[0], rand, w, k);
      if o.status != pass then o else TickChildren(cs[1..], pass, rand, o.world, o.calls)
  }

  /** The outcomes of ticking every child in order, each in the world the
      previous child left, without stopping: what a stub that records its
      ticks would see if the composite never stopped early. */
  function Trace(cs: seq<Node>, rand: Oracle, w: World, k: nat): (t: seq<Outcome>)
    ensures |t| == |cs|
    decreases |cs|
  {
    if cs == [] then []
    else
      var o := Tick(cs[0], rand, w, k);
      [o] + Trace(cs[1..], rand, o.world, o.calls)
  }

  /** The index of the first outcome whose status is not `s`, or |t|. */
  function FirstNot(t: seq<Outcome>, s: Status): (i: nat)
    ensures i <= |t|
    ensures forall j :: 0 <= j < i ==> t[j].status == s
    ensures i < |t| ==> t[i].status != s
    decreases |t|
  {
    if t == [] || t[0].status != s then 0 else 1 + FirstNot(t[1..], s)
  }

  /** The composite loop stops exactly at the first child whose status is not
      `pass`: it reports that child's outcome, so the world and the generator
      are as that child left them and no later child has acted. When no child
      stops it, it reports `pass` in the world the last child left. */
  lemma {:induction false} ChildrenShortCircuit(cs: seq<Node>, pass: Status, rand: Oracle, w: World, k: nat)
    ensures var t := Trace(cs, rand, w, k);
      var i := FirstNot(t, pass);
      var o := TickChildren(cs, pass, rand, w, k);
      && (o.status == pass <==> i == |cs|)
      && (i < |cs| ==> o == t[i])
      && (i == |cs| && cs != [] ==> o == t[|cs| - 1])
      && (cs == [] ==> o == Outcome(pass, w, k))
    decreases |cs|
  {
    if cs != [] {
      var o0 := Tick(cs[0], rand, w, k);
      var t := Trace(cs, rand, w, k);
      var rest := Trace(cs[1..], rand, o0.world, o0.calls);
      assert t == [o0] + rest;
      assert t[1..] == rest;
      if o0.status == pass {
        ChildrenShortCircuit(cs[1..], pass, rand, o0.world, o0.calls);
      }
    }
  }

  /** SequenceNode.tick reports the first child status that is not Success,
      from the world that child leaves; it reports Success exactly when every
      child does, and an empty Sequence reports Success without acting. */
  lemma SequenceReturnsFirstNonSuccess(cs: seq<Node>, rand: Oracle, w: World, k: nat)
    ensures var t := Trace(cs, rand, w, k);
      var i := FirstNot(t, Success);
      var o := Tick(Sequence(cs), rand, w, k);
      && (o.status == Success <==> forall j :: 0 <= j < |cs| ==> t[j].status == Success)
      && (i < |cs| ==> o == t[i])
      && (i == |cs| && cs != [] ==> o == t[|cs| - 1])
      && (cs == [] ==> o == Outcome(Success, w, k))
  {
    ChildrenShortCircuit(cs, Success, rand, w, k);
  }

  /** SelectorNode.tick reports the first child status that is not Failure,
      from the world that child leaves; it reports Failure exactly when every
      child does, and an empty Selector reports Failure without acting. */
  lemma SelectorReturnsFirstNonFailure(cs: seq<Node>, rand: Oracle, w: World, k: nat)
    ensures var t := Trace(cs, rand, w, k);
      var i := FirstNot(t, Failure);
      var o := Tick(Selector(cs), rand, w, k);
      && (o.status == Failure <==> forall j :: 0 <= j < |cs| ==> t[j].status == Failure)
      && (i < |cs| ==> o == t[i])
      && (i == |cs| && cs != [] ==> o == t[|cs| - 1])
      && (cs == [] ==> o == Outcome(Failure, w, k))
  {
    ChildrenShortCircuit(cs, Failure, rand, w, k);
  }

  /** Children added after `cs` are ticked only if every child of `cs`
      passed, and then from the world `cs` left: once a child stops the scan,
      nothing after it matters. */
  lemma {:induction false} ChildrenAppend(cs: seq<Node>, more: seq<Node>, pass: Status, rand: Oracle, w: World, k: nat)
    ensures var o := TickChildren(cs, pass, rand, w, k);
      TickChildren(cs + more, pass, rand, w, k)
        == if o.status != pass then o else TickChildren(more, pass, rand, o.world, o.calls)
    decreases |cs|
  {
    if cs == [] {
      assert cs + more == more;
    } else {
      var o0 := Tick(cs[0], rand, w, k);
      assert (cs + more)[0] == cs[0];
      assert (cs + more)[1..] == cs[1..] + more;
      if o0.status == pass {
        ChildrenAppend(cs[1..], more, pass, rand, o0.world, o0.calls);
      }
    }
  }

  /** IsPlayerInRange.tick compares the Euclidean distance `d` with the range,
      boundary included; it never reports Running and changes nothing. The
      squared test of WithinRange decides exactly that comparison. */
  lemma InRangeLeaf(r: int, rand: Oracle, w: World, k: nat, d: real)
    requires 0.0 <= d && d * d == SqDist(w) as real
    ensures var o := Tick(InRange(r), rand, w, k);
      && o.status == (if d <= r as real then Success else Failure)
      && o.world == w && o.calls == k
  {
    if r >= 0 {
      var rr := r as real;
      assert (r * r) as real == rr * rr;
      SquaresOrdered(d, rr);
    }
  }

  /** For non-negative reals, comparing squares compares the values. */
  lemma SquaresOrdered(a: real, b: real)
    requires 0.0 <= a && 0.0 <= b
    ensures a <= b <==> a * a <= b * b
  {
    var aa, ab, bb := a * a, a * b, b * b;
    if a <= b {
      assert aa <= ab <= bb;
    } else {
      assert bb <= ab < aa;
    }
  }

  /** A chase step never takes the enemy further from the player. */
  lemma {:induction false} ChaseNeverRecedes(w: World)
    ensures SqDist(MoveTowards(w)) <= SqDist(w)
  {
    var m := MoveTowards(w);
    SquareShrinks(m.px - m.ex, w.px - w.ex);
    SquareShrinks(m.py - m.ey, w.py - w.ey);
  }

  lemma SquareShrinks(a: int, b: int)
    requires Abs(a) <= Abs(b)
    ensures a * a <= b * b
  {
    var x, y := Abs(a), Abs(b);
    assert a * a == x * x && b * b == y * y;
    assert x * x <= x * y <= y * y;
  }

  /** ChasePlayer.tick reports Running and applies one chase step. */
  lemma ChaseLeaf(rand: Oracle, w: World, k: nat)
    ensures var o := Tick(Chase, rand, w, k);
      && o.status == Running && o.calls == k
      && o.world.px == w.px && o.world.py == w.py
      && Abs(o.world.px - o.world.ex) == Max(Abs(w.px - w.ex) - 1, 0)
      && Abs(o.world.py - o.world.ey) == Max(Abs(w.py - w.ey) - 1, 0)
  {
  }

  /** WanderRandomly.tick reports Running, leaves the player alone, moves the
      enemy by at most one unit per axis and uses two calls of the generator. */
  lemma WanderLeaf(rand: Oracle, w: World, k: nat)
    ensures var o := Tick(Wander, rand, w, k);
      && o.status == Running && o.calls == k + 2
      && o.world.px == w.px && o.world.py == w.py
      && -1 <= o.world.ex - w.ex <= 1 && -1 <= o.world.ey - w.ey <= 1
  {
  }

  /** A tree with no action leaf. */
  predicate ConditionsOnly(n: Node)
    decreases n
  {
    match n
    case Sequence(cs) => forall c :: c in cs ==> ConditionsOnly(c)
    case Selector(cs) => forall c :: c in cs ==> ConditionsOnly(c)
    case InRange(_) => true
    case Chase => false
    case Wander => false
  }

  /** Only action leaves report Running or change anything: a tree of
      conditions alone reports Success or Failure and leaves the world and
      the generator as they were. */
  lemma {:induction false} ConditionTreeIsPure(n: Node, rand: Oracle, w: World, k: nat)
    requires ConditionsOnly(n)
    ensures var o := Tick(n, rand, w, k);
      o.status != Running && o.world == w && o.calls == k
    decreases n, 1
  {
    match n
    case Sequence(cs) => ConditionChildrenArePure(cs, Success, rand, w, k);
    case Selector(cs) => ConditionChildrenArePure(cs, Failure, rand, w, k);
    case InRange(_) =>
  }

  lemma {:induction false} ConditionChildrenArePure(cs: seq<Node>, pass: Status, rand: Oracle, w: World, k: nat)
    requires pass != Running
    requires forall c :: c in cs ==> ConditionsOnly(c)
    ensures var o := TickChildren(cs, pass, rand, w, k);
      o.status != Running && o.world == w && o.calls == k
    decreases cs, 0
  {
    if cs != [] {
      assert cs[0] in cs;
      ConditionTreeIsPure(cs[0], rand, w, k);
      if Tick(cs[0], rand, w, k).status == pass {
        assert forall c :: c in cs[1..] ==> c in cs;
        ConditionChildrenArePure(cs[1..], pass, rand, w, k);
      }
    }
  }

  datatype Combinator = SequenceKind | SelectorKind

  /** A composite under construction: SequenceNode or SelectorNode with its
      mutable list of children. */
  class CompositeNode {
    const kind: Combinator
    var children: seq<Node>

    constructor (kind: Combinator)
      ensures this.kind == kind && children == []
    {
      this.kind := kind;
      children := [];
    }

    /** Appends a child at the end of the list. */
    method AddChild(child: Node)
      modifies this
      ensures children == old(children) + [child]
      ensures var before := old(AsNode());
        (before.Sequence? || before.Selector?) && AsNode() == before.(children := before.children + [child])
    {
      children := children + [child];
    }

    /** The node this composite currently stands for. */
    function AsNode(): (n: Node)
      reads this
      ensures n.Sequence? || n.Selector?
    {
      match kind
      case SequenceKind => Sequence(children)
      case SelectorKind => Selector(children)
    }
  }

  /** A tick of `n` on the entities themselves: composites loop over their
      children, leaves call into the enemy. It does what Tick says. */
  method TickNode(n: Node, enemy: Enemy, player: Player, rng: Random) returns (s: Status)
    modifies enemy, rng
    ensures Tick(n, rng.oracle, World(old(enemy.x), old(enemy.y), player.x, player.y), old(rng.calls))
         == Outcome(s, World(enemy.x, enemy.y, player.x, player.y), rng.calls)
    decreases n, 1
  {
    match n
    case Sequence(cs) =>
      s := TickComposite(cs, Success, enemy, player, rng);
    case Selector(cs) =>
      s := TickComposite(cs, Failure, enemy, player, rng);
    case InRange(r) =>
      s := if WithinRange(World(enemy.x, enemy.y, player.x, player.y), r) then Success else Failure;
    case Chase =>
      enemy.MoveTowards(player.x, player.y);
      s := Running;
    case Wander =>
      enemy.Wander(rng);
      s := Running;
  }

  /** The for-loop with early return of SequenceNode.tick (pass = Success)
      and of SelectorNode.tick (pass = Failure). */
  method TickComposite(cs: seq<Node>, pass: Status, enemy: Enemy, player: Player, rng: Random) returns (s: Status)
    modifies enemy, rng
    ensures TickChildren(cs, pass, rng.oracle, World(old(enemy.x), old(enemy.y), player.x, player.y), old(rng.calls))
         == Outcome(s, World(enemy.x, enemy.y, player.x, player.y), rng.calls)
    decreases cs, 0
  {
    ghost var whole := TickChildren(cs, pass, rng.oracle, World(enemy.x, enemy.y, player.x, player.y), rng.calls);
    var i := 0;
    while i < |cs|
      invariant 0 <= i <= |cs|
      invariant TickChildren(cs[i..], pass, rng.oracle, World(enemy.x, enemy.y, player.x, player.y), rng.calls) == whole
    {
      assert cs[i..][0] == cs[i];
      assert cs[i..][1..] == cs[i + 1..];
      s := TickNode(cs[i], enemy, player, rng);
      if s != pass {
        return;
      }
      i := i + 1;
    }
    s := pass;
  }
}
