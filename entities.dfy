/** Positions of the two entities, the enemy's two movements and the
    random source the wandering movement draws from. */
module Entities {

  function Abs(a: int): (r: nat)
    ensures r == a || r == -a
  {
    if a < 0 then -a else a
  }

  function Max(a: int, b: int): (r: int)
    ensures r >= a && r >= b && (r == a || r == b)
  {
    if a < b then b else a
  }

  /** One value of `(int)(Math.random() * 3)`: the generator yields a double
      in [0, 1), so the truncated product is 0, 1 or 2. */
  type Draw = d: int | 0 <= d < 3

  /** The whole sequence of values the generator produces: call number i
      yields Oracle(i). */
  type Oracle = nat -> Draw

  /** The per-axis step of Enemy.wander, `draw - 1`. */
  function WanderDelta(d: Draw): (s: int)
    ensures -1 <= s <= 1
  {
    d - 1
  }

  /** The positions of the enemy (ex, ey) and of the player (px, py). */
  datatype World = World(ex: int, ey: int, px: int, py: int)

  /** One axis of Enemy.moveTowards: a unit step from `a` toward `t`. */
  function StepToward(a: int, t: int): (r: int)
    ensures Abs(r - a) == (if a == t then 0 else 1)
    ensures a <= t ==> a <= r <= t
    ensures t <= a ==> t <= r <= a
    ensures Abs(t - r) == Max(Abs(t - a) - 1, 0)
  {
    if t > a then a + 1 else if t < a then a - 1 else a
  }

  /** The world after the enemy moves toward the player. The step leaves
      the player alone, brings the enemy one unit closer on every axis where
      it is not yet level with the player, and never overshoots; the player's
      position is a fixed point. */
  function MoveTowards(w: World): (m: World)
    ensures m.px == w.px && m.py == w.py
    ensures Abs(m.px - m.ex) == Max(Abs(w.px - w.ex) - 1, 0)
    ensures Abs(m.py - m.ey) == Max(Abs(w.py - w.ey) - 1, 0)
    ensures (w.ex <= w.px ==> w.ex <= m.ex <= w.px) && (w.px <= w.ex ==> w.px <= m.ex <= w.ex)
    ensures (w.ey <= w.py ==> w.ey <= m.ey <= w.py) && (w.py <= w.ey ==> w.py <= m.ey <= w.ey)
    ensures w.ex == w.px && w.ey == w.py ==> m == w
  {
    w.(ex := StepToward(w.ex, w.px), ey := StepToward(w.ey, w.py))
  }

  /** The world after the enemy wanders by the draws `rx` (x axis) and `ry`
      (y axis). */
  function WanderBy(w: World, rx: Draw, ry: Draw): (r: World)
    ensures r.px == w.px && r.py == w.py
    ensures -1 <= r.ex - w.ex <= 1 && -1 <= r.ey - w.ey <= 1
  {
    w.(ex := w.ex + WanderDelta(rx), ey := w.ey + WanderDelta(ry))
  }

  /** `steps` consecutive chase steps on one axis toward a fixed target. */
  function Approach(a: int, t: int, steps: nat): (r: int)
    decreases steps
  {
    if steps == 0 then a else Approach(StepToward(a, t), t, steps - 1)
  }

  /** After `steps` chase steps the distance to a fixed target has dropped by
      `steps`, or to zero; so `|t - a|` steps reach the target. */
  lemma {:induction false} ApproachDistance(a: int, t: int, steps: nat)
    ensures Abs(t - Approach(a, t, steps)) == Max(Abs(t - a) - steps, 0)
    ensures steps >= Abs(t - a) ==> Approach(a, t, steps) == t
    decreases steps
  {
    if steps > 0 {
      ApproachDistance(StepToward(a, t), t, steps - 1);
    }
  }

  /** Every one of the nine wander steps comes from some pair of draws ... */
  lemma WanderCoversSteps(w: World, dx: int, dy: int)
    requires -1 <= dx <= 1 && -1 <= dy <= 1
    ensures exists rx: Draw, ry: Draw :: WanderBy(w, rx, ry) == w.(ex := w.ex + dx, ey := w.ey + dy)
  {
    var rx: Draw, ry: Draw := dx + 1, dy + 1;
    assert WanderBy(w, rx, ry) == w.(ex := w.ex + dx, ey := w.ey + dy);
  }

  /** ... and from only one: with WanderCoversSteps, the pairs of draws and
      the nine steps correspond one to one. */
  lemma WanderDrawsDetermined(w: World, rx: Draw, ry: Draw, sx: Draw, sy: Draw)
    requires WanderBy(w, rx, ry) == WanderBy(w, sx, sy)
    ensures rx == sx && ry == sy
  {
  }

  /** The random number generator behind `Math.random()`: a fixed oracle and
      the number of calls made so far. */
  class Random {
    const oracle: Oracle
    var calls: nat

    constructor (oracle: Oracle)
      ensures this.oracle == oracle && calls == 0
    {
      this.oracle := oracle;
      calls := 0;
    }

    /** One call of `(int)(Math.random() * 3)`. */
    method Next() returns (d: Draw)
      modifies this
      ensures d == oracle(old(calls)) && calls == old(calls) + 1
    {
      d := oracle(calls);
      calls := calls + 1;
    }
  }

  class Player {
    var x: int
    var y: int

    constructor (x: int, y: int)
      ensures this.x == x && this.y == y
    {
      this.x := x;
      this.y := y;
    }

    /** Overwrites both coordinates. */
    method SetPosition(x: int, y: int)
      modifies this
      ensures this.x == x && this.y == y
    {
      this.x := x;
      this.y := y;
    }
  }

  class Enemy {
    var x: int
    var y: int

    constructor (x: int, y: int)
      ensures this.x == x && this.y == y
    {
      this.x := x;
      this.y := y;
    }

    /** Moves one unit toward (targetX, targetY) on each axis that differs. */
    method MoveTowards(targetX: int, targetY: int)
      modifies this
      ensures x == StepToward(old(x), targetX) && y == StepToward(old(y), targetY)
    {
      if targetX > x {
        x := x + 1;
      } else if targetX < x {
        x := x - 1;
      }
      if targetY > y {
        y := y + 1;
      } else if targetY < y {
        y := y - 1;
      }
    }

    /** Adds a step in {-1, 0, 1} to each coordinate, x first, each from its
        own call of the generator. */
    method Wander(rng: Random)
      modifies this, rng
      ensures rng.calls == old(rng.calls) + 2
      ensures x == old(x) + WanderDelta(rng.oracle(old(rng.calls)))
      ensures y == old(y) + WanderDelta(rng.oracle(old(rng.calls) + 1))
    {
      var rx := rng.Next();
      x := x + (rx as int - 1);
      var ry := rng.Next();
      y := y + (ry as int - 1);
    }
  }
}
