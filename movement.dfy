/**
 * The per-tick pool updates of app/GameLogic.tsx that do not involve towers: path movement
 * (moveEnemy), the leak check that charges the player for enemies past the end of the path
 * (damagePlayer), and health regeneration.
 */
module Movement {
  import opened Entities

  /**
   * One movement tick of a position: the first path segment whose guard holds moves the point
   * by multiples of the speed. Never backwards along x, and a moving enemy always moves.
   */
  function Step(x: real, y: real, speed: real): (p: (real, real))
    ensures speed == 0.0 ==> p == (x, y)
    ensures speed >= 0.0 ==> p.0 >= x
    ensures speed > 0.0 ==> p != (x, y)
  {
    var s := speed;
    if x < 28.0 then (x + s, y - s / 10.0)
    else if x < 52.0 && y > 20.0 then (x + s / 3.0, y - s * 2.0)
    else if y <= 20.0 && x < 53.0 then (x + s, y)
    else if x >= 53.0 && x < 75.0 && y < 87.0 then (x, y + s * 2.0)
    else if y >= 87.0 && x < 76.5 then (x + s, y)
    else if x >= 76.5 && y > 51.0 then (x + s / 10.0, y - s * 2.0)
    else (x + s, y)
  }

  /** moveEnemy: only the position changes, by one step at the enemy's speed. */
  function MoveEnemy(e: Enemy): (r: Enemy)
    ensures r == e.(x := r.x, y := r.y)
    ensures (r.x, r.y) == Step(e.x, e.y, e.speed)
    ensures e.speed == 0.0 ==> r == e
    ensures e.speed > 0.0 ==> r != e
  {
    var p := Step(e.x, e.y, e.speed);
    e.(x := p.0, y := p.1)
  }

  /** `.map(move)` over the pool. */
  function Moved(es: seq<Enemy>): (r: seq<Enemy>)
    ensures |r| == |es|
    ensures forall i :: 0 <= i < |es| ==> r[i] == MoveEnemy(es[i])
  {
    if es == [] then [] else [MoveEnemy(es[0])] + Moved(es[1..])
  }

  /** `.filter(enemy => enemy.hp > 0)`: the pool without its dead, in order. */
  function Living(es: seq<Enemy>): (r: seq<Enemy>)
    ensures |r| <= |es|
    ensures forall e :: e in r <==> e in es && e.hp > 0.0
  {
    if es == [] then []
    else (if es[0].hp > 0.0 then [es[0]] else []) + Living(es[1..])
  }

  /** The movement tick as the source writes it: move everyone, then drop the dead. */
  function MoveAll(es: seq<Enemy>): (r: seq<Enemy>)
    ensures |r| <= |es|
    ensures forall e :: e in r ==> e.hp > 0.0
  {
    Living(Moved(es))
  }

  /** The movement tick moves exactly the living enemies, keeping their order, and drops the dead. */
  lemma {:induction false} MoveAllMovesTheLiving(es: seq<Enemy>)
    ensures MoveAll(es) == Moved(Living(es))
  {
    if es != [] {
      MoveAllMovesTheLiving(es[1..]);
      assert Moved(es)[1..] == Moved(es[1..]);
      assert Moved(es) == [MoveEnemy(es[0])] + Moved(es)[1..];
      if es[0].hp > 0.0 {
        assert Living(es) == [es[0]] + Living(es[1..]);
      } else {
        assert Living(es) == Living(es[1..]);
      }
    }
  }

  /** Enemies past x = 99 have reached the end of the path. */
  predicate Escaped(e: Enemy) { e.x > 99.0 }

  /** The ids damagePlayer removes from the pool. */
  function EscapedIds(es: seq<Enemy>): set<nat> {
    set e | e in es && Escaped(e) :: e.id
  }

  /** The health the escaped enemies cost the player: the sum of their `damage`. */
  function LeakDamage(es: seq<Enemy>): real {
    if es == [] then 0.0
    else (if Escaped(es[0]) then es[0].damage else 0.0) + LeakDamage(es[1..])
  }

  /** `prevEnemies.filter(e => e.id !== enemy.id)`, applied for every id of `ids`. */
  function Without(es: seq<Enemy>, ids: set<nat>): (r: seq<Enemy>)
    ensures |r| <= |es|
    ensures forall e :: e in r <==> e in es && e.id !in ids
  {
    if es == [] then []
    else (if es[0].id in ids then [] else [es[0]]) + Without(es[1..], ids)
  }

  /** damagePlayer: charge the player for every escaped enemy and remove it by id. */
  function DamagePlayer(health: real, es: seq<Enemy>): (r: (real, seq<Enemy>))
    ensures forall e :: e in r.1 ==> !Escaped(e)
    ensures forall e :: e in r.1 <==> e in es && e.id !in EscapedIds(es)
    ensures r.0 == health - LeakDamage(es)
  {
    (health - LeakDamage(es), Without(es, EscapedIds(es)))
  }

  lemma {:induction false} NoLeakNoDamage(es: seq<Enemy>)
    requires forall e :: e in es ==> !Escaped(e)
    ensures LeakDamage(es) == 0.0
  {
    if es != [] {
      assert es[0] in es;
      NoLeakNoDamage(es[1..]);
    }
  }

  lemma {:induction false} WithoutNothing(es: seq<Enemy>)
    ensures Without(es, {}) == es
  {
    if es != [] {
      WithoutNothing(es[1..]);
    }
  }

  /** A pool where nobody has escaped is left alone, so each escaped enemy costs health exactly once. */
  lemma DamagePlayerOnce(health: real, es: seq<Enemy>)
    ensures var once := DamagePlayer(health, es);
            DamagePlayer(once.0, once.1) == once
  {
    var once := DamagePlayer(health, es);
    NoLeakNoDamage(once.1);
    assert EscapedIds(once.1) == {};
    WithoutNothing(once.1);
  }

  /** The regeneration tick for one enemy: `hp += regen` when it regenerates, with no cap at maxHp. */
  function Regenerate(e: Enemy): (r: Enemy)
    ensures r == e.(hp := r.hp)
    ensures r.hp >= e.hp
    ensures r.hp > e.hp <==> e.canRegen && e.regen > 0.0
  {
    if e.regen > 0.0 && e.canRegen then e.(hp := e.hp + e.regen) else e
  }

  /** The regeneration tick over the pool. */
  function RegenerateAll(es: seq<Enemy>): (r: seq<Enemy>)
    ensures |r| == |es|
    ensures forall i :: 0 <= i < |es| ==> r[i] == Regenerate(es[i])
  {
    if es == [] then [] else [Regenerate(es[0])] + RegenerateAll(es[1..])
  }

  /** Regeneration is not capped: a fresh regenerating tank rises above its maximum health. */
  lemma RegenerationExceedsMaxHp(id: nat)
    ensures var e := Regenerate(NewEnemy(RegenTank, id, None)); e.hp > e.maxHp
  {
  }
}
