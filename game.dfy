/**
 * The game loop of app/GameLogic.tsx as one mutable state: the enemy pool, the tower pool, the
 * lingering zones, the money, health, round and spawn counter, the processed-kill set and the
 * pause/speed controls. Each timer callback, effect and menu action of the component is a method
 * that updates the fields in place; `Snap()` lists the whole state so that each method can say
 * exactly what it changes.
 */
module Game {
  import opened Entities
  import opened WaveDirector
  import opened Movement
  import Aim = Targeting
  import opened Combat
  import opened StatusEffects
  import opened Economy
  import opened Upgrades

  /**
   * Every field of the game state, as one value. `attackRound` is the round towerAttack sees:
   * the callback is memoised on the pause flag and the speed only, so it (and the
   * grantMoneyForKill it calls) keeps the round of the render in which one of those last changed.
   */
  datatype Snapshot = Snapshot(
    enemies: seq<Enemy>, towers: seq<Tower>, zones: seq<Zone>,
    money: real, health: real, round: nat, enemyCount: nat, processed: set<nat>,
    paused: bool, canPause: bool, speedUp: int, nextId: nat, attackRound: nat)

  /** resetGame: round, counter, health, money and both pools back to their start values. */
  function Restarted(s: Snapshot): (r: Snapshot)
    ensures r.enemies == [] && r.towers == [] && r.round == 0 && r.enemyCount == 0
    ensures r.money == 200.0 && r.health == 100.0
    ensures r.zones == s.zones && r.processed == s.processed && r.paused == s.paused &&
            r.canPause == s.canPause && r.speedUp == s.speedUp && r.nextId == s.nextId &&
            r.attackRound == s.attackRound
  {
    s.(enemies := [], towers := [], round := 0, enemyCount := 0, money := 200.0, health := 100.0)
  }

  /**
   * The tower-pool invariant the menu and the attack loop keep: the upgrade levels are tiered,
   * a selected target list is never empty, and tower ids are distinct and already handed out.
   */
  predicate Roster(towers: seq<Tower>, nextId: nat) {
    (forall i :: 0 <= i < |towers| ==> Sound(towers[i]) && towers[i].id < nextId) && Distinct(towers)
  }

  /** One tower's part of the roster: tiered levels, and no empty target list. */
  predicate Sound(t: Tower) {
    Tiers(t) && (t.targets.Some? ==> t.targets.value != [])
  }

  /** No tower shares its id with a later one. */
  predicate Distinct(towers: seq<Tower>) {
    towers != [] ==> (forall k :: 0 < k < |towers| ==> towers[k].id != towers[0].id) && Distinct(towers[1..])
  }

  /** Distinct ids: any two positions hold different ids. */
  lemma {:induction false} DistinctAt(towers: seq<Tower>, i: nat, j: nat)
    requires Distinct(towers) && i < j < |towers|
    ensures towers[i].id != towers[j].id
  {
    if i > 0 {
      DistinctAt(towers[1..], i - 1, j - 1);
    }
  }

  /** A pass that keeps every tower's id keeps the ids distinct. */
  lemma {:induction false} DistinctAfter(towers: seq<Tower>, r: seq<Tower>)
    requires Distinct(towers) && |r| == |towers|
    requires forall i :: 0 <= i < |r| ==> r[i].id == towers[i].id
    ensures Distinct(r)
  {
    if r != [] {
      DistinctAfter(towers[1..], r[1..]);
    }
  }

  /** A pass over the towers that keeps every id and every tower sound keeps the roster, also under later ids. */
  lemma RosterAfter(towers: seq<Tower>, r: seq<Tower>, nextId: nat, later: nat)
    requires Roster(towers, nextId) && nextId <= later && |r| == |towers|
    requires forall i :: 0 <= i < |r| ==> r[i].id == towers[i].id && Sound(r[i])
    ensures Roster(r, later)
  {
    DistinctAfter(towers, r);
  }

  /** With distinct ids, the tower `find` returns is the only tower with that id. */
  lemma FoundIsUnique(towers: seq<Tower>, nextId: nat, id: nat, i: nat)
    requires Roster(towers, nextId) && i < |towers| && towers[i].id == id
    ensures FindTower(towers, id) == Some(towers[i])
  {
    var r := FindTower(towers, id);
    assert r.Some? by { assert towers[i] in towers; }
    var j :| 0 <= j < |towers| && towers[j] == r.value;
    if i < j {
      DistinctAt(towers, i, j);
    } else if j < i {
      DistinctAt(towers, j, i);
    }
  }

  /** Selling keeps the roster: the filter leaves a sub-list of the towers. */
  lemma {:induction false} RemoveKeepsRoster(towers: seq<Tower>, nextId: nat, id: nat)
    requires Roster(towers, nextId)
    ensures Roster(RemoveTower(towers, id), nextId)
  {
    if towers != [] {
      var rest := RemoveTower(towers[1..], id);
      RemoveKeepsRoster(towers[1..], nextId, id);
      var head := if towers[0].id == id then [] else [towers[0]];
      assert RemoveTower(towers, id) == head + rest;
      if head != [] {
        forall k | 0 <= k < |rest| ensures rest[k].id != towers[0].id {
          assert rest[k] in towers[1..];
          var j :| 0 <= j < |towers[1..]| && towers[1..][j] == rest[k];
          DistinctAt(towers, 0, j + 1);
        }
        DistinctCons(towers[0], rest);
      } else {
        assert head + rest == rest;
      }
    }
  }

  /** A tower whose id no tower of a distinct list has may join its front. */
  lemma DistinctCons(t: Tower, rest: seq<Tower>)
    requires Distinct(rest)
    requires forall k :: 0 <= k < |rest| ==> rest[k].id != t.id
    ensures Distinct([t] + rest)
  {
    var r := [t] + rest;
    assert r[1..] == rest;
    forall k | 0 < k < |r| ensures r[k].id != r[0].id {
      assert r[k] == rest[k - 1];
    }
  }

  /** A tower whose id no tower has may join the end of a roster's list. */
  lemma {:induction false} DistinctAppend(towers: seq<Tower>, t: Tower)
    requires Distinct(towers)
    requires forall i :: 0 <= i < |towers| ==> towers[i].id != t.id
    ensures Distinct(towers + [t])
  {
    if towers != [] {
      assert (towers + [t])[1..] == towers[1..] + [t];
      DistinctAppend(towers[1..], t);
    }
  }

  /** The SpeedyMegaTanks a dying spawner leaves at its position, one per id from `lo` up to `hi`. */
  function Litter(e: Enemy, lo: nat, hi: nat): (r: seq<Enemy>)
    requires lo <= hi
    ensures |r| == hi - lo
    ensures forall i :: 0 <= i < |r| ==> r[i] == NewEnemy(SpeedyMegaTank, lo + i, Some((e.x, e.y)))
    decreases hi - lo
  {
    if lo == hi then []
    else [NewEnemy(SpeedyMegaTank, lo, Some((e.x, e.y)))] + Litter(e, lo + 1, hi)
  }

  /** How many of the kills are spawners. */
  function Spawners(kills: seq<Enemy>): (n: nat)
    ensures n <= |kills|
    ensures n == 0 <==> forall i :: 0 <= i < |kills| ==> !kills[i].canSpawn
  {
    if kills == [] then 0
    else
      (if kills[0].canSpawn then 1 else 0) + Spawners(kills[1..])
  }

  /** The enemies the kills' spawners leave behind, with consecutive fresh ids from `next`. */
  function Brood(kills: seq<Enemy>, next: nat): (r: seq<Enemy>)
    ensures |r| == 5 * Spawners(kills)
    ensures forall i :: 0 <= i < |r| ==> r[i] == NewEnemy(SpeedyMegaTank, next + i, Some((r[i].x, r[i].y)))
  {
    if kills == [] then []
    else
      var e := kills[0];
      var own := if e.canSpawn then Litter(e, next, next + 5) else [];
      own + Brood(kills[1..], next + |own|)
  }

  /** Every enemy of the brood stands where one of the killed spawners died: `j` is that spawner. */
  lemma {:induction false} BroodAt(kills: seq<Enemy>, next: nat, i: nat) returns (j: nat)
    requires i < |Brood(kills, next)|
    ensures j < |kills| && kills[j].canSpawn
    ensures Brood(kills, next)[i].x == kills[j].x && Brood(kills, next)[i].y == kills[j].y
  {
    var e := kills[0];
    if e.canSpawn && i < 5 {
      var own := Litter(e, next, next + 5);
      assert Brood(kills, next)[i] == own[i];
      j := 0;
    } else {
      var skip := if e.canSpawn then 5 else 0;
      var rest := Brood(kills[1..], next + skip);
      assert Brood(kills, next)[i] == rest[i - skip];
      var w := BroodAt(kills[1..], next + skip, i - skip);
      assert kills[w + 1] == kills[1..][w];
      j := w + 1;
    }
  }

  /** The retargeting effect: every tower gets getFurthestEnemyInRadius over the current pool. */
  function Retargeted(towers: seq<Tower>, enemies: seq<Enemy>): (r: seq<Tower>)
    ensures |r| == |towers|
    ensures forall i :: 0 <= i < |towers| ==> r[i] == towers[i].(targets := Aim.FurthestEnemies(towers[i], enemies))
    ensures forall i :: 0 <= i < |towers| ==> r[i].id == towers[i].id && (Sound(towers[i]) ==> Sound(r[i]))
  {
    seq(|towers|, i requires 0 <= i < |towers| => towers[i].(targets := Aim.FurthestEnemies(towers[i], enemies)))
  }

  /** The attacking tower marked busy. */
  function Busy(towers: seq<Tower>, id: nat): (r: seq<Tower>)
    ensures |r| == |towers|
    ensures forall i :: 0 <= i < |towers| ==>
              r[i] == if towers[i].id == id then towers[i].(isAttacking := true) else towers[i]
    ensures forall i :: 0 <= i < |towers| ==> r[i].id == towers[i].id && (Sound(towers[i]) ==> Sound(r[i]))
  {
    seq(|towers|, i requires 0 <= i < |towers| =>
          if towers[i].id == id then towers[i].(isAttacking := true) else towers[i])
  }

  /** The cooldown's end: the tower is free again and credited with the attack's damage. */
  function Cooled(towers: seq<Tower>, id: nat, dealt: real): (r: seq<Tower>)
    ensures |r| == |towers|
    ensures forall i :: 0 <= i < |towers| ==>
              r[i] == if towers[i].id == id
                      then towers[i].(isAttacking := false, damageDone := towers[i].damageDone + dealt)
                      else towers[i]
    ensures forall i :: 0 <= i < |towers| ==> r[i].id == towers[i].id && (Sound(towers[i]) ==> Sound(r[i]))
  {
    seq(|towers|, i requires 0 <= i < |towers| =>
          if towers[i].id == id then towers[i].(isAttacking := false, damageDone := towers[i].damageDone + dealt)
          else towers[i])
  }

  /** The cooldown's end for the enemies: the attack's targets are no longer marked targeted. */
  function Untargeted(enemies: seq<Enemy>, ids: set<nat>): (r: seq<Enemy>)
    ensures |r| == |enemies|
    ensures forall i :: 0 <= i < |enemies| ==>
              r[i] == if enemies[i].id in ids then enemies[i].(isTargeted := false) else enemies[i]
  {
    seq(|enemies|, i requires 0 <= i < |enemies| =>
          if enemies[i].id in ids then enemies[i].(isTargeted := false) else enemies[i])
  }

  /** Each tower credited with the poison its doses dealt in this tick. */
  function Credited(towers: seq<Tower>, byTower: map<nat, real>): (r: seq<Tower>)
    ensures |r| == |towers|
    ensures forall i :: 0 <= i < |towers| ==>
              r[i] == towers[i].(damageDone := towers[i].damageDone + Tally(byTower, towers[i].id))
    ensures forall i :: 0 <= i < |towers| ==> r[i].id == towers[i].id && (Sound(towers[i]) ==> Sound(r[i]))
  {
    seq(|towers|, i requires 0 <= i < |towers| =>
          towers[i].(damageDone := towers[i].damageDone + Tally(byTower, towers[i].id)))
  }

  /** The slow reconciler over the pool. */
  function SlowSwept(enemies: seq<Enemy>, towers: seq<Tower>, now: int, speedUp: int): (r: seq<Enemy>)
    ensures |r| == |enemies|
    ensures forall i :: 0 <= i < |enemies| ==> r[i] == ExpireSlow(enemies[i], towers, now, speedUp)
  {
    seq(|enemies|, i requires 0 <= i < |enemies| => ExpireSlow(enemies[i], towers, now, speedUp))
  }

  /** The stun reconciler over the pool. */
  function StunSwept(enemies: seq<Enemy>, towers: seq<Tower>, now: int, speedUp: int): (r: seq<Enemy>)
    ensures |r| == |enemies|
    ensures forall i :: 0 <= i < |enemies| ==> r[i] == ExpireStun(enemies[i], towers, now, speedUp)
  {
    seq(|enemies|, i requires 0 <= i < |enemies| => ExpireStun(enemies[i], towers, now, speedUp))
  }

  /** The enemies the dead-enemy sweep looks at: health at or below 0. */
  function Fallen(enemies: seq<Enemy>): (r: seq<Enemy>)
    ensures forall e :: e in r <==> e in enemies && e.hp <= 0.0
  {
    if enemies == [] then []
    else (if enemies[0].hp <= 0.0 then [enemies[0]] else []) + Fallen(enemies[1..])
  }

  /** performUpgrade's tower update: the upgrade applied to the tower with the id. */
  function Improved(towers: seq<Tower>, id: nat, u: Upgrade): (r: seq<Tower>)
    ensures |r| == |towers|
    ensures forall i :: 0 <= i < |towers| ==> r[i] == if towers[i].id == id then Upgraded(towers[i], u) else towers[i]
    ensures forall i :: 0 <= i < |towers| ==> r[i].id == towers[i].id
  {
    seq(|towers|, i requires 0 <= i < |towers| => if towers[i].id == id then Upgraded(towers[i], u) else towers[i])
  }

  /** changeTowerTargetting: the tower with the id moves to the next targeting mode. */
  function Cycled(towers: seq<Tower>, id: nat): (r: seq<Tower>)
    ensures |r| == |towers|
    ensures forall i :: 0 <= i < |towers| ==>
              r[i] == if towers[i].id == id then towers[i].(targeting := NextTargeting(towers[i].targeting)) else towers[i]
    ensures forall i :: 0 <= i < |towers| ==> r[i].id == towers[i].id && (Sound(towers[i]) ==> Sound(r[i]))
  {
    seq(|towers|, i requires 0 <= i < |towers| =>
          if towers[i].id == id then towers[i].(targeting := NextTargeting(towers[i].targeting)) else towers[i])
  }

  /** The speed the digit keys select: 1 gives 3, 2 gives 1, 3 gives 2; any other key nothing. */
  function SpeedKey(digit: int, speedUp: int): int {
    if digit == 1 then 3 else if digit == 2 then 1 else if digit == 3 then 2 else speedUp
  }

  /** The keys 1 and 2 both run the timers twice as fast; only key 3 reaches three times. */
  lemma SpeedKeys(speedUp: int)
    ensures SpeedFactor(SpeedKey(1, speedUp)) == SpeedFactor(SpeedKey(2, speedUp)) == 2.0
    ensures SpeedFactor(SpeedKey(3, speedUp)) == 3.0
    ensures forall d :: d in {1, 2, 3} ==> SpeedFactor(SpeedKey(d, speedUp)) > 1.0
  {
  }

  /** Each tower credited with the poison its doses dealt in this tick, summed per source tower. */
  function Poisoned(towers: seq<Tower>, pool: seq<Enemy>, now: int, speedUp: int): (r: seq<Tower>)
    ensures |r| == |towers|
    ensures forall i :: 0 <= i < |towers| ==>
              r[i] == towers[i].(damageDone := towers[i].damageDone + DosedBy(pool, towers, now, speedUp, towers[i].id))
    ensures forall i :: 0 <= i < |towers| ==> r[i].id == towers[i].id && (Sound(towers[i]) ==> Sound(r[i]))
  {
    seq(|towers|, i requires 0 <= i < |towers| =>
          towers[i].(damageDone := towers[i].damageDone + DosedBy(pool, towers, now, speedUp, towers[i].id)))
  }

  /** Crediting the per-tower map the poison pass builds is crediting each tower its doses. */
  lemma CreditedIsPoisoned(towers: seq<Tower>, byTower: map<nat, real>, pool: seq<Enemy>, now: int, speedUp: int)
    requires TalliesDoses(byTower, pool, towers, now, speedUp)
    ensures Credited(towers, byTower) == Poisoned(towers, pool, now, speedUp)
  {
    var c, p := Credited(towers, byTower), Poisoned(towers, pool, now, speedUp);
    forall i | 0 <= i < |towers| ensures c[i] == p[i] {
      assert Tally(byTower, towers[i].id) == DosedBy(pool, towers, now, speedUp, towers[i].id);
    }
  }

  /**
   * grantMoneyForKill for each kill in turn: an enemy whose id is not processed yet is recorded
   * and pays its reward. Returns the money and the processed set afterwards.
   */
  method PayKills(money: real, processed: set<nat>, kills: seq<Enemy>, round: int) returns (m: real, seen: set<nat>)
    ensures m == money + Payout(processed, kills, round).0 as real
    ensures seen == Payout(processed, kills, round).1
  {
    m, seen := money, processed;
    var i := 0;
    while i < |kills|
      invariant 0 <= i <= |kills|
      invariant m == money + Payout(processed, kills[..i], round).0 as real
      invariant seen == Payout(processed, kills[..i], round).1
    {
      var e := kills[i];
      PayoutAppend(processed, kills[..i], [e], round);
      PayoutOne(seen, e, round);
      assert kills[..i + 1] == kills[..i] + [e];
      if e.id !in seen {
        seen := seen + {e.id};
        m := m + KillReward(e.maxHp, round) as real;
      }
      i := i + 1;
    }
    assert kills[..i] == kills;
  }

  /**
   * towerAttack once its outcome is known: the tower is marked busy, the pool replaced by the
   * struck one, a zone the attack leaves is added, the kills are paid for once per id at the
   * rate of the round the callback sees, and each spawner killed leaves five SpeedyMegaTanks
   * with fresh ids after the zone's.
   */
  function Landed(s: Snapshot, id: nat, o: Outcome): Snapshot {
    var p := Payout(s.processed, o.kills, s.attackRound);
    var brood := Brood(o.kills, s.nextId + 1);
    s.(towers := Busy(s.towers, id), enemies := o.pool + brood,
       zones := s.zones + (if o.zone.Some? then [o.zone.value] else []),
       money := s.money + p.0 as real, processed := p.1, nextId := s.nextId + 1 + |brood|)
  }

  /**
   * The poison timer's tick: every poisoned enemy takes its dose, each tower is credited with
   * the doses it caused, the kills are paid for, and each spawner killed leaves five
   * SpeedyMegaTanks, each counted as spawned.
   */
  function Poisoning(s: Snapshot, now: int): Snapshot {
    var f := Dose(s.towers, now, s.speedUp);
    var kills := Killed(s.enemies, f);
    var p := Payout(s.processed, kills, s.round);
    var brood := Brood(kills, s.nextId);
    s.(enemies := Struck(s.enemies, f) + brood, towers := Poisoned(s.towers, s.enemies, now, s.speedUp),
       money := s.money + p.0 as real, processed := p.1,
       enemyCount := s.enemyCount + |brood|, nextId := s.nextId + |brood|)
  }

  /**
   * The lingering timer's tick: expired zones are dropped, every enemy takes the damage of the
   * zones as they were before the drop, and an enemy it kills is paid for.
   */
  function Lingered(s: Snapshot, now: int): Snapshot {
    var kills := Killed(s.enemies, Linger(s.zones));
    var p := Payout(s.processed, kills, s.round);
    s.(zones := LiveZones(s.zones, now), enemies := Struck(s.enemies, Linger(s.zones)),
       money := s.money + p.0 as real, processed := p.1)
  }

  /**
   * Kills are paid at the round towerAttack captured, not the live one: a first kill of a
   * 6500-health enemy pays 1000 when the callback was built before round 23, even in round 33
   * where grantMoneyForKill's current rate would pay 55.
   */
  lemma StaleRoundPays(s: Snapshot, id: nat, o: Outcome, e: Enemy)
    requires o.kills == [e] && e.id !in s.processed && e.maxHp == 6500.0 && s.attackRound <= 22
    ensures Landed(s, id, o).money == s.money + 1000.0
    ensures KillReward(e.maxHp, 33) == 55
  {
    assert KillReward(e.maxHp, s.attackRound) == 1000;
    assert o.kills[0] == e && o.kills[1..] == [];
    assert Payout(s.processed + {e.id}, [], s.attackRound).0 == 0;
    assert Payout(s.processed, o.kills, s.attackRound).0 == 1000;
  }

  /** An attack keeps the roster: only the attacker's busy flag changes, and ids move forward. */
  lemma LandedKeepsRoster(s: Snapshot, id: nat, o: Outcome)
    requires Roster(s.towers, s.nextId)
    ensures Roster(Landed(s, id, o).towers, Landed(s, id, o).nextId)
  {
    RosterAfter(s.towers, Busy(s.towers, id), s.nextId, Landed(s, id, o).nextId);
  }

  /** A poison tick keeps the roster: it only adds to the towers' damage counters. */
  lemma PoisoningKeepsRoster(s: Snapshot, now: int)
    requires Roster(s.towers, s.nextId)
    ensures Roster(Poisoning(s, now).towers, Poisoning(s, now).nextId)
  {
    RosterAfter(s.towers, Poisoned(s.towers, s.enemies, now, s.speedUp), s.nextId, Poisoning(s, now).nextId);
  }

  class GameState {
    var enemies: seq<Enemy>
    var towers: seq<Tower>
    var zones: seq<Zone>
    var money: real
    var health: real
    var round: nat
    var enemyCount: nat
    var processed: set<nat>
    var paused: bool
    var canPause: bool
    var speedUp: int
    var nextId: nat
    var attackRound: nat

    /** Every field of the state, as one value. */
    function Snap(): Snapshot
      reads this
    {
      Snapshot(enemies, towers, zones, money, health, round, enemyCount, processed,
               paused, canPause, speedUp, nextId, attackRound)
    }

    predicate Valid()
      reads this
    {
      Roster(towers, nextId)
    }

    /** Every field set from the snapshot at once, as the setters of one callback land together. */
    method Commit(s: Snapshot)
      requires Roster(s.towers, s.nextId)
      modifies this
      ensures Valid() && Snap() == s
    {
      enemies, towers, zones, money, health, round, enemyCount, processed, paused, canPause, speedUp, nextId, attackRound :=
        s.enemies, s.towers, s.zones, s.money, s.health, s.round, s.enemyCount, s.processed, s.paused, s.canPause,
        s.speedUp, s.nextId, s.attackRound;
    }

    /** A fresh game: the reset values, running, not pausable, at normal speed. */
    constructor ()
      ensures Valid()
      ensures Snap() == Snapshot([], [], [], 200.0, 100.0, 0, 0, {}, false, false, 0, 0, 0)
    {
      enemies, towers, zones := [], [], [];
      money, health, round, enemyCount, processed := 200.0, 100.0, 0, 0, {};
      paused, canPause, speedUp, nextId, attackRound := false, false, 0, 0, 0;
    }

    /** resetGame. */
    method Restart()
      modifies this
      ensures Valid()
      ensures Snap() == Restarted(old(Snap()))
    {
      round, enemyCount, health, money, enemies, towers := 0, 0, 100.0, 200.0, [], [];
    }

    /**
     * spawnEnemies, one tick of the spawn timer while the game runs: past round 50 with the pool
     * empty the game is won and reset; in round 0 the pool is cleared; otherwise the wave table
     * appends one enemy at the path's start and advances the counter, until the limit.
     */
    method SpawnTick()
      requires Valid()
      modifies this
      ensures Valid()
      ensures old(paused) ==> Snap() == old(Snap())
      ensures !old(paused) && old(round) > 50 && old(enemies) == [] ==> Snap() == Restarted(old(Snap()))
      ensures !old(paused) && old(round) == 0 ==> Snap() == old(Snap()).(enemies := [])
      ensures !old(paused) && 0 < old(round) && (old(round) <= 50 || old(enemies) != []) ==>
                Snap() == match WaveSpawn(old(round), old(enemyCount))
                          case None => old(Snap())
                          case Some(w) => old(Snap()).(enemies := old(enemies) + [NewEnemy(w.kind, old(nextId), None)],
                                                       enemyCount := old(enemyCount) + w.step,
                                                       nextId := old(nextId) + 1)
    {
      if paused {
        return;
      }
      if round > 50 && enemies == [] {
        Restart();
        return;
      }
      if round == 0 {
        enemies := [];
        return;
      }
      match WaveSpawn(round, enemyCount) {
        case None =>
        case Some(w) =>
          RosterAfter(towers, towers, nextId, nextId + 1);
          enemies, enemyCount, nextId := enemies + [NewEnemy(w.kind, nextId, None)], enemyCount + w.step, nextId + 1;
      }
    }

    /** The movement timer: while a round runs, moveEnemy advances the living enemies and drops the dead. */
    method MoveTick()
      modifies this
      ensures Snap() == if !old(paused) && old(round) > 0 then old(Snap()).(enemies := MoveAll(old(enemies))) else old(Snap())
    {
      if !paused && round > 0 {
        enemies := MoveAll(enemies);
      }
    }

    /** damagePlayer after every pool change: escaped enemies cost health and leave the pool. */
    method LeakTick()
      modifies this
      ensures Snap() == old(Snap()).(health := DamagePlayer(old(health), old(enemies)).0,
                                     enemies := DamagePlayer(old(health), old(enemies)).1)
      ensures (forall e :: e in old(enemies) && Escaped(e) ==> e.damage >= 0.0) ==> health <= old(health)
    {
      var r := DamagePlayer(health, enemies);
      if forall e :: e in enemies && Escaped(e) ==> e.damage >= 0.0 {
        LeakNonNegative(enemies);
      }
      health, enemies := r.0, r.1;
    }

    /** The game-over effect: health at or below 0 resets the game. */
    method GameOverCheck()
      requires Valid()
      modifies this
      ensures Valid()
      ensures Snap() == if old(health) <= 0.0 then Restarted(old(Snap())) else old(Snap())
    {
      if health <= 0.0 {
        Restart();
      }
    }

    /** The regeneration timer: while a round runs, regenerating enemies heal. */
    method RegenTick()
      modifies this
      ensures Snap() == if !old(paused) && old(round) > 0 then old(Snap()).(enemies := RegenerateAll(old(enemies))) else old(Snap())
    {
      if !paused && round > 0 {
        enemies := RegenerateAll(enemies);
      }
    }

    /** The targeting effect: with enemies present, every tower re-selects its targets from the pool. */
    method RetargetTick()
      requires Valid()
      modifies this
      ensures Valid()
      ensures Snap() == if !old(paused) && old(enemies) != []
                        then old(Snap()).(towers := Retargeted(old(towers), old(enemies))) else old(Snap())
    {
      if !paused && enemies != [] {
        RosterAfter(towers, Retargeted(towers, enemies), nextId, nextId);
        towers := Retargeted(towers, enemies);
      }
    }

    /**
     * towerAttack, started by the attack effect for a tower that has targets and is not already
     * attacking: the attack is resolved on the pool by its attack family, then lands as `Landed`
     * says. Returns the outcome and the ids of the targets for the cooldown's end.
     */
    method Attack(id: nat, critRoll: real, stunRolls: nat -> real, now: int) returns (o: Outcome, targetIds: set<nat>)
      requires Valid()
      modifies this
      ensures Valid()
      ensures var t := FindTower(old(towers), id);
              old(paused) || t.None? || t.value.targets.None? || t.value.isAttacking ==>
                Snap() == old(Snap()) && o.dealt == 0.0 && targetIds == {}
      ensures var t := FindTower(old(towers), id);
              !(old(paused) || t.None? || t.value.targets.None? || t.value.isAttacking) ==>
                Resolves(o, old(enemies), t.value, t.value.targets.value, critRoll, stunRolls, old(attackRound), now,
                         old(nextId)) &&
                targetIds == TargetIds(t.value.targets.value) &&
                Snap() == Landed(old(Snap()), id, o)
    {
      var s := Snap();
      var found := FindTower(towers, id);
      if paused || found.None? || found.value.targets.None? || found.value.isAttacking {
        o, targetIds := Outcome(enemies, 0.0, [], None, []), {};
        return;
      }
      var t := found.value;
      var targets := t.targets.value;
      assert targets != [] by {
        var i :| 0 <= i < |towers| && towers[i] == t;
      }
      o := Resolve(s.enemies, t, targets, critRoll, stunRolls, s.attackRound, now, s.nextId);
      targetIds := TargetIds(targets);
      LandedKeepsRoster(s, id, o);
      Commit(Landed(s, id, o));
    }

    /**
     * The attack's cooldown timeout. Its pause check reads the flag as it was when the attack
     * started, which was running, so it always lands: the tower is free again, credited with
     * the damage, and its targets unmarked.
     */
    method FinishAttack(id: nat, dealt: real, targetIds: set<nat>)
      requires Valid()
      modifies this
      ensures Valid()
      ensures Snap() == old(Snap()).(towers := Cooled(old(towers), id, dealt),
                                     enemies := Untargeted(old(enemies), targetIds))
    {
      RosterAfter(towers, Cooled(towers, id, dealt), nextId, nextId);
      towers, enemies := Cooled(towers, id, dealt), Untargeted(enemies, targetIds);
    }

    /** The slow reconciler's timer. */
    method SlowTick(now: int)
      modifies this
      ensures Snap() == if old(paused) then old(Snap())
                        else old(Snap()).(enemies := SlowSwept(old(enemies), old(towers), now, old(speedUp)))
    {
      if !paused {
        enemies := SlowSwept(enemies, towers, now, speedUp);
      }
    }

    /** The stun reconciler's timer. */
    method StunTick(now: int)
      modifies this
      ensures Snap() == if old(paused) then old(Snap())
                        else old(Snap()).(enemies := StunSwept(old(enemies), old(towers), now, old(speedUp)))
    {
      if !paused {
        enemies := StunSwept(enemies, towers, now, speedUp);
      }
    }

    /** The poison timer: unless paused, one pass over the pool as `Poisoning` says. */
    method PoisonSweep(now: int)
      requires Valid()
      modifies this
      ensures Valid()
      ensures Snap() == if old(paused) then old(Snap()) else Poisoning(old(Snap()), now)
    {
      if paused {
        return;
      }
      var s := Snap();
      var next, byTower, total, kills := PoisonAll(s.enemies, s.towers, now, s.speedUp);
      CreditedIsPoisoned(s.towers, byTower, s.enemies, now, s.speedUp);
      var m, seen := PayKills(s.money, s.processed, kills, s.round);
      var brood := Brood(kills, s.nextId);
      PoisoningKeepsRoster(s, now);
      Commit(s.(enemies := next + brood, towers := Credited(s.towers, byTower), money := m, processed := seen,
                enemyCount := s.enemyCount + |brood|, nextId := s.nextId + |brood|));
    }

    /** The lingering timer: unless paused, one pass over the pool as `Lingered` says. */
    method LingerSweep(now: int)
      requires Valid()
      modifies this
      ensures Valid()
      ensures Snap() == if old(paused) then old(Snap()) else Lingered(old(Snap()), now)
    {
      if paused {
        return;
      }
      var s := Snap();
      var next, total, kills := StrikeAll(s.enemies, Linger(s.zones));
      var m, seen := PayKills(s.money, s.processed, kills, s.round);
      Commit(s.(zones := LiveZones(s.zones, now), enemies := next, money := m, processed := seen));
    }

    /** The dead-enemy sweep: every enemy at or below 0 health is paid for, once per id. */
    method DeadSweep()
      modifies this
      ensures var p := Payout(old(processed), Fallen(old(enemies)), old(round));
              Snap() == old(Snap()).(money := old(money) + p.0 as real, processed := p.1)
    {
      money, processed := PayKills(money, processed, Fallen(enemies), round);
    }

    /** The processed set is cleared whenever the pool is empty and the counter reached 10 per round. */
    method ClearProcessed()
      modifies this
      ensures Snap() == if old(enemies) == [] && (old(enemyCount) >= 10 * old(round) || old(enemyCount) >= 15 * old(round))
                        then old(Snap()).(processed := {}) else old(Snap())
    {
      if enemies == [] && (enemyCount >= 10 * round || enemyCount >= 15 * round) {
        processed := {};
      }
    }

    /**
     * The round-advance effect: once a started round is cleared the game may be paused; with
     * automatic rounds the next round starts with an empty pool and counter, otherwise the game
     * pauses, and towerAttack is rebuilt in the cleared round.
     */
    method RoundEnd(auto: bool)
      modifies this
      ensures !(!old(paused) && RoundCleared(|old(enemies)|, old(enemyCount), old(round))) ==> Snap() == old(Snap())
      ensures !old(paused) && RoundCleared(|old(enemies)|, old(enemyCount), old(round)) ==>
                Snap() == if auto then old(Snap()).(round := old(round) + 1, enemies := [], enemyCount := 0, canPause := false)
                          else old(Snap()).(canPause := true, paused := true, attackRound := old(round))
    {
      if !paused && RoundCleared(|enemies|, enemyCount, round) {
        canPause := true;
        if auto {
          round, enemies, enemyCount, canPause := round + 1, [], 0, false;
        } else {
          paused, attackRound := true, round;
        }
      }
    }

    /** The round-change effect: during a round the game is pausable exactly when rounds are manual. */
    method RoundStart(auto: bool)
      modifies this
      ensures Snap() == if old(round) > 0 then old(Snap()).(canPause := !auto) else old(Snap())
    {
      if round > 0 {
        canPause := !auto;
      }
    }

    /**
     * The space key: when pausing is allowed it toggles the pause and drops back to normal
     * speed, and towerAttack is rebuilt in the current round; resuming a cleared round with
     * manual rounds then starts the next round, which the rebuilt callback does not see.
     */
    method TogglePause(auto: bool)
      modifies this
      ensures !old(canPause) ==> Snap() == old(Snap())
      ensures old(canPause) ==>
                var toggled := old(Snap()).(paused := !old(paused), speedUp := 0, attackRound := old(round));
                Snap() == if old(paused) && old(round) > 0 && !auto && old(enemies) == [] &&
                             old(enemyCount) >= EnemyLimit(old(round))
                          then toggled.(round := old(round) + 1, enemyCount := 0)
                          else toggled
    {
      if canPause {
        paused, attackRound := !paused, round;
        if speedUp != 0 {
          speedUp := 0;
        }
        if !paused && round > 0 && !auto && enemies == [] && enemyCount >= EnemyLimit(round) {
          round, enemies, enemyCount := round + 1, [], 0;
        }
      }
    }

    /**
     * The digit keys: while running, 1, 2 and 3 select a speed; a speed that actually changes
     * rebuilds towerAttack in the current round.
     */
    method SetSpeed(digit: int)
      modifies this
      ensures old(paused) || SpeedKey(digit, old(speedUp)) == old(speedUp) ==> Snap() == old(Snap())
      ensures !old(paused) && SpeedKey(digit, old(speedUp)) != old(speedUp) ==>
                Snap() == old(Snap()).(speedUp := SpeedKey(digit, old(speedUp)), attackRound := old(round))
    {
      if !paused && SpeedKey(digit, speedUp) != speedUp {
        speedUp, attackRound := SpeedKey(digit, speedUp), round;
      }
    }

    /** buyTowers: a tower of the kind is placed when the money covers its price. */
    method BuyTower(k: TowerKind, x: real, y: real)
      requires Valid()
      modifies this
      ensures Valid()
      ensures var t := NewTower(k, old(nextId), x, y);
              Snap() == match Buy(old(money), t.price)
                        case None => old(Snap())
                        case Some(m) => old(Snap()).(money := m, towers := old(towers) + [t], nextId := old(nextId) + 1)
    {
      var s := Snap();
      var t := NewTower(k, s.nextId, x, y);
      match Buy(s.money, t.price) {
        case None =>
        case Some(m) =>
          NewTowerTiers(k, s.nextId, x, y);
          AddKeepsRoster(s.towers, s.nextId, t);
          Commit(s.(money := m, towers := s.towers + [t], nextId := s.nextId + 1));
      }
    }

    /** sellTower: once confirmed (or when no confirmation is asked), the tower is refunded and removed. */
    method SellTower(id: nat, confirmed: bool)
      requires Valid()
      modifies this
      ensures Valid()
      ensures var t := FindTower(old(towers), id);
              Snap() == if t.None? || !confirmed then old(Snap())
                        else old(Snap()).(money := old(money) + Refund(t.value.towerWorth),
                                          towers := RemoveTower(old(towers), id))
      ensures confirmed ==> forall i :: 0 <= i < |towers| ==> towers[i].id != id
    {
      var s := Snap();
      var t := FindTower(s.towers, id);
      if t.Some? && confirmed {
        RemoveKeepsRoster(s.towers, s.nextId, id);
        Commit(s.(money := s.money + Refund(t.value.towerWorth), towers := RemoveTower(s.towers, id)));
      } else if confirmed {
        forall i | 0 <= i < |towers| ensures towers[i].id != id {
          assert towers[i] in towers;
        }
      }
    }

    /**
     * performUpgrade, for an upgrade the menu offers for the selected tower: when the money
     * covers the cost, it is paid and the upgrade applied to that tower.
     */
    method UpgradeTower(id: nat, u: Upgrade)
      requires Valid()
      requires FindTower(towers, id).Some? && u in Available(FindTower(towers, id).value)
      modifies this
      ensures Valid()
      ensures Snap() == if old(money) >= u.cost
                        then old(Snap()).(money := old(money) - u.cost, towers := Improved(old(towers), id, u))
                        else old(Snap())
    {
      var s := Snap();
      if s.money >= u.cost {
        ImprovedKeepsRoster(s.towers, s.nextId, id, u);
        Commit(s.(money := s.money - u.cost, towers := Improved(s.towers, id, u)));
      }
    }

    /** changeTowerTargetting for the selected tower. */
    method CycleTargeting(id: nat)
      requires Valid()
      modifies this
      ensures Valid()
      ensures Snap() == old(Snap()).(towers := Cycled(old(towers), id))
    {
      RosterAfter(towers, Cycled(towers, id), nextId, nextId);
      towers := Cycled(towers, id);
    }
  }

  /** Placing a new tower with the next id keeps the roster. */
  lemma AddKeepsRoster(towers: seq<Tower>, nextId: nat, t: Tower)
    requires Roster(towers, nextId) && t.id == nextId && Sound(t)
    ensures Roster(towers + [t], nextId + 1)
  {
    DistinctAppend(towers, t);
  }

  lemma ImprovedKeepsRoster(towers: seq<Tower>, nextId: nat, id: nat, u: Upgrade)
    requires Roster(towers, nextId)
    requires FindTower(towers, id).Some? && u in Available(FindTower(towers, id).value)
    ensures Roster(Improved(towers, id, u), nextId)
  {
    var r := Improved(towers, id, u);
    forall i | 0 <= i < |towers|
      ensures Sound(r[i])
    {
      if towers[i].id == id {
        FoundIsUnique(towers, nextId, id, i);
        UpgradeKeepsTiers(towers[i], u);
      }
    }
    RosterAfter(towers, r, nextId, nextId);
  }

  /** Escaped enemies with non-negative damage never raise the player's health. */
  lemma {:induction false} LeakNonNegative(es: seq<Enemy>)
    requires forall e :: e in es && Escaped(e) ==> e.damage >= 0.0
    ensures LeakDamage(es) >= 0.0
  {
    if es != [] {
      assert es[0] in es;
      assert forall e :: e in es[1..] ==> e in es;
      LeakNonNegative(es[1..]);
    }
  }
}
