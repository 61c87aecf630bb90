/**
 * The game loop of app/Spawn.tsx, the older game component, as one mutable state: the enemy
 * and tower pools, and the money, health, round, spawn counter and pause/speed flags it shares
 * with its parent. Each timer callback, effect and menu handler is a method that updates the
 * fields in place; `Snap()` lists the whole state so that each method can say exactly what it
 * changes. Money never goes negative, and the menu moves money into tower worth and back at
 * fixed rates: buying and upgrading keep money plus worth, selling forfeits a third of the worth.
 */
module Legacy {
  import opened Entities
  import opened Movement
  import Aim = Targeting
  import opened Combat
  import opened StatusEffects
  import opened Economy
  import opened LegacyCatalog
  import opened LegacyWaves
  import opened LegacyCombat
  import opened LegacyUpgrades
  import Game

  /** Every field of the older game state, as one value. */
  datatype Board = Board(
    enemies: seq<Enemy>, towers: seq<Tower>, money: real, health: real, round: nat, enemyCount: nat,
    paused: bool, canPause: bool, speedUp: bool, nextId: nat)

  /** resetGame: round, counter, health, money and both pools back to their start values. */
  function Reset(s: Board): (r: Board)
    ensures r.enemies == [] && r.towers == [] && r.round == 0 && r.enemyCount == 0
    ensures r.money == 200.0 && r.health == 100.0
    ensures r.paused == s.paused && r.canPause == s.canPause && r.speedUp == s.speedUp && r.nextId == s.nextId
  {
    s.(enemies := [], towers := [], round := 0, enemyCount := 0, money := 200.0, health := 100.0)
  }

  /** A tower within its upgrade caps and worth something. */
  predicate Kept(t: Tower) {
    Bounded(t) && t.towerWorth > 0.0
  }

  /** Every tower of the pool kept. */
  predicate Fleet(towers: seq<Tower>) {
    forall t :: t in towers ==> Kept(t)
  }

  /**
   * The state invariant: the tower roster of the newer component (tiered levels, no empty
   * target list, distinct ids already handed out), every tower kept, and no debt.
   */
  predicate Sane(s: Board) {
    Game.Roster(s.towers, s.nextId) && Fleet(s.towers) && s.money >= 0.0
  }

  /** What the caps and the worth of a tower are made of. */
  function Stake(t: Tower): (real, real, real, real, real, real, Option<real>, Option<real>, real) {
    (t.attack, t.maxDamage, t.attackInterval, t.maxAttackInterval, t.poisonDamage, t.maxPoisonDamage,
     t.maxSlow, t.slowAmount, t.towerWorth)
  }

  /** The worth of all towers together: what selling them all is based on. */
  function Holdings(towers: seq<Tower>): real {
    if towers == [] then 0.0 else towers[0].towerWorth + Holdings(towers[1..])
  }

  /** Money plus the worth of the towers. */
  function Wealth(s: Board): real {
    s.money + Holdings(s.towers)
  }

  /** How many towers carry the id. */
  function Matches(towers: seq<Tower>, id: nat): nat {
    if towers == [] then 0 else (if towers[0].id == id then 1 else 0) + Matches(towers[1..], id)
  }

  /** An upgrade handler's `prevTower.map`: the boost applied to every tower with the selected id. */
  function Boosts(towers: seq<Tower>, id: nat, b: Boost): (r: seq<Tower>)
    ensures |r| == |towers|
    ensures forall i :: 0 <= i < |towers| ==> r[i] == if towers[i].id == id then Boosted(towers[i], b) else towers[i]
  {
    if towers == [] then []
    else [if towers[0].id == id then Boosted(towers[0], b) else towers[0]] + Boosts(towers[1..], id, b)
  }

  /** buyTowers: once a round has started, a catalog tower is placed when the money covers its price. */
  function Bought(s: Board, k: Model, x: real, y: real): Board
  {
    var t := Erect(k, s.nextId, x, y);
    if s.round > 0 && s.money >= t.price
    then s.(money := s.money - t.price, towers := s.towers + [t], nextId := s.nextId + 1)
    else s
  }

  /**
   * An upgrade handler: when the money covers the cost it is paid, and the selected tower, if
   * there is one, is boosted.
   */
  function Charged(s: Board, id: nat, b: Boost): Board
  {
    if s.money >= Cost(b) then s.(money := s.money - Cost(b), towers := Boosts(s.towers, id, b)) else s
  }

  /** sellTower from the menu of a tower: two thirds of its worth come back and the tower goes. */
  function Sold(s: Board, id: nat): Board
  {
    match FindTower(s.towers, id)
    case None => s
    case Some(t) => s.(money := s.money + Refund(t.towerWorth), towers := RemoveTower(s.towers, id))
  }

  /**
   * towerAttack for a tower with targets: the tower is marked busy, the pool replaced by the
   * struck one, and the attack's pay added.
   */
  function Fired(s: Board, t: Tower, now: int): Board
    requires t.targets.Some? && t.targets.value != []
  {
    var f := Barrage(t, t.targets.value, s.enemies, now);
    s.(towers := Game.Busy(s.towers, t.id), enemies := Struck(s.enemies, f),
       money := s.money + AttackPay(t, Dealt(s.enemies, f)) as real)
  }

  /**
   * The poison timer's tick: every poisoned enemy takes its dose, each tower is credited with
   * the doses it caused, and the money grows by the total over 7.5. Nothing is paid per kill.
   */
  function Dosed(s: Board, now: int): Board {
    var f := Dose(s.towers, now, Gear(s.speedUp));
    var total := Dealt(s.enemies, f);
    s.(enemies := Struck(s.enemies, f), towers := Game.Poisoned(s.towers, s.enemies, now, Gear(s.speedUp)),
       money := if total > 0.0 then s.money + total / 7.5 else s.money)
  }

  /** Adding a tower at the end adds its worth. */
  lemma {:induction false} HoldingsAppend(towers: seq<Tower>, t: Tower)
    ensures Holdings(towers + [t]) == Holdings(towers) + t.towerWorth
  {
    if towers != [] {
      assert (towers + [t])[1..] == towers[1..] + [t];
      HoldingsAppend(towers[1..], t);
    }
  }

  /** A pass that keeps every tower's caps and worth keeps the holdings and the fleet. */
  lemma {:induction false} Restaked(towers: seq<Tower>, r: seq<Tower>)
    requires |r| == |towers|
    requires forall i :: 0 <= i < |r| ==> Stake(r[i]) == Stake(towers[i])
    ensures Holdings(r) == Holdings(towers)
    ensures Fleet(towers) ==> Fleet(r)
  {
    if r != [] {
      assert Stake(r[0]) == Stake(towers[0]);
      Restaked(towers[1..], r[1..]);
    }
    if Fleet(towers) {
      forall t | t in r ensures Kept(t) {
        var i :| 0 <= i < |r| && r[i] == t;
        assert Stake(r[i]) == Stake(towers[i]) && towers[i] in towers;
      }
    }
  }

  /** Boosting by id adds the cost once for every tower that carries the id. */
  lemma {:induction false} BoostsHoldings(towers: seq<Tower>, id: nat, b: Boost)
    ensures Holdings(Boosts(towers, id, b)) == Holdings(towers) + Matches(towers, id) as real * Cost(b)
  {
    if towers != [] {
      var r := Boosts(towers, id, b);
      assert r[1..] == Boosts(towers[1..], id, b);
      BoostsHoldings(towers[1..], id, b);
    }
  }

  /** With distinct ids, exactly the found tower carries the id. */
  lemma {:induction false} MatchesFound(towers: seq<Tower>, id: nat)
    requires Game.Distinct(towers)
    ensures Matches(towers, id) == if FindTower(towers, id).Some? then 1 else 0
  {
    if towers != [] {
      var rest := towers[1..];
      if towers[0].id == id {
        forall t | t in rest ensures t.id != id {
          var k :| 0 <= k < |rest| && rest[k] == t;
          assert towers[k + 1] == t;
        }
      }
      MatchesFound(rest, id);
    }
  }

  /** With distinct ids, selling takes exactly the found tower's worth out of the holdings. */
  lemma {:induction false} RemoveHoldings(towers: seq<Tower>, id: nat)
    requires Game.Distinct(towers)
    ensures Holdings(RemoveTower(towers, id)) ==
            Holdings(towers) - if FindTower(towers, id).Some? then FindTower(towers, id).value.towerWorth else 0.0
  {
    if towers != [] {
      var rest := towers[1..];
      RemoveHoldings(rest, id);
      if towers[0].id == id {
        forall t | t in rest ensures t.id != id {
          var k :| 0 <= k < |rest| && rest[k] == t;
          assert towers[k + 1] == t;
        }
        assert RemoveTower(towers, id) == RemoveTower(rest, id);
      } else {
        var r := RemoveTower(towers, id);
        assert r == [towers[0]] + RemoveTower(rest, id);
        assert r[1..] == RemoveTower(rest, id);
      }
    }
  }

  /** Buying keeps money plus worth: the price paid becomes the new tower's worth. */
  lemma BuyingKeepsWealth(s: Board, k: Model, x: real, y: real)
    ensures Wealth(Bought(s, k, x, y)) == Wealth(s)
  {
    HoldingsAppend(s.towers, Erect(k, s.nextId, x, y));
  }

  /**
   * Upgrading keeps money plus worth when the selected tower exists: the cost paid is added to
   * its worth. With no such tower the cost is paid for nothing.
   */
  lemma UpgradingKeepsWealth(s: Board, id: nat, b: Boost)
    requires Game.Distinct(s.towers)
    ensures Wealth(Charged(s, id, b)) ==
            Wealth(s) - if s.money >= Cost(b) && FindTower(s.towers, id).None? then Cost(b) else 0.0
  {
    if s.money >= Cost(b) {
      var r := Charged(s, id, b);
      assert r.money == s.money - Cost(b) && r.towers == Boosts(s.towers, id, b);
      BoostsHoldings(s.towers, id, b);
      MatchesFound(s.towers, id);
    }
  }

  /** Selling a tower forfeits a third of its worth: the refund is two thirds. */
  lemma SellingForfeitsAThird(s: Board, id: nat)
    requires Game.Distinct(s.towers)
    ensures FindTower(s.towers, id).Some? ==>
              Wealth(Sold(s, id)) == Wealth(s) - FindTower(s.towers, id).value.towerWorth / 3.0
    ensures FindTower(s.towers, id).None? ==> Wealth(Sold(s, id)) == Wealth(s)
  {
    RemoveHoldings(s.towers, id);
  }

  /** A placed catalog tower joins the roster and the fleet under the next id. */
  lemma ErectJoins(towers: seq<Tower>, nextId: nat, k: Model, x: real, y: real)
    requires Game.Roster(towers, nextId) && Fleet(towers)
    ensures Game.Roster(towers + [Erect(k, nextId, x, y)], nextId + 1)
    ensures Fleet(towers + [Erect(k, nextId, x, y)])
  {
    Game.AddKeepsRoster(towers, nextId, Erect(k, nextId, x, y));
  }

  /** Boosting keeps the roster and the fleet: levels, ids and targets stay, the caps hold, the worth grows. */
  lemma BoostsKeepFleet(towers: seq<Tower>, nextId: nat, id: nat, b: Boost)
    requires Game.Roster(towers, nextId) && Fleet(towers)
    ensures Game.Roster(Boosts(towers, id, b), nextId) && Fleet(Boosts(towers, id, b))
  {
    var r := Boosts(towers, id, b);
    forall i | 0 <= i < |towers| ensures r[i].id == towers[i].id && Game.Sound(r[i]) && Kept(r[i]) {
      assert towers[i] in towers;
      BoostKeepsBounds(towers[i], b);
    }
    Game.RosterAfter(towers, r, nextId, nextId);
  }

  /** Buying keeps the state sane: the new tower joins under the next id and the price is covered. */
  lemma BoughtKeepsSane(s: Board, k: Model, x: real, y: real)
    requires Sane(s)
    ensures Sane(Bought(s, k, x, y))
  {
    ErectJoins(s.towers, s.nextId, k, x, y);
  }

  /** Upgrading keeps the state sane: the cost is covered and the boosted towers stay kept. */
  lemma ChargedKeepsSane(s: Board, id: nat, b: Boost)
    requires Sane(s)
    ensures Sane(Charged(s, id, b))
  {
    BoostsKeepFleet(s.towers, s.nextId, id, b);
  }

  /** Selling keeps the state sane: the refund is positive and the rest of the roster stays. */
  lemma SoldKeepsSane(s: Board, id: nat)
    requires Sane(s)
    ensures Sane(Sold(s, id))
  {
    Game.RemoveKeepsRoster(s.towers, s.nextId, id);
    var t := FindTower(s.towers, id);
    if t.Some? {
      assert Kept(t.value);
    }
  }

  /** An attack keeps the state sane and never costs money. */
  lemma FiredKeepsSane(s: Board, t: Tower, now: int)
    requires Sane(s) && t.targets.Some? && t.targets.value != []
    ensures Sane(Fired(s, t, now)) && Fired(s, t, now).money >= s.money
  {
    Game.RosterAfter(s.towers, Game.Busy(s.towers, t.id), s.nextId, s.nextId);
    Restaked(s.towers, Game.Busy(s.towers, t.id));
  }

  /** A poison tick keeps the state sane and never costs money. */
  lemma DosedKeepsSane(s: Board, now: int)
    requires Sane(s)
    ensures Sane(Dosed(s, now)) && Dosed(s, now).money >= s.money
  {
    var p := Game.Poisoned(s.towers, s.enemies, now, Gear(s.speedUp));
    Game.RosterAfter(s.towers, p, s.nextId, s.nextId);
    Restaked(s.towers, p);
  }

  class Spawn {
    var enemies: seq<Enemy>
    var towers: seq<Tower>
    var money: real
    var health: real
    var round: nat
    var enemyCount: nat
    var paused: bool
    var canPause: bool
    var speedUp: bool
    var nextId: nat

    /** Every field of the state, as one value. */
    function Snap(): Board
      reads this
    {
      Board(enemies, towers, money, health, round, enemyCount, paused, canPause, speedUp, nextId)
    }

    predicate Valid()
      reads this
    {
      Sane(Snap())
    }

    /** Every field set from the snapshot at once, as the setters of one callback land together. */
    method Commit(s: Board)
      requires Sane(s)
      modifies this
      ensures Valid() && Snap() == s
    {
      enemies, towers, money, health, round := s.enemies, s.towers, s.money, s.health, s.round;
      enemyCount, paused, canPause, speedUp, nextId := s.enemyCount, s.paused, s.canPause, s.speedUp, s.nextId;
    }

    /** A fresh game: the reset values, running, not pausable, at normal speed. */
    constructor ()
      ensures Valid()
      ensures Snap() == Board([], [], 200.0, 100.0, 0, 0, false, false, false, 0)
    {
      enemies, towers, money, health, round, enemyCount := [], [], 200.0, 100.0, 0, 0;
      paused, canPause, speedUp, nextId := false, false, false, 0;
    }

    /** resetGame. */
    method Restart()
      modifies this
      ensures Valid()
      ensures Snap() == Reset(old(Snap()))
    {
      round, enemyCount, health, money, enemies, towers := 0, 0, 100.0, 200.0, [], [];
    }

    /** The game-over effect: health at or below 0 resets the game. */
    method GameOverCheck()
      requires Valid()
      modifies this
      ensures Valid()
      ensures Snap() == if old(health) <= 0.0 then Reset(old(Snap())) else old(Snap())
    {
      if health <= 0.0 {
        Restart();
      }
    }

    /**
     * One tick of the spawn timer, which runs only while a round has started and the game is
     * not paused: past round 40 with the pool empty the game is won and reset; otherwise the
     * wave table appends one enemy at the path's start and advances the counter, until the limit.
     */
    method SpawnTick()
      requires Valid()
      modifies this
      ensures Valid()
      ensures old(paused) || old(round) == 0 ==> Snap() == old(Snap())
      ensures !old(paused) && old(round) > 40 && old(enemies) == [] ==> Snap() == Reset(old(Snap()))
      ensures !old(paused) && 0 < old(round) && (old(round) <= 40 || old(enemies) != []) ==>
                Snap() == match WaveSpawn(old(round), old(enemyCount))
                          case None => old(Snap())
                          case Some(w) => old(Snap()).(enemies := old(enemies) + [Recruit(w.kind, old(nextId))],
                                                       enemyCount := old(enemyCount) + w.step,
                                                       nextId := old(nextId) + 1)
    {
      if paused || round == 0 {
        return;
      }
      if round > 40 && enemies == [] {
        Restart();
        return;
      }
      match WaveSpawn(round, enemyCount) {
        case None =>
        case Some(w) =>
          Game.RosterAfter(towers, towers, nextId, nextId + 1);
          enemies, enemyCount, nextId := enemies + [Recruit(w.kind, nextId)], enemyCount + w.step, nextId + 1;
      }
    }

    /** The round-advance effect: once the round is cleared, pausing is allowed and the advance is scheduled. */
    method RoundEnd()
      modifies this
      ensures Snap() == if !old(paused) && Cleared(|old(enemies)|, old(enemyCount), old(round))
                        then old(Snap()).(canPause := true) else old(Snap())
    {
      if !paused && Cleared(|enemies|, enemyCount, round) {
        canPause := true;
      }
    }

    /**
     * The scheduled advance, which fires only while the effect's inputs are unchanged (any
     * change cancels it): the next round starts with the counter at 0 and pausing disallowed.
     */
    method NextRound()
      modifies this
      ensures Snap() == if !old(paused) && Cleared(|old(enemies)|, old(enemyCount), old(round))
                        then old(Snap()).(round := old(round) + 1, enemyCount := 0, canPause := false)
                        else old(Snap())
      ensures round >= old(round)
    {
      if !paused && Cleared(|enemies|, enemyCount, round) {
        round, enemyCount, canPause := round + 1, 0, false;
      }
    }

    /** The round-change effect: during a round the game may not be paused. */
    method RoundStart()
      modifies this
      ensures Snap() == if old(round) > 0 then old(Snap()).(canPause := false) else old(Snap())
    {
      if round > 0 {
        canPause := false;
      }
    }

    /** The movement timer: while a round runs, moveEnemy advances every enemy and drops the dead. */
    method MoveTick()
      modifies this
      ensures Snap() == if !old(paused) && old(round) > 0 then old(Snap()).(enemies := MarchAll(old(enemies))) else old(Snap())
    {
      if !paused && round > 0 {
        enemies := MarchAll(enemies);
      }
    }

    /** The regeneration timer: while a round runs, regenerating enemies heal without a cap. */
    method RegenTick()
      modifies this
      ensures Snap() == if !old(paused) && old(round) > 0 then old(Snap()).(enemies := RegenerateAll(old(enemies))) else old(Snap())
    {
      if !paused && round > 0 {
        enemies := RegenerateAll(enemies);
      }
    }

    /** damagePlayer after every pool change: escaped enemies cost health and leave the pool. */
    method LeakTick()
      modifies this
      ensures Snap() == old(Snap()).(health := DamagePlayer(old(health), old(enemies)).0,
                                     enemies := DamagePlayer(old(health), old(enemies)).1)
      ensures (forall e :: e in old(enemies) && Escaped(e) ==> e.damage >= 0.0) ==> health <= old(health)
    {
      var r := DamagePlayer(health, enemies);
      if forall e :: e in enemies && Escaped(e) ==> e.damage >= 0.0 {
        Game.LeakNonNegative(enemies);
      }
      health, enemies := r.0, r.1;
    }

    /** The targeting effect: with enemies present, every tower re-selects its targets from the pool. */
    method RetargetTick()
      requires Valid()
      modifies this
      ensures Valid()
      ensures Snap() == if !old(paused) && old(enemies) != []
                        then old(Snap()).(towers := Game.Retargeted(old(towers), old(enemies))) else old(Snap())
    {
      if !paused && enemies != [] {
        var r := Game.Retargeted(towers, enemies);
        Game.RosterAfter(towers, r, nextId, nextId);
        Restaked(towers, r);
        towers := r;
      }
    }

    /**
     * towerAttack, started by the attack effect for a tower that has targets and is not already
     * attacking: the attack lands as `Fired` says. Returns the damage it credited and the ids
     * of its targets, for the cooldown's end.
     */
    method Attack(id: nat, now: int) returns (dealt: real, targetIds: set<nat>)
      requires Valid()
      modifies this
      ensures Valid() && money >= old(money)
      ensures var t := FindTower(old(towers), id);
              old(paused) || t.None? || t.value.targets.None? || t.value.isAttacking ==>
                Snap() == old(Snap()) && dealt == 0.0 && targetIds == {}
      ensures var t := FindTower(old(towers), id);
              !(old(paused) || t.None? || t.value.targets.None? || t.value.isAttacking) ==>
                t.value.targets.value != [] &&
                dealt == Dealt(old(enemies), Barrage(t.value, t.value.targets.value, old(enemies), now)) &&
                targetIds == TargetIds(t.value.targets.value) &&
                Snap() == Fired(old(Snap()), t.value, now)
    {
      var s := Snap();
      var found := FindTower(towers, id);
      if paused || found.None? || found.value.targets.None? || found.value.isAttacking {
        dealt, targetIds := 0.0, {};
        return;
      }
      var t := found.value;
      var targets := t.targets.value;
      assert targets != [] by {
        var i :| 0 <= i < |towers| && towers[i] == t;
      }
      var next, total, kills := StrikeAll(s.enemies, Barrage(t, targets, s.enemies, now));
      dealt, targetIds := total, TargetIds(targets);
      FiredKeepsSane(s, t, now);
      Commit(Fired(s, t, now));
    }

    /**
     * The attack's cooldown timeout. Its pause check reads the flag as it was when the attack
     * started, which was running, so it always lands: the tower is free again, credited with
     * half the damage, and its targets unmarked.
     */
    method FinishAttack(id: nat, dealt: real, targetIds: set<nat>)
      requires Valid()
      modifies this
      ensures Valid()
      ensures Snap() == old(Snap()).(towers := Game.Cooled(old(towers), id, dealt / 2.0),
                                     enemies := Game.Untargeted(old(enemies), targetIds))
    {
      var r := Game.Cooled(towers, id, dealt / 2.0);
      Game.RosterAfter(towers, r, nextId, nextId);
      Restaked(towers, r);
      towers, enemies := r, Game.Untargeted(enemies, targetIds);
    }

    /** The slow timer: unless paused, expired slows end. */
    method SlowTick(now: int)
      modifies this
      ensures Snap() == if old(paused) then old(Snap()) else old(Snap()).(enemies := Thawed(old(enemies), now, old(speedUp)))
    {
      if !paused {
        enemies := Thawed(enemies, now, speedUp);
      }
    }

    /** The poison timer: unless paused, one pass over the pool as `Dosed` says. */
    method PoisonSweep(now: int)
      requires Valid()
      modifies this
      ensures Valid() && money >= old(money)
      ensures Snap() == if old(paused) then old(Snap()) else Dosed(old(Snap()), now)
    {
      if paused {
        return;
      }
      var s := Snap();
      var next, byTower, total, kills := PoisonAll(s.enemies, s.towers, now, Gear(s.speedUp));
      Game.CreditedIsPoisoned(s.towers, byTower, s.enemies, now, Gear(s.speedUp));
      DosedKeepsSane(s, now);
      Commit(s.(enemies := next, towers := Game.Credited(s.towers, byTower),
                money := if total > 0.0 then s.money + total / 7.5 else s.money));
    }

    /** buyTowers on a building site with a tower kind selected. */
    method BuyTower(k: Model, x: real, y: real)
      requires Valid()
      modifies this
      ensures Valid()
      ensures Snap() == Bought(old(Snap()), k, x, y)
    {
      var s := Snap();
      BoughtKeepsSane(s, k, x, y);
      Commit(Bought(s, k, x, y));
    }

    /** One of the upgrade handlers, for the selected tower id. */
    method Upgrade(id: nat, b: Boost)
      requires Valid()
      modifies this
      ensures Valid()
      ensures Snap() == Charged(old(Snap()), id, b)
    {
      var s := Snap();
      ChargedKeepsSane(s, id, b);
      if money >= Cost(b) {
        Commit(s.(money := s.money - Cost(b), towers := Boosts(s.towers, id, b)));
      }
    }

    /** sellTower for the selected tower, called with that tower's worth. */
    method Sell(id: nat)
      requires Valid()
      modifies this
      ensures Valid()
      ensures Snap() == Sold(old(Snap()), id)
      ensures forall i :: 0 <= i < |towers| ==> towers[i].id != id
    {
      var s := Snap();
      SoldKeepsSane(s, id);
      var t := FindTower(s.towers, id);
      if t.Some? {
        Commit(s.(money := s.money + Refund(t.value.towerWorth), towers := RemoveTower(s.towers, id)));
      } else {
        forall i | 0 <= i < |towers| ensures towers[i].id != id {
          assert towers[i] in towers;
        }
      }
    }

    /** changeTowerTargetting for the selected tower. */
    method CycleTargeting(id: nat)
      requires Valid()
      modifies this
      ensures Valid()
      ensures Snap() == old(Snap()).(towers := Game.Cycled(old(towers), id))
    {
      var r := Game.Cycled(towers, id);
      Game.RosterAfter(towers, r, nextId, nextId);
      Restaked(towers, r);
      towers := r;
    }
  }
}
