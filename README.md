# Tower-defense engine — a Dafny model

This project models the game engine of a browser tower-defense game. Two React components hold it:

- `app/GameLogic.tsx`, the current engine:
  - fifty rounds;
  - seven tower types with two-path upgrades;
  - explosion, chain and lingering attacks;
  - critical hits, stuns, slows and poison;
  - kill rewards paid once per enemy.
- `app/Spawn.tsx`, the older engine:
  - forty rounds;
  - a fixed menu of eight upgrades;
  - a reward per attack instead of per kill.

The model covers each engine's state and what its timers, effects and menu actions do to that state.

## How the model is built

**State.** Each engine's state is a class whose fields are the component's React state:

- `Game.GameState` for `GameLogic.tsx`; `Legacy.Spawn` for `Spawn.tsx`.
- Fields: the enemy pool, the tower pool, the lingering zones, money, health, round, the spawn counter, the set of kills already paid, and the pause and speed controls.
- Every timer callback, effect and menu handler is a method.
- Each method states its whole new state as a function of the old one, through `Snap()`.
- Each class keeps an invariant. The towers' ids are distinct and already handed out. Their upgrade levels follow the two-path rules. For the older engine, every tower also stays within its stat caps and its worth stays positive.

**Pure pieces.** The rest is written as functions over values:

- the per-enemy effect of an attack, a poison tick or a lingering zone is a function `Enemy -> Hit`;
- the catalogues, the targeting rules and the wave tables are functions too.

**Accumulating loops.** The loops that add up damage and rewards are methods proved against those functions: `Combat.StrikeAll`, `StatusEffects.PoisonAll`, `Game.PayKills` and `Combat.ChainWalk`.

**Representations.**

- Numbers are `real`. `Math.floor` is `.Floor`.
- JavaScript's `x || d`, `x ?? d` and `if (x)` on optional numbers are written out as helper functions.
- Distances compare squared lengths, which is exact for the `Math.sqrt` test.
- Enemy and tower ids (uuids in the source) come from a counter.
- `Date.now()` and the `Math.random()` draws are parameters:
  - the critical-hit draw, a real compared with the critical chance;
  - one stun draw per enemy id, a function from ids to reals.

  For draws in [0, 1), as `Math.random()` returns them, a chance that is unset never wins and a chance of 1 always wins.

**Where the code and its design notes disagree, the model follows the code:**

- A chain attack jumps to the first enemy in range in pool order, not the nearest.
- `towerAttack` is memoised on the pause flag and the speed only. It therefore sees the round of the render in which one of those last changed, not the live round. That captured round (`attackRound`) sets both the slow floor and the kill reward of an attack. The other timers pay at the live round.
- A slow or stun whose source tower has been sold stays on the enemy forever.
- Selling pays `towerWorth / 1.5`, which is not floored.
- Only the explosion strips an enemy's armour.
- An explosion leaves a lingering zone only when `hasLingering` is set, which no upgrade sets.
- In `Spawn.tsx`:
  - The per-attack fee is guarded by `tower.type !== "explosion"`. That guard compares the type, not the attack type, so it is always true and the mortar collects it too.
  - The sell button's label promises 75% of the worth, but selling pays two thirds.

## Model

| member | source | states |
|---|---|---|
| Entities.StatsOf | app/GameLogic.tsx:174-366 | every enemy archetype has positive health, speed and damage; it regenerates exactly when its regeneration rate is positive; only the spawner breeds |
| Entities.NewEnemy | app/GameLogic.tsx:569-582 | a new enemy has its archetype's health as both health and maximum, its base speed, no status effect and no targeting mark, and stands at the given point or else at the path's start |
| Entities.NewTower | app/GameLogic.tsx:553-566 | a new tower stands where it was placed with no damage done, no targets, "first" targeting and no upgrades; its worth equals its positive price and its attack and interval lie within their caps |
| WaveDirector.EnemyLimit | app/GameLogic.tsx:591-600 | 10 enemies per round up to round 26, 15 per round for rounds 27-30, and 15/2 per round rounded up after that |
| WaveDirector.WaveSpawn | app/GameLogic.tsx:604-741 | a started round spawns exactly while the counter is under its limit (a fixed 320 in round 32) and only in rounds 1-50; every spawn advances the counter; rounds 1-9 except 5 spawn basic enemies one at a time |
| WaveDirector.SpawningStopsAtLimit | app/GameLogic.tsx:753-757 | once a round stops spawning, an empty pool lets it advance, so no round deadlocks |
| WaveDirector.UnitWaveSize | app/GameLogic.tsx:620-734 | in every round whose spawns count one each, the wave has exactly limit − counter enemies |
| WaveDirector.BossRoundSize | app/GameLogic.tsx:685-690 | round 32 sends exactly four bosses although its enemy limit is 240 |
| Movement.Step | app/GameLogic.tsx:848-872 | a zero speed leaves an enemy in place; a positive one moves it, never backwards in x |
| Movement.MoveEnemy | app/GameLogic.tsx:848-872 | moving changes only an enemy's position, by `Step` at its current speed |
| Movement.Moved | app/GameLogic.tsx:848-872 | every enemy of the pool is moved, in order |
| Movement.Living | app/GameLogic.tsx:848-872 | exactly the enemies with positive health are kept |
| Movement.MoveAll | app/GameLogic.tsx:848-872 | the movement tick keeps only living enemies |
| Movement.MoveAllMovesTheLiving | app/GameLogic.tsx:848-872 | the movement tick is the living enemies, each moved |
| Movement.DamagePlayer | app/GameLogic.tsx:1550-1560 | the pool keeps exactly the enemies that have not escaped; health drops by the summed damage of those that escaped |
| Movement.Without | app/GameLogic.tsx:1550-1557 | exactly the enemies whose id is not removed stay |
| Movement.NoLeakNoDamage | app/GameLogic.tsx:1550-1557 | with no enemy past the exit, the player loses nothing |
| Movement.DamagePlayerOnce | app/GameLogic.tsx:1550-1560 | charging a second time changes nothing: an escaped enemy costs health once |
| Movement.Regenerate | app/GameLogic.tsx:882-894 | regeneration changes only health, never lowers it, and raises it exactly for a regenerating enemy with a positive rate |
| Movement.RegenerateAll | app/GameLogic.tsx:882-894 | every enemy of the pool regenerates, in order |
| Movement.RegenerationExceedsMaxHp | app/GameLogic.tsx:888 | regeneration has no cap: a fresh regenerating tank goes above its maximum health |
| Targeting.Candidates | app/GameLogic.tsx:1339-1367 | exactly the pool's living enemies in range that the tower may see: a tower with stealth detection sees all of them; any other skips stealthy enemies, and a gas spitter also skips poisoned ones and a slower slowed ones |
| Targeting.SortDesc | app/GameLogic.tsx:1404-1412 | the sort is a permutation ordered by descending health ("highestHp") or path progress ("first") |
| Targeting.Reverse | app/GameLogic.tsx:1407-1408 | "last" targeting reverses the candidates: a permutation with position k taken from the end |
| Targeting.NothingEligible | app/GameLogic.tsx:1369-1371 | with no candidates, no enemy of the pool is eligible |
| Targeting.OrderedFacts | app/GameLogic.tsx:1373-1412 | the ordered list holds exactly the eligible enemies, sorted by the mode's key unless the mode is "last" |
| Targeting.FurthestEnemies | app/GameLogic.tsx:1329-1424 | no target exactly when no enemy is eligible; otherwise the attack type's count of targets, or all candidates if fewer |
| Targeting.FurthestAreEligible | app/GameLogic.tsx:1339-1367 | every chosen target is an eligible enemy of the pool |
| Targeting.FurthestAreFurthest | app/GameLogic.tsx:1404-1424 | under "first" or "highestHp" the targets are sorted, and no eligible enemy left out ranks above one chosen |
| Targeting.LastTakesTheNewest | app/GameLogic.tsx:1407-1408 | under "last" the targets are the most recently spawned candidates, newest first |
| Combat.Multiplier | app/GameLogic.tsx:939-942 | the damage multiplier is the critical multiplier (1 if unset) exactly when the tower has critical hits, a truthy chance and a draw below that chance, and 1 otherwise |
| Combat.RollOdds | app/GameLogic.tsx:1199 | for draws in [0, 1), an unset or non-positive chance never yields a critical hit or a stun, and a chance of 1 or more always does for a tower with the critical or stun ability |
| Combat.ApplySlow | app/GameLogic.tsx:1210-1230 | an applicable slow marks the enemy slowed by this tower now, with speed zero if stunned and otherwise at least base speed × slow factor; otherwise nothing changes |
| Combat.WeakerSlowDoesNotOverride | app/GameLogic.tsx:1210-1230 | a second slow that is no stronger leaves a slowed enemy as it was |
| Combat.DirectEffects | app/GameLogic.tsx:1196-1241 | a gas spitter poisons its target and may stop its regeneration; a tower that can stun stuns it to speed zero exactly when the enemy's draw is below criticalChance (0 if unset), and otherwise leaves its stun as it was; position, health and armour are untouched |
| Combat.DirectHit | app/GameLogic.tsx:1187-1273 | a targeted enemy takes min(attack × multiplier, health) and is marked targeted; armour the tower cannot pierce keeps its health; it is stunned to speed zero exactly when the tower can stun and its draw is below criticalChance (0 if unset), and otherwise keeps its stun state; an untargeted enemy is untouched |
| Combat.BlastIds | app/GameLogic.tsx:948-954 | the blast takes every other living enemy within the explosion radius of the primary target, and never the primary |
| Combat.BlastEffects | app/GameLogic.tsx:1036-1060 | a stunning mortar stuns everything it blasts; nothing else about position or health changes |
| Combat.Detonate | app/GameLogic.tsx:983-1067 | an enemy caught in the blast loses min(damage, health); it dies exactly when its health reaches zero and it is not protected by armour; the explosion strips armour from a tower that can pierce it |
| Combat.BlastDamage | app/GameLogic.tsx:988-991 | the primary target takes attack × multiplier and splashed enemies a quarter of it |
| Combat.ExplosionHit | app/GameLogic.tsx:983-1067 | an enemy outside the blast is untouched; one inside is detonated with its blast damage; health falls by exactly the damage dealt |
| Combat.ChainHit | app/GameLogic.tsx:1140-1160 | a chained enemy loses min(attack × multiplier, health) and is marked targeted; the chain never kills |
| Combat.ImpactHit | app/GameLogic.tsx:1176-1185 | a lingering tower's target loses min(attack × multiplier, health), but the impact is credited as no damage and no kill |
| Combat.Struck | app/GameLogic.tsx:983-1069 | the pool after an attack is every enemy mapped through the attack, in order |
| Combat.Killed | app/GameLogic.tsx:1022-1034 | the kills are exactly the enemies the attack kills |
| Combat.StrikeAll | app/GameLogic.tsx:983-1069 | the accumulating loop returns the struck pool, the total damage and the kills its specification functions give |
| Combat.ExplosionConservesDamage | app/GameLogic.tsx:983-1069 | the damage an explosion credits equals the health the pool lost |
| Combat.ChainConservesDamage | app/GameLogic.tsx:1140-1162 | the damage a chain credits equals the health the pool lost |
| Combat.DirectConservesDamage | app/GameLogic.tsx:1187-1273 | when no target is armoured against the tower, a direct attack credits exactly the health the pool lost |
| Combat.NextLink | app/GameLogic.tsx:1099-1105 | the next link is a pool enemy that is alive, not yet chained and in chain range of the current one; none exactly when no such enemy exists |
| Combat.NextLinkIsFirst | app/GameLogic.tsx:1099-1105 | the link `find` returns is the first linkable enemy in pool order: no enemy before it is linkable |
| Combat.ExtendChain | app/GameLogic.tsx:1098-1124 | adding a linkable enemy keeps the chain's shape and adds its id to the chained set |
| Combat.ChainFromGrows | app/GameLogic.tsx:1098-1124 | the chain grown from a walk extends it by at most the links left minus one, and by none when fewer than one is left |
| Combat.ChainFromShape | app/GameLogic.tsx:1098-1124 | growing a chain keeps it free of repeats, with each link alive, in the pool and in range of the one before |
| Combat.ChainWalk | app/GameLogic.tsx:1082-1124 | the loop builds exactly `ChainFrom`'s chain: from the primary target, while more than one link is left, the first linkable enemy in pool order joins. So the walk starts at the primary, has at most chainCount links (1 if unset), keeps the chain's shape, and stops short of its budget only when no enemy is in reach of its last link |
| Combat.ZoneAt | app/GameLogic.tsx:969-980 | a lingering zone sits on the target now, with the tower's lingering damage (else 10% of attack), radius and duration (else 2000 ms) |
| Combat.Explode | app/GameLogic.tsx:944-1069 | the explosion's outcome is the struck pool, the credited damage (equal to the health lost), its kills, and a zone exactly when the tower lingers |
| Combat.ChainStrike | app/GameLogic.tsx:1070-1162 | the chain's outcome walks exactly `ChainOf`'s chain (chainCount or 1 links, chainRange or 15), within the link budget and stopping early only when no enemy is in reach; it credits exactly the health lost, kills nothing and leaves no zone |
| Combat.Volley | app/GameLogic.tsx:1187-1273 | a direct attack's outcome is the struck pool, damage and kills of its per-enemy hit |
| Combat.Resolve | app/GameLogic.tsx:936-1277 | an attack resolves by attack type, with the critical multiplier applied: an explosion; a chain that walks exactly `ChainOf`'s links and stops early only when no enemy is in reach; a lingering impact that leaves a zone (radius 10 by default) and credits nothing; or a direct volley, with its slow floor taken from the given round and a stun for each target whose draw wins |
| Combat.NoChainKills | app/GameLogic.tsx:1140-1160 | a chain attack never reports a kill, so a chained enemy brought to zero health is paid only by the dead sweep |
| StatusEffects.SpeedFactor | app/GameLogic.tsx:1580 | the speed setting divides every duration by at least 1 |
| StatusEffects.FindTower | app/GameLogic.tsx:1575 | `tower.find` returns a pool tower with that id, and nothing exactly when no tower has it |
| StatusEffects.ExpireSlow | app/GameLogic.tsx:1561-1600 | an expired slow is cleared and the enemy returns to base speed (it stays at zero if stunned); an unexpired slow changes nothing |
| StatusEffects.ExpireSlowSettles | app/GameLogic.tsx:1561-1600 | once a slow has expired, a later check changes nothing more |
| StatusEffects.OrphanSlowPersists | app/GameLogic.tsx:1575-1577 | a slow whose source tower is gone never expires |
| StatusEffects.ExpireStun | app/GameLogic.tsx:1601-1641 | an expired stun is cleared and speed returns to the slowed or base speed; an unexpired stun changes nothing |
| StatusEffects.ExpireStunSettles | app/GameLogic.tsx:1601-1641 | once a stun has expired, a later check changes nothing more |
| StatusEffects.PoisonPerTick | app/GameLogic.tsx:1706-1732 | at normal and double speed a tick deals 1/100 of the tower's poison damage |
| StatusEffects.ApplyDose | app/GameLogic.tsx:1732-1760 | a dose deals min(per-tick damage, health), lowers health by that, and kills exactly when it brings a living enemy to zero |
| StatusEffects.PoisonTick | app/GameLogic.tsx:1716-1761 | an expired poison is cured without damage; a live poison from an existing tower is dosed; anything else is untouched; health falls by exactly the dose |
| StatusEffects.PoisonAll | app/GameLogic.tsx:1713-1772 | the poison loop returns the dosed pool, the kills, the per-tower damage tally and its total |
| StatusEffects.PoisonConservesDamage | app/GameLogic.tsx:1713-1772 | the poison damage credited equals the health the pool lost |
| StatusEffects.ZoneDamageBounds | app/GameLogic.tsx:1659-1670 | the summed zone damage on an enemy is never negative, and is zero when no zone covers it |
| StatusEffects.LingerHit | app/GameLogic.tsx:1656-1698 | an enemy covered by zones loses their summed damage (floored at zero) and dies exactly when that takes it to zero; the zones credit no damage |
| StatusEffects.LiveZones | app/GameLogic.tsx:1650-1653 | exactly the zones younger than their duration survive |
| Economy.RoundFactor | app/GameLogic.tsx:3171-3174 | the reward factor lies in (0, 1] and is 1 exactly up to round 22 |
| Economy.KillReward | app/GameLogic.tsx:3171-3174 | a kill pays floor(maxHp / 6.5 × factor), which is never negative |
| Economy.LaterRoundsPayLess | app/GameLogic.tsx:3171-3174 | the same enemy never pays more in a later round |
| Economy.Payout | app/GameLogic.tsx:3168-3177 | after paying, the processed set holds the old ids and every id killed |
| Economy.ProcessedPayNothing | app/GameLogic.tsx:3169 | kills that were all processed already pay nothing |
| Economy.PayoutAppend | app/GameLogic.tsx:3168-3177 | paying two batches in turn is paying them together |
| Economy.PayoutOne | app/GameLogic.tsx:3168-3177 | one kill pays its reward exactly when its id is new, and adds its id |
| Economy.PayoutOncePerId | app/GameLogic.tsx:3168-3177 | reporting the same kills twice pays them once |
| Economy.Buy | app/GameLogic.tsx:1786-1790 | a purchase goes through exactly when the money covers the price, and leaves money − price ≥ 0 |
| Economy.Refund | app/GameLogic.tsx:2047 | selling pays worth / 1.5, less than three quarters of a positive worth |
| Economy.RemoveTower | app/GameLogic.tsx:2048 | exactly the towers with another id remain |
| Economy.NextTargeting | app/GameLogic.tsx:2027-2039 | the targeting mode always changes, and goes back to "first" exactly from "last" |
| Economy.TargetingCycles | app/GameLogic.tsx:2027-2039 | three presses return to the starting mode and two do not |
| Upgrades.Ladder | app/GameLogic.tsx:2129-3130 | a catalogue list is five path-1 tiers then five path-2 tiers, each keeping its name, cost and effect |
| Upgrades.Retuned | app/GameLogic.tsx:1987-2018 | the numeric part of an effect leaves identity, position, state and levels alone and adds the effect's worth |
| Upgrades.Equipped | app/GameLogic.tsx:1987-2018 | the capability part of an effect leaves identity, state, levels and worth alone |
| Upgrades.Lingers | app/GameLogic.tsx:1987-2018 | the lingering part of an effect leaves identity, state, levels and worth alone |
| Upgrades.Effect | app/GameLogic.tsx:2001-2003 | a whole effect leaves identity, position, state and levels alone and adds its worth to the tower's |
| Upgrades.Catalog | app/GameLogic.tsx:2129-3130 | every tower type's list has the five-plus-five tier shape |
| Upgrades.Filter | app/GameLogic.tsx:1803-1825 | exactly the listed upgrades the path rules offer are kept |
| Upgrades.Available | app/GameLogic.tsx:1803-1825 | the menu lists exactly the type's catalogue entries that the path rules offer, and nothing for an unknown type |
| Upgrades.Upgraded | app/GameLogic.tsx:1987-2018 | the upgrade's path gains a level, the chosen path is fixed the first time a level reaches 3, and the tower keeps its id, position, busy flag, targets and damage done |
| Upgrades.NewTowerTiers | app/GameLogic.tsx:553-566 | a new tower satisfies the path-level rules |
| Upgrades.OfferedKeepsTiers | app/GameLogic.tsx:1803-2018 | buying an offered upgrade keeps the path-level rules |
| Upgrades.UpgradeKeepsTiers | app/GameLogic.tsx:1803-2018 | buying any upgrade the menu lists keeps the path-level rules |
| Upgrades.FreshOffers | app/GameLogic.tsx:1823-1824 | a tower with no upgrades is offered exactly the first tier of each path |
| Upgrades.FreshTowerOffers | app/GameLogic.tsx:1803-1825 | the menu of a new tower holds exactly its catalogue's two first tiers |
| Upgrades.ChosenPathLocksTheOther | app/GameLogic.tsx:1806-1813 | once path 1 reaches level 3, path 2 can reach at most level 2 |
| Upgrades.UnderCreditedUpgrades | app/GameLogic.tsx:2636-2980 | "Frost Touch 2" costs 1200 and adds only 600 to the worth; "Strategic Command" costs 25000 and adds 20000 |
| Game.Restarted | app/GameLogic.tsx:532-550 | a reset empties both pools, zeroes round and counter, restores 200 money and 100 health, and keeps zones, processed kills, controls and the id counter |
| Game.RemoveKeepsRoster | app/GameLogic.tsx:2048 | removing a tower keeps the tower invariant |
| Game.FoundIsUnique | app/GameLogic.tsx:1800 | with distinct ids, `find` returns the one tower with that id |
| Game.Litter | app/GameLogic.tsx:1022-1032 | a dead spawner leaves SpeedyMegaTanks with consecutive fresh ids at its position |
| Game.Spawners | app/GameLogic.tsx:1022-1032 | the count of breeding kills is zero exactly when none of them breeds |
| Game.Brood | app/GameLogic.tsx:1022-1032 | the kills leave five SpeedyMegaTanks per spawner, with consecutive fresh ids |
| Game.BroodAt | app/GameLogic.tsx:1022-1032 | each child stands where a killed spawner stood |
| Game.Retargeted | app/GameLogic.tsx:1428-1448 | every tower's targets are recomputed from the pool; nothing else about it changes |
| Game.Busy | app/GameLogic.tsx:897-903 | only the attacking tower is marked busy |
| Game.Cooled | app/GameLogic.tsx:1298-1306 | only the attacking tower is freed and credited with the damage dealt |
| Game.Untargeted | app/GameLogic.tsx:1308-1315 | only the attack's targets lose their targeting mark |
| Game.Credited | app/GameLogic.tsx:1763-1769 | each tower's damage counter gains its entry of the poison tally (0 if absent) |
| Game.SlowSwept | app/GameLogic.tsx:1561-1600 | every enemy goes through the slow-expiry check |
| Game.StunSwept | app/GameLogic.tsx:1601-1641 | every enemy goes through the stun-expiry check |
| Game.Fallen | app/GameLogic.tsx:3180-3193 | the dead sweep sees exactly the enemies with no health left |
| Game.Improved | app/GameLogic.tsx:1990-2018 | only the upgraded tower changes, as `Upgraded` says |
| Game.Cycled | app/GameLogic.tsx:2027-2039 | only the selected tower's targeting mode advances |
| Game.SpeedKeys | app/GameLogic.tsx:812-826 | keys 1 and 2 select double speed and key 3 triple speed |
| Game.Poisoned | app/GameLogic.tsx:1763-1769 | each tower is credited with the poison damage it dealt in this tick |
| Game.CreditedIsPoisoned | app/GameLogic.tsx:1714-1769 | crediting the loop's tally is crediting each tower's own doses |
| Game.PayKills | app/GameLogic.tsx:3168-3177 | paying kills one by one adds the batch's payout and records the batch's ids |
| Game.StaleRoundPays | app/GameLogic.tsx:3168-3177 | a first kill of a 6500-health enemy in an attack whose callback was built before round 23 pays 1000, although the live rate from round 33 would pay 55 |
| Game.LandedKeepsRoster | app/GameLogic.tsx:896-1277 | an attack keeps the tower invariant |
| Game.PoisoningKeepsRoster | app/GameLogic.tsx:1703-1776 | a poison tick keeps the tower invariant |
| Game.AddKeepsRoster | app/GameLogic.tsx:1789-1790 | a new tower with the next id keeps the tower invariant |
| Game.ImprovedKeepsRoster | app/GameLogic.tsx:1987-2018 | an upgrade the menu offers keeps the tower invariant |
| Game.LeakNonNegative | app/GameLogic.tsx:1550-1557 | when escaped enemies do non-negative damage, the total leak is non-negative |
| Game.GameState.Commit | app/GameLogic.tsx:896-1277 | the state is set from one snapshot, as the setters of one callback land together; the invariant holds |
| Game.GameState.constructor | app/GameLogic.tsx:122-171 | the game starts with empty pools, no zones, no processed kills and round 0, running at normal speed, with the 200 money and 100 health that resetGame restores; towerAttack is built in round 0 |
| Game.GameState.Restart | app/GameLogic.tsx:532-550 | the state becomes the reset state |
| Game.GameState.SpawnTick | app/GameLogic.tsx:601-750 | paused: nothing; past round 50 with an empty pool: reset; round 0: the pool is emptied; otherwise the wave table's enemy is appended with a fresh id and the counter advances by its step |
| Game.GameState.MoveTick | app/GameLogic.tsx:848-880 | a running, started game moves its living enemies and drops the dead |
| Game.GameState.LeakTick | app/GameLogic.tsx:1550-1560 | escaped enemies leave the pool and their damage comes off health, which never rises |
| Game.GameState.GameOverCheck | app/GameLogic.tsx:583-588 | no health left resets the game; otherwise nothing changes |
| Game.GameState.RegenTick | app/GameLogic.tsx:882-894 | a running, started game regenerates every enemy |
| Game.GameState.RetargetTick | app/GameLogic.tsx:1428-1448 | a running game with enemies recomputes every tower's targets |
| Game.GameState.Attack | app/GameLogic.tsx:896-1326 | paused, unknown, targetless or busy: nothing; otherwise the attack resolves with the slow floor of the round towerAttack captured, the tower is busy, the pool struck, a zone added, kills paid once at the captured round's rate, and spawner broods added |
| Game.GameState.FinishAttack | app/GameLogic.tsx:1285-1321 | the cooldown frees the tower, credits it the damage and unmarks its targets |
| Game.GameState.SlowTick | app/GameLogic.tsx:1561-1600 | a running game expires slows |
| Game.GameState.StunTick | app/GameLogic.tsx:1601-1641 | a running game expires stuns |
| Game.GameState.PoisonSweep | app/GameLogic.tsx:1703-1776 | a running game doses every poisoned enemy, credits each tower, pays kills and adds broods to the pool and the counter |
| Game.GameState.LingerSweep | app/GameLogic.tsx:1642-1702 | a running game drops expired zones, damages enemies by the zones and pays kills |
| Game.GameState.DeadSweep | app/GameLogic.tsx:3180-3193 | every dead enemy not yet paid is paid once and recorded |
| Game.GameState.ClearProcessed | app/GameLogic.tsx:3161-3166 | a finished round forgets the processed kills |
| Game.GameState.RoundEnd | app/GameLogic.tsx:753-772 | a cleared, running round either advances (automatic rounds) or pauses with pausing allowed, which rebuilds towerAttack in the cleared round; otherwise nothing |
| Game.GameState.RoundStart | app/GameLogic.tsx:775-785 | a started round allows pausing exactly when rounds are manual |
| Game.GameState.TogglePause | app/GameLogic.tsx:788-811 | Space flips pause, resets the speed and rebuilds towerAttack in the current round when pausing is allowed; resuming a cleared manual round then advances the round, which the rebuilt callback does not see |
| Game.GameState.SetSpeed | app/GameLogic.tsx:812-826 | a digit key sets the speed while running; a speed that changes rebuilds towerAttack in the current round, and anything else changes nothing |
| Game.GameState.BuyTower | app/GameLogic.tsx:1778-1796 | enough money buys a new tower with the next id at its price; otherwise nothing |
| Game.GameState.SellTower | app/GameLogic.tsx:2041-2057 | a confirmed sale of a known tower refunds worth / 1.5 and removes it, so no tower with that id remains |
| Game.GameState.UpgradeTower | app/GameLogic.tsx:1987-2026 | enough money pays the cost and upgrades the tower; otherwise nothing |
| Game.GameState.CycleTargeting | app/GameLogic.tsx:2027-2039 | the selected tower's targeting mode advances |
| LegacyCatalog.BreedStats | app/Spawn.tsx:116-220 | every archetype has positive health, speed and damage, regenerates exactly when its rate is positive, and none is armoured or breeds |
| LegacyCatalog.Recruit | app/Spawn.tsx:393-401 | a new enemy stands at the path's start with its archetype's health, speed and damage, untargeted, unslowed and unpoisoned |
| LegacyCatalog.Erect | app/Spawn.tsx:381-390 | a new tower stands where it was placed with no damage, no targets, "first" targeting, worth equal to its price, and its stats within their caps |
| LegacyWaves.SpawnLimit | app/Spawn.tsx:421-481 | a round spawns up to 10 per round through round 22 and in round 32, and 15 per round otherwise |
| LegacyWaves.SpawnStep | app/Spawn.tsx:421-481 | every spawn advances the counter by at least one |
| LegacyWaves.WaveSpawn | app/Spawn.tsx:414-487 | rounds 1-40 spawn exactly while the counter is under the limit, with the round's composition and step |
| LegacyWaves.SpawningStopsWhenClearable | app/Spawn.tsx:500-514 | once a round stops spawning, an empty pool lets it advance |
| LegacyWaves.ClearableBeforeWaveEnds | app/Spawn.tsx:500-514 | from round 23 (except 32) a round can advance with a third of its wave still unspawned |
| LegacyWaves.WaveSizeFills | app/Spawn.tsx:421-481 | when the step divides what is left of the limit, the wave has exactly that many spawns |
| LegacyWaves.BossRounds | app/Spawn.tsx:466-482 | round 32 sends 4 bosses, round 40 sends 15, and each of rounds 33-39 sends 5 per round |
| LegacyWaves.PlainRounds | app/Spawn.tsx:421-465 | rounds 1-31 send exactly their limit |
| LegacyCombat.Segment | app/Spawn.tsx:855-886 | every point lies on one of the path's seven segments |
| LegacyCombat.PathStep | app/Spawn.tsx:855-886 | a zero speed stays put; a positive one moves, never backwards in x |
| LegacyCombat.March | app/Spawn.tsx:855-886 | marching changes only position, by `PathStep` |
| LegacyCombat.MarchAdvances | app/Spawn.tsx:855-886 | a moving enemy that stays on its segment gains path progress |
| LegacyCombat.Marched | app/Spawn.tsx:855-886 | every enemy of the pool marches, in order |
| LegacyCombat.MarchAll | app/Spawn.tsx:855-886 | the movement tick keeps only living enemies |
| LegacyCombat.MarchAllMovesTheLiving | app/Spawn.tsx:855-886 | the movement tick is the living enemies, each marched |
| LegacyCombat.Shell | app/Spawn.tsx:557-611 | the primary target loses the full attack, unclamped, and is credited min(attack, health) floored at 0; splashed enemies lose attack/2, unclamped, and are credited min(attack/2, health); the shell never kills |
| LegacyCombat.Shot | app/Spawn.tsx:612-648 | a target loses min(attack, health) and is marked targeted; a slower slows it and a gas spitter poisons it; nothing dies here |
| LegacyCombat.AttackPay | app/Spawn.tsx:610-655 | every attack pays floor(attack / 10) (the explosion guard never holds), and an explosion adds its damage / 12.5 |
| LegacyCombat.ShellCreditsAtMostLost | app/Spawn.tsx:583-611 | the mortar never credits more damage than the pool lost |
| LegacyCombat.ShotConservesDamage | app/Spawn.tsx:612-648 | a direct attack credits exactly the health the pool lost |
| LegacyCombat.Thaw | app/Spawn.tsx:899-931 | an expired slow is cleared and speed reset to base; anything else is untouched |
| LegacyCombat.ThawSettles | app/Spawn.tsx:899-931 | once thawed, a later check changes nothing more |
| LegacyCombat.Thawed | app/Spawn.tsx:899-931 | every enemy goes through the thaw check |
| LegacyCombat.Gear | app/Spawn.tsx:932-994 | the boolean speed-up doubles the speed factor |
| LegacyCombat.PoisonDoseIsSpeedIndependent | app/Spawn.tsx:932-994 | at either speed a poison lasts 400 ticks of poisonDamage / 100, four times the tower's poison damage in all |
| LegacyUpgrades.Cost | app/Spawn.tsx:1280-1386 | every handler costs at least 300 |
| LegacyUpgrades.Specialised | app/Spawn.tsx:1385-1455 | the special upgrade marks every known type as upgraded and keeps identity, levels, worth and stealth detection |
| LegacyUpgrades.Boosted | app/Spawn.tsx:1280-1455 | every handler keeps identity, targets and levels and adds its cost to the worth |
| LegacyUpgrades.SpecialKeepsBounds | app/Spawn.tsx:1385-1455 | the special upgrade scales stats with their caps, so the caps still hold |
| LegacyUpgrades.BoostKeepsBounds | app/Spawn.tsx:1280-1455 | every handler keeps the tower within its caps |
| LegacyUpgrades.FreshTowerHasNoSpecial | app/Spawn.tsx:1506-1528 | no new tower qualifies for the special upgrade |
| LegacyUpgrades.ApplyAccounts | app/Spawn.tsx:1280-1455 | a sequence of handlers adds exactly their summed costs to the worth and keeps the caps |
| LegacyUpgrades.DamageBoosts | app/Spawn.tsx:1280-1290 | n damage upgrades raise attack by n fifths of the maximum, capped at the maximum, for 300 each |
| LegacyUpgrades.IntervalBoosts | app/Spawn.tsx:1291-1300 | n interval upgrades lower the interval by n fifths of its range, floored at the minimum, for 300 each |
| LegacyUpgrades.PoisonBoosts | app/Spawn.tsx:1341-1351 | n poison upgrades add 20 each up to the maximum, for 500 each |
| LegacyUpgrades.CatalogMaxes | app/Spawn.tsx:221-356 | every tower type reaches its maximum damage within its planned number of damage upgrades |
| LegacyUpgrades.FinishUnlocks | app/Spawn.tsx:1506-1528 | a tower at its caps that buys its type's finishing upgrades qualifies for and is offered the special upgrade |
| LegacyUpgrades.SpecialIsReachable | app/Spawn.tsx:1506-1528 | every tower type can reach the special upgrade by buying menu upgrades |
| LegacyUpgrades.SellPaysLessThanLabel | app/Spawn.tsx:1169-1171 | for any worth of at least 12, selling pays less than the button's label |
| Legacy.Reset | app/Spawn.tsx:360-378 | a reset empties both pools, zeroes round and counter, restores 200 money and 100 health and keeps the controls |
| Legacy.Boosts | app/Spawn.tsx:1283-1286 | only towers with the selected id are changed by the handler |
| Legacy.BoostsHoldings | app/Spawn.tsx:1280-1351 | an upgrade adds its cost to the towers' worth once for each tower with the id |
| Legacy.RemoveHoldings | app/Spawn.tsx:1354-1356 | removing a tower takes exactly its worth off the towers' total |
| Legacy.BuyingKeepsWealth | app/Spawn.tsx:996-1012 | buying turns money into tower worth: money plus worth is unchanged |
| Legacy.UpgradingKeepsWealth | app/Spawn.tsx:1280-1351 | an upgrade keeps money plus worth, except that one paid for a tower that no longer exists is lost |
| Legacy.SellingForfeitsAThird | app/Spawn.tsx:1352-1365 | selling loses a third of the tower's worth; an unknown id loses nothing |
| Legacy.ErectJoins | app/Spawn.tsx:996-1012 | a new tower with the next id keeps the tower invariant |
| Legacy.BoostsKeepFleet | app/Spawn.tsx:1280-1455 | upgrading keeps the tower invariant |
| Legacy.BoughtKeepsSane | app/Spawn.tsx:996-1012 | buying keeps the invariant and non-negative money |
| Legacy.ChargedKeepsSane | app/Spawn.tsx:1280-1455 | upgrading keeps the invariant and non-negative money |
| Legacy.SoldKeepsSane | app/Spawn.tsx:1352-1365 | selling keeps the invariant and non-negative money |
| Legacy.FiredKeepsSane | app/Spawn.tsx:545-668 | an attack keeps the invariant and never lowers money |
| Legacy.DosedKeepsSane | app/Spawn.tsx:932-994 | a poison tick keeps the invariant and never lowers money |
| Legacy.Spawn.Commit | app/Spawn.tsx:545-668 | the state is set from one snapshot that keeps the invariant |
| Legacy.Spawn.constructor | app/Spawn.tsx:75-101 | the game starts with empty pools and round 0, running, with the 200 money and 100 health that resetGame restores |
| Legacy.Spawn.Restart | app/Spawn.tsx:360-378 | the state becomes the reset state |
| Legacy.Spawn.GameOverCheck | app/Spawn.tsx:403-408 | no health left resets the game; otherwise nothing changes |
| Legacy.Spawn.SpawnTick | app/Spawn.tsx:410-498 | paused or round 0: nothing (the interval skips round 0); past round 40 with an empty pool: reset; otherwise the wave's enemy joins with a fresh id and the counter advances by its step |
| Legacy.Spawn.RoundEnd | app/Spawn.tsx:501-504 | a cleared, running round allows pausing |
| Legacy.Spawn.NextRound | app/Spawn.tsx:506-512 | the round timeout advances a cleared, running round and zeroes the counter; the round never goes down |
| Legacy.Spawn.RoundStart | app/Spawn.tsx:516-520 | a started round forbids pausing |
| Legacy.Spawn.MoveTick | app/Spawn.tsx:523-529 | a running, started game marches its living enemies |
| Legacy.Spawn.RegenTick | app/Spawn.tsx:531-542 | a running, started game regenerates every enemy |
| Legacy.Spawn.LeakTick | app/Spawn.tsx:888-898 | escaped enemies leave the pool and their damage comes off health |
| Legacy.Spawn.RetargetTick | app/Spawn.tsx:799-820 | a running game with enemies recomputes every tower's targets |
| Legacy.Spawn.Attack | app/Spawn.tsx:545-668 | paused, unknown, targetless or busy: nothing; otherwise the attack lands, the tower is busy, the attack is paid, and money never falls |
| Legacy.Spawn.FinishAttack | app/Spawn.tsx:669-694 | the cooldown frees the tower, credits it half the damage and unmarks its targets |
| Legacy.Spawn.SlowTick | app/Spawn.tsx:899-931 | a running game thaws expired slows |
| Legacy.Spawn.PoisonSweep | app/Spawn.tsx:932-994 | a running game doses poisoned enemies, credits each tower, pays total / 7.5 and never lowers money |
| Legacy.Spawn.BuyTower | app/Spawn.tsx:996-1012 | a started round with enough money buys a tower, keeping money plus worth |
| Legacy.Spawn.Upgrade | app/Spawn.tsx:1280-1455 | enough money pays the handler's cost and upgrades the selected tower |
| Legacy.Spawn.Sell | app/Spawn.tsx:1352-1365 | selling refunds worth / 1.5 and removes the tower, so no tower with that id remains |
| Legacy.Spawn.CycleTargeting | app/Spawn.tsx:1267-1279 | the selected tower's targeting mode advances |

## Left out

- Rendering is not modelled: the DOM, sprites, animations, attack and explosion effects, alerts and confirmation dialogs. A confirmed sale is a boolean parameter.
- Timer scheduling is not modelled: each timer's period, cancellation and interleaving. The model gives the effect of one firing; which firing comes next is the caller's choice.
- The 50 ms pause between children of a dead spawner is left out; the five children are added at once.
- The page-visibility guard (`isPageVisible`) is left out, as are React StrictMode's double effect runs.
- Floating point is left out. Numbers are exact reals, so rounding and summation order play no part.
- The server calls, the tutorial window and the parent page are left out: they are outside the engine. The parent page owns round, money, health and the pause and speed controls and is not part of this model, so both constructors start from the values resetGame restores. In `Spawn.tsx` the parent also toggles pause and speed, and those toggles are left out.
- Game.GameState.UpgradeTower: requires that the upgrade be one the menu offers for that tower, because performUpgrade is only reachable from that menu's buttons.
- Game.GameState.FinishAttack: has no pause check. The cooldown's check reads the pause flag captured when the attack started, which was running, so it always passes.
- Legacy.Spawn.FinishAttack: has no pause check, for the same reason.
- Legacy.Spawn.RoundEnd and Legacy.Spawn.NextRound: the round-advance effect and its four-second timeout are two methods. The caller fires the timeout.
- StatusEffects.PoisonPerTick: states the per-tick dose only at normal and double speed. At triple speed the tick rate 3.33 does not divide the duration 1333 evenly; that dose is computed but not stated.
- Targeting.SortDesc: specified as sorted and a permutation, which does not pin down the order of equal keys. The model inserts stably, as `Array.prototype.sort` does.
- Legacy.Spawn.Attack: states the money effect as "never lowers money". The exact amount is the `Fired` function it commits to.
