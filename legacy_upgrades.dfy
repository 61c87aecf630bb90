/**
 * The upgrade menu of app/Spawn.tsx: eight fixed-price boosts (damage, attack interval, double
 * and triple attack, stealth detection, slow, poison and the special upgrade), the condition
 * under which the menu offers each, and the special upgrade's availability check.
 */
module LegacyUpgrades {
  import opened Entities
  import opened LegacyCatalog

  /** The menu's upgrade handlers. */
  datatype Boost = DamageBoost | IntervalBoost | DoubleAttack | TripleAttack | HitStealth | SlowBoost | PoisonBoost | Special

  /** What each handler charges, when the money covers it. */
  function Cost(b: Boost): (c: real)
    ensures c >= 300.0
  {
    match b
    case DamageBoost => 300.0
    case IntervalBoost => 300.0
    case DoubleAttack => 1500.0
    case TripleAttack => 2500.0
    case HitStealth => 2000.0
    case SlowBoost => 1000.0
    case PoisonBoost => 500.0
    case Special => 20000.0
  }

  /**
   * The catalog caps an upgraded tower stays within: attack at most the maximum damage, the
   * interval at least the minimum, poison at most its maximum, and a slow factor (where the
   * tower has a cap) at least its positive cap.
   */
  predicate Bounded(t: Tower) {
    t.attack <= t.maxDamage && t.attackInterval >= t.maxAttackInterval && t.poisonDamage <= t.maxPoisonDamage &&
    (t.maxSlow.Some? ==> t.maxSlow.value > 0.0 && t.slowAmount.Some? && t.slowAmount.value >= t.maxSlow.value)
  }

  /** `x ? x * f : x` on an optional factor. */
  function ScaleTruthy(x: Option<real>, f: real): Option<real> {
    if Truthy(x) then Some(x.value * f) else x
  }

  /**
   * upgradeSpecial's change to the tower, by type: each known type is strengthened and marked
   * as specially upgraded; any other type is unchanged. The worth is added by the caller.
   */
  function Specialised(t: Tower): (r: Tower)
    ensures r.id == t.id && r.targets == t.targets && r.isAttacking == t.isAttacking && r.kind == t.kind
    ensures r.path1Level == t.path1Level && r.path2Level == t.path2Level && r.path == t.path
    ensures r.towerWorth == t.towerWorth && r.canHitStealth == t.canHitStealth
    ensures r.hasSpecialUpgrade <==>
              (t.hasSpecialUpgrade || t.kind in {"basic", "sniper", "rapidShooter", "slower", "gasspitter", "mortar"})
  {
    match t.kind
    case "basic" =>
      t.(hasSpecialUpgrade := true, attack := t.attack * 2.25, maxDamage := t.maxDamage * 2.25, radius := t.radius * 1.4)
    case "sniper" =>
      t.(hasSpecialUpgrade := true, attack := t.attack * 4.0, maxDamage := t.maxDamage * 4.0)
    case "rapidShooter" =>
      t.(hasSpecialUpgrade := true, attack := t.attack * 1.5, maxDamage := t.maxDamage * 1.5,
         attackInterval := t.attackInterval * 0.6, maxAttackInterval := t.maxAttackInterval * 0.6,
         attackType := Quadruple)
    case "slower" =>
      t.(hasSpecialUpgrade := true, slowAmount := ScaleTruthy(t.slowAmount, 0.5),
         maxSlow := ScaleTruthy(t.maxSlow, 0.5), attackType := Triple)
    case "gasspitter" =>
      t.(hasSpecialUpgrade := true, poisonDamage := t.poisonDamage * 4.0,
         maxPoisonDamage := t.maxPoisonDamage * 4.0, canStopRegen := true)
    case "mortar" =>
      t.(hasSpecialUpgrade := true, attack := t.attack * 2.0, maxDamage := t.maxDamage * 2.0,
         radius := t.radius * 1.5, explosionRadius := t.explosionRadius * 1.25)
    case _ => t
  }

  /**
   * One handler's change to the selected tower. Every handler adds its cost to the tower's
   * worth, keeps the tower within its caps, and leaves its identity, targets and state alone.
   */
  function Boosted(t: Tower, b: Boost): (r: Tower)
    ensures r.id == t.id && r.targets == t.targets && r.isAttacking == t.isAttacking && r.kind == t.kind
    ensures r.path1Level == t.path1Level && r.path2Level == t.path2Level && r.path == t.path
    ensures r.towerWorth == t.towerWorth + Cost(b)
  {
    var w := t.towerWorth + Cost(b);
    match b
    case DamageBoost => t.(attack := Min(t.attack + t.maxDamage / 5.0, t.maxDamage), towerWorth := w)
    case IntervalBoost =>
      t.(attackInterval := Max(t.attackInterval - (t.baseAttackInterval - t.maxAttackInterval) / 5.0, t.maxAttackInterval),
         towerWorth := w)
    case DoubleAttack => t.(attackType := Double, towerWorth := w)
    case TripleAttack => t.(attackType := Triple, towerWorth := w)
    case HitStealth => t.(canHitStealth := true, towerWorth := w)
    case SlowBoost => t.(slowAmount := Some(Max(Nullish(t.slowAmount, 0.0) - 0.25, Nullish(t.maxSlow, 0.0))), towerWorth := w)
    case PoisonBoost => t.(poisonDamage := Min(t.poisonDamage + 20.0, t.maxPoisonDamage), towerWorth := w)
    case Special => Specialised(t).(towerWorth := w)
  }

  /** The special upgrade scales each stat together with its cap, so the caps still hold. */
  lemma SpecialKeepsBounds(t: Tower)
    requires Bounded(t)
    ensures Bounded(Specialised(t))
  {
    if t.kind in {"basic", "sniper", "rapidShooter", "slower", "gasspitter", "mortar"} {
      if t.kind == "basic" {
      } else if t.kind == "sniper" {
      } else if t.kind == "rapidShooter" {
      } else if t.kind == "slower" {
      } else if t.kind == "gasspitter" {
      } else {
      }
    }
  }

  /** No handler pushes a tower past a catalog cap. */
  lemma BoostKeepsBounds(t: Tower, b: Boost)
    requires Bounded(t)
    ensures Bounded(Boosted(t, b))
  {
    if b == Special {
      SpecialKeepsBounds(t);
    }
  }

  /** checkSpecialUpgradeAvailability: every stat at its cap, stealth detection, and the type's own last upgrade. */
  predicate SpecialAvailable(t: Tower) {
    var capped := t.attack == t.maxDamage && t.attackInterval == t.maxAttackInterval && t.canHitStealth;
    match t.kind
    case "basic" => capped && t.attackType == Double
    case "sniper" => capped && t.attackType == Double
    case "rapidShooter" => capped && t.attackType == Triple
    case "slower" => capped && t.slowAmount == t.maxSlow
    case "gasspitter" => capped && t.poisonDamage == t.maxPoisonDamage
    case "mortar" => capped
    case _ => false
  }

  /** The upgrade menu: which buttons it shows for the selected tower. */
  predicate Offered(t: Tower, b: Boost) {
    match b
    case DamageBoost => t.attack < t.maxDamage
    case IntervalBoost => t.attackInterval > t.maxAttackInterval
    case DoubleAttack => t.attackType == Single
    case TripleAttack => t.kind == "rapidShooter" && t.attackType == Double
    case HitStealth => !t.canHitStealth
    case SlowBoost => t.kind == "slower" && t.slowAmount != t.maxSlow
    case PoisonBoost => t.kind == "gasspitter" && t.poisonDamage != t.maxPoisonDamage
    case Special => SpecialAvailable(t) && !t.hasSpecialUpgrade
  }

  /** The special upgrade is never on offer for a tower straight from the catalog. */
  lemma FreshTowerHasNoSpecial(k: Model, id: nat, x: real, y: real)
    ensures !SpecialAvailable(Erect(k, id, x, y))
  {
  }

  /** Buying boosts one after the other. */
  function Apply(t: Tower, bs: seq<Boost>): Tower
    decreases |bs|
  {
    if bs == [] then t else Apply(Boosted(t, bs[0]), bs[1..])
  }

  /** What a list of boosts costs. */
  function Costs(bs: seq<Boost>): real
    decreases |bs|
  {
    if bs == [] then 0.0 else Cost(bs[0]) + Costs(bs[1..])
  }

  /**
   * A tower's worth is its price plus everything spent on it, so selling refunds two thirds of
   * the whole investment; the caps hold throughout.
   */
  lemma {:induction false} ApplyAccounts(t: Tower, bs: seq<Boost>)
    ensures Apply(t, bs).towerWorth == t.towerWorth + Costs(bs)
    ensures Apply(t, bs).id == t.id && Apply(t, bs).targets == t.targets
    ensures Bounded(t) ==> Bounded(Apply(t, bs))
    decreases |bs|
  {
    if bs != [] {
      if Bounded(t) {
        BoostKeepsBounds(t, bs[0]);
      }
      ApplyAccounts(Boosted(t, bs[0]), bs[1..]);
    }
  }

  /** Buying one list of boosts and then another is buying their concatenation. */
  lemma {:induction false} ApplyAppend(t: Tower, a: seq<Boost>, b: seq<Boost>)
    ensures Apply(t, a + b) == Apply(Apply(t, a), b)
    decreases |a|
  {
    if a != [] {
      assert (a + b)[0] == a[0] && (a + b)[1..] == a[1..] + b;
      ApplyAppend(Boosted(t, a[0]), a[1..], b);
    } else {
      assert a + b == b;
    }
  }

  /** The same boost bought n times. */
  function Repeat(b: Boost, n: nat): (r: seq<Boost>)
    ensures |r| == n
  {
    if n == 0 then [] else [b] + Repeat(b, n - 1)
  }

  /** The same boost bought n times in a row. */
  function Times(t: Tower, b: Boost, n: nat): Tower
    decreases n
  {
    if n == 0 then t else Times(Boosted(t, b), b, n - 1)
  }

  lemma {:induction false} ApplyRepeat(t: Tower, b: Boost, n: nat)
    ensures Apply(t, Repeat(b, n)) == Times(t, b, n)
    decreases n
  {
    if n > 0 {
      var r := Repeat(b, n);
      assert r[0] == b && r[1..] == Repeat(b, n - 1);
      ApplyRepeat(Boosted(t, b), b, n - 1);
    }
  }

  /** A stat after n upgrades that each add `step` to it, stopping at `cap`. */
  function Raised(a: real, cap: real, step: real, n: nat): real
    decreases n
  {
    if n == 0 then a else Raised(Min(a + step, cap), cap, step, n - 1)
  }

  /** Repeated capped increments in closed form: n steps at once, cut at the cap. */
  lemma {:induction false} RaisedInOneGo(a: real, cap: real, step: real, n: nat)
    requires a <= cap && step >= 0.0
    ensures Raised(a, cap, step, n) == Min(a + n as real * step, cap)
    decreases n
  {
    if n > 0 {
      RaisedInOneGo(Min(a + step, cap), cap, step, n - 1);
      assert (n - 1) as real * step >= 0.0;
      assert (n - 1) as real * step + step == n as real * step;
    }
  }

  /** A stat after n upgrades that each take `step` off it, stopping at `floor`. */
  function Lowered(a: real, floor: real, step: real, n: nat): real
    decreases n
  {
    if n == 0 then a else Lowered(Max(a - step, floor), floor, step, n - 1)
  }

  /** Repeated capped decrements in closed form. */
  lemma {:induction false} LoweredInOneGo(a: real, floor: real, step: real, n: nat)
    requires a >= floor && step >= 0.0
    ensures Lowered(a, floor, step, n) == Max(a - n as real * step, floor)
    decreases n
  {
    if n > 0 {
      LoweredInOneGo(Max(a - step, floor), floor, step, n - 1);
      assert (n - 1) as real * step >= 0.0;
      assert (n - 1) as real * step + step == n as real * step;
    }
  }

  /** Two successive changes to the attack and the worth amount to the second one. */
  lemma AttackOverwrite(t: Tower, a: real, w: real, a2: real, w2: real)
    ensures t.(attack := a, towerWorth := w).(attack := a2, towerWorth := w2) == t.(attack := a2, towerWorth := w2)
  {
  }

  /** Two successive changes to the interval and the worth amount to the second one. */
  lemma IntervalOverwrite(t: Tower, a: real, w: real, a2: real, w2: real)
    ensures t.(attackInterval := a, towerWorth := w).(attackInterval := a2, towerWorth := w2) ==
            t.(attackInterval := a2, towerWorth := w2)
  {
  }

  /** Two successive changes to the poison damage and the worth amount to the second one. */
  lemma PoisonOverwrite(t: Tower, a: real, w: real, a2: real, w2: real)
    ensures t.(poisonDamage := a, towerWorth := w).(poisonDamage := a2, towerWorth := w2) ==
            t.(poisonDamage := a2, towerWorth := w2)
  {
  }

  lemma DamageStep(t: Tower)
    ensures Boosted(t, DamageBoost) ==
              t.(attack := Min(t.attack + t.maxDamage / 5.0, t.maxDamage), towerWorth := t.towerWorth + 300.0)
  {
  }

  lemma IntervalStep(t: Tower)
    ensures Boosted(t, IntervalBoost) ==
              t.(attackInterval := Max(t.attackInterval - (t.baseAttackInterval - t.maxAttackInterval) / 5.0,
                                       t.maxAttackInterval),
                 towerWorth := t.towerWorth + 300.0)
  {
  }

  lemma PoisonStep(t: Tower)
    ensures Boosted(t, PoisonBoost) ==
              t.(poisonDamage := Min(t.poisonDamage + 20.0, t.maxPoisonDamage), towerWorth := t.towerWorth + 500.0)
  {
  }

  /** Bought n times, the damage upgrade raises the attack by a fifth of the maximum each time, up to the maximum. */
  lemma {:induction false} DamageRaises(t: Tower, n: nat)
    ensures Times(t, DamageBoost, n) ==
              t.(attack := Raised(t.attack, t.maxDamage, t.maxDamage / 5.0, n),
                 towerWorth := t.towerWorth + 300.0 * n as real)
    decreases n
  {
    if n > 0 {
      var a := Min(t.attack + t.maxDamage / 5.0, t.maxDamage);
      var u := t.(attack := a, towerWorth := t.towerWorth + 300.0);
      DamageStep(t);
      DamageRaises(u, n - 1);
      AttackOverwrite(t, a, t.towerWorth + 300.0, Raised(a, t.maxDamage, t.maxDamage / 5.0, n - 1),
                      t.towerWorth + 300.0 + 300.0 * (n - 1) as real);
    }
  }

  /**
   * Bought n times, the interval upgrade shortens the interval by a fifth of the base-to-minimum
   * span each time, down to the minimum.
   */
  lemma {:induction false} IntervalLowers(t: Tower, n: nat)
    ensures Times(t, IntervalBoost, n) ==
              t.(attackInterval := Lowered(t.attackInterval, t.maxAttackInterval,
                                           (t.baseAttackInterval - t.maxAttackInterval) / 5.0, n),
                 towerWorth := t.towerWorth + 300.0 * n as real)
    decreases n
  {
    if n > 0 {
      var step := (t.baseAttackInterval - t.maxAttackInterval) / 5.0;
      var a := Max(t.attackInterval - step, t.maxAttackInterval);
      var u := t.(attackInterval := a, towerWorth := t.towerWorth + 300.0);
      IntervalStep(t);
      IntervalLowers(u, n - 1);
      IntervalOverwrite(t, a, t.towerWorth + 300.0, Lowered(a, t.maxAttackInterval, step, n - 1),
                        t.towerWorth + 300.0 + 300.0 * (n - 1) as real);
    }
  }

  /** Bought n times, the poison upgrade adds 20 to the poison damage each time, up to its maximum. */
  lemma {:induction false} PoisonRaises(t: Tower, n: nat)
    ensures Times(t, PoisonBoost, n) ==
              t.(poisonDamage := Raised(t.poisonDamage, t.maxPoisonDamage, 20.0, n),
                 towerWorth := t.towerWorth + 500.0 * n as real)
    decreases n
  {
    if n > 0 {
      var a := Min(t.poisonDamage + 20.0, t.maxPoisonDamage);
      var u := t.(poisonDamage := a, towerWorth := t.towerWorth + 500.0);
      PoisonStep(t);
      PoisonRaises(u, n - 1);
      PoisonOverwrite(t, a, t.towerWorth + 500.0, Raised(a, t.maxPoisonDamage, 20.0, n - 1),
                      t.towerWorth + 500.0 + 500.0 * (n - 1) as real);
    }
  }

  /**
   * n damage upgrades raise the attack by n fifths of the maximum, stopping at the maximum, and
   * change nothing else but the worth.
   */
  lemma {:induction false} DamageBoosts(t: Tower, n: nat)
    requires t.attack <= t.maxDamage && t.maxDamage >= 0.0
    ensures Times(t, DamageBoost, n) ==
              t.(attack := Min(t.attack + n as real * (t.maxDamage / 5.0), t.maxDamage),
                 towerWorth := t.towerWorth + 300.0 * n as real)
  {
    RaisedInOneGo(t.attack, t.maxDamage, t.maxDamage / 5.0, n);
    DamageRaises(t, n);
  }

  /**
   * n interval upgrades shorten the interval by n fifths of the base-to-minimum span, stopping
   * at the minimum, and change nothing else but the worth.
   */
  lemma {:induction false} IntervalBoosts(t: Tower, n: nat)
    requires t.attackInterval >= t.maxAttackInterval && t.baseAttackInterval >= t.maxAttackInterval
    ensures Times(t, IntervalBoost, n) ==
              t.(attackInterval := Max(t.attackInterval - n as real * ((t.baseAttackInterval - t.maxAttackInterval) / 5.0),
                                       t.maxAttackInterval),
                 towerWorth := t.towerWorth + 300.0 * n as real)
  {
    LoweredInOneGo(t.attackInterval, t.maxAttackInterval, (t.baseAttackInterval - t.maxAttackInterval) / 5.0, n);
    IntervalLowers(t, n);
  }

  /** n poison upgrades add 20 each to the poison damage, stopping at its maximum. */
  lemma {:induction false} PoisonBoosts(t: Tower, n: nat)
    requires t.poisonDamage <= t.maxPoisonDamage
    ensures Times(t, PoisonBoost, n) ==
              t.(poisonDamage := Min(t.poisonDamage + n as real * 20.0, t.maxPoisonDamage),
                 towerWorth := t.towerWorth + 500.0 * n as real)
  {
    RaisedInOneGo(t.poisonDamage, t.maxPoisonDamage, 20.0, n);
    PoisonRaises(t, n);
  }

  /** Buying a single boost. */
  lemma {:induction false} ApplyOne(t: Tower, b: Boost)
    ensures Apply(t, [b]) == Boosted(t, b)
  {
    assert [b][0] == b && [b][1..] == [];
  }

  /** Buying two boosts. */
  lemma {:induction false} ApplyTwo(t: Tower, b: Boost, c: Boost)
    ensures Apply(t, [b, c]) == Boosted(Boosted(t, b), c)
  {
    assert [b, c] == [b] + [c];
    ApplyAppend(t, [b], [c]);
    ApplyOne(t, b);
    ApplyOne(Boosted(t, b), c);
  }

  /** Every plan buys five interval upgrades, which take any catalog interval from its base to its minimum. */
  const IntervalSteps: nat := 5

  /** Four damage upgrades take any catalog attack to its maximum: no catalog attack is below a fifth of it. */
  const DamageUpgrades: nat := 4

  /** How many damage upgrades a tower's plan buys: none where the catalog attack is already the maximum. */
  function DamageSteps(k: Model): nat {
    if k == Slower || k == GasSpitter then 0 else DamageUpgrades
  }

  /** The upgrades a tower's plan buys after its damage and interval upgrades: its type's last upgrades. */
  function Finish(k: Model): seq<Boost> {
    match k
    case BasicTower => [DoubleAttack, HitStealth]
    case Sniper => [DoubleAttack]
    case RapidShooter => [TripleAttack, HitStealth]
    case Slower => [HitStealth, SlowBoost]
    case GasSpitter => [HitStealth] + Repeat(PoisonBoost, 4)
    case Mortar => [HitStealth]
  }

  /** The purchases that fully upgrade a catalog tower. */
  function Plan(k: Model): seq<Boost> {
    Repeat(DamageBoost, DamageSteps(k)) + Repeat(IntervalBoost, IntervalSteps) + Finish(k)
  }

  /** A plan is its damage upgrades, then its interval upgrades, then its type's last upgrades. */
  lemma {:induction false} PlanInSteps(t: Tower, k: Model)
    ensures Apply(t, Plan(k)) == Apply(Times(Times(t, DamageBoost, DamageSteps(k)), IntervalBoost, IntervalSteps), Finish(k))
  {
    var d, f := Repeat(DamageBoost, DamageSteps(k)), Repeat(IntervalBoost, IntervalSteps);
    ApplyAppend(t, d + f, Finish(k));
    ApplyAppend(t, d, f);
    ApplyRepeat(t, DamageBoost, DamageSteps(k));
    ApplyRepeat(Times(t, DamageBoost, DamageSteps(k)), IntervalBoost, IntervalSteps);
  }

  /**
   * A tower whose attack reaches the maximum within ds damage upgrades and whose interval is at
   * its base, after ds damage upgrades and five interval upgrades: both stats at their caps.
   */
  lemma {:induction false} Maxed(t: Tower, ds: nat)
    requires 0.0 <= t.attack <= t.maxDamage && t.attack + ds as real * (t.maxDamage / 5.0) >= t.maxDamage
    requires t.attackInterval == t.baseAttackInterval >= t.maxAttackInterval
    ensures Times(Times(t, DamageBoost, ds), IntervalBoost, IntervalSteps) ==
              t.(attack := t.maxDamage, attackInterval := t.maxAttackInterval,
                 towerWorth := t.towerWorth + 300.0 * ds as real + 1500.0)
  {
    DamageBoosts(t, ds);
    var u := t.(attack := t.maxDamage, towerWorth := t.towerWorth + 300.0 * ds as real);
    IntervalBoosts(u, IntervalSteps);
  }

  /** A catalog tower with its attack and interval at their caps unlocks the special upgrade by its type's last upgrades. */
  lemma {:induction false} FinishUnlocks(k: Model, id: nat, x: real, y: real, w: real)
    ensures var t := Erect(k, id, x, y);
            var v := Apply(t.(attack := t.maxDamage, attackInterval := t.maxAttackInterval, towerWorth := w), Finish(k));
            SpecialAvailable(v) && Offered(v, Special)
  {
    var t := Erect(k, id, x, y);
    var v := t.(attack := t.maxDamage, attackInterval := t.maxAttackInterval, towerWorth := w);
    match k
    case BasicTower => ApplyTwo(v, DoubleAttack, HitStealth);
    case Sniper => ApplyOne(v, DoubleAttack);
    case RapidShooter => ApplyTwo(v, TripleAttack, HitStealth);
    case Slower => ApplyTwo(v, HitStealth, SlowBoost);
    case GasSpitter =>
      ApplyAppend(v, [HitStealth], Repeat(PoisonBoost, 4));
      ApplyOne(v, HitStealth);
      ApplyRepeat(Boosted(v, HitStealth), PoisonBoost, 4);
      PoisonBoosts(Boosted(v, HitStealth), 4);
    case Mortar => ApplyOne(v, HitStealth);
  }

  /** A catalog tower's plan buys enough damage upgrades to reach its maximum damage. */
  lemma CatalogMaxes(k: Model, id: nat, x: real, y: real)
    ensures var t := Erect(k, id, x, y);
            0.0 <= t.attack <= t.maxDamage && t.attack + DamageSteps(k) as real * (t.maxDamage / 5.0) >= t.maxDamage
  {
  }

  /** Following a plan reaches both caps before the type's last upgrades. */
  lemma {:induction false} PlanMaxes(t: Tower, k: Model, ds: nat)
    requires ds == DamageSteps(k)
    requires 0.0 <= t.attack <= t.maxDamage && t.attack + ds as real * (t.maxDamage / 5.0) >= t.maxDamage
    requires t.attackInterval == t.baseAttackInterval >= t.maxAttackInterval
    ensures Apply(t, Plan(k)) ==
              Apply(t.(attack := t.maxDamage, attackInterval := t.maxAttackInterval,
                       towerWorth := t.towerWorth + 300.0 * ds as real + 1500.0), Finish(k))
  {
    PlanInSteps(t, k);
    Maxed(t, ds);
  }

  /** Every catalog tower can reach its special upgrade: after its plan the menu offers it. */
  lemma {:induction false} SpecialIsReachable(k: Model, id: nat, x: real, y: real)
    ensures var t := Apply(Erect(k, id, x, y), Plan(k));
            SpecialAvailable(t) && Offered(t, Special)
  {
    var t := Erect(k, id, x, y);
    CatalogMaxes(k, id, x, y);
    PlanMaxes(t, k, DamageSteps(k));
    FinishUnlocks(k, id, x, y, t.towerWorth + 300.0 * DamageSteps(k) as real + 1500.0);
  }

  /** The sell button's label: three quarters of the worth, rounded down. */
  function SellLabel(worth: real): int {
    (worth * 0.75).Floor
  }

  /** The sell button promises more than selling pays (worth / 1.5) for every tower worth at least 12. */
  lemma SellPaysLessThanLabel(worth: real)
    requires worth >= 12.0
    ensures worth / 1.5 < SellLabel(worth) as real
  {
  }
}
