/**
 * The money rules of app/GameLogic.tsx: the round-banded kill reward paid once per enemy id
 * (grantMoneyForKill and its processed-id set), the purchase check, the sell refund and the
 * targeting-mode cycle of the tower menu.
 */
module Economy {
  import opened Entities

  /** The reward multiplier of a round: full pay up to round 22, then 0.325, then 0.055 from round 33. */
  function RoundFactor(round: int): (f: real)
    ensures 0.0 < f <= 1.0
    ensures round <= 22 <==> f == 1.0
  {
    if round >= 33 then 0.055 else if round > 22 then 0.325 else 1.0
  }

  /** `Math.floor(maxHp / 6.5 * factor)`: the largest integer not above the scaled health. */
  function KillReward(maxHp: real, round: int): (r: int)
    ensures r as real <= maxHp / 6.5 * RoundFactor(round) < r as real + 1.0
    ensures maxHp >= 0.0 ==> r >= 0
  {
    (maxHp / 6.5 * RoundFactor(round)).Floor
  }

  /** The same enemy is worth no more in a later round. */
  lemma LaterRoundsPayLess(maxHp: real, early: int, late: int)
    requires maxHp >= 0.0 && early <= late
    ensures KillReward(maxHp, late) <= KillReward(maxHp, early)
  {
    var a, b := maxHp / 6.5 * RoundFactor(late), maxHp / 6.5 * RoundFactor(early);
    assert RoundFactor(late) <= RoundFactor(early);
    assert a <= b by {
      assert maxHp / 6.5 >= 0.0;
    }
    assert KillReward(maxHp, late) as real <= a;
  }

  /**
   * grantMoneyForKill applied to each kill in turn: an enemy whose id is already processed pays
   * nothing; otherwise its id is recorded and its reward paid. Returns the money gained and the
   * processed set afterwards.
   */
  function Payout(processed: set<nat>, kills: seq<Enemy>, round: int): (p: (int, set<nat>))
    ensures p.1 == processed + set i | 0 <= i < |kills| :: kills[i].id
    decreases |kills|
  {
    if kills == [] then (0, processed)
    else
      var e := kills[0];
      var rest := Payout(processed + {e.id}, kills[1..], round);
      assert forall i :: 0 < i < |kills| ==> kills[i] == kills[1..][i - 1];
      (rest.0 + (if e.id in processed then 0 else KillReward(e.maxHp, round)), rest.1)
  }

  /** Kills whose ids are all processed already pay nothing. */
  lemma {:induction false} ProcessedPayNothing(processed: set<nat>, kills: seq<Enemy>, round: int)
    requires forall e :: e in kills ==> e.id in processed
    ensures Payout(processed, kills, round).0 == 0
  {
    if kills != [] {
      assert kills[0] in kills;
      assert processed + {kills[0].id} == processed;
      ProcessedPayNothing(processed, kills[1..], round);
    }
  }

  /** Paying for two lists of kills one after the other is paying for their concatenation. */
  lemma {:induction false} PayoutAppend(processed: set<nat>, k1: seq<Enemy>, k2: seq<Enemy>, round: int)
    ensures var first := Payout(processed, k1, round);
            var second := Payout(first.1, k2, round);
            Payout(processed, k1 + k2, round).0 == first.0 + second.0 &&
            Payout(processed, k1 + k2, round).1 == second.1
    decreases |k1|
  {
    if k1 == [] {
      assert k1 + k2 == k2;
    } else {
      assert (k1 + k2)[0] == k1[0] && (k1 + k2)[1..] == k1[1..] + k2;
      PayoutAppend(processed + {k1[0].id}, k1[1..], k2, round);
    }
  }

  /** One kill: paid unless its id is already processed, and its id recorded. */
  lemma PayoutOne(processed: set<nat>, e: Enemy, round: int)
    ensures Payout(processed, [e], round).0 == if e.id in processed then 0 else KillReward(e.maxHp, round)
    ensures Payout(processed, [e], round).1 == processed + {e.id}
  {
    assert [e][1..] == [];
  }

  /** Reporting the same kills twice pays exactly what reporting them once pays: each id is paid at most once. */
  lemma PayoutOncePerId(processed: set<nat>, kills: seq<Enemy>, round: int)
    ensures Payout(processed, kills + kills, round).0 == Payout(processed, kills, round).0
  {
    PayoutAppend(processed, kills, kills, round);
    ProcessedPayNothing(Payout(processed, kills, round).1, kills, round);
  }

  /** buyTowers: a tower is bought only when the money covers its price. */
  function Buy(money: real, price: real): (r: Option<real>)
    ensures r.Some? <==> money >= price
    ensures r.Some? ==> r.value >= 0.0 && r.value + price == money
  {
    if money >= price then Some(money - price) else None
  }

  /** sellTower: the refund is the tower's worth divided by 1.5, with no rounding. */
  function Refund(worth: real): (r: real)
    ensures r * 1.5 == worth
    ensures worth > 0.0 ==> 0.0 < r < worth * 0.75
  {
    worth / 1.5
  }

  /** `towers.filter(t => t.id !== id)`. */
  function RemoveTower(towers: seq<Tower>, id: nat): (r: seq<Tower>)
    ensures |r| <= |towers|
    ensures forall t :: t in r <==> t in towers && t.id != id
  {
    if towers == [] then []
    else (if towers[0].id == id then [] else [towers[0]]) + RemoveTower(towers[1..], id)
  }

  /** changeTowerTargetting: first, then highestHp, then last, then first again. */
  function NextTargeting(m: Targeting): (n: Targeting)
    ensures n != m
    ensures m == Last <==> n == First
  {
    match m
    case First => HighestHp
    case HighestHp => Last
    case Last => First
  }

  /** Three presses of the targeting button bring a tower back to its mode. */
  lemma TargetingCycles(m: Targeting)
    ensures NextTargeting(NextTargeting(NextTargeting(m))) == m
    ensures NextTargeting(NextTargeting(m)) != m
  {
  }
}
