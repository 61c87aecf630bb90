/**
 * Target selection of app/GameLogic.tsx (getFurthestEnemyInRadius): which enemies a tower may
 * aim at, the path-progress score, the three targeting orders and how many targets each
 * attack type takes.
 */
module Targeting {
  import opened Entities

  /**
   * The range and capability filter. A stealth-capable tower sees everything in range; any
   * other tower skips stealthy enemies, a gas spitter also skips poisoned ones and a slower
   * skips slowed ones. Dead enemies are never targets.
   */
  predicate Eligible(t: Tower, e: Enemy) {
    e.hp > 0.0 &&
    var inRange := Within(e.x, e.y, t.x, t.y, t.radius);
    if t.canHitStealth then inRange
    else if t.kind == "gasspitter" then inRange && !e.isPoisoned && !IsStealthy(e)
    else if t.kind == "slower" then inRange && !e.isSlowed && !IsStealthy(e)
    else inRange && !IsStealthy(e)
  }

  /** `enemies.filter(...)`: the eligible enemies in pool order. */
  function Candidates(t: Tower, es: seq<Enemy>): (r: seq<Enemy>)
    ensures |r| <= |es|
    ensures forall e :: e in r <==> e in es && Eligible(t, e)
  {
    if es == [] then []
    else (if Eligible(t, es[0]) then [es[0]] else []) + Candidates(t, es[1..])
  }

  /** How far along the path an enemy is, one affine score per path segment. */
  function Progress(e: Enemy): real {
    if e.x < 28.0 then e.x
    else if e.x < 52.0 && e.y > 15.0 then 28.0 + (50.0 - e.y)
    else if e.y <= 15.0 && e.x < 52.0 then 63.0 + e.x
    else if e.x >= 52.0 && e.x < 75.0 && e.y < 87.0 then 115.0 + e.y
    else if e.y >= 87.0 && e.x < 75.0 then 202.0 + e.x
    else if e.x >= 75.0 && e.y > 50.0 then 277.0 + (87.0 - e.y)
    else 314.0 + e.x
  }

  /** The sort key of a targeting mode: health for "highestHp", path progress otherwise. */
  function Key(m: Targeting, e: Enemy): real {
    if m == HighestHp then e.hp else Progress(e)
  }

  predicate SortedBy(m: Targeting, s: seq<Enemy>) {
    forall i, j :: 0 <= i < j < |s| ==> Key(m, s[i]) >= Key(m, s[j])
  }

  /**
   * Insert ahead of the first element whose key is not larger: `x` precedes the elements of
   * `s` with an equal key, as the stable `Array.prototype.sort` keeps an earlier element first.
   */
  function Insert(m: Targeting, x: Enemy, s: seq<Enemy>): (r: seq<Enemy>)
    ensures |r| == |s| + 1
    ensures r[0] == x || (s != [] && r[0] == s[0])
    ensures multiset(r) == multiset(s) + multiset{x}
  {
    if s == [] then [x]
    else if Key(m, s[0]) > Key(m, x) then
      assert s == [s[0]] + s[1..];
      [s[0]] + Insert(m, x, s[1..])
    else [x] + s
  }

  lemma {:induction false} InsertSorted(m: Targeting, x: Enemy, s: seq<Enemy>)
    requires SortedBy(m, s)
    ensures SortedBy(m, Insert(m, x, s))
  {
    if s != [] && Key(m, s[0]) > Key(m, x) {
      var rest := Insert(m, x, s[1..]);
      InsertSorted(m, x, s[1..]);
      var r := [s[0]] + rest;
      assert r == Insert(m, x, s);
      assert Key(m, s[0]) >= Key(m, rest[0]) by {
        if rest[0] != x { assert |s| >= 2 && rest[0] == s[1]; }
      }
      forall i, j | 0 <= i < j < |r| ensures Key(m, r[i]) >= Key(m, r[j]) {
        if i == 0 {
          assert r[j] == rest[j - 1];
          assert Key(m, rest[0]) >= Key(m, rest[j - 1]);
        } else {
          assert r[i] == rest[i - 1] && r[j] == rest[j - 1];
        }
      }
    } else if s != [] {
      assert Insert(m, x, s) == [x] + s;
    }
  }

  /** `Array.prototype.sort` with a descending comparator on the mode's key. */
  function SortDesc(m: Targeting, s: seq<Enemy>): (r: seq<Enemy>)
    ensures SortedBy(m, r)
    ensures multiset(r) == multiset(s)
  {
    if s == [] then []
    else
      assert s == [s[0]] + s[1..];
      InsertSorted(m, s[0], SortDesc(m, s[1..]));
      Insert(m, s[0], SortDesc(m, s[1..]))
  }

  /** `Array.prototype.reverse`. */
  function Reverse(s: seq<Enemy>): (r: seq<Enemy>)
    ensures |r| == |s|
    ensures forall k :: 0 <= k < |s| ==> r[k] == s[|s| - 1 - k]
    ensures multiset(r) == multiset(s)
  {
    if s == [] then []
    else
      assert s == [s[0]] + s[1..];
      Reverse(s[1..]) + [s[0]]
  }

  /** How many enemies an attack type hits at once. */
  function TargetCount(a: AttackType): nat {
    match a
    case Double => 2
    case Triple => 3
    case Quadruple => 4
    case _ => 1
  }

  /** The candidates in the tower's targeting order. */
  function Ordered(t: Tower, es: seq<Enemy>): seq<Enemy> {
    var c := Candidates(t, es);
    if t.targeting == Last then Reverse(c) else SortDesc(t.targeting, c)
  }

  /** In a sorted list, everything outside a prefix has a key no larger than anything in it. */
  lemma PrefixHoldsTheLargest(m: Targeting, o: seq<Enemy>, n: nat)
    requires SortedBy(m, o) && n <= |o|
    ensures forall e, k :: e in o && e !in o[..n] && 0 <= k < n ==> Key(m, e) <= Key(m, o[k])
  {
    forall e, k | e in o && e !in o[..n] && 0 <= k < n
      ensures Key(m, e) <= Key(m, o[k])
    {
      assert forall i :: 0 <= i < n ==> o[..n][i] == o[i];
      var j :| 0 <= j < |o| && o[j] == e;
    }
  }

  lemma NothingEligible(t: Tower, es: seq<Enemy>)
    requires |Candidates(t, es)| == 0
    ensures forall e :: e in es ==> !Eligible(t, e)
  {
    forall e | e in es ensures !Eligible(t, e) {
      assert e !in Candidates(t, es);
    }
  }

  /** The ordered candidates are the candidates, rearranged. */
  lemma OrderedFacts(t: Tower, es: seq<Enemy>)
    ensures |Ordered(t, es)| == |Candidates(t, es)|
    ensures forall e :: e in Ordered(t, es) <==> e in es && Eligible(t, e)
    ensures t.targeting != Last ==> SortedBy(t.targeting, Ordered(t, es))
  {
    var c, o := Candidates(t, es), Ordered(t, es);
    assert multiset(o) == multiset(c);
    assert |o| == |c| by { assert |multiset(o)| == |multiset(c)|; }
    forall e ensures e in o <==> e in c {
      assert e in o <==> e in multiset(o);
      assert e in c <==> e in multiset(c);
    }
  }

  /**
   * getFurthestEnemyInRadius: no target when nothing is eligible; otherwise the first
   * TargetCount(attackType) enemies of the ordered candidates. "first" and "highestHp" take
   * the enemies with the largest key; "last" takes the most recently added eligible enemies.
   */
  function FurthestEnemies(t: Tower, es: seq<Enemy>): (r: Option<seq<Enemy>>)
    ensures r.None? <==> forall e :: e in es ==> !Eligible(t, e)
    ensures r.Some? ==> 1 <= |r.value| <= TargetCount(t.attackType)
    ensures r.Some? ==> |r.value| == if |Candidates(t, es)| < TargetCount(t.attackType)
                                     then |Candidates(t, es)| else TargetCount(t.attackType)
  {
    var c := Candidates(t, es);
    if |c| == 0 then
      NothingEligible(t, es);
      None
    else
      assert c[0] in c;
      var n := if |c| < TargetCount(t.attackType) then |c| else TargetCount(t.attackType);
      OrderedFacts(t, es);
      Some(Ordered(t, es)[..n])
  }

  /** Every target is an eligible enemy of the pool. */
  lemma FurthestAreEligible(t: Tower, es: seq<Enemy>)
    requires FurthestEnemies(t, es).Some?
    ensures forall e :: e in FurthestEnemies(t, es).value ==> e in es && Eligible(t, e)
  {
    var o := Ordered(t, es);
    var r := FurthestEnemies(t, es).value;
    OrderedFacts(t, es);
    forall e | e in r ensures e in es && Eligible(t, e) {
      var k :| 0 <= k < |r| && r[k] == e;
      assert o[k] == e;
    }
  }

  /**
   * For "first" and "highestHp" the targets come in descending key order, and no eligible enemy
   * left out has a larger key than any target.
   */
  lemma FurthestAreFurthest(t: Tower, es: seq<Enemy>)
    requires FurthestEnemies(t, es).Some? && t.targeting != Last
    ensures var r := FurthestEnemies(t, es).value;
            SortedBy(t.targeting, r) &&
            forall e, k :: e in es && Eligible(t, e) && e !in r && 0 <= k < |r| ==>
              Key(t.targeting, e) <= Key(t.targeting, r[k])
  {
    var o := Ordered(t, es);
    var r := FurthestEnemies(t, es).value;
    OrderedFacts(t, es);
    PrefixHoldsTheLargest(t.targeting, o, |r|);
  }

  /** For "last" the targets are the most recently added eligible enemies, newest first. */
  lemma LastTakesTheNewest(t: Tower, es: seq<Enemy>)
    requires FurthestEnemies(t, es).Some? && t.targeting == Last
    ensures var c := Candidates(t, es);
            var r := FurthestEnemies(t, es).value;
            forall k :: 0 <= k < |r| ==> r[k] == c[|c| - 1 - k]
  {
    var c := Candidates(t, es);
    var r := FurthestEnemies(t, es).value;
    var rev := Reverse(c);
    assert r == rev[..|r|];
    forall k | 0 <= k < |r| ensures r[k] == c[|c| - 1 - k] {
      assert r[k] == rev[k];
    }
  }
}
