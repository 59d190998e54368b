/** Rolling, granting and revoking advancements. */
module Advancement {
  import opened Common
  import opened Catalog
  import opened RunState

  /** The ids are distinct. */
  predicate NoDup(xs: seq<int>) {
    forall i, j :: 0 <= i < j < |xs| ==> xs[i] != xs[j]
  }

  /** Every id names a row of the six-row advancement table. */
  predicate ValidIds(xs: seq<int>) {
    forall i :: 0 <= i < |xs| ==> 1 <= xs[i] <= 6
  }

  /** Some roll in the sequence is not an id already held: the reroll loop stops on it. */
  predicate HasFreshRoll(held: seq<int>, rolls: seq<int>) {
    exists i :: 0 <= i < |rolls| && rolls[i] !in held
  }

  /** The reroll loop: the position of the first roll that is not already held. */
  function FirstFresh(held: seq<int>, rolls: seq<int>): (k: nat)
    requires HasFreshRoll(held, rolls)
    ensures k < |rolls| && rolls[k] !in held
    ensures forall j :: 0 <= j < k ==> rolls[j] in held
    decreases |rolls|
  {
    if rolls[0] !in held then 0
    else
      assert HasFreshRoll(held, rolls[1..]) by {
        var i :| 0 <= i < |rolls| && rolls[i] !in held;
        assert rolls[1..][i - 1] == rolls[i];
      }
      1 + FirstFresh(held, rolls[1..])
  }

  /** The id the reroll loop settles on. */
  function RollNewAdvancement(held: seq<int>, rolls: seq<int>): (id: int)
    requires HasFreshRoll(held, rolls)
    ensures id !in held && id in rolls
  {
    rolls[FirstFresh(held, rolls)]
  }

  /** A d6 roll whose value is already held is skipped; the first value not held is the result. */
  lemma RollNewAdvancementSkipsHeld(held: seq<int>, r: int, rolls: seq<int>)
    requires HasFreshRoll(held, rolls)
    ensures HasFreshRoll(held, [r] + rolls)
    ensures r in held ==> RollNewAdvancement(held, [r] + rolls) == RollNewAdvancement(held, rolls)
    ensures r !in held ==> RollNewAdvancement(held, [r] + rolls) == r
  {
    var i :| 0 <= i < |rolls| && rolls[i] !in held;
    assert ([r] + rolls)[i + 1] == rolls[i];
    assert ([r] + rolls)[1..] == rolls;
  }

  /** A duplicate-free list has as many distinct elements as entries. */
  lemma {:induction false} NoDupCardinality(xs: seq<int>)
    requires NoDup(xs)
    ensures |set x | x in xs| == |xs|
    decreases |xs|
  {
    if |xs| > 0 {
      var tail := xs[1..];
      assert NoDup(tail) by {
        forall i, j | 0 <= i < j < |tail| ensures tail[i] != tail[j] {
          assert tail[i] == xs[i + 1] && tail[j] == xs[j + 1];
        }
      }
      NoDupCardinality(tail);
      assert (set x | x in xs) == (set x | x in tail) + {xs[0]};
      assert xs[0] !in (set x | x in tail);
    }
  }

  /** Six distinct ids from 1..6 are all of them. */
  lemma SixDistinctIdsAreAll(xs: seq<int>)
    requires NoDup(xs) && ValidIds(xs) && |xs| >= 6
    ensures forall id :: 1 <= id <= 6 ==> id in xs
  {
    NoDupCardinality(xs);
    var held := set x | x in xs;
    var all: set<int> := {1, 2, 3, 4, 5, 6};
    assert held <= all;
    forall id | 1 <= id <= 6 ensures id in xs {
      if id !in xs {
        assert held <= all - {id};
        assert |all - {id}| == 5;
        SubsetCardinality(held, all - {id});
        assert false;
      }
    }
  }

  /** A subset is never larger than its superset; used to show six distinct held ids must be all six. */
  lemma SubsetCardinality(a: set<int>, b: set<int>)
    requires a <= b
    ensures |a| <= |b|
  {
    assert b == a + (b - a);
  }

  /** Holding all six ids, no d6 roll is fresh: the source's reroll loop would never end,
      so `RollNewAdvancement` cannot be asked for a seventh advancement. */
  lemma NoFreshRollWhenAllHeld(held: seq<int>, rolls: seq<int>)
    requires forall id :: 1 <= id <= 6 ==> id in held
    requires forall i :: 0 <= i < |rolls| ==> IsRoll(rolls[i], 6)
    ensures !HasFreshRoll(held, rolls)
  {
  }

  /** Granting an id: it is appended to the held list and its one-time effect applied. */
  function ApplyAdvancementEffects(s: GameState, id: int): (r: GameState)
    ensures r.advancements == s.advancements + [id]
    ensures id == 2 ==> r.permanentHitBonus == s.permanentHitBonus + 1
    ensures id == 3 ==> r.maxHp == 20 && r.hp == 20
    ensures id == 4 ==> r.points == s.points + 5
    ensures id == 5 ==> r.inventory.weapon == Weapons(Scattergun)
    ensures id != 2 ==> r.permanentHitBonus == s.permanentHitBonus
    ensures id != 3 ==> r.hp == s.hp && r.maxHp == s.maxHp
    ensures id != 4 ==> r.points == s.points
    ensures id != 5 ==> r.inventory == s.inventory
    ensures r.halfDamage == s.halfDamage && r.visitedTypes == s.visitedTypes
    ensures r.(advancements := s.advancements, permanentHitBonus := s.permanentHitBonus, hp := s.hp,
               maxHp := s.maxHp, points := s.points, inventory := s.inventory) == s
  {
    GrantEffect(s.(advancements := s.advancements + [id]), id)
  }

  /** The one-time effect of a granted id; the list itself is left alone. */
  function GrantEffect(s: GameState, id: int): (r: GameState)
    ensures r.advancements == s.advancements
    ensures id == 2 ==> r.permanentHitBonus == s.permanentHitBonus + 1
    ensures id == 3 ==> r.maxHp == 20 && r.hp == 20
    ensures id == 4 ==> r.points == s.points + 5
    ensures id == 5 ==> r.inventory.weapon == Weapons(Scattergun)
    ensures id != 2 ==> r.permanentHitBonus == s.permanentHitBonus
    ensures id != 3 ==> r.hp == s.hp && r.maxHp == s.maxHp
    ensures id != 4 ==> r.points == s.points
    ensures id != 5 ==> r.inventory == s.inventory
    ensures r == s.(permanentHitBonus := r.permanentHitBonus, hp := r.hp, maxHp := r.maxHp, points := r.points,
                    inventory := r.inventory)
  {
    s.(permanentHitBonus := if id == 2 then s.permanentHitBonus + 1 else s.permanentHitBonus,
       maxHp := if id == 3 then 20 else s.maxHp,
       hp := if id == 3 then 20 else s.hp,
       points := if id == 4 then s.points + 5 else s.points,
       inventory := if id == 5 then s.inventory.(weapon := Weapons(Scattergun)) else s.inventory)
  }

  /** The list with every occurrence of `id` filtered out, order kept. */
  function Without(xs: seq<int>, id: int): (r: seq<int>)
    ensures forall x :: x in r <==> x in xs && x != id
    ensures |r| <= |xs|
    ensures id in xs ==> |r| < |xs|
    decreases |xs|
  {
    if |xs| == 0 then []
    else if xs[0] == id then Without(xs[1..], id)
    else [xs[0]] + Without(xs[1..], id)
  }

  /** Filtering an id that is not there changes nothing. */
  lemma {:induction false} WithoutAbsent(xs: seq<int>, id: int)
    requires id !in xs
    ensures Without(xs, id) == xs
    decreases |xs|
  {
    if |xs| > 0 {
      assert xs[1..] + [] == xs[1..];
      WithoutAbsent(xs[1..], id);
    }
  }

  /** Filtering distributes over concatenation. */
  lemma {:induction false} WithoutAppend(xs: seq<int>, ys: seq<int>, id: int)
    ensures Without(xs + ys, id) == Without(xs, id) + Without(ys, id)
    decreases |xs|
  {
    if |xs| > 0 {
      assert (xs + ys)[1..] == xs[1..] + ys;
      WithoutAppend(xs[1..], ys, id);
    } else {
      assert xs + ys == ys;
    }
  }

  /** Revoking an id (the cursed wine): it leaves the list, and its effect is undone as the source undoes it. */
  function RemoveAdvancement(s: GameState, id: int): (r: GameState)
    ensures id !in r.advancements
    ensures forall a :: a != id ==> (a in r.advancements <==> a in s.advancements)
    ensures id == 2 ==> r.permanentHitBonus == Max(0, s.permanentHitBonus - 1)
    ensures id == 3 ==> r.maxHp == 15 && r.hp == Min(s.hp, 15)
    ensures id == 4 ==> r.points == Max(0, s.points - 5)
    ensures id == 5 && s.inventory.weapon.name == Scattergun ==> r.inventory.weapon == Weapons(BareHands)
    ensures id == 6 ==> r.halfDamage == NoHalfDamage
    ensures id != 3 ==> r.hp == s.hp && r.maxHp == s.maxHp
    ensures id != 4 ==> r.points == s.points
    ensures r.dutki == s.dutki && r.visitedTypes == s.visitedTypes && r.currentLocation == s.currentLocation
    ensures r.inCave == s.inCave && r.manorRoomsVisited == s.manorRoomsVisited
    ensures r.manorEnteredFromCave == s.manorEnteredFromCave
    ensures id != 2 ==> r.permanentHitBonus == s.permanentHitBonus
    ensures !(id == 5 && s.inventory.weapon.name == Scattergun) ==> r.inventory == s.inventory
    ensures id != 6 ==> r.halfDamage == s.halfDamage
    ensures r.(advancements := s.advancements, permanentHitBonus := s.permanentHitBonus, hp := s.hp,
               maxHp := s.maxHp, points := s.points, inventory := s.inventory, halfDamage := s.halfDamage) == s
  {
    UndoEffect(s.(advancements := Without(s.advancements, id)), id)
  }

  /** The effect of a revoked id undone; the list itself is left alone. */
  function UndoEffect(s: GameState, id: int): (r: GameState)
    ensures r.advancements == s.advancements
    ensures id == 2 ==> r.permanentHitBonus == Max(0, s.permanentHitBonus - 1)
    ensures id == 3 ==> r.maxHp == 15 && r.hp == Min(s.hp, 15)
    ensures id == 4 ==> r.points == Max(0, s.points - 5)
    ensures id == 5 && s.inventory.weapon.name == Scattergun ==> r.inventory.weapon == Weapons(BareHands)
    ensures id == 6 ==> r.halfDamage == NoHalfDamage
    ensures id != 2 ==> r.permanentHitBonus == s.permanentHitBonus
    ensures id != 3 ==> r.hp == s.hp && r.maxHp == s.maxHp
    ensures id != 4 ==> r.points == s.points
    ensures !(id == 5 && s.inventory.weapon.name == Scattergun) ==> r.inventory == s.inventory
    ensures id != 6 ==> r.halfDamage == s.halfDamage
    ensures r == s.(permanentHitBonus := r.permanentHitBonus, hp := r.hp, maxHp := r.maxHp, points := r.points,
                    inventory := r.inventory, halfDamage := r.halfDamage)
  {
    var dropsGun := id == 5 && s.inventory.weapon.name == Scattergun;
    s.(permanentHitBonus := if id == 2 then Max(0, s.permanentHitBonus - 1) else s.permanentHitBonus,
       maxHp := if id == 3 then 15 else s.maxHp,
       hp := if id == 3 then Min(s.hp, 15) else s.hp,
       points := if id == 4 then Max(0, s.points - 5) else s.points,
       inventory := if dropsGun then s.inventory.(weapon := Weapons(BareHands)) else s.inventory,
       halfDamage := if id == 6 then NoHalfDamage else s.halfDamage)
  }

  /** Granting a fresh id and then revoking it gives the list back; the +1 hit and +5 points come back
      off exactly, while max hp lands on 15/15 and the Scattergun leaves bare hands, whatever was held before. */
  lemma GrantThenRevoke(s: GameState, id: int)
    requires id !in s.advancements
    ensures RemoveAdvancement(ApplyAdvancementEffects(s, id), id).advancements == s.advancements
    ensures id == 2 && s.permanentHitBonus >= 0 ==>
      RemoveAdvancement(ApplyAdvancementEffects(s, id), id).permanentHitBonus == s.permanentHitBonus
    ensures id == 4 && s.points >= 0 ==>
      RemoveAdvancement(ApplyAdvancementEffects(s, id), id).points == s.points
    ensures id == 3 ==>
      RemoveAdvancement(ApplyAdvancementEffects(s, id), id).maxHp == 15 &&
      RemoveAdvancement(ApplyAdvancementEffects(s, id), id).hp == 15
    ensures id == 5 ==>
      RemoveAdvancement(ApplyAdvancementEffects(s, id), id).inventory.weapon == Weapons(BareHands)
  {
    var granted := ApplyAdvancementEffects(s, id);
    WithoutAppend(s.advancements, [id], id);
    WithoutAbsent(s.advancements, id);
    assert Without([id], id) == [];
    assert Without(granted.advancements, id) == s.advancements;
  }

  // ------------------------------------------------------ one advancement roll

  datatype RollOutcome =
    | Granted(state: GameState, id: int)
    | AwaitHalfDamageChoice(state: GameState)

  /** One step of the advancement sequence: reroll until fresh; ids 1-5 apply at once,
      id 6 waits for the player's two enemy choices. */
  function RollAdvancement(s: GameState, rolls: seq<int>): (o: RollOutcome)
    requires HasFreshRoll(s.advancements, rolls)
    ensures o.Granted? ==> o.id != 6 && o.id !in s.advancements && o.id in rolls
    ensures o.Granted? ==> o.state == Supervise(ApplyAdvancementEffects(s, o.id))
    ensures o.AwaitHalfDamageChoice? ==> 6 !in s.advancements && o.state == Supervise(s)
  {
    var id := RollNewAdvancement(s.advancements, rolls);
    if id != 6 then Granted(Supervise(ApplyAdvancementEffects(s, id)), id)
    else AwaitHalfDamageChoice(Supervise(s))
  }

  predicate IsScantyName(n: EnemyName) {
    exists i :: 0 <= i < |ScantyEnemies()| && ScantyEnemies()[i].name == n
  }

  predicate IsHardyName(n: EnemyName) {
    exists i :: 0 <= i < |HardyEnemies()| && HardyEnemies()[i].name == n
  }

  /** The second choice of the id-6 path: id 6 is held and the two chosen enemies are halved. */
  function GrantHalfDamage(s: GameState, scanty: EnemyName, hardy: EnemyName): (r: GameState)
    requires IsScantyName(scanty) && IsHardyName(hardy)
    ensures r.advancements == s.advancements + [6]
    ensures r.halfDamage == HalfDamage(Some(scanty), Some(hardy))
    ensures r.hp == s.hp && r.points == s.points && r.inventory == s.inventory
  {
    Supervise(s.(advancements := s.advancements + [6], halfDamage := HalfDamage(Some(scanty), Some(hardy))))
  }

  /** Appending a fresh valid id keeps the held ids distinct and valid. */
  lemma AppendFreshKeepsUnique(xs: seq<int>, id: int)
    requires NoDup(xs) && ValidIds(xs) && id !in xs && 1 <= id <= 6
    ensures NoDup(xs + [id]) && ValidIds(xs + [id])
  {
    var ys := xs + [id];
    forall i, j | 0 <= i < j < |ys| ensures ys[i] != ys[j] {
      if j == |xs| {
        assert ys[i] == xs[i];
      } else {
        assert ys[i] == xs[i] && ys[j] == xs[j];
      }
    }
  }

  /** Whatever the d6 rolls and the enemy choices, an advancement step never grants an id twice,
      and the sixth distinct id wins the run. */
  lemma AdvancementIdsStayUnique(s: GameState, rolls: seq<int>, scanty: EnemyName, hardy: EnemyName)
    requires NoDup(s.advancements) && ValidIds(s.advancements)
    requires forall i :: 0 <= i < |rolls| ==> IsRoll(rolls[i], 6)
    requires HasFreshRoll(s.advancements, rolls)
    requires IsScantyName(scanty) && IsHardyName(hardy)
    ensures RollAdvancement(s, rolls).Granted? ==>
      NoDup(RollAdvancement(s, rolls).state.advancements) && ValidIds(RollAdvancement(s, rolls).state.advancements)
    ensures RollAdvancement(s, rolls).AwaitHalfDamageChoice? ==>
      var r := GrantHalfDamage(RollAdvancement(s, rolls).state, scanty, hardy);
      NoDup(r.advancements) && ValidIds(r.advancements)
    ensures RollAdvancement(s, rolls).Granted? && |s.advancements| == 5 ==>
      RollAdvancement(s, rolls).state.hasWon
  {
    var o := RollAdvancement(s, rolls);
    var id := RollNewAdvancement(s.advancements, rolls);
    var k := FirstFresh(s.advancements, rolls);
    assert IsRoll(rolls[k], 6);
    AppendFreshKeepsUnique(s.advancements, id);
  }
}
