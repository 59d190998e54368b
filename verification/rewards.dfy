/** What a victory brings: the enemy's own reward, the fight's reward tags, and the scene that follows. */
module Rewards {
  import opened Common
  import opened Catalog
  import opened RunState
  import opened Visits
  import opened Inventories
  import opened Combat

  datatype ScrollRolls = ScrollRolls(kind: int, uses: int)

  /** Every die the reward step may roll, each in its own slot. */
  datatype RewardRolls = RewardRolls(
    chance: int,              // the enemy's d6 chance roll
    uses: int,                // d4 uses of a looted Bies scroll
    gold: int,                // the total of the enemy's gold dice (3d6, d4+d6 or 2d6)
    curse: int,               // the second d6 of the Undine and the Highwayman
    pantryOneHeal: int,       // d4
    pantryOneObject: ObjectRolls,
    pantryTwoHeal: int,       // d6
    pantryTwoFirst: ObjectRolls,
    pantryTwoSecond: ObjectRolls,
    libraryScroll: ScrollRolls)

  predicate ValidRewardRolls(r: RewardRolls) {
    ValidObjectRolls(r.pantryOneObject) && ValidObjectRolls(r.pantryTwoFirst)
    && ValidObjectRolls(r.pantryTwoSecond) && IsRoll(r.libraryScroll.kind, 4)
  }

  datatype AfterFight = AfterFight(state: GameState, lossChoice: bool, spookAdvancement: bool)

  /** A looted item: the Hajduk's knife, the Bies scroll, the Poacher's rope, the manor Hajduk's sabre, each on a d6 of 1-2. */
  function LootDrop(s: GameState, n: EnemyName, chance: int, uses: int): (r: GameState)
    requires n in {Hajduk, Bies, Poacher, MilordsHajduk}
    ensures chance > 2 ==> r == s
    ensures chance <= 2 && n == Hajduk ==> r.inventory.weapon.name == Knife
    ensures chance <= 2 && n == Bies ==> r.inventory.scrolls == s.inventory.scrolls + [Scroll(BiesSummoning, uses)]
    ensures chance <= 2 && n == Poacher ==> r.inventory.hasRope
    ensures chance <= 2 && n == MilordsHajduk ==> r.inventory.weapon == Weapons(Sabre)
    ensures r.(inventory := s.inventory) == s
  {
    var inv := s.inventory;
    if chance > 2 then s
    else if n == Hajduk then
      (if inv.weapon.name != Knife then s.(inventory := inv.(weapon := Weapons(Knife))) else s)
    else if n == Bies then s.(inventory := inv.(scrolls := inv.scrolls + [Scroll(BiesSummoning, uses)]))
    else if n == Poacher then s.(inventory := inv.(hasRope := true))
    else s.(inventory := inv.(weapon := Weapons(Sabre)))
  }

  /** Gold with a d6 curse: the Undine's curse wipes the points, the Highwayman's costs a point of hit. */
  function GoldDrop(s: GameState, n: EnemyName, gold: int, curse: int): (r: GameState)
    requires n == Undine || n == Highwayman
    ensures r.dutki == s.dutki + gold
    ensures r.points == (if n == Undine && curse == 1 then 0 else s.points)
    ensures r.temporaryHitPenalty == (if n == Highwayman && curse == 1 then -1 else s.temporaryHitPenalty)
    ensures r.(dutki := s.dutki, points := s.points, temporaryHitPenalty := s.temporaryHitPenalty) == s
  {
    var rich := s.(dutki := s.dutki + gold);
    if curse != 1 then rich
    else if n == Undine then rich.(points := 0)
    else rich.(temporaryHitPenalty := -1)
  }

  /** The Milord's spoils: gold, the Karabela in hand, and the hunt over for good. */
  function MilordSpoils(s: GameState, gold: int): (r: GameState)
    ensures r.dutki == s.dutki + gold
    ensures r.inventory.weapon == Weapons(Karabela) && r.inventory.hasKarabela
    ensures r.milordDefeated && !r.milordHunts
    ensures r.points == s.points && r.hp == s.hp && r.advancements == s.advancements
  {
    s.(dutki := s.dutki + gold,
       inventory := s.inventory.(weapon := Weapons(Karabela), hasKarabela := true),
       milordDefeated := true, milordHunts := false)
  }

  /** The enemy-specific reward, by name. */
  function EnemyReward(s: GameState, n: EnemyName, rolls: RewardRolls): (r: AfterFight)
    ensures r.lossChoice <==> (n == Wolf && rolls.chance == 1) || (n == Bear && rolls.chance <= 2)
    ensures r.spookAdvancement <==> n == Spook && rolls.chance <= 2
    ensures n != Undine ==> r.state.points == s.points
    ensures r.state.hp == s.hp && r.state.maxHp == s.maxHp && r.state.advancements == s.advancements
    ensures (n == Spook || n == MountainSpirit || n == Wolf || n == Bear) ==> r.state == s
    ensures n != TheMilord ==> r.state.milordHunts == s.milordHunts
  {
    match n
    case Hajduk => AfterFight(LootDrop(s, n, rolls.chance, rolls.uses), false, false)
    case Bies => AfterFight(LootDrop(s, n, rolls.chance, rolls.uses), false, false)
    case Poacher => AfterFight(LootDrop(s, n, rolls.chance, rolls.uses), false, false)
    case MilordsHajduk => AfterFight(LootDrop(s, n, rolls.chance, rolls.uses), false, false)
    case Wolf => AfterFight(s, rolls.chance == 1, false)
    case Bear => AfterFight(s, rolls.chance <= 2, false)
    case Undine => AfterFight(GoldDrop(s, n, rolls.gold, rolls.curse), false, false)
    case Highwayman => AfterFight(GoldDrop(s, n, rolls.gold, rolls.curse), false, false)
    case Spook => AfterFight(s, false, rolls.chance <= 2)
    case TheMilord => AfterFight(MilordSpoils(s, rolls.gold), false, false)
    case MountainSpirit => AfterFight(s, false, false)
  }

  /** The fight's pantry and library tags: heal (never past the maximum) plus random objects, or a random scroll. */
  function TagRewards(s: GameState, tags: seq<RewardTag>, rolls: RewardRolls): (r: GameState)
    requires ValidRewardRolls(rolls)
    ensures s.hp <= s.maxHp ==> r.hp <= s.maxHp
    ensures r.maxHp == s.maxHp && r.points == s.points && r.advancements == s.advancements
    ensures PantryOne !in tags && PantryTwo !in tags && LibrarySpook !in tags ==> r == s
    ensures s.inventory.potions <= 10 ==> r.inventory.potions <= 10
    ensures |s.inventory.scrolls| <= |r.inventory.scrolls|
    ensures r.milordHunts == s.milordHunts && r.milordDefeated == s.milordDefeated
    ensures PantryOne !in tags && PantryTwo !in tags ==> r.hp == s.hp
    ensures PantryOne in tags && PantryTwo !in tags ==> r.hp == Min(s.hp + rolls.pantryOneHeal, s.maxHp)
    ensures PantryOne !in tags && PantryTwo in tags ==> r.hp == Min(s.hp + rolls.pantryTwoHeal, s.maxHp)
    ensures PantryOne in tags && PantryTwo !in tags && LibrarySpook !in tags ==>
      r.inventory == GrantRandomObject(s.inventory, rolls.pantryOneObject).0
    ensures PantryOne !in tags && PantryTwo in tags && LibrarySpook !in tags ==>
      r.inventory == GrantRandomObject(GrantRandomObject(s.inventory, rolls.pantryTwoFirst).0, rolls.pantryTwoSecond).0
    ensures LibrarySpook in tags ==>
      |r.inventory.scrolls| > 0
      && r.inventory.scrolls[|r.inventory.scrolls| - 1]
         == CreateRandomScroll(rolls.libraryScroll.kind, rolls.libraryScroll.uses)
    ensures PantryOne !in tags && PantryTwo !in tags && LibrarySpook in tags ==>
      r.inventory == s.inventory.(scrolls := s.inventory.scrolls
        + [CreateRandomScroll(rolls.libraryScroll.kind, rolls.libraryScroll.uses)])
  {
    var s1 := if PantryOne in tags then PantryOneReward(s, rolls) else s;
    var s2 := if PantryTwo in tags then PantryTwoReward(s1, rolls) else s1;
    if LibrarySpook in tags then LibraryReward(s2, rolls) else s2
  }

  /** The pantry guard's reward: a d4 of healing, never past the maximum, and one random object. */
  function PantryOneReward(s: GameState, rolls: RewardRolls): (r: GameState)
    requires ValidRewardRolls(rolls)
    ensures r.hp == Min(s.hp + rolls.pantryOneHeal, s.maxHp)
    ensures r.inventory == GrantRandomObject(s.inventory, rolls.pantryOneObject).0
    ensures r.(hp := s.hp, inventory := s.inventory) == s
    ensures s.inventory.potions <= 10 ==> r.inventory.potions <= 10
    ensures |s.inventory.scrolls| <= |r.inventory.scrolls|
    ensures r.maxHp == s.maxHp && r.points == s.points && r.advancements == s.advancements
    ensures r.milordHunts == s.milordHunts && r.milordDefeated == s.milordDefeated
  {
    var healed := s.(hp := Min(s.hp + rolls.pantryOneHeal, s.maxHp));
    healed.(inventory := GrantRandomObject(healed.inventory, rolls.pantryOneObject).0)
  }

  /** The stocked pantry's reward: a d6 of healing, never past the maximum, and two random objects. */
  function PantryTwoReward(s: GameState, rolls: RewardRolls): (r: GameState)
    requires ValidRewardRolls(rolls)
    ensures r.hp == Min(s.hp + rolls.pantryTwoHeal, s.maxHp)
    ensures r.inventory == GrantRandomObject(GrantRandomObject(s.inventory, rolls.pantryTwoFirst).0, rolls.pantryTwoSecond).0
    ensures r.(hp := s.hp, inventory := s.inventory) == s
    ensures s.inventory.potions <= 10 ==> r.inventory.potions <= 10
    ensures |s.inventory.scrolls| <= |r.inventory.scrolls|
    ensures r.maxHp == s.maxHp && r.points == s.points && r.advancements == s.advancements
    ensures r.milordHunts == s.milordHunts && r.milordDefeated == s.milordDefeated
  {
    var healed := s.(hp := Min(s.hp + rolls.pantryTwoHeal, s.maxHp));
    var first := GrantRandomObject(healed.inventory, rolls.pantryTwoFirst).0;
    healed.(inventory := GrantRandomObject(first, rolls.pantryTwoSecond).0)
  }

  /** The library's reward: one random scroll at the end of the pack. */
  function LibraryReward(s: GameState, rolls: RewardRolls): (r: GameState)
    requires ValidRewardRolls(rolls)
    ensures r.inventory == s.inventory.(scrolls := s.inventory.scrolls
      + [CreateRandomScroll(rolls.libraryScroll.kind, rolls.libraryScroll.uses)])
    ensures r.hp == s.hp && r.(inventory := s.inventory) == s
    ensures s.inventory.potions <= 10 ==> r.inventory.potions <= 10
    ensures |s.inventory.scrolls| <= |r.inventory.scrolls|
    ensures r.maxHp == s.maxHp && r.points == s.points && r.advancements == s.advancements
    ensures r.milordHunts == s.milordHunts && r.milordDefeated == s.milordDefeated
  {
    s.(inventory := s.inventory.(scrolls := s.inventory.scrolls
      + [CreateRandomScroll(rolls.libraryScroll.kind, rolls.libraryScroll.uses)]))
  }

  /** The reward step after a victory, supervised as the source's `applyState` does. */
  function ResolveAfterFight(s: GameState, e: Enemy, tags: seq<RewardTag>, rolls: RewardRolls): (r: AfterFight)
    requires ValidRewardRolls(rolls)
    ensures Supervised(r.state)
    ensures r.lossChoice == EnemyReward(s, e.name, rolls).lossChoice
    ensures r.spookAdvancement == EnemyReward(s, e.name, rolls).spookAdvancement
    ensures r.state.points == EnemyReward(s, e.name, rolls).state.points
    ensures s.hp <= s.maxHp ==> r.state.hp <= s.maxHp
    ensures e.name != TheMilord ==> r.state.milordHunts == s.milordHunts
  {
    var er := EnemyReward(s, e.name, rolls);
    er.(state := Supervise(TagRewards(er.state, tags, rolls)))
  }

  /** Beating the Milord ends his hunt: no later hardy fight is taken over by him. */
  lemma MilordVictoryEndsTheHunt(s: GameState, e: Enemy, tags: seq<RewardTag>, rolls: RewardRolls,
                                 p: FightParams, enemyRoll: int)
    requires ValidRewardRolls(rolls) && e.name == TheMilord
    requires p.enemy.Some? || IsRoll(enemyRoll, 4)
    ensures var after := ResolveAfterFight(s, e, tags, rolls).state;
            after.milordDefeated && !after.milordHunts
            && StartCombat(after, after, p, enemyRoll).1.enemy == BaseEnemy(p, enemyRoll)
  {
    var er := EnemyReward(s, e.name, rolls);
    assert er.state == MilordSpoils(s, rolls.gold);
    var after := ResolveAfterFight(s, e, tags, rolls).state;
    assert !after.milordHunts && after.milordDefeated;
    assert FightEnemy(after.milordHunts, p, enemyRoll) == BaseEnemy(p, enemyRoll);
  }

  /** The hunt outlives every other fight: a turn of any fight keeps it, and so does the reward for
      beating anyone but the Milord, after which the next hardy-tier fight against anyone but the
      Milord or the Spirit is still fought against the Milord. */
  lemma HuntLastsUntilTheMilordFalls(s: GameState, c: Combat, a: Action, turn: TurnRolls,
                                     tags: seq<RewardTag>, rolls: RewardRolls, p: FightParams, enemyRoll: int)
    requires ValidRewardRolls(rolls)
    requires s.milordHunts && c.enemy.name != TheMilord
    requires p.isHardy && (p.enemy.Some? || IsRoll(enemyRoll, 4))
    requires BaseEnemy(p, enemyRoll).name != TheMilord && BaseEnemy(p, enemyRoll).name != MountainSpirit
    ensures ResolveCombatTurn(s, c, a, turn).state.milordHunts
    ensures var end := ResolveCombatTurn(s, c, a, turn);
            end.Won? ==>
              var after := ResolveAfterFight(end.state, c.enemy, tags, rolls).state;
              after.milordHunts && StartCombat(after, after, p, enemyRoll).1.enemy == Milord
  {
    var end := ResolveCombatTurn(s, c, a, turn);
    if end.Won? {
      var after := ResolveAfterFight(end.state, c.enemy, tags, rolls).state;
      assert after.milordHunts;
      assert FightEnemy(after.milordHunts, p, enemyRoll) == Milord;
    }
  }

  /** The Undine's gold always comes, and its curse leaves nothing of the points earned so far. */
  lemma UndineCurseWipesPoints(s: GameState, e: Enemy, tags: seq<RewardTag>, rolls: RewardRolls)
    requires ValidRewardRolls(rolls) && e.name == Undine
    ensures ResolveAfterFight(s, e, tags, rolls).state.points == (if rolls.curse == 1 then 0 else s.points)
  {
  }

  /** Enemies without loot and a fight without tags leave the run exactly as it was, bar supervision. */
  lemma BareVictoryChangesNothing(s: GameState, e: Enemy, rolls: RewardRolls)
    requires ValidRewardRolls(rolls)
    requires e.name in {Spook, Wolf, Bear, MountainSpirit}
    ensures ResolveAfterFight(s, e, [], rolls).state == Supervise(s)
  {
  }

  /** Taking the loss the player chose from the offered list. */
  function ChooseLoss(s: GameState, item: Loseable): (r: GameState)
    requires item in LoseableItems(s.inventory)
    ensures Holdings(r.inventory) == Holdings(s.inventory) - 1
    ensures r.hp == s.hp && r.points == s.points
  {
    LossTakesExactlyOne(s.inventory, item);
    Supervise(s.(inventory := ApplyLoss(s.inventory, item)))
  }

  /** The Spirit's treasure dice: a d6 times a d6 in dutki and three random scrolls. */
  datatype TreasureRolls = TreasureRolls(goldA: int, goldB: int, first: ScrollRolls, second: ScrollRolls, third: ScrollRolls)

  predicate ValidTreasureRolls(r: TreasureRolls) {
    IsRoll(r.first.kind, 4) && IsRoll(r.second.kind, 4) && IsRoll(r.third.kind, 4)
  }

  /** The Spirit's treasure: dutki and three scrolls added. */
  function SpiritTreasure(s: GameState, t: TreasureRolls): (r: GameState)
    requires ValidTreasureRolls(t)
    ensures r.dutki == s.dutki + t.goldA * t.goldB
    ensures |r.inventory.scrolls| == |s.inventory.scrolls| + 3
    ensures r.inventory.scrolls[..|s.inventory.scrolls|] == s.inventory.scrolls
    ensures r.hp == s.hp && r.advancements == s.advancements
  {
    Supervise(s.(dutki := s.dutki + t.goldA * t.goldB,
                 inventory := s.inventory.(scrolls := s.inventory.scrolls
                   + [CreateRandomScroll(t.first.kind, t.first.uses),
                      CreateRandomScroll(t.second.kind, t.second.uses),
                      CreateRandomScroll(t.third.kind, t.third.uses)])))
  }

  /** The scene after "Move On": the location counts as visited, then the special enemies' advancement
      rolls, or the first matching tag (enter the manor, continue the cave, continue the manor, fall risk). */
  function FinishVictory(s: GameState, e: Enemy, location: string, tags: seq<RewardTag>,
                         spookAdvancement: bool, t: TreasureRolls): (r: (GameState, Next))
    requires ValidTreasureRolls(t)
    ensures location in r.0.visitedTypes && location !in r.0.escapedTypes
    ensures r.0.visitedPlacesCount == s.visitedPlacesCount + 1
    ensures (e.name == TheMilord || (e.name == Spook && spookAdvancement)) ==>
      r.1 == AdvancementRolls(1, if ManorContinue in tags then ManorContinuation(true) else ReturnToGame)
    ensures e.name == MountainSpirit ==>
      (r.1 == AdvancementRolls(2, ReturnToGame) && r.0.dutki == s.dutki + t.goldA * t.goldB)
    ensures e.name != MountainSpirit ==> r.0.dutki == s.dutki
    ensures r.1.AdvancementRolls? <==> e.name == TheMilord || e.name == MountainSpirit || (e.name == Spook && spookAdvancement)
    ensures !r.1.AdvancementRolls? && EnterManor in tags ==> r.1 == EnterManorFromCave
    ensures !r.1.AdvancementRolls? && EnterManor !in tags && CaveContinue in tags ==> r.1 == CaveContinuation
    ensures !r.1.AdvancementRolls? && (forall g :: g in tags ==> g == PantryOne || g == PantryTwo || g == LibrarySpook) ==> r.1 == ReturnToGame
    ensures r.0.hp == s.hp && r.0.points == s.points
  {
    var visited := MarkVisited(s, location);
    var afterSpecial := if ManorContinue in tags then ManorContinuation(true) else ReturnToGame;
    if e.name == Spook && spookAdvancement then (visited, AdvancementRolls(1, afterSpecial))
    else if e.name == TheMilord then (visited, AdvancementRolls(1, afterSpecial))
    else if e.name == MountainSpirit then (SpiritTreasure(visited, t), AdvancementRolls(2, ReturnToGame))
    else if EnterManor in tags then (visited, EnterManorFromCave)
    else if CaveContinue in tags then (visited, CaveContinuation)
    else if ManorContinue in tags then (visited, ManorContinuation(true))
    else if FallRisk in tags then (visited, FallRiskCheck(location))
    else (visited, ReturnToGame)
  }
}
