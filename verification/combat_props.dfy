/** Properties of the combat resolver that relate its steps. */
module CombatProperties {
  import opened Common
  import opened Catalog
  import opened RunState
  import opened Inventories
  import opened Combat

  /** A landed attack is free: if the enemy survives, the character takes no damage this turn. */
  lemma LandedHitIsNotAnswered(s: GameState, c: Combat, rolls: TurnRolls)
    requires HitTotal(s, c, rolls.hit) >= c.enemy.points
    requires ResolveCombatTurn(s, c, Attack, rolls).Ongoing?
    ensures ResolveCombatTurn(s, c, Attack, rolls).state.hp == s.hp
    ensures ResolveCombatTurn(s, c, Attack, rolls).combat.currentHp
            == c.currentHp - (rolls.damage + CombatWeapon(s.inventory.weapon, c.forbiddenWeapons).bonusDamage)
               - (if c.currentBiesTurns > 0 then rolls.helper else 0)
  {
  }

  /** A miss is answered: the enemy's blow comes off the character's hp. */
  lemma MissIsAnswered(s: GameState, c: Combat, rolls: TurnRolls)
    requires HitTotal(s, c, rolls.hit) < c.enemy.points
    requires ResolveCombatTurn(s, c, Attack, rolls).Ongoing?
    ensures ResolveCombatTurn(s, c, Attack, rolls).state.hp == s.hp - Retaliation(s, c, rolls)
  {
  }

  /** A Fire Glyph damages the enemy without counting as a landed hit, so a surviving enemy still strikes back. */
  lemma FireGlyphIsAnswered(s: GameState, c: Combat, i: int, rolls: TurnRolls)
    requires 0 <= i < |s.inventory.scrolls| && s.inventory.scrolls[i].kind == FireGlyph
    requires ResolveCombatTurn(s, c, UseScroll(i), rolls).Ongoing?
    ensures ResolveCombatTurn(s, c, UseScroll(i), rolls).state.hp == s.hp - Retaliation(s, c, rolls)
    ensures ResolveCombatTurn(s, c, UseScroll(i), rolls).combat.currentHp
            == c.currentHp - (rolls.scroll + 1) - (if c.currentBiesTurns > 0 then rolls.helper else 0)
  {
  }

  /** A potion is answered too, and with no potion left the turn is spent doing nothing. */
  lemma PotionIsAnswered(s: GameState, c: Combat, rolls: TurnRolls)
    requires ResolveCombatTurn(s, c, DrinkPotion, rolls).Ongoing?
    ensures var healed := if s.inventory.potions > 0 then Min(s.hp + rolls.heal, s.maxHp) else s.hp;
            ResolveCombatTurn(s, c, DrinkPotion, rolls).state.hp == healed - Retaliation(s, c, rolls)
  {
    var act := PotionAction(s, c, rolls.heal);
    assert PlayerAction(s, c, DrinkPotion, rolls) == act;
    assert act.state.halfDamage == s.halfDamage && act.state.inventory.hasKaftan == s.inventory.hasKaftan;
    assert Retaliation(act.state, c, rolls) == Retaliation(s, c, rolls);
  }

  /** The ward loses a turn on every surviving turn, even one the enemy did not answer. */
  lemma WardTicksEvenWithoutBlow(s: GameState, c: Combat, rolls: TurnRolls)
    requires c.protectionActive > 0
    requires HitTotal(s, c, rolls.hit) >= c.enemy.points
    requires ResolveCombatTurn(s, c, Attack, rolls).Ongoing?
    ensures ResolveCombatTurn(s, c, Attack, rolls).combat.protectionActive == c.protectionActive - 1
    ensures ResolveCombatTurn(s, c, Attack, rolls).state.hp == s.hp
  {
  }

  /** The victory check comes before the enemy's turn: a killing attack costs no hp, and the
      helper's remaining turns are carried back to the character. */
  lemma VictoryComesFirst(s: GameState, c: Combat, a: Action, rolls: TurnRolls)
    requires a.Attack? || a.UseScroll?
    requires ResolveCombatTurn(s, c, a, rolls).Won?
    ensures ResolveCombatTurn(s, c, a, rolls).state.hp == s.hp
    ensures ResolveCombatTurn(s, c, a, rolls).state.activeBiesTurns == ResolveCombatTurn(s, c, a, rolls).combat.currentBiesTurns
  {
  }

  /** Damage at least the enemy's remaining hp wins on that very turn, whatever else is pending. */
  lemma EnoughDamageWins(s: GameState, c: Combat, rolls: TurnRolls)
    requires HitTotal(s, c, rolls.hit) >= c.enemy.points
    requires rolls.damage + CombatWeapon(s.inventory.weapon, c.forbiddenWeapons).bonusDamage >= c.currentHp
    requires c.currentBiesTurns > 0 ==> IsRoll(rolls.helper, 4)
    ensures ResolveCombatTurn(s, c, Attack, rolls).Won?
    ensures ResolveCombatTurn(s, c, Attack, rolls).state.points == s.points + RewardValue(c.enemy)
  {
  }

  /** A forbidden weapon fights as bare hands: +0 to hit and d4-1 damage. */
  lemma ForbiddenWeaponFightsBareHanded(s: GameState, c: Combat, rolls: TurnRolls)
    requires s.inventory.weapon.name in c.forbiddenWeapons
    requires HitTotal(s, c, rolls.hit) >= c.enemy.points
    requires IsRoll(rolls.damage, 4)
    ensures PlayerAction(s, c, Attack, rolls).enemyDamage == rolls.damage - 1
    ensures 0 <= PlayerAction(s, c, Attack, rolls).enemyDamage <= 3
  {
  }

  /** The full attack total with every bonus written out. */
  lemma HitFormula(s: GameState, c: Combat, rolls: TurnRolls)
    ensures PlayerAction(s, c, Attack, rolls).hitLanded <==>
      rolls.hit
      + (if s.inventory.weapon.name in c.forbiddenWeapons then 0 else s.inventory.weapon.hitBonus)
      + s.permanentHitBonus + c.fightHitMod + s.temporaryHitPenalty
      + (if c.enemy.name == TheMilord && s.milordTrueNameKnown then 1 else 0)
      + (if c.enemy.name == MountainSpirit && s.inventory.hasHeart then 1 else 0)
      >= c.enemy.points
  {
  }

  /** Scrolls are compacted after every scroll turn: no spent scroll is left in the pack. */
  lemma ScrollTurnCompacts(s: GameState, c: Combat, i: int, rolls: TurnRolls)
    requires !ResolveCombatTurn(s, c, UseScroll(i), rolls).Fled?
    ensures forall k :: 0 <= k < |ResolveCombatTurn(s, c, UseScroll(i), rolls).state.inventory.scrolls| ==>
      ResolveCombatTurn(s, c, UseScroll(i), rolls).state.inventory.scrolls[k].uses > 0
  {
  }

  /** A second helper does not stack: while one is active the scroll is not spent and the count is only ticked down. */
  lemma HelperDoesNotStack(s: GameState, c: Combat, i: int, rolls: TurnRolls)
    requires 0 <= i < |s.inventory.scrolls| && s.inventory.scrolls[i].kind == BiesSummoning
    requires c.currentBiesTurns > 0
    requires ResolveCombatTurn(s, c, UseScroll(i), rolls).Ongoing?
    ensures ResolveCombatTurn(s, c, UseScroll(i), rolls).combat.currentBiesTurns == c.currentBiesTurns - 1
    ensures ResolveCombatTurn(s, c, UseScroll(i), rolls).combat.currentHp == c.currentHp - rolls.helper
  {
  }

  /** hp is only ever lowered, never floored: a blow bigger than the hp left drives it below zero,
      and the run is dead. */
  lemma HpIsNotFloored(s: GameState, c: Combat, rolls: TurnRolls)
    requires HitTotal(s, c, rolls.hit) < c.enemy.points
    requires ResolveCombatTurn(s, c, Attack, rolls).Ongoing?
    requires 0 < s.hp < Retaliation(s, c, rolls)
    ensures ResolveCombatTurn(s, c, Attack, rolls).state.hp < 0
    ensures ResolveCombatTurn(s, c, Attack, rolls).state.isDead
  {
    MissIsAnswered(s, c, rolls);
  }

  /** A scroll that acts spends exactly one use of the pack; a sigil, or a helper that would stack,
      spends none. */
  lemma ScrollTurnSpendsOneUse(s: GameState, c: Combat, i: int, rolls: TurnRolls)
    requires 0 <= i < |s.inventory.scrolls| && s.inventory.scrolls[i].uses > 0
    ensures var kind := s.inventory.scrolls[i].kind;
            var idle := kind == DivinationSigil || (kind == BiesSummoning && c.currentBiesTurns > 0);
            var left := LiveUses(PlayerAction(s, c, UseScroll(i), rolls).state.inventory.scrolls);
            (idle ==> left == LiveUses(s.inventory.scrolls))
            && (!idle ==> left == LiveUses(s.inventory.scrolls) - 1)
  {
    var read := ReadScroll(s, c, i, rolls.scroll);
    LiveUsesCompact(read.state.inventory.scrolls);
    var sc := s.inventory.scrolls[i];
    LiveUsesUpdate(s.inventory.scrolls, i, Scroll(sc.kind, sc.uses - 1));
    assert UseOnce(s, i).inventory.scrolls == s.inventory.scrolls[i := Scroll(sc.kind, sc.uses - 1)];
  }

  /** Vanishing under the cap pays exactly what a killing blow would, and spends one charge of a cap
      that has one, never driving the charges below zero. */
  lemma VanishingPaysLikeVictory(s: GameState, c: Combat, rolls: TurnRolls)
    requires HitTotal(s, c, rolls.hit) >= c.enemy.points
    requires rolls.damage + CombatWeapon(s.inventory.weapon, c.forbiddenWeapons).bonusDamage >= c.currentHp
    requires c.currentBiesTurns > 0 ==> IsRoll(rolls.helper, 4)
    ensures AvoidCombatWithCap(s, c).0.points == ResolveCombatTurn(s, c, Attack, rolls).state.points
    ensures s.inventory.capCharges > 0 ==> AvoidCombatWithCap(s, c).0.inventory.capCharges == s.inventory.capCharges - 1
    ensures s.inventory.capCharges >= 0 ==> AvoidCombatWithCap(s, c).0.inventory.capCharges >= 0
  {
    EnoughDamageWins(s, c, rolls);
  }

  /** Fleeing the Milord sets him on the hunt, and the next hardy-tier fight that is not against the
      Milord or the Spirit is fought against him (`Rewards.HuntLastsUntilTheMilordFalls` carries the
      hunt through later fights). */
  lemma FleeingTheMilordMakesHimHunt(s: GameState, c: Combat, fleeRoll: int, p: FightParams, enemyRoll: int)
    requires c.enemy.name == TheMilord
    requires p.isHardy && (p.enemy.Some? || IsRoll(enemyRoll, 4))
    requires BaseEnemy(p, enemyRoll).name != TheMilord && BaseEnemy(p, enemyRoll).name != MountainSpirit
    ensures FleeCombat(s, c, fleeRoll).state.milordHunts
    ensures StartCombat(FleeCombat(s, c, fleeRoll).state, FleeCombat(s, c, fleeRoll).state, p, enemyRoll).1.enemy == Milord
  {
  }

  /** The hunt reaches even a scripted hardy fight: the cave pool's Undine is replaced by the Milord. */
  lemma HuntReplacesScriptedUndine(s: GameState, p: FightParams)
    requires s.milordHunts
    requires p.isHardy && p.enemy == Some(HardyEnemies()[0])
    ensures StartCombat(s, s, p, 0).1.enemy == Milord
  {
  }

  /** The Spirit is never replaced, and no scanty fight is. */
  lemma HuntSparesSpiritAndScanty(s: GameState, seen: GameState, p: FightParams, enemyRoll: int)
    requires p.enemy.Some? || IsRoll(enemyRoll, 4)
    requires !p.isHardy || p.enemy == Some(Spirit)
    ensures StartCombat(s, seen, p, enemyRoll).1.enemy == BaseEnemy(p, enemyRoll)
  {
  }
}
