/** One fight against one enemy: starting it, resolving a turn, and slipping away with the cap. */
module Combat {
  import opened Common
  import opened Catalog
  import opened RunState
  import opened Visits
  import opened Inventories

  /** Markers a fight carries for what happens after a victory. */
  datatype RewardTag = PantryOne | PantryTwo | LibrarySpook | ManorContinue | CaveContinue | FallRisk | EnterManor

  /** What a scene asks for when it starts a fight; absent fields take the source's defaults. */
  datatype FightParams = FightParams(
    isHardy: bool,
    enemy: Option<Enemy>,
    locationType: string,
    fleeDamageDie: Option<nat>,
    allowInvisibility: Option<bool>,
    forbiddenWeapons: seq<WeaponType>,
    postCombatReward: seq<RewardTag>)

  /** A plain random fight of the given tier at a location. */
  function RandomFight(isHardy: bool, location: string, tags: seq<RewardTag>): FightParams {
    FightParams(isHardy, None, location, None, None, [], tags)
  }

  /** The combat session. */
  datatype Combat = Combat(
    enemy: Enemy,
    currentHp: int,
    isHardy: bool,
    turn: int,
    protectionActive: int,     // ward turns left
    currentBiesTurns: int,     // summoned-helper turns left
    locationType: string,
    fleeDamageDie: nat,
    allowInvisibility: bool,
    forbiddenWeapons: seq<WeaponType>,
    fightHitMod: int,
    postCombatReward: seq<RewardTag>)

  /** Once the Milord hunts, he takes the place of any hardy-tier opponent except himself and the Spirit. */
  predicate MilordTakesOver(milordHunts: bool, isHardy: bool, base: Enemy) {
    milordHunts && isHardy && base.name != TheMilord && base.name != MountainSpirit
  }

  /** The catalog draw when the scene names no enemy: a d4 over the tier's table. */
  function BaseEnemy(p: FightParams, enemyRoll: int): (e: Enemy)
    requires p.enemy.Some? || IsRoll(enemyRoll, 4)
    ensures p.enemy.Some? ==> e == p.enemy.value
    ensures p.enemy.None? && p.isHardy ==> e in HardyEnemies() && e.category == Hardy
    ensures p.enemy.None? && !p.isHardy ==> e in ScantyEnemies() && e.category == Scanty
  {
    if p.enemy.Some? then p.enemy.value
    else if p.isHardy then HardyEnemies()[enemyRoll - 1]
    else ScantyEnemies()[enemyRoll - 1]
  }

  /** The opponent actually met: the Milord when he hunts and the fight is hardy-tier, else the base enemy. */
  function FightEnemy(milordHunts: bool, p: FightParams, enemyRoll: int): (e: Enemy)
    requires p.enemy.Some? || IsRoll(enemyRoll, 4)
    ensures MilordTakesOver(milordHunts, p.isHardy, BaseEnemy(p, enemyRoll)) ==> e == Milord
    ensures !milordHunts || !p.isHardy ==> e == BaseEnemy(p, enemyRoll)
    ensures e.name == MountainSpirit <==> BaseEnemy(p, enemyRoll).name == MountainSpirit
  {
    var base := BaseEnemy(p, enemyRoll);
    if MilordTakesOver(milordHunts, p.isHardy, base) then Milord else base
  }

  /** Starting a fight: the opponent at full health, the one-shot hit modifier moved from the
      character into the fight, the helper's remaining turns carried in, the source's defaults
      for the flee die (d4) and for the cap (allowed except against the Milord and the Spirit).
      The hunt, the modifier and the helper's turns are read from `seen`, the state captured when
      the chain of scenes leading to the fight began; only the reset of the modifier reaches the
      live state `s`. */
  function StartCombat(s: GameState, seen: GameState, p: FightParams, enemyRoll: int): (r: (GameState, Combat))
    requires p.enemy.Some? || IsRoll(enemyRoll, 4)
    ensures r.1.enemy == FightEnemy(seen.milordHunts, p, enemyRoll)
    ensures r.1.currentHp == r.1.enemy.hp && r.1.turn == 1 && r.1.protectionActive == 0
    ensures r.1.currentBiesTurns == seen.activeBiesTurns
    ensures r.1.fightHitMod == seen.nextFightHitMod && r.0.nextFightHitMod == 0
    ensures r.1.fleeDamageDie == p.fleeDamageDie.GetOr(4)
    ensures p.allowInvisibility.None? ==>
      (r.1.allowInvisibility <==> r.1.enemy.name != TheMilord && r.1.enemy.name != MountainSpirit)
    ensures p.allowInvisibility.Some? ==> r.1.allowInvisibility == p.allowInvisibility.value
    ensures r.1.locationType == p.locationType && r.1.postCombatReward == p.postCombatReward
    ensures r.1.forbiddenWeapons == p.forbiddenWeapons && r.1.isHardy == p.isHardy
    ensures r.0.hp == s.hp && r.0.points == s.points && r.0.inventory == s.inventory
    ensures r.0.milordHunts == s.milordHunts
  {
    var enemy := FightEnemy(seen.milordHunts, p, enemyRoll);
    var allow := p.allowInvisibility.GetOr(enemy.name != TheMilord && enemy.name != MountainSpirit);
    (Supervise(s.(nextFightHitMod := 0)),
     Combat(enemy, enemy.hp, p.isHardy, 1, 0, seen.activeBiesTurns, p.locationType,
            p.fleeDamageDie.GetOr(4), allow, p.forbiddenWeapons, seen.nextFightHitMod, p.postCombatReward))
  }

  // ------------------------------------------------------------ one turn

  datatype Action = Attack | DrinkPotion | UseScroll(index: int) | Flee

  /** Every die a turn may roll, each in its own slot; a turn reads only the slots its branches reach. */
  datatype TurnRolls = TurnRolls(
    hit: int,          // d6 to hit
    damage: int,       // the weapon's damage die
    heal: int,         // d6 from a potion
    scroll: int,       // the scroll's die: d4 helper turns, d6 glyph, d4 ward turns
    helper: int,       // d4 from an active summoned bies
    enemyDamage: int,  // the enemy's damage die
    ensnare: int,      // the Undine's d6 on even turns
    armour: int,       // d4 the kaftan absorbs
    ward: int,         // d4 the ward absorbs
    flee: int)         // the fight's flee die

  /** The weapon the fight lets the character use: a forbidden weapon fights as bare hands. */
  function CombatWeapon(w: Weapon, forbidden: seq<WeaponType>): (cw: Weapon)
    ensures w.name in forbidden ==> cw == Weapons(BareHands)
    ensures w.name !in forbidden ==> cw == w
  {
    if w.name in forbidden then Weapons(BareHands) else w
  }

  /** The attack total compared against the enemy's threshold. */
  function HitTotal(s: GameState, c: Combat, hitRoll: int): int {
    var milordBonus := if c.enemy.name == TheMilord && s.milordTrueNameKnown then 1 else 0;
    var spiritBonus := if c.enemy.name == MountainSpirit && s.inventory.hasHeart then 1 else 0;
    hitRoll + CombatWeapon(s.inventory.weapon, c.forbiddenWeapons).hitBonus + s.permanentHitBonus
      + c.fightHitMod + s.temporaryHitPenalty + milordBonus + spiritBonus
  }

  /** The player's half of a turn: the state and session after the action, the damage it did,
      and whether an attack landed. */
  datatype ActionResult = ActionResult(state: GameState, combat: Combat, enemyDamage: int, hitLanded: bool)

  /** Using the scroll at `i`: a Bies helper fights for a d4 of turns, but does not stack and costs no
      use while one is active; a Fire Glyph burns for d6+1; a ward holds for a d4 of turns; a
      Divination Sigil does nothing in a fight. Each scroll that acts spends one use. */
  function ReadScroll(s: GameState, c: Combat, i: int, roll: int): (r: ActionResult)
    requires 0 <= i < |s.inventory.scrolls|
    ensures var kind := s.inventory.scrolls[i].kind;
            (kind == BiesSummoning && c.currentBiesTurns > 0 ==> r.state == s && r.combat == c && r.enemyDamage == 0)
            && (kind == BiesSummoning && c.currentBiesTurns <= 0 ==>
                  r.state == UseOnce(s, i) && r.combat == c.(currentBiesTurns := roll) && r.enemyDamage == 0)
            && (kind == FireGlyph ==> r.state == UseOnce(s, i) && r.combat == c && r.enemyDamage == roll + 1)
            && (kind == ProtectionWard ==>
                  r.state == UseOnce(s, i) && r.combat == c.(protectionActive := roll) && r.enemyDamage == 0)
            && (kind == DivinationSigil ==> r.state == s && r.combat == c && r.enemyDamage == 0)
    ensures !r.hitLanded
    ensures r.combat.enemy == c.enemy && r.combat.turn == c.turn && r.combat.currentHp == c.currentHp
    ensures r.state.hp == s.hp && r.state.maxHp == s.maxHp && r.state.points == s.points
    ensures r.state.halfDamage == s.halfDamage && r.state.inventory.hasKaftan == s.inventory.hasKaftan
  {
    var spent := UseOnce(s, i);
    match s.inventory.scrolls[i].kind
    case BiesSummoning =>
      if c.currentBiesTurns > 0 then ActionResult(s, c, 0, false)
      else ActionResult(spent, c.(currentBiesTurns := roll), 0, false)
    case FireGlyph => ActionResult(spent, c, roll + 1, false)
    case ProtectionWard => ActionResult(spent, c.(protectionActive := roll), 0, false)
    case DivinationSigil => ActionResult(s, c, 0, false)
  }

  /** One use of the scroll at `i` spent in the fight; the scroll stays in place until the pack is compacted. */
  function UseOnce(s: GameState, i: int): (t: GameState)
    requires 0 <= i < |s.inventory.scrolls|
    ensures |t.inventory.scrolls| == |s.inventory.scrolls|
    ensures t.inventory.scrolls[i] == Scroll(s.inventory.scrolls[i].kind, s.inventory.scrolls[i].uses - 1)
    ensures forall k :: 0 <= k < |s.inventory.scrolls| && k != i ==> t.inventory.scrolls[k] == s.inventory.scrolls[k]
    ensures t.inventory == s.inventory.(scrolls := t.inventory.scrolls)
    ensures t == s.(inventory := t.inventory)
  {
    var sc := s.inventory.scrolls[i];
    s.(inventory := s.inventory.(scrolls := s.inventory.scrolls[i := sc.(uses := sc.uses - 1)]))
  }

  function PlayerAction(s: GameState, c: Combat, a: Action, rolls: TurnRolls): (r: ActionResult)
    requires !a.Flee?
    ensures r.combat.enemy == c.enemy && r.combat.currentHp == c.currentHp && r.combat.turn == c.turn
    ensures r.hitLanded ==> a.Attack?
    ensures a.Attack? ==> (r.hitLanded <==> HitTotal(s, c, rolls.hit) >= c.enemy.points)
    ensures a.Attack? && r.hitLanded ==>
      r.enemyDamage == rolls.damage + CombatWeapon(s.inventory.weapon, c.forbiddenWeapons).bonusDamage
    ensures a.Attack? && !r.hitLanded ==> r.enemyDamage == 0
    ensures a.Attack? ==> r.state == s && r.combat == c
    ensures a.DrinkPotion? && s.inventory.potions > 0 ==>
      r.state.hp == Min(s.hp + rolls.heal, s.maxHp) && r.state.inventory.potions == s.inventory.potions - 1
    ensures a.DrinkPotion? && s.inventory.potions <= 0 ==> r.state == s
    ensures a.UseScroll? ==> forall k :: 0 <= k < |r.state.inventory.scrolls| ==> r.state.inventory.scrolls[k].uses > 0
    ensures !a.UseScroll? ==> r.state.inventory.scrolls == s.inventory.scrolls
    ensures r.state.maxHp == s.maxHp && r.state.inventory.hasKaftan == s.inventory.hasKaftan
    ensures r.state.halfDamage == s.halfDamage && r.state.points == s.points
    ensures r.state.milordHunts == s.milordHunts
  {
    match a
    case Attack => AttackAction(s, c, rolls)
    case DrinkPotion => PotionAction(s, c, rolls.heal)
    case UseScroll(i) => ScrollAction(s, c, i, rolls.scroll)
  }

  /** An attack: a hit at or above the enemy's threshold deals the weapon's die and bonus. */
  function AttackAction(s: GameState, c: Combat, rolls: TurnRolls): (r: ActionResult)
    ensures r.state == s && r.combat == c
    ensures r.hitLanded <==> HitTotal(s, c, rolls.hit) >= c.enemy.points
    ensures r.hitLanded ==> r.enemyDamage == rolls.damage + CombatWeapon(s.inventory.weapon, c.forbiddenWeapons).bonusDamage
    ensures !r.hitLanded ==> r.enemyDamage == 0
  {
    if HitTotal(s, c, rolls.hit) >= c.enemy.points then
      ActionResult(s, c, rolls.damage + CombatWeapon(s.inventory.weapon, c.forbiddenWeapons).bonusDamage, true)
    else ActionResult(s, c, 0, false)
  }

  /** A potion: a d6 healed, never past the maximum, and one potion fewer; without one the turn is lost. */
  function PotionAction(s: GameState, c: Combat, heal: int): (r: ActionResult)
    ensures r.combat == c && !r.hitLanded && r.enemyDamage == 0
    ensures s.inventory.potions > 0 ==>
      r.state.hp == Min(s.hp + heal, s.maxHp) && r.state.inventory.potions == s.inventory.potions - 1
    ensures s.inventory.potions <= 0 ==> r.state == s
    ensures r.state.inventory.scrolls == s.inventory.scrolls && r.state.maxHp == s.maxHp
    ensures r.state.inventory.hasKaftan == s.inventory.hasKaftan
    ensures r.state.halfDamage == s.halfDamage && r.state.points == s.points
    ensures r.state.milordHunts == s.milordHunts
  {
    if s.inventory.potions > 0 then
      ActionResult(s.(hp := Min(s.hp + heal, s.maxHp),
                      inventory := s.inventory.(potions := s.inventory.potions - 1)), c, 0, false)
    else ActionResult(s, c, 0, false)
  }

  /** A scroll read (an index with no scroll does nothing), after which every spent scroll leaves the pack. */
  function ScrollAction(s: GameState, c: Combat, i: int, roll: int): (r: ActionResult)
    ensures 0 <= i < |s.inventory.scrolls| ==>
      r.combat == ReadScroll(s, c, i, roll).combat && r.enemyDamage == ReadScroll(s, c, i, roll).enemyDamage
      && r.state.inventory.scrolls == Compact(ReadScroll(s, c, i, roll).state.inventory.scrolls)
    ensures !(0 <= i < |s.inventory.scrolls|) ==>
      r.combat == c && r.enemyDamage == 0 && r.state.inventory.scrolls == Compact(s.inventory.scrolls)
    ensures r.combat.enemy == c.enemy && r.combat.currentHp == c.currentHp && r.combat.turn == c.turn
    ensures !r.hitLanded
    ensures forall k :: 0 <= k < |r.state.inventory.scrolls| ==> r.state.inventory.scrolls[k].uses > 0
    ensures r.state.hp == s.hp && r.state.maxHp == s.maxHp && r.state.inventory.hasKaftan == s.inventory.hasKaftan
    ensures r.state.halfDamage == s.halfDamage && r.state.points == s.points
    ensures r.state.milordHunts == s.milordHunts
  {
    var read := if 0 <= i < |s.inventory.scrolls| then ReadScroll(s, c, i, roll)
                else ActionResult(s, c, 0, false);
    var st := read.state;
    read.(state := st.(inventory := st.inventory.(scrolls := Compact(st.inventory.scrolls))))
  }

  /** The enemy's blow: its die plus bonus (a d6 ensnare for the Undine on even turns), floor-halved
      for a halved enemy, then less a d4 for the kaftan and a d4 for an active ward, never below 0. */
  function Retaliation(s: GameState, c: Combat, rolls: TurnRolls): (dmg: int)
    ensures s.inventory.hasKaftan || c.protectionActive > 0 ==> dmg >= 0
  {
    var rolled := rolls.enemyDamage + c.enemy.dmgBonus;
    var base := if c.enemy.name == Undine && c.turn % 2 == 0 then rolls.ensnare else rolled;
    var halvedScanty := if c.enemy.category == Scanty && s.halfDamage.scanty == Some(c.enemy.name) then base / 2 else base;
    var halved := if c.enemy.category == Hardy && s.halfDamage.hardy == Some(c.enemy.name) then halvedScanty / 2 else halvedScanty;
    var armoured := if s.inventory.hasKaftan then Max(0, halved - rolls.armour) else halved;
    if c.protectionActive > 0 then Max(0, armoured - rolls.ward) else armoured
  }

  /** Whether this enemy is one the id-6 advancement halves. */
  predicate Halved(s: GameState, e: Enemy) {
    (e.category == Scanty && s.halfDamage.scanty == Some(e.name))
    || (e.category == Hardy && s.halfDamage.hardy == Some(e.name))
  }

  /** With real dice the blow is never negative and never more than the enemy's die plus bonus
      (a d6 for an ensnaring Undine), halved when the enemy is halved; armour and ward only lower it. */
  lemma RetaliationBounds(s: GameState, c: Combat, rolls: TurnRolls)
    requires c.enemy.dmgBonus >= 0
    requires IsRoll(rolls.enemyDamage, c.enemy.dmgDie) && IsRoll(rolls.ensnare, 6)
    requires IsRoll(rolls.armour, 4) && IsRoll(rolls.ward, 4)
    ensures var top := if c.enemy.name == Undine && c.turn % 2 == 0 then 6 else c.enemy.dmgDie + c.enemy.dmgBonus;
            0 <= Retaliation(s, c, rolls) <= (if Halved(s, c.enemy) then top / 2 else top)
    ensures !s.inventory.hasKaftan && c.protectionActive <= 0 && !Halved(s, c.enemy) ==>
      Retaliation(s, c, rolls) == (if c.enemy.name == Undine && c.turn % 2 == 0 then rolls.ensnare
                                  else rolls.enemyDamage + c.enemy.dmgBonus)
  {
  }

  /** On the same dice, the kaftan and an active ward only ever lower the blow. */
  lemma ArmourAndWardOnlyLower(s: GameState, c: Combat, rolls: TurnRolls, ward: int)
    requires c.enemy.dmgBonus >= 0 && ward > 0
    requires IsRoll(rolls.enemyDamage, c.enemy.dmgDie) && IsRoll(rolls.ensnare, 6)
    requires IsRoll(rolls.armour, 4) && IsRoll(rolls.ward, 4)
    ensures Retaliation(s.(inventory := s.inventory.(hasKaftan := true)), c, rolls)
            <= Retaliation(s.(inventory := s.inventory.(hasKaftan := false)), c, rolls)
    ensures Retaliation(s, c.(protectionActive := ward), rolls) <= Retaliation(s, c.(protectionActive := 0), rolls)
  {
  }

  datatype TurnResult =
    | Fled(state: GameState, next: Next)
    | Won(state: GameState, combat: Combat)
    | Ongoing(state: GameState, combat: Combat)

  /** Fleeing: take the flee die (none when it is 0), mark the location escaped, and set the Milord on the hunt. */
  function FleeCombat(s: GameState, c: Combat, fleeRoll: int): (r: TurnResult)
    ensures r.Fled?
    ensures c.fleeDamageDie == 0 ==> r.state.hp == s.hp
    ensures c.fleeDamageDie != 0 && fleeRoll > 0 ==> r.state.hp == s.hp - fleeRoll
    ensures c.locationType != "" ==> r.state.escapedTypes == s.escapedTypes + {c.locationType}
    ensures r.state.visitedTypes == s.visitedTypes
    ensures c.enemy.name == TheMilord ==> r.state.milordHunts
    ensures s.milordHunts ==> r.state.milordHunts
    ensures r.state.points == s.points && r.state.advancements == s.advancements
    ensures r.next == (if c.locationType == ACliff || c.locationType == Crags then FallRiskCheck(c.locationType) else ReturnToGame)
    ensures Supervised(r.state)
  {
    var runDamage := if c.fleeDamageDie == 0 then 0 else fleeRoll;
    var hp := if runDamage > 0 then s.hp - runDamage else s.hp;
    var hunts := if c.enemy.name == TheMilord then true else s.milordHunts;
    var escaped := if c.locationType != "" then s.escapedTypes + {c.locationType} else s.escapedTypes;
    var next := if c.locationType == ACliff || c.locationType == Crags then FallRiskCheck(c.locationType) else ReturnToGame;
    Fled(Supervise(s.(hp := hp, milordHunts := hunts, escapedTypes := escaped)), next)
  }

  /** One combat turn. */
  function ResolveCombatTurn(s: GameState, c: Combat, a: Action, rolls: TurnRolls): (r: TurnResult)
    ensures a.Flee? <==> r.Fled?
    ensures r.Won? ==> r.combat.currentHp <= 0 && r.state.points == s.points + RewardValue(c.enemy)
    ensures r.Ongoing? ==> r.combat.currentHp > 0 && r.combat.turn == c.turn + 1 && Supervised(r.state)
    ensures r.Ongoing? || r.Won? ==> r.combat.enemy == c.enemy && r.combat.locationType == c.locationType
    ensures r.state.milordHunts == (s.milordHunts || (a.Flee? && c.enemy.name == TheMilord))
  {
    if a.Flee? then FleeCombat(s, c, rolls.flee)
    else
      var act := PlayerAction(s, c, a, rolls);
      var helped := act.combat.currentBiesTurns > 0;
      var helperDamage := if helped then rolls.helper else 0;
      var c1 := act.combat.(currentBiesTurns := if helped then act.combat.currentBiesTurns - 1 else act.combat.currentBiesTurns);
      var c2 := c1.(currentHp := c1.currentHp - (act.enemyDamage + helperDamage));
      if c2.currentHp <= 0 then
        Won(act.state.(points := act.state.points + RewardValue(c2.enemy), activeBiesTurns := c2.currentBiesTurns), c2)
      else
        var s1 := if !act.hitLanded then act.state.(hp := act.state.hp - Retaliation(act.state, c2, rolls)) else act.state;
        var c3 := c2.(protectionActive := if c2.protectionActive > 0 then c2.protectionActive - 1 else c2.protectionActive,
                      turn := c2.turn + 1);
        Ongoing(Supervise(s1), c3)
  }

  // ------------------------------------------------------------- slipping away

  /** Vanishing under the cap: full reward points, one charge spent (never below 0), the location
      counted as visited, and a fall-risk check at the cliff or the crags. */
  function AvoidCombatWithCap(s: GameState, c: Combat): (r: (GameState, Next))
    ensures r.0.points == s.points + RewardValue(c.enemy)
    ensures r.0.inventory.capCharges == Max(0, s.inventory.capCharges - 1)
    ensures c.locationType in r.0.visitedTypes && c.locationType !in r.0.escapedTypes
    ensures r.0.visitedPlacesCount == s.visitedPlacesCount + 1 && r.0.hp == s.hp
    ensures r.1 == (if c.locationType == ACliff || c.locationType == Crags then FallRiskCheck(c.locationType) else ReturnToGame)
  {
    var s1 := Supervise(s.(points := s.points + RewardValue(c.enemy),
                           inventory := s.inventory.(capCharges := Max(0, s.inventory.capCharges - 1))));
    (MarkVisited(s1, c.locationType),
     if c.locationType == ACliff || c.locationType == Crags then FallRiskCheck(c.locationType) else ReturnToGame)
  }
}
