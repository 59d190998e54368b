# Corny Gron: a Dafny model of the game engine

Corny Gron is a single-player dice game set in the Tatra mountains. The character starts with
15 hp, a weapon, some dutki (coins) and maybe one extra item. They roll 2d6 to travel between
twelve location ids that lead to nine places: a meadow, a cliff, crags, a burrow leading down into a cave, a shepherd's hut,
the mountain pass, a village, the Milord's manor, and Peak Black. At each location they meet
d6 encounters and fight scanty, hardy or special enemies. Victories bring points and loot.
The run is won with six advancements, or by reaching the summit after visiting every
required place. It ends when hp reaches 0.

This project models the engine in `App.tsx`, together with its tables in `rules.ts` and
`constants.tsx`. Every die the engine rolls is an explicit parameter here, so each operation
is a pure function of the state and its dice. `IsRoll(r, n)` says that `r` is a real roll of
an n-sided die, and a contract only assumes it where the source relies on it.

The modules follow the source's structure:

- `Common`: `Option`, `IsRoll`, `Min` and `Max`.
- `Catalog`: the weapons, scroll, advancement, enemy and location tables.
- `RunState`: the 28-field game state and the `Next` continuations a scene hands back. It also
  holds `Supervise`, the check `updateState`/`applyState` run after every update: it raises
  `isDead` when hp is at or below 0 and `hasWon` at six advancements, and it never lowers
  either flag.
- `Visits`: visit bookkeeping and the three rest cooldowns it drives.
- `Advancement`: rolling, granting and revoking advancements.
- `Inventories`: random scrolls and objects, scroll compaction, and the list of items that can
  be lost.
- `Combat`, `CombatProperties`: starting a fight, one combat turn, fleeing, the cap of
  invisibility, and the properties that relate these.
- `Rewards`: what a victory brings, and the scene after it.
- `Locations`: travel, the location dispatcher with its revisit shortcut, the generic encounter,
  the dangerous terrain and its fall risk, the summit, the mountain pass and the village.
- `Manor`: the entry room, the choice of the next room, and the six rooms.
- `Caves`: the cave's d6 table, the hidden passage and the ways out.

A scene that waits for the player's click returns its continuation as data: a `Next`, an
`Arrival`, an `EncounterOutcome`, a `RoomOutcome` or a `CaveOutcome`. The player's choice
becomes a parameter of the function that resolves it. Sometimes a source closure reads a
`gameState` captured before the action ran. The model then reads the state from before the
action as well: the hut's rest offer uses the cooldown at arrival, and the village's offer uses
the cooldown from before its own visit is recorded. In the cave, every choice reads the state
captured when the chain of cave scenes began: the burrow's travel or the victory that continued
the cave. So the spring's offer, the kaftan's weight in the flood and the hidden passage's first
glimpse all depend on that captured state, even after "Go Deeper". Starting a fight reads the
Milord's hunt, the one-shot hit modifier and the helper's turns from the captured state too, and
only resets the modifier in the live state: a meal's modifier set earlier in the same chain of
manor scenes is wiped without reaching that fight. The fall check offers the rope when the
captured state holds it, so the rope still adds its +1 after it was lost along the way.

## Model

| member | source | states |
|---|---|---|
| Catalog.Weapons | constants.tsx:4-12 | every weapon type has a stat block carrying its own name and a positive damage die; only the Sabre and the Karabela add +1 to hit |
| Catalog.BareHandsDealZeroToThree | constants.tsx:11 | bare hands cost nothing and add nothing to hit, and a bare-handed hit deals 0 to 3 damage (d4-1) |
| Catalog.FirearmDamage | constants.tsx:8-9 | the Samopał deals d6+1 and the Scattergun d6+2 |
| Catalog.ScrollDescription | constants.tsx:23-28 | every scroll type has a non-empty description |
| Catalog.AdvancementTable | constants.tsx:14-21 | the advancement table has exactly six rows, and id 3 is the rise of max hp to 20 |
| Catalog.EnemyTextInjective | rules.ts:5-13 | distinct enemy identities have distinct names, so comparing names as the source does compares enemies |
| Catalog.ScantyEnemies | rules.ts:15-20 | the scanty table has four entries, all in the scanty category |
| Catalog.HardyEnemies | rules.ts:22-27 | the hardy table has four entries, all in the hardy category |
| Catalog.CatalogEnemiesWellFormed | rules.ts:15-31 | every enemy the tables define has a name, a positive hit threshold, a damage die and hit points |
| Catalog.CatalogNamesDistinct | rules.ts:15-31 | no two catalog enemies share a name |
| Catalog.OnlyBearRewardsExtra | rules.ts:24 | only the Bear declares its own reward (7 points over a threshold of 5); every other enemy is worth its threshold |
| Catalog.SpecialEnemyStats | rules.ts:29-31 | the Milord, the manor's hajduk and the Mountain Spirit are special enemies with the listed threshold, damage and hp |
| Catalog.LocationOptions | rules.ts:33-46 | the location table holds ids 1 to 12 in order, from Peak Black to the mountain village |
| RunState.Supervise | App.tsx:137-164 | after supervision the terminal flags agree with hp and the advancement count; a flag once raised is never lowered, a flag is only raised with cause, and every other field is untouched |
| RunState.SuperviseIdempotent | App.tsx:137-164 | supervising twice is supervising once, and an already consistent state is left alone |
| RunState.InitialState | App.tsx:191-252 | a new run starts at 15/15 hp with a starting weapon, 7 to 12 dutki, nothing visited, every rest available, and exactly the one extra item its d4 picks |
| Visits.MarkVisited | App.tsx:296-307 | recording a visit adds the place to the visited set and removes it from the escaped set; it advances the place counter and all three rest cooldowns by one and leaves everything else alone |
| Visits.MarkVisitedClearsOverlap | App.tsx:296-307 | after the visit is recorded, the place is no longer both visited and escaped |
| Visits.VisitAllCounts | App.tsx:296-307 | a sequence of n visits advances the place counter and every cooldown by exactly n and never changes hp |
| Visits.VisitAllRecords | App.tsx:296-307 | after a sequence of visits every one of those places is visited, and nothing visited before is forgotten |
| Visits.RestAtHut | App.tsx:1611-1635 | resting in the hut heals d6+2 but never past max hp, restarts only the hut cooldown and clears the hit penalty; a real roll never lowers hp |
| Visits.RestAtVillage | App.tsx:1637-1660 | resting in the village heals d6+6 but never past max hp, restarts only the village cooldown and clears the hit penalty |
| Visits.DrinkFromSpring | App.tsx:1716-1738 | the spring restores full hp, restarts only the spring cooldown and clears the hit penalty |
| Visits.HutRestCycle | App.tsx:1611-1635 | after resting in the hut, the hut is offered again exactly when six more places have been visited |
| Visits.VillageAndSpringRestCycle | App.tsx:1637-1660 | the village and the spring are offered again exactly six visits after their last use |
| Advancement.FirstFresh | App.tsx:309-315 | the reroll loop stops at the first roll that is not already held; every earlier roll is held |
| Advancement.RollNewAdvancement | App.tsx:309-315 | the rolled advancement is one of the dice and is not already held |
| Advancement.RollNewAdvancementSkipsHeld | App.tsx:309-315 | a held roll is skipped and the loop goes on; a fresh roll is the result |
| Advancement.NoDupCardinality | App.tsx:309-315 | a list of distinct ids holds as many ids as it has entries |
| Advancement.SixDistinctIdsAreAll | App.tsx:309-315 | six distinct ids from 1 to 6 are all the ids there are |
| Advancement.NoFreshRollWhenAllHeld | App.tsx:309-315 | with all six ids held, no d6 roll is fresh, so the reroll loop could not stop |
| Advancement.ApplyAdvancementEffects | App.tsx:317-326 | granting an id appends it and applies its own effect: id 2 gives +1 to hit, id 3 sets max hp and hp to 20, id 4 gives +5 points, id 5 the Scattergun; every other field of the state is unchanged |
| Advancement.GrantEffect | App.tsx:318-325 | the per-id effect alone: exactly the field its id names changes, and every other field, the held list included, is unchanged |
| Advancement.Without | App.tsx:429-447 | filtering an id out keeps exactly the other ids, and shortens a list that held it |
| Advancement.WithoutAbsent | App.tsx:429-447 | filtering out an id that is absent changes nothing |
| Advancement.WithoutAppend | App.tsx:429-447 | filtering distributes over concatenation |
| Advancement.RemoveAdvancement | App.tsx:429-447 | revoking an id removes it and keeps every other id; its effect is undone with the source's floors, so the hit bonus and points do not go below 0, max hp returns to 15 with hp capped at 15, a Scattergun in hand becomes bare hands, and id 6 clears the halved enemies; every other field is unchanged |
| Advancement.UndoEffect | App.tsx:432-446 | the per-id undo alone: only the field its id names changes, a weapon other than the Scattergun is kept, and every other field is unchanged |
| Advancement.GrantThenRevoke | App.tsx:317-447 | granting a fresh id and then revoking it restores the held list; the hit bonus, points and max hp come back, and the granted Scattergun is lost to bare hands |
| Advancement.RollAdvancement | App.tsx:328-386 | one step of the sequence grants a fresh id from the dice with its effect, or, on id 6, waits for the choice of the two enemies to halve |
| Advancement.GrantHalfDamage | App.tsx:346-375 | the id-6 choice appends 6 and records the chosen scanty and hardy enemies; hp, points and inventory do not change |
| Advancement.AppendFreshKeepsUnique | App.tsx:317-326 | appending a fresh valid id keeps the held ids distinct and valid |
| Advancement.AdvancementIdsStayUnique | App.tsx:328-386 | whatever the dice and enemy choices, an advancement step never grants an id twice, and a grant made while five ids are held wins the run |
| Inventories.CreateRandomScroll | App.tsx:1122-1127 | a d4 picks the scroll type; a Divination Sigil always has one use and any other scroll a d4 of uses |
| Inventories.Compact | App.tsx:568 | compaction keeps exactly the scrolls with uses left, in their order and with their multiplicity |
| Inventories.CompactKeepsLiveScrolls | App.tsx:568 | a pack with no spent scroll is already compact |
| Inventories.CompactAppend | App.tsx:568 | compacting two packs laid end to end is compacting each and joining them, so order and repeats are kept |
| Inventories.CompactOne | App.tsx:568 | a single scroll survives compaction exactly when it has a use left |
| Inventories.LiveUsesCompact | App.tsx:568 | compaction never changes the number of uses left in the pack |
| Inventories.LiveUsesUpdate | App.tsx:542-566 | replacing one scroll changes the uses left by exactly the difference between the old and the new scroll |
| Inventories.LiveUsesRemove | App.tsx:847-873 | removing one scroll takes away exactly the uses it had left |
| Inventories.GrantRandomObject | App.tsx:1129-1174 | a found object never gives a second rope, kaftan or cap, or more than 10 potions; a declined object leaves the pack untouched; a weapon is one of the d4 starting weapons and a scroll is appended |
| Inventories.FindingNeverLoses | App.tsx:1129-1174 | a found object never costs a holding: a taken non-weapon adds exactly one, a taken weapon adds one only to bare hands, and a declined object changes nothing |
| Inventories.ScrollLosses | App.tsx:388-427 | one loss is offered for each scroll position |
| Inventories.LoseableItems | App.tsx:388-427 | a loss can take the weapon only when it is not bare hands, a potion when one is held, the rope, the kaftan, the cap when it has charges, and any one scroll |
| Inventories.ApplyLoss | App.tsx:792-823 | each loss takes its own item: the weapon becomes bare hands, one potion goes, the rope, the kaftan or the cap's charges go, or the chosen scroll is removed with the others kept in order; nothing else changes |
| Inventories.FixedLosses | App.tsx:388-427 | the non-scroll losses offered are exactly the items held |
| Inventories.LossTakesExactlyOne | App.tsx:792-823 | every offered loss takes exactly one held thing |
| Inventories.NothingToLoseIffEmpty | App.tsx:388-427 | no loss is offered exactly when nothing is held |
| Inventories.DrinkPotionOutsideFight | App.tsx:1950-1961 | a potion heals a d6 but never past max hp and uses up one potion; scrolls and points are untouched |
| Combat.BaseEnemy | App.tsx:450-483 | a scripted enemy is used as given; otherwise a d4 draws from the tier's table |
| Combat.FightEnemy | App.tsx:450-483 | a hunting Milord replaces any hardy opponent except himself and the Spirit; otherwise the drawn enemy fights, and the Spirit is never replaced |
| Combat.StartCombat | App.tsx:449-483 | a fight starts at turn 1 against an opponent at full hp, chosen by the hunt of the captured state; the captured one-shot hit modifier and helper turns move into the fight and the live modifier is reset to 0; the flee die defaults to 4, and the cap defaults to allowed except against the Milord and the Spirit; hp, points and inventory do not change |
| Combat.CombatWeapon | App.tsx:496-497 | a weapon the fight forbids is swapped for bare hands; any other weapon is used as held |
| Combat.ReadScroll | App.tsx:542-569 | each scroll does its own thing: a Bies summoning starts the helper for its d4 turns unless one is active, when nothing is spent; a Fire Glyph spends a use and deals d6+1; a ward spends a use and protects for its d4 turns; a sigil does nothing in a fight; no scroll lands a hit |
| Combat.UseOnce | App.tsx:542-569 | spending a use lowers that scroll's uses by one and keeps its place; every other scroll and field is untouched |
| Combat.PlayerAction | App.tsx:523-569 | only an attack can land; it lands exactly when the total reaches the enemy's threshold and then deals the weapon's damage; a potion heals only if one is held; a scroll turn leaves no spent scroll; the enemy and the turn are untouched |
| Combat.AttackAction | App.tsx:523-534 | an attack lands exactly when the total reaches the threshold; a hit deals the die plus the usable weapon's bonus, a miss deals nothing |
| Combat.PotionAction | App.tsx:535-541 | a potion heals a d6 but never past max hp and uses up one potion; with none held the turn does nothing |
| Combat.ScrollAction | App.tsx:542-569 | a scroll turn has the read scroll's effect on the fight and the enemy, then compacts the pack; an index past the pack does nothing; hp and max hp are kept |
| Combat.Retaliation | App.tsx:592-618 | with the kaftan or an active ward the enemy's blow is never negative |
| Combat.ArmourAndWardOnlyLower | App.tsx:592-618 | on the same dice the kaftan never makes a blow larger, and neither does an active ward |
| Combat.RetaliationBounds | App.tsx:592-618 | with real dice the blow is never negative and never above the enemy's die plus bonus (a d6 for the Undine's ensnare); with no armour, ward or halving, it is the full roll |
| Combat.FleeCombat | App.tsx:499-520 | fleeing costs the flee die (nothing when it is 0) and marks the place escaped but not visited; fleeing the Milord sets him hunting; on the cliff or the crags a fall check follows |
| Combat.ResolveCombatTurn | App.tsx:485-628 | only fleeing flees; a victory leaves the enemy at or below 0 hp and adds exactly its reward; an ongoing fight keeps its enemy, advances the turn and supervises the state; the hunt is kept, and fleeing the Milord starts it |
| Combat.AvoidCombatWithCap | App.tsx:630-649 | vanishing under the cap earns the full reward, spends one charge (never below 0), records the place visited without hp loss, and sends the cliff and the crags to their fall check |
| CombatProperties.LandedHitIsNotAnswered | App.tsx:523-618 | when an attack lands and the enemy survives, the character takes no damage that turn |
| CombatProperties.MissIsAnswered | App.tsx:592-618 | after a miss the enemy's blow comes off the character's hp |
| CombatProperties.FireGlyphIsAnswered | App.tsx:542-618 | a Fire Glyph hurts the enemy, but a surviving enemy still strikes back |
| CombatProperties.PotionIsAnswered | App.tsx:535-618 | a potion turn is answered by the enemy's blow after the heal, and with no potion the turn is lost |
| CombatProperties.WardTicksEvenWithoutBlow | App.tsx:620-622 | the ward loses a turn on every turn the player survives, even one the enemy did not answer |
| CombatProperties.VictoryComesFirst | App.tsx:582-589 | the victory check comes before the enemy's turn: a killing blow costs no hp, and a helper's remaining turns are saved to the state |
| CombatProperties.EnoughDamageWins | App.tsx:523-589 | a landed hit for at least the enemy's remaining hp wins that turn and earns its reward |
| CombatProperties.ForbiddenWeaponFightsBareHanded | App.tsx:496-497 | with a forbidden weapon a landed hit deals d4-1, that is 0 to 3 |
| CombatProperties.HitFormula | App.tsx:523-534 | an attack lands exactly when d6 + weapon bonus + permanent bonus + penalty + fight modifier + true-name bonus (against the Milord) reaches the threshold |
| CombatProperties.ScrollTurnCompacts | App.tsx:568 | after any scroll turn that does not flee, no spent scroll is left in the pack |
| CombatProperties.HelperDoesNotStack | App.tsx:542-577 | while a helper is active a second Bies summoning does not stack: its remaining turns only tick down, and it strikes for its d4 |
| CombatProperties.HpIsNotFloored | App.tsx:592-618 | for every state and dice: after a missed attack in a fight that goes on, a blow larger than the hp left drives hp below 0, and the run is dead |
| CombatProperties.ScrollTurnSpendsOneUse | App.tsx:542-569 | a scroll that acts spends exactly one use of the pack; a sigil, or a Bies summoning while a helper is active, spends none |
| CombatProperties.VanishingPaysLikeVictory | App.tsx:630-649 | vanishing under the cap earns the same points as a killing blow, and spends exactly one charge of a cap that has one |
| CombatProperties.FleeingTheMilordMakesHimHunt | App.tsx:450-520 | after fleeing the Milord he hunts, and the next hardy fight against an ordinary opponent is fought against him |
| CombatProperties.HuntReplacesScriptedUndine | App.tsx:450-483 | the hunt also replaces a scripted hardy opponent, such as the cave pool's Undine |
| CombatProperties.HuntSparesSpiritAndScanty | App.tsx:450-483 | the hunt never replaces the Spirit or a scanty opponent |
| Rewards.LootDrop | App.tsx:656-717 | on a d6 of 1-2 the Hajduk drops a knife, the Bies a Bies scroll, the Poacher a rope, and the manor's hajduk a sabre; otherwise and elsewhere nothing changes |
| Rewards.GoldDrop | App.tsx:680-701 | the gold always comes; on a curse of 1 the Undine wipes the points and the Highwayman sets a -1 hit penalty; nothing else changes |
| Rewards.MilordSpoils | App.tsx:705-713 | beating the Milord gives gold and the Karabela in hand, and ends his hunt for good |
| Rewards.EnemyReward | App.tsx:651-713 | the Wolf (1) and the Bear (1-2) make the player choose a loss, the Spook (1-2) grants an advancement roll, only the Undine changes points, and hp is never touched |
| Rewards.TagRewards | App.tsx:714-734 | the pantry guard's tag heals a d4 without passing max hp and gives one random object; the stocked pantry's tag heals a d6 and gives two; the library's tag appends one random scroll; with no such tag nothing changes, and max hp, points, advancements and the hunt are kept |
| Rewards.PantryOneReward | App.tsx:718-723 | the pantry guard's reward heals a d4 without passing max hp and grants one random object; nothing else changes |
| Rewards.PantryTwoReward | App.tsx:724-730 | the stocked pantry's reward heals a d6 without passing max hp and grants two random objects in turn; nothing else changes |
| Rewards.LibraryReward | App.tsx:731-734 | the library's reward appends one random scroll to the pack; nothing else changes |
| Rewards.ResolveAfterFight | App.tsx:651-736 | the reward step keeps the enemy's loss, advancement and point outcome, never heals past max hp, keeps the hunt unless the Milord was beaten, and leaves the state supervised |
| Rewards.MilordVictoryEndsTheHunt | App.tsx:705-713 | after the Milord is beaten, no later hardy fight is taken over by him |
| Rewards.HuntLastsUntilTheMilordFalls | App.tsx:450-736 | once the Milord hunts, any turn of a fight against another enemy keeps the hunt, and so does its reward, after which the next hardy fight against an ordinary opponent is again against the Milord |
| Rewards.UndineCurseWipesPoints | App.tsx:680-688 | beating the Undine leaves the points as they were, or 0 on a curse roll of 1 |
| Rewards.BareVictoryChangesNothing | App.tsx:651-736 | a victory over the Spook, the Wolf, the Bear or the Spirit, with no tags, changes nothing except supervision |
| Rewards.ChooseLoss | App.tsx:792-823 | the chosen loss takes exactly one held thing and touches neither hp nor points |
| Rewards.SpiritTreasure | App.tsx:760-771 | the Spirit's treasure adds d6×d6 dutki and three scrolls after the ones already held |
| Rewards.FinishVictory | App.tsx:738-790 | "Move On" records the place visited, then: the Milord, the Spirit and a lucky Spook lead to an advancement roll, with the Spirit's treasure for the Spirit; otherwise the manor, the cave or the map follows by the fight's tags |
| Locations.ClampRoll | App.tsx:836-845 | the location id is the roll plus the modifier, clamped into 1 to 12 |
| Locations.ClampRollMonotone | App.tsx:836-845 | clamping never reorders two rolls |
| Locations.PlaceFor | App.tsx:875-937 | an id in 1 to 12 names its row of the location table, and any other id names the summit |
| Locations.TerrainTagAsWritten | App.tsx:891-895 | as written, the crags pass on their own place name but the cliff does not |
| Locations.TerrainTag | App.tsx:891-895 | the corrected terrain tag is the place's own name |
| Locations.SceneFor | App.tsx:880-937 | a location id leads to the summit exactly when it names Peak Black, and a terrain scene carries the place's own name, which for the cliff is the corrected tag of the finding below |
| Locations.Destination | App.tsx:939-943 | once the manor is visited, its id leads to the summit; every other id keeps its place |
| Locations.RevisitFight | App.tsx:948-971 | a revisit fight is scanty and random, at that place; fleeing it is free only in the meadow |
| Locations.MoveTo | App.tsx:945 | arriving puts the player at the place, out of the cave, and changes nothing else |
| Locations.ResolveLocation | App.tsx:875-980 | the player stands at the destination; a familiar place (visited or escaped) skips its scene and holds a scanty fight exactly on a d4 of 1; a new place opens its scene |
| Locations.ManorLeadsToSummitOnceVisited | App.tsx:939-943 | a manor visited once is never entered again by the location roll |
| Locations.Travel | App.tsx:836-845 | in the cave the cave goes on; otherwise the clamped 2d6 roll picks an id in 1 to 12, which is resolved to a place of the table |
| Locations.LocationPlaces | rules.ts:33-46 | every id's place, and the summit, belongs to the location table |
| Locations.VillageModifierLowersTheRoll | App.tsx:1637-1641 | the village's -1 modifier lowers the roll by one, but never below id 1 |
| Locations.FirstSigil | App.tsx:847-873 | the first Divination Sigil in the pack, or none exactly when there is none |
| Locations.SpendScroll | App.tsx:847-873 | one use is spent; a scroll with no uses left is removed; earlier scrolls keep their place |
| Locations.UseDivinationSigil | App.tsx:847-873 | the sigil works only out of the cave with a sigil held; it spends one use of the first sigil, leaves the rest of the pack alone, and sends the player to the chosen id's destination |
| Locations.SpendScrollTakesOneUse | App.tsx:847-873 | spending a scroll with a use left takes exactly one use off the pack, whether the scroll stays or is removed |
| Locations.SigilSpendsOneUse | App.tsx:847-873 | reading the sigil takes exactly one use off the pack |
| Locations.ResolveFallRisk | App.tsx:982-1011 | a d6 of 1-3 is a risk; then a second d6, +1 when the rope is chosen, of 1-3 is a fall for d6+2; otherwise hp is kept; the rope is offered by the captured state and, when chosen, cleared from the live state |
| Locations.RopeOfferFollowsTheCapturedState | App.tsx:982-1011 | on a second die of 3, a rope held when the chain began still prevents the fall even if the live state lost it, and a rope not held then gives no +1 |
| Locations.RopeNeverHurts | App.tsx:982-1011 | when the rope is offered, on the same dice using it never leaves less hp, and on a second die of 3 it prevents a fall that would otherwise happen |
| Locations.VisitUnlessSkipped | App.tsx:1024-1120 | an encounter records the visit itself unless its scene records it later |
| Locations.Snares | App.tsx:1032-1066 | the snares cost a d6 of hp on 1-3, +1 to the die with the rope, which is then used up; nothing else changes |
| Locations.Riddle | App.tsx:1067-1104 | an odd die solves the riddle for 6 dutki or 3 points, at the player's choice; an even die costs a d4 of hp |
| Locations.StartEncounter | App.tsx:1024-1120 | 1 is nothing, 2 the snares then an ambush on a d6 of 1 for a survivor, 3 the riddle, 4-5 a fight, 6 the merchant; hp only falls, points rise only by a solved riddle, and a survivor's visit is recorded unless skipped |
| Locations.SnaredPassage | App.tsx:1032-1066 | a snare survivor is ambushed by a scanty enemy exactly on a d6 of 1, and otherwise the visit is recorded unless skipped |
| Locations.EncounterFightsCarryTheTags | App.tsx:1105-1110 | a fight started by an encounter carries the encounter's reward tags and place |
| Locations.MeadowFleeIsFree | App.tsx:1105-1110 | fleeing a fight met in a meadow encounter costs no hp |
| Locations.DangerousTerrain | App.tsx:1013-1022 | the terrain's fights lead to the fall check, at the terrain's tag, and the encounter does not record the visit |
| Locations.FinishTerrain | App.tsx:1013-1022 | after the fall check, whose rope offer reads the state captured on entering the terrain, a survivor's visit is recorded under the terrain's tag, and a fall to 0 hp or below is death |
| Locations.ResolvePeakBlack | App.tsx:1824-1870 | the summit crowns the player exactly when every required place is visited, adding advancement 1 if it is missing, giving the Spirit's treasure, recording the summit and granting two advancement rolls; otherwise the Spirit fights, and the cap does not work against it |
| Locations.VisitingEverythingCrowns | App.tsx:1825-1835 | visiting every required place opens the peaceful ending |
| Locations.CliffVisitIsLostAsWritten | App.tsx:891-947 | as written, exploring the cliff never records "A Cliff": the summit still demands it, and the next arrival there is not a revisit |
| Locations.CliffFleeSkipsFallAsWritten | App.tsx:514 | as written, fleeing a cliff fight skips the fall check |
| Locations.CliffVisitIsRecorded | App.tsx:891-947 | with the corrected tag the cliff visit is recorded, the next arrival there is a revisit, and fleeing there triggers the fall check |
| Locations.MountainPassScene | App.tsx:254-294 | 1 grants a random object, 2 starts a scanty fight, 3 grants a random scroll, 4 finds nothing; every peaceful outcome records the pass and keeps hp and points |
| Locations.PassNeverTakes | App.tsx:254-294 | the pass never takes a holding, and a found scroll adds exactly one |
| Locations.EnterVillage | App.tsx:1637-1660 | the village is recorded visited and lowers later location rolls by one; its rest is offered by the cooldown from before the visit |
| Locations.HutRestOffered | App.tsx:1611-1635 | the hut's rest is offered exactly when its cooldown had reached 6 on arrival |
| Locations.BuyDucat | App.tsx:1876-1881 | a ducat can be bought exactly with 40 dutki or more; it costs 40, clears the hit penalty, and leads to one advancement roll |
| Locations.BuyDucatKeepsPurse | App.tsx:1876-1881 | buying never leaves a negative purse |
| Locations.Advance | App.tsx:2022-2030 | the advance is available exactly with 15 points and 12 recorded visits; it resets both and the hit penalty, changes nothing else, and leads to one advancement roll |
| Locations.AdvanceNeedsTwelveNewVisits | App.tsx:2022-2030 | after an advance, once 15 points are earned back, the next advance is available exactly when twelve more visits have been recorded |
| Manor.EntryRoom | App.tsx:1266-1277 | the manor is entered by the cellar exactly from the cave; otherwise a d6 of 1-2 opens the dining room, 3-5 the hallway and 6 the pantry |
| Manor.EntryRoomOdds | App.tsx:1266-1277 | the six faces of the entry d6 map to the dining room twice, the hallway three times and the pantry once |
| Manor.NextManorRoom | App.tsx:1255-1264 | counting down from the roll, the next room is the highest unvisited one; if every room up to the roll is visited, the roll itself is used |
| Manor.NextRoomIsNew | App.tsx:1255-1264 | whenever some room up to the roll is unvisited, the chosen room is new and no higher room up to the roll is |
| Manor.Leave | App.tsx:1243-1253 | a peaceful room records the manor visited and offers another room, keeping the player in the manor |
| Manor.WoundedLeave | App.tsx:1243-1253 | a wounded player dies exactly when hp is at or below 0, and otherwise leaves the room in peace |
| Manor.Study | App.tsx:1286-1370 | refusing the Milord is a fight with him; giving in costs scrolls and potions (1-2) or dutki and points (3-4), or the player's life (5-6) |
| Manor.CursedWine | App.tsx:1396-1415 | the cursed wine costs every point and the chosen advancement, and no other advancement |
| Manor.Meal | App.tsx:1416-1438 | a meal of 2-3 costs hp and sets the live next-fight hit modifier to -1; 4-5 heals without passing max hp; 6 restores full hp and sets the modifier to +1 |
| Manor.MealModifierReachesOnlyALaterChain | App.tsx:449-483 | a fight started in the same chain of scenes as the meal uses the captured modifier and wipes the meal's; a fight whose chain captured the fed state gets the meal's -1 or +1 |
| Manor.Dining | App.tsx:1387-1451 | leaving or the wine keeps the exit open; after a meal the exit is offered only if the manor was entered from the cave; a harmful meal kills exactly when hp falls to 0 or below |
| Manor.Pantry | App.tsx:1452-1496 | a d6 of 1-2 is bare, 3-4 is a hajduk fight, and 5-6 stocks two random objects and a d6 of healing |
| Manor.StockedPantry | App.tsx:1480-1495 | the stocked pantry heals a d6 without passing max hp and grants two random objects in turn |
| Manor.AddScrolls | App.tsx:1516-1527 | the library adds two random scrolls at the end of the pack and changes nothing else |
| Manor.LibraryGuardIsTheSpook | App.tsx:1497-1537 | the library's guard is the catalog's hardy Spook, and beating it gives a scroll and lets the manor go on |
| Manor.LearnTrueName | App.tsx:1529-1536 | learning the Milord's true name sets the flag for +1 to hit against him |
| Manor.Library | App.tsx:1497-1537 | a d6 of 1-2 is the Spook fight, 3-4 two scrolls, 5-6 the Milord's true name; a peaceful visit keeps hp and leaves the exit open |
| Manor.MysteriousPotion | App.tsx:1550-1580 | an even die restores full hp; an odd die costs hp and every point |
| Manor.Cellar | App.tsx:1538-1591 | 1-2 is a stolen potion (never past 10), 3-4 the mysterious potion at the player's choice, 5-6 a d4×d6 treasure; after the stolen potion the exit is always offered, and after 3-6 it is offered only if the manor was entered from the cave |
| Manor.ResolveManorRoom | App.tsx:1279-1595 | entering a room records it among the rooms visited and keeps the way in; the hallway is always the hajduk fight, an unknown room goes on untouched, and a peaceful room records the manor visited |
| Manor.RoomsNeverOverheal | App.tsx:1279-1595 | no room heals past max hp, and only the dining room's cursed wine can change max hp or the advancements |
| Manor.PantryTwoRewardStocksThePantry | App.tsx:714-734 | the stocked-pantry reward of a victory is the stocked pantry room itself: the same d6 of healing and the same two objects |
| Manor.ManorGuardRewards | App.tsx:1463-1512 | beating the pantry's hajduk heals a d4 and gives one object; beating the library's Spook gives one scroll and no healing |
| Manor.EnterManor | App.tsx:1266-1277 | entering records the way in, puts the player in the manor out of the cave, and marks the entry room visited; coming from the cave never starts with a fight |
| Caves.EnterCave | App.tsx:1662-1665 | going down the burrow puts the player in the cave and keeps hp, the visit record and the pack |
| Caves.FloodedCavern | App.tsx:1678-1711 | a swim total (d6, +1 without the kaftan in the captured state) of 2 or less wounds, and the player retreats or drowns by the hp left; 3-4 is the Undine fight; more finds the Spirit's heart |
| Caves.SweptAway | App.tsx:1679-1692 | the flood's damage is taken; the player retreats exactly while hp stays above 0, and drowns otherwise |
| Caves.KaftanWeighsDown | App.tsx:1679-1680 | the flood wins on a swim die of 1-2 when the captured state holds the kaftan, and only on a 1 without it |
| Caves.HiddenPassage | App.tsx:1755-1800 | if the captured state has not glimpsed the passage, it is remembered and its guardian fights; otherwise 1-3 is a cave fight, 4-5 an exit and 6 the path to the summit |
| Caves.PassageGuardOnlyOnce | App.tsx:1755-1800 | once the passage has been glimpsed, no cave roll fights its guardian again |
| Caves.CaveEncounter | App.tsx:1667-1801 | the cave's d6: 1 empty, 2 flooded, 3 a hardy fight, 4 the spring (usable by the captured cooldown), 5 an exit, 6 the hidden passage; every cave fight is hardy and in the cave |
| Caves.SpringReadsTheCapturedCooldown | App.tsx:1716-1738 | after drinking, a second spring met through "Go Deeper" is offered again exactly when the captured cooldown had reached 6, whatever the drink did to the live cooldown |
| Caves.CaveFightsLeadOn | App.tsx:1667-1801 | only the guardian met when the captured state has not glimpsed the passage leads into the manor; every other cave fight lets the cave go on |
| Caves.GoOn | App.tsx:1803-1813 | going on in the cave records the cave visited and keeps hp |
| Caves.DrinkAtSpring | App.tsx:1717-1738 | drinking at the spring restores full hp, restarts its cooldown, and then records the visit, leaving the cooldown at 1 |
| Caves.ClimbOut | App.tsx:1739-1754 | climbing out records the cave visited and leaves the player in the mountain pass |
| Caves.FollowHiddenPath | App.tsx:1755-1792 | the hidden path records the cave visited and leaves the player on Peak Black |
| Caves.ExitCave | App.tsx:1815-1822 | leaving the cave meets a hardy fight exactly on a d4 of 1; otherwise the player is out, with the visit record unchanged |
| Caves.HiddenPathReachesTheSummit | App.tsx:1824-1835 | the summit reached by the hidden path crowns the player exactly when every required place was visited before |

## Left out

- Rendering and view state (React components, `setCurrentView`, the event dialogs' text) are not modelled. A scene's buttons are represented by the continuation it returns.
- Delayed actions (`queueAction` timing) are left out, because only the order of state updates matters here.
- `Math.random`, the dice helpers and the dice log are not modelled: every die is a parameter of the operation that rolls it.
- Lore, `addLog`, `withLore` and all log text are left out, because they do not change the state.
- Restarting through a page reload is left out.
- The merchant's and the village shop's buy and sell handlers are left out, except for buying a ducat (`Locations.BuyDucat`). They only move prices between the purse and the pack.
- The advancement sequence's UI loop is not a member. Each step is `Advancement.RollAdvancement`, plus `Advancement.GrantHalfDamage` for the id-6 choice, and the remaining count travels in `Next.AdvancementRolls`.
- `returnToGameIfAlive`, `runIfAlive`, `offerManorContinuation` and `caveContinuePrompt` are modelled by the shapes of the outcomes. The alive checks are the hp > 0 branches of those outcomes.
- `findRandomObject` and `findRandomScroll` are modelled through `Inventories.GrantRandomObject` and `Inventories.CreateRandomScroll`, as used by `Locations.MountainPassScene`.
- The burrow and the hut are compositions the caller makes. The burrow is `Locations.StartEncounter` followed by the choice of `Caves.EnterCave`. The hut is the encounter followed by `Locations.HutRestOffered` and `Visits.RestAtHut`.
- Manor.EnterManor: in the source, the entry room's later choices read the way in from the state captured before the manor was entered (App.tsx:1426-1587). That is the previous visit's value, or `false` on a first visit (App.tsx:229). The model gives them the way in just recorded. The two differ whenever the captured value differs from the new one, including a first entry from the cave.
- types.ts is not part of this model. Its record types appear as the datatypes `App.tsx` uses.
- The `scripts` and `tests` drivers are not part of this model.
- Inventories.DrinkPotionOutsideFight: the source only shows the button when a potion is held. The model does not require it, and only promises a non-negative count when a potion was held.
- Locations.SceneFor: the dispatcher (`SceneFor`, and through it `ResolveLocation` and `Travel`) gives location id 3 the corrected tag "A Cliff", while the source passes "Cliff" (App.tsx:893). The behaviour as written is stated by the members of the Findings row, not by the dispatcher.
- Combat.AvoidCombatWithCap: like the source function, it does not check that the cap has a charge or that the fight allows it. Those checks live in the buttons the source renders.

## Findings

| source | as written | input that shows it | evidently intended | confidence | as-written member | corrected member |
|---|---|---|---|---|---|---|
| App.tsx:891-895 | location id 3 passes the tag "Cliff" to the dangerous-terrain scene, while the location table, the revisit check (App.tsx:947), the flee fall check (App.tsx:514) and the summit's required list (App.tsx:1825-1835) all use "A Cliff" | a location roll of 3 in a run that has not yet been to the cliff: the visit is recorded as "Cliff", so "A Cliff" is never visited, the summit keeps sending the Spirit, the next cliff arrival is not a revisit, and fleeing a cliff fight skips the fall check | the tag "A Cliff", the place's own name | not executed | Locations.TerrainTagAsWritten, Locations.CliffVisitIsLostAsWritten, Locations.CliffFleeSkipsFallAsWritten | Locations.TerrainTag, Locations.CliffVisitIsRecorded, Locations.VisitingEverythingCrowns |
