/** The Milord's manor: the entry room, the choice of the next room, and what each of the six rooms holds. */
module Manor {
  import opened Common
  import opened Catalog
  import opened RunState
  import opened Visits
  import opened Inventories
  import opened Advancement
  import opened Combat
  import opened Rewards

  // --------------------------------------------------------- choosing a room

  /** The room the manor is entered by: the cellar from the cave, otherwise a d6 of 1-2 the dining
      room, 3-5 the hallway, 6 the pantry. */
  function EntryRoom(fromCave: bool, entryRoll: int): (room: int)
    ensures fromCave <==> room == 6
    ensures room in {2, 3, 4, 6}
    ensures !fromCave && entryRoll <= 2 ==> room == 3
    ensures !fromCave && 2 < entryRoll <= 5 ==> room == 2
    ensures !fromCave && entryRoll > 5 ==> room == 4
  {
    if fromCave then 6
    else if entryRoll <= 2 then 3
    else if entryRoll <= 5 then 2
    else 4
  }

  /** Of the six faces of the entry d6, two open the dining room, three the hallway and one the pantry. */
  lemma EntryRoomOdds()
    ensures [EntryRoom(false, 1), EntryRoom(false, 2), EntryRoom(false, 3),
             EntryRoom(false, 4), EntryRoom(false, 5), EntryRoom(false, 6)] == [3, 3, 2, 2, 2, 4]
  {
  }

  /** The next room: counting down from the d6 roll, the first room not yet visited; when every room
      from 1 up to the roll has been visited, the roll itself. */
  method NextManorRoom(visited: set<int>, roll: int) returns (room: int)
    ensures (forall j :: 1 <= j <= roll ==> j in visited) ==> room == roll
    ensures (exists j :: 1 <= j <= roll && j !in visited) ==>
      (1 <= room <= roll && room !in visited && forall j :: room < j <= roll ==> j in visited)
  {
    room := roll;
    while room >= 1 && room in visited
      invariant room <= roll
      invariant forall j :: room < j <= roll ==> j in visited
      decreases room
    {
      room := room - 1;
    }
    if room < 1 {
      room := roll;
    }
  }

  /** A room chosen while some room up to the roll is unvisited is a new one, and it is the highest such. */
  method NextRoomIsNew(visited: set<int>, roll: int) returns (room: int)
    requires IsRoll(roll, 6)
    requires roll !in visited || exists j :: 1 <= j < roll && j !in visited
    ensures room !in visited && 1 <= room <= roll
    ensures forall j :: room < j <= roll ==> j in visited
  {
    room := NextManorRoom(visited, roll);
  }

  // ------------------------------------------------------------- the rooms

  /** How a room ends: the manor goes on (with or without the way out offered), a fight starts,
      or the player dies. */
  datatype RoomOutcome =
    | Continue(state: GameState, allowExit: bool)
    | RoomFight(state: GameState, fight: FightParams)
    | Perished(state: GameState)

  /** The player's answer in a room: give in / eat / drink, or refuse / fight / leave. */
  datatype RoomChoice = Accept | Refuse

  /** The dice a room may roll: the d6 of the room's event, a second d6 (the meal, the mysterious
      potion), a d6 of hp, the advancement chosen to lose, two random objects, two random scrolls,
      and the d4 and d6 of the cellar treasure. */
  datatype RoomRolls = RoomRolls(
    event: int, second: int, amount: int, lose: int,
    objA: ObjectRolls, objB: ObjectRolls, scrollA: ScrollRolls, scrollB: ScrollRolls,
    treasureD4: int, treasureD6: int)

  predicate ValidRoomRolls(s: GameState, r: RoomRolls) {
    ValidObjectRolls(r.objA) && ValidObjectRolls(r.objB)
    && IsRoll(r.scrollA.kind, 4) && IsRoll(r.scrollB.kind, 4)
    && (if |s.advancements| == 0 then r.lose == 0 else r.lose in s.advancements)
  }

  /** The Milord fight of the study: fleeing costs a d6 and the cap does not work. */
  const StudyFight: FightParams :=
    FightParams(true, Some(Milord), MilordsManor, Some(6), Some(false), [], [ManorContinue])

  const HallwayFight: FightParams :=
    FightParams(false, Some(ManorHajduk), MilordsManor, None, None, [], [ManorContinue])

  const PantryFight: FightParams :=
    FightParams(false, Some(ManorHajduk), MilordsManor, None, None, [], [PantryOne, ManorContinue])

  const LibraryFight: FightParams :=
    FightParams(true, Some(Enemy(Spook, 5, None, 6, 0, 12, Hardy)), MilordsManor, None, None, [], [LibrarySpook, ManorContinue])

  /** Rooms leave the player where they are: in the manor, entered the way they were. */
  predicate SamePlace(a: GameState, b: GameState) {
    a.manorEnteredFromCave == b.manorEnteredFromCave && a.currentLocation == b.currentLocation
    && a.inCave == b.inCave && a.manorRoomsVisited == b.manorRoomsVisited
  }

  /** Neither the maximum hp nor the advancements have changed. */
  predicate Grown(a: GameState, b: GameState) {
    a.maxHp == b.maxHp && a.advancements == b.advancements
  }

  /** A room's peaceful ending: the manor is recorded visited and the manor goes on. */
  function Leave(s: GameState, allowExit: bool): (o: RoomOutcome)
    ensures SamePlace(o.state, s)
    ensures o == Continue(MarkVisited(s, MilordsManor), allowExit)
    ensures o.state.hp == s.hp && Grown(o.state, s)
  {
    Continue(MarkVisited(s, MilordsManor), allowExit)
  }

  /** A wound taken in a room: dead, or the room's peaceful ending. */
  function WoundedLeave(s: GameState, allowExit: bool): (o: RoomOutcome)
    ensures SamePlace(o.state, s)
    ensures o.Perished? <==> s.hp <= 0
    ensures s.hp <= 0 ==> o == Perished(s)
    ensures s.hp > 0 ==> o == Leave(s, allowExit)
    ensures o.state.hp == s.hp && Grown(o.state, s)
  {
    if s.hp <= 0 then Perished(s) else Leave(s, allowExit)
  }

  /** Room 1, the study: the Milord demands scrolls and potions (d6 1-2), dutki and points (3-4) or the
      soul (5-6). Paying goes on with the exit offered; giving the soul is death; refusing is his fight. */
  function Study(s: GameState, r: RoomRolls, choice: RoomChoice): (o: RoomOutcome)
    ensures SamePlace(o.state, s)
    ensures choice == Refuse ==> o == RoomFight(s, StudyFight)
    ensures choice == Accept && r.event <= 2 ==>
      (o.Continue? && o.allowExit && o.state.inventory.scrolls == [] && o.state.inventory.potions == 0
       && o.state.dutki == s.dutki && o.state.points == s.points)
    ensures choice == Accept && 2 < r.event <= 4 ==>
      (o.Continue? && o.allowExit && o.state.dutki == 0 && o.state.points == 0
       && o.state.inventory == s.inventory)
    ensures choice == Accept && r.event > 4 ==> o.Perished? && o.state.hp == 0 && o.state.isDead
    ensures o.Continue? ==> MilordsManor in o.state.visitedTypes && o.state.hp == s.hp
    ensures o.state.hp <= Max(s.hp, 0) && Grown(o.state, s)
  {
    if choice == Refuse then RoomFight(s, StudyFight)
    else if r.event <= 2 then Leave(Supervise(s.(inventory := s.inventory.(scrolls := [], potions := 0))), true)
    else if r.event <= 4 then Leave(Supervise(s.(dutki := 0, points := 0)), true)
    else Perished(Supervise(s.(hp := 0)))
  }

  /** The cursed wine: every point is lost, and the advancement chosen (0 when none is held) with it. */
  function CursedWine(s: GameState, lose: int): (t: GameState)
    ensures SamePlace(t, s)
    ensures t.points == 0 && (lose != 0 ==> lose !in t.advancements)
    ensures forall a :: a != lose ==> (a in t.advancements <==> a in s.advancements)
    ensures s.hp <= s.maxHp ==> t.hp <= t.maxHp
  {
    var cursed := s.(points := 0);
    var revoked := if lose != 0 then RemoveAdvancement(cursed, lose) else cursed;
    Supervise(revoked)
  }

  /** The other meals, by the meal d6: 2-3 a d6 of hp lost and -1 to hit in the next fight,
      4-5 a d6 healed, 6 full hp and +1 to hit in the next fight. */
  function Meal(s: GameState, mealRoll: int, amount: int): (t: GameState)
    ensures SamePlace(t, s)
    ensures mealRoll <= 3 ==> t.hp == s.hp - amount && t.nextFightHitMod == -1
    ensures 3 < mealRoll <= 5 ==> t.hp == Min(s.hp + amount, s.maxHp) && t.nextFightHitMod == s.nextFightHitMod
    ensures mealRoll > 5 ==> t.hp == s.maxHp && t.nextFightHitMod == 1
    ensures t.points == s.points && Grown(t, s)
  {
    if mealRoll <= 3 then Supervise(s.(hp := s.hp - amount, nextFightHitMod := -1))
    else if mealRoll <= 5 then Supervise(s.(hp := Min(s.hp + amount, s.maxHp)))
    else Supervise(s.(hp := s.maxHp, nextFightHitMod := 1))
  }

  /** The meal's modifier lives in the live state, and a fight reads the state captured when its chain
      of scenes began: a fight still in the chain that held the meal fights with the captured modifier
      and wipes the meal's, while a fight from a later chain, which captured the fed state, gets the
      meal's -1 or +1. */
  lemma MealModifierReachesOnlyALaterChain(s: GameState, seen: GameState, mealRoll: int, amount: int,
                                           p: FightParams, enemyRoll: int)
    requires p.enemy.Some? || IsRoll(enemyRoll, 4)
    ensures var fed := Meal(s, mealRoll, amount);
            StartCombat(fed, seen, p, enemyRoll).1.fightHitMod == seen.nextFightHitMod
            && StartCombat(fed, seen, p, enemyRoll).0.nextFightHitMod == 0
    ensures var fed := Meal(s, mealRoll, amount);
            (mealRoll <= 3 ==> StartCombat(fed, fed, p, enemyRoll).1.fightHitMod == -1)
            && (mealRoll > 5 ==> StartCombat(fed, fed, p, enemyRoll).1.fightHitMod == 1)
  {
  }

  /** Room 3, the dining room. Leaving goes on with the exit offered. Eating rolls a d6: 1 is the cursed
      wine, after which the exit is offered; any other meal offers the exit only if the manor was
      entered from the cave, and a harmful meal can kill. */
  function Dining(s: GameState, r: RoomRolls, choice: RoomChoice): (o: RoomOutcome)
    ensures SamePlace(o.state, s)
    ensures !o.RoomFight?
    ensures choice == Refuse ==> o == Leave(s, true)
    ensures choice == Accept && r.second == 1 ==> o == Leave(CursedWine(s, r.lose), true)
    ensures choice == Accept && r.second != 1 ==> o.state.hp == Meal(s, r.second, r.amount).hp
    ensures choice == Accept && r.second != 1 && o.Continue? ==> o.allowExit == s.manorEnteredFromCave
    ensures o.Perished? <==> choice == Accept && r.second != 1 && r.second <= 3 && s.hp - r.amount <= 0
    ensures s.hp <= s.maxHp && r.amount >= 0 ==> o.state.hp <= o.state.maxHp
  {
    if choice == Refuse then Leave(s, true)
    else if r.second == 1 then Leave(CursedWine(s, r.lose), true)
    else
      var fed := Meal(s, r.second, r.amount);
      if r.second <= 3 then
        var o := WoundedLeave(fed, s.manorEnteredFromCave);
        assert fed.hp == s.hp - r.amount;
        assert o.Perished? <==> fed.hp <= 0;
        assert choice == Accept && r.second != 1 && r.second <= 3;
        o
      else Leave(fed, s.manorEnteredFromCave)
  }

  /** Room 4, the pantry: a d6 of 1-2 is bare; 3-4 a hajduk guards it (a victory heals and gives an object);
      5-6 two random objects and a d6 of healing, never past the maximum. */
  function Pantry(s: GameState, r: RoomRolls): (o: RoomOutcome)
    requires ValidRoomRolls(s, r)
    ensures SamePlace(o.state, s)
    ensures o.RoomFight? <==> 2 < r.event <= 4
    ensures o.RoomFight? ==> o == RoomFight(s, PantryFight)
    ensures r.event <= 2 ==> o == Leave(s, s.manorEnteredFromCave)
    ensures r.event > 4 ==>
      (o.Continue? && o.allowExit && o.state.hp == Min(s.hp + r.amount, s.maxHp)
       && o.state.inventory == GrantRandomObject(GrantRandomObject(s.inventory, r.objA).0, r.objB).0)
    ensures Grown(o.state, s) && o.state.hp <= Max(s.hp, s.maxHp)
  {
    if r.event <= 2 then Leave(s, s.manorEnteredFromCave)
    else if r.event <= 4 then RoomFight(s, PantryFight)
    else Leave(StockedPantry(s, r), true)
  }

  /** A stocked pantry: two random objects and a d6 of healing. */
  function StockedPantry(s: GameState, r: RoomRolls): (t: GameState)
    requires ValidObjectRolls(r.objA) && ValidObjectRolls(r.objB)
    ensures SamePlace(t, s) && t.hp == Min(s.hp + r.amount, s.maxHp) && Grown(t, s)
    ensures t.inventory == GrantRandomObject(GrantRandomObject(s.inventory, r.objA).0, r.objB).0
  {
    var first := GrantRandomObject(s.inventory, r.objA).0;
    var both := GrantRandomObject(first, r.objB).0;
    Supervise(s.(inventory := both, hp := Min(s.hp + r.amount, s.maxHp)))
  }

  /** Two random scrolls added to the pack; nothing else changes. */
  function AddScrolls(s: GameState, a: ScrollRolls, b: ScrollRolls): (t: GameState)
    requires IsRoll(a.kind, 4) && IsRoll(b.kind, 4)
    ensures t.inventory.scrolls == s.inventory.scrolls + [CreateRandomScroll(a.kind, a.uses), CreateRandomScroll(b.kind, b.uses)]
    ensures SamePlace(t, s) && t.hp == s.hp
    ensures t.inventory == s.inventory.(scrolls := t.inventory.scrolls) && Grown(t, s)
  {
    var found := [CreateRandomScroll(a.kind, a.uses), CreateRandomScroll(b.kind, b.uses)];
    Supervise(s.(inventory := s.inventory.(scrolls := s.inventory.scrolls + found)))
  }

  /** The library's guard is the catalog's Spook, and a victory over it brings a scroll. */
  lemma LibraryGuardIsTheSpook()
    ensures LibraryFight.enemy.Some? && LibraryFight.enemy.value.name == Spook
    ensures LibraryFight.enemy.value in HardyEnemies() && LibraryFight.isHardy
    ensures LibrarySpook in LibraryFight.postCombatReward && ManorContinue in LibraryFight.postCombatReward
  {
  }

  /** The Milord's true name learned: +1 to hit against him from now on. */
  function LearnTrueName(s: GameState): (t: GameState)
    ensures SamePlace(t, s) && t.hp == s.hp && t.milordTrueNameKnown && Grown(t, s)
  {
    Supervise(s.(milordTrueNameKnown := true))
  }

  /** Room 5, the library: a d6 of 1-2 a Spook guards it (a victory gives a scroll); 3-4 two random
      scrolls; 5-6 the Milord's true name. */
  function Library(s: GameState, r: RoomRolls): (o: RoomOutcome)
    requires ValidRoomRolls(s, r)
    ensures SamePlace(o.state, s)
    ensures o.RoomFight? <==> r.event <= 2
    ensures o.RoomFight? ==> o.fight == LibraryFight
    ensures 2 < r.event <= 4 ==>
      o.state.inventory.scrolls == s.inventory.scrolls
        + [CreateRandomScroll(r.scrollA.kind, r.scrollA.uses), CreateRandomScroll(r.scrollB.kind, r.scrollB.uses)]
    ensures r.event > 4 ==> o.state.milordTrueNameKnown
    ensures o.Continue? ==> o.allowExit && o.state.hp == s.hp
    ensures o.state.hp == s.hp && Grown(o.state, s)
  {
    if r.event <= 2 then RoomFight(s, LibraryFight)
    else if r.event <= 4 then Leave(AddScrolls(s, r.scrollA, r.scrollB), true)
    else Leave(LearnTrueName(s), true)
  }

  /** The cellar's mysterious potion, by its d6: even restores full hp, odd is blood that costs a d6 of
      hp and every point. */
  function MysteriousPotion(s: GameState, potionRoll: int, amount: int): (t: GameState)
    ensures SamePlace(t, s)
    ensures potionRoll % 2 == 0 ==> t.hp == s.maxHp && t.points == s.points
    ensures potionRoll % 2 != 0 ==> t.hp == s.hp - amount && t.points == 0
    ensures Grown(t, s)
  {
    if potionRoll % 2 == 0 then Supervise(s.(hp := s.maxHp))
    else Supervise(s.(hp := s.hp - amount, points := 0))
  }

  /** Room 6, the cellar: a d6 of 1-2 a potion stolen (never past 10); 3-4 a mysterious potion to drink
      or leave; 5-6 a treasure of a d4 times a d6 dutki. Only the stolen potion offers the exit
      unconditionally. */
  function Cellar(s: GameState, r: RoomRolls, choice: RoomChoice): (o: RoomOutcome)
    ensures SamePlace(o.state, s)
    ensures !o.RoomFight?
    ensures r.event <= 2 ==>
      (o.Continue? && o.allowExit && o.state.inventory.potions == Min(10, s.inventory.potions + 1))
    ensures 2 < r.event <= 4 && choice == Accept ==> o.state.hp == MysteriousPotion(s, r.second, r.amount).hp
    ensures 2 < r.event <= 4 && choice == Refuse ==> o == Leave(s, s.manorEnteredFromCave)
    ensures r.event > 4 ==> o.state.dutki == s.dutki + r.treasureD4 * r.treasureD6
    ensures r.event > 2 && o.Continue? ==> o.allowExit == s.manorEnteredFromCave
    ensures o.Perished? <==> 2 < r.event <= 4 && choice == Accept && r.second % 2 != 0 && s.hp - r.amount <= 0
    ensures r.amount >= 0 ==> o.state.hp <= Max(s.hp, s.maxHp)
    ensures Grown(o.state, s)
  {
    if r.event <= 2 then
      Leave(Supervise(s.(inventory := s.inventory.(potions := Min(10, s.inventory.potions + 1)))), true)
    else if r.event <= 4 then
      if choice == Refuse then Leave(s, s.manorEnteredFromCave)
      else
        var drunk := MysteriousPotion(s, r.second, r.amount);
        if r.second % 2 == 0 then Leave(drunk, s.manorEnteredFromCave)
        else
          var o := WoundedLeave(drunk, s.manorEnteredFromCave);
          assert drunk.hp == s.hp - r.amount;
          assert o.Perished? <==> drunk.hp <= 0;
          assert 2 < r.event <= 4 && choice == Accept && r.second % 2 != 0;
          o
    else Leave(Supervise(s.(dutki := s.dutki + r.treasureD4 * r.treasureD6)), s.manorEnteredFromCave)
  }

  /** Entering a room: it is recorded among the rooms visited, then its event is resolved. */
  function ResolveManorRoom(s: GameState, roomId: int, r: RoomRolls, choice: RoomChoice): (o: RoomOutcome)
    requires ValidRoomRolls(s, r)
    ensures roomId in o.state.manorRoomsVisited
    ensures o.state.manorRoomsVisited == s.manorRoomsVisited + {roomId}
    ensures o.state.manorEnteredFromCave == s.manorEnteredFromCave
    ensures o.state.currentLocation == s.currentLocation && o.state.inCave == s.inCave
    ensures o.RoomFight? ==>
      (roomId in {1, 2, 4, 5} && o.fight.locationType == MilordsManor
       && ManorContinue in o.fight.postCombatReward)
    ensures roomId == 2 ==> o.RoomFight? && o.fight.enemy == Some(ManorHajduk)
    ensures !(1 <= roomId <= 6) ==> o == Continue(Supervise(s.(manorRoomsVisited := s.manorRoomsVisited + {roomId})), true)
    ensures o.Continue? && 1 <= roomId <= 6 ==> MilordsManor in o.state.visitedTypes
  {
    var entered := Supervise(s.(manorRoomsVisited := s.manorRoomsVisited + {roomId}));
    assert ValidRoomRolls(entered, r);
    RoomEvent(entered, roomId, r, choice)
  }

  /** The event of the room just entered, by its id. */
  function RoomEvent(s: GameState, roomId: int, r: RoomRolls, choice: RoomChoice): (o: RoomOutcome)
    requires ValidRoomRolls(s, r)
    ensures SamePlace(o.state, s)
    ensures s.hp <= s.maxHp && 0 <= s.maxHp && r.amount >= 0 ==> o.state.hp <= o.state.maxHp
    ensures roomId != 3 ==> Grown(o.state, s)
  {
    if roomId <= 3 then UpperRooms(s, roomId, r, choice) else LowerRooms(s, roomId, r, choice)
  }

  /** The study, the hallway and the dining room; any lower id is an unknown room that goes on. */
  function UpperRooms(s: GameState, roomId: int, r: RoomRolls, choice: RoomChoice): (o: RoomOutcome)
    requires ValidRoomRolls(s, r) && roomId <= 3
    ensures SamePlace(o.state, s)
    ensures s.hp <= s.maxHp && 0 <= s.maxHp && r.amount >= 0 ==> o.state.hp <= o.state.maxHp
    ensures roomId != 3 ==> Grown(o.state, s)
  {
    if roomId == 1 then Study(s, r, choice)
    else if roomId == 2 then RoomFight(s, HallwayFight)
    else if roomId == 3 then Dining(s, r, choice)
    else Continue(s, true)
  }

  /** The pantry, the library and the cellar; any higher id is an unknown room that goes on. */
  function LowerRooms(s: GameState, roomId: int, r: RoomRolls, choice: RoomChoice): (o: RoomOutcome)
    requires ValidRoomRolls(s, r) && roomId > 3
    ensures SamePlace(o.state, s)
    ensures s.hp <= s.maxHp && r.amount >= 0 ==> o.state.hp <= o.state.maxHp
    ensures Grown(o.state, s)
  {
    if roomId == 4 then Pantry(s, r)
    else if roomId == 5 then Library(s, r)
    else if roomId == 6 then Cellar(s, r, choice)
    else Continue(s, true)
  }

  /** No room heals past the maximum hp (the d6 of hp a room rolls is never negative), and only the dining room's cursed wine touches the maximum
      or the advancements. */
  lemma RoomsNeverOverheal(s: GameState, roomId: int, r: RoomRolls, choice: RoomChoice)
    requires ValidRoomRolls(s, r)
    ensures var o := ResolveManorRoom(s, roomId, r, choice);
            (s.hp <= s.maxHp && 0 <= s.maxHp && r.amount >= 0 ==> o.state.hp <= o.state.maxHp)
            && (roomId != 3 ==> Grown(o.state, s))
  {
    var entered := Supervise(s.(manorRoomsVisited := s.manorRoomsVisited + {roomId}));
    assert Grown(entered, s) && entered.hp == s.hp && ValidRoomRolls(entered, r);
    assert ResolveManorRoom(s, roomId, r, choice) == RoomEvent(entered, roomId, r, choice);
  }

  /** The stocked-pantry reward a victory can carry is the stocked pantry room itself: the same d6 of
      healing and the same two random objects. */
  lemma PantryTwoRewardStocksThePantry(s: GameState, rolls: RewardRolls, r: RoomRolls)
    requires ValidRewardRolls(rolls) && ValidObjectRolls(r.objA) && ValidObjectRolls(r.objB)
    requires rolls.pantryTwoHeal == r.amount && rolls.pantryTwoFirst == r.objA && rolls.pantryTwoSecond == r.objB
    ensures Supervise(TagRewards(s, [PantryTwo], rolls)) == StockedPantry(s, r)
  {
    assert TagRewards(s, [PantryTwo], rolls) == PantryTwoReward(s, rolls);
  }

  /** The pantry guard's victory heals a d4 and gives one random object; the library's gives one scroll. */
  lemma ManorGuardRewards(s: GameState, rolls: RewardRolls)
    requires ValidRewardRolls(rolls)
    ensures var fed := TagRewards(s, PantryFight.postCombatReward, rolls);
            fed.hp == Min(s.hp + rolls.pantryOneHeal, s.maxHp)
            && fed.inventory == GrantRandomObject(s.inventory, rolls.pantryOneObject).0
    ensures var read := TagRewards(s, LibraryFight.postCombatReward, rolls);
            read.hp == s.hp
            && read.inventory.scrolls == s.inventory.scrolls
                 + [CreateRandomScroll(rolls.libraryScroll.kind, rolls.libraryScroll.uses)]
  {
    assert PantryTwo !in PantryFight.postCombatReward && LibrarySpook !in PantryFight.postCombatReward;
    assert PantryOne !in LibraryFight.postCombatReward && PantryTwo !in LibraryFight.postCombatReward;
  }

  /** Entering the manor: it becomes the current place, the way in is remembered, and the entry room is resolved. */
  function EnterManor(s: GameState, fromCave: bool, entryRoll: int, r: RoomRolls, choice: RoomChoice): (o: RoomOutcome)
    requires ValidRoomRolls(s, r)
    ensures EntryRoom(fromCave, entryRoll) in o.state.manorRoomsVisited
    ensures o.state.manorEnteredFromCave == fromCave
    ensures !o.state.inCave && o.state.currentLocation == MilordsManor
    ensures fromCave ==> !o.RoomFight?
  {
    var inside := Supervise(s.(manorEnteredFromCave := fromCave, currentLocation := MilordsManor, inCave := false));
    assert ValidRoomRolls(inside, r);
    ResolveManorRoom(inside, EntryRoom(fromCave, entryRoll), r, choice)
  }
}
