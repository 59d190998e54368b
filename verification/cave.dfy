/** The cave under the burrow: its d6 encounter table, the hidden passage, and the ways out. */
module Caves {
  import opened Common
  import opened Catalog
  import opened RunState
  import opened Visits
  import opened Combat
  import opened Rewards
  import opened Locations

  /** Going down the burrow: the player is in the cave. */
  function EnterCave(s: GameState): (r: GameState)
    ensures r.inCave && r.currentLocation == CaveName
    ensures r.hp == s.hp && r.visitedTypes == s.visitedTypes && r.inventory == s.inventory
  {
    Supervise(s.(inCave := true, currentLocation := CaveName))
  }

  /** The dice of one cave encounter: the d6 of the encounter, the d6 swim check, the d6 of flood
      damage, and the d6 of the hidden passage. */
  datatype CaveRolls = CaveRolls(encounter: int, swim: int, damage: int, passage: int)

  /** What the cave offers; each scene's own choice is resolved by the functions below. */
  datatype CaveScene =
    | EmptyCavern                   // go on
    | FloodRetreat                  // wounded by the flood, turned back to the exit roll
    | HeartPool                     // the Mountain Spirit's heart found
    | SpringOfLife(canDrink: bool)  // the spring, usable once its cooldown has reached 6
    | SurfaceExit                   // a way up to the mountain pass
    | PathToSummit                  // the hidden path to Peak Black
    | DrownedInCave                 // the flood killed the player
    | OutOfCave                     // out of the cave, back on the map

  datatype CaveOutcome =
    | CaveEvent(state: GameState, scene: CaveScene)
    | CaveFight(state: GameState, fight: FightParams)

  /** The Undine of the flooded cavern, against which firearms do not fire. */
  const UndineFight: FightParams :=
    FightParams(true, Some(HardyEnemies()[0]), CaveName, None, None, ForbiddenUndineWeapons, [CaveContinue])

  /** A hardy cave fight, after which the cave goes on. */
  const CaveAmbush: FightParams := RandomFight(true, CaveName, [CaveContinue])

  /** The guardian of the hidden passage, behind which lies the way into the manor. */
  const PassageGuard: FightParams := RandomFight(true, CaveName, [EnterManor])

  /** The flooded cavern: a d6 swim check, +1 without the kaftan (as the scene's captured state
      `seen` holds it); 1-2 a d6 of damage and a retreat, 3-4 the Undine, 5 and more the Spirit's heart. */
  function FloodedCavern(s: GameState, seen: GameState, swimRoll: int, damageRoll: int): (o: CaveOutcome)
    ensures o.CaveFight? <==> 2 < SwimTotal(seen, swimRoll) <= 4
    ensures SwimTotal(seen, swimRoll) <= 2 ==>
      (o.state.hp == s.hp - damageRoll && o.CaveEvent?
       && (o.scene == FloodRetreat <==> o.state.hp > 0)
       && (o.scene == DrownedInCave <==> o.state.hp <= 0))
    ensures SwimTotal(seen, swimRoll) > 4 ==> o.state.inventory.hasHeart && o.CaveEvent? && o.scene == HeartPool
    ensures o.CaveFight? ==> o.fight == UndineFight && o.state == s
    ensures o.state.inCave == s.inCave && o.state.visitedTypes == s.visitedTypes
  {
    if SwimTotal(seen, swimRoll) <= 2 then SweptAway(s, damageRoll)
    else if SwimTotal(seen, swimRoll) <= 4 then CaveFight(s, UndineFight)
    else CaveEvent(Supervise(s.(inventory := s.inventory.(hasHeart := true))), HeartPool)
  }

  /** The swim check: the d6, one more without the kaftan. */
  function SwimTotal(seen: GameState, swimRoll: int): int {
    swimRoll + (if seen.inventory.hasKaftan then 0 else 1)
  }

  /** A failed swim: the flood wounds, and the player retreats or drowns. */
  function SweptAway(s: GameState, damageRoll: int): (o: CaveOutcome)
    ensures o.CaveEvent? && o.state.hp == s.hp - damageRoll
    ensures o.scene == FloodRetreat <==> o.state.hp > 0
    ensures o.scene == DrownedInCave <==> o.state.hp <= 0
    ensures o.state.inCave == s.inCave && o.state.visitedTypes == s.visitedTypes
  {
    var wet := Supervise(s.(hp := s.hp - damageRoll));
    assert wet.hp == s.hp - damageRoll;
    CaveEvent(wet, if wet.hp > 0 then FloodRetreat else DrownedInCave)
  }

  /** The kaftan weighs the swimmer down: with it the flood wins on a swim die of 1-2, without it only on a 1. */
  lemma KaftanWeighsDown(s: GameState, seen: GameState, swimRoll: int, damageRoll: int)
    ensures var o := FloodedCavern(s, seen, swimRoll, damageRoll);
            (o.CaveEvent? && o.scene in {FloodRetreat, DrownedInCave})
              <==> swimRoll <= (if seen.inventory.hasKaftan then 2 else 1)
  {
  }

  /** The hidden passage (cave d6 of 6). The first time it is only glimpsed: it is remembered and its
      guardian fights, and a victory leads into the manor. Afterwards a d6 decides: 1-3 a cave fight,
      4-5 an exit, 6 the path to the summit. Whether it was seen is read from the captured state `seen`. */
  function HiddenPassage(s: GameState, seen: GameState, passageRoll: int): (o: CaveOutcome)
    ensures !seen.caveHiddenPassageSeen ==> o.state.caveHiddenPassageSeen
    ensures !seen.caveHiddenPassageSeen ==> o.CaveFight? && o.fight == PassageGuard
    ensures seen.caveHiddenPassageSeen ==> o.state == s
    ensures seen.caveHiddenPassageSeen && passageRoll <= 3 ==> o == CaveFight(s, CaveAmbush)
    ensures seen.caveHiddenPassageSeen && 3 < passageRoll <= 5 ==> o == CaveEvent(s, SurfaceExit)
    ensures seen.caveHiddenPassageSeen && passageRoll > 5 ==> o == CaveEvent(s, PathToSummit)
    ensures o.state.hp == s.hp && o.state.visitedTypes == s.visitedTypes
  {
    if seen.caveHiddenPassageSeen then
      if passageRoll <= 3 then CaveFight(s, CaveAmbush)
      else if passageRoll <= 5 then CaveEvent(s, SurfaceExit)
      else CaveEvent(s, PathToSummit)
    else CaveFight(Supervise(s.(caveHiddenPassageSeen := true)), PassageGuard)
  }

  /** The guardian's way into the manor opens once: after the first glimpse no cave roll that reads
      the state after it fights the guardian again. */
  lemma PassageGuardOnlyOnce(s: GameState, passageRoll: int, later: int)
    ensures var first := HiddenPassage(s, s, passageRoll).state;
            !(HiddenPassage(first, first, later).CaveFight? && HiddenPassage(first, first, later).fight == PassageGuard)
  {
    var first := HiddenPassage(s, s, passageRoll).state;
    assert EnterManor in PassageGuard.postCombatReward;
    assert PassageGuard != CaveAmbush by { assert CaveAmbush.postCombatReward == [CaveContinue]; }
  }

  /** One cave encounter by its d6: 1 an empty cavern, 2 the flooded cavern, 3 a hardy fight, 4 the spring,
      5 an exit, 6 the hidden passage. The player stays in the cave.
      The scene's choices are closures over the state captured when the chain of cave scenes began
      (the travel to the burrow, or the victory that continued the cave), and every "Go Deeper" reuses
      that scope: `seen` is that captured state, from which the kaftan, the spring's cooldown and the
      passage flag are read, while the updates apply to the current state `s`. */
  function CaveEncounter(s: GameState, seen: GameState, r: CaveRolls): (o: CaveOutcome)
    requires IsRoll(r.encounter, 6)
    ensures r.encounter == 1 ==> o == CaveEvent(s, EmptyCavern)
    ensures r.encounter == 2 ==> o == FloodedCavern(s, seen, r.swim, r.damage)
    ensures r.encounter == 3 ==> o == CaveFight(s, CaveAmbush)
    ensures r.encounter == 4 ==> o == CaveEvent(s, SpringOfLife(CanRest(seen.springRestCooldown)))
    ensures r.encounter == 5 ==> o == CaveEvent(s, SurfaceExit)
    ensures r.encounter == 6 ==> o == HiddenPassage(s, seen, r.passage)
    ensures o.state.inCave == s.inCave && o.state.visitedTypes == s.visitedTypes
    ensures o.CaveFight? ==> o.fight.isHardy && o.fight.locationType == CaveName
  {
    if r.encounter == 1 then CaveEvent(s, EmptyCavern)
    else if r.encounter == 2 then FloodedCavern(s, seen, r.swim, r.damage)
    else if r.encounter == 3 then CaveFight(s, CaveAmbush)
    else if r.encounter == 4 then CaveEvent(s, SpringOfLife(CanRest(seen.springRestCooldown)))
    else if r.encounter == 5 then CaveEvent(s, SurfaceExit)
    else HiddenPassage(s, seen, r.passage)
  }

  /** The spring is offered by the captured cooldown, not the current one: after drinking, a fight-free
      "Go Deeper" in the same chain offers the spring again exactly when it was ready when the chain began. */
  lemma SpringReadsTheCapturedCooldown(seen: GameState, s: GameState, r: CaveRolls)
    requires r.encounter == 4
    ensures var again := CaveEncounter(DrinkAtSpring(s).0, seen, r);
            again.CaveEvent? && (again.scene == SpringOfLife(true) <==> seen.springRestCooldown >= 6)
  {
  }

  /** Only the passage guardian's victory leads into the manor, and only on the first glimpse of the
      passage; every other cave encounter fight lets the cave go on. */
  lemma CaveFightsLeadOn(s: GameState, seen: GameState, r: CaveRolls)
    requires IsRoll(r.encounter, 6)
    requires CaveEncounter(s, seen, r).CaveFight?
    ensures var f := CaveEncounter(s, seen, r).fight;
            (EnterManor in f.postCombatReward <==> r.encounter == 6 && !seen.caveHiddenPassageSeen)
            && (EnterManor !in f.postCombatReward ==> CaveContinue in f.postCombatReward)
  {
  }

  /** Going on after an empty cavern, the heart, or leaving the spring: the cave is recorded visited. */
  function GoOn(s: GameState): (r: (GameState, Next))
    ensures CaveName in r.0.visitedTypes && r.1 == CaveContinuation
    ensures r.0.inCave == s.inCave && r.0.hp == s.hp
  {
    (MarkVisited(s, CaveName), CaveContinuation)
  }

  /** Drinking from the spring: full hp, the spring cooldown restarted, and the cave recorded visited. */
  function DrinkAtSpring(s: GameState): (r: (GameState, Next))
    ensures r.0.hp == s.maxHp && r.0.springRestCooldown == 1 && r.0.temporaryHitPenalty == 0
    ensures CaveName in r.0.visitedTypes && r.1 == CaveContinuation
  {
    GoOn(DrinkFromSpring(s))
  }

  /** Climbing out to the surface: the cave is recorded visited, and the player stands in the mountain pass. */
  function ClimbOut(s: GameState): (r: GameState)
    ensures CaveName in r.visitedTypes && !r.inCave && r.currentLocation == MountainPass
    ensures r.hp == s.hp && r.inventory == s.inventory
  {
    Supervise(MarkVisited(s, CaveName).(inCave := false, currentLocation := MountainPass))
  }

  /** Following the hidden path: the cave is recorded visited, and the player stands on Peak Black. */
  function FollowHiddenPath(s: GameState): (r: GameState)
    ensures CaveName in r.visitedTypes && !r.inCave && r.currentLocation == PeakBlack
    ensures r.hp == s.hp && r.visitedTypes == s.visitedTypes + {CaveName}
  {
    Supervise(MarkVisited(s, CaveName).(inCave := false, currentLocation := PeakBlack))
  }

  /** Trying to leave the cave: a d4 of 1 is a hardy fight at the exit; otherwise the player is out. */
  function ExitCave(s: GameState, exitRoll: int): (o: CaveOutcome)
    ensures o.CaveFight? <==> exitRoll == 1
    ensures o.CaveFight? ==> o.state == s && o.fight == RandomFight(true, CaveName, [])
    ensures o.CaveEvent? ==>
      (o.scene == OutOfCave && !o.state.inCave && o.state.currentLocation == s.currentLocation
       && o.state.visitedTypes == s.visitedTypes)
  {
    if exitRoll == 1 then CaveFight(s, RandomFight(true, CaveName, []))
    else CaveEvent(Supervise(s.(inCave := false)), OutOfCave)
  }

  /** The hidden path reached from the cave with every required place visited crowns the player, just
      as arriving at the summit by the location roll would. */
  lemma HiddenPathReachesTheSummit(s: GameState, t: TreasureRolls)
    requires ValidTreasureRolls(t)
    ensures ResolvePeakBlack(FollowHiddenPath(s), t).Crowned? <==> HasVisitedAll(s)
  {
    var up := FollowHiddenPath(s);
    assert up.visitedTypes == s.visitedTypes + {CaveName};
    assert CaveName !in RequiredPlaces;
    assert HasVisitedAll(up) <==> HasVisitedAll(s);
  }
}
