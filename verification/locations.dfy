/** Travelling: the location roll, the dispatcher with its revisit shortcut, the generic encounter,
    the fall risk of the dangerous terrain, and the places with their own rules. */
module Locations {
  import opened Common
  import opened Catalog
  import opened RunState
  import opened Visits
  import opened Inventories
  import opened Combat
  import opened Rewards

  // ------------------------------------------------------------ location roll

  /** The 2d6 total plus the modifier, clamped into the id range 1..12. */
  function ClampRoll(total: int, modifier: int): (id: int)
    ensures 1 <= id <= 12
    ensures 1 <= total + modifier <= 12 ==> id == total + modifier
    ensures total + modifier < 1 ==> id == 1
    ensures total + modifier > 12 ==> id == 12
  {
    Max(1, Min(12, total + modifier))
  }

  /** Clamping never reorders two rolls. */
  lemma ClampRollMonotone(a: int, b: int, modifier: int)
    requires a <= b
    ensures ClampRoll(a, modifier) <= ClampRoll(b, modifier)
  {
  }

  // ------------------------------------------------------------ dispatcher

  /** The scene a location id leads to; anything outside 1..12 is the summit. */
  datatype Scene =
    | SummitScene
    | ManorScene
    | TerrainScene(tag: string)
    | BurrowScene
    | WoodsScene
    | MeadowScene
    | PassScene
    | HutScene
    | VillageScene

  /** The place a location id names, with the summit as the fallback. */
  function PlaceFor(id: int): (place: string)
    ensures 1 <= id <= 12 ==> place == LocationOptions()[id - 1].place
    ensures !(1 <= id <= 12) ==> place == PeakBlack
  {
    if id == 1 then PeakBlack
    else if id == 2 then MilordsManor
    else if id == 3 then ACliff
    else if id == 4 then Crags
    else if id == 5 then ABurrow
    else if id == 6 || id == 7 then DeepWoods
    else if id == 8 || id == 9 then AMeadow
    else if id == 10 then MountainPass
    else if id == 11 then ShepherdsHut
    else if id == 12 then MountainVillage
    else PeakBlack
  }

  /** The tag the dangerous terrain passes on to its encounter, fall check and visit record,
      as the dispatcher writes it: the cliff is tagged "Cliff", unlike its place name. */
  function TerrainTagAsWritten(id: int): (tag: string)
    requires id == 3 || id == 4
    ensures tag == PlaceFor(id) <==> id == 4
  {
    assert |"Cliff"| != |ACliff|;
    if id == 3 then "Cliff" else Crags
  }

  /** The terrain tag as evidently intended: the place name itself, so the visit is recorded
      under the name the revisit check, the flee fall check and the summit all look for. */
  function TerrainTag(id: int): (tag: string)
    requires id == 3 || id == 4
    ensures tag == PlaceFor(id)
  {
    if id == 3 then ACliff else Crags
  }

  function SceneFor(id: int): (sc: Scene)
    ensures sc.SummitScene? <==> PlaceFor(id) == PeakBlack
    ensures sc.TerrainScene? ==> sc.tag == PlaceFor(id)
  {
    if id == 2 then ManorScene
    else if id == 3 || id == 4 then TerrainScene(TerrainTag(id))
    else if id == 5 then BurrowScene
    else if id == 6 || id == 7 then WoodsScene
    else if id == 8 || id == 9 then MeadowScene
    else if id == 10 then PassScene
    else if id == 11 then HutScene
    else if id == 12 then VillageScene
    else SummitScene
  }

  /** Where the dispatcher sends the player: a familiar place (a d4: 1 is a scanty fight,
      anything else an empty scene), or a fresh scene to explore. */
  datatype Arrival =
    | Familiar(place: string, fight: Option<FightParams>)
    | Fresh(place: string, scene: Scene)

  /** Once the manor has been visited, its id leads to the summit instead. */
  function Destination(s: GameState, id: int): (place: string)
    ensures place == PeakBlack || place == PlaceFor(id)
    ensures id == 2 ==> (place == PeakBlack <==> MilordsManor in s.visitedTypes)
    ensures id != 2 ==> place == PlaceFor(id)
  {
    if id == 2 && MilordsManor in s.visitedTypes then PeakBlack else PlaceFor(id)
  }

  /** A known place other than the summit: visited before, or escaped from. */
  predicate IsRevisit(s: GameState, place: string) {
    place != PeakBlack && (place in s.visitedTypes || place in s.escapedTypes)
  }

  /** The scanty fight that may wait at a familiar place; fleeing it costs nothing in the meadow. */
  function RevisitFight(place: string): (p: FightParams)
    ensures !p.isHardy && p.enemy.None? && p.locationType == place && p.postCombatReward == []
    ensures p.fleeDamageDie == Some(if place == AMeadow then 0 else 4)
  {
    FightParams(false, None, place, Some(if place == AMeadow then 0 else 4), None, [], [])
  }

  /** Standing at a place on the surface; nothing else changes. */
  function MoveTo(s: GameState, place: string): (r: GameState)
    ensures r.currentLocation == place && !r.inCave
    ensures r.(currentLocation := s.currentLocation, inCave := s.inCave) == Supervise(s)
  {
    Supervise(s.(currentLocation := place, inCave := false))
  }

  /** Resolving a location id: the player now stands at the destination, out of the cave, and
      either meets the familiar-place d4 or a fresh scene. */
  function ResolveLocation(s: GameState, id: int, revisitRoll: int): (r: (GameState, Arrival))
    ensures r.1.place == Destination(s, id)
    ensures r.0 == MoveTo(s, r.1.place)
    ensures r.1.Familiar? <==> IsRevisit(s, r.1.place)
    ensures r.1.Familiar? ==> (r.1.fight.Some? <==> revisitRoll == 1)
    ensures r.1.Familiar? && r.1.fight.Some? ==> r.1.fight.value == RevisitFight(r.1.place)
    ensures r.1.Fresh? ==> r.1.scene == (if r.1.place == PeakBlack then SummitScene else SceneFor(id))
  {
    var place := Destination(s, id);
    var moved := MoveTo(s, place);
    if IsRevisit(s, place) then
      (moved, Familiar(place, if revisitRoll == 1 then Some(RevisitFight(place)) else None))
    else
      (moved, Fresh(place, if place == PeakBlack then SummitScene else SceneFor(id)))
  }

  /** A manor visited once is never entered again by the location roll: its id leads to the summit. */
  lemma ManorLeadsToSummitOnceVisited(s: GameState, revisitRoll: int)
    ensures var after := MarkVisited(s, MilordsManor);
            ResolveLocation(after, 2, revisitRoll).1 == Fresh(PeakBlack, SummitScene)
  {
  }

  /** Travelling: in the cave the cave goes on; otherwise the clamped 2d6 roll plus the modifier picks the id. */
  datatype Leg = DeeperInCave | Surface(id: int, state: GameState, arrival: Arrival)

  function Travel(s: GameState, die1: int, die2: int, revisitRoll: int): (r: Leg)
    ensures r.DeeperInCave? <==> s.inCave
    ensures r.Surface? ==> 1 <= r.id <= 12 && r.id == ClampRoll(die1 + die2, s.locationRollModifier)
    ensures r.Surface? ==> (r.state, r.arrival) == ResolveLocation(s, r.id, revisitRoll)
    ensures r.Surface? ==> r.arrival.place in LocationPlaces()
  {
    if s.inCave then DeeperInCave
    else
      var id := ClampRoll(die1 + die2, s.locationRollModifier);
      var res := ResolveLocation(s, id, revisitRoll);
      Surface(id, res.0, res.1)
  }

  /** The places of the location table. */
  function LocationPlaces(): (r: set<string>)
    ensures forall id :: 1 <= id <= 12 ==> PlaceFor(id) in r
    ensures PeakBlack in r
  {
    assert LocationOptions()[0] in LocationOptions();
    set o | o in LocationOptions() :: o.place
  }

  /** The village's -1 modifier lowers the roll by one, but never below id 1. */
  lemma VillageModifierLowersTheRoll(total: int)
    requires 2 <= total <= 12
    ensures ClampRoll(total, -1) == Max(1, total - 1)
    ensures ClampRoll(total, -1) <= ClampRoll(total, 0)
  {
  }

  // ---------------------------------------------------------- divination sigil

  /** The index of the first Divination Sigil in the scroll list, if any. */
  function FirstSigil(scrolls: seq<Scroll>): (r: Option<nat>)
    ensures r.Some? ==> r.value < |scrolls| && scrolls[r.value].kind == DivinationSigil
    ensures r.Some? ==> forall k :: 0 <= k < r.value ==> scrolls[k].kind != DivinationSigil
    ensures r.None? <==> forall k :: 0 <= k < |scrolls| ==> scrolls[k].kind != DivinationSigil
  {
    if |scrolls| == 0 then None
    else if scrolls[0].kind == DivinationSigil then Some(0)
    else match FirstSigil(scrolls[1..])
      case None => None
      case Some(k) => Some(k + 1)
  }

  /** One use of the scroll at index i; a scroll left without uses is removed. */
  function SpendScroll(scrolls: seq<Scroll>, i: nat): (r: seq<Scroll>)
    requires i < |scrolls|
    ensures scrolls[i].uses > 1 ==> r == scrolls[i := scrolls[i].(uses := scrolls[i].uses - 1)]
    ensures scrolls[i].uses <= 1 ==> r == scrolls[..i] + scrolls[i + 1..]
    ensures forall k :: 0 <= k < i ==> r[k] == scrolls[k]
  {
    var spent := scrolls[i].(uses := scrolls[i].uses - 1);
    if spent.uses <= 0 then scrolls[..i] + scrolls[i + 1..]
    else scrolls[..i] + [spent] + scrolls[i + 1..]
  }

  /** Reading the sigil outside the cave: one use of the first sigil is spent and the chosen id is resolved.
      Without a sigil, or in the cave, nothing happens. */
  function UseDivinationSigil(s: GameState, id: int, revisitRoll: int): (r: Option<(GameState, Arrival)>)
    requires 1 <= id <= 12
    ensures r.Some? <==> !s.inCave && FirstSigil(s.inventory.scrolls).Some?
    ensures r.Some? ==> r.value.1.place == Destination(s, id) && r.value.0.currentLocation == r.value.1.place
    ensures r.Some? ==> |r.value.0.inventory.scrolls| <= |s.inventory.scrolls|
    ensures r.Some? ==> r.value.0.inventory.scrolls == SpendScroll(s.inventory.scrolls, FirstSigil(s.inventory.scrolls).value)
    ensures r.Some? ==> r.value.0.inventory == s.inventory.(scrolls := r.value.0.inventory.scrolls)
  {
    if s.inCave then None
    else match FirstSigil(s.inventory.scrolls)
      case None => None
      case Some(i) =>
        var spent := Supervise(s.(inventory := s.inventory.(scrolls := SpendScroll(s.inventory.scrolls, i))));
        Some(ResolveLocation(spent, id, revisitRoll))
  }

  /** Spending a scroll that has a use left takes exactly one use off the pack, whether the scroll
      stays or is removed. */
  lemma SpendScrollTakesOneUse(scrolls: seq<Scroll>, i: nat)
    requires i < |scrolls| && scrolls[i].uses >= 1
    ensures LiveUses(SpendScroll(scrolls, i)) == LiveUses(scrolls) - 1
  {
    var spent := scrolls[i].(uses := scrolls[i].uses - 1);
    if scrolls[i].uses > 1 {
      LiveUsesUpdate(scrolls, i, spent);
    } else {
      LiveUsesRemove(scrolls, i);
    }
  }

  /** Reading the sigil spends exactly one use of the pack. */
  lemma SigilSpendsOneUse(s: GameState, id: int, revisitRoll: int)
    requires 1 <= id <= 12
    requires forall k :: 0 <= k < |s.inventory.scrolls| && s.inventory.scrolls[k].kind == DivinationSigil ==> s.inventory.scrolls[k].uses >= 1
    ensures var r := UseDivinationSigil(s, id, revisitRoll);
            r.Some? ==> LiveUses(r.value.0.inventory.scrolls) == LiveUses(s.inventory.scrolls) - 1
  {
    var r := UseDivinationSigil(s, id, revisitRoll);
    if r.Some? {
      SpendScrollTakesOneUse(s.inventory.scrolls, FirstSigil(s.inventory.scrolls).value);
    }
  }

  // ---------------------------------------------------------------- fall risk

  /** Falling: a d6 of 1-3 risks a fall; a second d6, +1 with the rope, of 1-3 is a fall for d6+2.
      The rope is offered when the state captured at the start of the chain (`seen`) holds it, and
      choosing it gives the +1 and clears the live state's rope, whatever that state still holds. */
  function ResolveFallRisk(s: GameState, seen: GameState, useRope: bool, riskRoll: int, checkRoll: int, damageRoll: int): (r: GameState)
    ensures var roped := useRope && seen.inventory.hasRope;
            var fell := riskRoll <= 3 && checkRoll + (if roped then 1 else 0) <= 3;
            r.hp == s.hp - (if fell then damageRoll + 2 else 0)
            && r.inventory.hasRope == (s.inventory.hasRope && !roped)
    ensures r.points == s.points && r.visitedTypes == s.visitedTypes && r.maxHp == s.maxHp
    ensures Supervised(r)
  {
    var roped := useRope && seen.inventory.hasRope;
    var s1 := if roped then s.(inventory := s.inventory.(hasRope := false)) else s;
    if riskRoll <= 3 && checkRoll + (if roped then 1 else 0) <= 3 then
      Supervise(s1.(hp := s1.hp - (damageRoll + 2)))
    else Supervise(s1)
  }

  /** On the same dice, using the rope never leaves the player with less hp. */
  lemma RopeNeverHurts(s: GameState, seen: GameState, riskRoll: int, checkRoll: int, damageRoll: int)
    requires seen.inventory.hasRope && IsRoll(damageRoll, 6)
    ensures ResolveFallRisk(s, seen, true, riskRoll, checkRoll, damageRoll).hp
            >= ResolveFallRisk(s, seen, false, riskRoll, checkRoll, damageRoll).hp
    ensures checkRoll == 3 && riskRoll <= 3 ==>
      ResolveFallRisk(s, seen, true, riskRoll, checkRoll, damageRoll).hp
      > ResolveFallRisk(s, seen, false, riskRoll, checkRoll, damageRoll).hp
  {
  }

  /** The offer follows the captured state, not the live one: a rope that was in the pack when the
      chain began still gives its +1 after it has been lost along the way (to the snares, say), and
      a rope picked up along the way is not offered. */
  lemma RopeOfferFollowsTheCapturedState(s: GameState, seen: GameState, riskRoll: int, damageRoll: int)
    requires riskRoll <= 3 && IsRoll(damageRoll, 6)
    ensures seen.inventory.hasRope ==>
      ResolveFallRisk(s, seen, true, riskRoll, 3, damageRoll).hp == s.hp
      && !ResolveFallRisk(s, seen, true, riskRoll, 3, damageRoll).inventory.hasRope
    ensures !seen.inventory.hasRope ==>
      ResolveFallRisk(s, seen, true, riskRoll, 3, damageRoll).hp == s.hp - (damageRoll + 2)
      && ResolveFallRisk(s, seen, true, riskRoll, 3, damageRoll).inventory.hasRope == s.inventory.hasRope
  {
  }

  // ---------------------------------------------------------- generic encounter

  datatype RiddleReward = TakeDutki | TakePoints

  /** The dice and choices of one encounter: the d6 event, the snare rope choice and rolls,
      the ambush d6, the riddle d6, its d4 punishment, and the chosen reward. */
  datatype EncounterRolls = EncounterRolls(
    event: int, useRope: bool, snare: int, snareDamage: int, ambush: int,
    riddle: int, riddleDamage: int, reward: RiddleReward)

  /** How an encounter ends: passed (the scene's own continuation follows while alive),
      a fight, or the merchant's shop. */
  datatype EncounterOutcome =
    | Passed(state: GameState)
    | Ambushed(state: GameState, fight: FightParams)
    | Merchant(state: GameState)

  function VisitUnlessSkipped(s: GameState, place: string, skipAutoVisit: bool): (r: GameState)
    ensures skipAutoVisit ==> r == s
    ensures !skipAutoVisit ==> r == MarkVisited(s, place)
  {
    if skipAutoVisit then s else MarkVisited(s, place)
  }

  /** The snares: with the rope (used up) +1 to the d6; 1-3 costs a d6 of hp. */
  function Snares(s: GameState, r: EncounterRolls): (t: GameState)
    ensures var roped := r.useRope && s.inventory.hasRope;
            t.hp == s.hp - (if r.snare + (if roped then 1 else 0) <= 3 then r.snareDamage else 0)
    ensures t.inventory.hasRope == (s.inventory.hasRope && !r.useRope)
    ensures t.points == s.points && t.visitedTypes == s.visitedTypes
    ensures t.(hp := s.hp, inventory := s.inventory, isDead := s.isDead, hasWon := s.hasWon) == s
    ensures t.inventory == s.inventory.(hasRope := t.inventory.hasRope)
  {
    var roped := r.useRope && s.inventory.hasRope;
    var s1 := if roped then s.(inventory := s.inventory.(hasRope := false)) else s;
    if r.snare + (if roped then 1 else 0) <= 3 then Supervise(s1.(hp := s1.hp - r.snareDamage))
    else Supervise(s1)
  }

  /** The traveller's riddle: an odd d6 solves it for 6 dutki or 3 points, an even one costs a d4 of hp. */
  function Riddle(s: GameState, r: EncounterRolls): (t: GameState)
    ensures r.riddle % 2 != 0 ==>
      (t.hp == s.hp
       && t.dutki == s.dutki + (if r.reward == TakeDutki then 6 else 0)
       && t.points == s.points + (if r.reward == TakePoints then 3 else 0))
    ensures r.riddle % 2 == 0 ==> t.hp == s.hp - r.riddleDamage && t.dutki == s.dutki && t.points == s.points
    ensures t.inventory == s.inventory && t.visitedTypes == s.visitedTypes
    ensures t.(hp := s.hp, dutki := s.dutki, points := s.points, isDead := s.isDead, hasWon := s.hasWon) == s
  {
    var answered :=
      if r.riddle % 2 == 0 then s.(hp := s.hp - r.riddleDamage)
      else if r.reward == TakeDutki then s.(dutki := s.dutki + 6)
      else s.(points := s.points + 3);
    assert answered.points == s.points + (if r.riddle % 2 != 0 && r.reward == TakePoints then 3 else 0);
    Supervise(answered)
  }

  /** The d6 encounter of an ordinary place: 1 nothing, 2 snares (then a d6 of 1 is a scanty ambush),
      3 a riddle, 4 a scanty fight, 5 a hardy fight, 6 the merchant. Unless skipped, the place is
      recorded visited whenever the encounter ends without a fight and the player is alive. */
  function StartEncounter(s: GameState, place: string, meadowEscape: bool, tags: seq<RewardTag>,
                          skipAutoVisit: bool, r: EncounterRolls): (o: EncounterOutcome)
    requires IsRoll(r.event, 6)
    ensures o.Merchant? <==> r.event == 6
    ensures r.event == 4 || r.event == 5 ==>
      o == Ambushed(s, FightParams(r.event == 5, None, place, Some(if meadowEscape then 0 else 4), None, [], tags))
    ensures o.Ambushed? && r.event == 2 ==> o.fight == RandomFight(false, place, tags) && o.state.hp > 0
    ensures o.Ambushed? ==> r.event in {2, 4, 5}
    ensures r.event == 2 ==> (o.Ambushed? <==> Snares(s, r).hp > 0 && r.ambush == 1)
    ensures o.state.hp <= s.hp || (r.event == 3 && r.riddleDamage < 0) || (r.event == 2 && r.snareDamage < 0)
    ensures !skipAutoVisit && !o.Ambushed? && o.state.hp > 0 ==> place in o.state.visitedTypes
    ensures skipAutoVisit ==> o.state.visitedTypes == s.visitedTypes
    ensures o.state.points == s.points + (if r.event == 3 && r.riddle % 2 != 0 && r.reward == TakePoints then 3 else 0)
    ensures o.state.inventory.hasRope == (s.inventory.hasRope && !(r.event == 2 && r.useRope))
  {
    if r.event == 1 then Passed(VisitUnlessSkipped(s, place, skipAutoVisit))
    else if r.event == 2 then SnaredPassage(s, place, tags, skipAutoVisit, r)
    else if r.event == 3 then Passed(VisitUnlessSkipped(Riddle(s, r), place, skipAutoVisit))
    else if r.event == 4 || r.event == 5 then
      Ambushed(s, FightParams(r.event == 5, None, place, Some(if meadowEscape then 0 else 4), None, [], tags))
    else Merchant(VisitUnlessSkipped(s, place, skipAutoVisit))
  }

  /** The snares encounter: a survivor is ambushed by a scanty enemy on a d6 of 1. */
  function SnaredPassage(s: GameState, place: string, tags: seq<RewardTag>, skipAutoVisit: bool,
                         r: EncounterRolls): (o: EncounterOutcome)
    ensures !o.Merchant?
    ensures o.Ambushed? <==> Snares(s, r).hp > 0 && r.ambush == 1
    ensures o.Ambushed? ==> o.fight == RandomFight(false, place, tags)
    ensures o.state.hp == Snares(s, r).hp && o.state.points == s.points
    ensures !skipAutoVisit && !o.Ambushed? && o.state.hp > 0 ==> place in o.state.visitedTypes
    ensures skipAutoVisit ==> o.state.visitedTypes == s.visitedTypes
    ensures o.state.inventory.hasRope == (s.inventory.hasRope && !r.useRope)
  {
    var caught := Snares(s, r);
    if caught.hp <= 0 then Passed(caught)
    else if r.ambush == 1 then Ambushed(caught, RandomFight(false, place, tags))
    else Passed(VisitUnlessSkipped(caught, place, skipAutoVisit))
  }

  /** A fight started by an encounter keeps the encounter's reward tags and location. */
  lemma EncounterFightsCarryTheTags(s: GameState, place: string, meadowEscape: bool, tags: seq<RewardTag>,
                                    skipAutoVisit: bool, r: EncounterRolls)
    requires IsRoll(r.event, 6)
    requires StartEncounter(s, place, meadowEscape, tags, skipAutoVisit, r).Ambushed?
    ensures var f := StartEncounter(s, place, meadowEscape, tags, skipAutoVisit, r).fight;
            f.locationType == place && f.postCombatReward == tags && f.enemy.None?
            && (f.isHardy <==> r.event == 5)
  {
  }

  /** The meadow's fights let the player flee without a wound; the fights of other places cost a d4. */
  lemma MeadowFleeIsFree(s: GameState, r: EncounterRolls, enemyRoll: int, fleeRoll: int)
    requires r.event == 4 || r.event == 5
    requires IsRoll(enemyRoll, 4)
    ensures var f := StartEncounter(s, AMeadow, true, [], false, r).fight;
            var started := StartCombat(s, s, f, enemyRoll);
            FleeCombat(started.0, started.1, fleeRoll).state.hp == s.hp
  {
    var f := StartEncounter(s, AMeadow, true, [], false, r).fight;
    var started := StartCombat(s, s, f, enemyRoll);
    assert started.1.fleeDamageDie == 0;
  }

  // ----------------------------------------------------------------- terrain

  /** The cliff and the crags: an encounter that does not record the visit itself and tags its fights
      with the fall risk; when it passes, the fall risk is rolled and then the visit is recorded. */
  function DangerousTerrain(s: GameState, tag: string, r: EncounterRolls): (o: EncounterOutcome)
    requires IsRoll(r.event, 6)
    ensures o.Ambushed? ==> o.fight.postCombatReward == [FallRisk] && o.fight.locationType == tag
    ensures o.state.visitedTypes == s.visitedTypes
  {
    StartEncounter(s, tag, false, [FallRisk], true, r)
  }

  /** After the terrain's encounter passes alive: the fall risk, then the visit under the terrain's tag.
      The rope offer reads `seen`, the state captured when the terrain was entered. */
  function FinishTerrain(s: GameState, seen: GameState, tag: string, useRope: bool, riskRoll: int, checkRoll: int,
                         damageRoll: int): (r: GameState)
    ensures var fell := ResolveFallRisk(s, seen, useRope, riskRoll, checkRoll, damageRoll);
            r.hp == fell.hp && (fell.hp > 0 ==> tag in r.visitedTypes)
            && (fell.hp <= 0 ==> r.visitedTypes == s.visitedTypes && r.isDead)
  {
    var fell := ResolveFallRisk(s, seen, useRope, riskRoll, checkRoll, damageRoll);
    if fell.hp <= 0 then fell else MarkVisited(fell, tag)
  }

  // ----------------------------------------------------------------- summit

  /** The places the summit asks for before it crowns the player. */
  const RequiredPlaces: seq<string> :=
    [ACliff, Crags, ABurrow, DeepWoods, AMeadow, MountainPass, ShepherdsHut, MountainVillage, MilordsManor]

  predicate HasVisitedAll(s: GameState) {
    forall p :: p in RequiredPlaces ==> p in s.visitedTypes
  }

  /** The summit either crowns the player or sends the Spirit to fight. */
  datatype Summit = Crowned(state: GameState, next: Next) | SpiritFight(fight: FightParams)

  /** Peak Black: with every required place visited, advancement 1 is added if missing, the Spirit's
      treasure is given, the summit is recorded visited and two advancement rolls follow; otherwise
      the Spirit fights, and no invisibility cap helps against it. */
  function ResolvePeakBlack(s: GameState, t: TreasureRolls): (r: Summit)
    requires ValidTreasureRolls(t)
    ensures r.Crowned? <==> HasVisitedAll(s)
    ensures r.SpiritFight? ==> r.fight == FightParams(true, Some(Spirit), PeakBlack, None, Some(false), [], [])
    ensures r.Crowned? ==>
      (1 in r.state.advancements && r.next == AdvancementRolls(2, ReturnToGame)
       && PeakBlack in r.state.visitedTypes && r.state.dutki == s.dutki + t.goldA * t.goldB
       && |r.state.inventory.scrolls| == |s.inventory.scrolls| + 3)
    ensures r.Crowned? && 1 in s.advancements ==> r.state.advancements == s.advancements
    ensures r.Crowned? && 1 !in s.advancements ==> r.state.advancements == s.advancements + [1]
  {
    if HasVisitedAll(s) then
      var titled := if 1 in s.advancements then s else s.(advancements := s.advancements + [1]);
      Crowned(MarkVisited(SpiritTreasure(titled, t), PeakBlack), AdvancementRolls(2, ReturnToGame))
    else
      SpiritFight(FightParams(true, Some(Spirit), PeakBlack, None, Some(false), [], []))
  }

  /** Recording every required place opens the peaceful ending. */
  lemma VisitingEverythingCrowns(s: GameState, t: TreasureRolls)
    requires ValidTreasureRolls(t)
    ensures ResolvePeakBlack(VisitAll(s, RequiredPlaces), t).Crowned?
  {
    VisitAllRecords(s, RequiredPlaces);
  }

  /** As written, exploring the cliff records the tag "Cliff", not the place "A Cliff": the cliff is
      still unvisited afterwards, the next cliff arrival is not a revisit, and the summit still fights. */
  lemma CliffVisitIsLostAsWritten(s: GameState, t: TreasureRolls, revisitRoll: int)
    requires ValidTreasureRolls(t)
    requires ACliff !in s.visitedTypes && ACliff !in s.escapedTypes
    ensures TerrainTagAsWritten(3) != PlaceFor(3)
    ensures var after := MarkVisited(s, TerrainTagAsWritten(3));
            ACliff !in after.visitedTypes
            && ResolveLocation(after, 3, revisitRoll).1.Fresh?
            && ResolvePeakBlack(after, t).SpiritFight?
  {
    var after := MarkVisited(s, TerrainTagAsWritten(3));
    assert "Cliff" != ACliff by { assert |"Cliff"| != |ACliff|; }
    assert ACliff !in after.visitedTypes;
    assert ACliff in RequiredPlaces;
  }

  /** As written, fleeing a cliff fight skips the fall check that fleeing the crags triggers. */
  lemma CliffFleeSkipsFallAsWritten(s: GameState, c: Combat, fleeRoll: int)
    requires c.locationType == TerrainTagAsWritten(3)
    ensures FleeCombat(s, c, fleeRoll).next == ReturnToGame
  {
    assert "Cliff" != ACliff by { assert |"Cliff"| != |ACliff|; }
  }

  /** With the intended tag, the cliff visit is recorded, the next arrival there is a revisit,
      and fleeing a cliff fight is followed by the fall check. */
  lemma CliffVisitIsRecorded(s: GameState, c: Combat, revisitRoll: int, fleeRoll: int)
    requires c.locationType == TerrainTag(3)
    ensures var after := MarkVisited(s, TerrainTag(3));
            ACliff in after.visitedTypes && ResolveLocation(after, 3, revisitRoll).1.Familiar?
    ensures FleeCombat(s, c, fleeRoll).next == FallRiskCheck(ACliff)
  {
  }

  // --------------------------------------------------------- special places

  /** The mountain pass's d4 scene. */
  datatype PassOutcome = PassDone(state: GameState) | PassFight(state: GameState, fight: FightParams)

  /** The mountain pass: 1 a found object, 2 a scanty fight, 3 a found scroll, 4 nothing; every
      outcome but the fight records the pass visited. */
  function MountainPassScene(s: GameState, passRoll: int, obj: ObjectRolls, scroll: ScrollRolls): (r: PassOutcome)
    requires IsRoll(passRoll, 4) && ValidObjectRolls(obj) && IsRoll(scroll.kind, 4)
    ensures r.PassFight? <==> passRoll == 2
    ensures r.PassFight? ==> r.fight == RandomFight(false, MountainPass, []) && r.state == s
    ensures r.PassDone? ==> MountainPass in r.state.visitedTypes && r.state.hp == s.hp && r.state.points == s.points
    ensures passRoll == 1 ==> r.state.inventory == GrantRandomObject(s.inventory, obj).0
    ensures passRoll == 3 ==> r.state.inventory.scrolls == s.inventory.scrolls + [CreateRandomScroll(scroll.kind, scroll.uses)]
    ensures passRoll == 4 ==> r.state.inventory == s.inventory
  {
    if passRoll == 1 then
      PassDone(MarkVisited(Supervise(s.(inventory := GrantRandomObject(s.inventory, obj).0)), MountainPass))
    else if passRoll == 2 then PassFight(s, RandomFight(false, MountainPass, []))
    else if passRoll == 3 then
      var found := CreateRandomScroll(scroll.kind, scroll.uses);
      PassDone(MarkVisited(Supervise(s.(inventory := s.inventory.(scrolls := s.inventory.scrolls + [found]))), MountainPass))
    else PassDone(MarkVisited(s, MountainPass))
  }

  /** The pass never takes a holding: a found object or scroll adds to the pack, and a quiet pass or
      the fight leaves it as it was. */
  lemma PassNeverTakes(s: GameState, passRoll: int, obj: ObjectRolls, scroll: ScrollRolls)
    requires IsRoll(passRoll, 4) && ValidObjectRolls(obj) && IsRoll(scroll.kind, 4)
    ensures var r := MountainPassScene(s, passRoll, obj, scroll);
            Holdings(r.state.inventory) >= Holdings(s.inventory)
            && (passRoll == 3 ==> Holdings(r.state.inventory) == Holdings(s.inventory) + 1)
  {
    FindingNeverLoses(s.inventory, obj);
  }

  /** The mountain village: recorded visited and the location roll lowered by one from now on; the
      rest is offered if the village cooldown had reached 6 on arrival. */
  function EnterVillage(s: GameState): (r: (GameState, bool))
    ensures MountainVillage in r.0.visitedTypes && r.0.locationRollModifier == -1
    ensures r.1 <==> CanRest(s.villageRestCooldown)
    ensures r.0.hp == s.hp && r.0.villageRestCooldown == s.villageRestCooldown + 1
  {
    (MarkVisited(s, MountainVillage).(locationRollModifier := -1), CanRest(s.villageRestCooldown))
  }

  /** The shepherd's hut: the encounter first, then the rest if the hut cooldown had reached 6 on arrival. */
  function HutRestOffered(arrival: GameState): (offered: bool)
    ensures offered <==> arrival.hutRestCooldown >= 6
  {
    CanRest(arrival.hutRestCooldown)
  }

  /** Buying a ducat at the village: 40 dutki for one advancement roll, clearing the hit penalty.
      Without 40 dutki nothing happens. */
  function BuyDucat(s: GameState): (r: Option<(GameState, Next)>)
    ensures r.Some? <==> s.dutki >= 40
    ensures r.Some? ==>
      (r.value.0.dutki == s.dutki - 40 && r.value.0.temporaryHitPenalty == 0
       && r.value.1 == AdvancementRolls(1, ReturnToGame))
    ensures r.Some? ==> r.value.0.hp == s.hp && r.value.0.advancements == s.advancements
  {
    if s.dutki >= 40 then Some((Supervise(s.(dutki := s.dutki - 40, temporaryHitPenalty := 0)), AdvancementRolls(1, ReturnToGame)))
    else None
  }

  /** Buying never leaves a negative purse. */
  lemma BuyDucatKeepsPurse(s: GameState)
    requires s.dutki >= 0
    ensures BuyDucat(s).Some? ==> BuyDucat(s).value.0.dutki >= 0
  {
  }

  // ---------------------------------------------------------------- advance

  /** The sheet's advance: with 15 points and 12 recorded visits, both are spent and the hit penalty
      cleared for one advancement roll. Below either threshold nothing happens. */
  function Advance(s: GameState): (r: Option<(GameState, Next)>)
    ensures r.Some? <==> s.points >= 15 && s.visitedPlacesCount >= 12
    ensures r.Some? ==>
      (r.value.0.points == 0 && r.value.0.visitedPlacesCount == 0 && r.value.0.temporaryHitPenalty == 0
       && r.value.1 == AdvancementRolls(1, ReturnToGame))
    ensures r.Some? ==>
      r.value.0 == s.(points := 0, visitedPlacesCount := 0, temporaryHitPenalty := 0,
                      isDead := r.value.0.isDead, hasWon := r.value.0.hasWon)
  {
    if s.points >= 15 && s.visitedPlacesCount >= 12 then
      Some((Supervise(s.(points := 0, visitedPlacesCount := 0, temporaryHitPenalty := 0)), AdvancementRolls(1, ReturnToGame)))
    else None
  }

  /** After an advance the next one needs twelve fresh visits: once the points are earned back, it is
      available again exactly when at least twelve places have been recorded since. */
  lemma AdvanceNeedsTwelveNewVisits(s: GameState, places: seq<string>, earned: int)
    requires Advance(s).Some?
    ensures var later := VisitAll(Advance(s).value.0, places).(points := earned);
            Advance(later).Some? <==> earned >= 15 && |places| >= 12
  {
    VisitAllCounts(Advance(s).value.0, places);
  }
}
