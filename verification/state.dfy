/** The character state of one run, the progress supervisor, and the continuations scenes hand back. */
module RunState {
  import opened Common
  import opened Catalog

  datatype Scroll = Scroll(kind: ScrollType, uses: int)

  datatype Inventory = Inventory(
    weapon: Weapon,
    potions: int,
    scrolls: seq<Scroll>,
    hasKaftan: bool,
    capCharges: int,        // invisibility-cap charges
    hasRope: bool,
    hasHeart: bool,         // the mountain spirit's heart
    hasKarabela: bool)

  /** The one scanty and one hardy enemy whose damage the id-6 advancement halves. */
  datatype HalfDamage = HalfDamage(scanty: Option<EnemyName>, hardy: Option<EnemyName>)

  const NoHalfDamage: HalfDamage := HalfDamage(None, None)

  datatype GameState = GameState(
    hp: int,
    maxHp: int,
    dutki: int,
    points: int,
    visitedPlacesCount: int,
    visitedTypes: set<string>,
    escapedTypes: set<string>,
    locationRollModifier: int,
    hutRestCooldown: int,
    villageRestCooldown: int,
    springRestCooldown: int,
    manorRoomsVisited: set<int>,
    manorEnteredFromCave: bool,
    milordDefeated: bool,
    milordHunts: bool,
    milordTrueNameKnown: bool,
    nextFightHitMod: int,
    temporaryHitPenalty: int,
    inventory: Inventory,
    advancements: seq<int>,
    activeBiesTurns: int,
    permanentHitBonus: int,
    halfDamage: HalfDamage,
    currentLocation: string,
    inCave: bool,
    caveHiddenPassageSeen: bool,
    isDead: bool,
    hasWon: bool)

  /** What the scene controller runs once a step is over: an explicit continuation. */
  datatype Next =
    | ReturnToGame
    | FallRiskCheck(location: string)
    | ManorContinuation(allowExit: bool)
    | CaveContinuation
    | EnterManorFromCave
    | AdvancementRolls(count: nat, after: Next)

  // ------------------------------------------------------ progress supervisor

  /** The terminal flags agree with the state: no hp left means dead, six advancements mean won. */
  predicate Supervised(s: GameState) {
    (s.hp <= 0 ==> s.isDead) && (|s.advancements| >= 6 ==> s.hasWon)
  }

  /** The check run after every state update: it can only raise the two terminal flags. */
  function Supervise(s: GameState): (r: GameState)
    ensures Supervised(r)
    ensures s.isDead ==> r.isDead
    ensures s.hasWon ==> r.hasWon
    ensures r.isDead ==> s.isDead || s.hp <= 0
    ensures r.hasWon ==> s.hasWon || |s.advancements| >= 6
    ensures r.(isDead := s.isDead, hasWon := s.hasWon) == s
    ensures r.hp == s.hp && r.maxHp == s.maxHp && r.points == s.points && r.dutki == s.dutki
    ensures r.inventory == s.inventory && r.advancements == s.advancements
    ensures r.visitedTypes == s.visitedTypes && r.escapedTypes == s.escapedTypes
    ensures r.currentLocation == s.currentLocation && r.inCave == s.inCave
    ensures r.manorRoomsVisited == s.manorRoomsVisited && r.manorEnteredFromCave == s.manorEnteredFromCave
    ensures r.milordTrueNameKnown == s.milordTrueNameKnown && r.milordHunts == s.milordHunts
  {
    s.(isDead := s.isDead || s.hp <= 0, hasWon := s.hasWon || |s.advancements| >= 6)
  }

  /** Supervising twice is supervising once, and a state that already agrees is left alone. */
  lemma SuperviseIdempotent(s: GameState)
    ensures Supervise(Supervise(s)) == Supervise(s)
    ensures Supervised(s) ==> Supervise(s) == s
  {
  }

  // ------------------------------------------------------------- a new run

  /** The dice a new run draws: weapon d4, extra-item d4, that item's own d4, coins d6. */
  datatype StartRolls = StartRolls(weapon: int, extra: int, extraDie: int, coins: int)

  predicate ValidStartRolls(r: StartRolls) {
    IsRoll(r.weapon, 4) && IsRoll(r.extra, 4) && IsRoll(r.extraDie, 4) && IsRoll(r.coins, 6)
  }

  /** A fresh run: 15/15 hp, a starting weapon, d6+6 coins, one extra item, every rest available. */
  function InitialState(r: StartRolls): (s: GameState)
    requires ValidStartRolls(r)
    ensures s.hp == 15 && s.maxHp == 15
    ensures s.inventory.weapon.name in StartingWeapons
    ensures 7 <= s.dutki <= 12
    ensures s.points == 0 && s.advancements == [] && s.visitedTypes == {} && s.escapedTypes == {}
    ensures s.hutRestCooldown == 6 && s.villageRestCooldown == 6 && s.springRestCooldown == 6
    ensures s.inventory.hasKaftan <==> r.extra == 1
    ensures s.inventory.potions == (if r.extra == 2 then 1 else 0)
    ensures |s.inventory.scrolls| == (if r.extra == 3 then 1 else 0)
    ensures s.inventory.capCharges == (if r.extra == 4 then r.extraDie else 0)
    ensures Supervised(s) && !s.isDead && !s.hasWon
  {
    var inv := Inventory(
      Weapons(StartingWeapons[r.weapon - 1]),
      if r.extra == 2 then 1 else 0,
      if r.extra == 3 then [Scroll(BiesSummoning, r.extraDie)] else [],
      r.extra == 1,
      if r.extra == 4 then r.extraDie else 0,
      false, false, false);
    GameState(
      15, 15, r.coins + 6, 0,
      0, {}, {},
      0,
      6, 6, 6,
      {}, false,
      false, false, false,
      0, 0,
      inv, [],
      0, 0, NoHalfDamage,
      MountainPass, false, false,
      false, false)
  }
}
