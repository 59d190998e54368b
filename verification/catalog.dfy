/** The static tables: weapons, scrolls, advancements, enemy stat blocks and locations. */
module Catalog {
  import opened Common

  // ---------------------------------------------------------------- weapons

  datatype WeaponType = Knife | Ciupaga | Sabre | Samopal | Scattergun | Karabela | BareHands

  datatype Weapon = Weapon(name: WeaponType, damageDie: nat, bonusDamage: int, hitBonus: int, price: nat)

  /** The string value of each weapon type. */
  function WeaponText(t: WeaponType): string {
    match t
    case Knife => "Knife"
    case Ciupaga => "Ciupaga"
    case Sabre => "Sabre"
    case Samopal => "Samopa\U{142}"
    case Scattergun => "Scattergun"
    case Karabela => "Karabela"
    case BareHands => "Bare Hands"
  }

  /** The weapons table: every weapon type has a stat block named after it, with a real damage die. */
  function Weapons(t: WeaponType): (w: Weapon)
    ensures w.name == t
    ensures w.damageDie > 0
    ensures w.hitBonus == 1 <==> (t == Sabre || t == Karabela)
    ensures t != Sabre && t != Karabela ==> w.hitBonus == 0
  {
    match t
    case Knife => Weapon(Knife, 4, 0, 0, 6)
    case Ciupaga => Weapon(Ciupaga, 6, 0, 0, 9)
    case Sabre => Weapon(Sabre, 6, 0, 1, 12)
    case Samopal => Weapon(Samopal, 6, 1, 0, 15)
    case Scattergun => Weapon(Scattergun, 6, 2, 0, 25)
    case Karabela => Weapon(Karabela, 6, 2, 1, 999)
    case BareHands => Weapon(BareHands, 4, -1, 0, 0)
  }

  /** Bare hands cost nothing, add nothing to hit, and a bare-handed hit deals 0 to 3 damage. */
  lemma BareHandsDealZeroToThree(damageRoll: int)
    requires IsRoll(damageRoll, Weapons(BareHands).damageDie)
    ensures 0 <= damageRoll + Weapons(BareHands).bonusDamage <= 3
    ensures Weapons(BareHands).price == 0 && Weapons(BareHands).hitBonus == 0
  {
  }

  /** The firearms: Samopał rolls d6+1 and the Scattergun d6+2. */
  lemma FirearmDamage()
    ensures Weapons(Samopal).damageDie == 6 && Weapons(Samopal).bonusDamage == 1
    ensures Weapons(Scattergun).damageDie == 6 && Weapons(Scattergun).bonusDamage == 2
  {
  }

  /** The weapons a new character, or a found object, is drawn from by a d4. */
  const StartingWeapons: seq<WeaponType> := [Knife, Ciupaga, Sabre, Samopal]

  /** Weapons the Undine fight forbids: exactly the two firearms. */
  const ForbiddenUndineWeapons: seq<WeaponType> := [Samopal, Scattergun]

  // ---------------------------------------------------------------- scrolls

  datatype ScrollType = BiesSummoning | FireGlyph | ProtectionWard | DivinationSigil

  /** The order in which a d4 picks a scroll type. */
  const ScrollTypes: seq<ScrollType> := [BiesSummoning, FireGlyph, ProtectionWard, DivinationSigil]

  /** The description table has a non-empty entry for every scroll type. */
  function ScrollDescription(t: ScrollType): (d: string)
    ensures |d| > 0
  {
    match t
    case BiesSummoning => "Summons a bies for d4 turns, dealing d4 damage each turn."
    case FireGlyph => "d4 uses, each deals d6+1 damage regardless of hit."
    case ProtectionWard => "d4 uses, lowers damage received by d4 each turn."
    case DivinationSigil => "1 use, choose next location or re-roll location die."
  }

  // ----------------------------------------------------------- advancements

  /** The advancement table, indexed by id - 1. */
  function AdvancementTable(): (r: seq<string>)
    ensures |r| == 6
    ensures r[2] == "Max HP increases to 20"
  {
    [ "Harna\U{15B} Title (Leader of Outlaws)",
      "+1 to Hit Rolls",
      "Max HP increases to 20",
      "Travelling Herbalist (Gain 5 points)",
      "Get a Scattergun",
      "Resilience: Half damage from one Enemy type" ]
  }

  // ---------------------------------------------------------------- enemies

  datatype Category = Scanty | Hardy | Special

  /** Enemy identity; the source compares enemies by their (distinct) name strings. */
  datatype EnemyName =
    | Hajduk | Bies | Poacher | Wolf
    | Undine | Bear | Highwayman | Spook
    | TheMilord | MilordsHajduk | MountainSpirit

  datatype Enemy = Enemy(
    name: EnemyName,
    points: nat,                 // the hit threshold
    rewardPoints: Option<nat>,   // points granted on victory, when different from `points`
    dmgDie: nat,
    dmgBonus: int,
    hp: nat,
    category: Category)

  function EnemyText(n: EnemyName): string {
    match n
    case Hajduk => "Hajduk"
    case Bies => "Bies"
    case Poacher => "Poacher"
    case Wolf => "Wolf"
    case Undine => "Undine"
    case Bear => "Bear"
    case Highwayman => "Highwayman"
    case Spook => "Spook"
    case TheMilord => "The Milord"
    case MilordsHajduk => "Milord's Hajduk"
    case MountainSpirit => "Spirit of the Mountains"
  }

  /** Distinct identities have distinct names, so comparing identities is comparing names. */
  lemma EnemyTextInjective(a: EnemyName, b: EnemyName)
    ensures EnemyText(a) == EnemyText(b) ==> a == b
  {
  }

  /** The scanty table: four entries, all in the scanty category. */
  function ScantyEnemies(): (r: seq<Enemy>)
    ensures |r| == 4
    ensures forall i :: 0 <= i < |r| ==> r[i].category == Scanty
  {
    [ Enemy(Hajduk, 3, None, 4, 0, 6, Scanty),
      Enemy(Bies, 3, None, 4, 0, 6, Scanty),
      Enemy(Poacher, 3, None, 4, 0, 5, Scanty),
      Enemy(Wolf, 4, None, 4, 1, 6, Scanty) ]
  }

  /** The hardy table: four entries, all in the hardy category. */
  function HardyEnemies(): (r: seq<Enemy>)
    ensures |r| == 4
    ensures forall i :: 0 <= i < |r| ==> r[i].category == Hardy
  {
    [ Enemy(Undine, 4, None, 4, 0, 8, Hardy),
      Enemy(Bear, 5, Some(7), 6, 1, 10, Hardy),
      Enemy(Highwayman, 4, None, 6, 1, 10, Hardy),
      Enemy(Spook, 5, None, 6, 0, 12, Hardy) ]
  }

  const Milord: Enemy := Enemy(TheMilord, 5, None, 6, 2, 14, Special)
  const ManorHajduk: Enemy := Enemy(MilordsHajduk, 3, None, 6, 0, 6, Special)
  const Spirit: Enemy := Enemy(MountainSpirit, 6, None, 6, 2, 20, Special)

  /** Every enemy the tables define. */
  function CatalogEnemies(): seq<Enemy> {
    ScantyEnemies() + HardyEnemies() + [Milord, ManorHajduk, Spirit]
  }

  /** The points a victory (or an avoided fight) is worth: `rewardPoints ?? points`. */
  function RewardValue(e: Enemy): nat {
    e.rewardPoints.GetOr(e.points)
  }

  /** Every catalog enemy has a name, a positive hit threshold, a damage die and hit points. */
  lemma CatalogEnemiesWellFormed()
    ensures forall e :: e in CatalogEnemies() ==>
      |EnemyText(e.name)| > 0 && e.points > 0 && e.dmgDie > 0 && e.hp > 0
  {
  }

  /** No two catalog entries share a name. */
  lemma CatalogNamesDistinct()
    ensures forall i, j :: 0 <= i < j < |CatalogEnemies()| ==>
      CatalogEnemies()[i].name != CatalogEnemies()[j].name
  {
  }

  /** Only the Bear declares its own reward (7, over a threshold of 5); all others reward their threshold. */
  lemma OnlyBearRewardsExtra()
    ensures forall e :: e in CatalogEnemies() ==> (e.rewardPoints.Some? <==> e.name == Bear)
    ensures forall e :: e in CatalogEnemies() && e.name != Bear ==> RewardValue(e) == e.points
    ensures HardyEnemies()[1].name == Bear && HardyEnemies()[1].points == 5
    ensures RewardValue(HardyEnemies()[1]) == 7
  {
  }

  /** The three special enemies and their stat lines. */
  lemma SpecialEnemyStats()
    ensures Milord.category == Special && ManorHajduk.category == Special && Spirit.category == Special
    ensures Milord.points == 5 && Milord.dmgDie == 6 && Milord.dmgBonus == 2 && Milord.hp == 14
    ensures ManorHajduk.points == 3 && ManorHajduk.dmgDie == 6 && ManorHajduk.dmgBonus == 0 && ManorHajduk.hp == 6
    ensures Spirit.points == 6 && Spirit.dmgDie == 6 && Spirit.dmgBonus == 2 && Spirit.hp == 20
  {
  }

  // -------------------------------------------------------------- locations

  const PeakBlack: string := "Peak Black"
  const MilordsManor: string := "Milord's Manor"
  const ACliff: string := "A Cliff"
  const Crags: string := "Crags"
  const ABurrow: string := "A Burrow"
  const DeepWoods: string := "Deep Woods"
  const AMeadow: string := "A Meadow"
  const MountainPass: string := "Mountain Pass"
  const ShepherdsHut: string := "Bac\U{F3}wka (Shepherd's Hut)"
  const MountainVillage: string := "Mountain Village"
  const CaveName: string := "Cave"

  datatype LocationOption = LocationOption(id: int, place: string)

  /** The location table the 2d6 roll and the divination sigil choose from: ids 1..12 in order. */
  function LocationOptions(): (r: seq<LocationOption>)
    ensures |r| == 12
    ensures forall i :: 0 <= i < |r| ==> r[i].id == i + 1
    ensures r[0].place == PeakBlack && r[11].place == MountainVillage
  {
    [ LocationOption(1, PeakBlack),
      LocationOption(2, MilordsManor),
      LocationOption(3, ACliff),
      LocationOption(4, Crags),
      LocationOption(5, ABurrow),
      LocationOption(6, DeepWoods),
      LocationOption(7, DeepWoods),
      LocationOption(8, AMeadow),
      LocationOption(9, AMeadow),
      LocationOption(10, MountainPass),
      LocationOption(11, ShepherdsHut),
      LocationOption(12, MountainVillage) ]
  }
}
