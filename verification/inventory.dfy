/** Inventory helpers: random scrolls and objects, scroll compaction, and the list of loseable items. */
module Inventories {
  import opened Common
  import opened Catalog
  import opened RunState

  // ---------------------------------------------------------------- scrolls

  /** A random scroll: a d4 picks the type; a Divination Sigil always has one use, any other type a d4 of uses. */
  function CreateRandomScroll(typeRoll: int, usesRoll: int): (sc: Scroll)
    requires IsRoll(typeRoll, 4)
    ensures sc.kind == ScrollTypes[typeRoll - 1]
    ensures sc.kind == DivinationSigil <==> typeRoll == 4
    ensures sc.kind == DivinationSigil ==> sc.uses == 1
    ensures sc.kind != DivinationSigil ==> sc.uses == usesRoll
    ensures IsRoll(usesRoll, 4) ==> IsRoll(sc.uses, 4)
  {
    var kind := ScrollTypes[typeRoll - 1];
    Scroll(kind, if typeRoll == 4 then 1 else usesRoll)
  }

  /** Dropping every scroll whose uses have run out, order kept. */
  function Compact(scrolls: seq<Scroll>): (r: seq<Scroll>)
    ensures forall i :: 0 <= i < |r| ==> r[i].uses > 0
    ensures forall sc :: sc in r <==> sc in scrolls && sc.uses > 0
    ensures |r| <= |scrolls|
    decreases |scrolls|
  {
    if |scrolls| == 0 then []
    else if scrolls[0].uses > 0 then [scrolls[0]] + Compact(scrolls[1..])
    else Compact(scrolls[1..])
  }

  /** A list with no spent scroll is already compact. */
  lemma {:induction false} CompactKeepsLiveScrolls(scrolls: seq<Scroll>)
    requires forall i :: 0 <= i < |scrolls| ==> scrolls[i].uses > 0
    ensures Compact(scrolls) == scrolls
    decreases |scrolls|
  {
    if |scrolls| > 0 {
      CompactKeepsLiveScrolls(scrolls[1..]);
      assert [scrolls[0]] + scrolls[1..] == scrolls;
    }
  }

  /** Compaction distributes over concatenation, so the scrolls it keeps stay in their order and
      keep their multiplicity. */
  lemma {:induction false} CompactAppend(a: seq<Scroll>, b: seq<Scroll>)
    ensures Compact(a + b) == Compact(a) + Compact(b)
    decreases |a|
  {
    if |a| == 0 {
      assert a + b == b;
    } else {
      assert (a + b)[0] == a[0];
      assert (a + b)[1..] == a[1..] + b;
      CompactAppend(a[1..], b);
    }
  }

  /** A single scroll is kept exactly when it has uses left; with `CompactAppend` this fixes the result. */
  lemma CompactOne(sc: Scroll)
    ensures Compact([sc]) == (if sc.uses > 0 then [sc] else [])
  {
    assert [sc][1..] == [];
  }

  /** The uses left in a pack; a spent scroll counts nothing. */
  function LiveUses(scrolls: seq<Scroll>): (n: int)
    ensures n >= 0
    decreases |scrolls|
  {
    if |scrolls| == 0 then 0 else Max(0, scrolls[0].uses) + LiveUses(scrolls[1..])
  }

  /** Compaction drops only scrolls that had no use left. */
  lemma {:induction false} LiveUsesCompact(scrolls: seq<Scroll>)
    ensures LiveUses(Compact(scrolls)) == LiveUses(scrolls)
    decreases |scrolls|
  {
    if |scrolls| > 0 {
      LiveUsesCompact(scrolls[1..]);
      if scrolls[0].uses > 0 {
        assert ([scrolls[0]] + Compact(scrolls[1..]))[1..] == Compact(scrolls[1..]);
      }
    }
  }

  /** Removing one scroll takes away exactly the uses it had left. */
  lemma {:induction false} LiveUsesRemove(scrolls: seq<Scroll>, i: int)
    requires 0 <= i < |scrolls|
    ensures LiveUses(scrolls[..i] + scrolls[i + 1..]) == LiveUses(scrolls) - Max(0, scrolls[i].uses)
    decreases |scrolls|
  {
    if i > 0 {
      LiveUsesRemove(scrolls[1..], i - 1);
      assert (scrolls[..i] + scrolls[i + 1..])[1..] == scrolls[1..][..i - 1] + scrolls[1..][i..];
    } else {
      assert scrolls[..i] + scrolls[i + 1..] == scrolls[1..];
    }
  }

  /** Replacing one scroll changes the uses left by the difference between the two. */
  lemma {:induction false} LiveUsesUpdate(scrolls: seq<Scroll>, i: int, sc: Scroll)
    requires 0 <= i < |scrolls|
    ensures LiveUses(scrolls[i := sc]) == LiveUses(scrolls) - Max(0, scrolls[i].uses) + Max(0, sc.uses)
    decreases |scrolls|
  {
    if i > 0 {
      LiveUsesUpdate(scrolls[1..], i - 1, sc);
      assert scrolls[i := sc][1..] == scrolls[1..][i - 1 := sc];
    } else {
      assert scrolls[i := sc][1..] == scrolls[1..];
    }
  }

  // ---------------------------------------------------------- random objects

  /** The dice of one random object: a d6 for the kind, a d4 for the weapon / scroll type / cap
      charges, and a d4 for the scroll's uses. */
  datatype ObjectRolls = ObjectRolls(kind: int, sub: int, uses: int)

  predicate ValidObjectRolls(r: ObjectRolls) {
    IsRoll(r.kind, 6) && IsRoll(r.sub, 4)
  }

  datatype Item = WeaponItem(weapon: WeaponType) | PotionItem | RopeItem | ScrollItem | KaftanItem | CapItem

  /** What a found object came to: the item was taken, or it was declined because one is held / the pack is full. */
  datatype ObjectFound = Taken(item: Item) | Declined(item: Item)

  /** A random object: never a second rope, kaftan or cap, never more than 10 potions,
      never a weapon the character already wields. */
  function GrantRandomObject(inv: Inventory, rolls: ObjectRolls): (r: (Inventory, ObjectFound))
    requires ValidObjectRolls(rolls)
    ensures rolls.kind == 2 ==> r.0.potions == (if inv.potions < 10 then inv.potions + 1 else inv.potions)
    ensures rolls.kind != 2 ==> r.0.potions == inv.potions
    ensures inv.potions <= 10 ==> r.0.potions <= 10
    ensures inv.hasRope ==> r.0.hasRope == inv.hasRope && (rolls.kind == 3 ==> r.1 == Declined(RopeItem))
    ensures inv.hasKaftan ==> r.0.hasKaftan && (rolls.kind == 5 ==> r.1 == Declined(KaftanItem))
    ensures inv.capCharges != 0 ==> r.0.capCharges == inv.capCharges
    ensures rolls.kind == 6 && inv.capCharges == 0 ==> r.0.capCharges == rolls.sub
    ensures rolls.kind == 4 ==> r.0.scrolls == inv.scrolls + [CreateRandomScroll(rolls.sub, rolls.uses)]
    ensures rolls.kind != 4 ==> r.0.scrolls == inv.scrolls
    ensures rolls.kind == 1 ==> r.0.weapon.name == StartingWeapons[rolls.sub - 1]
    ensures rolls.kind == 1 && r.1.Taken? ==> r.0.weapon == Weapons(StartingWeapons[rolls.sub - 1])
    ensures rolls.kind != 1 ==> r.0.weapon == inv.weapon
    ensures r.1.Declined? ==> r.0 == inv
    ensures r.0.hasHeart == inv.hasHeart && r.0.hasKarabela == inv.hasKarabela
  {
    if rolls.kind == 1 then
      var w := Weapons(StartingWeapons[rolls.sub - 1]);
      if inv.weapon.name != w.name then (inv.(weapon := w), Taken(WeaponItem(w.name)))
      else (inv, Declined(WeaponItem(w.name)))
    else if rolls.kind == 2 then
      if inv.potions < 10 then (inv.(potions := inv.potions + 1), Taken(PotionItem))
      else (inv, Declined(PotionItem))
    else if rolls.kind == 3 then
      if !inv.hasRope then (inv.(hasRope := true), Taken(RopeItem))
      else (inv, Declined(RopeItem))
    else if rolls.kind == 4 then
      (inv.(scrolls := inv.scrolls + [CreateRandomScroll(rolls.sub, rolls.uses)]), Taken(ScrollItem))
    else if rolls.kind == 5 then
      if !inv.hasKaftan then (inv.(hasKaftan := true), Taken(KaftanItem))
      else (inv, Declined(KaftanItem))
    else
      if inv.capCharges == 0 then (inv.(capCharges := rolls.sub), Taken(CapItem))
      else (inv, Declined(CapItem))
  }

  // --------------------------------------------------------- loseable items

  datatype Loseable = LoseWeapon | LosePotion | LoseRope | LoseKaftan | LoseCap | LoseScroll(index: nat)

  /** One scroll loss per scroll position below `n`. */
  function ScrollLosses(n: nat): (r: seq<Loseable>)
    ensures |r| == n
    ensures forall x :: x in r <==> x.LoseScroll? && x.index < n
  {
    if n == 0 then [] else ScrollLosses(n - 1) + [LoseScroll(n - 1)]
  }

  /** What a thief or a clumsy bear can take: the weapon unless bare hands, one potion, the rope,
      the kaftan, the whole cap, or any one scroll, in that order. */
  function LoseableItems(inv: Inventory): (items: seq<Loseable>)
    ensures LoseWeapon in items <==> inv.weapon.name != BareHands
    ensures LosePotion in items <==> inv.potions > 0
    ensures LoseRope in items <==> inv.hasRope
    ensures LoseKaftan in items <==> inv.hasKaftan
    ensures LoseCap in items <==> inv.capCharges > 0
    ensures forall i: nat :: LoseScroll(i) in items <==> i < |inv.scrolls|
  {
    FixedLosses(inv) + ScrollLosses(|inv.scrolls|)
  }

  /** The non-scroll part of the loss list. */
  function FixedLosses(inv: Inventory): (items: seq<Loseable>)
    ensures LoseWeapon in items <==> inv.weapon.name != BareHands
    ensures LosePotion in items <==> inv.potions > 0
    ensures LoseRope in items <==> inv.hasRope
    ensures LoseKaftan in items <==> inv.hasKaftan
    ensures LoseCap in items <==> inv.capCharges > 0
    ensures forall x :: x in items ==> !x.LoseScroll?
  {
    var weapon := When(inv.weapon.name != BareHands, LoseWeapon);
    var potion := When(inv.potions > 0, LosePotion);
    var rope := When(inv.hasRope, LoseRope);
    var kaftan := When(inv.hasKaftan, LoseKaftan);
    var cap := When(inv.capCharges > 0, LoseCap);
    weapon + potion + rope + kaftan + cap
  }

  /** The one-item list of `x` when `b` holds, else nothing. */
  function When(b: bool, x: Loseable): (r: seq<Loseable>)
    ensures forall y :: y in r <==> b && y == x
  {
    if b then [x] else []
  }

  /** Taking the chosen item away. */
  function ApplyLoss(inv: Inventory, item: Loseable): (r: Inventory)
    requires item in LoseableItems(inv)
    ensures item == LoseWeapon ==> r.weapon.name == BareHands && r.(weapon := inv.weapon) == inv
    ensures item == LosePotion ==> r.potions == inv.potions - 1 && r.(potions := inv.potions) == inv
    ensures item == LoseRope ==> !r.hasRope && r.(hasRope := inv.hasRope) == inv
    ensures item == LoseKaftan ==> !r.hasKaftan && r.(hasKaftan := inv.hasKaftan) == inv
    ensures item == LoseCap ==> r.capCharges == 0 && r.(capCharges := inv.capCharges) == inv
    ensures item.LoseScroll? ==>
      |r.scrolls| == |inv.scrolls| - 1 && r.(scrolls := inv.scrolls) == inv
      && r.scrolls[..item.index] == inv.scrolls[..item.index]
      && r.scrolls[item.index..] == inv.scrolls[item.index + 1..]
  {
    match item
    case LoseWeapon => inv.(weapon := Weapons(BareHands))
    case LosePotion => inv.(potions := inv.potions - 1)
    case LoseRope => inv.(hasRope := false)
    case LoseKaftan => inv.(hasKaftan := false)
    case LoseCap => inv.(capCharges := 0)
    case LoseScroll(i) => inv.(scrolls := inv.scrolls[..i] + inv.scrolls[i + 1..])
  }

  /** How many things could still be lost: a potion counts one each, the cap counts once. */
  function Holdings(inv: Inventory): int {
    (if inv.weapon.name != BareHands then 1 else 0)
    + Max(inv.potions, 0)
    + (if inv.hasRope then 1 else 0)
    + (if inv.hasKaftan then 1 else 0)
    + (if inv.capCharges > 0 then 1 else 0)
    + |inv.scrolls|
  }

  /** A found object never costs a holding: an object taken other than a weapon adds exactly one,
      a weapon taken adds one only to bare hands, and a declined one changes nothing. */
  lemma FindingNeverLoses(inv: Inventory, rolls: ObjectRolls)
    requires ValidObjectRolls(rolls)
    ensures var found := GrantRandomObject(inv, rolls);
            Holdings(found.0) >= Holdings(inv)
            && (found.1.Declined? ==> Holdings(found.0) == Holdings(inv))
            && (found.1.Taken? && rolls.kind != 1 && inv.potions >= 0 ==> Holdings(found.0) == Holdings(inv) + 1)
            && (found.1.Taken? && rolls.kind == 1 ==>
                  Holdings(found.0) == Holdings(inv) + (if inv.weapon.name == BareHands then 1 else 0))
  {
    assert forall k :: 0 <= k < |StartingWeapons| ==> StartingWeapons[k] != BareHands;
  }

  /** Every offered loss takes exactly one thing, and there is nothing to offer exactly when nothing is held. */
  lemma LossTakesExactlyOne(inv: Inventory, item: Loseable)
    requires item in LoseableItems(inv)
    ensures Holdings(ApplyLoss(inv, item)) == Holdings(inv) - 1
    ensures Holdings(ApplyLoss(inv, item)) >= 0
  {
    if item.LoseScroll? {
      assert item.index < |inv.scrolls|;
    }
  }

  lemma NothingToLoseIffEmpty(inv: Inventory)
    ensures |LoseableItems(inv)| == 0 <==> Holdings(inv) == 0
  {
    if |inv.scrolls| > 0 {
      assert LoseScroll(0) in LoseableItems(inv);
    }
  }

  /** Drinking a potion outside a fight: heal a d6 up to the maximum, one potion fewer. */
  function DrinkPotionOutsideFight(s: GameState, healRoll: int): (r: GameState)
    ensures r.hp == Min(s.hp + healRoll, s.maxHp) && r.hp <= s.maxHp
    ensures r.inventory.potions == s.inventory.potions - 1
    ensures s.inventory.potions > 0 ==> r.inventory.potions >= 0
    ensures r.inventory.scrolls == s.inventory.scrolls && r.points == s.points
  {
    Supervise(s.(hp := Min(s.hp + healRoll, s.maxHp),
                 inventory := s.inventory.(potions := s.inventory.potions - 1)))
  }
}
