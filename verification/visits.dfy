/** Visit bookkeeping and the three rest places whose cooldowns it drives. */
module Visits {
  import opened Common
  import opened Catalog
  import opened RunState

  /** Recording a completed location: one more place, the location visited and no longer escaped,
      and every rest cooldown one step further. Nothing else changes. */
  function MarkVisited(s: GameState, location: string): (r: GameState)
    ensures r.visitedPlacesCount == s.visitedPlacesCount + 1
    ensures r.hutRestCooldown == s.hutRestCooldown + 1
    ensures r.villageRestCooldown == s.villageRestCooldown + 1
    ensures r.springRestCooldown == s.springRestCooldown + 1
    ensures r.visitedTypes == s.visitedTypes + {location}
    ensures r.escapedTypes == s.escapedTypes - {location}
    ensures location in r.visitedTypes && location !in r.escapedTypes
    ensures r.(visitedPlacesCount := s.visitedPlacesCount, visitedTypes := s.visitedTypes,
               escapedTypes := s.escapedTypes, hutRestCooldown := s.hutRestCooldown,
               villageRestCooldown := s.villageRestCooldown,
               springRestCooldown := s.springRestCooldown) == Supervise(s)
    ensures r.hp == s.hp && r.maxHp == s.maxHp && r.points == s.points && r.dutki == s.dutki
    ensures r.inventory == s.inventory && r.advancements == s.advancements
    ensures r.currentLocation == s.currentLocation && r.inCave == s.inCave
    ensures r.manorRoomsVisited == s.manorRoomsVisited && r.manorEnteredFromCave == s.manorEnteredFromCave
    ensures r.milordTrueNameKnown == s.milordTrueNameKnown && r.milordHunts == s.milordHunts
  {
    Supervise(s.(
      visitedPlacesCount := s.visitedPlacesCount + 1,
      visitedTypes := s.visitedTypes + {location},
      escapedTypes := s.escapedTypes - {location},
      hutRestCooldown := s.hutRestCooldown + 1,
      villageRestCooldown := s.villageRestCooldown + 1,
      springRestCooldown := s.springRestCooldown + 1))
  }

  /** Visited and escaped may overlap (fleeing does not clear the visit); marking a location
      visited removes it from the overlap and leaves the rest of the overlap as it was. */
  lemma MarkVisitedClearsOverlap(s: GameState, location: string)
    ensures (MarkVisited(s, location).visitedTypes * MarkVisited(s, location).escapedTypes)
            == (s.visitedTypes * s.escapedTypes) - {location}
  {
  }

  /** Marking a sequence of locations visited, one after the other. */
  function VisitAll(s: GameState, locations: seq<string>): GameState
    decreases |locations|
  {
    if |locations| == 0 then s else VisitAll(MarkVisited(s, locations[0]), locations[1..])
  }

  /** Each visit advances the place counter and all three cooldowns by exactly one. */
  lemma {:induction false} VisitAllCounts(s: GameState, locations: seq<string>)
    ensures VisitAll(s, locations).visitedPlacesCount == s.visitedPlacesCount + |locations|
    ensures VisitAll(s, locations).hutRestCooldown == s.hutRestCooldown + |locations|
    ensures VisitAll(s, locations).villageRestCooldown == s.villageRestCooldown + |locations|
    ensures VisitAll(s, locations).springRestCooldown == s.springRestCooldown + |locations|
    ensures VisitAll(s, locations).hp == s.hp
    decreases |locations|
  {
    if |locations| > 0 {
      VisitAllCounts(MarkVisited(s, locations[0]), locations[1..]);
    }
  }

  /** Every location of the sequence ends up visited, and nothing visited before is forgotten. */
  lemma {:induction false} VisitAllRecords(s: GameState, locations: seq<string>)
    ensures s.visitedTypes <= VisitAll(s, locations).visitedTypes
    ensures forall p :: p in locations ==> p in VisitAll(s, locations).visitedTypes
    decreases |locations|
  {
    if |locations| > 0 {
      var next := MarkVisited(s, locations[0]);
      VisitAllRecords(next, locations[1..]);
      forall p | p in locations
        ensures p in VisitAll(s, locations).visitedTypes
      {
        if p != locations[0] {
          assert p in locations[1..];
        }
      }
    }
  }

  /** A rest place may be used once its cooldown has reached 6. */
  predicate CanRest(cooldown: int) {
    cooldown >= 6
  }

  /** Resting in the shepherd's hut: heal d6+2 up to the maximum, restart the hut cooldown, clear the penalty. */
  function RestAtHut(s: GameState, healRoll: int): (r: GameState)
    ensures r.hutRestCooldown == 0 && r.temporaryHitPenalty == 0
    ensures r.hp == Min(s.hp + healRoll + 2, s.maxHp)
    ensures r.hp <= s.maxHp
    ensures IsRoll(healRoll, 6) && s.hp <= s.maxHp ==> s.hp <= r.hp
    ensures r.villageRestCooldown == s.villageRestCooldown && r.springRestCooldown == s.springRestCooldown
  {
    var heal := healRoll + 2;
    Supervise(s.(hp := Min(s.hp + heal, s.maxHp), hutRestCooldown := 0, temporaryHitPenalty := 0))
  }

  /** Resting in the village: heal d6+6 up to the maximum, restart the village cooldown, clear the penalty. */
  function RestAtVillage(s: GameState, healRoll: int): (r: GameState)
    ensures r.villageRestCooldown == 0 && r.temporaryHitPenalty == 0
    ensures r.hp == Min(s.hp + healRoll + 6, s.maxHp)
    ensures r.hp <= s.maxHp
    ensures r.hutRestCooldown == s.hutRestCooldown && r.springRestCooldown == s.springRestCooldown
  {
    var heal := healRoll + 6;
    Supervise(s.(hp := Min(s.hp + heal, s.maxHp), villageRestCooldown := 0, temporaryHitPenalty := 0))
  }

  /** Drinking from the cave's spring of life: full hp, restart the spring cooldown, clear the penalty. */
  function DrinkFromSpring(s: GameState): (r: GameState)
    ensures r.springRestCooldown == 0 && r.temporaryHitPenalty == 0
    ensures r.hp == s.maxHp
    ensures r.hutRestCooldown == s.hutRestCooldown && r.villageRestCooldown == s.villageRestCooldown
  {
    Supervise(s.(hp := s.maxHp, springRestCooldown := 0, temporaryHitPenalty := 0))
  }

  /** After a rest in the hut, the hut is offered again exactly when six more places have been visited. */
  lemma HutRestCycle(s: GameState, healRoll: int, locations: seq<string>)
    ensures CanRest(VisitAll(RestAtHut(s, healRoll), locations).hutRestCooldown) <==> |locations| >= 6
  {
    VisitAllCounts(RestAtHut(s, healRoll), locations);
  }

  /** The same cycle for the village and the spring. */
  lemma VillageAndSpringRestCycle(s: GameState, healRoll: int, locations: seq<string>)
    ensures CanRest(VisitAll(RestAtVillage(s, healRoll), locations).villageRestCooldown) <==> |locations| >= 6
    ensures CanRest(VisitAll(DrinkFromSpring(s), locations).springRestCooldown) <==> |locations| >= 6
  {
    VisitAllCounts(RestAtVillage(s, healRoll), locations);
    VisitAllCounts(DrinkFromSpring(s), locations);
  }
}
