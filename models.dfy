/** The records of server/models.py. Each dataclass default becomes the default
    value of the matching constructor parameter, so `AbilityScore(id, name)` has
    score 10 exactly as in the source. */
module Models {

  /** The six ability codes an ability name is meant to be one of. */
  const ABILITY_NAMES: set<string> := {"STR", "DEX", "CON", "INT", "WIS", "CHA"}

  predicate IsAbilityName(name: string) {
    name in ABILITY_NAMES
  }

  datatype AbilityScore = AbilityScore(id: nat, name: string, score: int := 10)

  datatype Equipment = Equipment(id: nat, name: string, quantity: int := 1)

  /** `abilities` and `equipment` are values, so two characters can never share
      one list (the `default_factory=list` of the source). */
  datatype Character = Character(
    id: nat,
    name: string,
    race: string := "",
    characterClass: string := "",
    level: int := 1,
    abilities: seq<AbilityScore> := [],
    equipment: seq<Equipment> := [])

  // The id of each record, as a function value for the generic searches of module Lists.

  function CharacterId(c: Character): nat { c.id }

  function AbilityId(a: AbilityScore): nat { a.id }

  function EquipmentId(e: Equipment): nat { e.id }
}
