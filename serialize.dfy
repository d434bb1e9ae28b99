/** The JSON bodies the handlers build: `a.__dict__` for abilities and equipment
    and `character_to_dict` for characters. Each encoder is paired with the
    decoder a client applies to the body, and the pair round-trips, so a body
    carries exactly the stored record. */
module Serialize {
  import opened Wrappers
  import opened Json
  import opened Models

  const ABILITY_KEYS: set<string> := {"id", "name", "score"}
  const EQUIPMENT_KEYS: set<string> := {"id", "name", "quantity"}
  const CHARACTER_KEYS: set<string> :=
    {"id", "name", "race", "character_class", "level", "abilities", "equipment"}

  /** `[enc(x) for x in xs]` */
  function ListToJson<T>(xs: seq<T>, enc: T -> JsonValue): seq<JsonValue> {
    seq(|xs|, k requires 0 <= k < |xs| => enc(xs[k]))
  }

  /** Decodes every item of a JSON array, failing if any item fails. */
  function ListFromJson<T>(js: seq<JsonValue>, dec: JsonValue -> Option<T>): Option<seq<T>> {
    if js == [] then Some([])
    else
      match dec(js[0])
      case None => None
      case Some(x) =>
        match ListFromJson(js[1..], dec)
        case None => None
        case Some(rest) => Some([x] + rest)
  }

  lemma {:induction false} ListRoundTrip<T>(xs: seq<T>, enc: T -> JsonValue, dec: JsonValue -> Option<T>)
    requires forall x :: dec(enc(x)) == Some(x)
    ensures ListFromJson(ListToJson(xs, enc), dec) == Some(xs)
  {
    if xs != [] {
      assert ListToJson(xs, enc)[1..] == ListToJson(xs[1..], enc);
      ListRoundTrip(xs[1..], enc, dec);
      assert xs == [xs[0]] + xs[1..];
    }
  }

  function NatField(fields: map<string, JsonValue>, key: string): Option<nat> {
    if key in fields && fields[key].JInt? && fields[key].i >= 0 then Some(fields[key].i) else None
  }

  function IntField(fields: map<string, JsonValue>, key: string): Option<int> {
    if key in fields && fields[key].JInt? then Some(fields[key].i) else None
  }

  function StringField(fields: map<string, JsonValue>, key: string): Option<string> {
    if key in fields && fields[key].JString? then Some(fields[key].s) else None
  }

  /** `ability.__dict__` */
  function AbilityToJson(a: AbilityScore): (j: JsonValue)
    ensures j.JObject? && j.fields.Keys == ABILITY_KEYS
    ensures AbilityFromJson(j) == Some(a)
  {
    JObject(map["id" := JInt(a.id), "name" := JString(a.name), "score" := JInt(a.score)])
  }

  function AbilityFromJson(j: JsonValue): Option<AbilityScore> {
    if !j.JObject? then None
    else
      var id, name, score := NatField(j.fields, "id"), StringField(j.fields, "name"), IntField(j.fields, "score");
      if id.Some? && name.Some? && score.Some? then Some(AbilityScore(id.value, name.value, score.value)) else None
  }

  /** `equip.__dict__` */
  function EquipmentToJson(e: Equipment): (j: JsonValue)
    ensures j.JObject? && j.fields.Keys == EQUIPMENT_KEYS
    ensures EquipmentFromJson(j) == Some(e)
  {
    JObject(map["id" := JInt(e.id), "name" := JString(e.name), "quantity" := JInt(e.quantity)])
  }

  function EquipmentFromJson(j: JsonValue): Option<Equipment> {
    if !j.JObject? then None
    else
      var id, name, quantity := NatField(j.fields, "id"), StringField(j.fields, "name"), IntField(j.fields, "quantity");
      if id.Some? && name.Some? && quantity.Some? then Some(Equipment(id.value, name.value, quantity.value)) else None
  }

  function AbilitiesToJson(abilities: seq<AbilityScore>): (j: JsonValue)
    ensures j.JArray? && ListFromJson(j.items, AbilityFromJson) == Some(abilities)
  {
    ListRoundTrip(abilities, AbilityToJson, AbilityFromJson);
    JArray(ListToJson(abilities, AbilityToJson))
  }

  function EquipmentListToJson(equipment: seq<Equipment>): (j: JsonValue)
    ensures j.JArray? && ListFromJson(j.items, EquipmentFromJson) == Some(equipment)
  {
    ListRoundTrip(equipment, EquipmentToJson, EquipmentFromJson);
    JArray(ListToJson(equipment, EquipmentToJson))
  }

  /** `character_to_dict`: the character's fields and its two lists, each list
      in its stored order. */
  function CharacterToDict(c: Character): (j: JsonValue)
    ensures j.JObject? && j.fields.Keys == CHARACTER_KEYS
    ensures CharacterFromJson(j) == Some(c)
  {
    var abilities, equipment := AbilitiesToJson(c.abilities), EquipmentListToJson(c.equipment);
    JObject(map[
      "id" := JInt(c.id),
      "name" := JString(c.name),
      "race" := JString(c.race),
      "character_class" := JString(c.characterClass),
      "level" := JInt(c.level),
      "abilities" := abilities,
      "equipment" := equipment])
  }

  function CharacterFromJson(j: JsonValue): Option<Character> {
    if !j.JObject? || "abilities" !in j.fields || !j.fields["abilities"].JArray?
       || "equipment" !in j.fields || !j.fields["equipment"].JArray? then None
    else
      var id, name := NatField(j.fields, "id"), StringField(j.fields, "name");
      var race, characterClass := StringField(j.fields, "race"), StringField(j.fields, "character_class");
      var level := IntField(j.fields, "level");
      var abilities := ListFromJson(j.fields["abilities"].items, AbilityFromJson);
      var equipment := ListFromJson(j.fields["equipment"].items, EquipmentFromJson);
      if id.Some? && name.Some? && race.Some? && characterClass.Some? && level.Some?
         && abilities.Some? && equipment.Some?
      then Some(Character(id.value, name.value, race.value, characterClass.value, level.value,
                          abilities.value, equipment.value))
      else None
  }

  /** `[character_to_dict(c) for c in CHARACTERS]` */
  function CharactersToJson(cs: seq<Character>): (j: JsonValue)
    ensures j.JArray? && ListFromJson(j.items, CharacterFromJson) == Some(cs)
  {
    ListRoundTrip(cs, CharacterToDict, CharacterFromJson);
    JArray(ListToJson(cs, CharacterToDict))
  }
}
