/** server/routes.py: the REST handlers for characters and their abilities and
    equipment. Each handler takes the ids from its URL path and the request
    body as a record of optional fields, and returns the status code and JSON
    body it answers with. A handler that changes a character's abilities or
    equipment also appends one change event, addressed to that character's
    room, to the store's event log. */
module Routes {
  import opened Wrappers
  import opened Json
  import opened Models
  import opened Lists
  import opened Serialize
  import opened Events
  import opened Store

  /** The body of a character POST or PUT; None stands for an absent key
      (`request.get_json() or {}` gives all-None). */
  datatype CharacterRequest = CharacterRequest(
    name: Option<string> := None,
    race: Option<string> := None,
    characterClass: Option<string> := None,
    level: Option<int> := None)

  datatype AbilityRequest = AbilityRequest(name: Option<string> := None, score: Option<int> := None)

  datatype EquipmentRequest = EquipmentRequest(name: Option<string> := None, quantity: Option<int> := None)

  datatype Response = Response(status: int, body: JsonValue)

  const CHARACTER_NOT_FOUND: string := "Character not found"
  const ABILITY_NOT_FOUND: string := "Ability not found"
  const EQUIPMENT_NOT_FOUND: string := "Equipment not found"

  /** `jsonify({'error': message}), status` */
  function Error(status: int, message: string): Response {
    Response(status, JObject(map["error" := JString(message)]))
  }

  /** `jsonify({})` */
  const EMPTY_BODY: JsonValue := JObject(map[])

  /** `name in ('STR','DEX','CON','INT','WIS','CHA')`; an absent name is not. */
  predicate ValidAbilityName(name: Option<string>)
    ensures ValidAbilityName(name) <==>
      name in [Some("STR"), Some("DEX"), Some("CON"), Some("INT"), Some("WIS"), Some("CHA")]
  {
    name.Some? && IsAbilityName(name.value)
  }

  /** `not name` fails for an absent and for an empty name. */
  predicate ValidEquipmentName(name: Option<string>)
    ensures ValidEquipmentName(name) <==> name.Some? && |name.value| > 0
  {
    name.Some? && name.value != ""
  }

  // === Character endpoints ===

  /** GET /characters */
  method ListCharacters(s: CharacterStore) returns (resp: Response)
    ensures resp.status == 200 && resp.body.JArray?
    ensures ListFromJson(resp.body.items, CharacterFromJson) == Some(s.characters)
  {
    resp := Response(200, CharactersToJson(s.characters));
  }

  /** POST /characters: name defaults to "Unnamed", race and class to "". */
  method CreateCharacter(s: CharacterStore, req: CharacterRequest) returns (resp: Response)
    requires s.Valid()
    modifies s
    ensures s.Valid()
    ensures var c := Character(old(s.nextCharId), req.name.GetOr("Unnamed"),
                               req.race.GetOr(""), req.characterClass.GetOr(""));
      && s.characters == old(s.characters) + [c]
      && resp == Response(201, CharacterToDict(c))
    ensures s.nextCharId == old(s.nextCharId) + 1
    ensures s.nextAbilityId == old(s.nextAbilityId) && s.nextEquipmentId == old(s.nextEquipmentId)
    ensures s.events == old(s.events)
  {
    var c := s.NewCharacter(req.name.GetOr("Unnamed"), req.race.GetOr(""), req.characterClass.GetOr(""));
    resp := Response(201, CharacterToDict(c));
  }

  /** GET /characters/<id> */
  method GetCharacter(s: CharacterStore, charId: nat) returns (resp: Response)
    ensures s.FindCharacter(charId).None? ==> resp == Error(404, CHARACTER_NOT_FOUND)
    ensures s.FindCharacter(charId).Some? ==>
      resp.status == 200 && CharacterFromJson(resp.body) == Some(s.characters[s.FindCharacter(charId).value])
  {
    var found := s.FindCharacter(charId);
    if found.None? {
      return Error(404, CHARACTER_NOT_FOUND);
    }
    resp := Response(200, CharacterToDict(s.characters[found.value]));
  }

  /** The attributes `update_character` copies from the request, in its order. */
  datatype Attribute = Name | Race | CharacterClass | Level

  const UPDATABLE: seq<Attribute> := [Name, Race, CharacterClass, Level]

  /** `if attr in data: setattr(char, attr, data[attr])`: the chosen
      attribute takes the request's value when present, and every other field
      is kept. */
  function SetAttr(c: Character, attr: Attribute, req: CharacterRequest): (r: Character)
    ensures r.id == c.id && r.abilities == c.abilities && r.equipment == c.equipment
    ensures r.name == if attr == Name then req.name.GetOr(c.name) else c.name
    ensures r.race == if attr == Race then req.race.GetOr(c.race) else c.race
    ensures r.characterClass ==
      if attr == CharacterClass then req.characterClass.GetOr(c.characterClass) else c.characterClass
    ensures r.level == if attr == Level then req.level.GetOr(c.level) else c.level
  {
    match attr
    case Name => if req.name.Some? then c.(name := req.name.value) else c
    case Race => if req.race.Some? then c.(race := req.race.value) else c
    case CharacterClass => if req.characterClass.Some? then c.(characterClass := req.characterClass.value) else c
    case Level => if req.level.Some? then c.(level := req.level.value) else c
  }

  /** The loop of `update_character`: overwrites exactly the attributes present
      in the request and keeps every other field. */
  method ApplyUpdate(c: Character, req: CharacterRequest) returns (u: Character)
    ensures u.id == c.id && u.abilities == c.abilities && u.equipment == c.equipment
    ensures u.name == req.name.GetOr(c.name) && u.race == req.race.GetOr(c.race)
    ensures u.characterClass == req.characterClass.GetOr(c.characterClass)
    ensures u.level == req.level.GetOr(c.level)
  {
    u := c;
    for k := 0 to |UPDATABLE|
      invariant u.id == c.id && u.abilities == c.abilities && u.equipment == c.equipment
      invariant u.name == if Name in UPDATABLE[..k] then req.name.GetOr(c.name) else c.name
      invariant u.race == if Race in UPDATABLE[..k] then req.race.GetOr(c.race) else c.race
      invariant u.characterClass ==
        if CharacterClass in UPDATABLE[..k] then req.characterClass.GetOr(c.characterClass) else c.characterClass
      invariant u.level == if Level in UPDATABLE[..k] then req.level.GetOr(c.level) else c.level
    {
      assert UPDATABLE[..k + 1] == UPDATABLE[..k] + [UPDATABLE[k]];
      u := SetAttr(u, UPDATABLE[k], req);
    }
    assert UPDATABLE[..|UPDATABLE|] == UPDATABLE;
  }

  /** PUT/PATCH /characters/<id> */
  method UpdateCharacter(s: CharacterStore, charId: nat, req: CharacterRequest) returns (resp: Response)
    requires s.Valid()
    modifies s
    ensures s.Valid()
    ensures old(s.FindCharacter(charId)).None? ==> resp == Error(404, CHARACTER_NOT_FOUND) && unchanged(s)
    ensures |s.characters| == old(|s.characters|)
    ensures old(s.FindCharacter(charId)).Some? ==>
      var i := old(s.FindCharacter(charId)).value;
      var c, u := old(s.characters[i]), s.characters[i];
      && s.characters == old(s.characters)[i := u]
      && u.id == c.id && u.abilities == c.abilities && u.equipment == c.equipment
      && u.name == req.name.GetOr(c.name) && u.race == req.race.GetOr(c.race)
      && u.characterClass == req.characterClass.GetOr(c.characterClass)
      && u.level == req.level.GetOr(c.level)
      && resp == Response(200, CharacterToDict(u))
    ensures s.nextCharId == old(s.nextCharId) && s.nextAbilityId == old(s.nextAbilityId)
    ensures s.nextEquipmentId == old(s.nextEquipmentId) && s.events == old(s.events)
  {
    var found := s.FindCharacter(charId);
    if found.None? {
      return Error(404, CHARACTER_NOT_FOUND);
    }
    var i := found.value;
    var u := ApplyUpdate(s.characters[i], req);
    s.ReplaceCharacter(i, u);
    resp := Response(200, CharacterToDict(u));
  }

  /** DELETE /characters/<id>: removes the character; its id is never handed out again. */
  method DeleteCharacter(s: CharacterStore, charId: nat) returns (resp: Response)
    requires s.Valid()
    modifies s
    ensures s.Valid()
    ensures old(s.FindCharacter(charId)).None? ==> resp == Error(404, CHARACTER_NOT_FOUND) && unchanged(s)
    ensures old(s.FindCharacter(charId)).Some? ==>
      var i := old(s.FindCharacter(charId)).value;
      && s.characters == old(s.characters)[..i] + old(s.characters)[i + 1..]
      && s.FindCharacter(charId).None?
      && resp == Response(204, EMPTY_BODY)
    ensures s.nextCharId == old(s.nextCharId) && s.nextAbilityId == old(s.nextAbilityId)
    ensures s.nextEquipmentId == old(s.nextEquipmentId) && s.events == old(s.events)
  {
    var found := s.FindCharacter(charId);
    if found.None? {
      return Error(404, CHARACTER_NOT_FOUND);
    }
    s.RemoveCharacter(found.value);
    resp := Response(204, EMPTY_BODY);
  }

  // === AbilityScore sub-resources ===

  /** GET /characters/<id>/abilities */
  method ListAbilities(s: CharacterStore, charId: nat) returns (resp: Response)
    ensures s.FindCharacter(charId).None? ==> resp == Error(404, CHARACTER_NOT_FOUND)
    ensures s.FindCharacter(charId).Some? ==>
      && resp.status == 200 && resp.body.JArray?
      && ListFromJson(resp.body.items, AbilityFromJson) == Some(s.characters[s.FindCharacter(charId).value].abilities)
  {
    var found := s.FindCharacter(charId);
    if found.None? {
      return Error(404, CHARACTER_NOT_FOUND);
    }
    resp := Response(200, AbilitiesToJson(s.characters[found.value].abilities));
  }

  /** POST /characters/<id>/abilities */
  method CreateAbility(s: CharacterStore, charId: nat, req: AbilityRequest) returns (resp: Response)
    requires s.Valid()
    modifies s
    ensures s.Valid()
    ensures old(s.FindCharacter(charId)).None? ==> resp == Error(404, CHARACTER_NOT_FOUND) && unchanged(s)
    ensures old(s.FindCharacter(charId)).Some? && !ValidAbilityName(req.name) ==>
      resp == Error(400, "Invalid ability name") && unchanged(s)
    ensures old(s.FindCharacter(charId)).Some? && ValidAbilityName(req.name) ==>
      var i := old(s.FindCharacter(charId)).value;
      var c := old(s.characters[i]);
      var a := AbilityScore(old(s.nextAbilityId), req.name.value, req.score.GetOr(10));
      && s.characters == old(s.characters)[i := c.(abilities := c.abilities + [a])]
      && s.nextAbilityId == old(s.nextAbilityId) + 1
      && s.events == old(s.events) + [RoomEvent("ability_created", c.id, "ability", AbilityToJson(a))]
      && resp == Response(201, AbilityToJson(a))
    ensures s.nextCharId == old(s.nextCharId) && s.nextEquipmentId == old(s.nextEquipmentId)
  {
    var found := s.FindCharacter(charId);
    if found.None? {
      return Error(404, CHARACTER_NOT_FOUND);
    }
    var i := found.value;
    var c := s.characters[i];
    if !ValidAbilityName(req.name) {
      return Error(400, "Invalid ability name");
    }
    var newId := s.TakeAbilityId();
    var ability := AbilityScore(newId, req.name.value, req.score.GetOr(10));
    s.AppendAbility(i, ability);
    var e := RoomEvent("ability_created", c.id, "ability", AbilityToJson(ability));
    AbilityEventId("ability_created", c.id, AbilityToJson(ability));
    s.Emit(e);
    resp := Response(201, AbilityToJson(ability));
  }

  /** GET /characters/<id>/abilities/<aid> */
  method GetAbility(s: CharacterStore, charId: nat, abilityId: nat) returns (resp: Response)
    ensures s.FindCharacter(charId).None? ==> resp == Error(404, CHARACTER_NOT_FOUND)
    ensures s.FindCharacter(charId).Some? ==>
      var abilities := s.characters[s.FindCharacter(charId).value].abilities;
      match FirstIndex(abilities, abilityId, AbilityId)
      case None => resp == Error(404, ABILITY_NOT_FOUND)
      case Some(j) => resp.status == 200 && AbilityFromJson(resp.body) == Some(abilities[j])
  {
    var found := s.FindCharacter(charId);
    if found.None? {
      return Error(404, CHARACTER_NOT_FOUND);
    }
    var abilities := s.characters[found.value].abilities;
    var j := FirstIndex(abilities, abilityId, AbilityId);
    if j.None? {
      return Error(404, ABILITY_NOT_FOUND);
    }
    resp := Response(200, AbilityToJson(abilities[j.value]));
  }

  /** PUT/PATCH /characters/<id>/abilities/<aid>: only the score can change. */
  method UpdateAbility(s: CharacterStore, charId: nat, abilityId: nat, req: AbilityRequest)
    returns (resp: Response)
    requires s.Valid()
    modifies s
    ensures s.Valid()
    ensures old(s.FindCharacter(charId)).None? ==> resp == Error(404, CHARACTER_NOT_FOUND) && unchanged(s)
    ensures old(s.FindCharacter(charId)).Some? ==>
      var i := old(s.FindCharacter(charId)).value;
      var c := old(s.characters[i]);
      match FirstIndex(c.abilities, abilityId, AbilityId)
      case None => resp == Error(404, ABILITY_NOT_FOUND) && unchanged(s)
      case Some(j) =>
        var a := c.abilities[j].(score := req.score.GetOr(c.abilities[j].score));
        && s.characters == old(s.characters)[i := c.(abilities := c.abilities[j := a])]
        && s.events == old(s.events) + [RoomEvent("ability_updated", c.id, "ability", AbilityToJson(a))]
        && resp == Response(200, AbilityToJson(a))
    ensures s.nextCharId == old(s.nextCharId) && s.nextAbilityId == old(s.nextAbilityId)
    ensures s.nextEquipmentId == old(s.nextEquipmentId)
  {
    var found := s.FindCharacter(charId);
    if found.None? {
      return Error(404, CHARACTER_NOT_FOUND);
    }
    var i := found.value;
    var c := s.characters[i];
    var j := FirstIndex(c.abilities, abilityId, AbilityId);
    if j.None? {
      return Error(404, ABILITY_NOT_FOUND);
    }
    var ability := c.abilities[j.value];
    ability := ability.(score := req.score.GetOr(ability.score));
    WithAbility(c, j.value, ability, s.nextAbilityId, s.nextEquipmentId);
    s.ReplaceCharacter(i, c.(abilities := c.abilities[j.value := ability]));
    var e := RoomEvent("ability_updated", c.id, "ability", AbilityToJson(ability));
    AbilityEventId("ability_updated", c.id, AbilityToJson(ability));
    s.Emit(e);
    resp := Response(200, AbilityToJson(ability));
  }

  /** DELETE /characters/<id>/abilities/<aid> */
  method DeleteAbility(s: CharacterStore, charId: nat, abilityId: nat) returns (resp: Response)
    requires s.Valid()
    modifies s
    ensures s.Valid()
    ensures old(s.FindCharacter(charId)).None? ==> resp == Error(404, CHARACTER_NOT_FOUND) && unchanged(s)
    ensures old(s.FindCharacter(charId)).Some? ==>
      var i := old(s.FindCharacter(charId)).value;
      var c := old(s.characters[i]);
      match FirstIndex(c.abilities, abilityId, AbilityId)
      case None => resp == Error(404, ABILITY_NOT_FOUND) && unchanged(s)
      case Some(j) =>
        var rest := c.abilities[..j] + c.abilities[j + 1..];
        && s.characters == old(s.characters)[i := c.(abilities := rest)]
        && FirstIndex(rest, abilityId, AbilityId).None?
        && s.events == old(s.events) + [RoomEvent("ability_deleted", c.id, "ability_id", JInt(abilityId))]
        && resp == Response(204, EMPTY_BODY)
    ensures s.nextCharId == old(s.nextCharId) && s.nextAbilityId == old(s.nextAbilityId)
    ensures s.nextEquipmentId == old(s.nextEquipmentId)
  {
    var found := s.FindCharacter(charId);
    if found.None? {
      return Error(404, CHARACTER_NOT_FOUND);
    }
    var i := found.value;
    var c := s.characters[i];
    var j := FirstIndex(c.abilities, abilityId, AbilityId);
    if j.None? {
      return Error(404, ABILITY_NOT_FOUND);
    }
    RemoveFound(c.abilities, abilityId, AbilityId);
    WithoutAbility(c, j.value, s.nextAbilityId, s.nextEquipmentId);
    KeysRemoveAt(c.abilities, j.value, AbilityId);
    s.ReplaceCharacter(i, c.(abilities := RemoveFirst(c.abilities, c.abilities[j.value])));
    var e := RoomEvent("ability_deleted", c.id, "ability_id", JInt(abilityId));
    AbilityIdEventId("ability_deleted", c.id, abilityId);
    s.Emit(e);
    resp := Response(204, EMPTY_BODY);
  }

  // === Equipment sub-resources ===

  /** GET /characters/<id>/equipment */
  method ListEquipment(s: CharacterStore, charId: nat) returns (resp: Response)
    ensures s.FindCharacter(charId).None? ==> resp == Error(404, CHARACTER_NOT_FOUND)
    ensures s.FindCharacter(charId).Some? ==>
      && resp.status == 200 && resp.body.JArray?
      && ListFromJson(resp.body.items, EquipmentFromJson) == Some(s.characters[s.FindCharacter(charId).value].equipment)
  {
    var found := s.FindCharacter(charId);
    if found.None? {
      return Error(404, CHARACTER_NOT_FOUND);
    }
    resp := Response(200, EquipmentListToJson(s.characters[found.value].equipment));
  }

  /** POST /characters/<id>/equipment: quantity defaults to 1. */
  method CreateEquipment(s: CharacterStore, charId: nat, req: EquipmentRequest) returns (resp: Response)
    requires s.Valid()
    modifies s
    ensures s.Valid()
    ensures old(s.FindCharacter(charId)).None? ==> resp == Error(404, CHARACTER_NOT_FOUND) && unchanged(s)
    ensures old(s.FindCharacter(charId)).Some? && !ValidEquipmentName(req.name) ==>
      resp == Error(400, "Equipment name is required") && unchanged(s)
    ensures old(s.FindCharacter(charId)).Some? && ValidEquipmentName(req.name) ==>
      var i := old(s.FindCharacter(charId)).value;
      var c := old(s.characters[i]);
      var e := Equipment(old(s.nextEquipmentId), req.name.value, req.quantity.GetOr(1));
      && s.characters == old(s.characters)[i := c.(equipment := c.equipment + [e])]
      && s.nextEquipmentId == old(s.nextEquipmentId) + 1
      && s.events == old(s.events) + [RoomEvent("equipment_created", c.id, "equipment", EquipmentToJson(e))]
      && resp == Response(201, EquipmentToJson(e))
    ensures s.nextCharId == old(s.nextCharId) && s.nextAbilityId == old(s.nextAbilityId)
  {
    var found := s.FindCharacter(charId);
    if found.None? {
      return Error(404, CHARACTER_NOT_FOUND);
    }
    var i := found.value;
    var c := s.characters[i];
    if !ValidEquipmentName(req.name) {
      return Error(400, "Equipment name is required");
    }
    var newId := s.TakeEquipmentId();
    var equip := Equipment(newId, req.name.value, req.quantity.GetOr(1));
    s.AppendEquipment(i, equip);
    var e := RoomEvent("equipment_created", c.id, "equipment", EquipmentToJson(equip));
    EquipmentEventId("equipment_created", c.id, EquipmentToJson(equip));
    s.Emit(e);
    resp := Response(201, EquipmentToJson(equip));
  }

  /** GET /characters/<id>/equipment/<eid> */
  method GetEquipment(s: CharacterStore, charId: nat, equipId: nat) returns (resp: Response)
    ensures s.FindCharacter(charId).None? ==> resp == Error(404, CHARACTER_NOT_FOUND)
    ensures s.FindCharacter(charId).Some? ==>
      var equipment := s.characters[s.FindCharacter(charId).value].equipment;
      match FirstIndex(equipment, equipId, EquipmentId)
      case None => resp == Error(404, EQUIPMENT_NOT_FOUND)
      case Some(j) => resp.status == 200 && EquipmentFromJson(resp.body) == Some(equipment[j])
  {
    var found := s.FindCharacter(charId);
    if found.None? {
      return Error(404, CHARACTER_NOT_FOUND);
    }
    var equipment := s.characters[found.value].equipment;
    var j := FirstIndex(equipment, equipId, EquipmentId);
    if j.None? {
      return Error(404, EQUIPMENT_NOT_FOUND);
    }
    resp := Response(200, EquipmentToJson(equipment[j.value]));
  }

  /** PUT/PATCH /characters/<id>/equipment/<eid>: overwrites the name and the
      quantity that are present. Unlike creation, an empty name is accepted. */
  method UpdateEquipment(s: CharacterStore, charId: nat, equipId: nat, req: EquipmentRequest)
    returns (resp: Response)
    requires s.Valid()
    modifies s
    ensures s.Valid()
    ensures old(s.FindCharacter(charId)).None? ==> resp == Error(404, CHARACTER_NOT_FOUND) && unchanged(s)
    ensures old(s.FindCharacter(charId)).Some? ==>
      var i := old(s.FindCharacter(charId)).value;
      var c := old(s.characters[i]);
      match FirstIndex(c.equipment, equipId, EquipmentId)
      case None => resp == Error(404, EQUIPMENT_NOT_FOUND) && unchanged(s)
      case Some(j) =>
        var e := c.equipment[j].(name := req.name.GetOr(c.equipment[j].name),
                                 quantity := req.quantity.GetOr(c.equipment[j].quantity));
        && s.characters == old(s.characters)[i := c.(equipment := c.equipment[j := e])]
        && s.events == old(s.events) + [RoomEvent("equipment_updated", c.id, "equipment", EquipmentToJson(e))]
        && resp == Response(200, EquipmentToJson(e))
    ensures s.nextCharId == old(s.nextCharId) && s.nextAbilityId == old(s.nextAbilityId)
    ensures s.nextEquipmentId == old(s.nextEquipmentId)
  {
    var found := s.FindCharacter(charId);
    if found.None? {
      return Error(404, CHARACTER_NOT_FOUND);
    }
    var i := found.value;
    var c := s.characters[i];
    var j := FirstIndex(c.equipment, equipId, EquipmentId);
    if j.None? {
      return Error(404, EQUIPMENT_NOT_FOUND);
    }
    var equip := c.equipment[j.value];
    equip := equip.(name := req.name.GetOr(equip.name), quantity := req.quantity.GetOr(equip.quantity));
    WithEquipment(c, j.value, equip, s.nextAbilityId, s.nextEquipmentId);
    s.ReplaceCharacter(i, c.(equipment := c.equipment[j.value := equip]));
    var e := RoomEvent("equipment_updated", c.id, "equipment", EquipmentToJson(equip));
    EquipmentEventId("equipment_updated", c.id, EquipmentToJson(equip));
    s.Emit(e);
    resp := Response(200, EquipmentToJson(equip));
  }

  /** DELETE /characters/<id>/equipment/<eid> */
  method DeleteEquipment(s: CharacterStore, charId: nat, equipId: nat) returns (resp: Response)
    requires s.Valid()
    modifies s
    ensures s.Valid()
    ensures old(s.FindCharacter(charId)).None? ==> resp == Error(404, CHARACTER_NOT_FOUND) && unchanged(s)
    ensures old(s.FindCharacter(charId)).Some? ==>
      var i := old(s.FindCharacter(charId)).value;
      var c := old(s.characters[i]);
      match FirstIndex(c.equipment, equipId, EquipmentId)
      case None => resp == Error(404, EQUIPMENT_NOT_FOUND) && unchanged(s)
      case Some(j) =>
        var rest := c.equipment[..j] + c.equipment[j + 1..];
        && s.characters == old(s.characters)[i := c.(equipment := rest)]
        && FirstIndex(rest, equipId, EquipmentId).None?
        && s.events == old(s.events) + [RoomEvent("equipment_deleted", c.id, "equipment_id", JInt(equipId))]
        && resp == Response(204, EMPTY_BODY)
    ensures s.nextCharId == old(s.nextCharId) && s.nextAbilityId == old(s.nextAbilityId)
    ensures s.nextEquipmentId == old(s.nextEquipmentId)
  {
    var found := s.FindCharacter(charId);
    if found.None? {
      return Error(404, CHARACTER_NOT_FOUND);
    }
    var i := found.value;
    var c := s.characters[i];
    var j := FirstIndex(c.equipment, equipId, EquipmentId);
    if j.None? {
      return Error(404, EQUIPMENT_NOT_FOUND);
    }
    RemoveFound(c.equipment, equipId, EquipmentId);
    WithoutEquipment(c, j.value, s.nextAbilityId, s.nextEquipmentId);
    KeysRemoveAt(c.equipment, j.value, EquipmentId);
    s.ReplaceCharacter(i, c.(equipment := RemoveFirst(c.equipment, c.equipment[j.value])));
    var e := RoomEvent("equipment_deleted", c.id, "equipment_id", JInt(equipId));
    EquipmentIdEventId("equipment_deleted", c.id, equipId);
    s.Emit(e);
    resp := Response(204, EMPTY_BODY);
  }
}
