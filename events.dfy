/** The change events the handlers emit: `socketio.emit(name, payload,
    room=f'character_{char.id}')`. An event is well addressed when its room
    is `character_` followed by the decimal form of the payload's
    `character_id`. */
module Events {
  import opened Wrappers
  import opened Json

  function DigitChar(d: nat): char
    requires d < 10
  {
    (48 + d) as char
  }

  /** `str(n)` for a non-negative integer. */
  function Decimal(n: nat): (r: string)
    ensures |r| >= 1
    ensures forall k :: 0 <= k < |r| ==> '0' <= r[k] <= '9'
    ensures n < 10 <==> |r| == 1
  {
    if n < 10 then [DigitChar(n)] else Decimal(n / 10) + [DigitChar(n % 10)]
  }

  /** `int(s)` for a non-empty string of decimal digits. */
  function DecimalValue(s: string): (r: Option<nat>)
  {
    if s == [] then None
    else
      var d := s[|s| - 1] as int - 48;
      if d < 0 || 9 < d then None
      else if |s| == 1 then Some(d)
      else
        match DecimalValue(s[..|s| - 1])
        case None => None
        case Some(v) => Some(10 * v + d)
  }

  lemma {:induction false} DecimalRoundTrip(n: nat)
    ensures DecimalValue(Decimal(n)) == Some(n)
  {
    if n >= 10 {
      DecimalRoundTrip(n / 10);
      var prefix := Decimal(n / 10);
      var s := prefix + [DigitChar(n % 10)];
      assert Decimal(n) == s;
      assert s[|s| - 1] as int - 48 == n % 10;
      assert s[..|s| - 1] == prefix;
      assert 10 * (n / 10) + n % 10 == n;
    }
  }

  const ROOM_PREFIX: string := "character_"

  /** `f'character_{id}'` */
  function RoomName(id: nat): (r: string)
    ensures |r| > |ROOM_PREFIX| && r[..|ROOM_PREFIX|] == ROOM_PREFIX
    ensures forall k :: |ROOM_PREFIX| <= k < |r| ==> '0' <= r[k] <= '9'
  {
    ROOM_PREFIX + Decimal(id)
  }

  /** The character id a room name stands for, if it is one. */
  function RoomCharacterId(room: string): Option<nat> {
    if |room| >= |ROOM_PREFIX| && room[..|ROOM_PREFIX|] == ROOM_PREFIX
    then DecimalValue(room[|ROOM_PREFIX|..])
    else None
  }

  lemma RoomRoundTrip(id: nat)
    ensures RoomCharacterId(RoomName(id)) == Some(id)
  {
    var room := RoomName(id);
    assert room[..|ROOM_PREFIX|] == ROOM_PREFIX;
    assert room[|ROOM_PREFIX|..] == Decimal(id);
    DecimalRoundTrip(id);
  }

  /** Distinct characters have distinct rooms, so an event never reaches the
      room of another character. */
  lemma RoomNameInjective(a: nat, b: nat)
    ensures RoomName(a) == RoomName(b) <==> a == b
  {
    RoomRoundTrip(a);
    RoomRoundTrip(b);
  }

  datatype Event = Event(name: string, room: string, payload: JsonValue)

  /** The `character_id` field of an event payload. */
  function PayloadCharacterId(payload: JsonValue): Option<int> {
    if payload.JObject? && "character_id" in payload.fields && payload.fields["character_id"].JInt?
    then Some(payload.fields["character_id"].i)
    else None
  }

  /** The ability or equipment id a payload carries: the `id` of the record
      stored under `entity` (`'ability'`, `'equipment'`), or else the value
      stored under `idKey` (`'ability_id'`, `'equipment_id'`). */
  function PayloadEntityId(payload: JsonValue, entity: string, idKey: string): Option<int> {
    if !payload.JObject? then None
    else if entity in payload.fields && payload.fields[entity].JObject?
            && "id" in payload.fields[entity].fields && payload.fields[entity].fields["id"].JInt?
    then Some(payload.fields[entity].fields["id"].i)
    else if idKey in payload.fields && payload.fields[idKey].JInt?
    then Some(payload.fields[idKey].i)
    else None
  }

  predicate AddressedTo(e: Event, id: nat) {
    PayloadCharacterId(e.payload) == Some(id) && e.room == RoomName(id)
  }

  predicate WellAddressed(e: Event) {
    match PayloadCharacterId(e.payload)
    case Some(id) => id >= 0 && AddressedTo(e, id)
    case None => false
  }

  /** `socketio.emit(name, {key: value, 'character_id': id}, room=f'character_{id}')` */
  function RoomEvent(name: string, id: nat, key: string, value: JsonValue): (e: Event)
    ensures WellAddressed(e) && AddressedTo(e, id)
    ensures RoomCharacterId(e.room) == Some(id)
  {
    RoomRoundTrip(id);
    Event(name, RoomName(id), JObject(map[key := value, "character_id" := JInt(id)]))
  }

  /** The ability or equipment id an event carries, for each payload the
      handlers emit: a record under `ability` or `equipment` carries its own
      `id`, a bare `ability_id` or `equipment_id` carries that value, and the
      other kind of entity is absent. */
  lemma AbilityEventId(name: string, id: nat, record: JsonValue)
    requires record.JObject? && "id" in record.fields && record.fields["id"].JInt?
    ensures var p := RoomEvent(name, id, "ability", record).payload;
      && PayloadEntityId(p, "ability", "ability_id") == Some(record.fields["id"].i)
      && PayloadEntityId(p, "equipment", "equipment_id").None?
  {
    var p := RoomEvent(name, id, "ability", record).payload;
    assert p.fields.Keys == {"ability", "character_id"};
  }

  lemma AbilityIdEventId(name: string, id: nat, abilityId: int)
    ensures var p := RoomEvent(name, id, "ability_id", JInt(abilityId)).payload;
      && PayloadEntityId(p, "ability", "ability_id") == Some(abilityId)
      && PayloadEntityId(p, "equipment", "equipment_id").None?
  {
    var p := RoomEvent(name, id, "ability_id", JInt(abilityId)).payload;
    assert p.fields.Keys == {"ability_id", "character_id"};
  }

  lemma EquipmentEventId(name: string, id: nat, record: JsonValue)
    requires record.JObject? && "id" in record.fields && record.fields["id"].JInt?
    ensures var p := RoomEvent(name, id, "equipment", record).payload;
      && PayloadEntityId(p, "equipment", "equipment_id") == Some(record.fields["id"].i)
      && PayloadEntityId(p, "ability", "ability_id").None?
  {
    var p := RoomEvent(name, id, "equipment", record).payload;
    assert p.fields.Keys == {"equipment", "character_id"};
  }

  lemma EquipmentIdEventId(name: string, id: nat, equipmentId: int)
    ensures var p := RoomEvent(name, id, "equipment_id", JInt(equipmentId)).payload;
      && PayloadEntityId(p, "equipment", "equipment_id") == Some(equipmentId)
      && PayloadEntityId(p, "ability", "ability_id").None?
  {
    var p := RoomEvent(name, id, "equipment_id", JInt(equipmentId)).payload;
    assert p.fields.Keys == {"equipment_id", "character_id"};
  }

  /** Two well-addressed events share a room exactly when they are about the
      same character. */
  lemma SameRoomSameCharacter(e1: Event, e2: Event)
    requires WellAddressed(e1) && WellAddressed(e2)
    ensures e1.room == e2.room <==> PayloadCharacterId(e1.payload) == PayloadCharacterId(e2.payload)
  {
    RoomNameInjective(PayloadCharacterId(e1.payload).value, PayloadCharacterId(e2.payload).value);
  }
}
