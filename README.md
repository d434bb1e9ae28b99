# Character store and REST mutation handlers, in Dafny

This project models the server core of a live character-sheet manager. A Flask
server keeps characters in memory. Each character owns an ordered list of
ability scores and an ordered list of equipment. REST handlers read and change
them. Every change to an ability or to equipment is announced through
Socket.IO to the room `character_{id}` of the character it belongs to.

The model is one stateful object, `Store.CharacterStore`. Its fields are:

- `characters`: the character list, in insertion order.
- `nextCharId`, `nextAbilityId`, `nextEquipmentId`: the three `itertools.count(1)` id generators, each held as the value its next `next(...)` call returns.
- `events`: the log of emitted change events, in emission order.

Each handler of `server/routes.py` is a method of module `Routes`. It takes the
path ids and the JSON body as a record of optional fields (`None` means the key
is absent). It returns the status code and the JSON body it answers with.
`socketio.emit(name, payload, room=...)` is modelled as appending the event
`(name, room, payload)` to the log.

Modules, in dependency order:

- `Wrappers`: `Option`, with `GetOr` for Python's `dict.get(key, default)`.
- `Json`: JSON values.
- `Models`: the dataclasses of `server/models.py`. Their defaults are the default values of the constructor parameters: score 10, quantity 1, level 1, race and class `""`, empty lists.
- `Lists`: the first-match search `next((x for x in xs if x.id == id), None)`, Python's `list.remove`, the set of ids a list holds, and what ids from a rising counter give a list (strictly increasing keys).
- `Serialize`: `a.__dict__` and `character_to_dict`, each paired with a decoder. Each pair is proved to round-trip.
- `Events`: the room name `character_{id}` with its decimal formatting, proved invertible. Also the event record and the "well addressed" predicate: the room is `character_` followed by the payload's `character_id`.
- `Store`: the store object, its invariant `Valid()`, and the operations of `server/store.py`.
- `Routes`: the fifteen CRUD handlers.

`Valid()` is the store invariant that every handler preserves:

- Every counter is at least 1.
- Character ids strictly increase along the list and lie in `[1, nextCharId)`.
- In each character, ability ids and equipment ids strictly increase and lie below their counters.
- Every stored ability name is one of `STR DEX CON INT WIS CHA`.
- No two characters share an ability id or an equipment id, because each kind of id comes from one generator common to all characters.
- Every logged event is well addressed, to a character id below `nextCharId`. The ability or equipment id it carries, as a record under `ability`/`equipment` or as a bare `ability_id`/`equipment_id`, lies in `[1, counter)`.

Because a new id is always the counter's current value, it exceeds every id
of its kind stored in any character and every id of its kind in the event
log. So an id is never handed out twice, even after the record holding it was
deleted.

Integer width plays no part: Python integers are unbounded, like Dafny's.

Python mutates `Character` objects in place. Here a character is a value inside
the store's sequence. `FindCharacter` returns the character's position, which
plays the part of the object reference the source returns. A handler that
changes a character stores a new value at that position.

`GET /characters` returns the full `character_to_dict` of every character,
abilities and equipment included (`server/routes.py:24-26`), and so does
`Routes.ListCharacters`.

Two behaviours of the code are kept as they are:

- `update_equipment` accepts an empty name, although `create_equipment` rejects one. A non-empty equipment name is therefore not an invariant of the store.
- `update_ability` emits `ability_updated` even when the body has no `score`.

## Model

| member | source | states |
|---|---|---|
| `Lists.FirstIndex` | server/routes.py:112 | The position of the first element with the given id: the element there has that id and no earlier one does. It is None exactly when no element has it. |
| `Lists.RemoveFirst` | server/routes.py:62 | `list.remove(x)` on a list holding `x` gives a list one element shorter. |
| `Lists.RemoveFirstOne` | server/routes.py:146 | `list.remove(x)` takes out exactly one occurrence of `x`: the result together with `x` has the same elements, with multiplicity, as the list before. |
| `Lists.RemoveFirstAt` | server/routes.py:62 | `list.remove(x)` takes out the first element equal to `x`. When the element at position `i` has no equal before it, exactly position `i` is removed and the order of the rest is kept. |
| `Lists.RemoveFound` | server/routes.py:146 | `list.remove` applied to the element found by id removes exactly that position and keeps the order of the rest. |
| `Lists.RemoveAtIncreasing` | server/routes.py:143-146 | Removing one entry from a list with increasing ids keeps the ids increasing and leaves no entry with the removed id. |
| `Lists.KeysAppend` | server/routes.py:98 | Appending a record adds exactly its id to the list's set of ids. |
| `Lists.KeysRemoveAt` | server/routes.py:229 | Removing one record leaves the list's set of ids within the old set. |
| `Lists.KeysUpdate` | server/routes.py:209-212 | Overwriting a record with one of the same id leaves the list's set of ids unchanged. |
| `Lists.AppendGreater` | server/store.py:13-24 | Appending a record whose id exceeds every id in the list keeps the ids increasing. The first-match search for that id then finds the new record at the end. |
| `Serialize.ListRoundTrip` | server/routes.py:18-19 | Encoding a list item by item and decoding the array gives back the list, whenever the item encoder and decoder round-trip. |
| `Serialize.AbilityToJson` | server/models.py:5-9 | `ability.__dict__` has exactly the keys id, name and score, and decodes back to the same ability. |
| `Serialize.EquipmentToJson` | server/models.py:11-15 | `equip.__dict__` has exactly the keys id, name and quantity, and decodes back to the same item. |
| `Serialize.AbilitiesToJson` | server/routes.py:72 | The ability list body decodes to the character's abilities, in order. |
| `Serialize.EquipmentListToJson` | server/routes.py:161 | The equipment list body decodes to the character's equipment, in order. |
| `Serialize.CharacterToDict` | server/routes.py:11-20 | `character_to_dict` has exactly its seven keys and decodes back to the same character, nested lists included. |
| `Serialize.CharactersToJson` | server/routes.py:26 | The list of all characters decodes back to the stored list. |
| `Events.Decimal` | server/routes.py:102 | The decimal text of an id is non-empty and made of digits only. It is one digit long exactly when the id is below 10. |
| `Events.RoomName` | server/routes.py:102 | The room name is `character_` followed by one or more digits. |
| `Events.DecimalRoundTrip` | server/routes.py:102 | The decimal text of an id in a room name parses back to the id. |
| `Events.RoomRoundTrip` | server/routes.py:102 | The id can be read back from the room name `character_{id}`. |
| `Events.RoomNameInjective` | server/routes.py:102 | Two ids give the same room name exactly when they are equal. |
| `Events.RoomEvent` | server/routes.py:99-103 | An emitted event goes to room `character_{id}`, and its payload's `character_id` is that same id. |
| `Events.AbilityEventId` | server/routes.py:130-134 | An event carrying an ability record under `ability` reports that record's id as its ability id, and carries no equipment id. |
| `Events.AbilityIdEventId` | server/routes.py:147-151 | An event carrying a bare `ability_id` reports that id as its ability id, and carries no equipment id. |
| `Events.EquipmentEventId` | server/routes.py:180-184 | An event carrying an equipment record under `equipment` reports that record's id as its equipment id, and carries no ability id. |
| `Events.EquipmentIdEventId` | server/routes.py:230-234 | An event carrying a bare `equipment_id` reports that id as its equipment id, and carries no ability id. |
| `Events.SameRoomSameCharacter` | server/routes.py:130-134 | Two well-addressed events share a room exactly when their payloads name the same character, so no event reaches another character's room. |
| `Store.CharacterStore.constructor` | server/store.py:5-11 | Initially there are no characters and no events, and all three generators start at 1. |
| `Store.CharacterStore.FindCharacter` | server/store.py:23-24 | `find_character` gives the first character with the id, or None when there is none. It reads the store and changes nothing. |
| `Store.CharacterStore.NewCharacter` | server/store.py:13-21 | `new_character` takes the next character id and advances only that counter. It appends exactly one character and leaves the earlier ones alone. The new character has the given name, race and class, level 1 and empty lists. Its id exceeds every stored id and every id in the event log. `find_character` then returns it. |
| `Store.CharacterStore.TakeAbilityId` | server/store.py:7 | `next(_ability_id_gen)` returns the counter and advances only it. The id returned exceeds every ability id stored in any character and every ability id in the event log. |
| `Store.CharacterStore.TakeEquipmentId` | server/store.py:8 | `next(_equip_id_gen)` returns the counter and advances only it. The id returned exceeds every equipment id stored in any character and every equipment id in the event log. |
| `Store.CharacterStore.ReplaceCharacter` | server/routes.py:52-54 | Storing an updated character at its position, with the same id and no ability or equipment id it did not hold, keeps the invariant and changes nothing else. |
| `Store.CharacterStore.AppendAbility` | server/routes.py:98 | `char.abilities.append(ability)` with a fresh id keeps the invariant, changes only that character's ability list, and the first-match search then finds the new ability at the end. |
| `Store.CharacterStore.AppendEquipment` | server/routes.py:179 | `char.equipment.append(equip)` with a fresh id keeps the invariant, changes only that character's equipment list, and the first-match search then finds the new item at the end. |
| `Store.CharacterStore.RemoveCharacter` | server/routes.py:62 | `CHARACTERS.remove(char)` removes exactly that character and keeps the order of the rest. No character with that id remains. |
| `Store.CharacterStore.Emit` | server/routes.py:147-151 | Emitting appends exactly one event to the log and changes nothing else. |
| `Store.AppendAbilityDisjoint` | server/routes.py:86-98 | An ability whose id exceeds every stored ability id, appended to one character, leaves it sharing no id with any other character. |
| `Store.AppendEquipmentDisjoint` | server/routes.py:174-179 | An item whose id exceeds every stored equipment id, appended to one character, leaves it sharing no id with any other character. |
| `Store.ShrinkDisjoint` | server/routes.py:146 | A character that holds only ids it held before still shares no id with any other character. |
| `Store.PairwiseAppendEmpty` | server/store.py:20 | A new character with no abilities and no equipment, appended to the list, keeps all characters pairwise free of shared ids. |
| `Store.PairwiseRemove` | server/routes.py:62 | Removing a character keeps the others pairwise free of shared ids. |
| `Store.PairwiseReplace` | server/routes.py:52-54 | Replacing a character by one disjoint from all the others keeps the list pairwise free of shared ids. |
| `Store.AllValidAppend` | server/store.py:13-21 | Appending a character with the current character id and empty lists keeps every character valid once the counter advances. |
| `Store.AllValidRemove` | server/routes.py:62 | Removing a character keeps every remaining character valid. |
| `Store.EventsValidMonotone` | server/store.py:6-8 | Advancing any generator keeps every logged event valid. |
| `Store.EventsValidAppend` | server/routes.py:99-103 | Logging one more valid event keeps the whole log valid. |
| `Store.EventsCharacterBelow` | server/store.py:15 | Every logged event names a character id in `[1, nextCharId)`, so a new character's id is not in the log. |
| `Store.WithAbility` | server/routes.py:128-129 | Overwriting an ability with one of the same id and name keeps the character valid and its set of ability ids unchanged. |
| `Store.WithEquipment` | server/routes.py:209-212 | Overwriting an item with one of the same id keeps the character valid and its set of equipment ids unchanged. |
| `Store.WithoutAbility` | server/routes.py:143-146 | Removing one ability keeps the character valid and leaves no ability with that id. |
| `Store.WithoutEquipment` | server/routes.py:226-229 | Removing one piece of equipment keeps the character valid and leaves no equipment with that id. |
| `Routes.ListCharacters` | server/routes.py:24-26 | Status 200, and the body decodes to exactly the stored characters, in order. |
| `Routes.CreateCharacter` | server/routes.py:28-36 | Status 201. Name defaults to "Unnamed" and race and class to "". Exactly one character is appended, only the character counter advances, and nothing is emitted. |
| `Routes.GetCharacter` | server/routes.py:38-43 | 404 "Character not found" for an unknown id. Otherwise 200, with a body that decodes to the stored character. |
| `Routes.SetAttr` | server/routes.py:53-54 | The chosen attribute takes the request's value when present and keeps its own otherwise. Every other field is kept. |
| `Routes.ApplyUpdate` | server/routes.py:52-54 | Of name, race, character_class and level, the present ones are overwritten and the absent ones kept. Id, abilities and equipment never change. |
| `Routes.UpdateCharacter` | server/routes.py:45-55 | 404 for an unknown id, with store and log unchanged. Otherwise only that character changes, by exactly the fields present. Returns 200 with the updated character and emits nothing. |
| `Routes.DeleteCharacter` | server/routes.py:57-63 | 404 for an unknown id, with nothing changed. Otherwise exactly that character is removed, the others keep their order, and the counters and log are unchanged. Returns 204. |
| `Routes.ListAbilities` | server/routes.py:67-72 | 404 for an unknown character. Otherwise 200, with a body that decodes to the character's abilities in order. |
| `Routes.ValidAbilityName` | server/routes.py:82-84 | A name passes exactly when it is one of `STR`, `DEX`, `CON`, `INT`, `WIS` and `CHA`. An absent name fails. |
| `Routes.CreateAbility` | server/routes.py:74-104 | 404 for an unknown character and 400 for a name outside the six codes; either way nothing changes and the counter does not advance. Otherwise one ability is appended with a fresh id, the name and a score defaulting to 10. Only the ability counter advances, one `ability_created` event goes to the character's room, and the status is 201. |
| `Routes.GetAbility` | server/routes.py:106-115 | 404 for an unknown character or ability. Otherwise 200, with a body that decodes to the first ability with that id. |
| `Routes.UpdateAbility` | server/routes.py:117-135 | 404 for an unknown character or ability, with nothing changed. Otherwise only the score of that ability changes, and only if given. Order, names and other abilities are kept. One `ability_updated` event is emitted. |
| `Routes.DeleteAbility` | server/routes.py:137-152 | 404 for an unknown character or ability, with nothing changed. Otherwise exactly that ability is removed, the rest keep their order, and no ability with that id remains. One `ability_deleted` event carries the id. Returns 204. |
| `Routes.ListEquipment` | server/routes.py:156-161 | 404 for an unknown character. Otherwise 200, with a body that decodes to the character's equipment in order. |
| `Routes.ValidEquipmentName` | server/routes.py:170-172 | A name passes exactly when it is present and non-empty. |
| `Routes.CreateEquipment` | server/routes.py:163-185 | 404 for an unknown character and 400 for an absent or empty name; either way nothing changes. Otherwise one item is appended with a fresh id and a quantity defaulting to 1. Only the equipment counter advances, one `equipment_created` event is emitted, and the status is 201. |
| `Routes.GetEquipment` | server/routes.py:187-196 | 404 for an unknown character or item. Otherwise 200, with a body that decodes to the first item with that id. |
| `Routes.UpdateEquipment` | server/routes.py:198-218 | 404 for an unknown character or item, with nothing changed. Otherwise only the name and quantity that are present change. The list order and the other items are kept. One `equipment_updated` event is emitted. |
| `Routes.DeleteEquipment` | server/routes.py:220-235 | 404 for an unknown character or item, with nothing changed. Otherwise exactly that item is removed, the rest keep their order, and no item with that id remains. One `equipment_deleted` event carries the id. Returns 204. |

## Left out

- HTTP routing, Flask request parsing and `jsonify`: a request is a record of optional typed fields, and a response is a status code plus a JSON value.
- Dynamic JSON typing: `name`, `race` and `character_class` are strings, and `score`, `level` and `quantity` are integers. A body whose field has another JSON type (a `null` name, a string score) is not modelled.
- Path ids are natural numbers, because Flask's `<int:...>` converter only matches digits.
- The `type(char.abilities[0])(...)` construction in `create_ability` builds an `AbilityScore` like the fallback branch does. It is modelled as that one constructor.
- Object identity and aliasing: characters, abilities and equipment are values. A caller of `new_character` does not keep a live reference to the stored object, and an emitted payload is a snapshot taken at emission time.
- Socket.IO transport and room membership: `join_character`, `leave_character`, connect, disconnect and the error events (server/routes.py:239-273) live in flask_socketio, which is not part of this model. Delivery to room members is not modelled, only the log of what was emitted.
- The Flask error handlers and logging (server/routes.py:250-260).
- server/app.py (configuration, CORS, start-up, Socket.IO threading mode). Concurrent requests are not modelled: each handler runs to completion on its own.
- The client pages under client/app: rendering and `fetch` calls.
- `Lists.RemoveFirst` requires the element to be present. Python's `list.remove` raises otherwise, and no handler calls it on an absent element.
