/** server/store.py: the in-memory list of characters and the three
    auto-increment id generators, gathered into one object together with the
    log of change events the handlers emit. */
module Store {
  import opened Wrappers
  import opened Json
  import opened Models
  import opened Lists
  import opened Events

  /** The invariant each stored character keeps: ids of its abilities and
      equipment were drawn from the counters (so they lie in
      `[1, next)`) in increasing order, and every ability name is one of the
      six codes. */
  ghost predicate CharacterValid(c: Character, nextAbilityId: nat, nextEquipmentId: nat) {
    && Increasing(c.abilities, AbilityId)
    && (forall k :: 0 <= k < |c.abilities| ==>
          1 <= c.abilities[k].id < nextAbilityId && IsAbilityName(c.abilities[k].name))
    && Increasing(c.equipment, EquipmentId)
    && (forall k :: 0 <= k < |c.equipment| ==> 1 <= c.equipment[k].id < nextEquipmentId)
  }

  /** Two characters share no ability id and no equipment id: the ids come
      from generators common to all characters. */
  ghost predicate DisjointIds(c: Character, d: Character) {
    && Keys(c.abilities, AbilityId) !! Keys(d.abilities, AbilityId)
    && Keys(c.equipment, EquipmentId) !! Keys(d.equipment, EquipmentId)
  }

  /** What a logged event keeps about the generators: it is well addressed to a
      character id already handed out, and the ability or equipment id it
      carries, if any, was handed out too. */
  ghost predicate EventValid(e: Event, nextCharId: nat, nextAbilityId: nat, nextEquipmentId: nat) {
    && WellAddressed(e)
    && 1 <= PayloadCharacterId(e.payload).value < nextCharId
    && (PayloadEntityId(e.payload, "ability", "ability_id").Some? ==>
          1 <= PayloadEntityId(e.payload, "ability", "ability_id").value < nextAbilityId)
    && (PayloadEntityId(e.payload, "equipment", "equipment_id").Some? ==>
          1 <= PayloadEntityId(e.payload, "equipment", "equipment_id").value < nextEquipmentId)
  }

  /** No two characters of the list share an ability id or an equipment id. */
  ghost predicate PairwiseDisjoint(cs: seq<Character>) {
    forall k1, k2 :: 0 <= k1 < |cs| && 0 <= k2 < |cs| && k1 != k2 ==> DisjointIds(cs[k1], cs[k2])
  }

  /** Every event of the log keeps `EventValid`. */
  ghost predicate EventsValid(events: seq<Event>, nextCharId: nat, nextAbilityId: nat, nextEquipmentId: nat) {
    forall k :: 0 <= k < |events| ==> EventValid(events[k], nextCharId, nextAbilityId, nextEquipmentId)
  }

  lemma CharacterValidMonotone(c: Character, a: nat, e: nat, a': nat, e': nat)
    requires CharacterValid(c, a, e) && a <= a' && e <= e'
    ensures CharacterValid(c, a', e')
  {
  }

  /** Appending to the character at position `i` an ability whose id exceeds
      every stored ability id keeps it disjoint from every other character. */
  lemma AppendAbilityDisjoint(cs: seq<Character>, i: nat, a: AbilityScore)
    requires PairwiseDisjoint(cs) && i < |cs|
    requires forall k, m :: 0 <= k < |cs| && 0 <= m < |cs[k].abilities| ==> cs[k].abilities[m].id < a.id
    ensures forall k :: 0 <= k < |cs| && k != i ==> DisjointIds(cs[i].(abilities := cs[i].abilities + [a]), cs[k])
  {
    KeysAppend(cs[i].abilities, a, AbilityId);
    forall k | 0 <= k < |cs| && k != i
      ensures DisjointIds(cs[i].(abilities := cs[i].abilities + [a]), cs[k])
    {
      assert DisjointIds(cs[i], cs[k]);
      assert a.id !in Keys(cs[k].abilities, AbilityId);
    }
  }

  lemma AppendEquipmentDisjoint(cs: seq<Character>, i: nat, e: Equipment)
    requires PairwiseDisjoint(cs) && i < |cs|
    requires forall k, m :: 0 <= k < |cs| && 0 <= m < |cs[k].equipment| ==> cs[k].equipment[m].id < e.id
    ensures forall k :: 0 <= k < |cs| && k != i ==> DisjointIds(cs[i].(equipment := cs[i].equipment + [e]), cs[k])
  {
    KeysAppend(cs[i].equipment, e, EquipmentId);
    forall k | 0 <= k < |cs| && k != i
      ensures DisjointIds(cs[i].(equipment := cs[i].equipment + [e]), cs[k])
    {
      assert DisjointIds(cs[i], cs[k]);
      assert e.id !in Keys(cs[k].equipment, EquipmentId);
    }
  }

  /** A character whose ids are among those it had before stays disjoint from
      every other character: this covers updating and removing an entry. */
  lemma ShrinkDisjoint(cs: seq<Character>, i: nat, c: Character)
    requires PairwiseDisjoint(cs) && i < |cs|
    requires Keys(c.abilities, AbilityId) <= Keys(cs[i].abilities, AbilityId)
    requires Keys(c.equipment, EquipmentId) <= Keys(cs[i].equipment, EquipmentId)
    ensures forall k :: 0 <= k < |cs| && k != i ==> DisjointIds(c, cs[k])
  {
    forall k | 0 <= k < |cs| && k != i
      ensures DisjointIds(c, cs[k])
    {
      assert DisjointIds(cs[i], cs[k]);
    }
  }

  /** Advancing a generator keeps every logged event valid. */
  lemma EventsValidMonotone(events: seq<Event>, c: nat, a: nat, e: nat, c': nat, a': nat, e': nat)
    requires EventsValid(events, c, a, e) && c <= c' && a <= a' && e <= e'
    ensures EventsValid(events, c', a', e')
  {
    forall k | 0 <= k < |events|
      ensures EventValid(events[k], c', a', e')
    {
      assert EventValid(events[k], c, a, e);
    }
  }

  /** Every logged event names a character id already handed out. */
  lemma EventsCharacterBelow(events: seq<Event>, c: nat, a: nat, e: nat)
    requires EventsValid(events, c, a, e)
    ensures forall k :: 0 <= k < |events| ==> 1 <= PayloadCharacterId(events[k].payload).value < c
  {
    forall k | 0 <= k < |events|
      ensures 1 <= PayloadCharacterId(events[k].payload).value < c
    {
      assert EventValid(events[k], c, a, e);
    }
  }

  lemma {:induction false} EventsValidAppend(events: seq<Event>, ev: Event, c: nat, a: nat, e: nat)
    requires EventsValid(events, c, a, e) && EventValid(ev, c, a, e)
    ensures EventsValid(events + [ev], c, a, e)
  {
    forall k | 0 <= k < |events + [ev]|
      ensures EventValid((events + [ev])[k], c, a, e)
    {
      if k < |events| {
        assert (events + [ev])[k] == events[k];
      }
    }
  }

  /** A character with no abilities and no equipment, appended at the end,
      shares no id with any other. */
  lemma {:induction false} PairwiseAppendEmpty(cs: seq<Character>, c: Character)
    requires PairwiseDisjoint(cs) && c.abilities == [] && c.equipment == []
    ensures PairwiseDisjoint(cs + [c])
  {
    assert Keys(c.abilities, AbilityId) == {};
    assert Keys(c.equipment, EquipmentId) == {};
    var cs' := cs + [c];
    forall k1, k2 | 0 <= k1 < |cs'| && 0 <= k2 < |cs'| && k1 != k2
      ensures DisjointIds(cs'[k1], cs'[k2])
    {
      if k1 < |cs| && k2 < |cs| {
        assert cs'[k1] == cs[k1] && cs'[k2] == cs[k2];
      }
    }
  }

  /** Removing one character keeps the others pairwise disjoint. */
  lemma {:induction false} PairwiseRemove(cs: seq<Character>, i: nat)
    requires PairwiseDisjoint(cs) && i < |cs|
    ensures PairwiseDisjoint(cs[..i] + cs[i + 1..])
  {
    var cs' := cs[..i] + cs[i + 1..];
    forall k1, k2 | 0 <= k1 < |cs'| && 0 <= k2 < |cs'| && k1 != k2
      ensures DisjointIds(cs'[k1], cs'[k2])
    {
      var j1 := if k1 < i then k1 else k1 + 1;
      var j2 := if k2 < i then k2 else k2 + 1;
      assert cs'[k1] == cs[j1] && cs'[k2] == cs[j2];
      assert DisjointIds(cs[j1], cs[j2]);
    }
  }

  /** Storing a character disjoint from all others keeps the list pairwise
      disjoint. */
  lemma {:induction false} PairwiseReplace(cs: seq<Character>, i: nat, c: Character)
    requires PairwiseDisjoint(cs) && i < |cs|
    requires forall k :: 0 <= k < |cs| && k != i ==> DisjointIds(c, cs[k])
    ensures PairwiseDisjoint(cs[i := c])
  {
    var cs' := cs[i := c];
    forall k1, k2 | 0 <= k1 < |cs'| && 0 <= k2 < |cs'| && k1 != k2
      ensures DisjointIds(cs'[k1], cs'[k2])
    {
      if k1 == i {
        assert DisjointIds(c, cs[k2]);
      } else if k2 == i {
        assert DisjointIds(c, cs[k1]);
      } else {
        assert DisjointIds(cs[k1], cs[k2]);
      }
    }
  }

  /** Each character of the list has an id handed out and is valid. */
  ghost predicate AllCharactersValid(cs: seq<Character>, nextCharId: nat, nextAbilityId: nat, nextEquipmentId: nat) {
    forall k :: 0 <= k < |cs| ==> 1 <= cs[k].id < nextCharId && CharacterValid(cs[k], nextAbilityId, nextEquipmentId)
  }

  lemma {:induction false} AllValidAppend(cs: seq<Character>, c: Character, nc: nat, na: nat, ne: nat)
    requires AllCharactersValid(cs, nc, na, ne) && 1 <= c.id == nc
    requires c.abilities == [] && c.equipment == []
    ensures AllCharactersValid(cs + [c], nc + 1, na, ne)
  {
    forall k | 0 <= k < |cs + [c]|
      ensures 1 <= (cs + [c])[k].id < nc + 1 && CharacterValid((cs + [c])[k], na, ne)
    {
      if k < |cs| {
        assert (cs + [c])[k] == cs[k];
      }
    }
  }

  lemma {:induction false} AllValidRemove(cs: seq<Character>, i: nat, nc: nat, na: nat, ne: nat)
    requires AllCharactersValid(cs, nc, na, ne) && i < |cs|
    ensures AllCharactersValid(cs[..i] + cs[i + 1..], nc, na, ne)
  {
    var r := cs[..i] + cs[i + 1..];
    forall k | 0 <= k < |r|
      ensures 1 <= r[k].id < nc && CharacterValid(r[k], na, ne)
    {
      assert r[k] == cs[if k < i then k else k + 1];
    }
  }

  /** Overwriting one ability or one piece of equipment with a record of the
      same id (and, for an ability, the same name) keeps a character valid and
      its set of ids unchanged. */
  lemma WithAbility(c: Character, j: nat, x: AbilityScore, a: nat, e: nat)
    requires CharacterValid(c, a, e) && j < |c.abilities|
    requires x.id == c.abilities[j].id && x.name == c.abilities[j].name
    ensures CharacterValid(c.(abilities := c.abilities[j := x]), a, e)
    ensures Keys(c.abilities[j := x], AbilityId) == Keys(c.abilities, AbilityId)
  {
    KeysUpdate(c.abilities, j, x, AbilityId);
  }

  lemma WithEquipment(c: Character, j: nat, x: Equipment, a: nat, e: nat)
    requires CharacterValid(c, a, e) && j < |c.equipment|
    requires x.id == c.equipment[j].id
    ensures CharacterValid(c.(equipment := c.equipment[j := x]), a, e)
    ensures Keys(c.equipment[j := x], EquipmentId) == Keys(c.equipment, EquipmentId)
  {
    KeysUpdate(c.equipment, j, x, EquipmentId);
  }

  /** Dropping one ability or one piece of equipment keeps a character valid,
      and leaves no entry with the dropped id. */
  lemma WithoutAbility(c: Character, j: nat, a: nat, e: nat)
    requires CharacterValid(c, a, e) && j < |c.abilities|
    ensures var rest := c.abilities[..j] + c.abilities[j + 1..];
      CharacterValid(c.(abilities := rest), a, e) && FirstIndex(rest, c.abilities[j].id, AbilityId).None?
  {
    RemoveAtIncreasing(c.abilities, j, AbilityId);
  }

  lemma WithoutEquipment(c: Character, j: nat, a: nat, e: nat)
    requires CharacterValid(c, a, e) && j < |c.equipment|
    ensures var rest := c.equipment[..j] + c.equipment[j + 1..];
      CharacterValid(c.(equipment := rest), a, e) && FirstIndex(rest, c.equipment[j].id, EquipmentId).None?
  {
    RemoveAtIncreasing(c.equipment, j, EquipmentId);
  }

  class CharacterStore {
    /** `CHARACTERS`, in insertion order. */
    var characters: seq<Character>
    /** The values the next `next(...)` call on each generator returns. */
    var nextCharId: nat
    var nextAbilityId: nat
    var nextEquipmentId: nat
    /** Every change event emitted so far, in emission order. */
    var events: seq<Event>

    ghost predicate Valid()
      reads this
    {
      && 1 <= nextCharId && 1 <= nextAbilityId && 1 <= nextEquipmentId
      && Increasing(characters, CharacterId)
      && AllCharactersValid(characters, nextCharId, nextAbilityId, nextEquipmentId)
      && PairwiseDisjoint(characters)
      && EventsValid(events, nextCharId, nextAbilityId, nextEquipmentId)
    }

    /** The module's initial state: no characters, every generator at 1 (`count(1)`). */
    constructor ()
      ensures Valid()
      ensures characters == [] && events == []
      ensures nextCharId == 1 && nextAbilityId == 1 && nextEquipmentId == 1
    {
      characters := [];
      nextCharId, nextAbilityId, nextEquipmentId := 1, 1, 1;
      events := [];
    }

    /** `find_character`: the position of the first character with the id, which
        stands for the object the source returns; None when there is none. */
    function FindCharacter(charId: nat): (r: Option<nat>)
      reads this
      ensures r.Some? ==> r.value < |characters| && characters[r.value].id == charId
      ensures r.Some? ==> forall j :: 0 <= j < r.value ==> characters[j].id != charId
      ensures r.None? <==> forall j :: 0 <= j < |characters| ==> characters[j].id != charId
    {
      FirstIndex(characters, charId, CharacterId)
    }

    /** `new_character`: takes the next character id and appends a character
        with the dataclass defaults for the other fields. */
    method NewCharacter(name: string, race: string := "", characterClass: string := "")
      returns (c: Character)
      requires Valid()
      modifies this
      ensures Valid()
      ensures c.id == old(nextCharId) && c.name == name && c.race == race
      ensures c.characterClass == characterClass && c.level == 1 && c.abilities == [] && c.equipment == []
      ensures characters == old(characters) + [c]
      ensures nextCharId == old(nextCharId) + 1
      ensures nextAbilityId == old(nextAbilityId) && nextEquipmentId == old(nextEquipmentId)
      ensures events == old(events)
      ensures FindCharacter(c.id) == Some(|characters| - 1) && characters[|characters| - 1] == c
      ensures forall k :: 0 <= k < |old(characters)| ==> old(characters)[k].id < c.id
      ensures forall k :: 0 <= k < |events| ==> PayloadCharacterId(events[k].payload).value < c.id
    {
      c := Character(id := nextCharId, name := name, race := race, characterClass := characterClass);
      AppendGreater(characters, c, CharacterId);
      PairwiseAppendEmpty(characters, c);
      AllValidAppend(characters, c, nextCharId, nextAbilityId, nextEquipmentId);
      EventsCharacterBelow(events, nextCharId, nextAbilityId, nextEquipmentId);
      EventsValidMonotone(events, nextCharId, nextAbilityId, nextEquipmentId, nextCharId + 1, nextAbilityId, nextEquipmentId);
      characters := characters + [c];
      nextCharId := nextCharId + 1;
    }

    /** `next(_ability_id_gen)` */
    method TakeAbilityId() returns (id: nat)
      requires Valid()
      modifies this
      ensures Valid()
      ensures id == old(nextAbilityId) && nextAbilityId == id + 1
      ensures forall k, m :: 0 <= k < |characters| && 0 <= m < |characters[k].abilities| ==>
                characters[k].abilities[m].id < id
      ensures forall k :: 0 <= k < |events| && PayloadEntityId(events[k].payload, "ability", "ability_id").Some? ==>
                PayloadEntityId(events[k].payload, "ability", "ability_id").value < id
      ensures characters == old(characters) && events == old(events)
      ensures nextCharId == old(nextCharId) && nextEquipmentId == old(nextEquipmentId)
    {
      id := nextAbilityId;
      forall k | 0 <= k < |characters|
        ensures CharacterValid(characters[k], nextAbilityId + 1, nextEquipmentId)
      {
        CharacterValidMonotone(characters[k], nextAbilityId, nextEquipmentId, nextAbilityId + 1, nextEquipmentId);
      }
      EventsValidMonotone(events, nextCharId, nextAbilityId, nextEquipmentId, nextCharId, nextAbilityId + 1, nextEquipmentId);
      nextAbilityId := nextAbilityId + 1;
    }

    /** `next(_equip_id_gen)` */
    method TakeEquipmentId() returns (id: nat)
      requires Valid()
      modifies this
      ensures Valid()
      ensures id == old(nextEquipmentId) && nextEquipmentId == id + 1
      ensures forall k, m :: 0 <= k < |characters| && 0 <= m < |characters[k].equipment| ==>
                characters[k].equipment[m].id < id
      ensures forall k :: 0 <= k < |events| && PayloadEntityId(events[k].payload, "equipment", "equipment_id").Some? ==>
                PayloadEntityId(events[k].payload, "equipment", "equipment_id").value < id
      ensures characters == old(characters) && events == old(events)
      ensures nextCharId == old(nextCharId) && nextAbilityId == old(nextAbilityId)
    {
      id := nextEquipmentId;
      forall k | 0 <= k < |characters|
        ensures CharacterValid(characters[k], nextAbilityId, nextEquipmentId + 1)
      {
        CharacterValidMonotone(characters[k], nextAbilityId, nextEquipmentId, nextAbilityId, nextEquipmentId + 1);
      }
      EventsValidMonotone(events, nextCharId, nextAbilityId, nextEquipmentId, nextCharId, nextAbilityId, nextEquipmentId + 1);
      nextEquipmentId := nextEquipmentId + 1;
    }

    /** Stores a new value for the character at position `i`, keeping its id
        and holding no ability or equipment id the character did not hold:
        the in-place attribute updates and removals of the handlers. */
    method ReplaceCharacter(i: nat, c: Character)
      requires Valid()
      requires i < |characters| && c.id == characters[i].id
      requires CharacterValid(c, nextAbilityId, nextEquipmentId)
      requires Keys(c.abilities, AbilityId) <= Keys(characters[i].abilities, AbilityId)
      requires Keys(c.equipment, EquipmentId) <= Keys(characters[i].equipment, EquipmentId)
      modifies this
      ensures Valid()
      ensures characters == old(characters)[i := c]
      ensures nextCharId == old(nextCharId) && nextAbilityId == old(nextAbilityId)
      ensures nextEquipmentId == old(nextEquipmentId) && events == old(events)
    {
      ShrinkDisjoint(characters, i, c);
      PairwiseReplace(characters, i, c);
      characters := characters[i := c];
    }

    /** `char.abilities.append(ability)` for the character at position `i`,
        with an id drawn from the generator after every stored one. */
    method AppendAbility(i: nat, a: AbilityScore)
      requires Valid()
      requires i < |characters| && 1 <= a.id < nextAbilityId && IsAbilityName(a.name)
      requires forall k, m :: 0 <= k < |characters| && 0 <= m < |characters[k].abilities| ==>
                 characters[k].abilities[m].id < a.id
      modifies this
      ensures Valid()
      ensures characters == old(characters)[i := old(characters)[i].(abilities := old(characters)[i].abilities + [a])]
      ensures FirstIndex(characters[i].abilities, a.id, AbilityId) == Some(|characters[i].abilities| - 1)
      ensures nextCharId == old(nextCharId) && nextAbilityId == old(nextAbilityId)
      ensures nextEquipmentId == old(nextEquipmentId) && events == old(events)
    {
      var c := characters[i];
      AppendGreater(c.abilities, a, AbilityId);
      AppendAbilityDisjoint(characters, i, a);
      PairwiseReplace(characters, i, c.(abilities := c.abilities + [a]));
      characters := characters[i := c.(abilities := c.abilities + [a])];
    }

    /** `char.equipment.append(equip)` for the character at position `i`,
        with an id drawn from the generator after every stored one. */
    method AppendEquipment(i: nat, e: Equipment)
      requires Valid()
      requires i < |characters| && 1 <= e.id < nextEquipmentId
      requires forall k, m :: 0 <= k < |characters| && 0 <= m < |characters[k].equipment| ==>
                 characters[k].equipment[m].id < e.id
      modifies this
      ensures Valid()
      ensures characters == old(characters)[i := old(characters)[i].(equipment := old(characters)[i].equipment + [e])]
      ensures FirstIndex(characters[i].equipment, e.id, EquipmentId) == Some(|characters[i].equipment| - 1)
      ensures nextCharId == old(nextCharId) && nextAbilityId == old(nextAbilityId)
      ensures nextEquipmentId == old(nextEquipmentId) && events == old(events)
    {
      var c := characters[i];
      AppendGreater(c.equipment, e, EquipmentId);
      AppendEquipmentDisjoint(characters, i, e);
      PairwiseReplace(characters, i, c.(equipment := c.equipment + [e]));
      characters := characters[i := c.(equipment := c.equipment + [e])];
    }

    /** `CHARACTERS.remove(char)` for the character found at position `i`. */
    method RemoveCharacter(i: nat)
      requires Valid()
      requires i < |characters| && FindCharacter(characters[i].id) == Some(i)
      modifies this
      ensures Valid()
      ensures characters == old(characters)[..i] + old(characters)[i + 1..]
      ensures FindCharacter(old(characters)[i].id).None?
      ensures nextCharId == old(nextCharId) && nextAbilityId == old(nextAbilityId)
      ensures nextEquipmentId == old(nextEquipmentId) && events == old(events)
    {
      ghost var rest := characters[..i] + characters[i + 1..];
      RemoveFound(characters, characters[i].id, CharacterId);
      RemoveAtIncreasing(characters, i, CharacterId);
      PairwiseRemove(characters, i);
      AllValidRemove(characters, i, nextCharId, nextAbilityId, nextEquipmentId);
      characters := RemoveFirst(characters, characters[i]);
      assert characters == rest;
    }

    /** `socketio.emit(...)`: appends the event to the log. */
    method Emit(e: Event)
      requires Valid()
      requires EventValid(e, nextCharId, nextAbilityId, nextEquipmentId)
      modifies this
      ensures Valid()
      ensures events == old(events) + [e]
      ensures characters == old(characters) && nextCharId == old(nextCharId)
      ensures nextAbilityId == old(nextAbilityId) && nextEquipmentId == old(nextEquipmentId)
    {
      EventsValidAppend(events, e, nextCharId, nextAbilityId, nextEquipmentId);
      events := events + [e];
    }
  }
}
