/**
 * Per-room alias persistence in the browser's localStorage. Each room's alias
 * lives under its own key; every storage failure is swallowed.
 */
module AliasStorage {
  import opened Wrappers

  const KeyPrefix: string := "yapli_alias_"

  /** The key the availability probe writes and then removes. */
  const ProbeKey: string := "__test__"

  /** The browser's Web Storage object: a map from keys to values. While
      `failing` holds (privacy mode, storage disabled) every access throws; a
      storage that fails only some calls, such as a full quota failing writes
      but not reads, is over-approximated by this single flag. */
  class Storage {
    var entries: map<string, string>
    var failing: bool

    constructor (entries: map<string, string>, failing: bool)
      ensures this.entries == entries && this.failing == failing
    {
      this.entries := entries;
      this.failing := failing;
    }

    /** `setItem`; `threw` is true when the call raised an exception. */
    method SetItem(key: string, value: string) returns (threw: bool)
      modifies this
      ensures threw == failing && failing == old(failing)
      ensures entries == if threw then old(entries) else old(entries)[key := value]
    {
      threw := failing;
      if !threw {
        entries := entries[key := value];
      }
    }

    /** `getItem`: the stored value, or None (JavaScript `null`) when absent. */
    method GetItem(key: string) returns (threw: bool, value: Option<string>)
      ensures threw == failing
      ensures !threw ==> value == if key in entries then Some(entries[key]) else None
    {
      threw := failing;
      value := if !threw && key in entries then Some(entries[key]) else None;
    }

    /** `removeItem`. */
    method RemoveItem(key: string) returns (threw: bool)
      modifies this
      ensures threw == failing && failing == old(failing)
      ensures entries == if threw then old(entries) else old(entries) - {key}
    {
      threw := failing;
      if !threw {
        entries := entries - {key};
      }
    }
  }

  /** The storage key of a room's alias: the prefix followed by the room id. */
  function AliasKey(roomId: string): (key: string)
    ensures |key| == |KeyPrefix| + |roomId|
    ensures key[..|KeyPrefix|] == KeyPrefix && key[|KeyPrefix|..] == roomId
  {
    KeyPrefix + roomId
  }

  /** Distinct rooms never share a key, and no room's key is the probe key. */
  lemma AliasKeyInjective(r1: string, r2: string)
    ensures AliasKey(r1) == AliasKey(r2) <==> r1 == r2
    ensures AliasKey(r1) != ProbeKey
  {
    if AliasKey(r1) == AliasKey(r2) {
      assert r1 == AliasKey(r1)[|KeyPrefix|..] == AliasKey(r2)[|KeyPrefix|..] == r2;
    }
    assert |AliasKey(r1)| >= 12 > |ProbeKey|;
  }

  /** The alias recorded for `roomId` in a store's entries. */
  function Lookup(entries: map<string, string>, roomId: string): Option<string> {
    if AliasKey(roomId) in entries then Some(entries[AliasKey(roomId)]) else None
  }

  /** The entries after a successful save. */
  function Saved(entries: map<string, string>, roomId: string, alias: string): map<string, string> {
    entries[AliasKey(roomId) := alias]
  }

  /** The entries after a successful removal. */
  function Removed(entries: map<string, string>, roomId: string): map<string, string> {
    entries - {AliasKey(roomId)}
  }

  /** A saved alias is read back, and every other room's alias is as before. */
  lemma SaveThenLookup(entries: map<string, string>, roomId: string, alias: string, other: string)
    ensures Lookup(Saved(entries, roomId, alias), roomId) == Some(alias)
    ensures other != roomId ==> Lookup(Saved(entries, roomId, alias), other) == Lookup(entries, other)
  {
    AliasKeyInjective(roomId, other);
  }

  /** After a removal the room has no alias, and every other room's alias is as before. */
  lemma RemoveThenLookup(entries: map<string, string>, roomId: string, other: string)
    ensures Lookup(Removed(entries, roomId), roomId) == None
    ensures other != roomId ==> Lookup(Removed(entries, roomId), other) == Lookup(entries, other)
  {
    AliasKeyInjective(roomId, other);
  }

  /** Removing the probe key changes no room's alias. */
  lemma ProbeKeepsAliases(entries: map<string, string>, roomId: string)
    ensures Lookup(entries - {ProbeKey}, roomId) == Lookup(entries, roomId)
  {
    AliasKeyInjective(roomId, roomId);
  }

  /** `saveAlias`: stores the alias under the room's key; a failure leaves the store as it was. */
  method SaveAlias(storage: Storage, roomId: string, alias: string)
    modifies storage
    ensures storage.failing == old(storage.failing)
    ensures storage.entries ==
      if storage.failing then old(storage.entries) else Saved(old(storage.entries), roomId, alias)
  {
    var threw := storage.SetItem(AliasKey(roomId), alias);
    // a thrown error is only logged
  }

  /** `getAlias`: the room's saved alias, or None when there is none or storage fails. */
  method GetAlias(storage: Storage, roomId: string) returns (alias: Option<string>)
    ensures alias == if storage.failing then None else Lookup(storage.entries, roomId)
  {
    var threw, value := storage.GetItem(AliasKey(roomId));
    if threw {
      alias := None;
    } else {
      alias := value;
    }
  }

  /** `removeAlias`: deletes the room's key; a failure leaves the store as it was. */
  method RemoveAlias(storage: Storage, roomId: string)
    modifies storage
    ensures storage.failing == old(storage.failing)
    ensures storage.entries ==
      if storage.failing then old(storage.entries) else Removed(old(storage.entries), roomId)
  {
    var threw := storage.RemoveItem(AliasKey(roomId));
  }

  /** `isLocalStorageAvailable`. `hasWindow` is false during server-side rendering;
      `storage` is null when `window.localStorage` is undefined. Storage is
      available when a window exists and writing then removing the probe key
      succeeds; the probe leaves behind no probe key (also removing one that was
      there before) and changes nothing else. */
  method IsLocalStorageAvailable(hasWindow: bool, storage: Storage?) returns (available: bool)
    modifies storage
    ensures available == (hasWindow && storage != null && !storage.failing)
    ensures storage != null ==> storage.failing == old(storage.failing)
    ensures storage != null ==>
      storage.entries == (if available then old(storage.entries) - {ProbeKey} else old(storage.entries))
  {
    if !hasWindow {
      return false;
    }
    if storage == null {
      // `storage.setItem` on undefined raises a TypeError, which is caught
      return false;
    }
    var threw := storage.SetItem(ProbeKey, ProbeKey);
    if threw {
      return false;
    }
    threw := storage.RemoveItem(ProbeKey);
    if threw {
      return false;
    }
    assert storage.entries == old(storage.entries)[ProbeKey := ProbeKey] - {ProbeKey};
    available := true;
  }
}
