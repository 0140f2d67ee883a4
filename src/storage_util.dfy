/**
 * `storageUtils`: versioned entries with an optional time-to-live, kept in
 * the browser's `localStorage` (a map from keys to strings).
 *
 * JSON is a codec the caller supplies: `stringify` writes an item and
 * `parse` reads one back, `None` meaning that `JSON.parse` threw. Missing
 * fields of a parsed object, and fields that are not numbers, read as
 * `None`. Times are milliseconds since the epoch.
 */
module StorageUtil {
  import opened Common

  const CurrentVersion: int := 1

  /** The stored wrapper: the value, the optional expiry instant and the version. */
  datatype Item<V> = Item(value: V, expiry: Option<int>, version: Option<int>)

  datatype JsonCodec<!V> = JsonCodec(stringify: Item<V> -> string, parse: string -> Option<Item<V>>)

  /** `localStorage`. */
  class LocalStorage {
    var entries: map<string, string>

    constructor (entries: map<string, string>)
      ensures this.entries == entries
    {
      this.entries := entries;
    }

    /** `removeItem`. */
    method RemoveItem(key: string)
      modifies this
      ensures entries == old(entries) - {key}
    {
      entries := entries - {key};
    }

    /** `getItem`: the string, or `None` for a key never set. */
    function GetItem(key: string): (v: Option<string>)
      reads this
      ensures v.Some? <==> key in entries
      ensures v.Some? ==> v.value == entries[key]
    {
      if key in entries then Some(entries[key]) else None
    }
  }

  /**
   * The expiry `set` writes: `ttlMinutes` minutes from `now` when the
   * time-to-live is truthy, none when it is absent or zero.
   */
  function ExpiryFor(ttlMinutes: Option<int>, now: int): (expiry: Option<int>)
    ensures expiry.Some? <==> ttlMinutes.Some? && ttlMinutes.value != 0
    ensures expiry.Some? ==> expiry.value - now == ttlMinutes.value * 60 * 1000
  {
    if ttlMinutes.Some? && ttlMinutes.value != 0 then Some(now + ttlMinutes.value * 60 * 1000) else None
  }

  /** The entries after `set(key, value, ttlMinutes)` at `now`. */
  function SetEntries<V>(entries: map<string, string>, codec: JsonCodec<V>, key: string, value: V,
                         ttlMinutes: Option<int>, now: int): (after: map<string, string>)
    ensures after.Keys == entries.Keys + {key}
    ensures forall k :: k in entries && k != key ==> after[k] == entries[k]
    ensures after[key] == codec.stringify(Item(value, ExpiryFor(ttlMinutes, now), Some(CurrentVersion)))
  {
    entries[key := codec.stringify(Item(value, ExpiryFor(ttlMinutes, now), Some(CurrentVersion)))]
  }

  /** What `get` finds under a key. */
  datatype Lookup<V> =
    | Absent       // no entry, or the empty string
    | Unparsable   // `JSON.parse` threw; the entry stays
    | Discarded    // wrong or missing version, or expired; the entry is removed
    | Found(value: V)

  /** An item whose expiry is truthy and strictly before `now`. */
  predicate Expired<V>(item: Item<V>, now: int)
  {
    item.expiry.Some? && item.expiry.value != 0 && item.expiry.value < now
  }

  function Classify<V>(entries: map<string, string>, codec: JsonCodec<V>, key: string, now: int): (l: Lookup<V>)
    ensures l.Absent? <==> key !in entries || entries[key] == ""
    ensures l.Unparsable? <==> key in entries && entries[key] != "" && codec.parse(entries[key]).None?
    ensures l.Discarded? <==>
      key in entries && entries[key] != "" && codec.parse(entries[key]).Some?
      && (codec.parse(entries[key]).value.version != Some(CurrentVersion) || Expired(codec.parse(entries[key]).value, now))
    ensures l.Found? ==>
      key in entries && codec.parse(entries[key]).Some?
      && codec.parse(entries[key]).value.version == Some(CurrentVersion)
      && !Expired(codec.parse(entries[key]).value, now)
      && l.value == codec.parse(entries[key]).value.value
  {
    if key !in entries || entries[key] == "" then Absent
    else match codec.parse(entries[key])
      case None => Unparsable
      case Some(item) =>
        if item.version != Some(CurrentVersion) then Discarded
        else if Expired(item, now) then Discarded
        else Found(item.value)
  }

  /** The value `get(key, defaultValue)` returns. */
  function GetValue<V>(entries: map<string, string>, codec: JsonCodec<V>, key: string, defaultValue: V, now: int): (v: V)
    ensures !Classify(entries, codec, key, now).Found? ==> v == defaultValue
  {
    match Classify(entries, codec, key, now)
    case Found(value) => value
    case _ => defaultValue
  }

  /** The entries after `get`: only a discarded entry is removed. */
  function GetEntries<V>(entries: map<string, string>, codec: JsonCodec<V>, key: string, now: int): (after: map<string, string>)
    ensures Classify(entries, codec, key, now).Discarded? ==> after == entries - {key}
    ensures !Classify(entries, codec, key, now).Discarded? ==> after == entries
  {
    if Classify(entries, codec, key, now).Discarded? then entries - {key} else entries
  }

  /** `storageUtils.set`: the key holds the wrapped value at version 1 and nothing else changes. */
  method Set<V>(store: LocalStorage, codec: JsonCodec<V>, key: string, value: V, ttlMinutes: Option<int>, now: int)
    modifies store
    ensures store.entries == SetEntries(old(store.entries), codec, key, value, ttlMinutes, now)
  {
    var item := Item(value, ExpiryFor(ttlMinutes, now), Some(CurrentVersion));
    store.entries := store.entries[key := codec.stringify(item)];
  }

  /** `storageUtils.get`. */
  method Get<V>(store: LocalStorage, codec: JsonCodec<V>, key: string, defaultValue: V, now: int) returns (v: V)
    modifies store
    ensures v == GetValue(old(store.entries), codec, key, defaultValue, now)
    ensures store.entries == GetEntries(old(store.entries), codec, key, now)
  {
    var raw := store.GetItem(key);
    if raw.None? || raw.value == "" {
      return defaultValue;
    }
    var parsed := codec.parse(raw.value);
    if parsed.None? {
      return defaultValue;
    }
    var item := parsed.value;
    if item.version != Some(CurrentVersion) {
      store.RemoveItem(key);
      return defaultValue;
    }
    if item.expiry.Some? && item.expiry.value != 0 && item.expiry.value < now {
      store.RemoveItem(key);
      return defaultValue;
    }
    v := item.value;
  }

  /** `storageUtils.remove`. */
  method Remove(store: LocalStorage, key: string)
    modifies store
    ensures store.entries == old(store.entries) - {key}
  {
    store.RemoveItem(key);
  }

  /** The keys of `preserveKeys` that hold a non-empty string, with their strings. */
  function Preserved(entries: map<string, string>, preserveKeys: seq<string>): (kept: map<string, string>)
    ensures kept.Keys <= entries.Keys
    ensures forall k :: k in kept <==> k in preserveKeys && k in entries && entries[k] != ""
    ensures forall k :: k in kept ==> kept[k] == entries[k]
  {
    map k | k in preserveKeys && k in entries && entries[k] != "" :: entries[k]
  }

  /** `storageUtils.clear(preserveKeys)`: collect, clear everything, restore. */
  method Clear(store: LocalStorage, preserveKeys: seq<string>)
    modifies store
    ensures store.entries == Preserved(old(store.entries), preserveKeys)
  {
    var preserved: map<string, string> := map[];
    var i := 0;
    while i < |preserveKeys|
      invariant 0 <= i <= |preserveKeys|
      invariant store.entries == old(store.entries)
      invariant preserved == Preserved(store.entries, preserveKeys[..i])
    {
      var key := preserveKeys[i];
      var value := store.GetItem(key);
      if value.Some? && value.value != "" {
        preserved := preserved[key := value.value];
      }
      assert preserveKeys[..i + 1] == preserveKeys[..i] + [key];
      i := i + 1;
    }
    assert preserveKeys[..i] == preserveKeys;
    store.entries := map[];
    var pending := preserved.Keys;
    while pending != {}
      invariant pending <= preserved.Keys
      invariant store.entries == map k | k in preserved.Keys - pending :: preserved[k]
      decreases pending
    {
      if forall k :: k !in pending {
        assert false;
      }
      var key :| key in pending;
      store.entries := store.entries[key := preserved[key]];
      pending := pending - {key};
    }
  }

  /**
   * Round trip: after `set`, `get` before the expiry returns the value set
   * and keeps the entry, provided the codec reads back what it wrote.
   */
  lemma SetThenGet<V>(entries: map<string, string>, codec: JsonCodec<V>, key: string, value: V, defaultValue: V,
                      ttlMinutes: Option<int>, setAt: int, now: int)
    requires var item := Item(value, ExpiryFor(ttlMinutes, setAt), Some(CurrentVersion));
      codec.parse(codec.stringify(item)) == Some(item) && codec.stringify(item) != ""
    requires ExpiryFor(ttlMinutes, setAt).Some? && ExpiryFor(ttlMinutes, setAt).value != 0 ==>
      now <= ExpiryFor(ttlMinutes, setAt).value
    ensures GetValue(SetEntries(entries, codec, key, value, ttlMinutes, setAt), codec, key, defaultValue, now) == value
    ensures GetEntries(SetEntries(entries, codec, key, value, ttlMinutes, setAt), codec, key, now)
            == SetEntries(entries, codec, key, value, ttlMinutes, setAt)
  {
  }

  /** After the expiry instant has passed, `get` answers the default and removes the entry. */
  lemma ExpiredIsDiscarded<V>(entries: map<string, string>, codec: JsonCodec<V>, key: string, value: V, defaultValue: V,
                              ttlMinutes: Option<int>, setAt: int, now: int)
    requires var item := Item(value, ExpiryFor(ttlMinutes, setAt), Some(CurrentVersion));
      codec.parse(codec.stringify(item)) == Some(item) && codec.stringify(item) != ""
    requires ttlMinutes.Some? && ttlMinutes.value > 0 && setAt >= 0
    requires now > setAt + ttlMinutes.value * 60000
    ensures GetValue(SetEntries(entries, codec, key, value, ttlMinutes, setAt), codec, key, defaultValue, now) == defaultValue
    ensures GetEntries(SetEntries(entries, codec, key, value, ttlMinutes, setAt), codec, key, now) == entries - {key}
  {
    var after := SetEntries(entries, codec, key, value, ttlMinutes, setAt);
    assert Classify(after, codec, key, now).Discarded?;
  }

  /** Clearing with the same list twice leaves what clearing once left. */
  lemma {:induction false} ClearIdempotent(entries: map<string, string>, preserveKeys: seq<string>)
    ensures Preserved(Preserved(entries, preserveKeys), preserveKeys) == Preserved(entries, preserveKeys)
  {
    var once := Preserved(entries, preserveKeys);
    var twice := Preserved(once, preserveKeys);
    assert forall k :: k in twice <==> k in once;
  }
}
