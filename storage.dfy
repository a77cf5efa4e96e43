/**
 * Device storage helpers and the prefix-namespaced cache with expiry-on-read
 * (`miniprogram/core/utils/storage.js`).
 *
 * Device storage is a map from key to a stored value; reading an absent key
 * yields the empty string, as the platform's synchronous read does. Storage
 * failures (quota, platform errors) are not modelled.
 */
module Storage {
  import opened Text

  /** A stored JavaScript value, as far as the cache distinguishes them. */
  datatype Value =
    | Undefined
    | Null
    | Bool(b: bool)
    | Number(n: int)
    | Text(s: string)
    | Cached(data: Value, timestamp: int, expireTime: int)   // `{ data, timestamp, expireTime }`
    | Other                                                  // any other object

  predicate Truthy(v: Value) {
    match v
    case Undefined => false
    case Null => false
    case Bool(b) => b
    case Number(n) => n != 0
    case Text(s) => s != ""
    case Cached(_, _, _) => true
    case Other => true
  }

  /** `wx.getStorageSync(key)`: the stored value, or '' when there is none. */
  function Read(items: map<string, Value>, key: string): Value {
    if key in items then items[key] else Text("")
  }

  /** `getStorage(key, defaultValue)`: the default exactly when the read yields ''. */
  function GetStorage(items: map<string, Value>, key: string, default: Value): (r: Value)
    ensures Read(items, key) == Text("") ==> r == default
    ensures Read(items, key) != Text("") ==> r == items[key]
  {
    var data := Read(items, key);
    if data != Text("") then data else default
  }

  /** The entry has a positive lifetime and `now` is past its end (the end itself is still valid). */
  predicate Expired(v: Value, now: int) {
    v.Cached? && v.expireTime > 0 && now > v.timestamp + v.expireTime
  }

  /** What `CacheManager.get` returns for a full storage key. */
  function CacheRead(items: map<string, Value>, fullKey: string, now: int): (r: Value)
    ensures fullKey !in items ==> r == Null
    ensures fullKey in items && !Truthy(items[fullKey]) ==> r == Null
    ensures fullKey in items && Expired(items[fullKey], now) ==> r == Null
    ensures fullKey in items && items[fullKey].Cached? && !Expired(items[fullKey], now) ==> r == items[fullKey].data
    ensures fullKey in items && !items[fullKey].Cached? && Truthy(items[fullKey]) ==> r == Undefined
  {
    var cacheData := GetStorage(items, fullKey, Null);
    if !Truthy(cacheData) then Null
    else if Expired(cacheData, now) then Null
    else if cacheData.Cached? then cacheData.data
    else Undefined
  }

  /** Keys that `get` removes as a side effect: an expired entry. */
  function AfterRead(items: map<string, Value>, fullKey: string, now: int): (r: map<string, Value>)
    ensures fullKey in items && Expired(items[fullKey], now) ==> r == items - {fullKey}
    ensures !(fullKey in items && Expired(items[fullKey], now)) ==> r == items
  {
    if fullKey in items && Expired(items[fullKey], now) then items - {fullKey} else items
  }

  /**
   * Round trip: an entry written at `t` with lifetime `e` reads back its data
   * until `t + e` inclusive, forever when `e` is 0, and as null afterwards.
   */
  lemma SetThenGet(items: map<string, Value>, fullKey: string, data: Value, t: int, e: int, now: int)
    ensures e <= 0 || now <= t + e ==> CacheRead(items[fullKey := Cached(data, t, e)], fullKey, now) == data
    ensures e > 0 && now > t + e ==> CacheRead(items[fullKey := Cached(data, t, e)], fullKey, now) == Null
  {
  }

  /** The storage with every key under `prefix` removed. */
  function WithoutPrefix(items: map<string, Value>, prefix: string): (r: map<string, Value>)
    ensures forall k :: k in r <==> k in items && !StartsWith(k, prefix)
    ensures forall k :: k in r ==> r[k] == items[k]
  {
    map k | k in items && !StartsWith(k, prefix) :: items[k]
  }

  /** The device's key-value storage. */
  class DeviceStorage {
    var items: map<string, Value>

    constructor (items: map<string, Value>)
      ensures this.items == items
    {
      this.items := items;
    }

    /** `setStorage`. */
    method SetStorage(key: string, v: Value) returns (ok: bool)
      modifies this
      ensures ok && items == old(items)[key := v]
    {
      items := items[key := v];
      ok := true;
    }

    /** `removeStorage`. */
    method RemoveStorage(key: string) returns (ok: bool)
      modifies this
      ensures ok && items == old(items) - {key}
    {
      items := items - {key};
      ok := true;
    }
  }

  const DEFAULT_PREFIX: string := "app_cache_"

  /** `CacheManager`: entries live in device storage under `prefix + key`. */
  class CacheManager {
    const prefix: string
    const device: DeviceStorage

    constructor (prefix: string, device: DeviceStorage)
      ensures this.prefix == prefix && this.device == device
    {
      this.prefix := prefix;
      this.device := device;
    }

    /** `set(key, data, expireTime)`, with `Date.now()` as `now`. */
    method Set(key: string, data: Value, expireTime: int, now: int) returns (ok: bool)
      modifies device
      ensures ok && device.items == old(device.items)[prefix + key := Cached(data, now, expireTime)]
    {
      ok := device.SetStorage(prefix + key, Cached(data, now, expireTime));
    }

    /** `get(key)`: the data of a live entry; an expired entry is removed and reads as null. */
    method Get(key: string, now: int) returns (r: Value)
      modifies device
      ensures r == CacheRead(old(device.items), prefix + key, now)
      ensures device.items == AfterRead(old(device.items), prefix + key, now)
    {
      var cacheData := GetStorage(device.items, prefix + key, Null);
      if !Truthy(cacheData) {
        return Null;
      }
      if cacheData.Cached? && cacheData.expireTime > 0 && now > cacheData.timestamp + cacheData.expireTime {
        var _ := Remove(key);
        return Null;
      }
      r := if cacheData.Cached? then cacheData.data else Undefined;
    }

    /** `remove(key)`: deletes only `prefix + key`. */
    method Remove(key: string) returns (ok: bool)
      modifies device
      ensures ok && device.items == old(device.items) - {prefix + key}
    {
      ok := device.RemoveStorage(prefix + key);
    }

    /** `clear()`: walks every storage key and removes those under the prefix. */
    method Clear() returns (ok: bool)
      modifies device
      ensures ok && device.items == WithoutPrefix(old(device.items), prefix)
    {
      var keys := device.items.Keys;
      while keys != {}
        invariant keys <= old(device.items).Keys
        invariant forall k :: k in device.items <==>
                    k in old(device.items) && (k in keys || !StartsWith(k, prefix))
        invariant forall k :: k in device.items ==> device.items[k] == old(device.items)[k]
        decreases keys
      {
        var k :| k in keys;
        if StartsWith(k, prefix) {
          var _ := device.RemoveStorage(k);
        }
        keys := keys - {k};
      }
      ok := true;
    }
  }
}
