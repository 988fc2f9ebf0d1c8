/**
 * The Setting collection: a key-value store of system configuration with the
 * record metadata each key carries, and the default settings the system ships
 * with.
 *
 * Setting values are mixed in the source (strings, numbers, booleans). Money
 * values are kept in integer cents: the platform rate 0.05 is Num(5) and the
 * provider rate 0.03 is Num(3).
 */
module SettingModel {
  import opened Util

  datatype Value = Num(n: int) | Text(s: string) | Flag(b: bool)

  /** JavaScript truthiness of a stored value. */
  predicate Truthy(v: Value)
  {
    match v
    case Num(n) => n != 0
    case Text(s) => s != ""
    case Flag(b) => b
  }

  datatype Category = Api | Billing | Notification | System | UserCategory

  datatype Setting = Setting(
    key: string,
    value: Value,
    description: string,
    category: Category,
    isPublic: bool,
    isEncrypted: bool,
    updatedBy: Option<Id>,
    updatedAt: int)

  /** The key is unique: the store maps each key to the one record holding it. */
  predicate KeysMatch(entries: map<string, Setting>)
  {
    forall k :: k in entries ==> entries[k].key == k
  }

  /** getByKey: the stored value, or nothing when no setting has the key. */
  function Lookup(entries: map<string, Setting>, key: string): (v: Option<Value>)
  {
    if key in entries then Some(entries[key].value) else None
  }

  /**
   * setByKey: findOneAndUpdate with upsert. An existing record gets the new
   * value, updater and time; a missing key is inserted with the schema
   * defaults (category system, not public, not encrypted).
   */
  function Upsert(entries: map<string, Setting>, key: string, value: Value, updater: Option<Id>, now: int)
    : (r: map<string, Setting>)
    ensures key in r && r.Keys == entries.Keys + {key}
  {
    if key in entries then
      entries[key := entries[key].(value := value, updatedBy := updater, updatedAt := now)]
    else
      entries[key := Setting(key, value, "", System, false, false, updater, now)]
  }

  /** Reading a key right after setting it returns the value just set. */
  lemma LookupAfterUpsert(entries: map<string, Setting>, key: string, value: Value, updater: Option<Id>, now: int)
    ensures Lookup(Upsert(entries, key, value, updater, now), key) == Some(value)
  {
  }

  /** Setting a key touches no other key. */
  lemma UpsertOnlyTouchesKey(entries: map<string, Setting>, key: string, value: Value, updater: Option<Id>, now: int, other: string)
    requires other != key
    ensures Lookup(Upsert(entries, key, value, updater, now), other) == Lookup(entries, other)
    ensures other in entries ==> Upsert(entries, key, value, updater, now)[other] == entries[other]
  {
  }

  /**
   * Setting an existing key keeps its description, category and flags; a new
   * key gets the schema defaults. Either way the store stays keyed by key.
   */
  lemma UpsertMetadata(entries: map<string, Setting>, key: string, value: Value, updater: Option<Id>, now: int)
    requires KeysMatch(entries)
    ensures var r := Upsert(entries, key, value, updater, now);
      KeysMatch(r)
      && (key in entries ==>
            r[key].description == entries[key].description && r[key].category == entries[key].category
            && r[key].isPublic == entries[key].isPublic && r[key].isEncrypted == entries[key].isEncrypted)
      && (key !in entries ==>
            r[key].category == System && !r[key].isPublic && !r[key].isEncrypted)
  {
  }

  /** The Setting collection, updated in place by the handlers. */
  class SettingStore {
    var entries: map<string, Setting>

    constructor ()
      ensures entries == map[]
    {
      entries := map[];
    }

    /** getByKey */
    function GetByKey(key: string): (v: Option<Value>)
      reads this
      ensures v.Some? <==> key in entries
      ensures v.Some? ==> v.value == entries[key].value
    {
      Lookup(entries, key)
    }

    /** setByKey */
    method SetByKey(key: string, value: Value, updater: Option<Id>, now: int)
      modifies this
      ensures entries == Upsert(old(entries), key, value, updater, now)
      ensures GetByKey(key) == Some(value)
    {
      entries := Upsert(entries, key, value, updater, now);
      LookupAfterUpsert(old(entries), key, value, updater, now);
    }
  }

  // ---------------------------------------------------------------------------
  // Defaults
  // ---------------------------------------------------------------------------

  const PlatformRateKey: string := "call_rate.platform"
  const ProviderRateKey: string := "call_rate.provider"
  const ApiKeyKey: string := "infobip.api_key"
  const MaxCallsPerMinuteKey: string := "system.max_calls_per_minute"

  /** The platform's per-call rate used when no setting is stored: 0.05, in cents. */
  const DefaultPlatformRate: int := 5
  /** The provider's per-call cost used when no setting is stored: 0.03, in cents. */
  const DefaultProviderRate: int := 3
  /** The dispatch batch size used when no setting is stored. */
  const DefaultMaxCallsPerMinute: int := 10

  /** DEFAULT_SETTINGS, in declaration order. */
  const DefaultSettings: seq<(string, Value)> := [
    (ApiKeyKey, Text("")),
    ("infobip.base_url", Text("https://api.infobip.com")),
    ("infobip.voice_url", Text("https://api.infobip.com/tts/3/advanced")),
    (PlatformRateKey, Num(DefaultPlatformRate)),
    (ProviderRateKey, Num(DefaultProviderRate)),
    (MaxCallsPerMinuteKey, Num(DefaultMaxCallsPerMinute)),
    ("system.max_retry_attempts", Num(3)),
    ("system.default_transfer_key", Text("1")),
    ("notification.email_enabled", Flag(true)),
    ("notification.sms_enabled", Flag(false))
  ]

  predicate DistinctKeys(defaults: seq<(string, Value)>)
  {
    forall i, j :: 0 <= i < j < |defaults| ==> defaults[i].0 != defaults[j].0
  }

  /** The defaults name each key once. */
  lemma DefaultKeysDistinct()
    ensures |DefaultSettings| == 10 && DistinctKeys(DefaultSettings)
  {
  }

  /** The defaults carry the documented rates and limits. */
  lemma DefaultSettingsFacts()
    ensures (PlatformRateKey, Num(5)) in DefaultSettings
    ensures (ProviderRateKey, Num(3)) in DefaultSettings
    ensures (MaxCallsPerMinuteKey, Num(10)) in DefaultSettings
    ensures ("system.max_retry_attempts", Num(3)) in DefaultSettings
  {
    assert DefaultSettings[3] == (PlatformRateKey, Num(5));
    assert DefaultSettings[4] == (ProviderRateKey, Num(3));
    assert DefaultSettings[5] == (MaxCallsPerMinuteKey, Num(10));
    assert DefaultSettings[6] == ("system.max_retry_attempts", Num(3));
  }

  /** `stored || fallback`: the stored value when it is truthy, otherwise the fallback. */
  function OrElse(stored: Option<Value>, fallback: Value): (v: Value)
    ensures stored.Some? && Truthy(stored.value) ==> v == stored.value
    ensures !(stored.Some? && Truthy(stored.value)) ==> v == fallback
  {
    if stored.Some? && Truthy(stored.value) then stored.value else fallback
  }

  /**
   * `(await Setting.getByKey(k)) || fallback` for a numeric setting: the stored
   * number when it is truthy (non-zero), otherwise the fallback. A stored value
   * that is not a number is taken as the fallback.
   */
  function NumberSetting(stored: Option<Value>, fallback: int): (n: int)
    ensures stored.None? ==> n == fallback
    ensures stored == Some(Num(0)) ==> n == fallback
    ensures stored.Some? && stored.value.Num? && stored.value.n != 0 ==> n == stored.value.n
  {
    match stored
    case Some(Num(m)) => if m != 0 then m else fallback
    case _ => fallback
  }

  /** Where `||` yields a number, the numeric setting is that number. */
  lemma NumberSettingIsOrElse(stored: Option<Value>, fallback: int)
    ensures OrElse(stored, Num(fallback)).Num? ==> NumberSetting(stored, fallback) == OrElse(stored, Num(fallback)).n
    ensures OrElse(stored, Num(fallback)).Num? <==> stored.None? || stored.value.Num? || !Truthy(stored.value)
  {
  }

  /** `if (!value)` on the result of getByKey: a stored, truthy value. */
  predicate Configured(stored: Option<Value>)
  {
    stored.Some? && Truthy(stored.value)
  }
}
