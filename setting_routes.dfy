/**
 * The settings endpoints: the public key-value map, update-or-create of one
 * key, and the initialisation of the default settings with metadata derived
 * from each key.
 */
module SettingRoutes {
  import opened Util
  import opened Http
  import opened SettingModel

  // ---------------------------------------------------------------------------
  // Public settings
  // ---------------------------------------------------------------------------

  /** GET /public: the values of the public settings, by key. */
  function PublicSettings(entries: map<string, Setting>): (r: map<string, Value>)
    ensures forall k :: k in r <==> k in entries && entries[k].isPublic
    ensures forall k :: k in r ==> r[k] == entries[k].value
  {
    map k | k in entries && entries[k].isPublic :: entries[k].value
  }

  // ---------------------------------------------------------------------------
  // Metadata derived from a key
  // ---------------------------------------------------------------------------

  /** The category initialisation gives a key, by its prefix. */
  function CategoryFor(key: string): (c: Category)
    ensures c != UserCategory
    ensures c == Api <==> StartsWith(key, "infobip.")
    ensures c == Billing <==> !StartsWith(key, "infobip.") && StartsWith(key, "call_rate.")
    ensures c == Notification <==>
      !StartsWith(key, "infobip.") && !StartsWith(key, "call_rate.") && StartsWith(key, "notification.")
  {
    if StartsWith(key, "infobip.") then Api
    else if StartsWith(key, "call_rate.") then Billing
    else if StartsWith(key, "notification.") then Notification
    else System
  }

  predicate IsPublicKey(key: string)
  {
    StartsWith(key, "system.") || StartsWith(key, "call_rate.")
  }

  predicate IsEncryptedKey(key: string)
  {
    Contains(key, "api_key") || Contains(key, "password")
  }

  /** A public key is never an api key, and its category is billing or system. */
  lemma PublicKeyCategory(key: string)
    requires IsPublicKey(key)
    ensures CategoryFor(key) == Billing || CategoryFor(key) == System
  {
    assert key[0] == 's' || key[0] == 'c';
    assert !StartsWith(key, "infobip.") by { assert "infobip."[0] == 'i'; }
  }

  // ---------------------------------------------------------------------------
  // Update or create
  // ---------------------------------------------------------------------------

  /**
   * The record PUT /:key saves. A missing key is created with the given
   * description or '', the given category or system, and the flags given as
   * true or else false. An existing record gets the new value and updater,
   * and only the optional fields that were supplied (the category only when
   * truthy, here: present).
   */
  function UpdatedSetting(
    existing: Option<Setting>, key: string, value: Value,
    description: Option<string>, category: Option<Category>,
    isPublic: Option<bool>, isEncrypted: Option<bool>,
    user: Id, now: int): (s: Setting)
    requires existing.Some? ==> existing.value.key == key
    ensures s.key == key && s.value == value && s.updatedBy == Some(user)
    ensures existing.None? ==>
      s.category == (if category.Some? then category.value else System)
      && s.isPublic == (isPublic == Some(true))
      && s.isEncrypted == (isEncrypted == Some(true))
    ensures existing.Some? && description.None? ==> s.description == existing.value.description
    ensures existing.Some? && category.None? ==> s.category == existing.value.category
    ensures existing.Some? && isPublic.None? ==> s.isPublic == existing.value.isPublic
    ensures existing.Some? && isEncrypted.None? ==> s.isEncrypted == existing.value.isEncrypted
  {
    match existing
    case None =>
      Setting(key, value,
        if description.Some? then description.value else "",
        if category.Some? then category.value else System,
        isPublic == Some(true), isEncrypted == Some(true),
        Some(user), now)
    case Some(prev) =>
      prev.(
        value := value,
        description := if description.Some? then description.value else prev.description,
        category := if category.Some? then category.value else prev.category,
        isPublic := if isPublic.Some? then isPublic.value else prev.isPublic,
        isEncrypted := if isEncrypted.Some? then isEncrypted.value else prev.isEncrypted,
        updatedBy := Some(user),
        updatedAt := now)
  }

  /**
   * An update that supplies only a value stores the same record setByKey
   * would: the route and the model's upsert agree, on new and existing keys.
   */
  lemma UpdateAgreesWithSetByKey(entries: map<string, Setting>, key: string, value: Value, user: Id, now: int)
    requires KeysMatch(entries)
    ensures var existing := if key in entries then Some(entries[key]) else None;
      UpdatedSetting(existing, key, value, None, None, None, None, user, now)
        == Upsert(entries, key, value, Some(user), now)[key]
  {
  }

  /** PUT /:key */
  method UpdateSetting(
    store: SettingStore, key: string, value: Option<Value>,
    description: Option<string>, category: Option<Category>,
    isPublic: Option<bool>, isEncrypted: Option<bool>,
    user: Id, now: int) returns (r: Result<Setting>)
    requires KeysMatch(store.entries)
    modifies store
    ensures value.None? ==> r == Err(BadRequest("Value is required")) && store.entries == old(store.entries)
    ensures value.Some? ==>
      var existing := if key in old(store.entries) then Some(old(store.entries)[key]) else None;
      var s := UpdatedSetting(existing, key, value.value, description, category, isPublic, isEncrypted, user, now);
      r == Ok(s) && store.entries == old(store.entries)[key := s]
    ensures KeysMatch(store.entries)
  {
    if value.None? {
      return Err(BadRequest("Value is required"));
    }
    var existing := if key in store.entries then Some(store.entries[key]) else None;
    var s := UpdatedSetting(existing, key, value.value, description, category, isPublic, isEncrypted, user, now);
    store.entries := store.entries[key := s];
    r := Ok(s);
  }

  // ---------------------------------------------------------------------------
  // Initialisation of the defaults
  // ---------------------------------------------------------------------------

  datatype InitStatus = Skipped | Created

  /** The record initialisation creates for a default key and value. */
  function DefaultRecord(d: (string, Value), user: Id, now: int): (s: Setting)
    ensures s.key == d.0 && s.value == d.1
    ensures s.category == CategoryFor(d.0)
    ensures s.isPublic == IsPublicKey(d.0) && s.isEncrypted == IsEncryptedKey(d.0)
  {
    Setting(d.0, d.1, "Default setting for " + d.0, CategoryFor(d.0),
      IsPublicKey(d.0), IsEncryptedKey(d.0), Some(user), now)
  }

  /** The store after initialisation: each default key not yet present is created, in order. */
  function Seeded(entries: map<string, Setting>, defaults: seq<(string, Value)>, user: Id, now: int)
    : map<string, Setting>
    decreases |defaults|
  {
    if defaults == [] then entries
    else
      var d := defaults[0];
      var next := if d.0 in entries then entries else entries[d.0 := DefaultRecord(d, user, now)];
      Seeded(next, defaults[1..], user, now)
  }

  function KeysOf(defaults: seq<(string, Value)>): set<string>
  {
    set i | 0 <= i < |defaults| :: defaults[i].0
  }

  lemma KeysOfAppend(defaults: seq<(string, Value)>, d: (string, Value))
    ensures KeysOf(defaults + [d]) == KeysOf(defaults) + {d.0}
  {
    var s := defaults + [d];
    forall k | k in KeysOf(s) ensures k in KeysOf(defaults) + {d.0} {
      var i :| 0 <= i < |s| && s[i].0 == k;
      if i < |defaults| { assert s[i] == defaults[i]; }
    }
    forall k | k in KeysOf(defaults) + {d.0} ensures k in KeysOf(s) {
      if k == d.0 {
        assert s[|defaults|] == d;
      } else {
        var i :| 0 <= i < |defaults| && defaults[i].0 == k;
        assert s[i] == defaults[i];
      }
    }
  }

  lemma DistinctTail(defaults: seq<(string, Value)>)
    requires DistinctKeys(defaults) && defaults != []
    ensures DistinctKeys(defaults[1..])
  {
    var rest := defaults[1..];
    forall i, j | 0 <= i < j < |rest| ensures rest[i].0 != rest[j].0 {
      assert rest[i] == defaults[i + 1] && rest[j] == defaults[j + 1];
    }
  }

  lemma KeysOfCons(defaults: seq<(string, Value)>)
    requires defaults != []
    ensures KeysOf(defaults) == {defaults[0].0} + KeysOf(defaults[1..])
  {
    var rest := defaults[1..];
    forall k | k in KeysOf(defaults) ensures k in {defaults[0].0} + KeysOf(rest) {
      var i :| 0 <= i < |defaults| && defaults[i].0 == k;
      if i > 0 { assert rest[i - 1] == defaults[i]; }
    }
    forall k | k in KeysOf(rest) ensures k in KeysOf(defaults) {
      var i :| 0 <= i < |rest| && rest[i].0 == k;
      assert defaults[i + 1] == rest[i];
    }
  }

  /** One step of the initialisation loop: the next default, whose key is not among the keys before it. */
  lemma InitStep(defaults: seq<(string, Value)>, i: nat)
    requires DistinctKeys(defaults) && i < |defaults|
    ensures defaults[i].0 !in KeysOf(defaults[..i])
    ensures defaults[i..][0] == defaults[i] && defaults[i..][1..] == defaults[i + 1..]
    ensures KeysOf(defaults[..i + 1]) == KeysOf(defaults[..i]) + {defaults[i].0}
  {
    assert forall j :: 0 <= j < i ==> defaults[..i][j].0 != defaults[i].0;
    KeysOfAppend(defaults[..i], defaults[i]);
    assert defaults[..i + 1] == defaults[..i] + [defaults[i]];
  }

  /**
   * Initialisation keeps every existing record, creates a default record for
   * every default key that was missing, and touches no other key.
   */
  lemma {:induction false} SeededEntries(entries: map<string, Setting>, defaults: seq<(string, Value)>, user: Id, now: int)
    requires DistinctKeys(defaults)
    ensures var r := Seeded(entries, defaults, user, now);
      r.Keys == entries.Keys + KeysOf(defaults)
      && (forall k :: k in entries ==> r[k] == entries[k])
      && (forall i :: 0 <= i < |defaults| && defaults[i].0 !in entries ==>
            r[defaults[i].0] == DefaultRecord(defaults[i], user, now))
    decreases |defaults|
  {
    if defaults != [] {
      var d := defaults[0];
      var next := if d.0 in entries then entries else entries[d.0 := DefaultRecord(d, user, now)];
      var rest := defaults[1..];
      DistinctTail(defaults);
      SeededEntries(next, rest, user, now);
      var r := Seeded(entries, defaults, user, now);
      KeysOfCons(defaults);
      forall i | 0 <= i < |defaults| && defaults[i].0 !in entries
        ensures r[defaults[i].0] == DefaultRecord(defaults[i], user, now)
      {
        if i > 0 {
          assert rest[i - 1] == defaults[i];
          assert defaults[i].0 !in next;
        }
      }
    }
  }

  /**
   * POST /initialize, over the default settings given in declaration order
   * (the system's own DEFAULT_SETTINGS are DefaultSettings).
   */
  method Initialize(store: SettingStore, defaults: seq<(string, Value)>, user: Id, now: int)
    returns (results: seq<(string, InitStatus)>)
    requires DistinctKeys(defaults)
    modifies store
    ensures store.entries == Seeded(old(store.entries), defaults, user, now)
    ensures |results| == |defaults|
    ensures forall i :: 0 <= i < |results| ==>
      results[i].0 == defaults[i].0
      && (results[i].1 == Skipped <==> defaults[i].0 in old(store.entries))
  {
    var i := 0;
    results := [];
    while i < |defaults|
      invariant 0 <= i <= |defaults|
      invariant Seeded(store.entries, defaults[i..], user, now)
        == Seeded(old(store.entries), defaults, user, now)
      invariant store.entries.Keys == old(store.entries).Keys + KeysOf(defaults[..i])
      invariant |results| == i
      invariant forall j :: 0 <= j < i ==>
        results[j].0 == defaults[j].0
        && (results[j].1 == Skipped <==> defaults[j].0 in old(store.entries))
    {
      var d := defaults[i];
      InitStep(defaults, i);
      if d.0 in store.entries {
        results := results + [(d.0, Skipped)];
      } else {
        store.entries := store.entries[d.0 := DefaultRecord(d, user, now)];
        results := results + [(d.0, Created)];
      }
      i := i + 1;
    }
  }

  /**
   * On an empty store, initialisation creates every default key; it makes
   * exactly the two rates and the three system limits public (positions 3 to
   * 7), and encrypts only the API key (position 0).
   */
  lemma InitializedPublicAndEncrypted(user: Id, now: int)
    ensures var r := Seeded(map[], DefaultSettings, user, now);
      r.Keys == KeysOf(DefaultSettings)
      && forall i :: 0 <= i < |DefaultSettings| ==>
           var s := r[DefaultSettings[i].0];
           s.value == DefaultSettings[i].1
           && (s.isPublic <==> 3 <= i <= 7)
           && (s.isEncrypted <==> i == 0)
  {
    DefaultKeysDistinct();
    SeededEntries(map[], DefaultSettings, user, now);
    forall i | 0 <= i < |DefaultSettings| {
      DefaultKeyFlags(i);
    }
  }

  lemma NotEncrypted(k: string)
    requires 'w' !in k && ('k' !in k || 'p' !in k)
    ensures !IsEncryptedKey(k)
  {
    NotContainedByChar(k, "password", 'w');
    if 'k' !in k {
      NotContainedByChar(k, "api_key", 'k');
    } else {
      NotContainedByChar(k, "api_key", 'p');
    }
  }


  /** The public and encrypted flags initialisation derives for each default key. */
  lemma DefaultKeyFlags(i: int)
    requires 0 <= i < |DefaultSettings|
    ensures IsPublicKey(DefaultSettings[i].0) <==> 3 <= i <= 7
    ensures IsEncryptedKey(DefaultSettings[i].0) <==> i == 0
  {
    DefaultKeyPublic(i);
    DefaultKeyEncrypted(i);
  }

  lemma DefaultKeyPublic(i: int)
    requires 0 <= i < |DefaultSettings|
    ensures IsPublicKey(DefaultSettings[i].0) <==> 3 <= i <= 7
  {
    var k := DefaultSettings[i].0;
    if i < 3 || i > 7 {
      assert k[0] == 'i' || k[0] == 'n';
      NotPublic(k);
    }
  }

  lemma DefaultKeyEncrypted(i: int)
    requires 0 <= i < |DefaultSettings|
    ensures IsEncryptedKey(DefaultSettings[i].0) <==> i == 0
  {
    var k := DefaultSettings[i].0;
    if i == 0 {
      ApiKeyFlags();
    } else if i == 1 {
      assert k == "infobip.base_url";
      BaseUrlKeyPlain();
    } else if i == 2 {
      assert k == "infobip.voice_url";
      VoiceUrlKeyPlain();
    } else if i == 3 {
      assert k == "call_rate.platform";
      PlatformRateKeyPlain();
    } else if i == 4 {
      assert k == "call_rate.provider";
      ProviderRateKeyPlain();
    } else if i == 5 {
      assert k == "system.max_calls_per_minute";
      MaxCallsPerMinuteKeyPlain();
    } else if i == 6 {
      assert k == "system.max_retry_attempts";
      MaxRetryAttemptsKeyPlain();
    } else if i == 7 {
      assert k == "system.default_transfer_key";
      DefaultTransferKeyKeyPlain();
    } else if i == 8 {
      assert k == "notification.email_enabled";
      EmailEnabledKeyPlain();
    } else {
      assert k == "notification.sms_enabled";
      SmsEnabledKeyPlain();
    }
  }

  lemma NotPublic(k: string)
    requires k != [] && (k[0] == 'i' || k[0] == 'n')
    ensures !IsPublicKey(k)
  {
    assert "system."[0] == 's' && "call_rate."[0] == 'c';
  }

  lemma ApiKeyFlags()
    ensures !IsPublicKey(ApiKeyKey) && IsEncryptedKey(ApiKeyKey)
  {
    assert OccursAt(ApiKeyKey, "api_key", 8);
    NotPublic(ApiKeyKey);
  }

  // Each default key other than the API key names neither an API key nor a password.
  lemma BaseUrlKeyPlain() ensures !IsEncryptedKey("infobip.base_url") { NotEncrypted("infobip.base_url"); }
  lemma VoiceUrlKeyPlain() ensures !IsEncryptedKey("infobip.voice_url") { NotEncrypted("infobip.voice_url"); }
  lemma PlatformRateKeyPlain() ensures !IsEncryptedKey("call_rate.platform") { NotEncrypted("call_rate.platform"); }
  lemma ProviderRateKeyPlain() ensures !IsEncryptedKey("call_rate.provider") { NotEncrypted("call_rate.provider"); }
  lemma MaxCallsPerMinuteKeyPlain() ensures !IsEncryptedKey("system.max_calls_per_minute") { NotEncrypted("system.max_calls_per_minute"); }
  lemma MaxRetryAttemptsKeyPlain() ensures !IsEncryptedKey("system.max_retry_attempts") { NotEncrypted("system.max_retry_attempts"); }
  lemma DefaultTransferKeyKeyPlain() ensures !IsEncryptedKey("system.default_transfer_key") { NotEncrypted("system.default_transfer_key"); }
  lemma EmailEnabledKeyPlain() ensures !IsEncryptedKey("notification.email_enabled") { NotEncrypted("notification.email_enabled"); }
  lemma SmsEnabledKeyPlain() ensures !IsEncryptedKey("notification.sms_enabled") { NotEncrypted("notification.sms_enabled"); }
}
