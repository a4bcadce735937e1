/** The key/value settings store (QueueServer.Core/Services/SettingsService.cs).
    The Settings table, whose primary key is Key, is a map from key to value. */
module Settings {
  import opened Common

  /** The built-in defaults, in the order the dictionary enumerates them. */
  const DefaultSettingList: seq<(string, string)> := [
    ("Prefix", "A"),
    ("RunningText", "Selamat datang."),
    ("LogoPath", "Resources\\logo.png"),
    ("VideoPath", "Resources\\info.mp4"),
    ("ShowLogo", "true"),
    ("ShowVideo", "true"),
    ("ResetTime", "00:00"),
    ("ChimePath", "Resources\\chime.wav")
  ]

  /** `store` after adding, for each entry in turn, its key and value when the
      key is not there yet. */
  function AddMissing(store: map<string, string>, entries: seq<(string, string)>): (r: map<string, string>)
    ensures store.Keys <= r.Keys
    ensures forall k :: k in store ==> r[k] == store[k]
    ensures forall i :: 0 <= i < |entries| ==> entries[i].0 in r
    ensures forall k :: k in r && k !in store ==> exists i :: 0 <= i < |entries| && entries[i] == (k, r[k])
    decreases |entries|
  {
    if entries == [] then store
    else
      var init := entries[..|entries| - 1];
      var (k, v) := entries[|entries| - 1];
      var m := AddMissing(store, init);
      assert forall i :: 0 <= i < |init| ==> init[i] == entries[i];
      if k in m then m else m[k := v]
  }

  /** The store after EnsureDefaults. */
  function WithDefaults(store: map<string, string>): map<string, string> {
    AddMissing(store, DefaultSettingList)
  }

  /** Adding missing entries a second time changes nothing. */
  lemma {:induction false} AddMissingIdempotent(store: map<string, string>, entries: seq<(string, string)>)
    ensures AddMissing(AddMissing(store, entries), entries) == AddMissing(store, entries)
    decreases |entries|
  {
    if entries != [] {
      var once := AddMissing(store, entries);
      var init := entries[..|entries| - 1];
      AddMissingIdempotent(store, init);
      AddMissingGrows(AddMissing(store, init), once, init);
    }
  }

  /** Adding entries whose keys are all present already leaves the store as it is. */
  lemma {:induction false} AddMissingGrows(small: map<string, string>, big: map<string, string>, entries: seq<(string, string)>)
    requires forall i :: 0 <= i < |entries| ==> entries[i].0 in big
    ensures AddMissing(big, entries) == big
    decreases |entries|
  {
    if entries != [] {
      AddMissingGrows(small, big, entries[..|entries| - 1]);
    }
  }

  /** EnsureDefaults is idempotent. */
  lemma WithDefaultsIdempotent(store: map<string, string>)
    ensures WithDefaults(WithDefaults(store)) == WithDefaults(store)
  {
    AddMissingIdempotent(store, DefaultSettingList);
  }

  /** No key appears twice among the defaults. */
  predicate DistinctKeys(entries: seq<(string, string)>) {
    forall i, j :: 0 <= i < j < |entries| ==> entries[i].0 != entries[j].0
  }

  /** With distinct keys, a key that was missing receives its own entry's value. */
  lemma AddMissingValue(store: map<string, string>, entries: seq<(string, string)>, i: nat)
    requires DistinctKeys(entries) && i < |entries| && entries[i].0 !in store
    ensures AddMissing(store, entries)[entries[i].0] == entries[i].1
  {
    var r := AddMissing(store, entries);
    var j :| 0 <= j < |entries| && entries[j] == (entries[i].0, r[entries[i].0]);
    assert i == j;
  }

  /** EnsureDefaults never overwrites a stored value. */
  lemma WithDefaultsKeepsValues(store: map<string, string>, k: string)
    requires k in store
    ensures k in WithDefaults(store) && WithDefaults(store)[k] == store[k]
  {
  }

  /** EnsureDefaults gives each missing default key its default value. */
  lemma WithDefaultsAddsMissing(store: map<string, string>, i: nat)
    requires i < |DefaultSettingList| && DefaultSettingList[i].0 !in store
    ensures WithDefaults(store)[DefaultSettingList[i].0] == DefaultSettingList[i].1
  {
    AddMissingValue(store, DefaultSettingList, i);
  }

  /** The eight default keys. */
  const DefaultKeys: set<string> :=
    {"Prefix", "RunningText", "LogoPath", "VideoPath", "ShowLogo", "ShowVideo", "ResetTime", "ChimePath"}

  /** The default keys are exactly the keys of the default list. */
  lemma DefaultKeysListed()
    ensures forall i :: 0 <= i < |DefaultSettingList| ==> DefaultSettingList[i].0 in DefaultKeys
    ensures forall k :: k in DefaultKeys ==> exists i :: 0 <= i < |DefaultSettingList| && DefaultSettingList[i].0 == k
  {
    var d := DefaultSettingList;
    assert d[0].0 == "Prefix" && d[1].0 == "RunningText" && d[2].0 == "LogoPath" && d[3].0 == "VideoPath";
    assert d[4].0 == "ShowLogo" && d[5].0 == "ShowVideo" && d[6].0 == "ResetTime" && d[7].0 == "ChimePath";
  }

  /** After EnsureDefaults the eight default keys are present, and every key
      that was not stored before is one of them. */
  lemma WithDefaultsKeys(store: map<string, string>)
    ensures DefaultKeys <= WithDefaults(store).Keys
    ensures WithDefaults(store).Keys <= store.Keys + DefaultKeys
  {
    var r := WithDefaults(store);
    var d := DefaultSettingList;
    DefaultKeysListed();
    forall k | k in r && k !in store ensures k in DefaultKeys {
      var j :| 0 <= j < |d| && d[j] == (k, r[k]);
    }
    forall k | k in DefaultKeys ensures k in r {
      var i :| 0 <= i < |d| && d[i].0 == k;
    }
  }

  class SettingsService {
    var store: map<string, string>

    constructor (initial: map<string, string>)
      ensures store == initial
    {
      store := initial;
    }

    /** Adds every default whose key is missing. */
    method EnsureDefaults()
      modifies this
      ensures store == WithDefaults(old(store))
    {
      var i := 0;
      while i < |DefaultSettingList|
        invariant 0 <= i <= |DefaultSettingList|
        invariant store == AddMissing(old(store), DefaultSettingList[..i])
      {
        var (k, v) := DefaultSettingList[i];
        assert DefaultSettingList[..i + 1][..i] == DefaultSettingList[..i];
        if k !in store {
          store := store[k := v];
        }
        i := i + 1;
      }
      assert DefaultSettingList[..i] == DefaultSettingList;
    }

    /** The stored value of `key`, or null when the key is absent. */
    function GetValue(key: string): (r: Option<string>)
      reads this
      ensures r.Some? <==> key in store
      ensures r.Some? ==> r.value == store[key]
    {
      if key in store then Some(store[key]) else None
    }

    /** Upsert: adds the row or overwrites its value. */
    method SetValue(key: string, value: string)
      modifies this
      ensures store == old(store)[key := value]
      ensures GetValue(key) == Some(value)
      ensures forall k :: k != key ==> GetValue(k) == old(GetValue(k))
    {
      store := store[key := value];
    }

    /** Every stored key with its value. */
    function GetAll(): (r: map<string, string>)
      reads this
      ensures forall k :: k in r <==> GetValue(k).Some?
      ensures forall k :: k in r ==> GetValue(k) == Some(r[k])
    {
      store
    }
  }
}
