/** Form drafts kept in browser storage: the key a draft lives under, when
    a draft is written, and clearing and loading it. The watched form is a
    list of (field, value) pairs in key order; `JSON.stringify` and
    `JSON.parse` are parameters, and storage is a map from key to text. */
module AutoSave {
  import opened Wrappers
  import opened Text
  import opened JsValues

  type Storage = map<string, string>
  type Draft = seq<(string, Json)>

  const Prefix: string := "autosave_"
  const DefaultDelay: nat := 2000

  /** The storage key of the drafts for `key`. */
  function StorageKey(key: string): (k: string)
    ensures StartsWith(k, Prefix) && k[|Prefix|..] == key
  {
    Prefix + key
  }

  /** Distinct draft names never share a storage key. */
  lemma StorageKeyInjective(a: string, b: string)
    requires StorageKey(a) == StorageKey(b)
    ensures a == b
  {
    assert a == StorageKey(a)[|Prefix|..];
  }

  /** `Object.keys(data).some(k => data[k])`. */
  predicate WorthSaving(data: Draft) {
    exists i :: 0 <= i < |data| && Truthy(data[i].1)
  }

  /** What the delayed save does: the storage after it, and the draft
      handed to `onSave` (`None` when it was not called). A draft whose
      every field is empty, zero, `false`, `null` or `undefined` is neither
      stored nor reported. */
  function SaveTick(storage: Storage, key: string, data: Draft, stringify: Draft -> string): (r: (Storage, Option<Draft>))
    ensures r.1.Some? <==> WorthSaving(data)
    ensures r.1.Some? ==> r.1.value == data && r.0 == storage[StorageKey(key) := stringify(data)]
    ensures r.1.None? ==> r.0 == storage
  {
    if WorthSaving(data) then (storage[StorageKey(key) := stringify(data)], Some(data))
    else (storage, None)
  }

  /** A blank form is never saved over an earlier draft. */
  lemma BlankDraftNotSaved(storage: Storage, key: string, fields: seq<string>, stringify: Draft -> string)
    ensures var blank := seq(|fields|, i requires 0 <= i < |fields| => (fields[i], JStr("")));
      SaveTick(storage, key, blank, stringify) == (storage, None)
  {
    var blank := seq(|fields|, i requires 0 <= i < |fields| => (fields[i], JStr("")));
    assert forall i :: 0 <= i < |blank| ==> !Truthy(blank[i].1);
  }

  /** `clearAutoSave()`: removes this draft and nothing else. */
  function Clear(storage: Storage, key: string): (r: Storage)
    ensures StorageKey(key) !in r
    ensures forall k :: k in storage && k != StorageKey(key) ==> k in r && r[k] == storage[k]
    ensures r.Keys <= storage.Keys
  {
    storage - {StorageKey(key)}
  }

  /** `loadAutoSave()`: `null` when no draft text is stored (or it is
      empty), otherwise what parsing the text gives, which may throw. */
  function Load(storage: Storage, key: string, parse: string -> Outcome<Json>): (r: Outcome<Json>)
    ensures StorageKey(key) !in storage ==> r == Returned(JNull)
    ensures StorageKey(key) in storage && storage[StorageKey(key)] != "" ==> r == parse(storage[StorageKey(key)])
    ensures StorageKey(key) in storage && storage[StorageKey(key)] == "" ==> r == Returned(JNull)
  {
    var k := StorageKey(key);
    if k in storage && storage[k] != "" then parse(storage[k]) else Returned(JNull)
  }

  /** A cleared draft loads as `null`. */
  lemma ClearThenLoad(storage: Storage, key: string, parse: string -> Outcome<Json>)
    ensures Load(Clear(storage, key), key, parse) == Returned(JNull)
  {
  }

  /** A saved draft loads back as whatever parsing its text gives; in
      particular, when parsing undoes stringifying, as the draft itself. */
  lemma SaveThenLoad(storage: Storage, key: string, data: Draft, stringify: Draft -> string, parse: string -> Outcome<Json>, asObject: Json)
    requires WorthSaving(data)
    requires stringify(data) != "" && parse(stringify(data)) == Returned(asObject)
    ensures Load(SaveTick(storage, key, data, stringify).0, key, parse) == Returned(asObject)
  {
  }

  /** Drafts under different names do not disturb each other. */
  lemma DraftsIndependent(storage: Storage, a: string, b: string, data: Draft, stringify: Draft -> string, parse: string -> Outcome<Json>)
    requires a != b
    ensures Load(SaveTick(storage, a, data, stringify).0, b, parse) == Load(storage, b, parse)
    ensures Load(Clear(storage, a), b, parse) == Load(storage, b, parse)
  {
    if StorageKey(a) == StorageKey(b) {
      StorageKeyInjective(a, b);
    }
  }
}
