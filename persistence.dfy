/** The host's plugin-data store (`PluginUtilities.loadData` / `saveData`), keyed by
    (namespace, field). */
module Persistence {
  import opened Js

  type Entry = (string, string)

  /** `config.info.name`, the namespace the plugin stores its data under. */
  const PluginName := "PGPEncrypt"
  const PublicKeyEntry: Entry := (PluginName, "publicKey")
  const PrivateKeyEntry: Entry := (PluginName, "privateKey")

  function Lookup(data: map<Entry, string>, entry: Entry): Option<string>
  {
    if entry in data then Some(data[entry]) else None
  }

  /** The store after `saveKeys`: both key entries hold the given keys and no other entry
      is touched, so nothing but the two keys is ever persisted. */
  function SavedKeys(data: map<Entry, string>, publicKey: string, privateKey: string): (r: map<Entry, string>)
    ensures Lookup(r, PublicKeyEntry) == Some(publicKey)
    ensures Lookup(r, PrivateKeyEntry) == Some(privateKey)
    ensures forall e | e != PublicKeyEntry && e != PrivateKeyEntry :: Lookup(r, e) == Lookup(data, e)
    ensures r.Keys == data.Keys + {PublicKeyEntry, PrivateKeyEntry}
  {
    data[PublicKeyEntry := publicKey][PrivateKeyEntry := privateKey]
  }

  /** Loading the keys back after a save gives exactly the keys that were saved, whatever
      the store held before (an empty key reads back as the `|| ""` default). */
  lemma LoadAfterSave(data: map<Entry, string>, publicKey: string, privateKey: string)
    ensures OrEmpty(Lookup(SavedKeys(data, publicKey, privateKey), PublicKeyEntry)) == publicKey
    ensures OrEmpty(Lookup(SavedKeys(data, publicKey, privateKey), PrivateKeyEntry)) == privateKey
  {
  }

  class Store {
    var data: map<Entry, string>

    constructor (initial: map<Entry, string>)
      ensures data == initial
    {
      data := initial;
    }

    /** `loadData(namespace, field)`: the stored string, or `undefined`. */
    method LoadData(namespace: string, field: string) returns (v: Option<string>)
      ensures v.Some? <==> (namespace, field) in data
      ensures v.Some? ==> v.value == data[(namespace, field)]
    {
      v := Lookup(data, (namespace, field));
    }

    /** `saveData(namespace, field, value)`: overwrites that one entry. */
    method SaveData(namespace: string, field: string, value: string)
      modifies this
      ensures data == old(data)[(namespace, field) := value]
    {
      data := data[(namespace, field) := value];
    }
  }
}
