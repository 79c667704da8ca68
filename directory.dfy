/** The instance directory: the Consul key-value store (`KVStore`) and the
    `ConsulDB` wrapper of db/consul.go, which keys an entry by
    `namespace + "/" + externalID`. */
module Directory {
  import opened Common

  /** The Consul KV engine: a map from key to value, and the order in which
      a listing returns the keys. */
  class KVStore {
    var store: map<string, string>
    var keys: seq<string>

    ghost predicate Valid()
      reads this
    {
      Unique(keys) && forall k :: k in keys <==> k in store
    }

    constructor ()
      ensures Valid() && store == map[]
    {
      store, keys := map[], [];
    }

    /** `kv.Put`: store `value` under `key`, replacing any earlier value. */
    method Put(key: string, value: string)
      requires Valid()
      modifies this
      ensures Valid() && store == old(store)[key := value]
    {
      if key !in store {
        keys := keys + [key];
      }
      store := store[key := value];
    }

    /** `kv.Get`: the pair under `key`, if any. */
    method Get(key: string) returns (value: Option<string>)
      ensures key in store ==> value == Some(store[key])
      ensures key !in store ==> value == None
    {
      value := if key in store then Some(store[key]) else None;
    }

    /** `kv.Delete`: drop `key`; every other pair stays. */
    method Delete(key: string)
      requires Valid()
      modifies this
      ensures Valid() && store == old(store) - {key}
    {
      WithoutKeepsUnique(keys, key);
      keys := Without(keys, key);
      store := store - {key};
    }

    /** `kv.List("")`: every stored key, each once. */
    method List() returns (listed: seq<string>)
      requires Valid()
      ensures listed == keys
    {
      listed := keys;
    }
  }

  /** The key of an entry: `namespace + "/" + externalID`. */
  function Key(namespace: string, externalID: string): string {
    namespace + "/" + externalID
  }

  /** The text ReadEntry returns for an absent key. */
  function NoValueFound(key: string): string {
    "No value found for ID: " + key
  }

  /** Distinct (namespace, externalID) pairs get distinct keys when the
      namespace holds no "/". */
  lemma KeyInjective(ns1: string, e1: string, ns2: string, e2: string)
    requires '/' !in ns1 && '/' !in ns2
    requires Key(ns1, e1) == Key(ns2, e2)
    ensures ns1 == ns2 && e1 == e2
  {
    assert Key(ns1, e1) == ns1 + ['/'] + e1;
    assert Key(ns2, e2) == ns2 + ['/'] + e2;
    JoinInjective('/', ns1, e1, ns2, e2);
  }

  class ConsulDB {
    const consulClient: KVStore

    ghost predicate Valid()
      reads this, consulClient
    {
      consulClient.Valid()
    }

    constructor (client: KVStore)
      ensures consulClient == client
    {
      consulClient := client;
    }

    /** Store `internalID` under `namespace/externalID`, overwriting. */
    method CreateEntry(namespace: string, externalID: string, internalID: string)
      requires Valid()
      modifies consulClient
      ensures Valid()
      ensures consulClient.store == old(consulClient.store)[Key(namespace, externalID) := internalID]
    {
      var key := Key(namespace, externalID);
      consulClient.Put(key, internalID);
    }

    /** The internal ID stored for `namespace/externalID`, or a message and
        `found == false`. */
    method ReadEntry(namespace: string, externalID: string) returns (value: string, found: bool)
      ensures found <==> Key(namespace, externalID) in consulClient.store
      ensures found ==> value == consulClient.store[Key(namespace, externalID)]
      ensures !found ==> value == NoValueFound(Key(namespace, externalID))
    {
      var key := Key(namespace, externalID);
      var pair := consulClient.Get(key);
      if pair == None {
        return NoValueFound(key), false;
      }
      return pair.value, true;
    }

    /** Remove the entry for `namespace/externalID` and nothing else. */
    method DeleteEntry(namespace: string, externalID: string)
      requires Valid()
      modifies consulClient
      ensures Valid()
      ensures consulClient.store == old(consulClient.store) - {Key(namespace, externalID)}
    {
      var key := Key(namespace, externalID);
      consulClient.Delete(key);
    }

    /** Every stored key in full, whatever `namespace` says; `[""]` when the
        store is empty. */
    method ReadAll(namespace: string) returns (res: seq<string>)
      requires Valid()
      ensures consulClient.store == map[] ==> res == [""]
      ensures consulClient.store != map[] ==> res == consulClient.keys
      ensures consulClient.store != map[] ==> forall k :: k in res <==> k in consulClient.store
    {
      var pairs := consulClient.List();
      if |pairs| == 0 {
        assert consulClient.store.Keys == {};
        return [""];
      }
      assert pairs[0] in consulClient.store;
      res := [];
      for i := 0 to |pairs|
        invariant res == pairs[..i]
      {
        res := res + [pairs[i]];
      }
      assert pairs[..|pairs|] == pairs;
    }
  }

  /** What the ConsulDB methods promise together: an entry reads back after
      it is created, and after it is deleted it is gone while every other
      entry is as it was. */
  method EntryLifecycle(db: ConsulDB, namespace: string, externalID: string, internalID: string, otherKey: string)
      returns (readBack: string, foundAfterCreate: bool, foundAfterDelete: bool)
    requires db.Valid()
    requires otherKey != Key(namespace, externalID)
    modifies db.consulClient
    ensures db.Valid()
    ensures foundAfterCreate && readBack == internalID && !foundAfterDelete
    ensures otherKey in db.consulClient.store <==> otherKey in old(db.consulClient.store)
    ensures otherKey in db.consulClient.store ==> db.consulClient.store[otherKey] == old(db.consulClient.store[otherKey])
  {
    db.CreateEntry(namespace, externalID, internalID);
    readBack, foundAfterCreate := db.ReadEntry(namespace, externalID);
    db.DeleteEntry(namespace, externalID);
    var _, f := db.ReadEntry(namespace, externalID);
    foundAfterDelete := f;
  }
}
