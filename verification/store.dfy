/** The informer's pod store, which may change between any two reads. */
module Stores {
  import opened Options
  import opened Pods

  type Store = map<string, Pod>

  /** The informer keys a pod by "namespace/name". */
  ghost predicate Keyed(store: Store) {
    forall k :: k in store ==> store[k].Key() == k
  }

  function Lookup(store: Store, key: string): Option<Pod> {
    if key in store then Some(store[key]) else None
  }

  function KeysOf(pods: seq<Pod>): set<string> {
    set i | 0 <= i < |pods| :: pods[i].Key()
  }

  lemma KeysOfSnoc(pods: seq<Pod>, pod: Pod)
    ensures KeysOf(pods + [pod]) == KeysOf(pods) + {pod.Key()}
  {
    var all := pods + [pod];
    assert forall i :: 0 <= i < |pods| ==> all[i] == pods[i];
    assert all[|pods|] == pod;
  }

  ghost predicate DistinctKeys(pods: seq<Pod>) {
    forall i, j :: 0 <= i < j < |pods| ==> pods[i].Key() != pods[j].Key()
  }

  /** The pods stored under the keys, each once, in some order. */
  ghost predicate Enumerates(pods: seq<Pod>, store: Store, keys: set<string>) {
    && KeysOf(pods) == keys
    && (forall i :: 0 <= i < |pods| ==> Lookup(store, pods[i].Key()) == Some(pods[i]))
    && DistinctKeys(pods)
  }

  lemma EnumeratesMore(pods: seq<Pod>, store: Store, keys: set<string>, pod: Pod)
    requires Enumerates(pods, store, keys) && pod.Key() !in keys && Lookup(store, pod.Key()) == Some(pod)
    ensures Enumerates(pods + [pod], store, keys + {pod.Key()})
  {
    KeysOfSnoc(pods, pod);
    assert forall i :: 0 <= i < |pods| ==> pods[i].Key() in KeysOf(pods);
  }

  /** Read number k sees version(k). */
  class PodStore {
    const version: nat -> Store
    var clock: nat

    constructor (version: nat -> Store)
      requires forall k: nat :: Keyed(version(k))
      ensures this.version == version && clock == 0 && Valid()
    {
      this.version := version;
      clock := 0;
    }

    ghost predicate Valid() {
      forall k: nat :: Keyed(version(k))
    }

    method GetByKey(key: string) returns (pod: Option<Pod>)
      modifies this
      ensures clock == old(clock) + 1
      ensures pod == Lookup(version(old(clock)), key)
    {
      pod := Lookup(version(clock), key);
      clock := clock + 1;
    }

    method List() returns (pods: seq<Pod>)
      requires Valid()
      modifies this
      ensures clock == old(clock) + 1
      ensures Enumerates(pods, version(old(clock)), version(old(clock)).Keys)
    {
      var store := version(clock);
      clock := clock + 1;
      assert Keyed(store);
      pods := [];
      var rest := store.Keys;
      while rest != {}
        invariant clock == old(clock) + 1
        invariant rest <= store.Keys && Enumerates(pods, store, store.Keys - rest)
      {
        var k :| k in rest;
        EnumeratesMore(pods, store, store.Keys - rest, store[k]);
        pods := pods + [store[k]];
        rest := rest - {k};
        assert store.Keys - rest == store.Keys - (rest + {k}) + {k};
      }
    }
  }
}
