/** The hash store of internal/repository/redis.go: HSET merges fields, DEL drops the key, HGETALL reads. */
module CacheStore {
  import opened Domain

  type Store = map<string, Data>

  /** HGETALL: an unknown key reads as the empty hash. */
  function Get(store: Store, key: string): Data {
    if key in store then store[key] else map[]
  }

  /** SetSnapshot: nothing happens for an empty snapshot; fields the snapshot lacks keep their old values. */
  function Put(store: Store, key: string, data: Data): Store {
    if data == map[] then store else store[key := Get(store, key) + data]
  }

  function Delete(store: Store, key: string): Store {
    store - {key}
  }

  /** HSET on one hash: its arguments are field, value, field, value, ... */
  function HSet(hash: Data, args: seq<string>): Data
    requires |args| % 2 == 0
    decreases |args|
  {
    if args == [] then hash
    else HSet(hash, args[..|args| - 2])[args[|args| - 2] := args[|args| - 1]]
  }

  lemma HSetAppend(hash: Data, args: seq<string>, k: string, v: string)
    requires |args| % 2 == 0
    ensures HSet(hash, args + [k, v]) == HSet(hash, args)[k := v]
  {
    var longer := args + [k, v];
    assert longer[..|longer| - 2] == args;
  }

  function Without(data: Data, left: set<string>): Data {
    map k | k in data && k !in left :: data[k]
  }

  lemma WithoutLess(hash: Data, data: Data, left: set<string>, k: string)
    requires k in left && k in data
    ensures hash + Without(data, left - {k}) == (hash + Without(data, left))[k := data[k]]
  {
    assert Without(data, left - {k}) == Without(data, left)[k := data[k]];
  }

  lemma WithoutNone(data: Data)
    ensures Without(data, {}) == data
    ensures Without(data, data.Keys) == map[]
  {
  }

  class RedisRepository {
    var hashes: Store

    constructor ()
      ensures hashes == map[]
    {
      hashes := map[];
    }

    method SetSnapshot(key: string, data: Data, ok: bool) returns (failed: bool)
      modifies this
      ensures hashes == if ok then Put(old(hashes), key, data) else old(hashes)
      ensures failed <==> data != map[] && !ok
    {
      if |data| == 0 {
        return false;
      }
      var args := HSetArgs(data, if key in hashes then hashes[key] else map[]);
      if !ok {
        return true;
      }
      hashes := hashes[key := HSet(if key in hashes then hashes[key] else map[], args)];
      return false;
    }

    /** Every field and value once, in any order; on any hash they amount to merging the snapshot into it. */
    method HSetArgs(data: Data, ghost hash: Data) returns (args: seq<string>)
      ensures |args| % 2 == 0 && HSet(hash, args) == hash + data
    {
      args := [];
      var left := data.Keys;
      WithoutNone(data);
      assert hash + map[] == hash;
      while left != {}
        invariant left <= data.Keys && |args| % 2 == 0
        invariant HSet(hash, args) == hash + Without(data, left)
        decreases left
      {
        var k :| k in left;
        HSetAppend(hash, args, k, data[k]);
        WithoutLess(hash, data, left, k);
        left := left - {k};
        args := args + [k, data[k]];
      }
      WithoutNone(data);
    }

    method DeleteSnapshot(key: string, ok: bool) returns (failed: bool)
      modifies this
      ensures hashes == if ok then Delete(old(hashes), key) else old(hashes)
      ensures failed <==> !ok
    {
      if ok {
        hashes := hashes - {key};
      }
      failed := !ok;
    }
  }

  /** What one key reads after a put, a deletion, or a change to another key. */
  lemma ReadBack(store: Store, key: string, data: Data, other: string)
    ensures Get(Put(store, key, data), key) == Get(store, key) + data
    ensures Get(Delete(store, key), key) == map[]
    ensures other != key ==> Get(Put(store, key, data), other) == Get(store, other) == Get(Delete(store, key), other)
  {
    if data == map[] {
      assert Get(store, key) + data == Get(store, key);
    }
  }
}
