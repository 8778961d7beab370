/**
 The mutex-protected map of internal/util/concurrentMap.go. Every method runs
 under its lock, so it is one atomic step on `items`.
 */
module ConcurrentMaps {
  import opened Wrappers

  /** delete(m, key) */
  function Without<V>(m: map<string, V>, key: string): map<string, V> { m - {key} }

  /** Deleting a key only while it still holds the expected value. */
  function WithoutIfEqual<V(==)>(m: map<string, V>, key: string, expected: V): map<string, V> {
    if key in m && m[key] == expected then m - {key} else m
  }

  class ConcurrentMap<V(==)> {
    var items: map<string, V>

    constructor ()
      ensures items == map[]
    {
      items := map[];
    }

    method Add(key: string, item: V)
      modifies this
      ensures items == old(items)[key := item]
    {
      items := items[key := item];
    }

    method Delete(key: string)
      modifies this
      ensures items == Without(old(items), key)
    {
      items := items - {key};
    }

    method DeleteIfEqual(key: string, expected: V) returns (deleted: bool)
      modifies this
      ensures items == WithoutIfEqual(old(items), key, expected)
      ensures deleted <==> key in old(items) && old(items)[key] == expected
      ensures deleted <==> items != old(items)
    {
      if key in items && items[key] == expected {
        items := items - {key};
        return true;
      }
      return false;
    }

    method Get(key: string) returns (item: Option<V>)
      ensures item.Some? <==> key in items
      ensures item.Some? ==> item.value == items[key]
    {
      if key in items {
        return Some(items[key]);
      }
      return None;
    }

    /** A snapshot of the keys, each exactly once, in no particular order. */
    method GetList() returns (keys: seq<string>)
      ensures forall k :: k in keys <==> k in items
      ensures forall i, j :: 0 <= i < j < |keys| ==> keys[i] != keys[j]
    {
      keys := [];
      var todo := items.Keys;
      while todo != {}
        invariant todo <= items.Keys
        invariant forall k :: k in keys <==> k in items && k !in todo
        invariant forall i, j :: 0 <= i < j < |keys| ==> keys[i] != keys[j]
        decreases todo
      {
        var k :| k in todo;
        todo := todo - {k};
        keys := keys + [k];
      }
    }
  }
}
