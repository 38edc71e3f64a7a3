/** `APIFlowInputModel`: the forwarding map from a step type's full name to
    the step instances produced for it, a thin wrapper over a dictionary. */
module InputModels {
  import opened Common

  class InputModel<V> {
    /** The wrapped dictionary; each list is kept in insertion order. */
    var entries: map<string, seq<V>>

    /** A new model wraps an empty dictionary. */
    constructor ()
      ensures entries == map[]
      ensures Count() == 0
    {
      entries := map[];
    }

    /** `Count`: the number of keys. */
    function Count(): (n: nat)
      reads this
      ensures n == |entries.Keys|
      ensures n == 0 <==> entries == map[]
    {
      assert entries != map[] ==> exists k :: k in entries;
      |entries|
    }

    /** `Add(key, value)`: inserts an absent key; a present key throws. */
    method Add(key: string, value: seq<V>) returns (r: Outcome)
      modifies this
      ensures key in old(entries) ==> r == Fail(DuplicateKey(key)) && entries == old(entries)
      ensures key !in old(entries) ==> r == Pass && entries == old(entries)[key := value]
      ensures key !in old(entries) ==> Count() == old(Count()) + 1
    {
      if key in entries {
        return Fail(DuplicateKey(key));
      }
      entries := entries[key := value];
      assert entries.Keys == old(entries).Keys + {key};
      r := Pass;
    }

    /** The indexer's getter: the stored list, or KeyNotFoundException. */
    method Get(key: string) returns (r: Result<seq<V>>)
      ensures key in entries <==> r.Ok?
      ensures r.Ok? ==> r.value == entries[key]
      ensures r.Err? ==> r.error == KeyNotFound(key)
    {
      if key in entries {
        r := Ok(entries[key]);
      } else {
        r := Err(KeyNotFound(key));
      }
    }

    /** The indexer's setter: replaces or inserts the list for `key` only. */
    method Set(key: string, value: seq<V>)
      modifies this
      ensures entries == old(entries)[key := value]
      ensures forall k :: k in old(entries) && k != key ==> k in entries && entries[k] == old(entries)[k]
    {
      entries := entries[key := value];
    }

    method ContainsKey(key: string) returns (b: bool)
      ensures b <==> key in entries
    {
      b := key in entries;
    }

    /** `TryGetValue`: true and the stored list iff the key is present; the
        out value is null (`None`) otherwise. */
    method TryGetValue(key: string) returns (found: bool, value: Option<seq<V>>)
      ensures found <==> key in entries
      ensures found ==> value == Some(entries[key])
      ensures !found ==> value == None
    {
      if key in entries {
        found, value := true, Some(entries[key]);
      } else {
        found, value := false, None;
      }
    }

    /** `Remove(key)`: true iff the key was present; afterwards it is absent
        and every other entry is unchanged. */
    method Remove(key: string) returns (removed: bool)
      modifies this
      ensures removed <==> key in old(entries)
      ensures entries == old(entries) - {key}
      ensures removed ==> Count() == old(Count()) - 1
    {
      removed := key in entries;
      entries := entries - {key};
      if removed {
        assert old(entries).Keys == entries.Keys + {key};
      }
    }

    method Clear()
      modifies this
      ensures entries == map[]
      ensures Count() == 0
    {
      entries := map[];
    }
  }
}
