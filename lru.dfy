/** The balance cache: golang-lru's `Cache` created with room for 100
    entries and keyed by the raw parameter string. Only its contents are
    modelled; which entry the replacement policy picks is left open. */
module Lru {
  import opened Wrappers

  const CAPACITY: nat := 100

  /** One cached balance under the raw string it was looked up with. */
  datatype Entry = Entry(key: string, balance: nat)

  ghost predicate Bounded(m: map<string, nat>)
  {
    |m| <= CAPACITY
  }

  /** `after` is `before` once `Add(key, value)` has run: `key` maps to
      `value`, no other entry changes, and one other entry is evicted
      exactly when `key` is new and the cache is already full. */
  ghost predicate Stored(before: map<string, nat>, after: map<string, nat>, key: string, value: nat)
  {
    && key in after && after[key] == value
    && (forall k :: k in after && k != key ==> k in before && after[k] == before[k])
    && (key in before || |before| < CAPACITY ==> after.Keys == before.Keys + {key})
    && (key !in before && |before| >= CAPACITY ==>
          exists victim :: victim in before && after.Keys == before.Keys - {victim} + {key})
  }

  /** The cache's contents after a flow: `store` is the one `Add` the flow made, if any. */
  ghost predicate Applied(before: map<string, nat>, after: map<string, nat>, store: Option<Entry>)
  {
    match store
    case None => after == before
    case Some(e) => Stored(before, after, e.key, e.balance)
  }

  /** Storing never lets the cache outgrow its capacity. */
  lemma StoredBounded(before: map<string, nat>, after: map<string, nat>, key: string, value: nat)
    requires Bounded(before) && Stored(before, after, key, value)
    ensures Bounded(after)
  {
  }

  /** Once stored, a key is found with the stored value; a key that was
      absent and is not the one stored stays absent. */
  lemma StoredLookup(before: map<string, nat>, after: map<string, nat>, key: string, value: nat, other: string)
    requires Stored(before, after, key, value)
    ensures key in after && after[key] == value
    ensures other != key && other !in before ==> other !in after
  {
  }

  class Cache {
    var entries: map<string, nat>

    ghost predicate Valid()
      reads this
    {
      Bounded(entries)
    }

    /** lru.New(100): an empty cache. */
    constructor ()
      ensures Valid() && entries == map[]
    {
      entries := map[];
    }

    /** cache.Get: a hit returns the stored balance, a miss reports absence;
        no entry changes. */
    method Get(key: string) returns (v: Option<nat>)
      ensures v.Some? <==> key in entries
      ensures v.Some? ==> v.value == entries[key]
    {
      v := if key in entries then Some(entries[key]) else None;
    }

    /** cache.Add: insert or overwrite, evicting one other entry when full. */
    method Add(key: string, value: nat)
      requires Valid()
      modifies this
      ensures Valid()
      ensures Stored(old(entries), entries, key, value)
    {
      ghost var before := entries;
      if key !in entries && |entries| >= CAPACITY {
        assert |entries.Keys| > 0;
        var victim :| victim in entries.Keys;
        entries := entries - {victim};
        assert entries.Keys == before.Keys - {victim};
        entries := entries[key := value];
        assert entries.Keys == before.Keys - {victim} + {key};
      } else {
        entries := entries[key := value];
      }
      StoredBounded(before, entries, key, value);
    }
  }
}
