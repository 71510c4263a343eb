/** The boolean-record store: a record from key to boolean kept normalised so
    that every stored value is `true`; its key set is the set it represents. */
module RecordSet {

  /** Every stored value is `true`. */
  ghost predicate AllTrue<K(!new)>(m: map<K, bool>)
  {
    forall k | k in m :: m[k]
  }

  /** The keys listed in an array. */
  function Listed<K(!new)>(items: seq<K>): set<K>
  {
    set k | k in items
  }

  /** The record with the entries whose value is `false` dropped. */
  function WithFalseRemoved<K(!new)>(m: map<K, bool>): (r: map<K, bool>)
    ensures AllTrue(r)
    ensures forall k :: k in r <==> k in m && m[k]
  {
    map k | k in m && m[k] :: true
  }

  /** Toggling a key: a key stored as `true` is deleted, any other is stored as `true`. */
  function Toggled<K(!new)>(m: map<K, bool>, item: K): (r: map<K, bool>)
    ensures item in r <==> !(item in m && m[item])
    ensures item in r ==> r[item]
    ensures forall k | k != item :: (k in r <==> k in m) && (k in r ==> r[k] == m[k])
  {
    if item in m && m[item] then m - {item} else m[item := true]
  }

  /** The record with `item` stored as `true`. */
  function Added<K(!new)>(m: map<K, bool>, item: K): (r: map<K, bool>)
    ensures r.Keys == m.Keys + {item}
    ensures r[item]
    ensures forall k | k in m && k != item :: r[k] == m[k]
  {
    m[item := true]
  }

  /** The record with every listed key stored as `true`. */
  function AddedAll<K(!new)>(m: map<K, bool>, items: seq<K>): (r: map<K, bool>)
    ensures r.Keys == m.Keys + Listed(items)
    ensures forall k | k in items :: r[k]
    ensures forall k | k in m && k !in items :: r[k] == m[k]
  {
    m + map k | k in items :: true
  }

  /** Normalising keeps exactly the records that are already normal. */
  lemma WithFalseRemovedFixes<K(!new)>(m: map<K, bool>)
    ensures WithFalseRemoved(m) == m <==> AllTrue(m)
    ensures WithFalseRemoved(WithFalseRemoved(m)) == WithFalseRemoved(m)
  {
    if AllTrue(m) {
      assert WithFalseRemoved(m).Keys == m.Keys;
    }
    assert WithFalseRemoved(WithFalseRemoved(m)).Keys == WithFalseRemoved(m).Keys;
  }

  /** The store's operations keep a normal record normal. */
  lemma OperationsKeepAllTrue<K(!new)>(m: map<K, bool>, item: K, items: seq<K>)
    requires AllTrue(m)
    ensures AllTrue(Toggled(m, item))
    ensures AllTrue(Added(m, item))
    ensures AllTrue(AddedAll(m, items))
    ensures AllTrue(m - {item})
    ensures AllTrue(m - Listed(items))
  {
  }

  /** On a normal record, toggling the same key twice gives back the record. */
  lemma ToggleTwiceRestores<K(!new)>(m: map<K, bool>, item: K)
    requires AllTrue(m)
    ensures Toggled(Toggled(m, item), item) == m
  {
    var t := Toggled(Toggled(m, item), item);
    assert t.Keys == m.Keys;
    assert forall k | k in m :: t[k] == m[k];
  }

  /** Adding or deleting one key is adding or deleting a one-element list. */
  lemma SingleKeyCases<K(!new)>(m: map<K, bool>, item: K)
    ensures Added(m, item) == AddedAll(m, [item])
    ensures m - {item} == m - Listed([item])
  {
    assert Added(m, item).Keys == AddedAll(m, [item]).Keys;
    assert Listed([item]) == {item};
  }

  /** Adding a key twice is adding it once. */
  lemma AddIdempotent<K(!new)>(m: map<K, bool>, items: seq<K>)
    ensures AddedAll(AddedAll(m, items), items) == AddedAll(m, items)
  {
    assert AddedAll(AddedAll(m, items), items).Keys == AddedAll(m, items).Keys;
  }

  /** The store: a writable cell holding a normalised record. */
  class RecordSetStore<K(==,!new)> {
    var record: map<K, bool>

    ghost predicate Valid()
      reads this
    {
      AllTrue(record)
    }

    /** The set the store represents. */
    function Members(): set<K>
      reads this
    {
      record.Keys
    }

    constructor (initial: map<K, bool>)
      ensures Valid()
      ensures record == WithFalseRemoved(initial)
    {
      record := WithFalseRemoved(initial);
    }

    method Toggle(item: K)
      requires Valid()
      modifies this
      ensures Valid()
      ensures record == Toggled(old(record), item)
      ensures Members() == if item in old(Members()) then old(Members()) - {item} else old(Members()) + {item}
    {
      if item in record && record[item] {
        record := record - {item};
      } else {
        record := record[item := true];
      }
    }

    method Add(item: K)
      requires Valid()
      modifies this
      ensures Valid()
      ensures record == Added(old(record), item)
      ensures Members() == old(Members()) + {item}
    {
      record := Added(record, item);
    }

    method AddAll(items: seq<K>)
      requires Valid()
      modifies this
      ensures Valid()
      ensures record == AddedAll(old(record), items)
      ensures Members() == old(Members()) + Listed(items)
    {
      record := AddedAll(record, items);
    }

    method Remove(item: K)
      requires Valid()
      modifies this
      ensures Valid()
      ensures record == old(record) - {item}
      ensures Members() == old(Members()) - {item}
    {
      record := record - {item};
    }

    /** Deletes the listed keys one at a time. */
    method RemoveAll(items: seq<K>)
      requires Valid()
      modifies this
      ensures Valid()
      ensures record == old(record) - Listed(items)
      ensures Members() == old(Members()) - Listed(items)
    {
      for i := 0 to |items|
        invariant record == old(record) - Listed(items[..i])
      {
        assert Listed(items[..i + 1]) == Listed(items[..i]) + {items[i]};
        record := record - {items[i]};
      }
      assert items[..|items|] == items;
    }

    method Clear()
      modifies this
      ensures Valid()
      ensures record == map[]
    {
      record := map[];
    }

    /** The store's `set`: the new record is normalised before it is stored. */
    method Set(v: map<K, bool>)
      modifies this
      ensures Valid()
      ensures record == WithFalseRemoved(v)
    {
      record := WithFalseRemoved(v);
    }

    /** The store's `update`: the updater's result is normalised before it is stored. */
    method Update(f: map<K, bool> -> map<K, bool>)
      modifies this
      ensures Valid()
      ensures record == WithFalseRemoved(f(old(record)))
    {
      record := WithFalseRemoved(f(record));
    }
  }
}
