/** The set-like store: an ordered collection held as an array, where adding an
    element already present does nothing. Elements are compared with `==`. */
module ArraySet {
  import opened Sequences

  /** The array without its first element equal to `item`; unchanged when there is none. */
  function Removed<T(==)>(s: seq<T>, item: T): (r: seq<T>)
    ensures item !in s ==> r == s
    ensures item in s ==> |r| == |s| - 1 && multiset(r) == multiset(s) - multiset{item}
    ensures item in s ==> exists i | 0 <= i < |s| && s[i] == item && item !in s[..i] ::
      r == s[..i] + s[i + 1..]
  {
    var i := IndexOf(s, item);
    if i == -1 then s
    else
      assert s == s[..i] + [s[i]] + s[i + 1..];
      s[..i] + s[i + 1..]
  }

  /** The array with `item` appended, unless it is already present. */
  function Added<T(==)>(s: seq<T>, item: T): (r: seq<T>)
    ensures item in s ==> r == s
    ensures item !in s ==> r == s + [item]
    ensures item in r
  {
    if IndexOf(s, item) == -1 then s + [item] else s
  }

  /** Toggling `item`: present items are removed, absent ones appended; with
      `clearOthers` the result holds at most `item` itself. */
  function Toggled<T(==)>(s: seq<T>, item: T, clearOthers: bool): (r: seq<T>)
    ensures item !in s && clearOthers ==> r == [item]
    ensures item !in s && !clearOthers ==> r == s + [item]
    ensures item in s && clearOthers ==> r == []
    ensures item in s && !clearOthers ==> r == Removed(s, item)
  {
    var index := IndexOf(s, item);
    if index == -1 then
      if clearOthers then [item] else s + [item]
    else if clearOthers then []
    else Removed(s, item)
  }

  /** Cutting one position out of an array without duplicates leaves an array
      without duplicates holding every other element. */
  lemma CutMembers<T>(s: seq<T>, i: int)
    requires NoDuplicates(s) && 0 <= i < |s|
    ensures NoDuplicates(s[..i] + s[i + 1..])
    ensures forall x :: x in s[..i] + s[i + 1..] <==> x in s && x != s[i]
  {
    var r := s[..i] + s[i + 1..];
    assert forall j | 0 <= j < |r| :: r[j] == s[if j < i then j else j + 1];
    forall x | x in s && x != s[i] ensures x in r {
      var k :| 0 <= k < |s| && s[k] == x;
      assert r[if k < i then k else k - 1] == x;
    }
  }

  /** Removing from an array without duplicates removes exactly that element. */
  lemma RemovedMembers<T>(s: seq<T>, item: T)
    requires NoDuplicates(s)
    ensures NoDuplicates(Removed(s, item))
    ensures forall x :: x in Removed(s, item) <==> x in s && x != item
  {
    if item in s {
      var i :| 0 <= i < |s| && s[i] == item && item !in s[..i] && Removed(s, item) == s[..i] + s[i + 1..];
      CutMembers(s, i);
    }
  }

  /** Adding keeps an array without duplicates free of them, and adding twice is adding once. */
  lemma AddedKeepsDistinct<T>(s: seq<T>, item: T)
    requires NoDuplicates(s)
    ensures NoDuplicates(Added(s, item))
    ensures Added(Added(s, item), item) == Added(s, item)
  {
  }

  /** Toggling keeps an array without duplicates free of them and flips the
      membership of `item` alone. */
  lemma ToggledMembers<T>(s: seq<T>, item: T, clearOthers: bool)
    requires NoDuplicates(s)
    ensures NoDuplicates(Toggled(s, item, clearOthers))
    ensures item in Toggled(s, item, clearOthers) <==> item !in s
    ensures !clearOthers ==> forall x | x != item :: x in Toggled(s, item, clearOthers) <==> x in s
    ensures clearOthers ==> forall x | x != item :: x !in Toggled(s, item, clearOthers)
  {
    if item in s && !clearOthers {
      RemovedMembers(s, item);
    }
  }

  /** Toggling an absent element twice gives back the array. */
  lemma ToggleTwiceRestores<T>(s: seq<T>, item: T)
    requires item !in s
    ensures Toggled(Toggled(s, item, false), item, false) == s
  {
    var t := s + [item];
    assert t[|s|] == item && t[..|s|] == s;
  }

  /** The store: a writable cell holding the array, replaced by each method. */
  class ArraySetStore<T(==)> {
    var value: seq<T>

    constructor (initial: seq<T>)
      ensures value == initial
    {
      value := initial;
    }

    method Toggle(item: T, clearOthers: bool)
      modifies this
      ensures value == Toggled(old(value), item, clearOthers)
    {
      value := Toggled(value, item, clearOthers);
    }

    method Add(item: T)
      modifies this
      ensures value == Added(old(value), item)
    {
      value := Added(value, item);
    }

    method Remove(item: T)
      modifies this
      ensures value == Removed(old(value), item)
    {
      value := Removed(value, item);
    }

    method Clear()
      modifies this
      ensures value == []
    {
      value := [];
    }

    /** The writable's own `set`: no removal of duplicates. */
    method Set(v: seq<T>)
      modifies this
      ensures value == v
    {
      value := v;
    }

    /** The writable's own `update`. */
    method Update(f: seq<T> -> seq<T>)
      modifies this
      ensures value == f(old(value))
    {
      value := f(value);
    }
  }
}
