/**
 * The keyed, insertion-ordered collection that the cart keeps in the session
 * (a Laravel collection over a PHP array). Only the operations the cart uses
 * are modelled: has, get, put, forget, count and the values in order.
 */
module Collections {

  /** Array keys; integer ids are modelled by their decimal spelling. */
  type Key = string

  ghost predicate Distinct(s: seq<Key>) {
    forall i, j :: 0 <= i < j < |s| ==> s[i] != s[j]
  }

  /** Position of k in s. */
  function IndexOf(s: seq<Key>, k: Key): (i: nat)
    requires k in s
    ensures i < |s| && s[i] == k
    ensures forall j :: 0 <= j < i ==> s[j] != k
  {
    if s[0] == k then 0 else 1 + IndexOf(s[1..], k)
  }

  /**
   * A PHP array: `keys` is the insertion order, `entries` the stored values.
   */
  datatype Collection<V> = Collection(keys: seq<Key>, entries: map<Key, V>)
  {
    ghost predicate Valid() {
      Distinct(keys) && (forall k :: k in entries <==> k in keys)
    }

    /** The stored values in insertion order (`all()`, `foreach`). */
    function Values(): (vs: seq<V>)
      requires Valid()
      ensures |vs| == |keys|
      ensures forall i :: 0 <= i < |keys| ==> vs[i] == entries[keys[i]]
    {
      seq(|keys|, i requires 0 <= i < |keys| => entries[keys[i]])
    }

    /** Number of entries (`count()`): one per distinct key. */
    function Count(): (n: nat)
      requires Valid()
      ensures n == |entries|
    {
      DistinctSize(keys);
      assert entries.Keys == set k | k in keys;
      |keys|
    }

    /**
     * `put(k, v)`: assignment to `$array[k]`. An existing key keeps its
     * position and gets the new value; a new key is appended.
     */
    function Put(k: Key, v: V): (c: Collection<V>)
      requires Valid()
      ensures c.Valid()
      ensures c.entries == entries[k := v]
      ensures c.keys == if k in entries then keys else keys + [k]
    {
      if k in entries then Collection(keys, entries[k := v])
      else Collection(keys + [k], entries[k := v])
    }

    /**
     * `forget(k)`: `unset($array[k])`. The other keys keep their order; an
     * absent key leaves the collection as it is.
     */
    function Forget(k: Key): (c: Collection<V>)
      requires Valid()
      ensures c.Valid()
      ensures c.entries == entries - {k}
      ensures k in entries ==> c.keys == keys[..IndexOf(keys, k)] + keys[IndexOf(keys, k) + 1..]
      ensures k !in entries ==> c == this
    {
      if k in entries then
        var i := IndexOf(keys, k);
        SpliceValid(this, i);
        Collection(keys[..i] + keys[i + 1..], entries - {k})
      else
        this
    }
  }

  /** Taking the key at position i out of both parts keeps a collection well formed. */
  lemma SpliceValid<V>(c: Collection<V>, i: nat)
    requires c.Valid() && i < |c.keys|
    ensures Collection(c.keys[..i] + c.keys[i + 1..], c.entries - {c.keys[i]}).Valid()
  {
    var rest, left := c.keys[..i] + c.keys[i + 1..], c.entries - {c.keys[i]};
    SpliceOut(c.keys, i);
    forall x
      ensures x in left <==> x in rest
    {
      assert x in c.entries <==> x in c.keys;
    }
  }

  /** The empty collection `collect()`. */
  function Empty<V>(): (c: Collection<V>)
    ensures c.Valid() && c.keys == [] && c.entries == map[]
  {
    Collection([], map[])
  }

  /** Forgetting a key that was just put as a new key restores the collection. */
  lemma ForgetUndoesPut<V>(c: Collection<V>, k: Key, v: V)
    requires c.Valid() && k !in c.entries
    ensures c.Put(k, v).Forget(k) == c
  {
    var d := c.Put(k, v);
    assert k !in c.keys;
    assert IndexOf(d.keys, k) == |c.keys| by { assert d.keys[..|c.keys|] == c.keys; }
    assert d.keys[..|c.keys|] == c.keys;
    assert d.entries - {k} == c.entries;
  }

  /** Putting a new key adds one to the count; overwriting leaves it. */
  lemma PutCount<V>(c: Collection<V>, k: Key, v: V)
    requires c.Valid()
    ensures c.Put(k, v).Count() == if k in c.entries then c.Count() else c.Count() + 1
  {
  }

  /** Forgetting a present key takes one from the count; an absent one leaves it. */
  lemma ForgetCount<V>(c: Collection<V>, k: Key)
    requires c.Valid()
    ensures c.Forget(k).Count() == if k in c.entries then c.Count() - 1 else c.Count()
  {
  }

  /** A sequence without repetitions has as many elements as its set. */
  lemma {:induction false} DistinctSize(s: seq<Key>)
    requires Distinct(s)
    ensures |set x | x in s| == |s|
  {
    if s != [] {
      var t := s[..|s| - 1];
      var last := s[|s| - 1];
      assert Distinct(t);
      DistinctSize(t);
      assert (set x | x in s) == (set x | x in t) + {last} by {
        forall x
          ensures x in s <==> x in t || x == last
        {
          if x in s {
            var j :| 0 <= j < |s| && s[j] == x;
            if j < |s| - 1 { assert t[j] == x; }
          }
        }
      }
      assert last !in t;
    }
  }

  /** Removing the element at position i keeps the others, distinct and in order. */
  lemma SpliceOut(s: seq<Key>, i: nat)
    requires Distinct(s) && i < |s|
    ensures Distinct(s[..i] + s[i + 1..])
    ensures forall x :: x in s[..i] + s[i + 1..] <==> x in s && x != s[i]
  {
    var rest := s[..i] + s[i + 1..];
    assert forall j :: 0 <= j < |rest| ==> rest[j] == s[if j < i then j else j + 1];
    forall x | x in s && x != s[i]
      ensures x in rest
    {
      var j :| 0 <= j < |s| && s[j] == x;
      assert rest[if j < i then j else j - 1] == x;
    }
  }
}
