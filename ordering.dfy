/**
 * Default query ordering (a model's `Meta.ordering`). Every table of the store
 * is kept as the sequence its default query returns: sorted by a key, with
 * distinct primary keys. Rows whose keys tie are kept in insertion order; the
 * ordering itself leaves that to the database, so it is this model's choice.
 */
module Ordering {

  /** The keys never decrease along `s`. */
  predicate SortedByKey<T>(s: seq<T>, key: T -> int)
  {
    forall i, j :: 0 <= i < j < |s| ==> key(s[i]) <= key(s[j])
  }

  /** No two rows of `s` share a primary key. */
  predicate DistinctBy<T>(s: seq<T>, pk: T -> nat)
  {
    forall i, j :: 0 <= i < j < |s| ==> pk(s[i]) != pk(s[j])
  }

  /** The primary keys present in `s`. */
  function Pks<T(==)>(s: seq<T>, pk: T -> nat): set<nat>
  {
    set x | x in s :: pk(x)
  }

  /** Where `x` goes: after every row whose key is at most `key(x)`. */
  function InsertionPoint<T>(s: seq<T>, x: T, key: T -> int): (k: nat)
    ensures k <= |s|
    ensures forall i :: 0 <= i < k ==> key(s[i]) <= key(x)
    ensures k < |s| ==> key(x) < key(s[k])
  {
    if s == [] || key(x) < key(s[0]) then 0
    else 1 + InsertionPoint(s[1..], x, key)
  }

  /** The table after a new row is added under the default ordering. */
  function InsertByKey<T>(s: seq<T>, x: T, key: T -> int): seq<T>
  {
    if s == [] || key(x) < key(s[0]) then [x] + s
    else [s[0]] + InsertByKey(s[1..], x, key)
  }

  /** The new row is placed at its insertion point; the old rows keep their order. */
  lemma {:induction false} InsertByKeySplits<T>(s: seq<T>, x: T, key: T -> int)
    ensures var k := InsertionPoint(s, x, key);
            InsertByKey(s, x, key) == s[..k] + [x] + s[k..]
  {
    if s == [] || key(x) < key(s[0]) {
    } else {
      InsertByKeySplits(s[1..], x, key);
      var k := InsertionPoint(s[1..], x, key);
      assert s[1..][..k] == s[1..k + 1];
      assert s[1..][k..] == s[k + 1..];
      assert s[..k + 1] == [s[0]] + s[1..k + 1];
    }
  }

  /** Inserting adds exactly one row and loses none. */
  lemma InsertByKeyPermutes<T>(s: seq<T>, x: T, key: T -> int)
    ensures multiset(InsertByKey(s, x, key)) == multiset(s) + multiset{x}
    ensures forall y :: y in InsertByKey(s, x, key) <==> y in s || y == x
  {
    InsertByKeySplits(s, x, key);
    var k := InsertionPoint(s, x, key);
    assert s == s[..k] + s[k..];
  }

  /** Inserting into a sorted table leaves it sorted. */
  lemma InsertByKeySorted<T>(s: seq<T>, x: T, key: T -> int)
    requires SortedByKey(s, key)
    ensures SortedByKey(InsertByKey(s, x, key), key)
  {
    InsertByKeySplits(s, x, key);
    var k := InsertionPoint(s, x, key);
    var r := InsertByKey(s, x, key);
    forall i, j | 0 <= i < j < |r| ensures key(r[i]) <= key(r[j]) {
      if i < k && j < k {
      } else if i < k {
        assert key(s[i]) <= key(x);
        if j > k { assert r[j] == s[j - 1]; assert key(x) < key(s[k]) <= key(s[j - 1]); }
      } else if i == k {
        assert r[j] == s[j - 1];
        assert key(x) < key(s[k]) <= key(s[j - 1]);
      } else {
        assert r[i] == s[i - 1] && r[j] == s[j - 1];
      }
    }
  }

  /** Inserting a row adds its primary key to the keys present. */
  lemma InsertByKeyPks<T>(s: seq<T>, x: T, key: T -> int, pk: T -> nat)
    ensures Pks(InsertByKey(s, x, key), pk) == Pks(s, pk) + {pk(x)}
  {
    InsertByKeyPermutes(s, x, key);
    var r := InsertByKey(s, x, key);
    forall p | p in Pks(r, pk) ensures p in Pks(s, pk) + {pk(x)} {
      var y :| y in r && pk(y) == p;
      assert y in s || y == x;
    }
    forall p | p in Pks(s, pk) + {pk(x)} ensures p in Pks(r, pk) {
      if p != pk(x) {
        var y :| y in s && pk(y) == p;
        assert y in r;
      } else {
        assert x in r;
      }
    }
  }

  /** A row with a fresh primary key keeps the keys distinct. */
  lemma InsertByKeyDistinct<T>(s: seq<T>, x: T, key: T -> int, pk: T -> nat)
    requires DistinctBy(s, pk)
    requires pk(x) !in Pks(s, pk)
    ensures DistinctBy(InsertByKey(s, x, key), pk)
  {
    InsertByKeySplits(s, x, key);
    var k := InsertionPoint(s, x, key);
    var r := InsertByKey(s, x, key);
    assert forall i :: 0 <= i < |s| ==> pk(s[i]) in Pks(s, pk);
    assert forall i :: 0 <= i < k ==> r[i] == s[i];
    assert r[k] == x;
    assert forall i :: k < i < |r| ==> r[i] == s[i - 1];
    forall i, j | 0 <= i < j < |r| ensures pk(r[i]) != pk(r[j]) {
      if j < k {
      } else if i < k && j == k {
      } else if i < k {
        assert pk(s[i]) != pk(s[j - 1]);
      } else if i == k {
      } else {
        assert pk(s[i - 1]) != pk(s[j - 1]);
      }
    }
  }
}
