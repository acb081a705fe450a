/** `orderBy: { created_at: 'desc' }`: listing records newest first. */
module Ordering {

  ghost predicate NewestFirstBy<T>(s: seq<T>, key: T -> int)
  {
    forall i, j :: 0 <= i < j < |s| ==> key(s[i]) >= key(s[j])
  }

  /** A record no older than any of a newest-first list may head it. */
  lemma PrependKeepsOrder<T>(h: T, s: seq<T>, key: T -> int)
    requires NewestFirstBy(s, key)
    requires forall k :: 0 <= k < |s| ==> key(h) >= key(s[k])
    ensures NewestFirstBy([h] + s, key)
  {
    var r := [h] + s;
    forall i, j | 0 <= i < j < |r| ensures key(r[i]) >= key(r[j]) {
      assert r[j] == s[j - 1];
      if i > 0 { assert r[i] == s[i - 1]; }
    }
  }

  /** The head of a newest-first list still heads it once a younger
      record is inserted behind it. */
  lemma InsertedBelow<T>(h: T, x: T, s: seq<T>, rest: seq<T>, key: T -> int)
    requires NewestFirstBy([h] + s, key) && key(h) > key(x)
    requires NewestFirstBy(rest, key) && multiset(rest) == multiset(s) + multiset{x}
    ensures NewestFirstBy([h] + rest, key)
  {
    forall k | 0 <= k < |rest| ensures key(h) >= key(rest[k]) {
      assert rest[k] in multiset(rest);
      if rest[k] != x {
        assert rest[k] in multiset(s);
        var j :| 0 <= j < |s| && s[j] == rest[k];
        var hs := [h] + s;
        assert hs[0] == h && hs[j + 1] == s[j];
        assert key(hs[0]) >= key(hs[j + 1]);
      }
    }
    PrependKeepsOrder(h, rest, key);
  }

  /** Insert one record into a list already ordered newest first. */
  function InsertByKey<T>(x: T, s: seq<T>, key: T -> int): (r: seq<T>)
    requires NewestFirstBy(s, key)
    ensures NewestFirstBy(r, key)
    ensures multiset(r) == multiset(s) + multiset{x}
    ensures |r| == |s| + 1
  {
    if s == [] then [x]
    else if key(x) >= key(s[0]) then
      PrependKeepsOrder(x, s, key);
      [x] + s
    else
      var rest := InsertByKey(x, s[1..], key);
      assert s == [s[0]] + s[1..];
      InsertedBelow(s[0], x, s[1..], rest, key);
      [s[0]] + rest
  }

  /** The records ordered by key, largest (newest) first: a permutation of
      the input. */
  function NewestFirst<T>(s: seq<T>, key: T -> int): (r: seq<T>)
    ensures NewestFirstBy(r, key)
    ensures multiset(r) == multiset(s)
    ensures |r| == |s|
  {
    if s == [] then []
    else
      assert s == [s[0]] + s[1..];
      InsertByKey(s[0], NewestFirst(s[1..], key), key)
  }

  /** Listing keeps exactly the records of the table: a record is listed
      exactly when it is stored. */
  lemma NewestFirstSameRecords<T>(s: seq<T>, key: T -> int, x: T)
    ensures x in NewestFirst(s, key) <==> x in s
  {
    var r := NewestFirst(s, key);
    assert x in r <==> x in multiset(r);
    assert x in s <==> x in multiset(s);
  }
}
