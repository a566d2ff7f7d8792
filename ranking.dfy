/**
 * The ordering and limiting steps of the store's queries: `sort` on one
 * or two fields, both descending, and `limit`.
 */
module Ranking {
  import opened Wrappers

  /** A sort key: the first field, then the second to break ties. */
  datatype Key = Key(major: int, minor: int)

  /** `a` may come before `b` in a descending sort. */
  predicate KeyGeq(a: Key, b: Key)
  {
    a.major > b.major || (a.major == b.major && a.minor >= b.minor)
  }

  predicate SortedDesc<T>(s: seq<T>, key: T -> Key)
  {
    forall i, j :: 0 <= i < j < |s| ==> KeyGeq(key(s[i]), key(s[j]))
  }

  /** Inserts `x` into a sequence sorted descending, before the first smaller key. */
  function Insert<T>(x: T, s: seq<T>, key: T -> Key): (r: seq<T>)
    requires SortedDesc(s, key)
    ensures SortedDesc(r, key)
    ensures multiset(r) == multiset(s) + multiset{x}
    ensures |r| == |s| + 1
  {
    if s == [] then [x]
    else if KeyGeq(key(x), key(s[0])) then [x] + s
    else
      var rest := Insert(x, s[1..], key);
      assert s == [s[0]] + s[1..];
      assert forall k :: 0 <= k < |rest| ==> KeyGeq(key(s[0]), key(rest[k])) by {
        forall k | 0 <= k < |rest|
          ensures KeyGeq(key(s[0]), key(rest[k]))
        {
          assert rest[k] in multiset(rest);
          if rest[k] != x {
            assert rest[k] in multiset(s[1..]);
            var j :| 0 <= j < |s[1..]| && s[1..][j] == rest[k];
            assert s[j + 1] == rest[k];
          }
        }
      }
      [s[0]] + rest
  }

  /**
   * The documents in descending key order: a permutation of the input in
   * which no key is followed by a greater one. Documents with equal keys
   * may come in any order, so the model fixes one.
   */
  function SortDesc<T>(s: seq<T>, key: T -> Key): (r: seq<T>)
    ensures SortedDesc(r, key)
    ensures multiset(r) == multiset(s)
    ensures |r| == |s|
  {
    if s == [] then []
    else
      assert s == [s[0]] + s[1..];
      Insert(s[0], SortDesc(s[1..], key), key)
  }

  /** A sort keeps exactly the documents it was given. */
  lemma SortedMember<T>(s: seq<T>, key: T -> Key, x: T)
    ensures x in SortDesc(s, key) <==> x in s
  {
    assert x in SortDesc(s, key) <==> x in multiset(SortDesc(s, key));
    assert x in s <==> x in multiset(s);
  }

  lemma SortedMembers<T>(s: seq<T>, key: T -> Key)
    ensures forall x :: x in SortDesc(s, key) <==> x in s
  {
    forall x ensures x in SortDesc(s, key) <==> x in s {
      SortedMember(s, key, x);
    }
  }

  /** The `limit` a model query uses when the caller gives none. */
  const DefaultQueryLimit := 10

  function LimitOrDefault(limit: Option<int>): int
  {
    if limit.Some? then limit.value else DefaultQueryLimit
  }

  /** How many of `size` documents `limit(n)` keeps. */
  function LimitedCount(n: int, size: nat): nat
  {
    if n == 0 then size else Min(if n < 0 then -n else n, size)
  }

  /**
   * `limit(n)`: `n == 0` means no limit and a negative `n` limits to `-n`
   * documents, as the store treats it.
   */
  function Limit<T>(s: seq<T>, n: int): (r: seq<T>)
    ensures n == 0 ==> r == s
    ensures n != 0 ==> |r| == if |s| <= (if n < 0 then -n else n) then |s| else (if n < 0 then -n else n)
    ensures r == s[..|r|]
    ensures |r| == LimitedCount(n, |s|)
  {
    var bound := if n < 0 then -n else n;
    if n == 0 || |s| <= bound then s else s[..bound]
  }

  /** A limited sorted result is a prefix of the whole ranking, so it is sorted too. */
  lemma LimitKeepsOrder<T>(s: seq<T>, key: T -> Key, n: int)
    requires SortedDesc(s, key)
    ensures SortedDesc(Limit(s, n), key)
  {
  }
}
