/** `Array.prototype.filter` and the stable `Array.prototype.sort` with a
    numeric comparator, as functions on sequences. */
module Seqs {

  /** `r` is an order-preserving sub-sequence of `s`. */
  ghost predicate IsSubsequence<T>(r: seq<T>, s: seq<T>)
    decreases |s|
  {
    if r == [] then true
    else if s == [] then false
    else (r[0] == s[0] && IsSubsequence(r[1..], s[1..])) || IsSubsequence(r, s[1..])
  }

  /** `s.filter(p)`: the elements of `s` satisfying `p`, in order, each as often as in `s`. */
  function Keep<T(!new)>(s: seq<T>, p: T -> bool): (r: seq<T>)
    ensures |r| <= |s|
    ensures IsSubsequence(r, s)
    ensures forall i :: 0 <= i < |r| ==> p(r[i])
    ensures forall x :: multiset(r)[x] == if p(x) then multiset(s)[x] else 0
  {
    if s == [] then []
    else
      var rest := Keep(s[1..], p);
      assert s == [s[0]] + s[1..];
      if p(s[0]) then
        assert ([s[0]] + rest)[1..] == rest;
        [s[0]] + rest
      else
        rest
  }

  /** One step of the filter: the head is kept exactly when it satisfies `p`. */
  lemma KeepCons<T(!new)>(a: T, s: seq<T>, p: T -> bool)
    ensures Keep([a] + s, p) == (if p(a) then [a] else []) + Keep(s, p)
  {
    assert ([a] + s)[0] == a;
    assert ([a] + s)[1..] == s;
  }

  /** Filtering with a predicate every element satisfies changes nothing. */
  lemma {:induction false} KeepAll<T(!new)>(s: seq<T>, p: T -> bool)
    requires forall i :: 0 <= i < |s| ==> p(s[i])
    ensures Keep(s, p) == s
  {
    if s != [] {
      KeepAll(s[1..], p);
    }
  }

  /** Filters by predicates that agree on every element give the same result. */
  lemma {:induction false} KeepSame<T(!new)>(s: seq<T>, p: T -> bool, q: T -> bool)
    requires forall i :: 0 <= i < |s| ==> p(s[i]) == q(s[i])
    ensures Keep(s, p) == Keep(s, q)
  {
    if s != [] {
      KeepSame(s[1..], p, q);
    }
  }

  /** Two filters in a row are one filter by the conjunction. */
  lemma {:induction false} KeepKeep<T(!new)>(s: seq<T>, p: T -> bool, q: T -> bool, pq: T -> bool)
    requires forall x :: pq(x) == (p(x) && q(x))
    ensures Keep(Keep(s, p), q) == Keep(s, pq)
  {
    if s != [] {
      KeepKeep(s[1..], p, q, pq);
    }
  }

  /** Filtering distributes over concatenation. */
  lemma {:induction false} KeepAppend<T(!new)>(a: seq<T>, b: seq<T>, p: T -> bool)
    ensures Keep(a + b, p) == Keep(a, p) + Keep(b, p)
  {
    if a == [] {
      assert a + b == b;
    } else {
      assert (a + b)[1..] == a[1..] + b;
      KeepAppend(a[1..], b, p);
    }
  }

  /** Every element of a sub-sequence occurs in the sequence. */
  lemma {:induction false} SubsequenceMembers<T>(r: seq<T>, s: seq<T>)
    requires IsSubsequence(r, s)
    ensures forall i :: 0 <= i < |r| ==> r[i] in s
    decreases |s|
  {
    if r != [] {
      if r[0] == s[0] && IsSubsequence(r[1..], s[1..]) {
        SubsequenceMembers(r[1..], s[1..]);
        forall i | 0 < i < |r| ensures r[i] in s {
          assert r[i] == r[1..][i - 1];
        }
      } else {
        SubsequenceMembers(r, s[1..]);
      }
    }
  }

  /** Positions `i < j` of a sub-sequence come from positions `m < n` of the sequence. */
  lemma {:induction false} SubsequencePositions<T>(r: seq<T>, s: seq<T>, i: int, j: int) returns (m: int, n: int)
    requires IsSubsequence(r, s) && 0 <= i < j < |r|
    ensures 0 <= m < n < |s| && s[m] == r[i] && s[n] == r[j]
    decreases |s|
  {
    if r[0] == s[0] && IsSubsequence(r[1..], s[1..]) {
      if i == 0 {
        SubsequenceMembers(r[1..], s[1..]);
        assert r[1..][j - 1] == r[j];
        var k :| 0 <= k < |s[1..]| && s[1..][k] == r[j];
        m, n := 0, k + 1;
      } else {
        m, n := SubsequencePositions(r[1..], s[1..], i - 1, j - 1);
        m, n := m + 1, n + 1;
      }
    } else {
      m, n := SubsequencePositions(r, s[1..], i, j);
      m, n := m + 1, n + 1;
    }
  }

  /** Two elements of a sub-sequence come from two positions of the sequence, in the same order. */
  lemma SubsequenceOrder<T>(r: seq<T>, s: seq<T>)
    requires IsSubsequence(r, s)
    ensures forall i, j :: 0 <= i < j < |r| ==>
              exists m, n :: 0 <= m < n < |s| && s[m] == r[i] && s[n] == r[j]
  {
    forall i, j | 0 <= i < j < |r|
      ensures exists m, n :: 0 <= m < n < |s| && s[m] == r[i] && s[n] == r[j]
    {
      var m, n := SubsequencePositions(r, s, i, j);
    }
  }

  /** `s` is ordered by `key`, smallest first. */
  ghost predicate SortedBy<T>(s: seq<T>, key: T -> int) {
    forall i, j :: 0 <= i < j < |s| ==> key(s[i]) <= key(s[j])
  }

  /** Insert `x` in front of the first element whose key is not smaller. */
  function Insert<T(!new)>(x: T, t: seq<T>, key: T -> int): (r: seq<T>)
    ensures multiset(r) == multiset(t) + multiset{x}
    ensures SortedBy(t, key) ==> SortedBy(r, key)
  {
    if t == [] then [x]
    else if key(x) <= key(t[0]) then [x] + t
    else
      var rest := Insert(x, t[1..], key);
      assert t == [t[0]] + t[1..];
      InsertStep(x, t, rest, key);
      [t[0]] + rest
  }

  /** The recursive case of Insert: putting back the smaller head keeps the order. */
  lemma InsertStep<T>(x: T, t: seq<T>, rest: seq<T>, key: T -> int)
    requires t != [] && key(t[0]) < key(x)
    requires multiset(rest) == multiset(t[1..]) + multiset{x}
    requires SortedBy(t[1..], key) ==> SortedBy(rest, key)
    ensures SortedBy(t, key) ==> SortedBy([t[0]] + rest, key)
  {
    if SortedBy(t, key) {
      assert SortedBy(t[1..], key);
      var r := [t[0]] + rest;
      forall j | 0 <= j < |rest| ensures key(t[0]) <= key(rest[j]) {
        assert rest[j] in multiset(rest);
        if rest[j] != x {
          assert rest[j] in multiset(t[1..]);
          var m :| 0 <= m < |t[1..]| && t[1..][m] == rest[j];
          assert t[m + 1] == rest[j];
        }
      }
      forall i, j | 0 <= i < j < |r| ensures key(r[i]) <= key(r[j]) {
        if i > 0 {
          assert r[i] == rest[i - 1] && r[j] == rest[j - 1];
        } else {
          assert r[j] == rest[j - 1];
        }
      }
    }
  }

  /** A stable sort by an integer key, ascending: `s.sort((a, b) => key(a) - key(b))`. */
  function SortBy<T(!new)>(s: seq<T>, key: T -> int): (r: seq<T>)
    ensures multiset(r) == multiset(s)
    ensures SortedBy(r, key)
  {
    if s == [] then []
    else
      assert s == [s[0]] + s[1..];
      Insert(s[0], SortBy(s[1..], key), key)
  }

  /** The predicate "has key `k`". */
  function KeyIs<T>(key: T -> int, k: int): T -> bool {
    x => key(x) == k
  }

  /** Inserting `x` adds it in front of the elements with its own key, and
      leaves the relative order of every key class untouched. */
  lemma {:induction false} InsertKeepsKeyClasses<T(!new)>(x: T, t: seq<T>, key: T -> int, k: int)
    ensures Keep(Insert(x, t, key), KeyIs(key, k))
         == (if key(x) == k then [x] else []) + Keep(t, KeyIs(key, k))
  {
    var p := KeyIs(key, k);
    if t == [] || key(x) <= key(t[0]) {
      InsertAtFront(x, t, key, k);
    } else {
      var rest := Insert(x, t[1..], key);
      assert Insert(x, t, key) == [t[0]] + rest;
      InsertKeepsKeyClasses(x, t[1..], key, k);
      assert t == [t[0]] + t[1..];
      KeepCons(t[0], t[1..], p);
      KeepCons(t[0], rest, p);
      PassSmallerHead(x, t[0], Keep(rest, p), Keep(t[1..], p), key, k);
    }
  }

  /** The base cases of InsertKeepsKeyClasses: `x` goes in front. */
  lemma InsertAtFront<T(!new)>(x: T, t: seq<T>, key: T -> int, k: int)
    requires t == [] || key(x) <= key(t[0])
    ensures Keep(Insert(x, t, key), KeyIs(key, k))
         == (if key(x) == k then [x] else []) + Keep(t, KeyIs(key, k))
  {
    assert Insert(x, t, key) == [x] + t;
    KeepCons(x, t, KeyIs(key, k));
  }

  /** Bookkeeping for the recursive case of InsertKeepsKeyClasses: a head whose
      key is below `x`'s cannot share a key with `x`. */
  lemma PassSmallerHead<T>(x: T, h: T, kr: seq<T>, kt: seq<T>, key: T -> int, k: int)
    requires key(h) < key(x)
    requires kr == (if key(x) == k then [x] else []) + kt
    ensures (if key(h) == k then [h] else []) + kr
         == (if key(x) == k then [x] else []) + ((if key(h) == k then [h] else []) + kt)
  {
  }

  /** The sort is stable: the elements sharing any one key come out in the order they went in. */
  lemma {:induction false} SortIsStable<T(!new)>(s: seq<T>, key: T -> int, k: int)
    ensures Keep(SortBy(s, key), KeyIs(key, k)) == Keep(s, KeyIs(key, k))
  {
    if s != [] {
      SortIsStable(s[1..], key, k);
      InsertKeepsKeyClasses(s[0], SortBy(s[1..], key), key, k);
      assert s == [s[0]] + s[1..];
    }
  }

  /** Stability stated with any predicate that picks out one key class. */
  lemma SortKeepsClassOrder<T(!new)>(s: seq<T>, key: T -> int, k: int, q: T -> bool)
    requires forall x :: q(x) == (key(x) == k)
    ensures Keep(SortBy(s, key), q) == Keep(s, q)
  {
    var r := SortBy(s, key);
    SortIsStable(s, key, k);
    KeepSame(r, KeyIs(key, k), q);
    KeepSame(s, KeyIs(key, k), q);
  }
}
