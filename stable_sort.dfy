/**
 * `Array.prototype.sort` with a comparator of the form `(a, b) => key(a) - key(b)`.
 * Since ECMAScript 2019 (ECMA-262 10th edition, section 22.1.3.27) the sort is
 * stable, so its result is determined: the elements in ascending key order, equal
 * keys in input order. Insertion sort computes exactly that; a descending order is
 * an ascending order of the negated key.
 */
module StableSort {
  import opened Seqs

  ghost predicate SortedBy<T>(s: seq<T>, key: T -> real) {
    forall i, j :: 0 <= i < j < |s| ==> key(s[i]) <= key(s[j])
  }

  /** Inserts `x` in front of the first element whose key is not below the key of `x`. */
  function Insert<T>(x: T, s: seq<T>, key: T -> real): (r: seq<T>)
    ensures |r| == |s| + 1
    ensures multiset(r) == multiset(s) + multiset{x}
  {
    if s == [] || key(x) <= key(s[0]) then [x] + s
    else
      assert s == [s[0]] + s[1..];
      [s[0]] + Insert(x, s[1..], key)
  }

  /** The stable ascending sort of `s` by `key`. */
  function Sort<T>(s: seq<T>, key: T -> real): (r: seq<T>)
    ensures |r| == |s|
    ensures multiset(r) == multiset(s)
  {
    if s == [] then []
    else
      assert s == [s[0]] + s[1..];
      Insert(s[0], Sort(s[1..], key), key)
  }

  /** The predicate "has key `v`". */
  function KeyIs<T>(key: T -> real, v: real): T -> bool {
    (x: T) => key(x) == v
  }

  lemma {:induction false} InsertSorted<T>(x: T, s: seq<T>, key: T -> real)
    requires SortedBy(s, key)
    ensures SortedBy(Insert(x, s, key), key)
  {
    if s == [] || key(x) <= key(s[0]) {
    } else {
      InsertSorted(x, s[1..], key);
      var t := Insert(x, s[1..], key);
      assert forall k :: 0 <= k < |t| ==> key(s[0]) <= key(t[k]) by {
        forall k | 0 <= k < |t| ensures key(s[0]) <= key(t[k]) {
          assert t[k] in multiset(t);
          assert t[k] == x || t[k] in multiset(s[1..]);
          if t[k] != x {
            assert t[k] in s[1..];
          }
        }
      }
    }
  }

  /** The result is in ascending key order. */
  lemma {:induction false} SortSorted<T>(s: seq<T>, key: T -> real)
    ensures SortedBy(Sort(s, key), key)
  {
    if s != [] {
      SortSorted(s[1..], key);
      InsertSorted(s[0], Sort(s[1..], key), key);
    }
  }

  /** Sorting a list that is already in order changes nothing. */
  lemma {:induction false} SortOfSorted<T>(s: seq<T>, key: T -> real)
    requires SortedBy(s, key)
    ensures Sort(s, key) == s
  {
    if s != [] {
      assert SortedBy(s[1..], key);
      SortOfSorted(s[1..], key);
      assert s == [s[0]] + s[1..];
    }
  }

  lemma {:induction false} InsertStable<T(!new)>(x: T, s: seq<T>, key: T -> real, v: real)
    requires SortedBy(s, key)
    ensures Filter(Insert(x, s, key), KeyIs(key, v))
         == (if key(x) == v then [x] else []) + Filter(s, KeyIs(key, v))
  {
    var p := KeyIs(key, v);
    if s == [] || key(x) <= key(s[0]) {
      FilterCons(x, s, p);
    } else {
      var y, rest := s[0], s[1..];
      assert s == [y] + rest;
      assert SortedBy(rest, key);
      InsertStable(x, rest, key, v);
      assert Insert(x, s, key) == [y] + Insert(x, rest, key);
      FilterCons(y, Insert(x, rest, key), p);
      FilterCons(y, rest, p);
      if key(x) == v {
        assert !p(y);
      }
      InsertStableStep(if p(y) then [y] else [], if key(x) == v then [x] else [], Filter(rest, p));
    }
  }

  /** The sequence step of `InsertStable`: with one of `head`, `xs` empty, their order does not matter. */
  lemma InsertStableStep<T>(head: seq<T>, xs: seq<T>, fs: seq<T>)
    requires head == [] || xs == []
    ensures head + (xs + fs) == xs + (head + fs)
  {
    if head == [] {
      assert head + (xs + fs) == xs + fs;
      assert head + fs == fs;
    } else {
      assert xs + fs == fs;
      assert xs + (head + fs) == head + fs;
    }
  }

  /**
   * Stability: for every key value, the elements with that key appear in the
   * output in exactly the order they had in the input.
   */
  lemma {:induction false} SortStable<T(!new)>(s: seq<T>, key: T -> real, v: real)
    ensures Filter(Sort(s, key), KeyIs(key, v)) == Filter(s, KeyIs(key, v))
  {
    if s != [] {
      SortStable(s[1..], key, v);
      SortSorted(s[1..], key);
      InsertStable(s[0], Sort(s[1..], key), key, v);
    }
  }

  /**
   * A sorted list whose keys take only the values `a < b` is the elements with
   * key `a` followed by the elements with key `b`.
   */
  lemma {:induction false} TwoValuedSplit<T(!new)>(s: seq<T>, key: T -> real, a: real, b: real)
    requires a < b
    requires SortedBy(s, key)
    requires forall i :: 0 <= i < |s| ==> key(s[i]) == a || key(s[i]) == b
    ensures s == Filter(s, KeyIs(key, a)) + Filter(s, KeyIs(key, b))
  {
    if s != [] {
      var pa, pb := KeyIs(key, a), KeyIs(key, b);
      if key(s[0]) == a {
        assert SortedBy(s[1..], key);
        TwoValuedSplit(s[1..], key, a, b);
        assert s == [s[0]] + s[1..];
        FilterCons(s[0], s[1..], pa);
        FilterCons(s[0], s[1..], pb);
      } else {
        assert forall i :: 0 <= i < |s| ==> key(s[i]) == b by {
          forall i | 0 <= i < |s| ensures key(s[i]) == b {
            if i > 0 { assert key(s[0]) <= key(s[i]); }
          }
        }
        FilterNone(s, pa);
        FilterAll(s, pb);
      }
    }
  }
}
