/**
 * The two JavaScript array operations that the stores and the task catalogue
 * rely on: `Array.prototype.sort` with a "newest first" comparator
 * `(a, b) => key(b) - key(a)`, and `Array.prototype.slice(0, end)`.
 *
 * `sort` is stable (ECMAScript 2019 onwards), so it is modelled by a stable
 * insertion sort: an element is placed before every element whose key is not
 * larger than its own, and elements with equal keys keep their order.
 */
module JsArrays {

  /** Every element's key is at least the key of every later element. */
  predicate SortedDesc<T>(s: seq<T>, key: T -> int)
  {
    forall i, j :: 0 <= i < j < |s| ==> key(s[i]) >= key(s[j])
  }

  /** Inserts `x` before the first element whose key is not larger than its own. */
  function Insert<T>(x: T, s: seq<T>, key: T -> int): seq<T>
  {
    if s == [] || key(x) >= key(s[0]) then [x] + s
    else [s[0]] + Insert(x, s[1..], key)
  }

  /** `s.sort((a, b) => key(b) - key(a))`: a stable sort, largest key first. */
  function SortDesc<T>(s: seq<T>, key: T -> int): seq<T>
  {
    if s == [] then [] else Insert(s[0], SortDesc(s[1..], key), key)
  }

  /** `s.slice(0, end)`: a negative `end` counts back from the end of `s`. */
  function SliceTo<T>(s: seq<T>, end: int): (r: seq<T>)
    ensures |r| == if end < 0 then (if |s| + end < 0 then 0 else |s| + end)
                   else (if end < |s| then end else |s|)
    ensures r <= s
  {
    if end < 0 then (if |s| + end < 0 then [] else s[..|s| + end])
    else if end < |s| then s[..end]
    else s
  }

  /** Inserting adds `x` and keeps every element of `s`. */
  lemma {:induction false} InsertPerm<T>(x: T, s: seq<T>, key: T -> int)
    ensures multiset(Insert(x, s, key)) == multiset(s) + multiset{x}
    ensures |Insert(x, s, key)| == |s| + 1
  {
    if s != [] && key(x) < key(s[0]) {
      InsertPerm(x, s[1..], key);
      assert s == [s[0]] + s[1..];
    }
  }

  /** No key in the result is larger than a bound that holds for `x` and for all of `s`. */
  lemma {:induction false} InsertBounded<T>(x: T, s: seq<T>, key: T -> int, bound: int)
    requires key(x) <= bound
    requires forall i :: 0 <= i < |s| ==> key(s[i]) <= bound
    ensures forall i :: 0 <= i < |Insert(x, s, key)| ==> key(Insert(x, s, key)[i]) <= bound
  {
    if s != [] && key(x) < key(s[0]) {
      InsertBounded(x, s[1..], key, bound);
    }
  }

  /** Inserting into a newest-first sequence keeps it newest first. */
  lemma {:induction false} InsertSorted<T>(x: T, s: seq<T>, key: T -> int)
    requires SortedDesc(s, key)
    ensures SortedDesc(Insert(x, s, key), key)
  {
    if s != [] && key(x) < key(s[0]) {
      assert SortedDesc(s[1..], key);
      InsertSorted(x, s[1..], key);
      InsertBounded(x, s[1..], key, key(s[0]));
    }
  }

  /** The sort yields a permutation of its input, ordered largest key first. */
  lemma {:induction false} SortDescCorrect<T>(s: seq<T>, key: T -> int)
    ensures SortedDesc(SortDesc(s, key), key)
    ensures multiset(SortDesc(s, key)) == multiset(s)
    ensures |SortDesc(s, key)| == |s|
  {
    if s != [] {
      SortDescCorrect(s[1..], key);
      InsertPerm(s[0], SortDesc(s[1..], key), key);
      InsertSorted(s[0], SortDesc(s[1..], key), key);
      assert s == [s[0]] + s[1..];
    }
  }

  /** The elements of `s` whose key is `k`, in the order they have in `s`. */
  function KeyRun<T>(s: seq<T>, key: T -> int, k: int): seq<T>
  {
    if s == [] then [] else (if key(s[0]) == k then [s[0]] else []) + KeyRun(s[1..], key, k)
  }

  /** Inserting `x` puts it ahead of every element with its own key and leaves the other runs alone. */
  lemma {:induction false} InsertKeyRun<T>(x: T, s: seq<T>, key: T -> int, k: int)
    ensures KeyRun(Insert(x, s, key), key, k) == (if key(x) == k then [x] else []) + KeyRun(s, key, k)
  {
    if s == [] || key(x) >= key(s[0]) {
      assert ([x] + s)[0] == x && ([x] + s)[1..] == s;
    } else {
      var rest := Insert(x, s[1..], key);
      assert ([s[0]] + rest)[0] == s[0] && ([s[0]] + rest)[1..] == rest;
      InsertKeyRun(x, s[1..], key, k);
      var head := if key(s[0]) == k then [s[0]] else [];
      var mine := if key(x) == k then [x] else [];
      assert KeyRun(Insert(x, s, key), key, k) == head + (mine + KeyRun(s[1..], key, k));
      assert KeyRun(s, key, k) == head + KeyRun(s[1..], key, k);
      assert head == [] || mine == [];
    }
  }

  /**
   * The sort is stable: for every key, the elements carrying it come out in
   * the order they went in.
   */
  lemma {:induction false} SortDescStable<T>(s: seq<T>, key: T -> int, k: int)
    ensures KeyRun(SortDesc(s, key), key, k) == KeyRun(s, key, k)
  {
    if s != [] {
      SortDescStable(s[1..], key, k);
      InsertKeyRun(s[0], SortDesc(s[1..], key), key, k);
    }
  }

  /** Sorting a sequence that is already newest-first leaves it unchanged. */
  lemma {:induction false} SortDescOfSorted<T>(s: seq<T>, key: T -> int)
    requires SortedDesc(s, key)
    ensures SortDesc(s, key) == s
  {
    if s != [] {
      assert SortedDesc(s[1..], key);
      SortDescOfSorted(s[1..], key);
    }
  }

  /** `s.sort(newest first).slice(0, end)`. */
  function Top<T>(s: seq<T>, key: T -> int, end: int): seq<T>
  {
    SliceTo(SortDesc(s, key), end)
  }

  /** In a newest-first sequence split in two, every key of the front is at least every key of the back. */
  lemma SortedSplit<T>(front: seq<T>, back: seq<T>, key: T -> int)
    requires SortedDesc(front + back, key)
    ensures forall d, i :: d in multiset(back) && 0 <= i < |front| ==> key(front[i]) >= key(d)
  {
    forall d, i | d in multiset(back) && 0 <= i < |front|
      ensures key(front[i]) >= key(d)
    {
      var j :| 0 <= j < |back| && back[j] == d;
      assert (front + back)[|front| + j] == d && (front + back)[i] == front[i];
    }
  }

  /**
   * The first `end` elements of the sorted sequence are a most-recent `end`:
   * they are drawn from `s`, ordered newest first, and no element of `s` left
   * out has a larger key than any element kept.
   */
  lemma TopOfSort<T>(s: seq<T>, key: T -> int, end: nat)
    ensures |Top(s, key, end)| == (if end < |s| then end else |s|)
    ensures SortedDesc(Top(s, key, end), key)
    ensures multiset(Top(s, key, end)) <= multiset(s)
    ensures forall d, i :: d in multiset(s) - multiset(Top(s, key, end)) && 0 <= i < |Top(s, key, end)| ==>
      key(Top(s, key, end)[i]) >= key(d)
  {
    var sorted := SortDesc(s, key);
    SortDescCorrect(s, key);
    var k := if end < |s| then end else |s|;
    var r, rest := sorted[..k], sorted[k..];
    assert Top(s, key, end) == r;
    assert sorted == r + rest;
    PrefixSorted(r, rest, key);
    assert multiset(s) == multiset(r) + multiset(rest);
    SortedSplit(r, rest, key);
  }

  lemma PrefixSorted<T>(front: seq<T>, back: seq<T>, key: T -> int)
    requires SortedDesc(front + back, key)
    ensures SortedDesc(front, key)
  {
    forall i, j | 0 <= i < j < |front| ensures key(front[i]) >= key(front[j]) {
      assert (front + back)[i] == front[i] && (front + back)[j] == front[j];
    }
  }
}
