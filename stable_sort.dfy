/**
 * Python's `list.sort(key=..., reverse=True)`: a stable sort into descending key order.
 * Elements with equal keys keep their original relative order, which is what the hub
 * relies on when two proposals score the same and what the keyword extractor relies on
 * when two words have the same weight.
 */
module StableSort {

  /** Keys never increase from left to right. */
  ghost predicate SortedDesc<T>(s: seq<T>, key: T -> real) {
    forall i, j :: 0 <= i < j < |s| ==> key(s[i]) >= key(s[j])
  }

  /** The elements of `s` whose key is `k`, in their order in `s`. */
  function WithKey<T>(s: seq<T>, key: T -> real, k: real): (r: seq<T>)
    ensures |r| <= |s|
    ensures forall i :: 0 <= i < |r| ==> key(r[i]) == k
  {
    if s == [] then []
    else (if key(s[0]) == k then [s[0]] else []) + WithKey(s[1..], key, k)
  }

  /** Places `x` after every leading element whose key is at least `key(x)`. */
  function Insert<T>(x: T, s: seq<T>, key: T -> real): (r: seq<T>)
    ensures |r| == |s| + 1
  {
    if s == [] then [x]
    else if key(s[0]) >= key(x) then [s[0]] + Insert(x, s[1..], key)
    else [x] + s
  }

  /**
   * The descending stable sort: each element in turn, from first to last, is placed
   * after every element already placed whose key is at least its own.
   */
  function SortDesc<T>(s: seq<T>, key: T -> real): (r: seq<T>)
    ensures |r| == |s|
  {
    if s == [] then [] else Insert(s[|s| - 1], SortDesc(s[..|s| - 1], key), key)
  }

  lemma {:induction false} WithKeyAppend<T>(a: seq<T>, b: seq<T>, key: T -> real, k: real)
    ensures WithKey(a + b, key, k) == WithKey(a, key, k) + WithKey(b, key, k)
  {
    if a == [] {
      assert a + b == b;
    } else {
      assert (a + b)[1..] == a[1..] + b;
      WithKeyAppend(a[1..], b, key, k);
    }
  }

  /** Where `Insert` places `x`: after the leading elements whose key is at least `key(x)`. */
  function InsertPos<T>(x: T, s: seq<T>, key: T -> real): (n: nat)
    ensures n <= |s|
    ensures forall i :: 0 <= i < n ==> key(s[i]) >= key(x)
    ensures n < |s| ==> key(s[n]) < key(x)
  {
    if s == [] || key(s[0]) < key(x) then 0 else 1 + InsertPos(x, s[1..], key)
  }

  lemma {:induction false} InsertSplit<T>(x: T, s: seq<T>, key: T -> real)
    ensures Insert(x, s, key) == s[..InsertPos(x, s, key)] + [x] + s[InsertPos(x, s, key)..]
  {
    if s != [] && key(s[0]) >= key(x) {
      InsertSplit(x, s[1..], key);
      assert s == [s[0]] + s[1..];
      ConsSplit(s[0], s[1..], InsertPos(x, s[1..], key), x);
    }
  }

  /** Cutting `t` at `n` and putting `h` in front is cutting `[h] + t` at `n + 1`. */
  lemma ConsSplit<T>(h: T, t: seq<T>, n: nat, x: T)
    requires n <= |t|
    ensures [h] + (t[..n] + [x] + t[n..]) == ([h] + t)[..n + 1] + [x] + ([h] + t)[n + 1..]
  {
    assert ([h] + t)[..n + 1] == [h] + t[..n];
    assert ([h] + t)[n + 1..] == t[n..];
  }

  /** Element `i` of `Insert(x, s, key)`, read off the split at `InsertPos`. */
  lemma InsertIndex<T>(x: T, s: seq<T>, key: T -> real, i: nat)
    requires i <= |s|
    ensures var n := InsertPos(x, s, key);
      Insert(x, s, key)[i] == if i < n then s[i] else if i == n then x else s[i - 1]
  {
    InsertSplit(x, s, key);
  }

  /** A suffix of a descending sequence is descending. */
  lemma SortedSuffix<T>(s: seq<T>, key: T -> real, n: nat)
    requires SortedDesc(s, key) && n <= |s|
    ensures SortedDesc(s[n..], key)
  {
    var t := s[n..];
    forall i, j | 0 <= i < j < |t| ensures key(t[i]) >= key(t[j]) {
      assert t[i] == s[n + i] && t[j] == s[n + j];
    }
  }

  lemma {:induction false} InsertKeepsOrder<T>(x: T, s: seq<T>, key: T -> real)
    requires SortedDesc(s, key)
    ensures SortedDesc(Insert(x, s, key), key)
  {
    var n := InsertPos(x, s, key);
    var r := Insert(x, s, key);
    forall i, j | 0 <= i < j < |r| ensures key(r[i]) >= key(r[j]) {
      InsertIndex(x, s, key, i);
      InsertIndex(x, s, key, j);
      if i == n && j > n {
        assert key(s[n]) < key(x);
        assert n == j - 1 || key(s[n]) >= key(s[j - 1]);
      }
    }
  }

  lemma {:induction false} InsertKeepsElements<T>(x: T, s: seq<T>, key: T -> real)
    ensures multiset(Insert(x, s, key)) == multiset(s) + multiset{x}
  {
    var n := InsertPos(x, s, key);
    InsertSplit(x, s, key);
    var a, b := s[..n], s[n..];
    assert s == a + b;
    assert multiset(Insert(x, s, key)) == multiset(a) + multiset([x]) + multiset(b);
    assert multiset(s) == multiset(a) + multiset(b);
  }

  lemma InsertKeepsTies<T>(x: T, s: seq<T>, key: T -> real, k: real)
    requires SortedDesc(s, key)
    ensures WithKey(Insert(x, s, key), key, k) == WithKey(s, key, k) + WithKey([x], key, k)
  {
    var n := InsertPos(x, s, key);
    if key(x) == k && n < |s| {
      SortedSuffix(s, key, n);
      NoneWithKeyBelow(s[n..], key, k);
    }
    InsertBeforeTies(x, s, key, k);
  }

  /** Inserting in front of every later element with key `k` appends `x` to the elements with key `k`. */
  lemma InsertBeforeTies<T>(x: T, s: seq<T>, key: T -> real, k: real)
    requires key(x) == k ==> WithKey(s[InsertPos(x, s, key)..], key, k) == []
    ensures WithKey(Insert(x, s, key), key, k) == WithKey(s, key, k) + WithKey([x], key, k)
  {
    var n := InsertPos(x, s, key);
    InsertSplit(x, s, key);
    var a, b := s[..n], s[n..];
    assert s == a + b;
    WithKeyAppend(a + [x], b, key, k);
    WithKeyAppend(a, [x], key, k);
    WithKeyAppend(a, b, key, k);
    var wa, wx, wb := WithKey(a, key, k), WithKey([x], key, k), WithKey(b, key, k);
    if key(x) != k {
      assert wx == [] by { assert [x][1..] == []; }
      EmptyMiddle(wa, wx, wb);
    } else {
      EmptyLast(wa, wx, wb);
    }
  }

  lemma EmptyMiddle<T>(a: seq<T>, m: seq<T>, b: seq<T>)
    requires m == []
    ensures a + m + b == a + b
  {
  }

  lemma EmptyLast<T>(a: seq<T>, m: seq<T>, b: seq<T>)
    requires b == []
    ensures a + m + b == a + b + m
  {
  }

  /** In a descending sequence that starts below `k`, no element has key `k`. */
  lemma {:induction false} NoneWithKeyBelow<T>(s: seq<T>, key: T -> real, k: real)
    requires SortedDesc(s, key)
    requires s != [] && key(s[0]) < k
    ensures WithKey(s, key, k) == []
  {
    if |s| > 1 {
      SortedSuffix(s, key, 1);
      assert key(s[0]) >= key(s[1]);
      NoneWithKeyBelow(s[1..], key, k);
    }
  }

  /**
   * `SortDesc` is Python's stable descending sort: the result is in descending key order,
   * holds exactly the same elements, and keeps the original order among equal keys.
   */
  lemma {:induction false} SortDescCorrect<T>(s: seq<T>, key: T -> real)
    ensures SortedDesc(SortDesc(s, key), key)
    ensures multiset(SortDesc(s, key)) == multiset(s)
    ensures forall k :: WithKey(SortDesc(s, key), key, k) == WithKey(s, key, k)
  {
    if s != [] {
      var p := s[..|s| - 1];
      var x := s[|s| - 1];
      SortDescCorrect(p, key);
      InsertKeepsOrder(x, SortDesc(p, key), key);
      InsertKeepsElements(x, SortDesc(p, key), key);
      assert s == p + [x];
      forall k ensures WithKey(SortDesc(s, key), key, k) == WithKey(s, key, k) {
        InsertKeepsTies(x, SortDesc(p, key), key, k);
        WithKeyAppend(p, [x], key, k);
      }
    }
  }
}
