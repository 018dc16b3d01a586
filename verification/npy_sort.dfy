/** `sort` and `sort_rows` of npy.py: reorder arrays by the ascending (or,
    reversed, descending) order of one key, as `np.argsort` then `np.take`. */
module NpySort {
  import opened Common

  /** `[0, 1, ..., n - 1]`, the indices of a length-n array. */
  function Indices(n: nat): (r: seq<nat>)
    ensures |r| == n
  {
    if n == 0 then [] else Indices(n - 1) + [n - 1]
  }

  lemma {:induction false} IndicesAreIdentity(n: nat)
    ensures forall i :: 0 <= i < n ==> Indices(n)[i] == i
  {
    if n > 0 {
      IndicesAreIdentity(n - 1);
    }
  }

  /** `idx` lists every index of a length-n array exactly once. */
  ghost predicate IsPermutation(idx: seq<nat>, n: nat)
  {
    multiset(idx) == multiset(Indices(n))
  }

  predicate InRange(idx: seq<nat>, n: nat)
  {
    forall i :: 0 <= i < |idx| ==> idx[i] < n
  }

  /** `np.take(a, idx)` for in-range indices. */
  function TakeAt<T>(a: seq<T>, idx: seq<nat>): (r: seq<T>)
    requires InRange(idx, |a|)
    ensures |r| == |idx|
    ensures forall i :: 0 <= i < |idx| ==> r[i] == a[idx[i]]
  {
    seq(|idx|, k requires 0 <= k < |idx| => a[idx[k]])
  }

  predicate NonDecreasing(s: seq<int>)
  {
    forall i, j :: 0 <= i < j < |s| ==> s[i] <= s[j]
  }

  predicate NonIncreasing(s: seq<int>)
  {
    forall i, j :: 0 <= i < j < |s| ==> s[i] >= s[j]
  }

  /** `s` lists indices in non-decreasing order of their keys. */
  predicate SortedBy(key: seq<int>, s: seq<nat>)
    requires InRange(s, |key|)
  {
    forall i, j :: 0 <= i < j < |s| ==> key[s[i]] <= key[s[j]]
  }

  /** Inserts index `i` into `s` after every index with a smaller key and
      before the first one with a key at least as large. */
  function Insert(key: seq<int>, s: seq<nat>, i: nat): (r: seq<nat>)
    requires InRange(s, |key|) && i < |key|
    ensures InRange(r, |key|) && |r| == |s| + 1
  {
    if s == [] || key[i] <= key[s[0]] then [i] + s
    else [s[0]] + Insert(key, s[1..], i)
  }

  lemma {:induction false} InsertAddsIndex(key: seq<int>, s: seq<nat>, i: nat)
    requires InRange(s, |key|) && i < |key|
    ensures multiset(Insert(key, s, i)) == multiset(s) + multiset{i}
  {
    if !(s == [] || key[i] <= key[s[0]]) {
      InsertAddsIndex(key, s[1..], i);
      assert s == [s[0]] + s[1..];
    }
  }

  lemma {:induction false} InsertKeepsOrder(key: seq<int>, s: seq<nat>, i: nat)
    requires InRange(s, |key|) && i < |key|
    requires SortedBy(key, s)
    ensures SortedBy(key, Insert(key, s, i))
  {
    if !(s == [] || key[i] <= key[s[0]]) {
      InsertKeepsOrder(key, s[1..], i);
      InsertAddsIndex(key, s[1..], i);
      InsertKeepsHeadFirst(key, s, i, Insert(key, s[1..], i));
    }
  }

  lemma InsertKeepsHeadFirst(key: seq<int>, s: seq<nat>, i: nat, rest: seq<nat>)
    requires InRange(s, |key|) && i < |key| && s != []
    requires SortedBy(key, s) && key[s[0]] < key[i]
    requires InRange(rest, |key|)
    requires multiset(rest) == multiset(s[1..]) + multiset{i}
    ensures forall j :: 0 <= j < |rest| ==> key[s[0]] <= key[rest[j]]
  {
    forall j | 0 <= j < |rest| ensures key[s[0]] <= key[rest[j]] {
      assert rest[j] in multiset(rest);
      if rest[j] != i {
        assert rest[j] in multiset(s[1..]);
        var m :| 0 <= m < |s[1..]| && s[1..][m] == rest[j];
        assert s[m + 1] == rest[j];
      }
    }
  }

  /** The indices `0 .. n - 1`, inserted one after the other. */
  function ArgsortPrefix(key: seq<int>, n: nat): (r: seq<nat>)
    requires n <= |key|
    ensures InRange(r, |key|) && |r| == n
  {
    if n == 0 then [] else Insert(key, ArgsortPrefix(key, n - 1), n - 1)
  }

  lemma {:induction false} ArgsortPrefixPermutes(key: seq<int>, n: nat)
    requires n <= |key|
    ensures multiset(ArgsortPrefix(key, n)) == multiset(Indices(n))
  {
    if n > 0 {
      var s, last: nat := ArgsortPrefix(key, n - 1), n - 1;
      ArgsortPrefixPermutes(key, last);
      assert multiset(ArgsortPrefix(key, n)) == multiset(s) + multiset{last} by {
        InsertAddsIndex(key, s, last);
      }
      assert multiset(Indices(n)) == multiset(Indices(last)) + multiset{last} by {
        assert Indices(n) == Indices(last) + [last];
      }
    }
  }

  lemma {:induction false} ArgsortPrefixSorted(key: seq<int>, n: nat)
    requires n <= |key|
    ensures SortedBy(key, ArgsortPrefix(key, n))
  {
    if n > 0 {
      var s, last: nat := ArgsortPrefix(key, n - 1), n - 1;
      assert SortedBy(key, Insert(key, s, last)) by {
        ArgsortPrefixSorted(key, last);
        InsertKeepsOrder(key, s, last);
      }
    }
  }

  /** `np.argsort(key)`: a permutation of the indices that lists the keys in
      non-decreasing order. numpy's default sort is not stable, and this
      contract does not fix the order of equal keys either. */
  function Argsort(key: seq<int>): (idx: seq<nat>)
    ensures |idx| == |key| && InRange(idx, |key|)
    ensures IsPermutation(idx, |key|)
    ensures NonDecreasing(TakeAt(key, idx))
  {
    var idx := ArgsortPrefix(key, |key|);
    ArgsortPrefixPermutes(key, |key|);
    ArgsortPrefixSorted(key, |key|);
    idx
  }

  function Reverse<T>(s: seq<T>): (r: seq<T>)
    ensures |r| == |s|
    ensures forall i :: 0 <= i < |s| ==> r[i] == s[|s| - 1 - i]
    ensures multiset(r) == multiset(s)
  {
    if s == [] then [] else
      assert s == [s[0]] + s[1..];
      Reverse(s[1..]) + [s[0]]
  }

  /** The index order both functions use: `np.argsort`, flipped when
      `reverse` is set. */
  function Order(key: seq<int>, reverse: bool): (idx: seq<nat>)
    ensures |idx| == |key| && InRange(idx, |key|)
    ensures IsPermutation(idx, |key|)
    ensures !reverse ==> NonDecreasing(TakeAt(key, idx))
    ensures reverse ==> NonIncreasing(TakeAt(key, idx))
  {
    var idx := Argsort(key);
    if reverse then
      ReversedKeysDescend(key, idx);
      Reverse(idx)
    else idx
  }

  /** Reading an ascending index order backwards lists the keys in
      descending order. */
  lemma ReversedKeysDescend(key: seq<int>, idx: seq<nat>)
    requires InRange(idx, |key|) && NonDecreasing(TakeAt(key, idx))
    ensures InRange(Reverse(idx), |key|) && NonIncreasing(TakeAt(key, Reverse(idx)))
  {
    var r := Reverse(idx);
    assert InRange(r, |key|) by {
      forall i | 0 <= i < |r| ensures r[i] < |key| {
        assert r[i] == idx[|idx| - 1 - i];
      }
    }
    var t, u := TakeAt(key, idx), TakeAt(key, r);
    forall i, j | 0 <= i < j < |u| ensures u[i] >= u[j] {
      assert u[i] == t[|t| - 1 - i] && u[j] == t[|t| - 1 - j];
    }
  }

  lemma {:induction false} TakeAtInsert<T>(a: seq<T>, key: seq<int>, s: seq<nat>, i: nat)
    requires InRange(s, |key|) && i < |key| && |key| <= |a|
    ensures InRange(s, |a|) && InRange(Insert(key, s, i), |a|)
    ensures multiset(TakeAt(a, Insert(key, s, i))) == multiset(TakeAt(a, s)) + multiset{a[i]}
  {
    if s == [] || key[i] <= key[s[0]] {
      TakeAtCons(a, i, s);
    } else {
      TakeAtInsert(a, key, s[1..], i);
      TakeAtInsertPastHead(a, key, s, i);
      TakeAtCons(a, s[0], s[1..]);
      assert [s[0]] + s[1..] == s;
      ConsAddsToMultiset(a[s[0]], a[i], TakeAt(a, s[1..]), TakeAt(a, Insert(key, s[1..], i)));
    }
  }

  /** Where the index goes past the head, the head is taken first. */
  lemma TakeAtInsertPastHead<T>(a: seq<T>, key: seq<int>, s: seq<nat>, i: nat)
    requires InRange(s, |key|) && i < |key| && |key| <= |a|
    requires s != [] && key[s[0]] < key[i]
    requires InRange(Insert(key, s[1..], i), |a|)
    ensures InRange(Insert(key, s, i), |a|)
    ensures TakeAt(a, Insert(key, s, i)) == [a[s[0]]] + TakeAt(a, Insert(key, s[1..], i))
  {
    var rest := Insert(key, s[1..], i);
    assert Insert(key, s, i) == [s[0]] + rest;
    TakeAtCons(a, s[0], rest);
  }

  lemma ConsAddsToMultiset<T>(x: T, y: T, t: seq<T>, u: seq<T>)
    requires multiset(u) == multiset(t) + multiset{y}
    ensures multiset([x] + u) == multiset([x] + t) + multiset{y}
  {
  }

  lemma TakeAtCons<T>(a: seq<T>, x: nat, s: seq<nat>)
    requires x < |a| && InRange(s, |a|)
    ensures InRange([x] + s, |a|) && TakeAt(a, [x] + s) == [a[x]] + TakeAt(a, s)
  {
    assert ([x] + s)[1..] == s;
  }

  /** The elements of `a[..n]`, counted one by one. */
  ghost function FirstElements<T>(a: seq<T>, n: nat): multiset<T>
    requires n <= |a|
  {
    if n == 0 then multiset{} else FirstElements(a, n - 1) + multiset{a[n - 1]}
  }

  lemma {:induction false} FirstElementsOfPrefix<T>(a: seq<T>, n: nat)
    requires n <= |a|
    ensures FirstElements(a, n) == multiset(a[..n])
  {
    if n > 0 {
      FirstElementsOfPrefix(a, n - 1);
      assert a[..n] == a[..n - 1] + [a[n - 1]];
    }
  }

  lemma {:induction false} TakeAtArgsortPrefix<T>(a: seq<T>, key: seq<int>, n: nat)
    requires n <= |key| <= |a|
    ensures InRange(ArgsortPrefix(key, n), |a|)
    ensures multiset(TakeAt(a, ArgsortPrefix(key, n))) == FirstElements(a, n)
  {
    if n > 0 {
      TakeAtArgsortPrefix(a, key, n - 1);
      TakeAtInsert(a, key, ArgsortPrefix(key, n - 1), n - 1);
    }
  }

  lemma AllFirstElements<T>(a: seq<T>)
    ensures FirstElements(a, |a|) == multiset(a)
  {
    FirstElementsOfPrefix(a, |a|);
    assert a[..|a|] == a;
  }

  lemma ArgsortTakesAll<T>(a: seq<T>, key: seq<int>)
    requires |key| == |a|
    ensures InRange(ArgsortPrefix(key, |key|), |a|)
    ensures multiset(TakeAt(a, ArgsortPrefix(key, |key|))) == multiset(a)
  {
    TakeAtArgsortPrefix(a, key, |key|);
    AllFirstElements(a);
  }

  /** Taking by the reversed order takes the same elements, reversed. */
  lemma TakeReversed<T>(a: seq<T>, idx: seq<nat>)
    requires InRange(idx, |a|)
    ensures InRange(Reverse(idx), |a|)
    ensures multiset(TakeAt(a, Reverse(idx))) == multiset(TakeAt(a, idx))
  {
    ReverseInRange(idx, |a|);
    var t, u := TakeAt(a, idx), TakeAt(a, Reverse(idx));
    assert u == Reverse(t);
  }

  lemma ReverseInRange(idx: seq<nat>, n: nat)
    requires InRange(idx, n)
    ensures InRange(Reverse(idx), n)
  {
    var r := Reverse(idx);
    forall i | 0 <= i < |r| ensures r[i] < n {
      assert r[i] == idx[|idx| - 1 - i];
    }
  }

  /** Taking by the order of a key rearranges an array of the key's length:
      its elements and their multiplicities are kept. */
  lemma TakePermutes<T>(a: seq<T>, key: seq<int>, reverse: bool)
    requires |key| == |a|
    ensures InRange(Order(key, reverse), |a|)
    ensures multiset(TakeAt(a, Order(key, reverse))) == multiset(a)
  {
    var idx := ArgsortPrefix(key, |key|);
    ArgsortTakesAll(a, key);
    if reverse {
      TakeReversed(a, idx);
    }
  }

  /** What `sort` returns: a tuple of arrays, or the bare array when it was
      given only one. */
  datatype Sorted = Single(values: seq<int>) | Several(arrays: seq<seq<int>>)
  {
    function Arrays(): seq<seq<int>>
    {
      match this
      case Single(a) => [a]
      case Several(as_) => as_
    }
  }

  /** `np.take` fails when an array is shorter than the key: some index of
      the key's order is then out of its range. */
  predicate AllCoverKey(arrays: seq<seq<int>>)
    requires |arrays| > 0
  {
    forall k :: 0 <= k < |arrays| ==> |arrays[k]| >= |arrays[0]|
  }

  /** npy.py `sort`: every array is reordered by the order of the first. */
  function Sort(arrays: seq<seq<int>>, reverse: bool): (r: Result<Sorted>)
    ensures |arrays| == 0 ==> r == Err(IndexError)
    ensures |arrays| > 0 ==> (r.Ok? <==> AllCoverKey(arrays))
    ensures r.Err? ==> r.error == IndexError
    ensures r.Ok? ==> (r.value.Single? <==> |arrays| == 1)
    ensures r.Ok? ==>
      var out := r.value.Arrays();
      && |out| == |arrays|
      && (!reverse ==> NonDecreasing(out[0]))
      && (reverse ==> NonIncreasing(out[0]))
      && multiset(out[0]) == multiset(arrays[0])
      && forall k :: 0 <= k < |out| ==> |out[k]| == |arrays[0]|
  {
    if |arrays| == 0 then Err(IndexError)
    else if !AllCoverKey(arrays) then Err(IndexError)
    else
      var idx := Order(arrays[0], reverse);
      var out := seq(|arrays|, k requires 0 <= k < |arrays| => TakeAt(arrays[k], idx));
      TakePermutes(arrays[0], arrays[0], reverse);
      Ok(if |out| > 1 then Several(out) else Single(out[0]))
  }

  /** Every array is reordered by one and the same permutation of the key's
      indices, so elements that shared an index before still share one. */
  lemma SortMovesTogether(arrays: seq<seq<int>>, reverse: bool, k: nat)
    requires |arrays| > 0 && AllCoverKey(arrays) && k < |arrays|
    ensures Sort(arrays, reverse).Ok?
    ensures var idx := Order(arrays[0], reverse);
      && IsPermutation(idx, |arrays[0]|)
      && Sort(arrays, reverse).value.Arrays()[k] == TakeAt(arrays[k], idx)
  {
  }

  /** Each array that is exactly as long as the key comes out as a
      rearrangement of itself. */
  lemma SortPermutesEachArray(arrays: seq<seq<int>>, reverse: bool, k: nat)
    requires |arrays| > 0 && AllCoverKey(arrays) && k < |arrays|
    requires |arrays[k]| == |arrays[0]|
    ensures multiset(Sort(arrays, reverse).value.Arrays()[k]) == multiset(arrays[k])
  {
    TakePermutes(arrays[k], arrays[0], reverse);
  }

  /** A numpy 2-D array: every row has `width` columns. */
  predicate Rectangular(rows: seq<seq<int>>, width: nat)
  {
    forall r :: 0 <= r < |rows| ==> |rows[r]| == width
  }

  /** `array.T[column]` accepts Python indices, negative ones counting from
      the last column. */
  function ColumnIndex(width: nat, column: int): (r: Option<nat>)
    ensures r.Some? <==> -(width as int) <= column < width
    ensures r.Some? ==> r.value < width && (r.value == column || r.value == column + width)
  {
    if 0 <= column < width then Some(column)
    else if -(width as int) <= column < 0 then Some(column + width)
    else None
  }

  function Column(rows: seq<seq<int>>, width: nat, c: nat): (r: seq<int>)
    requires Rectangular(rows, width) && c < width
    ensures |r| == |rows| && forall i :: 0 <= i < |rows| ==> r[i] == rows[i][c]
  {
    seq(|rows|, i requires 0 <= i < |rows| => rows[i][c])
  }

  /** npy.py `sort_rows`: whole rows move, ordered by one column. */
  function SortRows(rows: seq<seq<int>>, width: nat, column: int, reverse: bool)
    : (r: Result<seq<seq<int>>>)
    requires Rectangular(rows, width)
    ensures r.Ok? <==> -(width as int) <= column < width
    ensures r.Ok? ==>
      var c := ColumnIndex(width, column).value;
      && |r.value| == |rows|
      && Rectangular(r.value, width)
      && multiset(r.value) == multiset(rows)
      && (!reverse ==> NonDecreasing(Column(r.value, width, c)))
      && (reverse ==> NonIncreasing(Column(r.value, width, c)))
  {
    match ColumnIndex(width, column)
    case None => Err(IndexError)
    case Some(c) =>
      var key := Column(rows, width, c);
      var idx := Order(key, reverse);
      var out := TakeAt(rows, idx);
      TakePermutes(rows, key, reverse);
      assert Column(out, width, c) == TakeAt(key, idx);
      Ok(out)
  }

  /** Two non-decreasing sequences holding the same elements are equal: the
      sorted key is fully determined, whatever order equal keys take. */
  lemma {:induction false} SortedIsUnique(a: seq<int>, b: seq<int>)
    requires NonDecreasing(a) && NonDecreasing(b)
    requires multiset(a) == multiset(b)
    ensures a == b
    decreases |a|
  {
    assert |a| == |multiset(a)| == |multiset(b)| == |b|;
    if a != [] {
      assert a[0] in multiset(b) && b[0] in multiset(a);
      HeadIsLeast(a, b[0]);
      HeadIsLeast(b, a[0]);
      assert a[0] == b[0];
      var a', b' := a[1..], b[1..];
      assert a == [a[0]] + a' && b == [b[0]] + b';
      calc {
        multiset(a');
        multiset(a) - multiset{a[0]};
        multiset(b) - multiset{b[0]};
        multiset(b');
      }
      TailNonDecreasing(a);
      TailNonDecreasing(b);
      SortedIsUnique(a', b');
    }
  }

  lemma TailNonDecreasing(a: seq<int>)
    requires a != [] && NonDecreasing(a)
    ensures NonDecreasing(a[1..])
  {
    var t := a[1..];
    forall i, j | 0 <= i < j < |t| ensures t[i] <= t[j] {
      assert t[i] == a[i + 1] && t[j] == a[j + 1];
    }
  }

  /** The first element of a non-decreasing sequence is a least one. */
  lemma HeadIsLeast(a: seq<int>, x: int)
    requires NonDecreasing(a) && x in multiset(a)
    ensures a[0] <= x
  {
    var i :| 0 <= i < |a| && a[i] == x;
    assert i == 0 || a[0] <= a[i];
  }

  lemma IndicesNonDecreasing(n: nat)
    ensures NonDecreasing(Indices(n))
  {
    IndicesAreIdentity(n);
  }

  /** A single array comes back bare, sorted and rearranged. */
  lemma SortOfOneArray(key: seq<int>, reverse: bool)
    ensures Sort([key], reverse).Ok? && Sort([key], reverse).value.Single?
    ensures var v := Sort([key], reverse).value.values;
      && |v| == |key| && multiset(v) == multiset(key)
      && (!reverse ==> NonDecreasing(v))
      && (reverse ==> NonIncreasing(v))
  {
    assert AllCoverKey([key]);
    var r := Sort([key], reverse);
    assert r.value.Arrays() == [r.value.values];
  }

  /** The tests' expectation: sorting a single array that holds each index
      once yields `0, 1, ..., n - 1` as a bare array. */
  lemma SortOfIndexPermutation(key: seq<int>)
    requires multiset(key) == multiset(Indices(|key|))
    ensures Sort([key], false) == Ok(Single(Indices(|key|)))
  {
    SortOfOneArray(key, false);
    var v := Sort([key], false).value.values;
    IndicesNonDecreasing(|key|);
    SortedIsUnique(v, Indices(|key|));
  }

  /** `[n - 1, ..., 1, 0]`: the indices of a length-n array, counting down. */
  function Countdown(n: nat): (r: seq<nat>)
    ensures |r| == n
  {
    if n == 0 then [] else [n - 1] + Countdown(n - 1)
  }

  lemma {:induction false} CountdownProperties(n: nat)
    ensures forall i :: 0 <= i < n ==> Countdown(n)[i] == n - 1 - i
    ensures multiset(Countdown(n)) == multiset(Indices(n))
  {
    if n > 0 {
      CountdownProperties(n - 1);
    }
  }

  lemma CountdownNonIncreasing(n: nat)
    ensures NonIncreasing(Countdown(n))
  {
    CountdownProperties(n);
  }

  /** With `reverse`, the same array yields `n - 1, ..., 1, 0`. */
  lemma SortOfIndexPermutationReversed(key: seq<int>)
    requires multiset(key) == multiset(Indices(|key|))
    ensures Sort([key], true) == Ok(Single(Countdown(|key|)))
  {
    SortOfOneArray(key, true);
    var v := Sort([key], true).value.values;
    DescendingIndicesAreCountdown(v);
  }

  lemma DescendingIndicesAreCountdown(b: seq<int>)
    requires NonIncreasing(b) && multiset(b) == multiset(Indices(|b|))
    ensures b == Countdown(|b|)
  {
    CountdownNonIncreasing(|b|);
    CountdownProperties(|b|);
    SortedDownIsUnique(b, Countdown(|b|));
  }

  /** Two non-increasing sequences holding the same elements are equal. */
  lemma {:induction false} SortedDownIsUnique(a: seq<int>, b: seq<int>)
    requires NonIncreasing(a) && NonIncreasing(b)
    requires multiset(a) == multiset(b)
    ensures a == b
    decreases |a|
  {
    assert |a| == |multiset(a)| == |multiset(b)| == |b|;
    if a != [] {
      assert a[0] in multiset(b) && b[0] in multiset(a);
      HeadIsGreatest(a, b[0]);
      HeadIsGreatest(b, a[0]);
      assert a[0] == b[0];
      var a', b' := a[1..], b[1..];
      assert a == [a[0]] + a' && b == [b[0]] + b';
      calc {
        multiset(a');
        multiset(a) - multiset{a[0]};
        multiset(b) - multiset{b[0]};
        multiset(b');
      }
      TailNonIncreasing(a);
      TailNonIncreasing(b);
      SortedDownIsUnique(a', b');
    }
  }

  lemma TailNonIncreasing(a: seq<int>)
    requires a != [] && NonIncreasing(a)
    ensures NonIncreasing(a[1..])
  {
    var t := a[1..];
    forall i, j | 0 <= i < j < |t| ensures t[i] >= t[j] {
      assert t[i] == a[i + 1] && t[j] == a[j + 1];
    }
  }

  lemma HeadIsGreatest(a: seq<int>, x: int)
    requires NonIncreasing(a) && x in multiset(a)
    ensures a[0] >= x
  {
    var i :| 0 <= i < |a| && a[i] == x;
    assert i == 0 || a[0] >= a[i];
  }
}
