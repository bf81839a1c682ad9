/** Batch sorting by a cached comparable. Two revisions are modelled: one
    that fills the cache while copying the batch and then sorts, and an older
    one that sorts a copy and fills the cache from inside the comparator.
    The engine's `Array.prototype.sort` is modelled as a stable insertion
    sort, specified by the function `SortBy`. */
module Sorting {

  // -----------------------------------------------------------------------
  // String order and the default comparison

  /** JavaScript's `<` on strings: lexicographic order of the characters. */
  predicate StringLess(a: string, b: string)
    decreases |a|
  {
    if |a| == 0 then |b| > 0
    else |b| > 0 && (a[0] < b[0] || (a[0] == b[0] && StringLess(a[1..], b[1..])))
  }

  /** `defaultCompare`: -1, 1 or 0 as the strings of the two values order. The
      conversion `String(value)` is the parameter `toString`. */
  function DefaultCompare<C>(toString: C -> string, a: C, b: C): int
  {
    var strA := toString(a);
    var strB := toString(b);
    if StringLess(strA, strB) then -1 else if StringLess(strB, strA) then 1 else 0
  }

  /** `defaultCompare` as the comparison function handed to a sorter. */
  function DefaultComparator<C>(toString: C -> string): (C, C) -> int
  {
    (a, b) => DefaultCompare(toString, a, b)
  }

  /** `identity`, the default comparable selector. */
  function Identity<T>(value: T): T { value }

  lemma {:induction false} StringLessIrreflexive(a: string)
    ensures !StringLess(a, a)
    decreases |a|
  {
    if |a| > 0 {
      StringLessIrreflexive(a[1..]);
    }
  }

  lemma {:induction false} StringLessTrichotomy(a: string, b: string)
    ensures a == b || StringLess(a, b) || StringLess(b, a)
    ensures !(StringLess(a, b) && StringLess(b, a))
    decreases |a|
  {
    if |a| > 0 && |b| > 0 {
      StringLessTrichotomy(a[1..], b[1..]);
      if a[0] == b[0] && a[1..] == b[1..] {
        assert a == [a[0]] + a[1..] && b == [b[0]] + b[1..];
      }
    }
  }

  lemma {:induction false} StringLessTransitive(a: string, b: string, c: string)
    requires StringLess(a, b) && StringLess(b, c)
    ensures StringLess(a, c)
    decreases |a|
  {
    if |a| > 0 && a[0] == b[0] && b[0] == c[0] {
      StringLessTransitive(a[1..], b[1..], c[1..]);
    }
  }

  /** `defaultCompare` is three-valued, agrees with string order, is 0 exactly
      for equal strings and is antisymmetric. */
  lemma DefaultCompareSpec<C>(toString: C -> string, a: C, b: C)
    ensures DefaultCompare(toString, a, b) in {-1, 0, 1}
    ensures DefaultCompare(toString, a, b) == -1 <==> StringLess(toString(a), toString(b))
    ensures DefaultCompare(toString, a, b) == 1 <==> StringLess(toString(b), toString(a))
    ensures DefaultCompare(toString, a, b) == 0 <==> toString(a) == toString(b)
    ensures DefaultCompare(toString, a, b) == -DefaultCompare(toString, b, a)
  {
    StringLessTrichotomy(toString(a), toString(b));
    StringLessIrreflexive(toString(a));
  }

  /** `defaultCompare` orders transitively: it is a total preorder. */
  lemma DefaultCompareTransitive<C>(toString: C -> string, a: C, b: C, c: C)
    requires DefaultCompare(toString, a, b) <= 0 && DefaultCompare(toString, b, c) <= 0
    ensures DefaultCompare(toString, a, c) <= 0
  {
    var sa, sb, sc := toString(a), toString(b), toString(c);
    StringLessTrichotomy(sa, sb);
    StringLessTrichotomy(sb, sc);
    StringLessTrichotomy(sa, sc);
    if sa != sb && sb != sc {
      StringLessTransitive(sa, sb, sc);
    }
  }

  // -----------------------------------------------------------------------
  // Specification of the sort

  /** A comparison is consistent when of any two values at least one is
      ordered before-or-equal the other. */
  ghost predicate ConsistentCompare<C(!new)>(compare: (C, C) -> int)
  {
    forall a, b :: compare(a, b) <= 0 || compare(b, a) <= 0
  }

  lemma DefaultCompareConsistent<C(!new)>(toString: C -> string)
    ensures ConsistentCompare(DefaultComparator(toString))
  {
    forall a: C, b: C
      ensures DefaultCompare(toString, a, b) <= 0 || DefaultCompare(toString, b, a) <= 0
    {
      DefaultCompareSpec(toString, a, b);
    }
  }

  /** Adjacent elements are ordered by `compare` on their comparables. */
  ghost predicate SortedBy<T, C>(s: seq<T>, key: T -> C, compare: (C, C) -> int)
  {
    forall i :: 0 < i < |s| ==> compare(key(s[i - 1]), key(s[i])) <= 0
  }

  /** Inserts `x` from the back: it moves left past every element that
      compares greater than it. */
  function Insert<T, C>(x: T, s: seq<T>, key: T -> C, compare: (C, C) -> int): seq<T>
    decreases |s|
  {
    if |s| == 0 then [x]
    else if compare(key(s[|s| - 1]), key(x)) > 0 then Insert(x, s[..|s| - 1], key, compare) + [s[|s| - 1]]
    else s + [x]
  }

  /** Insertion sort: every element in turn is inserted into the sorted prefix. */
  function SortBy<T, C>(s: seq<T>, key: T -> C, compare: (C, C) -> int): seq<T>
    decreases |s|
  {
    if |s| == 0 then []
    else Insert(s[|s| - 1], SortBy(s[..|s| - 1], key, compare), key, compare)
  }

  lemma {:induction false} InsertPermutation<T, C>(x: T, s: seq<T>, key: T -> C, compare: (C, C) -> int)
    ensures multiset(Insert(x, s, key, compare)) == multiset(s) + multiset{x}
    ensures |Insert(x, s, key, compare)| == |s| + 1
    ensures Insert(x, s, key, compare)[|s|] == x || Insert(x, s, key, compare)[|s|] == s[|s| - 1]
    decreases |s|
  {
    if |s| > 0 && compare(key(s[|s| - 1]), key(x)) > 0 {
      var s' := s[..|s| - 1];
      InsertPermutation(x, s', key, compare);
      assert s == s' + [s[|s| - 1]];
    }
  }

  /** The sorted sequence is a permutation of the batch. */
  lemma {:induction false} SortByPermutation<T, C>(s: seq<T>, key: T -> C, compare: (C, C) -> int)
    ensures multiset(SortBy(s, key, compare)) == multiset(s)
    ensures |SortBy(s, key, compare)| == |s|
    decreases |s|
  {
    if |s| > 0 {
      var s' := s[..|s| - 1];
      SortByPermutation(s', key, compare);
      InsertPermutation(s[|s| - 1], SortBy(s', key, compare), key, compare);
      assert s == s' + [s[|s| - 1]];
    }
  }

  lemma {:induction false} InsertSorted<T, C(!new)>(x: T, s: seq<T>, key: T -> C, compare: (C, C) -> int)
    requires ConsistentCompare(compare)
    requires SortedBy(s, key, compare)
    ensures SortedBy(Insert(x, s, key, compare), key, compare)
    decreases |s|
  {
    if |s| > 0 && compare(key(s[|s| - 1]), key(x)) > 0 {
      var s' := s[..|s| - 1];
      var last := s[|s| - 1];
      InsertSorted(x, s', key, compare);
      InsertPermutation(x, s', key, compare);
      var r := Insert(x, s', key, compare);
      assert compare(key(x), key(last)) <= 0;
      assert compare(key(r[|r| - 1]), key(last)) <= 0;
      assert Insert(x, s, key, compare) == r + [last];
    }
  }

  /** With a consistent comparison the result is ordered. */
  lemma {:induction false} SortBySorted<T, C(!new)>(s: seq<T>, key: T -> C, compare: (C, C) -> int)
    requires ConsistentCompare(compare)
    ensures SortedBy(SortBy(s, key, compare), key, compare)
    decreases |s|
  {
    if |s| > 0 {
      SortBySorted(s[..|s| - 1], key, compare);
      InsertSorted(s[|s| - 1], SortBy(s[..|s| - 1], key, compare), key, compare);
    }
  }

  /** Only the comparables of the batch's own elements matter. */
  lemma {:induction false} SortByKeyCongruence<T, C>(s: seq<T>, key1: T -> C, key2: T -> C, compare: (C, C) -> int)
    requires forall i :: 0 <= i < |s| ==> key1(s[i]) == key2(s[i])
    ensures SortBy(s, key1, compare) == SortBy(s, key2, compare)
    decreases |s|
  {
    if |s| > 0 {
      var s' := s[..|s| - 1];
      SortByKeyCongruence(s', key1, key2, compare);
      SortByPermutation(s', key1, compare);
      var sorted := SortBy(s', key1, compare);
      forall i | 0 <= i < |sorted|
        ensures sorted[i] in s
      {
        assert sorted[i] in multiset(sorted);
        assert sorted[i] in s';
      }
      InsertKeyCongruence(s[|s| - 1], SortBy(s', key1, compare), s, key1, key2, compare);
    }
  }

  lemma {:induction false} InsertKeyCongruence<T, C>(x: T, s: seq<T>, universe: seq<T>, key1: T -> C, key2: T -> C, compare: (C, C) -> int)
    requires forall i :: 0 <= i < |universe| ==> key1(universe[i]) == key2(universe[i])
    requires x in universe && forall i :: 0 <= i < |s| ==> s[i] in universe
    ensures Insert(x, s, key1, compare) == Insert(x, s, key2, compare)
    decreases |s|
  {
    if |s| > 0 {
      InsertKeyCongruence(x, s[..|s| - 1], universe, key1, key2, compare);
    }
  }

  /** The default configuration, identity comparables and `defaultCompare`,
      orders a batch by the string order of its elements. */
  lemma DefaultSortOrdersByString<T(!new)>(s: seq<T>, toString: T -> string)
    ensures var r := SortBy(s, Identity, DefaultComparator(toString));
      && multiset(r) == multiset(s)
      && forall i :: 0 < i < |r| ==> !StringLess(toString(r[i]), toString(r[i - 1]))
  {
    var r := SortBy(s, Identity, DefaultComparator(toString));
    DefaultCompareConsistent(toString);
    SortBySorted(s, Identity, DefaultComparator(toString));
    SortByPermutation(s, Identity, DefaultComparator(toString));
    forall i | 0 < i < |r|
      ensures !StringLess(toString(r[i]), toString(r[i - 1]))
    {
      DefaultCompareSpec(toString, r[i - 1], r[i]);
    }
  }

  // -----------------------------------------------------------------------
  // In-place insertion sort

  /** Moving `x` one place left past an element that compares greater. */
  lemma InsertPrefixStep<T, C>(x: T, sorted: seq<T>, j: int, key: T -> C, compare: (C, C) -> int)
    requires 0 < j <= |sorted|
    requires compare(key(sorted[j - 1]), key(x)) > 0
    ensures Insert(x, sorted[..j], key, compare) + sorted[j..]
         == Insert(x, sorted[..j - 1], key, compare) + sorted[j - 1..]
  {
    assert sorted[..j][..j - 1] == sorted[..j - 1];
    assert sorted[j - 1..] == [sorted[j - 1]] + sorted[j..];
  }

  /** Where `x` stops, the insertion puts it right there. */
  lemma InsertPrefixStop<T, C>(x: T, sorted: seq<T>, j: int, key: T -> C, compare: (C, C) -> int)
    requires 0 <= j <= |sorted|
    requires j == 0 || compare(key(sorted[j - 1]), key(x)) <= 0
    ensures Insert(x, sorted[..j], key, compare) == sorted[..j] + [x]
  {
  }

  /** The array while `orig[i]` moves left: it sits at `j`, the elements
      it passed sit one place to the right, the rest are where they were. */
  ghost predicate Shifted<T>(cur: seq<T>, orig: seq<T>, i: int, j: int)
  {
    && |cur| == |orig| && 0 <= j <= i < |orig| && cur[j] == orig[i]
    && (forall k :: 0 <= k < j ==> cur[k] == orig[k])
    && (forall k :: j < k <= i ==> cur[k] == orig[k - 1])
    && (forall k :: i < k < |cur| ==> cur[k] == orig[k])
  }

  lemma ShiftedStep<T>(cur: seq<T>, orig: seq<T>, i: int, j: int)
    requires Shifted(cur, orig, i, j) && j > 0
    ensures cur[j - 1] == orig[j - 1]
    ensures Shifted(cur[j - 1 := cur[j]][j := cur[j - 1]], orig, i, j - 1)
  {
  }

  lemma ShiftedDone<T>(cur: seq<T>, orig: seq<T>, i: int, j: int)
    requires Shifted(cur, orig, i, j)
    ensures cur[..i + 1] == orig[..i][..j] + [orig[i]] + orig[..i][j..]
    ensures cur[i + 1..] == orig[i + 1..]
  {
  }

  /** Inserts `a[i]` into the sorted prefix `a[..i]`, moving it left past
      every element whose comparable compares greater. */
  method InsertLast<T, C>(a: array<T>, i: int, key: T -> C, compare: (C, C) -> int)
    requires 0 <= i < a.Length
    modifies a
    ensures a[..i + 1] == Insert(old(a[i]), old(a[..i]), key, compare)
    ensures a[i + 1..] == old(a[i + 1..])
  {
    ghost var orig := a[..];
    ghost var sorted := orig[..i];
    var x := a[i];
    var j := i;
    assert sorted[..j] == sorted && sorted[j..] == [];
    while j > 0 && compare(key(a[j - 1]), key(x)) > 0
      invariant Shifted(a[..], orig, i, j)
      invariant Insert(x, sorted, key, compare) == Insert(x, sorted[..j], key, compare) + sorted[j..]
    {
      ShiftedStep(a[..], orig, i, j);
      InsertPrefixStep(x, sorted, j, key, compare);
      a[j - 1], a[j] := x, a[j - 1];
      j := j - 1;
    }
    InsertPrefixStop(x, sorted, j, key, compare);
    ShiftedDone(a[..], orig, i, j);
  }

  /** In-place insertion sort of an array, specified by `SortBy`. */
  method SortArray<T, C>(a: array<T>, key: T -> C, compare: (C, C) -> int)
    modifies a
    ensures a[..] == SortBy(old(a[..]), key, compare)
  {
    ghost var original := a[..];
    for i := 0 to a.Length
      invariant a[..i] == SortBy(original[..i], key, compare)
      invariant a[i..] == original[i..]
    {
      assert a[i] == original[i];
      InsertLast(a, i, key, compare);
      assert original[..i + 1][..i] == original[..i];
    }
    assert original[..a.Length] == original;
    assert a[..a.Length] == a[..];
  }

  // -----------------------------------------------------------------------
  // The sort that caches comparables while copying the batch

  /** The state a `sort` operator keeps across batches: its two functions
      and the comparables cache. `evaluations` records every call of the
      comparable selector. Both revisions of the operator share this state;
      `SortBatch` is the current one and `SortCopy` the older one. */
  class Sorter<T(==), C> {
    const comparableSelector: T -> C
    const compare: (C, C) -> int
    var comparables: map<T, C>
    ghost var evaluations: seq<T>

    /** The cache holds exactly the inputs the selector was called for, each
        called once, with the value the selector gave. */
    ghost predicate Valid()
      reads this
    {
      && (forall x :: x in comparables ==> comparables[x] == comparableSelector(x))
      && (forall i :: 0 <= i < |evaluations| ==> evaluations[i] in comparables)
      && (forall x :: x in comparables ==> x in evaluations)
      && (forall i, j :: 0 <= i < j < |evaluations| ==> evaluations[i] != evaluations[j])
    }

    /** Since `old`, the cache only grew, by inputs from `universe`, and the
        selector was called only after the earlier calls. */
    ghost predicate Grew(keys0: set<T>, evaluations0: seq<T>, universe: set<T>)
      reads this
    {
      keys0 <= comparables.Keys <= keys0 + universe && evaluations0 <= evaluations
    }

    constructor (comparableSelector: T -> C, compare: (C, C) -> int)
      ensures Valid()
      ensures this.comparableSelector == comparableSelector && this.compare == compare
      ensures comparables == map[] && evaluations == []
    {
      this.comparableSelector := comparableSelector;
      this.compare := compare;
      comparables := map[];
      evaluations := [];
    }

    /** Caches the comparable of `input` unless an earlier call did. */
    method Cache(input: T)
      requires Valid()
      modifies this
      ensures Valid()
      ensures comparables.Keys == old(comparables.Keys) + {input}
      ensures evaluations == old(evaluations) + (if input in old(comparables) then [] else [input])
    {
      if input !in comparables {
        comparables := comparables[input := comparableSelector(input)];
        evaluations := evaluations + [input];
      }
    }

    /** Sorts one batch: caches the comparable of every input while copying
        the batch into `result`, then sorts `result` in place by the cached
        comparables. */
    method SortBatch(inputs: seq<T>) returns (result: array<T>)
      requires Valid()
      modifies this
      ensures Valid()
      ensures fresh(result)
      ensures result[..] == SortBy(inputs, comparableSelector, compare)
      ensures multiset(result[..]) == multiset(inputs)
      ensures comparables.Keys == old(comparables.Keys) + set x | x in inputs
      ensures old(evaluations) <= evaluations
    {
      var items: seq<T> := [];
      for i := 0 to |inputs|
        invariant Valid()
        invariant items == inputs[..i]
        invariant comparables.Keys == old(comparables.Keys) + set x | x in inputs[..i]
        invariant old(evaluations) <= evaluations
      {
        Cache(inputs[i]);
        items := items + [inputs[i]];
        assert inputs[..i + 1] == inputs[..i] + [inputs[i]];
      }
      assert inputs[..|inputs|] == inputs;
      result := new T[|items|](k requires 0 <= k < |items| => items[k]);
      assert result[..] == inputs;
      var cache := comparables;
      var selector := comparableSelector;
      var cached := (x: T) => if x in cache then cache[x] else selector(x);
      SortArray(result, cached, compare);
      SortByKeyCongruence(inputs, cached, comparableSelector, compare);
      SortByPermutation(inputs, comparableSelector, compare);
    }

    /** The comparator of the older revision: fills the cache for both
        inputs, then compares their cached comparables. */
    method CompareInputs(inputA: T, inputB: T) returns (r: int)
      requires Valid()
      modifies this
      ensures Valid()
      ensures r == compare(comparableSelector(inputA), comparableSelector(inputB))
      ensures comparables.Keys == old(comparables.Keys) + {inputA, inputB}
      ensures old(evaluations) <= evaluations
    {
      Cache(inputA);
      Cache(inputB);
      r := compare(comparables[inputA], comparables[inputB]);
    }

    /** The insertion step of the older revision, comparing through the cache. */
    method InsertLast(a: array<T>, i: int, ghost universe: set<T>)
      requires Valid()
      requires 0 <= i < a.Length
      requires forall k :: 0 <= k <= i ==> a[k] in universe
      modifies this, a
      ensures Valid()
      ensures a[..i + 1] == Insert(old(a[i]), old(a[..i]), comparableSelector, compare)
      ensures a[i + 1..] == old(a[i + 1..])
      ensures Grew(old(comparables.Keys), old(evaluations), universe)
    {
      ghost var orig := a[..];
      ghost var sorted := orig[..i];
      ghost var keys0, evaluations0 := comparables.Keys, evaluations;
      var x := a[i];
      var j := i;
      assert sorted[..j] == sorted && sorted[j..] == [];
      while j > 0
        invariant Valid()
        invariant Shifted(a[..], orig, i, j)
        invariant Insert(x, sorted, comparableSelector, compare)
               == Insert(x, sorted[..j], comparableSelector, compare) + sorted[j..]
        invariant Grew(keys0, evaluations0, universe)
      {
        ShiftedStep(a[..], orig, i, j);
        var y := a[j - 1];
        var c := CompareInputs(y, x);
        if c <= 0 {
          break;
        }
        InsertPrefixStep(x, sorted, j, comparableSelector, compare);
        a[j - 1], a[j] := x, y;
        j := j - 1;
      }
      InsertPrefixStop(x, sorted, j, comparableSelector, compare);
      ShiftedDone(a[..], orig, i, j);
    }

    /** The older revision: sorts a `slice` copy of `arr`, filling the cache
        from inside the comparator; `arr` itself is left as it was. */
    method SortCopy(arr: array<T>) returns (result: array<T>)
      requires Valid()
      modifies this
      ensures Valid()
      ensures fresh(result)
      ensures arr[..] == old(arr[..])
      ensures result[..] == SortBy(arr[..], comparableSelector, compare)
      ensures multiset(result[..]) == multiset(arr[..])
      ensures Grew(old(comparables.Keys), old(evaluations), set x | x in arr[..])
    {
      result := new T[arr.Length](k reads arr requires 0 <= k < arr.Length => arr[k]);
      ghost var original := result[..];
      assert original == arr[..];
      ghost var universe := set x | x in original;
      ghost var keys0, evaluations0 := comparables.Keys, evaluations;
      for i := 0 to result.Length
        invariant Valid()
        invariant result[..i] == SortBy(original[..i], comparableSelector, compare)
        invariant result[i..] == original[i..]
        invariant Grew(keys0, evaluations0, universe)
      {
        SortPrefixInUniverse(original, i, result[..i + 1], comparableSelector, compare);
        assert result[i] == original[i];
        assert result[i + 1..] == original[i + 1..];
        InsertLast(result, i, universe);
        assert original[..i + 1][..i] == original[..i];
      }
      assert original[..result.Length] == original;
      assert result[..result.Length] == result[..];
      SortByPermutation(original, comparableSelector, compare);
    }
  }

  /** Every element of a sorted prefix followed by the next element lies in
      the batch. */
  lemma SortPrefixInUniverse<T, C>(original: seq<T>, i: int, s: seq<T>, key: T -> C, compare: (C, C) -> int)
    requires 0 <= i < |original|
    requires |s| == i + 1
    requires s[..i] == SortBy(original[..i], key, compare) && s[i] == original[i]
    ensures forall k :: 0 <= k <= i ==> s[k] in set x | x in original
  {
    SortByPermutation(original[..i], key, compare);
    forall k | 0 <= k <= i
      ensures s[k] in original
    {
      if k < i {
        assert s[k] == s[..i][k];
        assert s[k] in multiset(s[..i]);
        assert s[k] in original[..i];
      }
    }
  }
}
