/** Bucketing by key in first-seen order, as both column-chart transforms do
    with an insertion-ordered `Map`: the map's key order is `Keys`, and the
    list a key's record collects is `Members`. */
module Buckets {

  /** The distinct keys of `points`, each at the position where it is first
      seen. */
  function Keys<P, G(==)>(points: seq<P>, key: P -> G): seq<G>
    decreases |points|
  {
    if |points| == 0 then []
    else
      var keys := Keys(points[..|points| - 1], key);
      var g := key(points[|points| - 1]);
      if g in keys then keys else keys + [g]
  }

  /** The points whose key is `g`, in their original order. */
  function Members<P, G(==)>(points: seq<P>, key: P -> G, g: G): seq<P>
    decreases |points|
  {
    if |points| == 0 then []
    else
      var members := Members(points[..|points| - 1], key, g);
      var p := points[|points| - 1];
      if key(p) == g then members + [p] else members
  }

  /** How many members the buckets of `keys` hold altogether. */
  function MemberCount<P, G(==)>(points: seq<P>, key: P -> G, keys: seq<G>): nat
    decreases |keys|
  {
    if |keys| == 0 then 0
    else MemberCount(points, key, keys[..|keys| - 1]) + |Members(points, key, keys[|keys| - 1])|
  }

  predicate Distinct<G(==)>(keys: seq<G>)
  {
    forall i, j :: 0 <= i < j < |keys| ==> keys[i] != keys[j]
  }

  // ---------------------------------------------------------------------
  // Properties

  lemma {:induction false} KeysDistinct<P, G>(points: seq<P>, key: P -> G)
    ensures Distinct(Keys(points, key))
    decreases |points|
  {
    if |points| > 0 {
      KeysDistinct(points[..|points| - 1], key);
    }
  }

  /** A key is bucketed exactly when some point has it. */
  lemma {:induction false} KeysCover<P, G>(points: seq<P>, key: P -> G, g: G)
    ensures g in Keys(points, key) <==> exists i :: 0 <= i < |points| && key(points[i]) == g
    decreases |points|
  {
    if |points| > 0 {
      var prefix := points[..|points| - 1];
      KeysCover(prefix, key, g);
      if exists i :: 0 <= i < |prefix| && key(prefix[i]) == g {
        var i :| 0 <= i < |prefix| && key(prefix[i]) == g;
        assert points[i] == prefix[i];
      }
      if exists i :: 0 <= i < |points| && key(points[i]) == g {
        var i :| 0 <= i < |points| && key(points[i]) == g;
        if i < |prefix| {
          assert prefix[i] == points[i];
        }
      }
    }
  }

  /** First-seen order: the keys of any prefix of the points are a prefix of
      the keys of all of them, so later points never reorder earlier keys. */
  lemma {:induction false} KeysFirstSeen<P, G>(points: seq<P>, key: P -> G, n: nat)
    requires n <= |points|
    ensures Keys(points[..n], key) <= Keys(points, key)
    decreases |points| - n
  {
    if n < |points| {
      var m := |points| - 1;
      assert points[..m][..n] == points[..n];
      KeysFirstSeen(points[..m], key, n);
    } else {
      assert points[..n] == points;
    }
  }

  /** Every member of bucket `g` has key `g` and comes from `points`, and
      every point with key `g` is a member. */
  lemma {:induction false} MembersOfKey<P, G>(points: seq<P>, key: P -> G, g: G)
    ensures forall k :: 0 <= k < |Members(points, key, g)| ==>
      key(Members(points, key, g)[k]) == g && Members(points, key, g)[k] in points
    ensures forall i :: 0 <= i < |points| && key(points[i]) == g ==> points[i] in Members(points, key, g)
    decreases |points|
  {
    if |points| > 0 {
      var prefix := points[..|points| - 1];
      MembersOfKey(prefix, key, g);
      forall i | 0 <= i < |points| && key(points[i]) == g
        ensures points[i] in Members(points, key, g)
      {
        if i < |prefix| {
          assert points[i] == prefix[i];
        }
      }
      forall k | 0 <= k < |Members(points, key, g)|
        ensures Members(points, key, g)[k] in points
      {
        var members := Members(prefix, key, g);
        if k < |members| {
          assert Members(points, key, g)[k] == members[k];
          assert members[k] in prefix;
        }
      }
    }
  }

  /** A bucket is non-empty exactly when its key is among the keys. */
  lemma {:induction false} MembersNonEmpty<P, G>(points: seq<P>, key: P -> G, g: G)
    ensures Members(points, key, g) != [] <==> g in Keys(points, key)
    decreases |points|
  {
    if |points| > 0 {
      MembersNonEmpty(points[..|points| - 1], key, g);
    }
  }

  /** The next point joins the bucket of its own key and no other. */
  lemma MembersStep<P, G>(points: seq<P>, i: nat, key: P -> G, g: G)
    requires i < |points|
    ensures Members(points[..i + 1], key, g)
         == if key(points[i]) == g then Members(points[..i], key, g) + [points[i]] else Members(points[..i], key, g)
  {
    assert points[..i + 1][..i] == points[..i];
  }

  lemma {:induction false} CountAppend<P, G>(points: seq<P>, p: P, key: P -> G, keys: seq<G>)
    requires Distinct(keys)
    ensures MemberCount(points + [p], key, keys)
         == MemberCount(points, key, keys) + (if key(p) in keys then 1 else 0)
    decreases |keys|
  {
    assert (points + [p])[..|points|] == points;
    if |keys| > 0 {
      var prefix := keys[..|keys| - 1];
      assert keys == prefix + [keys[|keys| - 1]];
      CountAppend(points, p, key, prefix);
    }
  }

  /** The buckets partition the points: no point is lost or counted twice. */
  lemma {:induction false} MembersPartition<P, G>(points: seq<P>, key: P -> G)
    ensures MemberCount(points, key, Keys(points, key)) == |points|
    decreases |points|
  {
    if |points| > 0 {
      var prefix := points[..|points| - 1];
      var p := points[|points| - 1];
      var keys := Keys(prefix, key);
      assert points == prefix + [p];
      MembersPartition(prefix, key);
      KeysDistinct(prefix, key);
      CountAppend(prefix, p, key, keys);
      if key(p) !in keys {
        MembersNonEmpty(prefix, key, key(p));
        assert (keys + [key(p)])[..|keys|] == keys;
      }
    }
  }
}
