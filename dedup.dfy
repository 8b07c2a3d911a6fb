/** The "merge if the key is not yet seen" filter the loader runs before
    every database merge: items are visited in order, an item is merged
    when it has a key that is not in the seen list, and its key is then
    appended to that list, so the list guards both against what is already
    stored and against repeats within one load. An item without a key (a
    `None` datum) is skipped. */
module Dedup {
  import opened Wrappers

  /** `xs[pos[0]], xs[pos[1]], ...`. */
  function Pick<T>(xs: seq<T>, pos: seq<nat>): (r: seq<T>)
    requires forall j :: 0 <= j < |pos| ==> pos[j] < |xs|
    ensures |r| == |pos| && forall j :: 0 <= j < |pos| ==> r[j] == xs[pos[j]]
  {
    seq(|pos|, j requires 0 <= j < |pos| => xs[pos[j]])
  }

  /** The keys at the given positions, all of which carry one. */
  function KeysAt<K>(keys: seq<Option<K>>, pos: seq<nat>): (r: seq<K>)
    requires forall j :: 0 <= j < |pos| ==> pos[j] < |keys| && keys[pos[j]].Some?
    ensures |r| == |pos| && forall j :: 0 <= j < |pos| ==> Some(r[j]) == keys[pos[j]]
  {
    seq(|pos|, j requires 0 <= j < |pos| => keys[pos[j]].value)
  }

  /** Positions the filter has a key for. */
  predicate Keyed<K>(keys: seq<Option<K>>, pos: seq<nat>) {
    forall j :: 0 <= j < |pos| ==> pos[j] < |keys| && keys[pos[j]].Some?
  }

  /** The positions among the first `n` that the filter merges, in visiting
      order; `seen + KeysAt(keys, pos)` is the seen list at that point. */
  function MergedUpTo<K(==)>(keys: seq<Option<K>>, seen: seq<K>, n: nat): (pos: seq<nat>)
    requires n <= |keys|
    ensures Keyed(keys, pos)
    ensures forall j :: 0 <= j < |pos| ==> pos[j] < n
  {
    if n == 0 then []
    else
      var pos := MergedUpTo(keys, seen, n - 1);
      if keys[n - 1].Some? && keys[n - 1].value !in seen + KeysAt(keys, pos) then pos + [n - 1] else pos
  }

  /** The positions of a whole pass. */
  function Merged<K(==)>(keys: seq<Option<K>>, seen: seq<K>): (pos: seq<nat>)
    ensures Keyed(keys, pos)
  {
    MergedUpTo(keys, seen, |keys|)
  }

  /** The seen list after a whole pass. */
  function SeenAfter<K(==)>(keys: seq<Option<K>>, seen: seq<K>): (r: seq<K>)
    ensures seen <= r && |r| == |seen| + |Merged(keys, seen)|
  {
    seen + KeysAt(keys, Merged(keys, seen))
  }

  /** One more merged position: the picked items and keys grow by one. */
  lemma PickAppend<T, K>(xs: seq<T>, keys: seq<Option<K>>, pos: seq<nat>, i: nat)
    requires |xs| == |keys| && i < |xs| && keys[i].Some? && Keyed(keys, pos)
    ensures Pick(xs, pos + [i]) == Pick(xs, pos) + [xs[i]]
    ensures KeysAt(keys, pos + [i]) == KeysAt(keys, pos) + [keys[i].value]
  {
  }

  /** The state of the filter loop after its first `n` items: `merged`
      and `seen'` are the picked items and the grown seen list. */
  ghost predicate LoopState<T, K>(xs: seq<T>, keys: seq<Option<K>>, seen: seq<K>, n: nat,
                                merged: seq<T>, seen': seq<K>, pos: seq<nat>)
  {
    && n <= |xs| == |keys|
    && pos == MergedUpTo(keys, seen, n)
    && merged == Pick(xs, pos) && seen' == seen + KeysAt(keys, pos)
  }

  /** Before the loop nothing is merged and the seen list is the original. */
  lemma LoopStart<T, K>(xs: seq<T>, keys: seq<Option<K>>, seen: seq<K>)
    requires |xs| == |keys|
    ensures LoopState(xs, keys, seen, 0, [], seen, [])
  {
    assert seen + KeysAt(keys, []) == seen;
  }

  /** The loop body: an item with an unseen key is merged and its key
      recorded, any other item is passed over. */
  lemma LoopStep<T, K>(xs: seq<T>, keys: seq<Option<K>>, seen: seq<K>, n: nat,
                       merged: seq<T>, seen': seq<K>, pos: seq<nat>)
    requires LoopState(xs, keys, seen, n, merged, seen', pos) && n < |xs|
    ensures keys[n].Some? && keys[n].value !in seen' ==>
      LoopState(xs, keys, seen, n + 1, merged + [xs[n]], seen' + [keys[n].value], pos + [n])
    ensures !(keys[n].Some? && keys[n].value !in seen') ==>
      LoopState(xs, keys, seen, n + 1, merged, seen', pos)
  {
    if keys[n].Some? && keys[n].value !in seen' {
      PickAppend(xs, keys, pos, n);
    }
  }

  /** An item is merged exactly when it has a key that is not in the
      original seen list and that no earlier item carries. */
  lemma {:induction false} MergedUpToIff<K>(keys: seq<Option<K>>, seen: seq<K>, n: nat, i: nat)
    requires n <= |keys| && i < n
    ensures i in MergedUpTo(keys, seen, n) <==>
      keys[i].Some? && keys[i].value !in seen && forall j :: 0 <= j < i ==> keys[j] != keys[i]
  {
    var pos := MergedUpTo(keys, seen, n - 1);
    if i < n - 1 {
      MergedUpToIff(keys, seen, n - 1, i);
      assert i in MergedUpTo(keys, seen, n) <==> i in pos;
    } else {
      // i is the position visited last: its key is new exactly when no
      // earlier position with the same key was merged or already seen.
      if keys[i].Some? {
        var ks := KeysAt(keys, pos);
        if keys[i].value in ks {
          var j :| 0 <= j < |ks| && ks[j] == keys[i].value;
          assert keys[pos[j]] == keys[i] && pos[j] < i;
        } else if keys[i].value !in seen {
          forall j | 0 <= j < i
            ensures keys[j] != keys[i]
          {
            if keys[j] == keys[i] {
              FirstOccurrenceMerged(keys, seen, n - 1, j);
            }
          }
        }
      }
      assert i !in pos;
    }
  }

  /** The first position carrying a key that is not in the seen list is
      merged, or one before it carries the same key. */
  lemma {:induction false} FirstOccurrenceMerged<K>(keys: seq<Option<K>>, seen: seq<K>, n: nat, j: nat)
    requires j < n <= |keys| && keys[j].Some? && keys[j].value !in seen
    ensures keys[j].value in KeysAt(keys, MergedUpTo(keys, seen, n))
  {
    var pos := MergedUpTo(keys, seen, n - 1);
    if j < n - 1 {
      FirstOccurrenceMerged(keys, seen, n - 1, j);
      var ks := KeysAt(keys, pos);
      var ks' := KeysAt(keys, MergedUpTo(keys, seen, n));
      var k :| 0 <= k < |ks| && ks[k] == keys[j].value;
      assert ks'[k] == ks[k];
    } else {
      var ks' := KeysAt(keys, MergedUpTo(keys, seen, n));
      if keys[j].value !in KeysAt(keys, pos) {
        assert ks'[|ks'| - 1] == keys[j].value;
      }
    }
  }

  /** Merged positions are visited in order. */
  lemma {:induction false} MergedUpToOrdered<K>(keys: seq<Option<K>>, seen: seq<K>, n: nat)
    requires n <= |keys|
    ensures forall a, b :: 0 <= a < b < |MergedUpTo(keys, seen, n)| ==>
      MergedUpTo(keys, seen, n)[a] < MergedUpTo(keys, seen, n)[b]
  {
    if n > 0 {
      MergedUpToOrdered(keys, seen, n - 1);
    }
  }

  /** What a pass guarantees: merged items appear in their original order
      and carry pairwise distinct keys, none of which was in the seen list;
      the seen list only grows, by exactly the merged keys; and afterwards
      every item's key is in it. */
  lemma PassGuarantees<K>(keys: seq<Option<K>>, seen: seq<K>)
    ensures var pos := Merged(keys, seen);
      && (forall a, b :: 0 <= a < b < |pos| ==> pos[a] < pos[b])
      && (forall a, b :: 0 <= a < b < |pos| ==> keys[pos[a]] != keys[pos[b]])
      && (forall a :: 0 <= a < |pos| ==> keys[pos[a]].value !in seen)
    ensures |seen| <= |SeenAfter(keys, seen)| && SeenAfter(keys, seen)[..|seen|] == seen
    ensures forall i :: 0 <= i < |keys| && keys[i].Some? ==> keys[i].value in SeenAfter(keys, seen)
  {
    var pos := Merged(keys, seen);
    MergedUpToOrdered(keys, seen, |keys|);
    forall a, b | 0 <= a < b < |pos|
      ensures keys[pos[a]] != keys[pos[b]]
    {
      MergedUpToIff(keys, seen, |keys|, pos[b]);
    }
    forall a | 0 <= a < |pos|
      ensures keys[pos[a]].value !in seen
    {
      MergedUpToIff(keys, seen, |keys|, pos[a]);
    }
    forall i | 0 <= i < |keys| && keys[i].Some?
      ensures keys[i].value in SeenAfter(keys, seen)
    {
      if keys[i].value !in seen {
        FirstOccurrenceMerged(keys, seen, |keys|, i);
      }
    }
  }

  /** A second pass over the same items, with the seen list the first pass
      left, merges nothing. */
  lemma SecondPassMergesNothing<K>(keys: seq<Option<K>>, seen: seq<K>)
    ensures Merged(keys, SeenAfter(keys, seen)) == []
  {
    PassGuarantees(keys, seen);
    var seen' := SeenAfter(keys, seen);
    if Merged(keys, seen') != [] {
      var i := Merged(keys, seen')[0];
      MergedUpToIff(keys, seen', |keys|, i);
    }
  }

  // ---------------------------------------------------------------------------
  // The filter without a seen list of its own
  // ---------------------------------------------------------------------------

  /** `[x for x in xs if x not in stored]`. */
  function NotIn<T(==)>(xs: seq<T>, stored: seq<T>): (r: seq<T>)
    ensures |r| <= |xs|
    ensures forall j :: 0 <= j < |r| ==> r[j] !in stored
  {
    if |xs| == 0 then []
    else NotIn(xs[..|xs| - 1], stored) + (if xs[|xs| - 1] !in stored then [xs[|xs| - 1]] else [])
  }

  /** The kept items are exactly the ones not stored, each as often as it
      occurs in `xs`. */
  lemma {:induction false} NotInExact<T>(xs: seq<T>, stored: seq<T>)
    ensures forall x :: x in NotIn(xs, stored) <==> x in xs && x !in stored
    ensures forall x :: x !in stored ==> multiset(NotIn(xs, stored))[x] == multiset(xs)[x]
    ensures forall x :: x in stored ==> multiset(NotIn(xs, stored))[x] == 0
  {
    if |xs| > 0 {
      var init := xs[..|xs| - 1];
      NotInExact(init, stored);
      assert xs == init + [xs[|xs| - 1]];
    }
  }

  /** The filter works item by item: filtering a concatenation is
      concatenating the filtered parts, so the kept items stay in their
      original order. */
  lemma {:induction false} NotInAppend<T>(xs: seq<T>, ys: seq<T>, stored: seq<T>)
    ensures NotIn(xs + ys, stored) == NotIn(xs, stored) + NotIn(ys, stored)
  {
    if |ys| == 0 {
      assert xs + ys == xs;
    } else {
      var init := ys[..|ys| - 1];
      NotInAppend(xs, init, stored);
      assert (xs + ys)[..|xs + ys| - 1] == xs + init;
      assert (xs + ys)[|xs + ys| - 1] == ys[|ys| - 1];
    }
  }

  /** Filtering again changes nothing, and with the kept items added to the
      stored ones keeps nothing. */
  lemma NotInIdempotent<T>(xs: seq<T>, stored: seq<T>)
    ensures NotIn(NotIn(xs, stored), stored) == NotIn(xs, stored)
    ensures NotIn(xs, stored + NotIn(xs, stored)) == []
  {
    NotInExact(xs, stored);
    NotInKeepsFree(NotIn(xs, stored), stored);
    NotInAllStored(xs, stored + NotIn(xs, stored));
  }

  /** A list with no stored item passes unchanged. */
  lemma {:induction false} NotInKeepsFree<T>(xs: seq<T>, stored: seq<T>)
    requires forall x :: x in xs ==> x !in stored
    ensures NotIn(xs, stored) == xs
  {
    if |xs| > 0 {
      NotInKeepsFree(xs[..|xs| - 1], stored);
      assert xs == xs[..|xs| - 1] + [xs[|xs| - 1]];
    }
  }

  /** A list whose every item is stored is dropped entirely. */
  lemma {:induction false} NotInAllStored<T>(xs: seq<T>, stored: seq<T>)
    requires forall x :: x in xs ==> x in stored
    ensures NotIn(xs, stored) == []
  {
    if |xs| > 0 {
      NotInAllStored(xs[..|xs| - 1], stored);
    }
  }
}
