/** The running accumulator of one pass: an insertion-ordered map from item
    definition to summed count, held as a sequence of entries with distinct
    keys, and the fold of a batch of stacks into it. */
module Accumulator {
  import opened Items

  type Entry = (ItemDefinition, int)

  predicate DistinctKeys(m: seq<Entry>) {
    forall i, j :: 0 <= i < j < |m| ==> m[i].0 != m[j].0
  }

  /** The keys of the map, in insertion order. */
  function Keys(m: seq<Entry>): (keys: seq<ItemDefinition>)
    ensures |keys| == |m|
    ensures forall i :: 0 <= i < |m| ==> keys[i] == m[i].0
  {
    seq(|m|, i requires 0 <= i < |m| => m[i].0)
  }

  /** The position of `key`, or -1 when the map does not hold it. */
  function IndexOf(m: seq<Entry>, key: ItemDefinition): (i: int)
    ensures -1 <= i < |m|
    ensures i >= 0 ==> m[i].0 == key && forall j :: 0 <= j < i ==> m[j].0 != key
    ensures i < 0 <==> key !in Keys(m)
  {
    if m == [] then -1
    else if m[0].0 == key then 0
    else
      var j := IndexOf(m[1..], key);
      assert forall t :: 0 <= t < |m| - 1 ==> m[1..][t] == m[t + 1];
      if j < 0 then -1 else j + 1
  }

  /** What one entry contributes to the count of `key`. */
  function Share(e: Entry, key: ItemDefinition): int {
    if e.0 == key then e.1 else 0
  }

  /** The count stored for `key`: the sum over the entries with that key,
      which is the one entry's value when keys are distinct (CountIsValue) and
      0 when the key is absent. */
  function Count(m: seq<Entry>, key: ItemDefinition): (n: int)
    ensures key !in Keys(m) ==> n == 0
  {
    if m == [] then 0 else Count(m[..|m| - 1], key) + Share(m[|m| - 1], key)
  }

  /** The map's `addTo`: a key already present keeps its position and gains
      `n`; a new key is appended with count `n`. */
  function AddTo(m: seq<Entry>, key: ItemDefinition, n: int): (r: seq<Entry>)
    ensures key in Keys(m) ==> Keys(r) == Keys(m)
    ensures key !in Keys(m) ==> Keys(r) == Keys(m) + [key]
    ensures DistinctKeys(m) ==> DistinctKeys(r)
    ensures key !in Keys(m) ==> r[|m|] == (key, n)
  {
    var i := IndexOf(m, key);
    if i < 0 then
      m + [(key, n)]
    else
      var r := m[i := (key, m[i].1 + n)];
      assert Keys(r) == Keys(m);
      r
  }

  /** `addTo` raises the count of its key by `n` and leaves every other count alone. */
  lemma AddToCount(m: seq<Entry>, key: ItemDefinition, n: int, other: ItemDefinition)
    ensures Count(AddTo(m, key, n), other) == Count(m, other) + (if other == key then n else 0)
  {
    var i := IndexOf(m, key);
    var r := AddTo(m, key, n);
    if i < 0 {
      assert r == m + [(key, n)];
      assert r[..|r| - 1] == m;
      assert Count(r, other) == Count(m, other) + Share((key, n), other);
    } else {
      assert r == m[i := (key, m[i].1 + n)];
      CountUpdate(m, i, (key, m[i].1 + n), other);
    }
  }

  lemma {:induction false} CountUpdate(m: seq<Entry>, i: nat, e: Entry, key: ItemDefinition)
    requires i < |m|
    ensures Count(m[i := e], key) == Count(m, key) - Share(m[i], key) + Share(e, key)
    decreases |m|
  {
    var u := m[i := e];
    if i == |m| - 1 {
      assert u[..|u| - 1] == m[..|m| - 1];
    } else {
      assert u[..|u| - 1] == m[..|m| - 1][i := e];
      CountUpdate(m[..|m| - 1], i, e, key);
    }
  }

  /** With distinct keys, the count of a key is the value of its one entry. */
  lemma {:induction false} CountIsValue(m: seq<Entry>, i: nat)
    requires DistinctKeys(m) && i < |m|
    ensures Count(m, m[i].0) == m[i].1
    decreases |m|
  {
    var init := m[..|m| - 1];
    if i == |m| - 1 {
      assert m[i].0 !in Keys(init);
    } else {
      CountIsValue(init, i);
    }
  }

  /** Folding one stack: a stack the filter keeps is added under its definition. */
  function Absorb(m: seq<Entry>, stack: ItemStack): seq<Entry> {
    if NonEmpty(stack) then AddTo(m, ItemDefinition.FromStack(stack), stack.count) else m
  }

  /** The accumulator after a batch: every stack folded in, in batch order. */
  function FoldBatch(m: seq<Entry>, batch: seq<ItemStack>): (r: seq<Entry>)
    ensures DistinctKeys(m) ==> DistinctKeys(r)
    ensures |m| <= |r| <= |m| + |batch|
    decreases |batch|
  {
    if batch == [] then m else Absorb(FoldBatch(m, batch[..|batch| - 1]), batch[|batch| - 1])
  }

  /** The stack is kept by the filter and has definition `d`. */
  predicate KeptAs(stack: ItemStack, d: ItemDefinition) {
    NonEmpty(stack) && ItemDefinition.FromStack(stack) == d
  }

  /** What a stack contributes to the count of `key`. */
  function StackShare(stack: ItemStack, key: ItemDefinition): int {
    if KeptAs(stack, key) then stack.count else 0
  }

  /** The summed count of the kept stacks of `batch` whose definition is `key`. */
  function SumFor(batch: seq<ItemStack>, key: ItemDefinition): int
    decreases |batch|
  {
    if batch == [] then 0 else SumFor(batch[..|batch| - 1], key) + StackShare(batch[|batch| - 1], key)
  }

  /** The position of the first kept stack of `batch` with definition `d`,
      or |batch| when there is none. */
  function FirstKept(batch: seq<ItemStack>, d: ItemDefinition): (f: nat)
    ensures f <= |batch|
    ensures f < |batch| ==> KeptAs(batch[f], d)
    ensures forall j :: 0 <= j < f ==> !KeptAs(batch[j], d)
    decreases |batch|
  {
    if batch == [] then 0
    else
      var init := batch[..|batch| - 1];
      var f := FirstKept(init, d);
      assert forall j :: 0 <= j < |init| ==> batch[j] == init[j];
      if f < |init| then f else if KeptAs(batch[|batch| - 1], d) then |init| else |batch|
  }

  /** The definitions that `batch` adds to a map already holding `seen`, in
      the order they are first encountered. */
  function NewKeys(seen: seq<ItemDefinition>, batch: seq<ItemStack>): (keys: seq<ItemDefinition>)
    ensures forall i, j :: 0 <= i < j < |keys| ==> keys[i] != keys[j]
    ensures forall i :: 0 <= i < |keys| ==> keys[i] !in seen
    ensures forall i :: 0 <= i < |keys| ==>
              exists j :: 0 <= j < |batch| && KeptAs(batch[j], keys[i])
    ensures forall j :: 0 <= j < |batch| && NonEmpty(batch[j]) ==>
              ItemDefinition.FromStack(batch[j]) in seen || ItemDefinition.FromStack(batch[j]) in keys
    decreases |batch|
  {
    if batch == [] then []
    else
      var init := batch[..|batch| - 1];
      var last := batch[|batch| - 1];
      var prev := NewKeys(seen, init);
      var d := ItemDefinition.FromStack(last);
      assert forall j :: 0 <= j < |init| ==> batch[j] == init[j];
      if NonEmpty(last) && d !in seen && d !in prev then prev + [d] else prev
  }

  /** The new keys are in order of first encounter: the first kept stack of
      each key comes before the first kept stack of every later key. */
  lemma {:induction false} NewKeysInOrder(seen: seq<ItemDefinition>, batch: seq<ItemStack>)
    ensures forall i, j :: 0 <= i < j < |NewKeys(seen, batch)| ==>
              FirstKept(batch, NewKeys(seen, batch)[i]) < FirstKept(batch, NewKeys(seen, batch)[j])
    decreases |batch|
  {
    if batch != [] {
      var init := batch[..|batch| - 1];
      var last := batch[|batch| - 1];
      var prev := NewKeys(seen, init);
      var d := ItemDefinition.FromStack(last);
      NewKeysInOrder(seen, init);
      forall i | 0 <= i < |prev| ensures FirstKept(batch, prev[i]) == FirstKept(init, prev[i]) < |init| {
        assert exists j :: 0 <= j < |init| && KeptAs(init[j], prev[i]);
        var j :| 0 <= j < |init| && KeptAs(init[j], prev[i]);
      }
      if NonEmpty(last) && d !in seen && d !in prev {
        assert FirstKept(init, d) == |init|;
        assert FirstKept(batch, d) == |init|;
      }
    }
  }

  /** Merge law, counts: a batch adds to each key's count the sum of the
      counts of its kept stacks with that key. */
  lemma {:induction false} FoldCount(m: seq<Entry>, batch: seq<ItemStack>, key: ItemDefinition)
    ensures Count(FoldBatch(m, batch), key) == Count(m, key) + SumFor(batch, key)
    decreases |batch|
  {
    if batch != [] {
      var init, last := batch[..|batch| - 1], batch[|batch| - 1];
      FoldCount(m, init, key);
      if NonEmpty(last) {
        AddToCount(FoldBatch(m, init), ItemDefinition.FromStack(last), last.count, key);
      }
    }
  }

  /** Merge law, order: old keys keep their positions and the batch's new
      keys are appended in their order of first encounter. */
  lemma {:induction false} FoldKeys(m: seq<Entry>, batch: seq<ItemStack>)
    ensures Keys(FoldBatch(m, batch)) == Keys(m) + NewKeys(Keys(m), batch)
    decreases |batch|
  {
    if batch == [] {
      assert Keys(m) + [] == Keys(m);
    } else {
      var init := batch[..|batch| - 1];
      FoldKeys(m, init);
      var prev := NewKeys(Keys(m), init);
      var last := batch[|batch| - 1];
      var d := ItemDefinition.FromStack(last);
      if NonEmpty(last) && d !in Keys(m) && d !in prev {
        assert Keys(m) + (prev + [d]) == (Keys(m) + prev) + [d];
      }
    }
  }

  /** A pass spread over several calls folds like one batch holding all of
      their stacks in order. */
  lemma {:induction false} FoldConcat(m: seq<Entry>, first: seq<ItemStack>, second: seq<ItemStack>)
    ensures FoldBatch(FoldBatch(m, first), second) == FoldBatch(m, first + second)
    decreases |second|
  {
    if second == [] {
      assert first + second == first;
    } else {
      var both := first + second;
      assert both[..|both| - 1] == first + second[..|second| - 1];
      assert both[|both| - 1] == second[|second| - 1];
      FoldConcat(m, first, second[..|second| - 1]);
    }
  }

  lemma {:induction false} SumForConcat(first: seq<ItemStack>, second: seq<ItemStack>, key: ItemDefinition)
    ensures SumFor(first + second, key) == SumFor(first, key) + SumFor(second, key)
    decreases |second|
  {
    if second == [] {
      assert first + second == first;
    } else {
      var both := first + second;
      assert both[..|both| - 1] == first + second[..|second| - 1];
      SumForConcat(first, second[..|second| - 1], key);
    }
  }

  /** The summed count of a key does not depend on the order in which the
      stacks arrive. */
  lemma {:induction false} SumForPermutation(a: seq<ItemStack>, b: seq<ItemStack>, key: ItemDefinition)
    requires multiset(a) == multiset(b)
    ensures SumFor(a, key) == SumFor(b, key)
    decreases |a|
  {
    if a == [] {
      assert |b| == |multiset(b)| == 0;
    } else {
      var x := a[|a| - 1];
      var init := a[..|a| - 1];
      assert a == init + [x];
      assert x in multiset(b);
      var j :| 0 <= j < |b| && b[j] == x;
      var rest := b[..j] + b[j + 1..];
      assert b == b[..j] + [x] + b[j + 1..];
      assert multiset(b) == multiset(b[..j]) + multiset{x} + multiset(b[j + 1..]);
      assert multiset(rest) == multiset(b[..j]) + multiset(b[j + 1..]);
      assert multiset(a) == multiset(init) + multiset{x};
      assert multiset(init) == multiset(a) - multiset{x};
      assert multiset(rest) == multiset(b) - multiset{x};
      SumForPermutation(init, rest, key);
      SumForConcat(b[..j] + [x], b[j + 1..], key);
      SumForConcat(b[..j], [x], key);
      SumForConcat(b[..j], b[j + 1..], key);
      assert SumFor([x], key) == StackShare(x, key) by {
        assert [x][..0] == [];
      }
    }
  }

  /** Merge commutativity: two batches holding the same stacks in any order
      leave every key with the same count. */
  lemma MergeOrderIndependent(m: seq<Entry>, a: seq<ItemStack>, b: seq<ItemStack>, key: ItemDefinition)
    requires multiset(a) == multiset(b)
    ensures Count(FoldBatch(m, a), key) == Count(FoldBatch(m, b), key)
  {
    FoldCount(m, a, key);
    FoldCount(m, b, key);
    SumForPermutation(a, b, key);
  }

  /** `n` copies of one kept stack fold into a single entry holding `n` times its count. */
  lemma {:induction false} RepeatedStackMerges(stack: ItemStack, n: nat)
    requires NonEmpty(stack) && n >= 1
    ensures FoldBatch([], seq(n, _ => stack)) == [(ItemDefinition.FromStack(stack), n * stack.count)]
  {
    var d := ItemDefinition.FromStack(stack);
    var batch := seq(n, _ => stack);
    if n == 1 {
      assert batch[..0] == [];
    } else {
      assert batch[..n - 1] == seq(n - 1, _ => stack);
      RepeatedStackMerges(stack, n - 1);
      assert IndexOf([(d, (n - 1) * stack.count)], d) == 0;
    }
  }
}
