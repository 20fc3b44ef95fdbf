/** Worked polls of the collector, proved from the contracts alone. */
module Scenarios {
  import opened Items
  import opened Accumulator
  import opened Collector

  /** A kept stack of `n` items of a registered item with no tag. */
  function Plain(id: nat, n: int): ItemStack {
    ItemStack(Registered(id), n, None)
  }

  /** When every stack of a batch is kept and no two share a definition, the
      keys a pass collects are the batch's definitions in batch order. */
  lemma {:induction false} DistinctStacksKeepOrder(batch: seq<ItemStack>)
    requires forall i :: 0 <= i < |batch| ==> NonEmpty(batch[i])
    requires forall i, j :: 0 <= i < j < |batch| ==>
               ItemDefinition.FromStack(batch[i]) != ItemDefinition.FromStack(batch[j])
    ensures NewKeys([], batch) == seq(|batch|, i requires 0 <= i < |batch| => ItemDefinition.FromStack(batch[i]))
    decreases |batch|
  {
    if batch != [] {
      var init := batch[..|batch| - 1];
      DistinctStacksKeepOrder(init);
      var d := ItemDefinition.FromStack(batch[|batch| - 1]);
      assert d !in NewKeys([], init);
    }
  }

  /** A pass over kept stacks with pairwise distinct definitions shows the
      first MAX_SIZE of those stacks, unchanged and in order. */
  lemma {:induction false} DistinctStacksSurvive(batch: seq<ItemStack>)
    requires forall i :: 0 <= i < |batch| ==> NonEmpty(batch[i])
    requires forall i, j :: 0 <= i < j < |batch| ==>
               ItemDefinition.FromStack(batch[i]) != ItemDefinition.FromStack(batch[j])
    ensures |BuildList(FoldBatch([], batch))| == if |batch| < MAX_SIZE then |batch| else MAX_SIZE
    ensures forall i :: 0 <= i < |BuildList(FoldBatch([], batch))| ==> BuildList(FoldBatch([], batch))[i] == batch[i]
  {
    DistinctStacksKeepOrder(batch);
    PassResult(batch);
    forall i | 0 <= i < |BuildList(FoldBatch([], batch))| ensures BuildList(FoldBatch([], batch))[i] == batch[i] {
      SurvivesAt(batch, i);
    }
  }

  lemma SurvivesAt(batch: seq<ItemStack>, i: nat)
    requires forall i :: 0 <= i < |batch| ==> NonEmpty(batch[i])
    requires forall i, j :: 0 <= i < j < |batch| ==>
               ItemDefinition.FromStack(batch[i]) != ItemDefinition.FromStack(batch[j])
    requires i < |BuildList(FoldBatch([], batch))|
    ensures BuildList(FoldBatch([], batch))[i] == batch[i]
  {
    var keys := NewKeys([], batch);
    DistinctStacksKeepOrder(batch);
    PassResult(batch);
    assert keys[i] == ItemDefinition.FromStack(batch[i]);
    SingleShare(batch, i);
    StackRoundTrip(batch[i]);
  }

  /** Sixty distinct kept stacks in one finished batch give exactly 54
      entries: the first 54, each with its own count. */
  lemma SixtyDistinctKeysTruncate()
    ensures |BuildList(FoldBatch([], seq(60, i requires 0 <= i < 60 => Plain(i, 1))))| == 54
    ensures forall i :: 0 <= i < 54 ==>
              BuildList(FoldBatch([], seq(60, i requires 0 <= i < 60 => Plain(i, 1))))[i] == Plain(i, 1)
  {
    DistinctStacksSurvive(seq(60, i requires 0 <= i < 60 => Plain(i, 1)));
  }

  /** In a batch of stacks with pairwise distinct definitions, the summed
      count of one stack's definition is that stack's count. */
  lemma {:induction false} SingleShare(batch: seq<ItemStack>, k: nat)
    requires k < |batch| && NonEmpty(batch[k])
    requires forall i, j :: 0 <= i < j < |batch| ==>
               ItemDefinition.FromStack(batch[i]) != ItemDefinition.FromStack(batch[j])
    ensures SumFor(batch, ItemDefinition.FromStack(batch[k])) == batch[k].count
    decreases |batch|
  {
    var init := batch[..|batch| - 1];
    var d := ItemDefinition.FromStack(batch[k]);
    if k == |batch| - 1 {
      NoShare(init, d);
    } else {
      SingleShare(init, k);
    }
  }

  lemma {:induction false} NoShare(batch: seq<ItemStack>, d: ItemDefinition)
    requires forall i :: 0 <= i < |batch| ==> ItemDefinition.FromStack(batch[i]) != d
    ensures SumFor(batch, d) == 0
    decreases |batch|
  {
    if batch != [] {
      NoShare(batch[..|batch| - 1], d);
    }
  }

  /** A stack marked with custom model data and a set "...Clear" flag is
      excluded; the same flag without custom model data is not. */
  lemma HiddenStackIsExcluded()
    ensures !NonEmpty(ItemStack(Registered(7), 3,
              Some(map[CUSTOM_MODEL_DATA := OpaqueTag(true, 1), "HideClear" := OpaqueTag(true, 0)])))
    ensures NonEmpty(ItemStack(Registered(7), 3, Some(map["HideClear" := OpaqueTag(true, 0)])))
  {
    var tag := map[CUSTOM_MODEL_DATA := OpaqueTag(true, 1), "HideClear" := OpaqueTag(true, 0)];
    LowerSuffix("HideClear");
    assert IsClearFlag(tag, "HideClear");
  }

  /** Ten copies of one stack, finished at once: one entry of count 10 and no
      progress annotation; the result is cached. */
  method TenIdenticalStacks() {
    var it := new ItemIterator(false, NaN);
    var c := new ItemCollector(it);
    var batch := seq(10, _ => Plain(1, 1));
    RepeatedStackMerges(Plain(1, 1), 10);
    var r := c.Update(Some(Lookup(3, batch)), 100, true, Finite(1.0));
    assert r != null && r.views == [ItemDefinition(Registered(1), None).ToStack(10)];
    assert COLLECTING !in r.extraData;
    assert c.mergedResult == r && c.version == 3 && c.lastTimeFinished == 100 && c.items == [];
    assert it.reported == [10];
  }

  /** A first poll whose pass is not finished returns a group carrying the
      progress, and writes no cache. */
  method UnfinishedFirstPoll() {
    var it := new ItemIterator(false, NaN);
    var c := new ItemCollector(it);
    var r := c.Update(Some(Lookup(1, [Plain(2, 5)])), 0, false, Finite(0.3));
    assert r != null && r.extraData[COLLECTING] == FloatTag(0.3);
    assert c.mergedResult == null && c.items == [(ItemDefinition(Registered(2), None), 5)];
  }

  /** A hidden stack is left out of the totals but counted in what the
      iterator is told. */
  method HiddenStackCounted() {
    var it := new ItemIterator(false, NaN);
    var c := new ItemCollector(it);
    var hidden := ItemStack(Registered(7), 3,
      Some(map[CUSTOM_MODEL_DATA := OpaqueTag(true, 1), "HideClear" := OpaqueTag(true, 0)]));
    HiddenStackIsExcluded();
    assert [hidden][..0] == [];
    var r := c.Update(Some(Lookup(1, [hidden])), 0, true, NaN);
    assert r != null && r.views == [];
    assert it.reported == [1];
  }

  /** Once a pass is cached: the same version reuses it, a new version within
      the throttle window still reuses it, and a new version five ticks later
      resets the iterator and starts a pass from an empty accumulator. */
  method CacheAndThrottle() {
    var it := new ItemIterator(false, NaN);
    var c := new ItemCollector(it);
    var first := c.Update(Some(Lookup(1, [Plain(1, 1)])), 10, true, NaN);
    var again := c.Update(Some(Lookup(1, [])), 11, true, NaN);
    assert again == first;
    var early := c.Update(Some(Lookup(2, [Plain(2, 2)])), 14, true, NaN);
    assert early == first && it.resets == 0 && it.reported == [1];
    var later := c.Update(Some(Lookup(2, [Plain(2, 2)])), 15, false, Finite(0.5));
    assert it.resets == 1 && it.reported == [1, 1];
    assert later == first && c.items == [(ItemDefinition(Registered(2), None), 2)];
    assert c.version == 1 && c.lastTimeFinished == 10;
  }

  /** A poll that finds no container leaves the cached group as it was. */
  method NoContainerKeepsCache() {
    var it := new ItemIterator(false, NaN);
    var c := new ItemCollector(it);
    var first := c.Update(Some(Lookup(1, [Plain(1, 1)])), 10, true, Finite(0.5));
    var before := first.extraData;
    var none := c.Update(None, 16, true, NaN);
    assert none == null && c.mergedResult == first && first.extraData == before;
  }

  /** No iterator, or no container: nothing to show. */
  method NothingToShow() {
    var empty := new ItemCollector(null);
    var r := empty.Update(Some(Lookup(1, [Plain(1, 1)])), 0, true, NaN);
    assert r == null;
    var it := new ItemIterator(true, NaN);
    var c := new ItemCollector(it);
    r := c.Update(None, 0, true, NaN);
    assert r == null && c.mergedResult == null;
  }
}
