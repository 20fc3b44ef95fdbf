/** The aggregation cache: a poll-driven collector that folds batches of
    stacks from an item iterator into its accumulator, finalises a bounded
    result when a pass ends, caches it by container version, and throttles
    rescans. */
module Collector {
  import opened Items
  import opened Accumulator

  /** Most entries a result holds. */
  const MAX_SIZE: nat := 54
  /** Ticks that must pass after a finalised pass before a rescan. */
  const THROTTLE_TICKS: int := 5
  /** Extra-data key of the progress annotation. */
  const COLLECTING: string := "Collecting"

  // ---------------------------------------------------------------- progress

  /** The iterator's fractional progress, a float that may be NaN. */
  datatype Progress = NaN | Finite(value: real)

  /** NaN progress counts as no progress at all. */
  function Normalized(p: Progress): (r: real)
    ensures p.NaN? ==> r == 0.0
    ensures p.Finite? ==> r == p.value
  {
    match p
    case NaN => 0.0
    case Finite(v) => v
  }

  /** The extra data of a group once its progress annotation is refreshed. */
  function WithProgress(data: Tag, p: Progress): (r: Tag)
    ensures Normalized(p) >= 1.0 ==> COLLECTING !in r
    ensures Normalized(p) < 1.0 ==> COLLECTING in r && r[COLLECTING] == FloatTag(Normalized(p))
    ensures COLLECTING in r ==> r[COLLECTING].FloatTag? && r[COLLECTING].f < 1.0
    ensures forall key :: key != COLLECTING ==> (key in r <==> key in data)
    ensures forall key :: key != COLLECTING && key in data ==> r[key] == data[key]
  {
    var progress := Normalized(p);
    if progress >= 1.0 then data - {COLLECTING} else data[COLLECTING := FloatTag(progress)]
  }

  /** Refreshing twice is refreshing once with the later progress: what a
      cached group shows depends only on the latest refresh. */
  lemma RefreshOverwrites(data: Tag, p: Progress, q: Progress)
    ensures WithProgress(WithProgress(data, p), q) == WithProgress(data, q)
  {
  }

  // ------------------------------------------------------------------- route

  /** What a poll does once the container is found. */
  datatype Route =
    | Unchanged   // cached result, content version unchanged
    | Throttled   // cached result, content changed too recently after the last pass
    | Rescan      // cached result is stale: reset the iterator and scan again
    | Continue    // no cached result or a pass in progress: scan the next batch

  /** The decision taken from the cache state, the iterator's finished flag,
      the container's current version and the tick. */
  function RouteOf(hasCache: bool, finished: bool, version: int, currentVersion: int,
                   lastTimeFinished: int, gameTime: int): (r: Route)
    ensures r == Unchanged <==> hasCache && finished && version == currentVersion
    ensures r == Throttled <==> hasCache && finished && version != currentVersion &&
                                gameTime - lastTimeFinished < THROTTLE_TICKS
    ensures r == Rescan <==> hasCache && finished && version != currentVersion &&
                             gameTime - lastTimeFinished >= THROTTLE_TICKS
    ensures r == Continue <==> !hasCache || !finished
  {
    if hasCache && finished then
      if version == currentVersion then Unchanged
      else if lastTimeFinished + THROTTLE_TICKS > gameTime then Throttled
      else Rescan
    else
      Continue
  }

  // ------------------------------------------------------------ result list

  /** The first `n` entries of the map, each turned into a stack. */
  function Limit(entries: seq<Entry>, n: nat): (r: seq<ItemStack>)
    ensures |r| == if |entries| < n then |entries| else n
    ensures forall i :: 0 <= i < |r| ==> r[i] == entries[i].0.ToStack(entries[i].1)
  {
    if n == 0 || entries == [] then [] else [entries[0].0.ToStack(entries[0].1)] + Limit(entries[1..], n - 1)
  }

  /** The stacks of a result: at most MAX_SIZE of them, the map's first
      entries in order, each with its key's item, tag and summed count. */
  function BuildList(entries: seq<Entry>): (r: seq<ItemStack>)
    ensures |r| == if |entries| < MAX_SIZE then |entries| else MAX_SIZE
    ensures forall i :: 0 <= i < |r| ==> r[i] == entries[i].0.ToStack(entries[i].1)
  {
    Limit(entries, MAX_SIZE)
  }

  /** Bound law over a whole pass: when a pass whose batches, joined, are
      `stacks` starts from an empty accumulator, the list it builds holds the
      first MAX_SIZE distinct definitions in order of first encounter, each
      with the summed count of its kept stacks. */
  lemma PassResult(stacks: seq<ItemStack>)
    ensures |BuildList(FoldBatch([], stacks))| ==
            if |NewKeys([], stacks)| < MAX_SIZE then |NewKeys([], stacks)| else MAX_SIZE
    ensures forall i :: 0 <= i < |BuildList(FoldBatch([], stacks))| ==>
              BuildList(FoldBatch([], stacks))[i] ==
              NewKeys([], stacks)[i].ToStack(SumFor(stacks, NewKeys([], stacks)[i]))
  {
    PassKeys(stacks);
    forall i | 0 <= i < |BuildList(FoldBatch([], stacks))|
      ensures BuildList(FoldBatch([], stacks))[i] == NewKeys([], stacks)[i].ToStack(SumFor(stacks, NewKeys([], stacks)[i]))
    {
      PassEntryAt(stacks, i);
    }
  }

  /** Entry `i` of a pass's map from empty is its `i`-th new key with that key's summed count. */
  lemma PassEntryAt(stacks: seq<ItemStack>, i: nat)
    requires i < |FoldBatch([], stacks)|
    ensures i < |NewKeys([], stacks)|
    ensures FoldBatch([], stacks)[i] == (NewKeys([], stacks)[i], SumFor(stacks, NewKeys([], stacks)[i]))
  {
    var folded, keys := FoldBatch([], stacks), NewKeys([], stacks);
    PassKeys(stacks);
    assert folded[i].0 == Keys(folded)[i];
    PassCountAt(stacks, i);
  }

  /** The keys of a pass's map from empty are exactly its new keys. */
  lemma PassKeys(stacks: seq<ItemStack>)
    ensures Keys(FoldBatch([], stacks)) == NewKeys([], stacks)
  {
    FoldKeys([], stacks);
    assert Keys([]) + NewKeys([], stacks) == NewKeys([], stacks);
  }

  /** Entry `i` of a pass's map from empty holds its key's summed count. */
  lemma PassCountAt(stacks: seq<ItemStack>, i: nat)
    requires i < |FoldBatch([], stacks)|
    ensures FoldBatch([], stacks)[i].1 == SumFor(stacks, FoldBatch([], stacks)[i].0)
  {
    var folded := FoldBatch([], stacks);
    CountIsValue(folded, i);
    FoldCount([], stacks, folded[i].0);
  }

  // ------------------------------------------------------------ collaborators

  /** A result group: the stacks shown and the group's extra data. */
  class ViewGroup {
    const views: seq<ItemStack>
    var extraData: Tag

    constructor (views: seq<ItemStack>)
      ensures this.views == views && extraData == map[]
    {
      this.views := views;
      extraData := map[];
    }
  }

  /** What the iterator answers for the polled target: the container's version
      and the batch its next `populate` yields. */
  datatype Lookup = Lookup(version: int, batch: seq<ItemStack>)

  /** The item iterator, an external collaborator, reduced to the state the
      collector reads: whether its pass is finished and its progress. The ghost
      fields record the calls the collector makes on it. Its cursor logic is
      external: `AfterPopulate` is told the state it ends in. */
  class ItemIterator {
    var finished: bool
    var progress: Progress
    ghost var reported: seq<int>
    ghost var resets: nat

    constructor (finished: bool, progress: Progress)
      ensures this.finished == finished && this.progress == progress
      ensures reported == [] && resets == 0
    {
      this.finished := finished;
      this.progress := progress;
      reported := [];
      resets := 0;
    }

    /** Restarts the pass from the beginning. */
    method Reset()
      modifies this
      ensures !finished && progress == old(progress)
      ensures resets == old(resets) + 1 && reported == old(reported)
    {
      finished := false;
      resets := resets + 1;
    }

    /** Bookkeeping after a batch of `count` stacks. */
    method AfterPopulate(count: int, nowFinished: bool, nowProgress: Progress)
      modifies this
      ensures finished == nowFinished && progress == nowProgress
      ensures reported == old(reported) + [count] && resets == old(resets)
    {
      finished := nowFinished;
      progress := nowProgress;
      reported := reported + [count];
    }
  }

  // ---------------------------------------------------------- the collector

  class ItemCollector {
    var items: seq<Entry>
    const itemIterator: ItemIterator?
    var version: int
    var lastTimeFinished: int
    var mergedResult: ViewGroup?

    /** The accumulator's keys are distinct, a cached result never holds
        more than MAX_SIZE stacks, and a finished pass leaves the
        accumulator empty, so a rescan starts from nothing. */
    ghost predicate Valid()
      reads this, itemIterator
    {
      && DistinctKeys(items)
      && (mergedResult != null ==> |mergedResult.views| <= MAX_SIZE)
      && (itemIterator != null && itemIterator.finished ==> items == [])
    }

    /** The route a poll takes for a container at `currentVersion` at `gameTime`. */
    ghost function RouteFor(currentVersion: int, gameTime: int): Route
      reads this, itemIterator
      requires itemIterator != null
    {
      RouteOf(mergedResult != null, itemIterator.finished, version, currentVersion, lastTimeFinished, gameTime)
    }

    constructor (itemIterator: ItemIterator?)
      ensures Valid()
      ensures this.itemIterator == itemIterator
      ensures items == [] && version == 0 && lastTimeFinished == 0 && mergedResult == null
    {
      this.itemIterator := itemIterator;
      items := [];
      version := 0;
      lastTimeFinished := 0;
      mergedResult := null;
    }

    /** Folds one batch into the accumulator and returns how many stacks it
        held, the excluded ones included. */
    method Populate(batch: seq<ItemStack>) returns (count: int)
      modifies this`items
      ensures items == FoldBatch(old(items), batch)
      ensures count == |batch|
    {
      count := 0;
      for i := 0 to |batch|
        invariant count == i
        invariant items == FoldBatch(old(items), batch[..i])
      {
        count := count + 1;
        var stack := batch[i];
        if NonEmpty(stack) {
          items := AddTo(items, ItemDefinition.FromStack(stack), stack.count);
        }
        assert batch[..i + 1][..i] == batch[..i];
      }
      assert batch[..|batch|] == batch;
    }

    /** Refreshes the progress annotation of `group` from the itemIterator. */
    method UpdateCollectingProgress(group: ViewGroup) returns (g: ViewGroup)
      requires itemIterator != null
      modifies group
      ensures g == group
      ensures group.extraData == WithProgress(old(group.extraData), itemIterator.progress)
    {
      group.extraData := WithProgress(group.extraData, itemIterator.progress);
      g := group;
    }

    /** One poll. `found` is what the iterator finds for the target (None when it
        finds no container); `nowFinished` and `nowProgress` are the state the
        iterator reports once its next batch is consumed. */
    method Update(found: Option<Lookup>, gameTime: int, nowFinished: bool, nowProgress: Progress)
      returns (r: ViewGroup?)
      requires Valid()
      modifies this, itemIterator, mergedResult
      ensures Valid()
      // nothing to show: no itemIterator, or no container
      ensures itemIterator == null || found.None? ==>
                && r == null && unchanged(this) && (itemIterator != null ==> unchanged(itemIterator))
                && (old(mergedResult) != null ==> unchanged(old(mergedResult)))
      // cache hit and throttle: the cached group, untouched, and no call on the itemIterator
      ensures itemIterator != null && found.Some? &&
              old(RouteFor(found.value.version, gameTime)) in {Unchanged, Throttled} ==>
                && r == old(mergedResult) && r != null
                && unchanged(this) && unchanged(itemIterator) && unchanged(r)
      // a scan: one batch pulled and reported in full, after a reset when the cache was stale
      ensures itemIterator != null && found.Some? &&
              old(RouteFor(found.value.version, gameTime)) in {Rescan, Continue} ==>
                && itemIterator.reported == old(itemIterator.reported) + [|found.value.batch|]
                && itemIterator.resets == old(itemIterator.resets) +
                     (if old(RouteFor(found.value.version, gameTime)) == Rescan then 1 else 0)
                && itemIterator.finished == nowFinished && itemIterator.progress == nowProgress
                && (old(RouteFor(found.value.version, gameTime)) == Rescan ==> old(items) == [])
      // pass still in progress with a cache: the same group, progress refreshed only
      ensures itemIterator != null && found.Some? &&
              old(RouteFor(found.value.version, gameTime)) in {Rescan, Continue} &&
              old(mergedResult) != null && !nowFinished ==>
                && r == old(mergedResult) && mergedResult == old(mergedResult)
                && r.extraData == WithProgress(old(r.extraData), nowProgress)
                && items == FoldBatch(old(items), found.value.batch)
                && version == old(version) && lastTimeFinished == old(lastTimeFinished)
      // a new group built from the accumulator
      ensures itemIterator != null && found.Some? &&
              old(RouteFor(found.value.version, gameTime)) in {Rescan, Continue} &&
              (old(mergedResult) == null || nowFinished) ==>
                && r != null && fresh(r)
                && r.views == BuildList(FoldBatch(old(items), found.value.batch))
                && r.extraData == WithProgress(map[], nowProgress)
                && (old(mergedResult) != null ==> unchanged(old(mergedResult)))
      // ... cached when the pass is finished, the accumulator cleared
      ensures itemIterator != null && found.Some? &&
              old(RouteFor(found.value.version, gameTime)) in {Rescan, Continue} && nowFinished ==>
                && mergedResult == r && version == found.value.version
                && lastTimeFinished == gameTime && items == []
      // ... returned but never stored while the first pass is in progress
      ensures itemIterator != null && found.Some? &&
              old(RouteFor(found.value.version, gameTime)) in {Rescan, Continue} &&
              old(mergedResult) == null && !nowFinished ==>
                && mergedResult == null && version == old(version)
                && lastTimeFinished == old(lastTimeFinished)
                && items == FoldBatch(old(items), found.value.batch)
    {
      if itemIterator == null {
        return null;
      }
      if found.None? {
        return null;
      }
      var container := found.value;
      var currentVersion := container.version;
      if mergedResult != null && itemIterator.finished {
        if version == currentVersion {
          return mergedResult;  // content not changed
        }
        if lastTimeFinished + THROTTLE_TICKS > gameTime {
          return mergedResult;  // too soon after the last pass
        }
        itemIterator.Reset();
      }
      var count := Populate(container.batch);
      itemIterator.AfterPopulate(count, nowFinished, nowProgress);
      if mergedResult != null && !itemIterator.finished {
        var _ := UpdateCollectingProgress(mergedResult);
        return mergedResult;
      }
      var partialResult := BuildList(items);
      var group := new ViewGroup(partialResult);
      group := UpdateCollectingProgress(group);
      if itemIterator.finished {
        mergedResult := group;
        version := currentVersion;
        lastTimeFinished := gameTime;
        items := [];
      }
      return group;
    }
  }
}
