# ItemCollector, modelled in Dafny

Jade's `ItemCollector` summarises the contents of a container (an inventory, a
storage network) for display. Each tooltip refresh calls `update(target,
gameTime)`, and the call does one of two things:

- It reuses the cached result. This happens when a cached result exists, the
  iterator's pass is finished, and either the content version is unchanged or
  it changed less than 5 ticks after the last finalised pass.
- It pulls the next batch of stacks from an item iterator. Every stack that
  survives the `NON_EMPTY` filter is folded into an insertion-ordered map from
  `ItemDefinition` (item plus tag) to summed count.

When the iterator reports its pass finished, the collector does four things:

- builds a list of at most 54 stacks;
- annotates the list's group with the scan progress;
- caches the list together with the version and the tick;
- clears the map.

Until then it returns either the cached group, with its progress refreshed,
or a partial list that is never stored.

The model has four modules:

- `Items` (items.dfy): stacks, tags and their boolean reader, the `NON_EMPTY`
  filter (`NonEmpty`), and `ItemDefinition` with `toStack`.
- `Accumulator` (accumulator.dfy): the linked count map, held as a sequence
  of `(ItemDefinition, int)` entries with distinct keys. It has the map's
  `addTo` and the fold of a batch into the map (`FoldBatch`). Its lemmas state
  the merge laws: counts sum, old keys keep their positions, new keys are
  appended in order of first encounter, the fold over several calls equals
  one fold over the joined batches, and the totals do not depend on the order
  of arrival.
- `Collector` (collector.dfy): the progress normalisation, the
  cache/throttle decision (`RouteOf`), and the 54-entry truncation
  (`BuildList`) with the pass-level bound law (`PassResult`). It also holds
  the classes `ViewGroup`, `ItemIterator` and `ItemCollector`.
  `ItemCollector.Update` follows the source branch by branch. Its contract
  states the new fields, the returned group, the group's extra data and the
  calls made on the iterator, for every route.
- `Scenarios` (scenarios.dfy): polls proved from the contracts alone. Ten
  identical stacks merge into one entry. Sixty distinct stacks truncate to
  the first 54. An unfinished first poll carries its progress and stores
  nothing. A hidden stack is excluded from the totals but still counted for
  the iterator. The cache is reused, then throttled, then rescanned.
  Finally, there is nothing to show without an iterator or a container.

The collaborators are modelled as inputs:

- `find`, `getVersion` and `populate` are given to `Update` as an
  `Option<Lookup>`: the container's version and the next batch, or `None`
  when no container is found.
- The state the iterator ends in after `afterPopulate` (finished or not, and
  its progress) is given as two parameters. `ItemIterator.AfterPopulate`
  stores them.
- `ItemIterator` records in ghost fields every count it is told and every
  reset. This lets `Update`'s contract say when `populate`/`afterPopulate`
  and `reset` are called.

`update` returns `List.of(group)`, a list that always holds exactly one
group. The model returns that group itself (`null` for no result).

Two details of the code are easy to miss:

- The "...clear = true" exclusion applies only when the tag also contains
  `CustomModelData` (ItemCollector.java:25). A flagged stack without it is
  kept.
- The progress annotation is any value below 1 after NaN becomes 0. Negative
  values are stored too, so the annotation is not confined to [0, 1).

## Model

| member | source | states |
|---|---|---|
| `Items.NonEmpty` | src/main/java/snownee/jade/addon/universal/ItemCollector.java:20-33 | The four cases below together decide every stack. An empty stack is excluded. A stack whose tag holds `CustomModelData` and some key whose lower-case form ends in "clear" with a true value is excluded. A non-empty stack whose tag has no such flag is kept. A non-empty stack with no tag, or a tag without `CustomModelData`, is kept even if it carries such a flag. |
| `Items.ItemDefinition.FromStack` | src/main/java/snownee/jade/addon/universal/ItemCollector.java:104-106 | The definition of a stack carries exactly the stack's item and tag. |
| `Items.ItemDefinition.ToStack` | src/main/java/snownee/jade/addon/universal/ItemCollector.java:108-113 | The built stack has the requested count, and its definition is the one it was built from. |
| `Items.StackRoundTrip` | src/main/java/snownee/jade/addon/universal/ItemCollector.java:103-113 | Rebuilding a stack from its definition and its count gives back the same stack. |
| `Items.ClearFlagIgnoresCase` | src/main/java/snownee/jade/addon/universal/ItemCollector.java:27 | Two keys with the same English lower-case form and the same value are either both clear flags or neither is. |
| `Items.ClearFlagCases` | src/main/java/snownee/jade/addon/universal/ItemCollector.java:27 | Under values that read as true, "HideClear", "HIDECLEAR" and "hideclear" are all clear flags, and "ClearHide" is not one whatever its value. |
| `Items.MthFloor` | src/main/java/snownee/jade/addon/universal/ItemCollector.java:27 | The floor that the float reader takes: the exact floor inside the 32-bit range, 0x7FFFFFFF above it, and 0x7FFFFFFF below it too, because the cast saturates and then `i - 1` wraps. |
| `Items.FloatReaderSaturates` | src/main/java/snownee/jade/addon/universal/ItemCollector.java:27 | A float tag of 2^40 or of -3e9 reads as true, because the saturated floor has its low byte set. A float tag of 256.5 or of 0.75 reads as false, and one of 1.0 reads as true. |
| `Accumulator.IndexOf` | src/main/java/snownee/jade/addon/universal/ItemCollector.java:67 | The lookup `addTo` performs returns the first position holding the key, or -1 exactly when the key is absent. |
| `Accumulator.Count` | src/main/java/snownee/jade/addon/universal/ItemCollector.java:67 | An absent key has count 0, the map's default value that `addTo` adds to. |
| `Accumulator.AddTo` | src/main/java/snownee/jade/addon/universal/ItemCollector.java:67 | A present key leaves the key list as it was. A new key is appended at the end with count `n`. Distinct keys stay distinct. |
| `Accumulator.AddToCount` | src/main/java/snownee/jade/addon/universal/ItemCollector.java:67 | `addTo` raises its key's count by `n` and leaves every other key's count unchanged. |
| `Accumulator.CountIsValue` | src/main/java/snownee/jade/addon/universal/ItemCollector.java:34 | With distinct keys, a key's count is the value of its one entry. |
| `Accumulator.FoldBatch` | src/main/java/snownee/jade/addon/universal/ItemCollector.java:62-69 | Folding a batch keeps keys distinct and adds at most one entry per stack. |
| `Accumulator.NewKeys` | src/main/java/snownee/jade/addon/universal/ItemCollector.java:62-69 | The keys a batch adds are distinct and not already present. Each comes from a kept stack of the batch, and every kept stack's key is either old or among them. |
| `Accumulator.FirstKept` | src/main/java/snownee/jade/addon/universal/ItemCollector.java:62-69 | The position of the first stack of a batch that the filter keeps with a given definition, or the batch length when there is none. Every earlier stack is excluded or has another definition. |
| `Accumulator.NewKeysInOrder` | src/main/java/snownee/jade/addon/universal/ItemCollector.java:62-69 | The new keys are in order of first encounter. The first kept stack of each key comes before the first kept stack of every later key. |
| `Accumulator.FoldCount` | src/main/java/snownee/jade/addon/universal/ItemCollector.java:62-69 | Merge law: after a batch, each key's count has grown by the summed counts of the batch's kept stacks with that key. |
| `Accumulator.FoldKeys` | src/main/java/snownee/jade/addon/universal/ItemCollector.java:62-69 | Merge law, order: the keys after a batch are the old keys in place, followed by the new keys in order of first encounter. |
| `Accumulator.FoldConcat` | src/main/java/snownee/jade/addon/universal/ItemCollector.java:62-84 | As `items` persists across polls until finalisation, folding two batches one after the other equals folding their concatenation. |
| `Accumulator.SumForPermutation` | src/main/java/snownee/jade/addon/universal/ItemCollector.java:62-69 | The summed count of a key is the same for any two batches holding the same stacks. |
| `Accumulator.MergeOrderIndependent` | src/main/java/snownee/jade/addon/universal/ItemCollector.java:62-69 | Merge commutativity: two batches that are permutations of each other leave every key with the same count. |
| `Accumulator.RepeatedStackMerges` | src/main/java/snownee/jade/addon/universal/ItemCollector.java:62-69 | `n` copies of one kept stack fold into one entry holding `n` times its count. |
| `Collector.Normalized` | src/main/java/snownee/jade/addon/universal/ItemCollector.java:90-94 | NaN progress becomes 0. Any other progress is kept as it is. |
| `Collector.WithProgress` | src/main/java/snownee/jade/addon/universal/ItemCollector.java:89-101 | Progress of at least 1 removes "Collecting". A lower progress sets "Collecting" to that value, always below 1. No other key of the extra data is added, removed or changed. |
| `Collector.RefreshOverwrites` | src/main/java/snownee/jade/addon/universal/ItemCollector.java:71-73 | Refreshing a group's progress twice is the same as refreshing it once with the later progress. |
| `Collector.RouteOf` | src/main/java/snownee/jade/addon/universal/ItemCollector.java:53-61 | With a cache and a finished pass, there are three outcomes. An unchanged version reuses the cache. A changed version fewer than 5 ticks after the last pass is throttled. 5 or more ticks after, it rescans. Without a cache or a finished pass, the scan continues. Each case is an if-and-only-if. |
| `Collector.BuildList` | src/main/java/snownee/jade/addon/universal/ItemCollector.java:75-78 | The list has the smaller of 54 and the map's size entries. Entry `i` is the map's `i`-th key turned into a stack with that key's count. |
| `Collector.PassResult` | src/main/java/snownee/jade/addon/universal/ItemCollector.java:75-78 | Bound law for a pass from an empty map: the list holds the first 54 distinct definitions in order of first encounter, each with the summed count of its kept stacks. |
| `Collector.PassEntryAt` | src/main/java/snownee/jade/addon/universal/ItemCollector.java:62-78 | Entry `i` of a pass's map, started empty, is the pass's `i`-th newly encountered key with that key's summed count. |
| `Collector.PassCountAt` | src/main/java/snownee/jade/addon/universal/ItemCollector.java:62-69 | Every entry of a pass's map, started empty, holds the summed count of the kept stacks with its key. |
| `Collector.ItemIterator.Reset` | src/main/java/snownee/jade/addon/universal/ItemCollector.java:60 | A reset clears the finished flag and is recorded. Nothing else changes. |
| `Collector.ItemIterator.AfterPopulate` | src/main/java/snownee/jade/addon/universal/ItemCollector.java:70 | The count of the batch is recorded, and the iterator takes the finished state and progress its cursor logic reports. |
| `Collector.ItemCollector.constructor` | src/main/java/snownee/jade/addon/universal/ItemCollector.java:34-42 | A new collector keeps its iterator, has an empty map, version and tick 0 and no cached result, and is valid. |
| `Collector.ItemCollector.Populate` | src/main/java/snownee/jade/addon/universal/ItemCollector.java:62-69 | The loop over a batch leaves `items` equal to the fold of the batch into its old value. It counts every stack, the excluded ones included. |
| `Collector.ItemCollector.UpdateCollectingProgress` | src/main/java/snownee/jade/addon/universal/ItemCollector.java:89-101 | The group is changed in place: its extra data becomes the progress-refreshed extra data, and the same group is returned. |
| `Collector.ItemCollector.Update` | src/main/java/snownee/jade/addon/universal/ItemCollector.java:44-87 | See "Update's contract" below. |
| `Scenarios.DistinctStacksSurvive` | src/main/java/snownee/jade/addon/universal/ItemCollector.java:75-78 | When every stack of the batch is kept and no two share a definition, a pass shows the first 54 stacks unchanged and in order. |
| `Scenarios.SixtyDistinctKeysTruncate` | src/main/java/snownee/jade/addon/universal/ItemCollector.java:75-78 | Sixty distinct stacks give exactly 54 entries: the first 54. |
| `Scenarios.HiddenStackIsExcluded` | src/main/java/snownee/jade/addon/universal/ItemCollector.java:20-33 | A stack with `CustomModelData` and a true "HideClear" flag is excluded. The same flag without `CustomModelData` is kept. |

### Update's contract

- It preserves `Valid()`:
  - the map's keys are distinct;
  - a cached result holds at most 54 stacks;
  - a finished iterator implies an empty map.
- Without an iterator or a container, it returns null and changes nothing.
- On a cache hit or a throttled poll, it returns the cached group unchanged.
  No field and no iterator state changes, so `populate` and `afterPopulate`
  are not called.
- Otherwise:
  - it reports exactly one batch count;
  - it resets the iterator once if and only if the route is a rescan, and a
    rescan starts from an empty map;
  - an unfinished pass with a cache returns the same group with only its
    progress refreshed, and `items` has absorbed the batch;
  - any other scan returns a fresh group whose stacks are `BuildList` of the
    folded map;
  - a finished pass caches that group, with `version := currentVersion`,
    `lastTimeFinished := gameTime` and an empty map;
  - an unfinished first pass stores nothing.

## Left out

- Concrete item iterators, their cursors and paging: they are external. The
  model keeps only the answers `update` reads. What `find`, `getVersion` and
  `populate` return are inputs. The finished flag and progress the iterator
  reports after `afterPopulate` are inputs too.
- `EMPTY`, the static collector built with a null iterator: a Dafny module
  constant cannot be initialised with `new`. `Scenarios.NothingToShow` builds the same
  collector and shows that it yields null.
- Minecraft's `ItemStack`, `Item` and `CompoundTag` are modelled as values.
  - An item is `Air` or an opaque registered identity.
  - A stack is empty when it holds air or a count of at most 0.
  - A tag is a map compared by value. The model does not capture that a
    stack and its `ItemDefinition` share one mutable tag object.
  - `getBoolean` is an opaque reader for non-float values. For a float tag it
    reads the low byte of `Mth.floor`, with the saturating `(int)` cast
    written out (`Items.MthFloor`).
- `Locale.ENGLISH` lower-casing covers only the ASCII letters A to Z.
- Float semantics: progress is `NaN` or a real number, and a float tag holds
  a real number. Infinities, a float tag holding `NaN`, rounding and float
  storage are not modelled.
- `ViewGroup` is modelled only by its views and its extra data. Its other
  rendering fields are left out. `update`'s one-element list is represented
  by its group.
- `long` and `int` overflow of ticks, versions and counts is not modelled:
  all are mathematical integers.
- fastutil's hashing and the stream API: the map is an ordered sequence with
  distinct keys, and `limit(54).map(...)` is `BuildList`.
- The `AtomicInteger` batch counter is a plain loop variable, since there is
  no concurrency.
