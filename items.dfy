/** Item stacks, their compound tags, the exclusion filter applied to every
    stack of a batch, and the identity under which stacks are merged. */
module Items {

  datatype Option<+T> = None | Some(value: T)

  /** An item type. `Air` is the item of an empty stack; every other item is
      known only by an opaque identity. */
  datatype Item = Air | Registered(id: nat)

  /** A value stored under a key of a compound tag. A float tag is what the
      progress annotation writes; every other kind of value is opaque and
      carries the answer the tag's boolean reader gives for it. */
  datatype TagValue = FloatTag(f: real) | OpaqueTag(readsAsTrue: bool, payload: int)

  /** A compound tag: a finite map from key to value, compared by value. */
  type Tag = map<string, TagValue>

  /** A stack of `count` items of one kind, with an optional tag. */
  datatype ItemStack = ItemStack(item: Item, count: int, tag: Option<Tag>)

  const CUSTOM_MODEL_DATA: string := "CustomModelData"
  const CLEAR_SUFFIX: string := "clear"

  /** A stack is empty when it holds air or a count that is not positive. */
  predicate IsEmpty(stack: ItemStack) {
    stack.item == Air || stack.count <= 0
  }

  const INT_MIN: int := -0x8000_0000
  const INT_MAX: int := 0x7FFF_FFFF

  /** Java's `(int)` cast of a float: truncation toward zero, saturated to the
      32-bit range. */
  function IntCast(f: real): (n: int)
    ensures INT_MIN <= n <= INT_MAX
  {
    var t := if f >= 0.0 then f.Floor else -((-f).Floor);
    if t < INT_MIN then INT_MIN else if t > INT_MAX then INT_MAX else t
  }

  /** Minecraft's `Mth.floor`: the cast, less one when the cast rounded up; the
      subtraction wraps around at the bottom of the 32-bit range. */
  function MthFloor(f: real): (n: int)
    ensures INT_MIN <= n <= INT_MAX
    ensures INT_MIN <= f.Floor <= INT_MAX ==> n == f.Floor
    ensures f.Floor > INT_MAX ==> n == INT_MAX
    ensures f.Floor < INT_MIN ==> n == INT_MAX
  {
    var i := IntCast(f);
    if f < i as real then (if i == INT_MIN then INT_MAX else i - 1) else i
  }

  /** The tag's boolean reader: a float tag reads as true when its byte value,
      the low eight bits of `Mth.floor` of it, is not zero. */
  function GetBoolean(v: TagValue): bool {
    match v
    case FloatTag(f) => MthFloor(f) % 256 != 0
    case OpaqueTag(b, _) => b
  }

  /** Lower-casing of English letters. */
  function LowerChar(c: char): char {
    if 'A' <= c <= 'Z' then (c as int + 32) as char else c
  }

  function ToLower(s: string): (r: string)
    ensures |r| == |s|
    ensures forall i :: 0 <= i < |s| ==> r[i] == LowerChar(s[i])
  {
    if s == [] then [] else [LowerChar(s[0])] + ToLower(s[1..])
  }

  predicate EndsWith(s: string, suffix: string) {
    |suffix| <= |s| && s[|s| - |suffix|..] == suffix
  }

  /** `key` names a "hide this instance" flag: its lower-case form ends in
      "clear" and its value reads as true. */
  predicate IsClearFlag(tag: Tag, key: string)
    requires key in tag
  {
    EndsWith(ToLower(key), CLEAR_SUFFIX) && GetBoolean(tag[key])
  }

  /** Some key of the tag is a set "...clear" flag. */
  predicate HasClearFlag(tag: Tag) {
    exists key | key in tag :: IsClearFlag(tag, key)
  }

  /** The filter every stack of a batch passes before it is merged: empty
      stacks are dropped, and so are stacks whose tag holds custom model data
      together with some set "...clear" flag. The loop over the tag's keys,
      which stops at the first flag it finds, is the existential of
      `HasClearFlag`. */
  predicate NonEmpty(stack: ItemStack): (keep: bool)
    ensures IsEmpty(stack) ==> !keep
    ensures stack.tag.Some? && CUSTOM_MODEL_DATA in stack.tag.value && HasClearFlag(stack.tag.value) ==> !keep
    ensures !IsEmpty(stack) && stack.tag.Some? && !HasClearFlag(stack.tag.value) ==> keep
    ensures !IsEmpty(stack) && (stack.tag.None? || CUSTOM_MODEL_DATA !in stack.tag.value) ==> keep
  {
    if IsEmpty(stack) then
      false
    else
      match stack.tag
      case None => true
      case Some(tag) =>
        if CUSTOM_MODEL_DATA in tag then
          !HasClearFlag(tag)
        else
          true
  }

  /** The identity under which stacks are merged: the item and the tag. */
  datatype ItemDefinition = ItemDefinition(item: Item, tag: Option<Tag>) {

    /** The definition of a stack. */
    static function FromStack(stack: ItemStack): (d: ItemDefinition)
      ensures d.item == stack.item && d.tag == stack.tag
    {
      ItemDefinition(stack.item, stack.tag)
    }

    /** A new stack of this item, with `count` items, carrying this tag. */
    function ToStack(count: int): (stack: ItemStack)
      ensures FromStack(stack) == this
      ensures stack.count == count
    {
      ItemStack(item, count, tag)
    }
  }

  /** A stack is rebuilt exactly from its definition and its count. */
  lemma StackRoundTrip(stack: ItemStack)
    ensures ItemDefinition.FromStack(stack).ToStack(stack.count) == stack
  {
  }

  /** The float reader follows `Mth.floor`: a value beyond the 32-bit range
      reads as the saturated (or wrapped) 0x7FFFFFFF, whose low byte is set,
      while 256.5 floors to 256, whose low byte is clear. */
  lemma FloatReaderSaturates()
    ensures GetBoolean(FloatTag(1099511627776.0))
    ensures GetBoolean(FloatTag(-3000000000.0))
    ensures !GetBoolean(FloatTag(256.5))
    ensures GetBoolean(FloatTag(1.0)) && !GetBoolean(FloatTag(0.75))
  {
  }

  /** Under a value that reads as true, a key ending in "clear" in any mix of
      case is a flag; a key that only starts with "clear" is not, whatever its
      value. */
  lemma ClearFlagCases(tag: Tag)
    requires "HideClear" in tag && GetBoolean(tag["HideClear"])
    requires "HIDECLEAR" in tag && GetBoolean(tag["HIDECLEAR"])
    requires "hideclear" in tag && GetBoolean(tag["hideclear"])
    requires "ClearHide" in tag
    ensures IsClearFlag(tag, "HideClear") && IsClearFlag(tag, "HIDECLEAR")
    ensures IsClearFlag(tag, "hideclear") && !IsClearFlag(tag, "ClearHide")
  {
    LowerSuffix("HideClear");
    LowerSuffix("HIDECLEAR");
    LowerSuffix("hideclear");
    LowerNoSuffix("ClearHide");
  }

  /** A nine-letter key whose last letter is not an "r" in either case. */
  lemma LowerNoSuffix(key: string)
    requires |key| == 9 && LowerChar(key[8]) != 'r'
    ensures !EndsWith(ToLower(key), CLEAR_SUFFIX)
  {
    assert ToLower(key)[8] != CLEAR_SUFFIX[4];
  }

  /** A nine-letter key whose last five letters spell "clear" in any case. */
  lemma LowerSuffix(key: string)
    requires |key| == 9
    requires LowerChar(key[4]) == 'c' && LowerChar(key[5]) == 'l' && LowerChar(key[6]) == 'e'
    requires LowerChar(key[7]) == 'a' && LowerChar(key[8]) == 'r'
    ensures EndsWith(ToLower(key), CLEAR_SUFFIX)
  {
    assert ToLower(key)[4..] == CLEAR_SUFFIX;
  }

  /** The exclusion rule compares keys without regard to the case of English letters. */
  lemma ClearFlagIgnoresCase(tag: Tag, key: string, other: string)
    requires key in tag && other in tag && tag[key] == tag[other]
    requires ToLower(key) == ToLower(other)
    ensures IsClearFlag(tag, key) <==> IsClearFlag(tag, other)
  {
  }
}
