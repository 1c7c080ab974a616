/**
 The sector multi-select of the Strategy form: clicking a sector toggles its
 membership in the Strategy's `sectors` array. The component turns the array
 into a Set, copies that Set, deletes or adds the clicked item, and hands
 `Array.from` of the copy back as the new array.
 */
module SectorMultiSelect {
  import opened OrderedSet

  /** `toggle(item)` applied to the current `value` array: the array handed to `onChange`. */
  function Toggle(value: seq<string>, item: string): (r: seq<string>)
    ensures NoDup(r)
    ensures item in r <==> item !in value
    ensures forall y :: y != item ==> (y in r <==> y in value)
    ensures item !in value ==> |r| > 0 && r[|r| - 1] == item
  {
    var selected := FromArray(value);
    var next := FromArray(selected);
    if item in next then
      DeleteKeepsNoDup(next, item);
      Delete(next, item)
    else
      Add(next, item)
  }

  /** On an array without duplicates, toggling an absent item appends it. */
  lemma ToggleAppendsToSet(value: seq<string>, item: string)
    requires NoDup(value) && item !in value
    ensures Toggle(value, item) == value + [item]
  {
    FromArrayIdentityIffNoDup(value);
  }

  /** On an array without duplicates, toggling the item at position `k` cuts out exactly that position. */
  lemma ToggleDeletesFromSet(value: seq<string>, k: int)
    requires NoDup(value) && 0 <= k < |value|
    ensures Toggle(value, value[k]) == value[..k] + value[k + 1..]
  {
    FromArrayIdentityIffNoDup(value);
    DeleteCutsOut(value, k);
  }

  /** Toggle works on the Set built from the input: the copy of that Set changes nothing. */
  lemma ToggleOnFirstOccurrences(value: seq<string>, item: string)
    ensures var d := FromArray(value);
            Toggle(value, item) == if item in d then Delete(d, item) else d + [item]
  {
    FromArrayIdempotent(value);
  }

  /** Every other sector keeps the order of its first occurrence in the input; only a newly added item breaks it, by coming last. */
  lemma ToggleKeepsFirstOccurrenceOrder(value: seq<string>, item: string, i: int, j: int)
    requires 0 <= i < j < |Toggle(value, item)|
    requires Toggle(value, item)[j] != item
    ensures FirstSeenBefore(value, Toggle(value, item)[i], Toggle(value, item)[j])
  {
    var d := FromArray(value);
    var r := Toggle(value, item);
    ToggleOnFirstOccurrences(value, item);
    if item in d {
      assert r == Delete(d, item);
      DeleteFollowsFirstOccurrence(value, item, i, j);
    } else {
      assert r == d + [item];
      assert r[|d|] == item;
      assert r[i] == d[i] && r[j] == d[j];
      FromArrayFollowsFirstOccurrence(value, i, j);
    }
  }

  /** Toggling the same item twice gives back the same set of selected sectors. */
  lemma ToggleTwiceRestoresMembership(value: seq<string>, item: string)
    ensures forall y :: y in Toggle(Toggle(value, item), item) <==> y in value
  {
  }

  /** On an array without duplicates, toggling in an absent item and toggling it out again restores the array exactly. */
  lemma ToggleTwiceRestoresArray(value: seq<string>, item: string)
    requires NoDup(value) && item !in value
    ensures Toggle(Toggle(value, item), item) == value
  {
    FromArrayIdentityIffNoDup(value);
    var once := Toggle(value, item);
    assert once == value + [item];
    FromArrayIdentityIffNoDup(once);
    DeleteUndoesAppend(value, item);
  }

  /** On an array without duplicates, toggling a present item out and in again moves it to the end. */
  lemma ToggleTwiceMovesPresentItemLast(value: seq<string>, item: string)
    requires NoDup(value) && item in value
    ensures Toggle(Toggle(value, item), item) == Delete(value, item) + [item]
  {
    FromArrayIdentityIffNoDup(value);
    var once := Toggle(value, item);
    assert once == Delete(value, item);
    FromArrayIdentityIffNoDup(once);
  }

  /**
   On an array without duplicates, toggling the same item twice gives back
   the exact array if and only if the item is absent or already last.
   */
  lemma ToggleTwiceRestoresArrayIff(value: seq<string>, item: string)
    requires NoDup(value)
    ensures Toggle(Toggle(value, item), item) == value <==> (item !in value || value[|value| - 1] == item)
  {
    if item in value {
      ToggleTwiceMovesPresentItemLast(value, item);
      DeleteThenAppendIffLast(value, item);
    } else {
      ToggleTwiceRestoresArray(value, item);
    }
  }

  /** The toggle result never repeats a sector and is its own `new Set` image, whatever the input held. */
  lemma ToggleResultIsASet(value: seq<string>, item: string)
    ensures FromArray(Toggle(value, item)) == Toggle(value, item)
  {
    FromArrayIdentityIffNoDup(Toggle(value, item));
  }
}
