/** The array-backed map from 16-bit IDs that the Go iterators keep schemas and channels in. */
module GoSliceMap {
  import opened Bytes

  const MAX_UINT16: nat := 65535

  class SliceMap<T(0)> {
    var items: seq<Option<T>>

    ghost predicate Valid()
      reads this
    {
      |items| <= MAX_UINT16 + 1
    }

    /** The map the slots stand for: empty slots hold nothing. */
    function Contents(): map<nat, T>
      reads this
    {
      map k: nat | 0 <= k < |items| && items[k].Some? :: items[k].value
    }

    constructor ()
      ensures Valid() && Contents() == map[]
    {
      items := [];
    }

    /** Assigns a slot, growing the array up to it. */
    method Set(key: nat, val: T)
      requires Valid() && key <= MAX_UINT16
      modifies this
      ensures Valid() && Contents() == old(Contents())[key := val]
    {
      if key >= |items| {
        var toAdd := key + 1 - |items|;
        items := items + seq(toAdd, _ => None);
      }
      items := items[key := Some(val)];
    }

    method Get(key: nat) returns (r: Option<T>)
      ensures r == if key in Contents() then Some(Contents()[key]) else None
    {
      if key >= |items| {
        return None;
      }
      r := items[key];
    }

    method ToMap() returns (out: map<nat, T>)
      requires Valid()
      ensures out == Contents()
    {
      out := map[];
      for key := 0 to |items|
        invariant out == map k: nat | 0 <= k < key && items[k].Some? :: items[k].value
      {
        if key > MAX_UINT16 {
          break;
        }
        if items[key].None? {
          continue;
        }
        out := out[key := items[key].value];
      }
    }
  }
}
