/**
 * src/utils/generateId.ts: the next id, either one past a running counter or one past the
 * largest id of a list (floored at 0).
 */
module IdGenerator {
  import opened Wrappers

  const MissingArgument: string := "Missing argument: either 'counter' or 'array' must be provided."

  /** `ids.reduce((m, id) => Math.max(m, id), m)`. */
  function MaxFrom(m: int, ids: seq<int>): (r: int)
    ensures r >= m
    ensures forall i :: 0 <= i < |ids| ==> ids[i] <= r
    ensures r == m || r in ids
    decreases |ids|
  {
    if ids == [] then m
    else
      var r := MaxFrom(if ids[0] > m then ids[0] else m, ids[1..]);
      assert forall i :: 1 <= i < |ids| ==> ids[i] == ids[1..][i - 1];
      r
  }

  /** generateId(counter, array), with `items` the ids of `array`. A given counter wins over the
      array; with neither, the source throws, here an `Err` carrying its message. */
  function GenerateId(counter: Option<int>, items: Option<seq<int>>): (r: Result<int, string>)
    ensures counter.Some? ==> r == Ok(counter.value + 1)
    ensures counter.None? && items.None? ==> r == Err(MissingArgument)
    ensures counter.None? && items.Some? && items.value == [] ==> r == Ok(1)
    // from a list: one past max(0, largest id), so at least 1 and above every listed id
    ensures counter.None? && items.Some? ==>
      && r.Ok? && r.value >= 1
      && (forall i :: 0 <= i < |items.value| ==> items.value[i] < r.value)
      && (r.value == 1 || r.value - 1 in items.value)
  {
    if counter.Some? then Ok(counter.value + 1)
    else if items.Some? then
      if |items.value| != 0 then Ok(MaxFrom(0, items.value) + 1) else Ok(1)
    else Err(MissingArgument)
  }
}
