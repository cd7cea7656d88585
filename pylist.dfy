/** The two pieces of Python list semantics the generator relies on:
    `lst[i]` (negative indices count from the end, anything else raises
    IndexError) and the length of the slice `lst[:e]`. */
module PyList {
  import opened Wrappers

  /** The position `lst[i]` reads in a list of length `len`, or None when
      Python raises IndexError. */
  function Index(len: nat, i: int): (r: Option<nat>)
    ensures r.Some? <==> -(len as int) <= i < len
    ensures r.Some? ==> r.value < len && (r.value == i || r.value == i + len)
  {
    if 0 <= i < len then Some(i)
    else if -(len as int) <= i < 0 then Some(len + i)
    else None
  }

  /** The length of `lst[:e]` for a list of length `len`: slicing never
      raises, it clamps the end into `[0, len]`. */
  function SliceEnd(len: nat, e: int): (r: nat)
    ensures r <= len
    ensures 0 <= e <= len ==> r == e
    ensures e > len ==> r == len
    ensures e < 0 ==> r == (if len + e < 0 then 0 else len + e)
  {
    if e >= 0 then (if e <= len then e else len)
    else if len + e >= 0 then len + e
    else 0
  }
}
