/**
  The history buffer of the Home component: an array of records and an
  index that marks the current entry. Recording a record keeps the entries
  up to the index, drops the rest and appends the new one.
 */
module History {

  /**
    Where `Array.prototype.slice(0, end)` stops on an array of length `len`:
    a negative end counts back from the length (not below 0), and an end
    past the length is cut to the length.
   */
  function SliceEnd(len: nat, end: int): (k: nat)
    ensures k <= len
    ensures 0 <= end <= len ==> k == end
  {
    if end < 0 then
      if len + end < 0 then 0 else len + end
    else if end > len then len
    else end
  }

  /**
    The history after recording `x` when the index is `index`: the old
    entries up to and including the index, followed by `x`.
   */
  function Recorded<T>(h: seq<T>, index: int, x: T): (r: seq<T>)
    ensures 1 <= |r| <= |h| + 1
    ensures r[|r| - 1] == x
    ensures r[..|r| - 1] <= h
    ensures -1 <= index < |h| ==> r == h[..index + 1] + [x]
    ensures index == |h| - 1 ==> r == h + [x]
    ensures index >= |h| ==> r == h + [x]
  {
    h[..SliceEnd(|h|, index + 1)] + [x]
  }
}
