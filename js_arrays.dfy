/** The JavaScript array operations the designer uses to edit its lists. */
module JsArrays {

  /** Where `splice(start, 1)` starts: negative starts count from the end, clamped to the array. */
  function SpliceStart(len: nat, start: int): (k: nat)
    ensures k <= len
    ensures 0 <= start <= len ==> k == start
  {
    if start < 0 then (if len + start < 0 then 0 else len + start)
    else if start > len then len
    else start
  }

  /** `a.splice(start, 1)`: removes at most one element and keeps the rest in order. */
  function SpliceOne<T>(s: seq<T>, start: int): (r: seq<T>)
    ensures 0 <= start < |s| ==> r == s[..start] + s[start + 1..]
    ensures start >= |s| ==> r == s
    ensures -|s| <= start < 0 ==> r == s[..|s| + start] + s[|s| + start + 1..]
    ensures start < -|s| && s != [] ==> r == s[1..]
    ensures s == [] ==> r == []
    ensures |r| == if SpliceStart(|s|, start) < |s| then |s| - 1 else |s|
  {
    var k := SpliceStart(|s|, start);
    if k < |s| then s[..k] + s[k + 1..] else s
  }
}
