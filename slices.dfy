/** Go's `slices.IndexFunc`, which `containTaskAugmented` uses as an existence check. */
module Slices {

  /** The index of the first element satisfying `f`, or -1 when there is none. */
  function IndexFunc<T>(s: seq<T>, f: T -> bool): (i: int)
    ensures -1 <= i < |s|
    ensures 0 <= i ==> f(s[i]) && forall j :: 0 <= j < i ==> !f(s[j])
    ensures i == -1 ==> forall j :: 0 <= j < |s| ==> !f(s[j])
  {
    if |s| == 0 then -1
    else if f(s[0]) then 0
    else
      var k := IndexFunc(s[1..], f);
      if k < 0 then -1 else k + 1
  }
}
