/** List access helpers of the command framework (src/cmdlib/utils.py). */
module CmdUtils {
  import opened Errors

  /** Python's `l[i]`: a valid index counts from the front when it is
      non-negative and from the back when it is negative. */
  predicate InRange<T>(l: seq<T>, i: int) {
    -|l| <= i < |l|
  }

  /** safeget (src/cmdlib/utils.py:3-7): `l[i]` for a valid index and the
      default `d` otherwise (the source's default is None). */
  function SafeGet<T>(l: seq<T>, i: int, d: Option<T>): (r: Option<T>)
    ensures InRange(l, i) ==> r.Some? && r.value in l
    ensures 0 <= i < |l| ==> r == Some(l[i])
    ensures -|l| <= i < 0 ==> r == Some(l[|l| + i])
    ensures !InRange(l, i) ==> r == d
  {
    if 0 <= i < |l| then Some(l[i])
    else if -|l| <= i < 0 then Some(l[|l| + i])
    else d
  }

  /** A negative index names the same element as its non-negative twin. */
  lemma SafeGetFromEnd<T>(l: seq<T>, k: int, d: Option<T>)
    requires 0 <= k < |l|
    ensures SafeGet(l, k - |l|, d) == SafeGet(l, k, d)
  {
  }

  /** safegetrange (src/cmdlib/utils.py:9-18): the first `i` elements of
      `l`, continued from `ds` once `l` runs out; IndexError when `ds` has
      too few entries. */
  method SafeGetRange<T>(l: seq<T>, i: int, ds: seq<T>) returns (r: Result<seq<T>>)
    ensures r.Err? <==> i - |l| > |ds|
    ensures r.Err? ==> r.error == IndexError
    ensures r.Ok? ==> |r.value| == if i <= 0 then 0 else i
    ensures r.Ok? ==> var taken := if i < |l| then (if i <= 0 then 0 else i) else |l|;
      && r.value[..taken] == l[..taken]
      && r.value[taken..] == ds[..|r.value| - taken]
  {
    var x := 0;
    var acc: seq<T> := [];
    var j := 0;
    while j < i
      invariant 0 <= j && (i <= 0 ==> j == 0) && (i > 0 ==> j <= i)
      invariant |acc| == j
      invariant x == if j <= |l| then 0 else j - |l|
      invariant x <= |ds|
      invariant j <= |l| ==> acc == l[..j]
      invariant j > |l| ==> acc == l + ds[..x]
    {
      if j < |l| {
        acc := acc + [l[j]];
      } else {
        if x >= |ds| {
          return Err(IndexError);
        }
        acc := acc + [ds[x]];
        x := x + 1;
      }
      j := j + 1;
    }
    r := Ok(acc);
  }
}
