/**
 * The few pieces of Python semantics the lambda function leans on:
 * truthiness of optional strings and byte strings, `str()` applied to a
 * value that may be `None`, slicing that clamps to the length of the
 * sequence, and the "first element that qualifies" scan that every
 * `for ... : if ...: return` loop of the function performs.
 */
module PySemantics {
  import opened Wrappers

  /** `if x:` for an optional `str` or `bytes`: `None` and the empty value are falsy. */
  predicate Truthy<T>(o: Option<seq<T>>)
  {
    o.Some? && |o.value| > 0
  }

  /** `str(x)` for an optional string: `str(None)` is the four-letter text "None". */
  function Str(o: Option<string>): (r: string)
    ensures o.None? ==> r != ""
    ensures o.Some? ==> (r == "" <==> o.value == "")
  {
    match o
    case None => "None"
    case Some(s) => s
  }

  /** The index Python clamps a non-negative slice bound to. */
  function Clamp(n: nat, len: nat): nat
  {
    if n <= len then n else len
  }

  /**
   * `s[lo:hi]` for non-negative bounds: both bounds are clamped to `|s|`,
   * so a short sequence gives a shorter (possibly empty) slice, never an error.
   */
  function Slice<T>(s: seq<T>, lo: nat, hi: nat): (r: seq<T>)
    requires lo <= hi
    ensures |r| == Clamp(hi, |s|) - Clamp(lo, |s|)
    ensures forall k :: 0 <= k < |r| ==> r[k] == s[lo + k]
    ensures hi <= |s| ==> r == s[lo..hi]
  {
    s[Clamp(lo, |s|)..Clamp(hi, |s|)]
  }

  /**
   * The position of the first element of `s` satisfying `p`, scanning
   * front to back, or `None` when no element does.
   */
  function FirstWhere<T>(s: seq<T>, p: T -> bool): (r: Option<nat>)
    ensures r.Some? ==> r.value < |s| && p(s[r.value])
    ensures r.Some? ==> forall j :: 0 <= j < r.value ==> !p(s[j])
    ensures r.None? <==> forall j :: 0 <= j < |s| ==> !p(s[j])
  {
    if |s| == 0 then None
    else if p(s[0]) then Some(0)
    else
      match FirstWhere(s[1..], p)
      case None => None
      case Some(i) => Some(i + 1)
  }

  /** Any index that qualifies and has no qualifying predecessor is the one FirstWhere reports. */
  lemma FirstWhereUnique<T>(s: seq<T>, p: T -> bool, i: nat)
    requires i < |s| && p(s[i])
    requires forall j :: 0 <= j < i ==> !p(s[j])
    ensures FirstWhere(s, p) == Some(i)
  {
  }
}
