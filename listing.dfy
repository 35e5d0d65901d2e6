/**
 * The "Get Many" rule shared by every list operation: one page is fetched
 * and, unless "Return All" is set, cut down on the client side to `limit`.
 */
module Listing {
  import opened Js

  /**
   * `Number(v)` for the values a number field can hold; None stands for
   * NaN. Strings, arrays and objects are read as NaN (see README).
   */
  function ToNumber(v: Json): (r: Option<real>)
    ensures v.Num? ==> r == Some(v.n)
    ensures v.Undefined? ==> r.None?
  {
    match v
    case Num(n) => Some(n)
    case Null => Some(0.0)
    case Bool(b) => Some(if b then 1.0 else 0.0)
    case _ => None
  }

  /** Truncation toward zero, the integer part `slice` takes of a finite index. */
  function Trunc(x: real): (r: int)
    ensures x >= 0.0 ==> r as real <= x < r as real + 1.0
    ensures x < 0.0 ==> r as real - 1.0 < x <= r as real
  {
    if x >= 0.0 then x.Floor else -((-x).Floor)
  }

  /** `v.length`, for the values that have one. */
  function LengthOf(v: Json): (r: Option<nat>)
    ensures v.Arr? ==> r == Some(|v.elems|)
    ensures v.Str? ==> r == Some(|v.s|)
  {
    match v
    case Arr(xs) => Some(|xs|)
    case Str(s) => Some(|s|)
    case _ => None
  }

  /**
   * The position `slice(0, end)` stops at on a value of length n: a
   * negative end counts back from the length.
   */
  function SliceEnd(n: nat, end: real): (r: nat)
    ensures r <= n
    ensures 0 <= Trunc(end) ==> r == if Trunc(end) < n then Trunc(end) else n
    ensures Trunc(end) < 0 ==> r == if n + Trunc(end) < 0 then 0 else n + Trunc(end)
  {
    var e := Trunc(end);
    if e < 0 then (if n + e < 0 then 0 else n + e)
    else if e > n then n
    else e
  }

  /** `v.slice(0, e)` */
  function SliceTo(v: Json, e: nat): (r: Json)
    requires LengthOf(v).Some? && e <= LengthOf(v).value
    ensures v.Arr? ==> r == Arr(v.elems[..e])
    ensures v.Str? ==> r == Str(v.s[..e])
  {
    match v
    case Arr(xs) => Arr(xs[..e])
    case Str(s) => Str(s[..e])
  }

  /** `if (!returnAll && list.length > limit) { list = list.slice(0, limit); }` */
  function Truncate(list: Json, returnAll: Json, limit: Json): Json
  {
    var n := LengthOf(list);
    var l := ToNumber(limit);
    if !Truthy(returnAll) && n.Some? && l.Some? && (n.value as real) > l.value then
      SliceTo(list, SliceEnd(n.value, l.value))
    else
      list
  }

  /** `response.data.data || []`: the list inside a list response body. */
  function ListBody(body: Json): (r: Result<Json>)
    ensures r.Err? <==> Nullish(body)
    ensures r.Ok? && Truthy(OptionalGet(body, "data")) ==> r.value == OptionalGet(body, "data")
    ensures r.Ok? && !Truthy(OptionalGet(body, "data")) ==> r.value == Arr([])
  {
    var d :- Member(body, "data");
    Ok(Or(d, Arr([])))
  }

  /** With "Return All" set, the list is returned as the API gave it. */
  lemma ReturnAllKeepsEverything(list: Json, returnAll: Json, limit: Json)
    requires Truthy(returnAll)
    ensures Truncate(list, returnAll, limit) == list
  {
  }

  /**
   * Otherwise, for a limit of zero or more, the result is the first
   * `limit` entries in their original order (all of them when there are
   * no more than `limit`).
   */
  lemma TruncateKeepsFirstEntries(xs: seq<Json>, returnAll: Json, limit: real)
    requires !Truthy(returnAll) && 0.0 <= limit
    ensures Truncate(Arr(xs), returnAll, Num(limit)) ==
              Arr(xs[..if Trunc(limit) < |xs| then Trunc(limit) else |xs|])
  {
    if (|xs| as real) <= limit {
      assert xs[..|xs|] == xs;
    }
  }

  /** Whatever the flags, a list comes back as a prefix of itself. */
  lemma TruncateIsPrefix(xs: seq<Json>, returnAll: Json, limit: Json)
    ensures Truncate(Arr(xs), returnAll, limit).Arr?
    ensures var ys := Truncate(Arr(xs), returnAll, limit).elems;
            |ys| <= |xs| && ys == xs[..|ys|]
  {
    var r := Truncate(Arr(xs), returnAll, limit);
    if r == Arr(xs) {
      assert xs[..|xs|] == xs;
    }
  }

  /**
   * A negative limit, which the form does not offer but an expression can
   * supply, drops that many entries from the end of a longer list.
   */
  lemma NegativeLimitDropsFromEnd(xs: seq<Json>, k: nat)
    requires 0 < k
    ensures Truncate(Arr(xs), Bool(false), Num(-(k as real))) ==
              Arr(xs[..if |xs| < k then 0 else |xs| - k])
  {
  }

  /** Five entries with limit 2 give the first two; with "Return All", all five. */
  lemma FiveEntriesLimitTwo(a: Json, b: Json, c: Json, d: Json, e: Json)
    ensures Truncate(Arr([a, b, c, d, e]), Bool(false), Num(2.0)) == Arr([a, b])
    ensures Truncate(Arr([a, b, c, d, e]), Bool(true), Num(2.0)) == Arr([a, b, c, d, e])
  {
    TruncateKeepsFirstEntries([a, b, c, d, e], Bool(false), 2.0);
  }
}
