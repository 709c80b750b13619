/**
 * The running-minimum scans behind `target` and `nearest`.
 *
 * Every candidate of a collection, taken in iteration order, has a value:
 * `Some(v)` when it takes part in the comparison, `None` when the scan skips
 * it (a foe outside the targeting cone, the agent itself).
 */
module Scan {
  import opened Geometry

  /**
   * The update test of the scans, `min_v is None or v < min_v`: a strict
   * comparison, so an equal later value never replaces the one already held.
   */
  predicate Beats(v: real, min: Option<real>)
  {
    min.None? || v < min.value
  }

  /** The value held after choosing `r`: the chosen candidate's, else the starting bound. */
  function Held(vals: seq<Option<real>>, r: Option<nat>, bound: Option<real>): Option<real>
    requires r.Some? ==> r.value < |vals|
  {
    if r.Some? then vals[r.value] else bound
  }

  /**
   * The index a left-to-right scan keeps when it replaces the held minimum
   * exactly when a candidate Beats it; the scan starts from `bound`
   * (`None` for "no minimum yet", `Some(b)` for a distance cap).
   */
  function FirstMin(vals: seq<Option<real>>, bound: Option<real>): (r: Option<nat>)
    ensures r.Some? ==> r.value < |vals| && vals[r.value].Some?
    decreases |vals|
  {
    if vals == [] then None
    else
      var n := |vals| - 1;
      var r := FirstMin(vals[..n], bound);
      if vals[n].Some? && Beats(vals[n].value, Held(vals[..n], r, bound)) then Some(n) else r
  }

  /** One more candidate: FirstMin of a longer prefix, as the scan loop computes it. */
  lemma FirstMinExtend(vals: seq<Option<real>>, bound: Option<real>, i: nat)
    requires i < |vals|
    ensures var r := FirstMin(vals[..i], bound);
            FirstMin(vals[..i + 1], bound) ==
              if vals[i].Some? && Beats(vals[i].value, Held(vals[..i], r, bound)) then Some(i) else r
  {
    assert vals[..i + 1][..i] == vals[..i];
  }

  /** No candidate passes the bound. */
  ghost predicate NoneBeats(vals: seq<Option<real>>, bound: Option<real>)
  {
    forall i :: 0 <= i < |vals| && vals[i].Some? ==> !Beats(vals[i].value, bound)
  }

  /**
   * `k` passes the bound, no candidate is smaller, and every earlier
   * candidate is strictly larger: the first minimum.
   */
  ghost predicate IsFirstMinimum(vals: seq<Option<real>>, bound: Option<real>, k: int)
  {
    && 0 <= k < |vals| && vals[k].Some?
    && Beats(vals[k].value, bound)
    && (forall i :: 0 <= i < |vals| && vals[i].Some? ==> vals[k].value <= vals[i].value)
    && (forall i :: 0 <= i < k && vals[i].Some? ==> vals[k].value < vals[i].value)
  }

  /** What FirstMin computes, in declarative terms. */
  ghost predicate FirstMinSpec(vals: seq<Option<real>>, bound: Option<real>, r: Option<nat>)
  {
    match r
    case None => NoneBeats(vals, bound)
    case Some(k) => IsFirstMinimum(vals, bound, k)
  }

  lemma {:induction false} FirstMinMeetsSpec(vals: seq<Option<real>>, bound: Option<real>)
    ensures FirstMinSpec(vals, bound, FirstMin(vals, bound))
    decreases |vals|
  {
    if vals != [] {
      var n := |vals| - 1;
      var pre := vals[..n];
      FirstMinMeetsSpec(pre, bound);
      var r := FirstMin(pre, bound);
      assert forall i :: 0 <= i < n ==> vals[i] == pre[i];
      match r
      case None =>
      case Some(k) =>
        if !(vals[n].Some? && Beats(vals[n].value, vals[k])) {
          assert IsFirstMinimum(vals, bound, k);
        }
    }
  }

  lemma FirstMinimumUnique(vals: seq<Option<real>>, bound: Option<real>, k: int, j: int)
    requires IsFirstMinimum(vals, bound, k) && IsFirstMinimum(vals, bound, j)
    ensures k == j
  {
  }

  /** The declarative characterisation holds of FirstMin's result and of nothing else. */
  lemma FirstMinCharacterised(vals: seq<Option<real>>, bound: Option<real>, r: Option<nat>)
    ensures FirstMin(vals, bound) == r <==> FirstMinSpec(vals, bound, r)
  {
    FirstMinMeetsSpec(vals, bound);
    var s := FirstMin(vals, bound);
    if FirstMinSpec(vals, bound, r) {
      match r
      case None =>
      case Some(k) =>
        if s.Some? { FirstMinimumUnique(vals, bound, k, s.value); }
    }
  }

  /**
   * The index kept by a scan whose cap is never lowered: the last candidate
   * whose value lies below `bound`.
   */
  function LastBelow(vals: seq<Option<real>>, bound: real): (r: Option<nat>)
    ensures r.Some? ==> r.value < |vals| && vals[r.value].Some?
    decreases |vals|
  {
    if vals == [] then None
    else
      var n := |vals| - 1;
      if vals[n].Some? && vals[n].value < bound then Some(n) else LastBelow(vals[..n], bound)
  }

  /** One more candidate: LastBelow of a longer prefix, as the scan loop computes it. */
  lemma LastBelowExtend(vals: seq<Option<real>>, bound: real, i: nat)
    requires i < |vals|
    ensures LastBelow(vals[..i + 1], bound) ==
              if vals[i].Some? && vals[i].value < bound then Some(i) else LastBelow(vals[..i], bound)
  {
    assert vals[..i + 1][..i] == vals[..i];
  }

  lemma {:induction false} LastBelowMeetsSpec(vals: seq<Option<real>>, bound: real)
    ensures LastBelow(vals, bound).None? <==>
              forall i :: 0 <= i < |vals| && vals[i].Some? ==> vals[i].value >= bound
    ensures LastBelow(vals, bound).Some? ==>
              var k := LastBelow(vals, bound).value;
              && vals[k].value < bound
              && forall i :: k < i < |vals| && vals[i].Some? ==> vals[i].value >= bound
    decreases |vals|
  {
    if vals != [] {
      var n := |vals| - 1;
      LastBelowMeetsSpec(vals[..n], bound);
      assert forall i :: 0 <= i < n ==> vals[i] == vals[..n][i];
    }
  }
}
