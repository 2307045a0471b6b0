/** Nearest-strike selection, shared by both options clients. The selection
    keeps the first candidate and replaces it only by a candidate that is
    STRICTLY closer to the target strike, so among equally close strikes the
    earliest one wins. */
module Nearest {
  import opened Common

  /** Distance of a strike from the target strike. */
  function Dist(strike: real, target: real): real {
    Abs(strike - target)
  }

  /** The strikes of a list of option records, in order. */
  function Strikes<T>(opts: seq<T>, strikeOf: T -> real): (s: seq<real>)
    ensures |s| == |opts|
    ensures forall i :: 0 <= i < |opts| ==> s[i] == strikeOf(opts[i])
  {
    seq(|opts|, i requires 0 <= i < |opts| => strikeOf(opts[i]))
  }

  /** `k` indexes a strike of minimal distance to `target`, and every earlier
      strike is strictly farther away. */
  ghost predicate IsEarliestClosest(strikes: seq<real>, target: real, k: int) {
    && 0 <= k < |strikes|
    && (forall j :: 0 <= j < |strikes| ==> Dist(strikes[k], target) <= Dist(strikes[j], target))
    && (forall j :: 0 <= j < k ==> Dist(strikes[k], target) < Dist(strikes[j], target))
  }

  /** The left fold `reduce((prev, curr) => dist(curr) < dist(prev) ? curr : prev)`
      over a non-empty list of strikes, returning the position of the element it keeps. */
  function Closest(strikes: seq<real>, target: real): (k: nat)
    requires |strikes| > 0
    ensures IsEarliestClosest(strikes, target, k)
    decreases |strikes|
  {
    if |strikes| == 1 then 0
    else
      var last := |strikes| - 1;
      var prev := Closest(strikes[..last], target);
      assert forall j :: 0 <= j < last ==> strikes[..last][j] == strikes[j];
      if Dist(strikes[last], target) < Dist(strikes[prev], target) then last else prev
  }

  /** One more strike: the fold keeps its choice unless the new strike is
      strictly closer. */
  lemma ClosestExtend(strikes: seq<real>, target: real, i: nat)
    requires 1 <= i < |strikes|
    ensures var prev := Closest(strikes[..i], target);
      Closest(strikes[..i + 1], target)
        == if Dist(strikes[i], target) < Dist(strikes[prev], target) then i else prev
  {
  }

  /** There is exactly one earliest closest strike, so any selection meeting
      `IsEarliestClosest` is the one `Closest` computes. */
  lemma EarliestClosestUnique(strikes: seq<real>, target: real, k1: int, k2: int)
    requires IsEarliestClosest(strikes, target, k1)
    requires IsEarliestClosest(strikes, target, k2)
    ensures k1 == k2
  {
    assert Dist(strikes[k1], target) == Dist(strikes[k2], target);
  }
}
