/**
 * `weightedRandomChoice` (script.js:112-122): walk the items keeping a
 * running sum of their weights and return the first item whose cumulative
 * weight reaches the draw, or the last item when none does.
 *
 * The draw that `Math.random()` would produce is a parameter `r`.
 */
module WeightedChoice {

  /** Sum of the first `n` weights: the running `weightSum` after `n` steps. */
  function Prefix(w: seq<real>, n: nat): real
    requires n <= |w|
  {
    if n == 0 then 0.0 else Prefix(w, n - 1) + w[n - 1]
  }

  /** Index picked from position `i` on: the first covering index, or the last one. */
  function CoveringFrom(w: seq<real>, r: real, i: nat): (k: nat)
    requires i < |w|
    ensures i <= k < |w|
    decreases |w| - i
  {
    if i == |w| - 1 || r <= Prefix(w, i + 1) then i else CoveringFrom(w, r, i + 1)
  }

  /** Index of the item `weightedRandomChoice` returns for draw `r`. */
  function ChoiceIndex(w: seq<real>, r: real): (k: nat)
    requires |w| > 0
    ensures k < |w|
  {
    CoveringFrom(w, r, 0)
  }

  /** Whether `k` is the least index whose cumulative weight reaches `r`,
      or the last index when no cumulative weight does. */
  ghost predicate IsChoice(w: seq<real>, r: real, k: nat)
  {
    && k < |w|
    && (forall j :: 1 <= j <= k ==> Prefix(w, j) < r)
    && (k == |w| - 1 || r <= Prefix(w, k + 1))
  }

  lemma {:induction false} CoveringFromIsChoice(w: seq<real>, r: real, i: nat)
    requires i < |w|
    requires forall j :: 1 <= j <= i ==> Prefix(w, j) < r
    ensures IsChoice(w, r, CoveringFrom(w, r, i))
    decreases |w| - i
  {
    if i == |w| - 1 || r <= Prefix(w, i + 1) {
    } else {
      CoveringFromIsChoice(w, r, i + 1);
    }
  }

  /** The chosen index is the least covering index, or the last one. */
  lemma ChoiceIndexIsChoice(w: seq<real>, r: real)
    requires |w| > 0
    ensures IsChoice(w, r, ChoiceIndex(w, r))
  {
    CoveringFromIsChoice(w, r, 0);
  }

  /** Conversely, any index with that property is the chosen one. */
  lemma ChoiceIndexUnique(w: seq<real>, r: real, k: nat)
    requires |w| > 0
    requires IsChoice(w, r, k)
    ensures ChoiceIndex(w, r) == k
  {
    ChoiceIndexIsChoice(w, r);
  }

  /**
   * The loop of script.js:113-121. `items` and `weights` have one entry
   * each per item, as at every call site.
   */
  method WeightedRandomChoice<T>(items: seq<T>, weights: seq<real>, r: real) returns (choice: T)
    requires |items| > 0 && |weights| == |items|
    ensures choice == items[ChoiceIndex(weights, r)]
  {
    var weightSum := 0.0;
    var i := 0;
    while i < |items|
      invariant 0 <= i <= |items|
      invariant weightSum == Prefix(weights, i)
      invariant forall j :: 1 <= j <= i ==> Prefix(weights, j) < r
    {
      weightSum := weightSum + weights[i];
      if r <= weightSum {
        ChoiceIndexUnique(weights, r, i);
        return items[i];
      }
      i := i + 1;
    }
    ChoiceIndexUnique(weights, r, |items| - 1);
    choice := items[|items| - 1];
  }
}
