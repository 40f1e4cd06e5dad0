/** The argmax rule shared by `np.argmax` and `torch.argmax`. */
module Policy {

  /** `a` is a position of a maximal element of `xs`, and no earlier position holds
      that maximum: ties go to the lowest index. */
  predicate IsFirstMax(xs: seq<real>, a: nat) {
    && a < |xs|
    && (forall j :: 0 <= j < |xs| ==> xs[j] <= xs[a])
    && (forall j :: 0 <= j < a ==> xs[j] < xs[a])
  }

  /** The first position of a maximum; only defined on non-empty input (both
      libraries raise on an empty one). */
  function Argmax(xs: seq<real>): (a: nat)
    requires |xs| > 0
    ensures IsFirstMax(xs, a)
  {
    if |xs| == 1 then 0
    else
      var best := Argmax(xs[..|xs| - 1]);
      if xs[best] < xs[|xs| - 1] then |xs| - 1 else best
  }

  /** The rule leaves no choice: at most one position is the first maximum. */
  lemma FirstMaxUnique(xs: seq<real>, a: nat, b: nat)
    requires IsFirstMax(xs, a) && IsFirstMax(xs, b)
    ensures a == b
  {
    // Both are maxima, so they hold equal values; then neither can lie strictly
    // before the other, since that one would be a strictly larger earlier value.
    assert xs[b] <= xs[a] && xs[a] <= xs[b];
  }
}
