/** The step indicator: `totalSteps` segments, the first `currentStep` of them
    active. */
module ProgressBar {
  import opened Wrappers

  const DefaultCurrentStep := 1
  const DefaultTotalSteps := 6

  /** `Array.from({ length: totalSteps }, (_, index) => index + 1 <= currentStep)`;
      a negative length gives no segments. Missing props take their defaults. */
  function Segments(currentStep: Option<int>, totalSteps: Option<int>): (r: seq<bool>)
    ensures |r| == Clamp0(totalSteps.GetOr(DefaultTotalSteps))
  {
    Active(currentStep.GetOr(DefaultCurrentStep), Clamp0(totalSteps.GetOr(DefaultTotalSteps)))
  }

  function Clamp0(n: int): nat {
    if n < 0 then 0 else n
  }

  function Active(current: int, n: nat): (r: seq<bool>)
    ensures |r| == n
  {
    seq(n, index => index + 1 <= current)
  }

  function Min(a: int, b: int): int {
    if a <= b then a else b
  }

  function CountActive(r: seq<bool>): nat {
    if r == [] then 0 else CountActive(r[..|r| - 1]) + (if r[|r| - 1] then 1 else 0)
  }

  /** Segment `i` (0-based) is active exactly when `i + 1 <= currentStep`. */
  lemma SegmentActive(currentStep: Option<int>, totalSteps: Option<int>, i: nat)
    requires i < |Segments(currentStep, totalSteps)|
    ensures Segments(currentStep, totalSteps)[i] <==> i + 1 <= currentStep.GetOr(DefaultCurrentStep)
  {
  }

  /** The active segments form a prefix. */
  lemma ActiveIsPrefix(current: int, n: nat, i: nat, j: nat)
    requires i <= j < n
    ensures Active(current, n)[j] ==> Active(current, n)[i]
  {
  }

  /** There are min(max(currentStep, 0), totalSteps) active segments. */
  lemma {:induction false} ActiveCount(current: int, n: nat)
    ensures CountActive(Active(current, n)) == Min(Clamp0(current), n)
  {
    if n > 0 {
      assert Active(current, n)[..n - 1] == Active(current, n - 1);
      ActiveCount(current, n - 1);
    }
  }

  /** Advancing the current step never deactivates a segment. */
  lemma Monotone(c1: int, c2: int, n: nat, i: nat)
    requires c1 <= c2 && i < n
    ensures Active(c1, n)[i] ==> Active(c2, n)[i]
  {
  }
}
