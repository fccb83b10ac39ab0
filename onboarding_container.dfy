/**
 * The frame around every wizard step: the progress bar, the back, skip and primary
 * buttons, and the row of step indicators.
 */
module OnboardingContainer {
  import opened FilterState
  import Onboarding

  /** `currentStep / totalSteps * 100`. */
  function Progress(step: int, total: int): (p: real)
    requires total > 0
    ensures step == total ==> p == 100.0
    ensures 0 <= step <= total ==> 0.0 <= p <= 100.0
    ensures p * total as real == step as real * 100.0
  {
    step as real / total as real * 100.0
  }

  /** Each step forward fills more of the bar. */
  lemma ProgressIncreases(s: int, t: int, total: int)
    requires total > 0 && s < t
    ensures Progress(s, total) < Progress(t, total)
  {
    var d := total as real;
    assert Progress(t, total) - Progress(s, total) == (t - s) as real / d * 100.0;
  }

  /** The back button is disabled exactly on the first step (`disabled={isFirstStep}`). */
  function PreviousDisabled(step: int): (d: bool)
    ensures d <==> step == 1
  {
    step == 1
  }

  /** On a step of the wizard, the back button is disabled exactly where pressing it would
      not move: everywhere else it goes one step back. */
  lemma PreviousDisabledWhereStuck(step: int)
    requires Onboarding.InRange(step)
    ensures PreviousDisabled(step) <==> Onboarding.PreviousStep(step) == step
    ensures !PreviousDisabled(step) ==> Onboarding.PreviousStep(step) == step - 1
  {
  }

  /** The skip button is offered on every step but the last. */
  function SkipShown(step: int, total: int): bool {
    step != total
  }

  /** What the primary button does when pressed. */
  datatype PrimaryAction = GoNext | Finish

  /** The primary button: disabled unless the step may proceed; on the last step it
      completes the wizard, on every other step it moves on. */
  function Primary(step: int, total: int, canProceed: bool): (a: Option<PrimaryAction>)
    ensures a.None? <==> !canProceed
    ensures a == Some(Finish) <==> canProceed && step == total
    ensures a == Some(GoNext) <==> canProceed && step != total
  {
    if !canProceed then None
    else if step == total then Some(Finish)
    else Some(GoNext)
  }

  /** The skip button and the finish action never appear together. */
  lemma SkipOrFinish(step: int, total: int, canProceed: bool)
    ensures !(SkipShown(step, total) && Primary(step, total, canProceed) == Some(Finish))
    ensures canProceed ==> (SkipShown(step, total) <==> Primary(step, total, canProceed) == Some(GoNext))
  {
  }

  /** The indicator row: indicator `i` (from zero) is filled when `i + 1 <= currentStep`. */
  function Indicators(step: int, total: nat): (r: seq<bool>)
    ensures |r| == total
    ensures forall i :: 0 <= i < total ==> (r[i] <==> i + 1 <= step)
  {
    seq(total, i => i + 1 <= step)
  }

  /** The number of filled indicators. */
  function Filled(bs: seq<bool>): (n: nat)
    ensures n <= |bs|
  {
    if bs == [] then 0 else (if bs[|bs| - 1] then 1 else 0) + Filled(bs[..|bs| - 1])
  }

  /** Exactly as many indicators are filled as the number of the current step. */
  lemma {:induction false} FilledIndicators(step: int, total: nat)
    requires 0 <= step <= total
    ensures Filled(Indicators(step, total)) == step
  {
    if total > 0 {
      var bs := Indicators(step, total);
      if step == total {
        AllFilled(bs);
      } else {
        assert bs[..total - 1] == Indicators(step, total - 1);
        FilledIndicators(step, total - 1);
      }
    }
  }

  lemma {:induction false} AllFilled(bs: seq<bool>)
    requires forall i :: 0 <= i < |bs| ==> bs[i]
    ensures Filled(bs) == |bs|
  {
    if bs != [] {
      AllFilled(bs[..|bs| - 1]);
    }
  }
}
