/**
 The step-progress indicator of the booking wizard: one numbered dot per step and
 a connector between consecutive dots. A dot is lit once the wizard has reached its
 step; a connector is lit once the wizard has moved past the dot before it.
 */
module StepDots {

  /** What follows a dot: nothing after the last one, otherwise a line that is lit or not. */
  datatype Connector = NoConnector | Connector(highlighted: bool)

  /** One rendered step: its 1-based number (the only text drawn), the label it is keyed
      by (the label itself is not drawn), whether the dot is lit, and the connector drawn
      after it. */
  datatype Dot = Dot(number: int, key: string, active: bool, connector: Connector)

  /** The indicator for `steps` while the wizard is at `currentStep`. */
  function Render(currentStep: int, steps: seq<string>): (dots: seq<Dot>)
    ensures |dots| == |steps|
    ensures forall i :: 0 <= i < |dots| ==> dots[i].number == i + 1 && dots[i].key == steps[i]
    ensures forall i :: 0 <= i < |dots| ==> (dots[i].active <==> i + 1 <= currentStep)
    ensures forall i :: 0 <= i < |dots| ==> (dots[i].connector.Connector? <==> i < |dots| - 1)
    ensures forall i :: 0 <= i < |dots| && dots[i].connector.Connector? ==>
              (dots[i].connector.highlighted <==> i + 1 < currentStep)
  {
    seq(|steps|, i requires 0 <= i < |steps| =>
      var stepNumber := i + 1;
      Dot(stepNumber, steps[i], stepNumber <= currentStep,
          if i < |steps| - 1 then Connector(stepNumber < currentStep) else NoConnector))
  }

  function ActiveCount(dots: seq<Dot>): nat {
    if dots == [] then 0
    else ActiveCount(dots[..|dots| - 1]) + (if dots[|dots| - 1].active then 1 else 0)
  }

  function ConnectorCount(dots: seq<Dot>): nat {
    if dots == [] then 0
    else ConnectorCount(dots[..|dots| - 1]) + (if dots[|dots| - 1].connector.Connector? then 1 else 0)
  }

  function Clamp(x: int, lo: int, hi: int): int
    requires lo <= hi
  {
    if x < lo then lo else if x > hi then hi else x
  }

  lemma {:induction false} ActiveCountOfPrefixRule(dots: seq<Dot>, currentStep: int)
    requires forall i :: 0 <= i < |dots| ==> (dots[i].active <==> i + 1 <= currentStep)
    ensures ActiveCount(dots) == Clamp(currentStep, 0, |dots|)
  {
    if dots != [] {
      ActiveCountOfPrefixRule(dots[..|dots| - 1], currentStep);
    }
  }

  lemma {:induction false} ConnectorCountOfAllButLast(dots: seq<Dot>, n: nat)
    requires |dots| <= n
    requires forall i :: 0 <= i < |dots| ==> (dots[i].connector.Connector? <==> i < n - 1)
    ensures ConnectorCount(dots) == Clamp(n - 1, 0, |dots|)
  {
    if dots != [] {
      ConnectorCountOfAllButLast(dots[..|dots| - 1], n);
    }
  }

  /** The number of lit dots is the current step, clamped to the number of steps. */
  lemma LitDotCount(currentStep: int, steps: seq<string>)
    ensures ActiveCount(Render(currentStep, steps)) == Clamp(currentStep, 0, |steps|)
  {
    ActiveCountOfPrefixRule(Render(currentStep, steps), currentStep);
  }

  /** There is one connector fewer than there are dots. */
  lemma ConnectorsBetweenDots(currentStep: int, steps: seq<string>)
    requires |steps| > 0
    ensures ConnectorCount(Render(currentStep, steps)) == |steps| - 1
  {
    ConnectorCountOfAllButLast(Render(currentStep, steps), |steps|);
  }

  /** The lit dots form a prefix: a lit dot has only lit dots before it. */
  lemma ActiveDotsFormPrefix(currentStep: int, steps: seq<string>, i: int, j: int)
    requires 0 <= j < i < |steps|
    requires Render(currentStep, steps)[i].active
    ensures Render(currentStep, steps)[j].active
  {
  }

  /** A lit connector sits between two lit dots. */
  lemma HighlightedConnectorBetweenActiveDots(currentStep: int, steps: seq<string>, i: int)
    requires 0 <= i < |steps|
    requires Render(currentStep, steps)[i].connector == Connector(true)
    ensures i + 1 < |steps|
    ensures Render(currentStep, steps)[i].active && Render(currentStep, steps)[i + 1].active
  {
  }
}
