/**
 * The AI and blockchain verification animation: a timer walks through the
 * six verification steps, one step per firing after that step's duration,
 * raising the progress bar; the firing at the last step completes the flow
 * and generates a mock transaction hash.
 */
module VerificationFlow {
  import opened JsRuntime
  import MockData

  // ---------------------------------------------------------------------------
  // The transaction hash

  const HexDigits: string := "0123456789abcdef"

  /** A draw of `Math.random()`. */
  predicate IsDraw(d: real) { 0.0 <= d < 1.0 }

  /** `chars[Math.floor(Math.random() * chars.length)]` */
  function HexDigitOf(d: real): (c: char)
    requires IsDraw(d)
    ensures c in HexDigits
  {
    HexDigits[Floor(d * 16.0)]
  }

  /** The hash the forty draws produce: `0x` and one hex digit per draw. */
  function HexHash(draws: seq<real>): (h: string)
    requires |draws| == 40 && forall i :: 0 <= i < 40 ==> IsDraw(draws[i])
    ensures |h| == 42 && h[..2] == "0x"
    ensures forall i :: 2 <= i < 42 ==> h[i] in HexDigits
  {
    "0x" + seq(40, i requires 0 <= i < 40 => HexDigitOf(draws[i]))
  }

  /** The `for` loop that builds the hash one character at a time. */
  method BuildHash(draws: seq<real>) returns (hash: string)
    requires |draws| == 40 && forall i :: 0 <= i < 40 ==> IsDraw(draws[i])
    ensures hash == HexHash(draws)
  {
    hash := "0x";
    for i := 0 to 40
      invariant |hash| == 2 + i && hash[..2] == "0x"
      invariant forall j :: 0 <= j < i ==> hash[2 + j] == HexDigitOf(draws[j])
    {
      hash := hash + [HexDigitOf(draws[i])];
    }
  }

  /** Each digit is the sixteenth of [0, 1) its draw falls in: draws in the same sixteenth give the same digit. */
  lemma HexDigitBySixteenths(d: real, e: real, k: int)
    requires IsDraw(d) && IsDraw(e) && 0 <= k < 16
    requires k as real <= d * 16.0 < k as real + 1.0 && k as real <= e * 16.0 < k as real + 1.0
    ensures HexDigitOf(d) == HexDigitOf(e) == HexDigits[k]
  {
  }

  // ---------------------------------------------------------------------------
  // The step machine

  datatype FlowState = FlowState(currentStep: nat, isComplete: bool, progress: real, transactionHash: string)

  const Initial: FlowState := FlowState(0, false, 0.0, "")

  /** `((k / n) * 100)`, the progress once `k` of the `n` steps are done. */
  function ProgressAt(k: nat, n: nat): real
    requires n > 0
  {
    (k as real / n as real) * 100.0
  }

  lemma {:induction false} ProgressAtBounds(k: nat, n: nat)
    requires 0 < n
    ensures k < n ==> 0.0 <= ProgressAt(k, n) < 100.0
    ensures ProgressAt(k, n) < ProgressAt(k + 1, n)
  {
    var q := k as real / n as real;
    var q1 := (k + 1) as real / n as real;
    assert q * n as real == k as real;
    assert q1 * n as real == (k + 1) as real;
    assert q < q1;
    if k < n {
      assert q < 1.0;
    }
  }

  /** The effect schedules a timer exactly while the flow is unfinished. */
  predicate TimerPending(s: FlowState, n: nat) {
    !s.isComplete && s.currentStep < n
  }

  /** What one timer firing does, given the hash the last firing would generate. */
  function Next(s: FlowState, n: nat, hash: string): FlowState
    requires TimerPending(s, n)
  {
    if s.currentStep == n - 1 then s.(isComplete := true, progress := 100.0, transactionHash := hash)
    else s.(currentStep := s.currentStep + 1, progress := ProgressAt(s.currentStep + 1, n))
  }

  /**
   * The states the machine can be in: short of the end, the step index and a
   * progress of step/n; finished, the last step kept, progress 100 and a hash.
   */
  ghost predicate Inv(s: FlowState, n: nat) {
    && 0 < n && s.currentStep < n
    && (!s.isComplete ==> s.progress == ProgressAt(s.currentStep, n) && s.transactionHash == "")
    && (s.isComplete ==> s.currentStep == n - 1 && s.progress == 100.0 && |s.transactionHash| == 42)
  }

  /**
   * Every firing keeps the invariant, never lowers the progress and leaves it
   * below 100 until the firing at the last step, which completes the flow
   * and schedules no further firing.
   */
  lemma NextKeepsInv(s: FlowState, n: nat, hash: string)
    requires Inv(s, n) && TimerPending(s, n) && |hash| == 42
    ensures Inv(Next(s, n, hash), n)
    ensures s.progress < Next(s, n, hash).progress
    ensures s.currentStep < n - 1 ==> Next(s, n, hash).currentStep == s.currentStep + 1
                                      && Next(s, n, hash).progress < 100.0
    ensures s.currentStep == n - 1 ==> Next(s, n, hash).isComplete && !TimerPending(Next(s, n, hash), n)
  {
    ProgressAtBounds(s.currentStep, n);
    ProgressAtBounds(s.currentStep + 1, n);
  }

  /** The state after `k` firings from the start. */
  function After(k: nat, n: nat, hash: string): (s: FlowState)
    requires 0 < n && k <= n && |hash| == 42
    ensures Inv(s, n)
    ensures k < n ==> s == FlowState(k, false, ProgressAt(k, n), "")
    ensures k == n ==> s.isComplete && !TimerPending(s, n) && s.transactionHash == hash
  {
    if k == 0 then Initial
    else
      var prev := After(k - 1, n, hash);
      NextKeepsInv(prev, n, hash);
      Next(prev, n, hash)
  }

  /** The step shown: `verificationSteps[currentStep] || verificationSteps[last]`. */
  function DisplayedStep(steps: seq<MockData.VerificationStep>, currentStep: nat): (r: MockData.VerificationStep)
    requires |steps| > 0
    ensures currentStep < |steps| ==> r == steps[currentStep]
    ensures currentStep >= |steps| ==> r == steps[|steps| - 1]
  {
    if currentStep < |steps| then steps[currentStep] else steps[|steps| - 1]
  }

  /** The time from mounting until `k` firings have happened: each waits for its step's duration. */
  function ElapsedAfter(steps: seq<MockData.VerificationStep>, k: nat): nat
    requires k <= |steps|
  {
    if k == 0 then 0 else ElapsedAfter(steps, k - 1) + steps[k - 1].duration
  }

  /** With the six fixture steps the flow completes after six firings, 17.5 seconds in. */
  lemma FixtureFlow(hash: string)
    requires |hash| == 42
    ensures var n := |MockData.VerificationSteps|;
            && After(n, n, hash).isComplete
            && After(n, n, hash).currentStep == 5
            && ElapsedAfter(MockData.VerificationSteps, n) == 17500
  {
    MockData.FixtureStepsWellFormed();
  }

  /** The page's state, with the step list it walks through. */
  class FlowPage {
    const steps: seq<MockData.VerificationStep>
    var currentStep: nat
    var isComplete: bool
    var progress: real
    var transactionHash: string

    function State(): FlowState
      reads this
    {
      FlowState(currentStep, isComplete, progress, transactionHash)
    }

    ghost predicate Valid()
      reads this
    {
      Inv(State(), |steps|)
    }

    constructor (steps: seq<MockData.VerificationStep>)
      requires |steps| > 0
      ensures this.steps == steps
      ensures Valid() && State() == Initial
    {
      this.steps := steps;
      currentStep, isComplete, progress, transactionHash := 0, false, 0.0, "";
    }

    /** The step shown; never the fallback in a valid state. */
    function CurrentStepData(): (r: MockData.VerificationStep)
      reads this
      requires |steps| > 0
      ensures Valid() ==> r == steps[currentStep]
    {
      DisplayedStep(steps, currentStep)
    }

    /**
     * One timer firing, `CurrentStepData().duration` milliseconds after the
     * step began. `draws` are the forty `Math.random()` draws of the hash,
     * used only by the firing at the last step.
     */
    method Tick(draws: seq<real>)
      requires Valid() && TimerPending(State(), |steps|)
      requires |draws| == 40 && forall i :: 0 <= i < 40 ==> IsDraw(draws[i])
      modifies this
      ensures Valid()
      ensures State() == Next(old(State()), |steps|, HexHash(draws))
    {
      NextKeepsInv(State(), |steps|, HexHash(draws));
      if currentStep == |steps| - 1 {
        isComplete := true;
        progress := 100.0;
        var hash := BuildHash(draws);
        transactionHash := hash;
      } else {
        currentStep := currentStep + 1;
        progress := ProgressAt(currentStep, |steps|);
      }
    }
  }
}
