/**
 * The step navigator of the installation guide.
 *
 * A fixed table of four steps and one piece of state, the index of the step
 * on show. "Next" and "Previous" move the index by one within the table,
 * each button of the progress bar jumps to its own step, and the progress
 * bar and the two buttons are drawn from comparisons of a step's position
 * with the index.
 */
module InstallationWizard {
  import opened Wrappers

  /** `Step`: `command` and `details` are optional in the type. */
  datatype Step = Step(
    id: string,
    title: string,
    description: string,
    command: Option<string>,
    details: Option<seq<string>>)

  /** The guide's steps, in order. */
  const Steps: seq<Step> := [
    Step(
      "prereqs",
      "Prerequisites",
      "Ensure your environment is ready for Docusaurus.",
      Some("node -v"),
      Some([ "Node.js version 18.0 or above",
             "An active internet connection",
             "A package manager (npm, yarn, or pnpm)" ])),
    Step(
      "scaffold",
      "Scaffold Project",
      "Create the skeleton of your new documentation site.",
      Some("npx create-docusaurus@latest my-website classic"),
      Some([ "This downloads the latest version.",
             "Creates a folder named \"my-website\".",
             "Uses the \"classic\" preset (recommended)." ])),
    Step(
      "start",
      "Start Development Server",
      "Run your website locally to see changes in real-time.",
      Some("cd my-website\nnpm start"),
      Some([ "Opens http://localhost:3000 automatically.",
             "Hot reloading is enabled." ])),
    Step(
      "build",
      "Build for Production",
      "Generate static files for deployment.",
      Some("npm run build"),
      Some([ "Creates a \"build\" directory.",
             "Optimizes assets and HTML." ]))
  ]

  /** An index `steps[index]` is defined for. */
  predicate InRange(index: int)
  {
    0 <= index < |Steps|
  }

  /** The table has four steps whose ids, the React keys of the progress bar
      and of the step panel, are pairwise distinct; every step has a command
      and details. */
  lemma StepTable()
    ensures |Steps| == 4
    ensures forall i, j :: InRange(i) && InRange(j) && i != j ==> Steps[i].id != Steps[j].id
    ensures forall i :: InRange(i) ==> Steps[i].command.Some? && Steps[i].details.Some?
  {
    assert Steps[0].id == "prereqs" && Steps[1].id == "scaffold";
    assert Steps[2].id == "start" && Steps[3].id == "build";
  }

  /** The step panel is keyed by the current step's id, so the key changes
      exactly when the index does. */
  lemma StepKeysDistinct(i: int, j: int)
    requires InRange(i) && InRange(j)
    ensures Steps[i].id == Steps[j].id <==> i == j
  {
    StepTable();
  }

  // ---------------------------------------------------------------------
  // The display, from the index
  // ---------------------------------------------------------------------

  /** The circle of step `i` shows a check mark instead of its number. */
  predicate IsCompleted(i: int, current: int)
  {
    i < current
  }

  /** The circle of step `i` is drawn in the accent colour. */
  predicate IsHighlighted(i: int, current: int)
  {
    i <= current
  }

  /** The label of step `i` is drawn in the accent colour. */
  predicate IsActiveLabel(i: int, current: int)
  {
    i == current
  }

  /** The "Previous" button is disabled (and drawn invisible). */
  predicate PreviousDisabled(current: int)
  {
    current == 0
  }

  /** The "Next Step" button is disabled. */
  predicate NextDisabled(current: int)
  {
    current == |Steps| - 1
  }

  /** A step is highlighted exactly when it is completed or it is the
      current one, and these two never hold together; exactly one step has
      the active label. */
  lemma HighlightedIsCompletedOrActive(i: int, current: int)
    ensures IsHighlighted(i, current) <==> IsCompleted(i, current) || IsActiveLabel(i, current)
    ensures !(IsCompleted(i, current) && IsActiveLabel(i, current))
  {
  }

  lemma OneActiveLabel(current: int)
    requires InRange(current)
    ensures forall i :: InRange(i) && IsActiveLabel(i, current) <==> i == current
  {
  }

  /** The steps drawn with a check mark. */
  ghost function CompletedSteps(current: int): set<int>
  {
    set i | 0 <= i < |Steps| && IsCompleted(i, current)
  }

  /** `i` is one of the first `n` indices. */
  predicate Below(i: int, n: int)
  {
    0 <= i < n
  }

  /** `{0, ..., n - 1}`. */
  ghost function Indices(n: int): set<int>
  {
    set i | 0 <= i < n && Below(i, n)
  }

  /** `{0, ..., n - 1}` has `n` elements. */
  lemma {:induction false} IndicesSize(n: nat)
    ensures |Indices(n)| == n
  {
    if n > 0 {
      IndicesSize(n - 1);
      assert Indices(n) == Indices(n - 1) + {n - 1};
    }
  }

  /** At step `current` exactly `current` steps show a check mark: the ones
      before it. */
  lemma CompletedCount(current: int)
    requires InRange(current)
    ensures CompletedSteps(current) == Indices(current)
    ensures |CompletedSteps(current)| == current
  {
    assert CompletedSteps(current) == Indices(current);
    IndicesSize(current);
  }

  // ---------------------------------------------------------------------
  // Moving between steps
  // ---------------------------------------------------------------------

  /** The index after `nextStep`. */
  function NextIndex(current: int): int
  {
    if current < |Steps| - 1 then current + 1 else current
  }

  /** The index after `prevStep`. */
  function PrevIndex(current: int): int
  {
    if current > 0 then current - 1 else current
  }

  /** Both moves keep the index in the table. */
  lemma MovesStayInRange(current: int)
    requires InRange(current)
    ensures InRange(NextIndex(current)) && InRange(PrevIndex(current))
  {
  }

  /** Within the table, each button is disabled exactly when its handler
      would leave the index as it is. */
  lemma ButtonsDisabledIffNoOp(current: int)
    requires InRange(current)
    ensures NextDisabled(current) <==> NextIndex(current) == current
    ensures PreviousDisabled(current) <==> PrevIndex(current) == current
  {
  }

  /** A move that happened is undone by the other button. */
  lemma MovesUndo(current: int)
    requires InRange(current)
    ensures NextIndex(current) != current ==> PrevIndex(NextIndex(current)) == current
    ensures PrevIndex(current) != current ==> NextIndex(PrevIndex(current)) == current
  {
  }

  /** The index after `k` presses of "Next Step". */
  function NextTimes(current: int, k: nat): int
  {
    if k == 0 then current else NextIndex(NextTimes(current, k - 1))
  }

  /** Pressing "Next Step" `k` times from step `current` reaches step
      `current + k`, or the last step if that is beyond the table. */
  lemma {:induction false} NextTimesReaches(current: int, k: nat)
    requires InRange(current)
    ensures NextTimes(current, k) == if current + k < |Steps| then current + k else |Steps| - 1
  {
    if k > 0 {
      NextTimesReaches(current, k - 1);
    }
  }

  // ---------------------------------------------------------------------
  // The component's state
  // ---------------------------------------------------------------------

  class Wizard {
    /** `currentStepIndex`. */
    var currentStepIndex: int

    ghost predicate Valid()
      reads this
    {
      InRange(currentStepIndex)
    }

    /** The guide opens on the first step. */
    constructor ()
      ensures currentStepIndex == 0 && Valid()
    {
      currentStepIndex := 0;
    }

    /** `nextStep`: forward one step unless on the last one. */
    method NextStep()
      modifies this
      ensures currentStepIndex == NextIndex(old(currentStepIndex))
      ensures old(currentStepIndex) < |Steps| - 1 ==> currentStepIndex == old(currentStepIndex) + 1
      ensures old(currentStepIndex) >= |Steps| - 1 ==> currentStepIndex == old(currentStepIndex)
      ensures old(Valid()) ==> Valid()
    {
      if currentStepIndex < |Steps| - 1 {
        currentStepIndex := currentStepIndex + 1;
      }
    }

    /** `prevStep`: back one step unless on the first one. */
    method PrevStep()
      modifies this
      ensures currentStepIndex == PrevIndex(old(currentStepIndex))
      ensures old(currentStepIndex) > 0 ==> currentStepIndex == old(currentStepIndex) - 1
      ensures old(currentStepIndex) <= 0 ==> currentStepIndex == old(currentStepIndex)
      ensures old(Valid()) ==> Valid()
    {
      if currentStepIndex > 0 {
        currentStepIndex := currentStepIndex - 1;
      }
    }

    /** A progress-bar button: it is drawn for each index of the table and
        jumps to its own step. */
    method JumpTo(index: int)
      requires InRange(index)
      modifies this
      ensures currentStepIndex == index && Valid()
    {
      currentStepIndex := index;
    }

    /** `currentStep`, the step on show. */
    function CurrentStep(): Step
      reads this
      requires Valid()
    {
      Steps[currentStepIndex]
    }
  }
}
