/**
 * The intervention workflow: a list of numbered steps, each of which a click
 * marks as done or, when already done, back as pending.
 */
module WorkflowModal {

  datatype StepStatus = Pending | Completed

  /** A step is done only when its status is exactly "completed"; a step never clicked is pending. */
  predicate IsCompleted(status: map<int, StepStatus>, step: int) {
    step in status && status[step] == Completed
  }

  /** The status a click gives: "completed" becomes "pending", anything else "completed". */
  function Flipped(status: map<int, StepStatus>, step: int): (r: map<int, StepStatus>)
    ensures step in r && (IsCompleted(r, step) <==> !IsCompleted(status, step))
    ensures forall k :: k != step ==> (k in r <==> k in status)
    ensures forall k :: k != step && k in status ==> r[k] == status[k]
  {
    status[step := if IsCompleted(status, step) then Pending else Completed]
  }

  /** Two clicks on one step give it back its done-or-pending state, and leave every other step alone. */
  lemma FlipTwice(status: map<int, StepStatus>, step: int)
    ensures IsCompleted(Flipped(Flipped(status, step), step), step) == IsCompleted(status, step)
    ensures forall k :: k != step ==> IsCompleted(Flipped(Flipped(status, step), step), k) == IsCompleted(status, k)
  {
  }

  /** Once a step has been clicked, two more clicks restore its exact status. */
  lemma FlipTwiceExact(status: map<int, StepStatus>, step: int)
    requires step in status
    ensures Flipped(Flipped(status, step), step) == status
  {
    var r := Flipped(Flipped(status, step), step);
    assert r.Keys == status.Keys;
  }

  /** The number of the given steps that are done. */
  function CompletedCount(status: map<int, StepStatus>, steps: seq<int>): (n: nat)
    ensures n <= |steps|
  {
    if steps == [] then 0
    else (if IsCompleted(status, steps[0]) then 1 else 0) + CompletedCount(status, steps[1..])
  }

  /** A click on a step that is shown once moves the done count by exactly one. */
  lemma {:induction false} FlipChangesCountByOne(status: map<int, StepStatus>, steps: seq<int>, step: int)
    requires step in steps && forall i, j :: 0 <= i < j < |steps| ==> steps[i] != steps[j]
    ensures IsCompleted(status, step) ==> CompletedCount(Flipped(status, step), steps) + 1 == CompletedCount(status, steps)
    ensures !IsCompleted(status, step) ==> CompletedCount(Flipped(status, step), steps) == CompletedCount(status, steps) + 1
  {
    if steps[0] == step {
      assert step !in steps[1..];
      FlipElsewhere(status, steps[1..], step);
    } else {
      FlipChangesCountByOne(status, steps[1..], step);
    }
  }

  /** Clicking a step that is not in the list changes none of the list's counts. */
  lemma {:induction false} FlipElsewhere(status: map<int, StepStatus>, steps: seq<int>, step: int)
    requires step !in steps
    ensures CompletedCount(Flipped(status, step), steps) == CompletedCount(status, steps)
  {
    if steps != [] {
      FlipElsewhere(status, steps[1..], step);
    }
  }

  /** The modal's state: the status record of the steps clicked so far. */
  class Workflow {
    var stepsStatus: map<int, StepStatus>

    /** Nothing clicked yet: every step pending. */
    constructor()
      ensures stepsStatus == map[]
      ensures forall step :: !IsCompleted(stepsStatus, step)
    {
      stepsStatus := map[];
    }

    /** `handleStepClick`: the clicked step flips, the others keep their entries. */
    method Click(step: int)
      modifies this
      ensures stepsStatus == Flipped(old(stepsStatus), step)
      ensures IsCompleted(stepsStatus, step) == !old(IsCompleted(stepsStatus, step))
      ensures forall k :: k != step ==> (k in stepsStatus <==> k in old(stepsStatus))
      ensures forall k :: k != step && k in old(stepsStatus) ==> stepsStatus[k] == old(stepsStatus)[k]
    {
      stepsStatus := Flipped(stepsStatus, step);
    }
  }
}
