/** The plan as the engine's loop changes it in place. */
module PlanObject {
  import opened Common
  import opened Planning

  /** A plan object; `start`, `complete` and `fail` raise KeyError for an unknown id. */
  class Plan {
    var steps: seq<PlanStep>
    var revision: nat
    var nextId: nat

    constructor ()
      ensures State() == EMPTY
    {
      steps, revision, nextId := [], 0, 1;
    }

    ghost function State(): PlanState
      reads this
    {
      PlanState(steps, revision, nextId)
    }

    method AddStep(spec: Spec)
      modifies this
      ensures State() == Planning.AddStep(old(State()), spec)
    {
      var step := PlanStep(nextId, spec.title, spec.category, spec.rationale, Pending, "", 0);
      nextId := nextId + 1;
      steps := steps + [step];
    }

    method NextPending() returns (step: Option<PlanStep>)
      ensures var i := Planning.NextPending(steps); step == if i < |steps| then Some(steps[i]) else None
    {
      for i := 0 to |steps|
        invariant forall j :: 0 <= j < i ==> steps[j].status != Pending
      {
        if steps[i].status == Pending {
          return Some(steps[i]);
        }
      }
      return None;
    }

    method Get(id: nat) returns (i: nat)
      ensures i == Find(steps, id)
    {
      i := 0;
      while i < |steps|
        invariant i <= |steps| && forall j :: 0 <= j < i ==> steps[j].id != id
      {
        if steps[i].id == id {
          return;
        }
        i := i + 1;
      }
    }

    /** Sets the status of the step with this id, and its result if one is given. */
    method Mark(id: nat, status: Status, result: Option<string>) returns (found: bool)
      modifies this
      ensures var i := Find(old(steps), id);
              && (found <==> i < |old(steps)|)
              && State() == if !found then old(State())
                            else
                              var marked := old(steps)[i].(status := status);
                              var step := if result.Some? then marked.(result := result.value) else marked;
                              old(State()).(steps := old(steps)[i := step])
    {
      var i := Get(id);
      if i == |steps| {
        return false;
      }
      steps := steps[i := steps[i].(status := status)];
      if result.Some? {
        steps := steps[i := steps[i].(result := result.value)];
      }
      return true;
    }

    /** `plan.start(step.id)` and `step.attempts += 1`. */
    method StartAttempt(id: nat)
      modifies this`steps
      ensures var i := Find(old(steps), id);
              steps == if i == |old(steps)| then old(steps)
                       else var step := old(steps)[i];
                            old(steps)[i := step.(status := InProgress, attempts := step.attempts + 1)]
    {
      var i := Get(id);
      if i < |steps| {
        steps := steps[i := steps[i].(status := InProgress)];
        steps := steps[i := steps[i].(attempts := steps[i].attempts + 1)];
      }
    }

    method SkipFailures()
      modifies this`steps
      ensures steps == SkipFailed(old(steps))
    {
      ghost var was := steps;
      for i := 0 to |steps|
        invariant |steps| == |was|
        invariant forall k :: 0 <= k < i ==> steps[k] == SkipFailed(was)[k]
        invariant forall k :: i <= k < |was| ==> steps[k] == was[k]
      {
        if steps[i].status == Failed {
          steps := steps[i := steps[i].(status := Skipped)];
        }
      }
    }

    method ReplanFailed(titles: seq<string>)
      modifies this
      ensures State() == Planning.ReplanFailed(old(State()), titles)
    {
      SkipFailures();
      ghost var skipped := State();
      var specs := ReplanSpecs(titles);
      assert specs[..0] == [];
      for i := 0 to |titles|
        invariant State() == AddAll(skipped, specs[..i])
      {
        assert specs[..i + 1][..i] == specs[..i];
        AddStep(specs[i]);
      }
      assert specs[..|titles|] == specs;
      revision := revision + 1;
    }
  }
}
