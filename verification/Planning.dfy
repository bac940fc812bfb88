/** Plans: ordered steps with a status each, and replanning after failures. */
module Planning {

  datatype Status = Pending | InProgress | Done | Failed | Skipped

  datatype PlanStep = PlanStep(id: nat, title: string, category: string, rationale: string, status: Status,
                               result: string, attempts: nat)

  datatype PlanState = PlanState(steps: seq<PlanStep>, revision: nat, nextId: nat)

  const EMPTY := PlanState([], 0, 1)

  datatype Spec = Spec(title: string, category: string, rationale: string)

  function AddStep(p: PlanState, s: Spec): PlanState {
    p.(steps := p.steps + [PlanStep(p.nextId, s.title, s.category, s.rationale, Pending, "", 0)],
       nextId := p.nextId + 1)
  }

  function AddAll(p: PlanState, specs: seq<Spec>): PlanState {
    if specs == [] then p else AddStep(AddAll(p, specs[..|specs| - 1]), specs[|specs| - 1])
  }

  /** Position of the first pending step; the number of steps when there is none. */
  function NextPending(steps: seq<PlanStep>): (i: nat)
    ensures i <= |steps|
    ensures forall j :: 0 <= j < i ==> steps[j].status != Pending
    ensures i < |steps| ==> steps[i].status == Pending
  {
    if steps == [] || steps[0].status == Pending then 0 else 1 + NextPending(steps[1..])
  }

  /** Position of the step `_get(id)` finds; the number of steps when it raises KeyError. */
  function Find(steps: seq<PlanStep>, id: nat): (i: nat)
    ensures i <= |steps|
    ensures i < |steps| ==> steps[i].id == id
    ensures forall j :: 0 <= j < i ==> steps[j].id != id
  {
    if steps == [] || steps[0].id == id then 0 else 1 + Find(steps[1..], id)
  }

  function SkipFailed(steps: seq<PlanStep>): (r: seq<PlanStep>)
    ensures |r| == |steps|
    ensures forall i :: 0 <= i < |steps| ==>
              r[i] == if steps[i].status == Failed then steps[i].(status := Skipped) else steps[i]
  {
    seq(|steps|, i requires 0 <= i < |steps| =>
      if steps[i].status == Failed then steps[i].(status := Skipped) else steps[i])
  }

  function ReplanSpecs(titles: seq<string>): (r: seq<Spec>)
    ensures |r| == |titles|
    ensures forall i :: 0 <= i < |titles| ==> r[i] == Spec(titles[i], "replan", "Inserted by replan-on-failure")
  {
    seq(|titles|, i requires 0 <= i < |titles| => Spec(titles[i], "replan", "Inserted by replan-on-failure"))
  }

  function ReplanFailed(p: PlanState, titles: seq<string>): PlanState {
    var q := AddAll(p.(steps := SkipFailed(p.steps)), ReplanSpecs(titles));
    q.(revision := q.revision + 1)
  }

  predicate IsComplete(steps: seq<PlanStep>) {
    steps != [] && forall i :: 0 <= i < |steps| ==> steps[i].status == Done || steps[i].status == Skipped
  }

  predicate HasFailures(steps: seq<PlanStep>) {
    exists i :: 0 <= i < |steps| && steps[i].status == Failed
  }

  /** Ids are positions counted from one, and the counter is past them all. */
  ghost predicate WellNumbered(p: PlanState) {
    p.nextId == |p.steps| + 1 && forall i :: 0 <= i < |p.steps| ==> p.steps[i].id == i + 1
  }

  function Statuses(steps: seq<PlanStep>): (r: seq<Status>)
    ensures |r| == |steps| && forall i :: 0 <= i < |steps| ==> r[i] == steps[i].status
  {
    seq(|steps|, i requires 0 <= i < |steps| => steps[i].status)
  }

  function PendingCount(statuses: seq<Status>): nat {
    if statuses == [] then 0
    else PendingCount(statuses[..|statuses| - 1]) + if statuses[|statuses| - 1] == Pending then 1 else 0
  }

  lemma FindIsPosition(p: PlanState, i: nat)
    requires WellNumbered(p) && i < |p.steps|
    ensures Find(p.steps, i + 1) == i
  {
    assert p.steps[i].id == i + 1;
  }

  function NewSteps(first: nat, specs: seq<Spec>): (r: seq<PlanStep>)
    ensures |r| == |specs|
    ensures forall i :: 0 <= i < |specs| ==>
              r[i] == PlanStep(first + i, specs[i].title, specs[i].category, specs[i].rationale, Pending, "", 0)
  {
    seq(|specs|, i requires 0 <= i < |specs| =>
      PlanStep(first + i, specs[i].title, specs[i].category, specs[i].rationale, Pending, "", 0))
  }

  /** Steps are appended with the next numbers; nothing else changes. */
  lemma {:induction false} AddAllAppends(p: PlanState, specs: seq<Spec>)
    ensures AddAll(p, specs) == PlanState(p.steps + NewSteps(p.nextId, specs), p.revision, p.nextId + |specs|)
  {
    if specs == [] {
      assert NewSteps(p.nextId, specs) == [];
    } else {
      var front := specs[..|specs| - 1];
      AddAllAppends(p, front);
      assert NewSteps(p.nextId, specs) == NewSteps(p.nextId, front) + [NewSteps(p.nextId, specs)[|front|]];
    }
  }

  /** What replanning does to the steps that are there, and what it adds. */
  lemma ReplanKeepsNumbers(p: PlanState, titles: seq<string>)
    requires WellNumbered(p)
    ensures var q := ReplanFailed(p, titles);
            && WellNumbered(q) && q.revision == p.revision + 1 && !HasFailures(q.steps)
            && q.steps == SkipFailed(p.steps) + NewSteps(p.nextId, ReplanSpecs(titles))
  {
    AddAllAppends(p.(steps := SkipFailed(p.steps)), ReplanSpecs(titles));
  }

  lemma {:induction false} PendingCountUpdate(statuses: seq<Status>, i: nat, s: Status)
    requires i < |statuses| && statuses[i] == Pending && s != Pending
    ensures PendingCount(statuses[i := s]) == PendingCount(statuses) - 1
  {
    var n := |statuses| - 1;
    if i < n {
      PendingCountUpdate(statuses[..n], i, s);
      assert statuses[i := s][..n] == statuses[..n][i := s];
    } else {
      assert statuses[i := s][..n] == statuses[..n];
    }
  }
}
