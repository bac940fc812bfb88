/** `MasterWorkerOrchestrator` as it launches workers and fills its plan. */
module Orchestrator {
  import opened Common
  import opened WorkerPlan

  function Find(templates: seq<Template>, role: string): Option<Template> {
    if templates == [] then None
    else if templates[0].role == role then Some(templates[0])
    else Find(templates[1..], role)
  }

  /** Assigning a dictionary key: an old key keeps its place, a new one goes last. */
  function Registered(templates: seq<Template>, t: Template): seq<Template> {
    if templates == [] then [t]
    else if templates[0].role == t.role then [t] + templates[1..]
    else [templates[0]] + Registered(templates[1..], t)
  }

  lemma {:induction false} RegisteredMeans(templates: seq<Template>, t: Template)
    requires DistinctRoles(templates)
    ensures DistinctRoles(Registered(templates, t))
    ensures forall u :: u in Registered(templates, t) <==> u == t || (u in templates && u.role != t.role)
  {
    if templates != [] {
      var first, rest := templates[0], templates[1..];
      assert templates == [first] + rest;
      if first.role == t.role {
        assert forall u :: u in rest ==> u.role != t.role;
      } else {
        RegisteredMeans(rest, t);
      }
    }
  }

  /** A role that was registered before keeps its place; a new one goes last. */
  lemma {:induction false} RegisteredKeepsPlace(templates: seq<Template>, t: Template, i: nat)
    requires i <= |templates| && forall k :: 0 <= k < i ==> templates[k].role != t.role
    requires i < |templates| ==> templates[i].role == t.role
    ensures Registered(templates, t) == if i < |templates| then templates[i := t] else templates + [t]
  {
    if i > 0 {
      RegisteredKeepsPlace(templates[1..], t, i - 1);
    }
  }

  lemma {:induction false} FindMeans(templates: seq<Template>, t: Template)
    requires DistinctRoles(templates) && t in templates
    ensures Find(templates, t.role) == Some(t)
  {
    if templates[0] == t {
    } else {
      assert templates == [templates[0]] + templates[1..];
      FindMeans(templates[1..], t);
    }
  }

  /** The machines started for these templates. */
  function RunCalls(launched: seq<Template>, taskId: string): seq<HostCall> {
    if launched == [] then []
    else RunCalls(launched[..|launched| - 1], taskId) + [RunVm(WorkerOf(launched[|launched| - 1], taskId).machineId)]
  }

  function Enrolled(workers: map<string, Worker>, launched: seq<Template>, taskId: string): map<string, Worker> {
    if launched == [] then workers
    else
      var w := WorkerOf(launched[|launched| - 1], taskId);
      Enrolled(workers, launched[..|launched| - 1], taskId)[w.workerId := w]
  }

  /** Exactly one running machine and one roster entry for each launched role, and nobody else touched. */
  lemma {:induction false} EnrolledMeans(workers: map<string, Worker>, launched: seq<Template>, taskId: string)
    requires DistinctRoles(launched)
    ensures |RunCalls(launched, taskId)| == |launched|
    ensures forall i :: 0 <= i < |launched| ==>
              RunCalls(launched, taskId)[i] == RunVm(launched[i].vmName + "-" + (launched[i].role + "-" + taskId))
    ensures var after := Enrolled(workers, launched, taskId);
            && (forall t :: t in launched ==>
                  t.role + "-" + taskId in after &&
                  after[t.role + "-" + taskId] ==
                  Worker(t.role + "-" + taskId, t.vmName + "-" + (t.role + "-" + taskId), taskId, t))
            && (forall id :: (forall t :: t in launched ==> id != t.role + "-" + taskId) ==>
                  (id in after <==> id in workers) && (id in workers ==> after[id] == workers[id]))
  {
    if launched != [] {
      var front, last := launched[..|launched| - 1], launched[|launched| - 1];
      assert launched == front + [last];
      EnrolledMeans(workers, front, taskId);
      forall t | t in front
        ensures WorkerId(t.role, taskId) != WorkerId(last.role, taskId)
      {
        if WorkerId(t.role, taskId) == WorkerId(last.role, taskId) {
          WorkerIdIsOwn(t.role, last.role, taskId);
        }
      }
    }
  }

  class Client {
    var sent: seq<HostCall>

    constructor ()
      ensures sent == []
    {
      sent := [];
    }

    method Call(call: HostCall)
      modifies this
      ensures sent == old(sent) + [call]
    {
      sent := sent + [call];
    }
  }

  class MasterWorkerOrchestrator {
    const client: Client
    var templates: seq<Template>
    var workers: map<string, Worker>

    constructor (client: Client)
      ensures this.client == client && templates == [] && workers == map[]
    {
      this.client, templates, workers := client, [], map[];
    }

    method RegisterTemplate(t: Template)
      requires DistinctRoles(templates)
      modifies `templates
      ensures templates == Registered(old(templates), t) && DistinctRoles(templates)
    {
      RegisteredMeans(templates, t);
      templates := Registered(templates, t);
    }

    /** An unknown role is the source's `KeyError`; an empty `workerId` stands for none given. */
    method LaunchWorker(role: string, taskId: string, workerId: string) returns (worker: Option<Worker>)
      modifies `workers, client
      ensures Find(templates, role).None? ==>
                worker == None && workers == old(workers) && client.sent == old(client.sent)
      ensures Find(templates, role).Some? ==>
                var t := Find(templates, role).value;
                var id := if workerId == "" then role + "-" + taskId else workerId;
                var w := Worker(id, t.vmName + "-" + id, taskId, t);
                worker == Some(w) && workers == old(workers)[id := w] &&
                client.sent == old(client.sent) + [RunVm(w.machineId)]
    {
      var found := Find(templates, role);
      if found.None? {
        return None;
      }
      var id := if workerId != "" then workerId else WorkerId(role, taskId);
      var w := Worker(id, MachineId(found.value.vmName, id), taskId, found.value);
      client.Call(RunVm(w.machineId));
      workers := workers[id := w];
      worker := Some(w);
    }

    method TerminateWorker(workerId: string) returns (known: bool)
      modifies `workers, client
      ensures known == (workerId in old(workers))
      ensures workers == old(workers) - {workerId}
      ensures client.sent == old(client.sent) +
                             if known then [TerminateVm(old(workers)[workerId].machineId)] else []
    {
      known := workerId in workers;
      if known {
        var w := workers[workerId];
        workers := workers - {workerId};
        client.Call(TerminateVm(w.machineId));
      }
    }

    /** Launches one template for the plan, unless its role is launched already. */
    method Ensure(t: Template, launched: seq<Template>, taskId: string) returns (isNew: bool)
      requires DistinctRoles(templates) && t in templates && forall u :: u in launched ==> u in templates
      modifies `workers, client
      ensures isNew == (t !in launched)
      ensures workers == if isNew then old(workers)[WorkerId(t.role, taskId) := WorkerOf(t, taskId)] else old(workers)
      ensures client.sent == old(client.sent) + if isNew then [RunVm(WorkerOf(t, taskId).machineId)] else []
    {
      isNew := forall i :: 0 <= i < |launched| ==> launched[i].role != t.role;
      assert t in launched ==> !isNew;
      if !isNew {
        var i :| 0 <= i < |launched| && launched[i].role == t.role;
        SameRole(templates, t, launched[i]);
      } else {
        FindMeans(templates, t);
        var _ := LaunchWorker(t.role, taskId, "");
      }
    }

    method PlanHierarchicalExecution(lowered: string, categories: seq<string>) returns (plan: Plan)
      requires DistinctRoles(templates)
      modifies `workers, client
      ensures var (taskId, launched) := (TaskId(lowered), Launched(templates, categories));
              && plan == PlanOf(templates, taskId, categories)
              && workers == Enrolled(old(workers), launched, taskId)
              && client.sent == old(client.sent) + RunCalls(launched, taskId)
    {
      var taskId := TaskId(lowered);
      var actions: seq<Action>, missing: seq<string>, launched: seq<Template> := [], [], [];
      var highRisk := false;
      for n := 0 to |categories|
        invariant actions == Body(templates, taskId, categories[..n])
        invariant missing == WorkerPlan.Missing(templates, categories[..n])
        invariant launched == Launched(templates, categories[..n])
        invariant highRisk == AnyHighRisk(launched)
        invariant forall u :: u in launched ==> u in templates
        invariant workers == Enrolled(old(workers), launched, taskId)
        invariant client.sent == old(client.sent) + RunCalls(launched, taskId)
      {
        var category := categories[n];
        CategoryGrows(templates, taskId, categories, n);
        var picked := Pick(templates, category);
        if picked.None? {
          missing := missing + [category];
          continue;
        }
        var t := picked.value;
        PickedIsRegistered(templates, category);
        LaunchedGrows(old(workers), old(client.sent), launched, t, taskId);
        var isNew := Ensure(t, launched, taskId);
        actions := actions + Uses(t, isNew, taskId, category);
        if isNew {
          launched := launched + [t];
          highRisk := highRisk || t.risk == "high";
        }
      }
      assert categories[..|categories|] == categories;
      var cleanups := CleanUp(launched, taskId);
      plan := Plan(actions + cleanups, highRisk || missing != [], missing);
    }

    /** One cleanup for each launched worker, in the order they were launched. */
    method CleanUp(launched: seq<Template>, taskId: string) returns (actions: seq<Action>)
      ensures actions == Cleanups(launched, taskId)
    {
      actions := [];
      for n := 0 to |launched|
        invariant actions == Cleanups(launched[..n], taskId)
      {
        assert launched[..n + 1][..n] == launched[..n];
        actions := actions + [CleanupOf(launched[n], taskId)];
      }
      assert launched[..|launched|] == launched;
    }
  }

  /** What one more category adds to each list of the plan. */
  lemma CategoryGrows(templates: seq<Template>, taskId: string, categories: seq<string>, n: nat)
    requires n < |categories|
    ensures var (front, category) := (categories[..n], categories[n]);
            var (longer, picked, before) :=
              (categories[..n + 1], Pick(templates, category), Launched(templates, front));
            && Body(templates, taskId, longer) == Body(templates, taskId, front) +
                 (if picked.None? then [] else Uses(picked.value, picked.value !in before, taskId, category))
            && WorkerPlan.Missing(templates, longer) ==
                 WorkerPlan.Missing(templates, front) + (if picked.None? then [category] else [])
            && Launched(templates, longer) ==
                 before + (if picked.Some? && picked.value !in before then [picked.value] else [])
  {
    assert categories[..n + 1][..n] == categories[..n];
  }

  lemma LaunchedGrows(workers: map<string, Worker>, sent: seq<HostCall>, launched: seq<Template>, t: Template,
                      taskId: string)
    ensures Enrolled(workers, launched + [t], taskId) ==
            Enrolled(workers, launched, taskId)[WorkerId(t.role, taskId) := WorkerOf(t, taskId)]
    ensures sent + RunCalls(launched + [t], taskId) ==
            sent + RunCalls(launched, taskId) + [RunVm(WorkerOf(t, taskId).machineId)]
    ensures AnyHighRisk(launched + [t]) <==> AnyHighRisk(launched) || t.risk == "high"
  {
    var all := launched + [t];
    assert all[..|launched|] == launched && all[|launched|] == t;
    assert forall i :: 0 <= i < |launched| ==> all[i] == launched[i];
  }
}
