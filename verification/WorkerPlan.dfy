/** The master agent's plan: which workers to launch for a list of categories, and in what order to use them. */
module WorkerPlan {
  import opened Common

  /** The parts of a template that planning looks at. */
  datatype Template = Template(role: string, vmName: string, imageName: string, vmType: string,
                               requestPoint: string, responsePoint: string, categories: seq<string>, risk: string)

  datatype Worker = Worker(workerId: string, machineId: string, taskId: string, template: Template)

  datatype Action =
    | Provision(role: string, machineId: string, category: string)
    | Signal(workerId: string, machineId: string, category: string)
    | Cleanup(workerId: string, machineId: string)

  datatype HostCall = RunVm(machineId: string) | TerminateVm(machineId: string)

  datatype Plan = Plan(actions: seq<Action>, review: bool, missing: seq<string>)

  /** `task_id`, from the lower-cased task: its first 48 characters, with a dash for each space. */
  function TaskId(lowered: string): (id: string)
    ensures lowered == "" ==> id == "task"
    ensures lowered != "" ==> |id| == if |lowered| > 48 then 48 else |lowered|
    ensures lowered != "" ==> forall i :: 0 <= i < |id| ==> id[i] == if lowered[i] == ' ' then '-' else lowered[i]
  {
    var id := Dashed(lowered);
    if id == "" then "task" else if |id| <= 48 then id else id[..48]
  }

  function Dashed(s: string): (r: string)
    ensures |r| == |s| && forall i :: 0 <= i < |s| ==> r[i] == if s[i] == ' ' then '-' else s[i]
  {
    seq(|s|, i requires 0 <= i < |s| => if s[i] == ' ' then '-' else s[i])
  }

  function WorkerId(role: string, taskId: string): string {
    role + "-" + taskId
  }

  function MachineId(vmName: string, workerId: string): string {
    vmName + "-" + workerId
  }

  function WorkerOf(t: Template, taskId: string): Worker {
    var id := WorkerId(t.role, taskId);
    Worker(id, MachineId(t.vmName, id), taskId, t)
  }

  ghost predicate DistinctRoles(templates: seq<Template>) {
    forall i, j :: 0 <= i < j < |templates| ==> templates[i].role != templates[j].role
  }

  /** The first template, in registration order, that covers the category. */
  function Pick(templates: seq<Template>, category: string): Option<Template> {
    if templates == [] then None
    else if category in templates[0].categories then Some(templates[0])
    else Pick(templates[1..], category)
  }

  // ---- the plan -------------------------------------------------------------

  /** The templates launched, in the order they are first needed. */
  function Launched(templates: seq<Template>, categories: seq<string>): seq<Template> {
    if categories == [] then []
    else
      var (before, picked) := (Launched(templates, categories[..|categories| - 1]),
                               Pick(templates, categories[|categories| - 1]));
      before + if picked.Some? && picked.value !in before then [picked.value] else []
  }

  function Uses(t: Template, isNew: bool, taskId: string, category: string): seq<Action> {
    var w := WorkerOf(t, taskId);
    (if isNew then [Provision(t.role, w.machineId, category)] else []) + [Signal(w.workerId, w.machineId, category)]
  }

  function Body(templates: seq<Template>, taskId: string, categories: seq<string>): seq<Action> {
    if categories == [] then []
    else
      var (front, category) := (categories[..|categories| - 1], categories[|categories| - 1]);
      Body(templates, taskId, front) + Added(templates, taskId, front, category)
  }

  /** What one more category adds. */
  function Added(templates: seq<Template>, taskId: string, front: seq<string>, category: string): seq<Action> {
    match Pick(templates, category)
    case None => []
    case Some(t) => Uses(t, t !in Launched(templates, front), taskId, category)
  }

  function Missing(templates: seq<Template>, categories: seq<string>): seq<string> {
    if categories == [] then []
    else
      var (front, category) := (categories[..|categories| - 1], categories[|categories| - 1]);
      Missing(templates, front) + if Pick(templates, category).None? then [category] else []
  }

  function Cleanups(launched: seq<Template>, taskId: string): seq<Action> {
    if launched == [] then []
    else
      Cleanups(launched[..|launched| - 1], taskId) + [CleanupOf(launched[|launched| - 1], taskId)]
  }

  function CleanupOf(t: Template, taskId: string): Action {
    var w := WorkerOf(t, taskId);
    Cleanup(w.workerId, w.machineId)
  }

  predicate AnyHighRisk(launched: seq<Template>) {
    exists i :: 0 <= i < |launched| && launched[i].risk == "high"
  }

  function PlanOf(templates: seq<Template>, taskId: string, categories: seq<string>): Plan {
    var launched := Launched(templates, categories);
    Plan(Body(templates, taskId, categories) + Cleanups(launched, taskId),
         AnyHighRisk(launched) || Missing(templates, categories) != [], Missing(templates, categories))
  }

  // ---- what the plan is -----------------------------------------------------

  ghost predicate Needed(templates: seq<Template>, categories: seq<string>, t: Template) {
    exists i :: 0 <= i < |categories| && Pick(templates, categories[i]) == Some(t)
  }

  lemma {:induction false} PickMeans(templates: seq<Template>, category: string)
    ensures match Pick(templates, category)
            case None => forall i :: 0 <= i < |templates| ==> category !in templates[i].categories
            case Some(t) => exists i :: 0 <= i < |templates| && templates[i] == t && category in t.categories &&
                                        forall k :: 0 <= k < i ==> category !in templates[k].categories
  {
    if templates != [] && category !in templates[0].categories {
      PickMeans(templates[1..], category);
      match Pick(templates, category) {
        case None =>
        case Some(t) =>
          var i :| 0 <= i < |templates[1..]| && templates[1..][i] == t && category in t.categories &&
                   forall k :: 0 <= k < i ==> category !in templates[1..][k].categories;
          assert templates[i + 1] == t;
      }
    }
  }

  lemma PickedIsRegistered(templates: seq<Template>, category: string)
    ensures Pick(templates, category).Some? ==> Pick(templates, category).value in templates
  {
    PickMeans(templates, category);
  }

  lemma NeededGrows(templates: seq<Template>, front: seq<string>, category: string, t: Template)
    ensures Needed(templates, front + [category], t) <==>
            Needed(templates, front, t) || Pick(templates, category) == Some(t)
  {
    var all := front + [category];
    assert all[|front|] == category;
    assert forall i :: 0 <= i < |front| ==> all[i] == front[i];
  }

  /** Exactly the needed templates are launched, each once. */
  lemma {:induction false} LaunchedMeans(templates: seq<Template>, categories: seq<string>)
    ensures NoDup(Launched(templates, categories))
    ensures forall t :: t in Launched(templates, categories) <==> Needed(templates, categories, t)
  {
    if categories != [] {
      var front, category := categories[..|categories| - 1], categories[|categories| - 1];
      assert categories == front + [category];
      LaunchedMeans(templates, front);
      var picked := Pick(templates, category);
      if picked.Some? {
        NoDupSnoc(Launched(templates, front), picked.value);
      }
      forall t
        ensures t in Launched(templates, categories) <==> Needed(templates, categories, t)
      {
        NeededGrows(templates, front, category, t);
      }
    }
  }

  /** A picked template is one of the registered ones; so with distinct roles, launched roles are distinct. */
  lemma LaunchedRolesAreDistinct(templates: seq<Template>, categories: seq<string>)
    requires DistinctRoles(templates)
    ensures DistinctRoles(Launched(templates, categories))
  {
    LaunchedMeans(templates, categories);
    var launched := Launched(templates, categories);
    forall i, j | 0 <= i < j < |launched|
      ensures launched[i].role != launched[j].role
    {
      NeededIsRegistered(templates, categories, launched[i]);
      NeededIsRegistered(templates, categories, launched[j]);
    }
  }

  lemma NeededIsRegistered(templates: seq<Template>, categories: seq<string>, t: Template)
    requires Needed(templates, categories, t)
    ensures t in templates
  {
    var i :| 0 <= i < |categories| && Pick(templates, categories[i]) == Some(t);
    PickMeans(templates, categories[i]);
  }

  // ---- one worker's part of the plan ----------------------------------------

  predicate IsAbout(a: Action, role: string, taskId: string) {
    match a
    case Provision(r, _, _) => r == role
    case Signal(workerId, _, _) => workerId == WorkerId(role, taskId)
    case Cleanup(workerId, _) => workerId == WorkerId(role, taskId)
  }

  /** The actions about one role's worker, in order. */
  function PartOf(actions: seq<Action>, role: string, taskId: string): seq<Action> {
    if actions == [] then []
    else
      var last := actions[|actions| - 1];
      PartOf(actions[..|actions| - 1], role, taskId) + if IsAbout(last, role, taskId) then [last] else []
  }

  /** The required categories that this template serves, repeats included. */
  function Served(templates: seq<Template>, categories: seq<string>, t: Template): seq<string> {
    if categories == [] then []
    else
      var (front, category) := (categories[..|categories| - 1], categories[|categories| - 1]);
      Served(templates, front, t) + if Pick(templates, category) == Some(t) then [category] else []
  }

  function SignalsTo(w: Worker, categories: seq<string>): seq<Action> {
    if categories == [] then []
    else SignalsTo(w, categories[..|categories| - 1]) +
         [Signal(w.workerId, w.machineId, categories[|categories| - 1])]
  }

  /** Launch on the first category served, a signal for each, and nothing yet to clean up. */
  function Use(t: Template, taskId: string, served: seq<string>): seq<Action> {
    var w := WorkerOf(t, taskId);
    if served == [] then [] else [Provision(t.role, w.machineId, served[0])] + SignalsTo(w, served)
  }

  /** Worker ids determine roles. */
  lemma WorkerIdIsOwn(r: string, r': string, taskId: string)
    requires WorkerId(r, taskId) == WorkerId(r', taskId)
    ensures r == r'
  {
    var tail := "-" + taskId;
    assert WorkerId(r, taskId) == r + tail && WorkerId(r', taskId) == r' + tail;
    assert |r| == |r'|;
    assert (r + tail)[..|r|] == r && (r' + tail)[..|r'|] == r';
  }

  lemma {:induction false} PartAppends(a: seq<Action>, b: seq<Action>, role: string, taskId: string)
    ensures PartOf(a + b, role, taskId) == PartOf(a, role, taskId) + PartOf(b, role, taskId)
  {
    if b == [] {
      assert a + b == a;
    } else {
      assert (a + b)[..|a + b| - 1] == a + b[..|b| - 1];
      PartAppends(a, b[..|b| - 1], role, taskId);
    }
  }

  lemma PartOfUses(t: Template, isNew: bool, taskId: string, category: string, role: string)
    ensures PartOf(Uses(t, isNew, taskId, category), role, taskId) ==
            if t.role == role then Uses(t, isNew, taskId, category) else []
  {
    if t.role != role && WorkerId(t.role, taskId) == WorkerId(role, taskId) {
      WorkerIdIsOwn(t.role, role, taskId);
    }
    var w := WorkerOf(t, taskId);
    var launch, signal := Provision(t.role, w.machineId, category), Signal(w.workerId, w.machineId, category);
    PartOfOne(signal, role, taskId);
    PartOfOne(launch, role, taskId);
    PartAppends([launch], [signal], role, taskId);
    PartAppends([], [signal], role, taskId);
  }

  lemma PartOfOne(a: Action, role: string, taskId: string)
    ensures PartOf([a], role, taskId) == if IsAbout(a, role, taskId) then [a] else []
  {
    assert PartOf([], role, taskId) == [];
  }

  lemma {:induction false} ServedMeans(templates: seq<Template>, categories: seq<string>, t: Template)
    ensures Served(templates, categories, t) != [] <==> t in Launched(templates, categories)
  {
    if categories != [] {
      ServedMeans(templates, categories[..|categories| - 1], t);
    }
  }

  lemma SameRole(templates: seq<Template>, t: Template, u: Template)
    requires DistinctRoles(templates) && t in templates && u in templates && t.role == u.role
    ensures t == u
  {
  }

  lemma UseGrows(t: Template, taskId: string, served: seq<string>, category: string)
    ensures Use(t, taskId, served + [category]) == Use(t, taskId, served) + Uses(t, served == [], taskId, category)
  {
    var w, all := WorkerOf(t, taskId), served + [category];
    assert all[..|all| - 1] == served;
    if served != [] {
      Reassociate([Provision(t.role, w.machineId, served[0])], SignalsTo(w, served),
                  [Signal(w.workerId, w.machineId, category)]);
    }
  }

  lemma AddedPart(templates: seq<Template>, taskId: string, front: seq<string>, category: string, t: Template)
    requires DistinctRoles(templates) && t in templates
    ensures PartOf(Added(templates, taskId, front, category), t.role, taskId) ==
            if Pick(templates, category) == Some(t) then Uses(t, Served(templates, front, t) == [], taskId, category)
            else []
  {
    var picked := Pick(templates, category);
    if picked.Some? {
      PickMeans(templates, category);
      ServedMeans(templates, front, t);
      PartOfUses(picked.value, picked.value !in Launched(templates, front), taskId, category, t.role);
      if picked.value.role == t.role {
        SameRole(templates, t, picked.value);
      }
    }
  }

  lemma {:induction false} BodyPart(templates: seq<Template>, taskId: string, categories: seq<string>, t: Template)
    requires DistinctRoles(templates) && t in templates
    ensures PartOf(Body(templates, taskId, categories), t.role, taskId) ==
            Use(t, taskId, Served(templates, categories, t))
  {
    if categories != [] {
      var front, category := categories[..|categories| - 1], categories[|categories| - 1];
      BodyPart(templates, taskId, front, t);
      PartAppends(Body(templates, taskId, front), Added(templates, taskId, front, category), t.role, taskId);
      AddedPart(templates, taskId, front, category, t);
      if Pick(templates, category) == Some(t) {
        UseGrows(t, taskId, Served(templates, front, t), category);
        assert Served(templates, categories, t) == Served(templates, front, t) + [category];
      } else {
        assert Served(templates, categories, t) == Served(templates, front, t);
      }
    }
  }

  lemma CleanupIsAbout(u: Template, role: string, taskId: string)
    ensures IsAbout(CleanupOf(u, taskId), role, taskId) <==> u.role == role
  {
    if WorkerId(u.role, taskId) == WorkerId(role, taskId) {
      WorkerIdIsOwn(u.role, role, taskId);
    }
  }

  lemma CleanupPart(launched: seq<Template>, taskId: string, last: Template, role: string)
    ensures PartOf(Cleanups(launched + [last], taskId), role, taskId) ==
            PartOf(Cleanups(launched, taskId), role, taskId) +
            if last.role == role then [CleanupOf(last, taskId)] else []
  {
    assert (launched + [last])[..|launched|] == launched;
    PartAppends(Cleanups(launched, taskId), [CleanupOf(last, taskId)], role, taskId);
    PartOfOne(CleanupOf(last, taskId), role, taskId);
    CleanupIsAbout(last, role, taskId);
  }

  lemma {:induction false} CleanupsPart(launched: seq<Template>, taskId: string, t: Template)
    requires NoDup(launched) && forall u :: u in launched && u.role == t.role ==> u == t
    ensures PartOf(Cleanups(launched, taskId), t.role, taskId) ==
            if t in launched then [CleanupOf(t, taskId)] else []
  {
    if launched != [] {
      var front, last := launched[..|launched| - 1], launched[|launched| - 1];
      assert launched == front + [last];
      NoDupSnoc(front, last);
      CleanupsPart(front, taskId, t);
      CleanupPart(front, taskId, last, t.role);
    }
  }

  /**
    The plan is well bracketed. Each registered role's part of it is nothing, when no category needs
    it, and otherwise one launch, then one signal for each category it serves in the order they were
    asked for, then one cleanup.
   */
  lemma PlanIsBracketed(templates: seq<Template>, taskId: string, categories: seq<string>, t: Template)
    requires DistinctRoles(templates) && t in templates
    ensures var (w, served) := (WorkerOf(t, taskId), Served(templates, categories, t));
            PartOf(PlanOf(templates, taskId, categories).actions, t.role, taskId) ==
            if served == [] then []
            else [Provision(t.role, w.machineId, served[0])] + SignalsTo(w, served) + [CleanupOf(t, taskId)]
  {
    var launched := Launched(templates, categories);
    LaunchedMeans(templates, categories);
    forall u | u in launched && u.role == t.role
      ensures u == t
    {
      NeededIsRegistered(templates, categories, u);
      SameRole(templates, t, u);
    }
    BodyPart(templates, taskId, categories, t);
    CleanupsPart(launched, taskId, t);
    ServedMeans(templates, categories, t);
    PartAppends(Body(templates, taskId, categories), Cleanups(launched, taskId), t.role, taskId);
  }

  function Serves(templates: seq<Template>, t: Template): string -> Option<string> {
    category => if Pick(templates, category) == Some(t) then Some(category) else None
  }

  lemma {:induction false} ServedIsCollected(templates: seq<Template>, categories: seq<string>, t: Template)
    ensures Served(templates, categories, t) == Collect(Serves(templates, t), categories)
  {
    if categories != [] {
      ServedIsCollected(templates, categories[..|categories| - 1], t);
    }
  }

  lemma {:induction false} SignalsToAre(w: Worker, categories: seq<string>)
    ensures |SignalsTo(w, categories)| == |categories|
    ensures forall i :: 0 <= i < |categories| ==>
              SignalsTo(w, categories)[i] == Signal(w.workerId, w.machineId, categories[i])
  {
    if categories != [] {
      SignalsToAre(w, categories[..|categories| - 1]);
    }
  }

  /** A role's part of the plan, action by action, with the ids it is carried out under. */
  ghost predicate IsBracket(part: seq<Action>, role: string, id: string, machine: string, served: seq<string>) {
    if served == [] then part == []
    else
      && |part| == |served| + 2
      && part[0] == Provision(role, machine, served[0])
      && (forall i :: 0 <= i < |served| ==> part[i + 1] == Signal(id, machine, served[i]))
      && part[|part| - 1] == Cleanup(id, machine)
  }

  /** `at` lists the positions of the categories whose first covering template is this one. */
  lemma BracketsAre(templates: seq<Template>, taskId: string, categories: seq<string>, t: Template)
    returns (at: seq<nat>, served: seq<string>)
    requires DistinctRoles(templates) && t in templates
    ensures (forall i, j :: 0 <= i < j < |at| ==> at[i] < at[j])
    ensures forall k :: 0 <= k < |categories| ==> (k in at <==> Pick(templates, categories[k]) == Some(t))
    ensures |served| == |at| && forall i :: 0 <= i < |at| ==> at[i] < |categories| && served[i] == categories[at[i]]
    ensures IsBracket(PartOf(PlanOf(templates, taskId, categories).actions, t.role, taskId), t.role,
                      t.role + "-" + taskId, t.vmName + "-" + (t.role + "-" + taskId), served)
  {
    at := CollectPicks(Serves(templates, t), categories);
    served := Served(templates, categories, t);
    ServedIsCollected(templates, categories, t);
    PlanIsBracketed(templates, taskId, categories, t);
    SignalsToAre(WorkerOf(t, taskId), served);
  }

  // ---- order ----------------------------------------------------------------

  /** The plan grows category by category: what the first ones call for comes first. */
  lemma {:induction false} PlanGrowsInOrder(templates: seq<Template>, taskId: string, categories: seq<string>, n: nat)
    requires n <= |categories|
    ensures Body(templates, taskId, categories[..n]) <= Body(templates, taskId, categories)
    ensures Launched(templates, categories[..n]) <= Launched(templates, categories)
  {
    if n == |categories| {
      assert categories[..n] == categories;
    } else {
      var front := categories[..|categories| - 1];
      assert front[..n] == categories[..n];
      PlanGrowsInOrder(templates, taskId, front, n);
    }
  }

  lemma {:induction false} CleanupsAre(launched: seq<Template>, taskId: string)
    ensures |Cleanups(launched, taskId)| == |launched|
    ensures forall i :: 0 <= i < |launched| ==> Cleanups(launched, taskId)[i] == CleanupOf(launched[i], taskId)
  {
    if launched != [] {
      CleanupsAre(launched[..|launched| - 1], taskId);
    }
  }

  lemma {:induction false} BodyHasNoCleanup(templates: seq<Template>, taskId: string, categories: seq<string>)
    ensures forall a :: a in Body(templates, taskId, categories) ==> !a.Cleanup?
  {
    if categories != [] {
      BodyHasNoCleanup(templates, taskId, categories[..|categories| - 1]);
    }
  }

  /** The cleanups come last, in the order of the launches. */
  lemma CleanupsComeLast(templates: seq<Template>, taskId: string, categories: seq<string>) returns (n: nat)
    ensures var (actions, launched) := (PlanOf(templates, taskId, categories).actions, Launched(templates, categories));
            && |actions| == n + |launched|
            && (forall i :: 0 <= i < n ==> !actions[i].Cleanup?)
            && (forall i :: 0 <= i < |launched| ==>
                  actions[n + i] == Cleanup(launched[i].role + "-" + taskId,
                                            launched[i].vmName + "-" + (launched[i].role + "-" + taskId)))
  {
    n := |Body(templates, taskId, categories)|;
    BodyHasNoCleanup(templates, taskId, categories);
    CleanupsAre(Launched(templates, categories), taskId);
  }

  // ---- the plan as a whole --------------------------------------------------

  function Covered(templates: seq<Template>, categories: seq<string>): seq<string> {
    if categories == [] then []
    else
      var (front, category) := (categories[..|categories| - 1], categories[|categories| - 1]);
      Covered(templates, front) + if Pick(templates, category).Some? then [category] else []
  }

  lemma {:induction false} BodySize(templates: seq<Template>, taskId: string, categories: seq<string>)
    ensures |Body(templates, taskId, categories)| ==
            |Covered(templates, categories)| + |Launched(templates, categories)|
    ensures |categories| == |Covered(templates, categories)| + |Missing(templates, categories)|
  {
    if categories != [] {
      BodySize(templates, taskId, categories[..|categories| - 1]);
    }
  }

  lemma {:induction false} CleanupsSize(launched: seq<Template>, taskId: string)
    ensures |Cleanups(launched, taskId)| == |launched|
  {
    if launched != [] {
      CleanupsSize(launched[..|launched| - 1], taskId);
    }
  }

  lemma {:induction false} MissingMeans(templates: seq<Template>, categories: seq<string>)
    ensures Missing(templates, categories) != [] <==>
            exists i :: 0 <= i < |categories| && Pick(templates, categories[i]).None?
  {
    if categories != [] {
      var front, category := categories[..|categories| - 1], categories[|categories| - 1];
      MissingMeans(templates, front);
      assert forall i :: 0 <= i < |front| ==> categories[i] == front[i];
    }
  }

  function Uncovered(templates: seq<Template>): string -> Option<string> {
    category => if Pick(templates, category).None? then Some(category) else None
  }

  lemma {:induction false} MissingIsCollected(templates: seq<Template>, categories: seq<string>)
    ensures Missing(templates, categories) == Collect(Uncovered(templates), categories)
  {
    if categories != [] {
      MissingIsCollected(templates, categories[..|categories| - 1]);
    }
  }

  /** The missing categories are those that no template covers, in order and with repeats. */
  lemma MissingPicks(templates: seq<Template>, taskId: string, categories: seq<string>) returns (at: seq<nat>)
    ensures var missing := PlanOf(templates, taskId, categories).missing;
            && |missing| == |at| && (forall i, j :: 0 <= i < j < |at| ==> at[i] < at[j])
            && (forall i :: 0 <= i < |at| ==> at[i] < |categories| && missing[i] == categories[at[i]])
            && (forall k :: 0 <= k < |categories| ==>
                  (k in at <==> forall t :: t in templates ==> categories[k] !in t.categories))
  {
    at := CollectPicks(Uncovered(templates), categories);
    MissingIsCollected(templates, categories);
    forall k | 0 <= k < |categories|
      ensures k in at <==> forall t :: t in templates ==> categories[k] !in t.categories
    {
      PickMeans(templates, categories[k]);
      assert k in at <==> Uncovered(templates)(categories[k]).Some?;
    }
  }

  lemma HighRiskMeans(templates: seq<Template>, categories: seq<string>)
    ensures AnyHighRisk(Launched(templates, categories)) <==>
            exists i :: 0 <= i < |categories| && Pick(templates, categories[i]).Some? &&
                        Pick(templates, categories[i]).value.risk == "high"
  {
    var launched := Launched(templates, categories);
    LaunchedMeans(templates, categories);
    if AnyHighRisk(launched) {
      var k :| 0 <= k < |launched| && launched[k].risk == "high";
      assert Needed(templates, categories, launched[k]);
    }
    forall i | 0 <= i < |categories| && Pick(templates, categories[i]).Some?
      ensures Pick(templates, categories[i]).value in launched
    {
      assert Needed(templates, categories, Pick(templates, categories[i]).value);
    }
  }

  /**
    One action for each covered category, repeats included, and two for each role launched; and a
    human must look exactly when some category has no template or is served by a high-risk one.
   */
  lemma PlanSizeAndReview(templates: seq<Template>, taskId: string, categories: seq<string>)
    ensures |PlanOf(templates, taskId, categories).actions| ==
            |Covered(templates, categories)| + 2 * |Launched(templates, categories)|
    ensures PlanOf(templates, taskId, categories).review <==>
            exists i :: 0 <= i < |categories| &&
                        match Pick(templates, categories[i]) case None => true case Some(t) => t.risk == "high"
  {
    BodySize(templates, taskId, categories);
    CleanupsSize(Launched(templates, categories), taskId);
    MissingMeans(templates, categories);
    HighRiskMeans(templates, categories);
  }

  lemma PrefixIsSame(a: string, b: string, tail: string)
    requires a + tail == b + tail
    ensures a == b
  {
    assert |a| == |b|;
    assert (a + tail)[..|a|] == a && (b + tail)[..|b|] == b;
  }

  /** Two launched roles get one machine exactly when VM name and role read the same joined by a dash. */
  lemma MachinesCollideIff(t: Template, u: Template, taskId: string)
    ensures WorkerOf(t, taskId).machineId == WorkerOf(u, taskId).machineId <==>
            t.vmName + "-" + t.role == u.vmName + "-" + u.role
  {
    var a, b, tail := t.vmName + "-" + t.role, u.vmName + "-" + u.role, "-" + taskId;
    assert WorkerOf(t, taskId).machineId == a + tail;
    assert WorkerOf(u, taskId).machineId == b + tail;
    if a + tail == b + tail {
      PrefixIsSame(a, b, tail);
    }
  }

  lemma MachinesCanCollide()
    ensures exists t: Template, u: Template :: t.role != u.role && t.vmName + "-" + t.role == u.vmName + "-" + u.role
  {
    var t := Template("y-z", "x", "", "docker", "", "", [], "low");
    var u := Template("z", "x-y", "", "docker", "", "", [], "low");
    assert t.vmName + "-" + t.role == "x-y-z" == u.vmName + "-" + u.role;
  }
}
