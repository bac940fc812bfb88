/** What happens to each step over one run, told by the run's own events. */
module Lifecycle {
  import opened Common
  import opened Engine
  import opened Observability
  import opened Permissions
  import opened Planning
  import RunLaws

  /** What a run's events add up to: who was attempted how often, who failed, and who got which decision. */
  datatype Account = Account(attempted: multiset<nat>, failed: set<nat>, judged: seq<nat>, reviewed: seq<nat>,
                             allowed: seq<nat>)

  const BLANK := Account(multiset{}, {}, [], [], [])

  function Enter(t: Account, k: Kind): Account {
    match k
    case Reason(id) => t.(attempted := t.attempted + multiset{id})
    case Stuck(id) => t.(failed := t.failed + {id})
    case StepError(id) => t.(failed := t.failed + {id})
    case GuardrailBlock(id) => t.(failed := t.failed + {id})
    case ToolReturned(id, ok) => if ok then t else t.(failed := t.failed + {id})
    case Decided(id, outcome) =>
      var judged := t.(judged := t.judged + [id]);
      (match outcome
       case Deny => judged.(failed := t.failed + {id})
       case Review => judged.(reviewed := t.reviewed + [id])
       case Allow => judged.(allowed := t.allowed + [id]))
    case _ => t
  }

  function EnterAll(t: Account, ks: seq<Kind>): Account {
    Fold(Enter, t, ks)
  }

  /** The account of the events from position `from` on. */
  function AccountFrom(events: seq<Event>, from: nat): Account {
    if |events| <= from then BLANK
    else Enter(AccountFrom(events[..|events| - 1], from), events[|events| - 1].kind)
  }

  lemma EnterShort(t: Account, x: Kind, y: Kind, z: Kind)
    ensures EnterAll(t, [x]) == Enter(t, x)
    ensures EnterAll(t, [x, y]) == Enter(Enter(t, x), y)
    ensures EnterAll(t, [x, y, z]) == Enter(Enter(Enter(t, x), y), z)
  {
    FoldShort(Enter, t, x, y, z);
  }

  lemma RecordEnters(j: Journal, k: Kind, from: nat)
    requires from <= |j.events|
    ensures AccountFrom(Record(j, k).events, from) == Enter(AccountFrom(j.events, from), k)
  {
    assert Record(j, k).events[..|j.events|] == j.events;
  }

  lemma {:induction false} RecordAllEnters(j: Journal, ks: seq<Kind>, from: nat)
    requires from <= |j.events|
    ensures |RecordAll(j, ks).events| == |j.events| + |ks|
    ensures AccountFrom(RecordAll(j, ks).events, from) == EnterAll(AccountFrom(j.events, from), ks)
  {
    if ks != [] {
      RecordAllEnters(j, ks[..|ks| - 1], from);
      RecordEnters(RecordAll(j, ks[..|ks| - 1]), ks[|ks| - 1], from);
    }
  }

  // ---- one step -------------------------------------------------------------

  function IfSo(b: bool, id: nat): seq<nat> {
    if b then [id] else []
  }

  /** The entries a step with this effect makes, `judged` saying whether it got as far as a decision. */
  ghost function Entered(t: Account, id: nat, e: Effect, judged: bool): Account {
    Account(t.attempted + multiset{id}, if e.status == Failed then t.failed + {id} else t.failed,
            t.judged + IfSo(judged, id), t.reviewed + IfSo(e.review.Some?, id),
            t.allowed + IfSo(e.execution.Some?, id))
  }

  /** The event that ends a tool call, and whether it says that the step failed. */
  predicate Ends(k: Kind, id: nat, failed: bool) {
    match k
    case StepError(i) => i == id && failed
    case GuardrailBlock(i) => i == id && failed
    case ToolReturned(i, ok) => i == id && ok != failed
    case _ => false
  }

  lemma RanEnters(id: nat, last: Kind, failed: bool, t: Account)
    requires Ends(last, id, failed)
    ensures EnterAll(t, [Reason(id), Decided(id, Allow), last]) ==
            Account(t.attempted + multiset{id}, if failed then t.failed + {id} else t.failed, t.judged + [id],
                    t.reviewed, t.allowed + [id])
  {
    EnterShort(t, Reason(id), Decided(id, Allow), last);
  }

  lemma ExecuteEnters(c: Config, id: nat, action: ToolAction, reply: ToolReply, t: Account)
    ensures var e := ExecuteEffect(c, id, action, reply).(execution := Some(Execution(id, action, reply)));
            EnterAll(t, e.events) == Entered(t, id, e, true)
  {
    var e := ExecuteEffect(c, id, action, reply);
    assert e.events == [Reason(id), Decided(id, Allow), e.events[2]];
    assert t.reviewed + [] == t.reviewed;
    RanEnters(id, e.events[2], e.status == Failed, t);
  }

  lemma DecisionEnters(c: Config, id: nat, action: ToolAction, reply: ToolReply, decision: Decision, t: Account)
    ensures var e := DecisionEffect(c, id, action, reply, decision);
            EnterAll(t, e.events) == Entered(t, id, e, true)
  {
    match decision.outcome {
      case Deny => EnterShort(t, Reason(id), Decided(id, Deny), Stuck(id));
      case Review => EnterShort(t, Reason(id), Decided(id, Review), HumanReview(id));
      case Allow => ExecuteEnters(c, id, action, reply, t);
    }
  }

  lemma GateEnters(c: Config, marks: map<string, nat>, id: nat, action: ToolAction, reply: ToolReply, t: Account)
    ensures var e := GateEffect(c, marks, id, action, reply);
            EnterAll(t, e.events) == Entered(t, id, e, Tally(marks, c.fingerprint(action)) + 1 <= c.maxAttempts)
  {
    EnterShort(t, Reason(id), Stuck(id), Stuck(id));
    DecisionEnters(c, id, action, reply, Check(c.policy, action), t);
  }

  lemma StepEnters(c: Config, marks: map<string, nat>, id: nat, answers: Answers, t: Account) returns (judged: bool)
    ensures var e := StepEffect(c, marks, id, answers);
            EnterAll(t, e.events) == Entered(t, id, e, judged) &&
            (e.review.Some? || e.execution.Some? ==> judged)
  {
    if answers.proposal.finalAnswer.None? && answers.proposal.tool.Some? {
      var action := ActionFor(answers.proposal.tool.value, answers.proposal.args);
      judged := Tally(marks, c.fingerprint(action)) + 1 <= c.maxAttempts;
      GateEnters(c, marks, id, action, answers.reply, t);
    } else {
      judged := false;
      EnterShort(t, Reason(id), Stuck(id), Stuck(id));
    }
  }

  // ---- one run --------------------------------------------------------------

  function ReviewIds(rs: seq<ReviewEntry>): (ids: seq<nat>)
    ensures |ids| == |rs| && forall i :: 0 <= i < |rs| ==> ids[i] == rs[i].stepId
  {
    seq(|rs|, i requires 0 <= i < |rs| => rs[i].stepId)
  }

  function ExecutionIds(xs: seq<Execution>): (ids: seq<nat>)
    ensures |ids| == |xs| && forall i :: 0 <= i < |xs| ==> ids[i] == xs[i].stepId
  {
    seq(|xs|, i requires 0 <= i < |xs| => xs[i].stepId)
  }

  /** A step is attempted at most once, and has failed exactly if an event says so. */
  ghost predicate StepFits(step: PlanStep, t: Account) {
    && step.status != InProgress
    && step.attempts == t.attempted[step.id] == (if step.status == Pending then 0 else 1)
    && (step.status == Failed || step.status == Skipped <==> step.id in t.failed)
  }

  /** A decision is only ever made about a step that has been attempted, and only once. */
  ghost predicate Sound(t: Account) {
    && NoDup(t.judged)
    && (forall id :: id in t.judged ==> id in t.attempted)
    && (forall id :: id in t.reviewed || id in t.allowed ==> id in t.judged)
    && (forall id :: id in t.reviewed ==> id !in t.allowed)
  }

  /** The plan, the reviews and the executions since position `ran` fit the account of the run's events. */
  ghost predicate Chronicle(a: Agent, t: Account, ran: nat) {
    && WellNumbered(a.plan) && ran <= |a.executed|
    && (forall i :: 0 <= i < |a.plan.steps| ==> StepFits(a.plan.steps[i], t))
    && (forall id :: id in t.attempted || id in t.failed ==> 1 <= id <= |a.plan.steps|)
    && ReviewIds(a.reviews) == t.reviewed
    && ExecutionIds(a.executed[ran..]) == t.allowed
    && Sound(t)
  }

  lemma EnteredStaysSound(t: Account, id: nat, e: Effect, judged: bool)
    requires Sound(t) && id !in t.attempted
    requires (e.review.Some? || e.execution.Some? ==> judged) && (e.review.Some? ==> e.execution.None?)
    ensures Sound(Entered(t, id, e, judged))
  {
  }

  lemma EnteredFits(a: Agent, a': Agent, i: nat, t: Account, e: Effect, judged: bool)
    requires WellNumbered(a.plan) && i < |a.plan.steps| && a.plan.steps[i].status == Pending
    requires forall j :: 0 <= j < |a.plan.steps| ==> StepFits(a.plan.steps[j], t)
    requires e.status == Done || e.status == Failed
    requires var step := a.plan.steps[i];
             a'.plan == a.plan.(steps := a.plan.steps[i := step.(status := e.status, result := e.note,
                                                                   attempts := step.attempts + 1)])
    ensures WellNumbered(a'.plan)
    ensures forall j :: 0 <= j < |a'.plan.steps| ==> StepFits(a'.plan.steps[j], Entered(t, i + 1, e, judged))
  {
    forall j | 0 <= j < |a'.plan.steps|
      ensures StepFits(a'.plan.steps[j], Entered(t, i + 1, e, judged))
    {
      assert StepFits(a.plan.steps[j], t);
    }
  }

  lemma ListsGrow(a: Agent, e: Effect, id: nat, ran: nat)
    requires ran <= |a.executed|
    requires e.execution.Some? ==> e.execution.value.stepId == id
    requires e.review.Some? ==> e.review.value.stepId == id
    ensures var executed := if e.execution.Some? then a.executed + [e.execution.value] else a.executed;
            ExecutionIds(executed[ran..]) == ExecutionIds(a.executed[ran..]) + IfSo(e.execution.Some?, id)
    ensures var reviews := if e.review.Some? then a.reviews + [e.review.value] else a.reviews;
            ReviewIds(reviews) == ReviewIds(a.reviews) + IfSo(e.review.Some?, id)
  {
  }

  lemma ApplyKeepsChronicle(c: Config, a: Agent, i: nat, e: Effect, t: Account, ran: nat, judged: bool)
    requires Chronicle(a, t, ran) && i < |a.plan.steps| && a.plan.steps[i].status == Pending
    requires e.status == Done || e.status == Failed
    requires e.execution.Some? ==> e.execution.value.stepId == i + 1
    requires e.review.Some? ==> e.review.value.stepId == i + 1 && e.execution.None?
    requires e.review.Some? || e.execution.Some? ==> judged
    ensures Chronicle(ApplyEffect(c, a, i, e), Entered(t, i + 1, e, judged), ran)
  {
    assert a.plan.steps[i].id == i + 1 && StepFits(a.plan.steps[i], t);
    EnteredFits(a, ApplyEffect(c, a, i, e), i, t, e, judged);
    EnteredStaysSound(t, i + 1, e, judged);
    ListsGrow(a, e, i + 1, ran);
  }

  lemma StepKeepsChronicle(c: Config, a: Agent, i: nat, answers: Answers, from: nat, ran: nat)
    requires from <= |a.journal.events| && Chronicle(a, AccountFrom(a.journal.events, from), ran)
    requires i < |a.plan.steps| && a.plan.steps[i].status == Pending
    ensures var a' := RunStep(c, a, i, answers);
            from <= |a'.journal.events| && Chronicle(a', AccountFrom(a'.journal.events, from), ran)
  {
    var t := AccountFrom(a.journal.events, from);
    assert a.plan.steps[i].id == i + 1;
    var e := StepEffect(c, a.marks, i + 1, answers);
    var judged := StepEnters(c, a.marks, i + 1, answers, t);
    RecordAllEnters(a.journal, e.events, from);
    RunLaws.EffectIsGuarded(c, a.marks, i + 1, answers);
    ApplyKeepsChronicle(c, a, i, e, t, ran, judged);
  }

  lemma ReplanFits(p: PlanState, titles: seq<string>, t: Account)
    requires WellNumbered(p)
    requires forall i :: 0 <= i < |p.steps| ==> StepFits(p.steps[i], t)
    requires forall id :: id in t.attempted || id in t.failed ==> 1 <= id <= |p.steps|
    ensures var q := ReplanFailed(p, titles);
            && WellNumbered(q) && |q.steps| >= |p.steps|
            && forall i :: 0 <= i < |q.steps| ==> StepFits(q.steps[i], t)
  {
    ReplanKeepsNumbers(p, titles);
    var q := ReplanFailed(p, titles);
    forall i | 0 <= i < |q.steps|
      ensures StepFits(q.steps[i], t)
    {
      if i < |p.steps| {
        assert StepFits(p.steps[i], t);
      }
    }
  }

  /** The chronicle of a run that began with `from` events and `ran` executions behind it. */
  ghost predicate Kept(r: Run, from: nat, ran: nat, replans: int) {
    && from <= |r.agent.journal.events|
    && Chronicle(r.agent, AccountFrom(r.agent.journal.events, from), ran)
    && r.agent.plan.revision + r.replansLeft == replans
    && r.agent.plan.revision <= RunLaws.AtLeast(0, replans)
  }

  lemma NoteKeeps(a: Agent, k: Kind, from: nat, ran: nat)
    requires from <= |a.journal.events| && Chronicle(a, AccountFrom(a.journal.events, from), ran)
    requires Enter(AccountFrom(a.journal.events, from), k) == AccountFrom(a.journal.events, from)
    ensures var a' := Note(a, k);
            from <= |a'.journal.events| && Chronicle(a', AccountFrom(a'.journal.events, from), ran)
  {
    RecordEnters(a.journal, k, from);
  }

  lemma ReflectTurnKeeps(r: Run, reflection: Reflection, from: nat, ran: nat, replans: int)
    requires Kept(r, from, ran, replans)
    ensures Kept(ReflectTurn(r, reflection), from, ran, replans)
  {
    var noted := Note(r.agent, Reflected(reflection.satisfied));
    NoteKeeps(r.agent, Reflected(reflection.satisfied), from, ran);
    if !(reflection.satisfied || r.replansLeft <= 0 || reflection.titles == []) {
      var plan := ReplanFailed(r.agent.plan, reflection.titles);
      ReplanFits(r.agent.plan, reflection.titles, AccountFrom(noted.journal.events, from));
      ReplanKeepsNumbers(r.agent.plan, reflection.titles);
      NoteKeeps(noted.(plan := plan), Replanned(plan), from, ran);
    }
  }

  lemma StepTurnKeeps(c: Config, r: Run, i: nat, answers: Answers, from: nat, ran: nat, replans: int)
    requires Kept(r, from, ran, replans)
    requires i < |r.agent.plan.steps| && r.agent.plan.steps[i].status == Pending
    ensures Kept(StepTurn(c, r, i, answers), from, ran, replans)
  {
    StepKeepsChronicle(c, r.agent, i, answers, from, ran);
    NoteKeeps(RunStep(c, r.agent, i, answers), FinalAnswer, from, ran);
  }

  lemma TurnKeeps(c: Config, r: Run, input: Input, from: nat, ran: nat, replans: int)
    requires Kept(r, from, ran, replans)
    ensures Kept(Turn(c, r, input), from, ran, replans)
  {
    var i := NextPending(r.agent.plan.steps);
    match Exceeded(c.limits, r.agent.usage, input.elapsed) {
      case Some(limit) => NoteKeeps(r.agent, BudgetExceeded(limit), from, ran);
      case None =>
        if i < |r.agent.plan.steps| {
          StepTurnKeeps(c, r, i, input.answers, from, ran, replans);
        } else {
          ReflectTurnKeeps(r, input.reflection, from, ran, replans);
        }
    }
  }

  lemma BeginKeeps(c: Config, a: Agent, s: RunLaws.Script)
    ensures Kept(Begin(c, a, s.conversation, s.specs, s.replans), |a.journal.events|, |a.executed|, s.replans)
  {
    AddAllAppends(EMPTY, s.specs);
    var plan := AddAll(EMPTY, s.specs);
    var from := |a.journal.events|;
    RecordEnters(a.journal, RunStart, from);
    RecordEnters(Record(a.journal, RunStart), PlanMade(plan), from);
    assert a.executed[|a.executed|..] == [];
  }

  /**
    After every turn of a run: ids are positions, no step is in progress, each was attempted at most once
    and has failed exactly if an event of this run says so; replans used and left add up to the budget;
    `pending_review` lists the steps decided REVIEW and the executor was called for the steps decided
    ALLOW, in order and one to one, and no step is in both lists.
   */
  lemma RunKeepsChronicle(c: Config, a: Agent, s: RunLaws.Script, n: nat)
    ensures Kept(Turns(c, Begin(c, a, s.conversation, s.specs, s.replans), s.world, n),
                 |a.journal.events|, |a.executed|, s.replans)
  {
    var from, ran := |a.journal.events|, |a.executed|;
    var kept := (r: Run) => Kept(r, from, ran, s.replans);
    BeginKeeps(c, a, s);
    forall r, input | kept(r)
      ensures kept(Turn(c, r, input))
    {
      TurnKeeps(c, r, input, from, ran, s.replans);
    }
    TurnsKeep(c, Begin(c, a, s.conversation, s.specs, s.replans), s.world, n, kept);
  }

  /** One-to-one: an id is under review, or was executed, or neither; never both, never twice. */
  lemma ReviewedIsNeverExecuted(c: Config, a: Agent, s: RunLaws.Script, n: nat)
    ensures var r := Turns(c, Begin(c, a, s.conversation, s.specs, s.replans), s.world, n);
            && |a.executed| <= |r.agent.executed|
            && var (reviewed, executed) := (ReviewIds(r.agent.reviews), ExecutionIds(r.agent.executed[|a.executed|..]));
               forall id :: id in reviewed ==> id !in executed
  {
    RunKeepsChronicle(c, a, s, n);
  }

  ghost predicate Settled(steps: seq<PlanStep>, t: Account) {
    forall i :: 0 <= i < |steps| ==> steps[i].status == if i + 1 in t.failed then Skipped else Done
  }

  lemma CompleteIffSettled(a: Agent, t: Account, ran: nat)
    requires Chronicle(a, t, ran)
    ensures IsComplete(a.plan.steps) && !HasFailures(a.plan.steps) <==>
            a.plan.steps != [] && Settled(a.plan.steps, t)
  {
    forall i | 0 <= i < |a.plan.steps|
      ensures a.plan.steps[i].status in {Failed, Skipped} <==> i + 1 in t.failed
    {
      assert StepFits(a.plan.steps[i], t) && a.plan.steps[i].id == i + 1;
    }
  }

  /** A run succeeds exactly when it had a plan, every step is done or has failed and been superseded,
      and no limit is reached. */
  lemma SuccessMeans(c: Config, a: Agent, s: RunLaws.Script)
    ensures var r := Turns(c, Begin(c, a, s.conversation, s.specs, s.replans), s.world, s.turns);
            var t := AccountFrom(r.agent.journal.events, |a.journal.events|);
            End(c, r, s.elapsed, s.synthesis, s.summary, s.blank).1 <==>
            r.agent.plan.steps != [] && Settled(r.agent.plan.steps, t) &&
            Exceeded(c.limits, r.agent.usage, s.elapsed).None?
  {
    RunKeepsChronicle(c, a, s, s.turns);
    var r := Turns(c, Begin(c, a, s.conversation, s.specs, s.replans), s.world, s.turns);
    CompleteIffSettled(r.agent, AccountFrom(r.agent.journal.events, |a.journal.events|), |a.executed|);
  }

  // ---- how statuses move ----------------------------------------------------

  predicate MayBecome(s: Status, s': Status) {
    s' == s || (s == Pending && (s' == Done || s' == Failed)) || (s == Failed && s' == Skipped)
  }

  /** Steps keep their place and title and move as they may; added steps are pending. */
  ghost predicate Evolves(was: seq<PlanStep>, now: seq<PlanStep>) {
    && |was| <= |now|
    && (forall i :: 0 <= i < |was| ==> now[i].title == was[i].title && MayBecome(was[i].status, now[i].status))
    && (forall i :: |was| <= i < |now| ==> now[i].status == Pending)
  }

  lemma StepEvolves(c: Config, a: Agent, i: nat, answers: Answers)
    requires i < |a.plan.steps| && a.plan.steps[i].status == Pending
    ensures Evolves(a.plan.steps, RunStep(c, a, i, answers).plan.steps)
  {
    RunLaws.EffectIsGuarded(c, a.marks, a.plan.steps[i].id, answers);
  }

  lemma ReplanEvolves(p: PlanState, titles: seq<string>)
    requires WellNumbered(p)
    ensures Evolves(p.steps, ReplanFailed(p, titles).steps)
  {
    ReplanKeepsNumbers(p, titles);
  }

  lemma NothingEvolves(steps: seq<PlanStep>)
    ensures Evolves(steps, steps)
  {
  }

  /** In one turn a step only moves from pending to done or failed, or from failed to skipped; new
      steps are pending, and titles never change. */
  lemma TurnMovesStatuses(c: Config, r: Run, input: Input)
    requires WellNumbered(r.agent.plan)
    ensures Evolves(r.agent.plan.steps, Turn(c, r, input).agent.plan.steps)
  {
    var i := NextPending(r.agent.plan.steps);
    NothingEvolves(r.agent.plan.steps);
    if i < |r.agent.plan.steps| {
      StepEvolves(c, r.agent, i, input.answers);
      assert StepTurn(c, r, i, input.answers).agent.plan == RunStep(c, r.agent, i, input.answers).plan;
    } else {
      ReplanEvolves(r.agent.plan, input.reflection.titles);
    }
  }
}
