/** The whole life of one agent: any number of runs, one after another. */
module AgentLife {
  import opened Engine
  import opened Observability
  import opened Planning
  import opened Replay
  import RunLaws

  const NO_USAGE := Usage(0, 0, 0)

  const NEW_AGENT := Agent(EMPTY, NO_USAGE, map[], NO_EVENTS, [], [], [], false)

  lemma EndStaysGapFree(c: Config, r: Run, elapsed: int, synthesis: Synthesis, summary: string, blank: string -> bool)
    requires GapFree(r.agent.journal)
    ensures GapFree(End(c, r, elapsed, synthesis, summary, blank).0.journal)
  {
  }

  lemma PerformIsTold(c: Config, a: Agent, s: RunLaws.Script, base: Usage)
    requires TellsUsage(a, base) && GapFree(a.journal)
    ensures Tells(RunLaws.Perform(c, a, s), base) && GapFree(RunLaws.Perform(c, a, s).journal)
  {
    var begun := Begin(c, a, s.conversation, s.specs, s.replans);
    var r := Turns(c, begun, s.world, s.turns);
    TraceIsFaithful(c, a, s.conversation, s.specs, s.replans, s.world, s.turns, base);
    EndTells(c, r, s.elapsed, s.synthesis, s.summary, s.blank, base);
    JournalStaysGapFree(c, begun, s.world, s.turns);
    EndStaysGapFree(c, r, s.elapsed, s.synthesis, s.summary, s.blank);
  }

  lemma {:induction false} RunsAreTold(c: Config, a: Agent, scripts: seq<RunLaws.Script>, base: Usage)
    requires TellsUsage(a, base) && GapFree(a.journal)
    ensures var b := RunLaws.PerformAll(c, a, scripts);
            TellsUsage(b, base) && GapFree(b.journal) && (scripts != [] ==> Tells(b, base))
  {
    if scripts != [] {
      RunsAreTold(c, a, scripts[..|scripts| - 1], base);
      PerformIsTold(c, RunLaws.PerformAll(c, a, scripts[..|scripts| - 1]), scripts[|scripts| - 1], base);
    }
  }

  /** Nothing was charged that the trace does not tell. */
  ghost predicate Accounted(a: Agent) {
    var told := ReplayEvents(a.journal.events);
    a.usage.steps == told.steps && a.usage.calls == told.calls
  }

  /**
    Only what the policy allows was executed, the trace has no gap and equals the episodic log, and it
    tells all that was ever charged.
   */
  ghost predicate Trustworthy(c: Config, a: Agent) {
    RunLaws.Safe(c, a) && GapFree(a.journal) && Accounted(a)
  }

  lemma AccountedIsTold(a: Agent)
    ensures Accounted(a) <==> TellsUsage(a, NO_USAGE)
  {
  }

  lemma NothingIsTold(events: seq<Event>)
    requires events == []
    ensures ReplayEvents(events) == View([], 0, 0)
  {
  }

  lemma NewAgentIsTrustworthy(c: Config)
    ensures Trustworthy(c, NEW_AGENT)
  {
    NothingIsTold(NEW_AGENT.journal.events);
  }

  lemma TrustIsKept(c: Config, a: Agent, scripts: seq<RunLaws.Script>)
    requires Trustworthy(c, a) && forall s :: s in scripts ==> RunLaws.HonestRoles(s)
    ensures Trustworthy(c, RunLaws.PerformAll(c, a, scripts))
    ensures scripts != [] ==> Tells(RunLaws.PerformAll(c, a, scripts), NO_USAGE)
  {
    AccountedIsTold(a);
    RunsAreTold(c, a, scripts, NO_USAGE);
    RunLaws.AgentStaysSafe(c, a, scripts);
    AccountedIsTold(RunLaws.PerformAll(c, a, scripts));
  }

  /** One more run. */
  lemma RunKeepsTrust(c: Config, a: Agent, s: RunLaws.Script)
    requires Trustworthy(c, a) && RunLaws.HonestRoles(s)
    ensures Trustworthy(c, RunLaws.Perform(c, a, s)) && Tells(RunLaws.Perform(c, a, s), NO_USAGE)
  {
    AccountedIsTold(a);
    PerformIsTold(c, a, s, NO_USAGE);
    RunLaws.PerformStaysSafe(c, a, s);
    AccountedIsTold(RunLaws.Perform(c, a, s));
  }

  /** Trust is not about the plan, which every run makes anew. */
  lemma TrustIgnoresPlan(c: Config, a: Agent, plan: PlanState)
    requires Trustworthy(c, a)
    ensures Trustworthy(c, a.(plan := plan))
  {
  }

  /**
    Whatever a new agent was asked in any number of runs, and whatever the reasoner, the tools and the
    clock said, it is trustworthy; and once it has run, its trace tells its last plan's statuses.
   */
  lemma LifeOfAnAgent(c: Config, scripts: seq<RunLaws.Script>)
    requires forall s :: s in scripts ==> RunLaws.HonestRoles(s)
    ensures Trustworthy(c, RunLaws.PerformAll(c, NEW_AGENT, scripts))
    ensures scripts != [] ==> Tells(RunLaws.PerformAll(c, NEW_AGENT, scripts), NO_USAGE)
  {
    NewAgentIsTrustworthy(c);
    TrustIsKept(c, NEW_AGENT, scripts);
  }
}
