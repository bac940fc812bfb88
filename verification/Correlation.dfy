/**
  The two correlation layers under every interleaving of callers, reader, timeouts and reader exit.
  Each step below is one critical section (or one blocking call returning) of some thread: host calls
  over the bridge, and on top of them tool invocations, which make one host call and then wait for a
  pushed signal carrying their own correlation id.
 */
module Correlation {
  import opened Common
  import opened Matcher
  import BridgeClient

  type Value = BridgeClient.Value

  datatype Kind = HostCall | Handshake

  datatype Phase =
    | Drawn                              // the id is allocated
    | Registered                         // the event is in the table
    | Sent
    | Unsent                             // `_send` raised
    | Woken                              // `ev.wait` returned true, the result is not taken yet
    | Expired                            // `ev.wait` returned false
    | Returned(value: Value, upto: nat)  // took its result when `upto` arrivals had been seen
    | Raised                             // reported the timeout

  /** `since` arrivals had been seen when it registered; `late` if the reader did not run by then. */
  datatype Call = Call(kind: Kind, phase: Phase, since: nat, late: bool)

  datatype ToolPhase =
    | Posted                             // the waiter is in the table
    | Signalling(corr: nat)              // inside `signal_user`, as host call `corr`
    | Unsignalled                        // the host call raised
    | Rejected                           // the node acknowledged with ok false
    | Waiting
    | Roused
    | Lapsed
    | Done(value: Value, upto: nat)
    | GaveUp

  /** `call` is the host call it made to signal the tool, once it has made one. */
  datatype Invocation = Invocation(phase: ToolPhase, since: nat, call: Option<nat>)

  datatype Key = Corr(corr: nat) | Cid(cid: string)

  datatype Arrival = Arrival(key: Key, value: Value)

  /** The reader thread runs, has left its loop, or was killed by a frame. */
  datatype Thread = Running | Exited | Died

  /** `drawn` lists every id the counter gave out, to calls and to messages. */
  datatype System = System(
    nextId: nat,
    drawn: seq<nat>,
    bridge: Table<nat, Value>,
    tools: Table<string, Value>,
    reader: Thread,
    calls: map<nat, Call>,
    invocations: map<string, Invocation>,
    log: seq<Arrival>)

  const INITIAL := System(1, [], Table(map[], map[]), Table(map[], map[]), Running, map[], map[], [])

  datatype Step =
    | Draw(kind: Kind)
    | Register(corr: nat)
    | Send(corr: nat, ok: bool, drew: bool)  // `drew`: a message id was allocated as well
    | Arrive(arrival: Arrival)
    | Exit
    | Die
    | Wake(corr: nat)
    | Expire(corr: nat)
    | Collect(corr: nat)
    | Post(cid: string)
    | Dial(cid: string)
    | HangUp(cid: string)
    | Rouse(cid: string)
    | Lapse(cid: string)
    | Reap(cid: string)

  ghost predicate In(s: System, corr: nat, phase: Phase) {
    corr in s.calls && s.calls[corr].phase == phase
  }

  ghost predicate ToolIn(s: System, cid: string, phase: ToolPhase) {
    cid in s.invocations && s.invocations[cid].phase == phase
  }

  /** When each step can happen. A correlation id for a tool call is a new uuid: never used before. */
  ghost predicate Enabled(s: System, step: Step) {
    match step
    case Draw(_) => true
    case Register(corr) => In(s, corr, Drawn)
    case Send(corr, ok, drew) => In(s, corr, Registered) && (ok ==> drew)
    case Arrive(_) => s.reader == Running
    case Exit => s.reader == Running
    case Die => s.reader == Running
    case Wake(corr) => In(s, corr, Sent) && Lookup(s.bridge, corr).woken
    case Expire(corr) => In(s, corr, Sent) && !Lookup(s.bridge, corr).woken
    case Collect(corr) => In(s, corr, Woken) || In(s, corr, Expired)
    case Post(cid) => cid !in s.invocations
    case Dial(cid) => ToolIn(s, cid, Posted)
    case HangUp(cid) =>
      && cid in s.invocations && s.invocations[cid].phase.Signalling?
      && var corr := s.invocations[cid].phase.corr;
         corr in s.calls && (s.calls[corr].phase.Returned? || s.calls[corr].phase in {Unsent, Raised})
    case Rouse(cid) => ToolIn(s, cid, Waiting) && Lookup(s.tools, cid).woken
    case Lapse(cid) => ToolIn(s, cid, Waiting) && !Lookup(s.tools, cid).woken
    case Reap(cid) => ToolIn(s, cid, Roused) || ToolIn(s, cid, Lapsed)
  }

  ghost function Move(s: System, corr: nat, phase: Phase): System
    requires corr in s.calls
  {
    s.(calls := s.calls[corr := s.calls[corr].(phase := phase)])
  }

  ghost function MoveTool(s: System, cid: string, phase: ToolPhase): System
    requires cid in s.invocations
  {
    s.(invocations := s.invocations[cid := s.invocations[cid].(phase := phase)])
  }

  ghost function DrawId(s: System): System {
    s.(nextId := s.nextId + 1, drawn := s.drawn + [s.nextId])
  }

  ghost function NewCall(s: System, kind: Kind): System {
    DrawId(s).(calls := s.calls[s.nextId := Call(kind, Drawn, 0, false)])
  }

  ghost function Stored(e: Entry<Value>): Value {
    if e.answer.Some? then e.answer.value else None
  }

  /** A woken call takes its result; a timed-out one takes and drops it, save the handshake. */
  ghost function Collected(s: System, corr: nat): System
    requires corr in s.calls
  {
    var taken := s.(bridge := Take(s.bridge, corr));
    if s.calls[corr].phase == Woken then Move(taken, corr, Returned(Stored(Lookup(s.bridge, corr)), |s.log|))
    else if s.calls[corr].kind == HostCall then Move(taken, corr, Raised)
    else Move(s, corr, Raised)
  }

  /** `rejects` says of an acknowledgement that it is an object with `ok` false. */
  ghost function Apply(s: System, step: Step, rejects: Value -> bool): System
    requires Enabled(s, step)
  {
    match step
    case Draw(kind) => NewCall(s, kind)
    case Register(corr) =>
      s.(bridge := Matcher.Register(s.bridge, corr),
         calls := s.calls[corr := Call(s.calls[corr].kind, Registered, |s.log|, s.reader != Running)])
    case Send(corr, ok, drew) =>
      Move(if drew then DrawId(s) else s, corr, if ok then Sent else Unsent)
    case Arrive(a) =>
      (match a.key
       case Corr(corr) => s.(bridge := Complete(s.bridge, corr, a.value), log := s.log + [a])
       case Cid(cid) => s.(tools := Complete(s.tools, cid, a.value), log := s.log + [a]))
    case Exit => s.(reader := Exited, bridge := WakeAll(s.bridge, None))
    case Die => s.(reader := Died)
    case Wake(corr) => Move(s, corr, Woken)
    case Expire(corr) => Move(s, corr, Expired)
    case Collect(corr) => Collected(s, corr)
    case Post(cid) =>
      s.(tools := Matcher.Register(s.tools, cid),
         invocations := s.invocations[cid := Invocation(Posted, |s.log|, None)])
    case Dial(cid) =>
      var i := s.invocations[cid].(phase := Signalling(s.nextId), call := Some(s.nextId));
      NewCall(s, HostCall).(invocations := s.invocations[cid := i])
    case HangUp(cid) =>
      var call := s.calls[s.invocations[cid].phase.corr];
      MoveTool(s, cid, if !call.phase.Returned? then Unsignalled
                       else if rejects(call.phase.value) then Rejected else Waiting)
    case Rouse(cid) => MoveTool(s, cid, Roused)
    case Lapse(cid) => MoveTool(s, cid, Lapsed)
    case Reap(cid) =>
      MoveTool(s, cid, if s.invocations[cid].phase == Roused then Done(Stored(Lookup(s.tools, cid)), |s.log|)
                       else GaveUp).(tools := Take(s.tools, cid))
  }

  /** The state after any schedule of steps; a step that cannot happen is skipped. */
  ghost function Execute(steps: seq<Step>, rejects: Value -> bool): System {
    if steps == [] then INITIAL
    else
      var s, step := Execute(steps[..|steps| - 1], rejects), steps[|steps| - 1];
      if Enabled(s, step) then Apply(s, step, rejects) else s
  }

  // ---- what the tables must hold, told from the history alone ---------------

  /** The last value that arrived under `key` after the first `since` arrivals. */
  ghost function LastSince(log: seq<Arrival>, since: nat, key: Key): Option<Value> {
    if |log| <= since then None
    else if log[|log| - 1].key == key then Some(log[|log| - 1].value)
    else LastSince(log[..|log| - 1], since, key)
  }

  /** Still in the table. A call whose send failed and a timed-out handshake stay for good. */
  ghost predicate Holds(call: Call) {
    call.phase in {Registered, Sent, Unsent, Woken, Expired} || (call.phase == Raised && call.kind == Handshake)
  }

  ghost predicate ToolHolds(i: Invocation) {
    i.phase !in {GaveUp} && !i.phase.Done?
  }

  const ABSENT: Entry<Value> := Entry(false, false, None)

  ghost function CallAnswer(log: seq<Arrival>, reader: Thread, call: Call, corr: nat): Option<Value> {
    var last := LastSince(log, call.since, Corr(corr));
    if last.Some? then last else if reader == Exited && !call.late then Some(None) else None
  }

  ghost function CallEntry(s: System, corr: nat): Entry<Value> {
    if corr !in s.calls || !Holds(s.calls[corr]) then ABSENT
    else
      var answer := CallAnswer(s.log, s.reader, s.calls[corr], corr);
      Entry(true, answer.Some?, answer)
  }

  ghost function ToolEntry(s: System, cid: string): Entry<Value> {
    if cid !in s.invocations || !ToolHolds(s.invocations[cid]) then ABSENT
    else
      var answer := LastSince(s.log, s.invocations[cid].since, Cid(cid));
      Entry(true, answer.Some?, answer)
  }

  ghost predicate CallFits(s: System, corr: nat) {
    && Lookup(s.bridge, corr) == CallEntry(s, corr)
    && (corr in s.calls ==>
          var call := s.calls[corr];
          && corr < s.nextId && call.since <= |s.log| && (call.late ==> s.reader != Running)
          && (call.phase == Woken ==> CallEntry(s, corr).woken)
          && (call.phase.Returned? ==>
                && call.since <= call.phase.upto <= |s.log|
                && CallAnswer(s.log[..call.phase.upto], s.reader, call, corr) == Some(call.phase.value)))
  }

  ghost predicate ToolFits(s: System, cid: string) {
    && Lookup(s.tools, cid) == ToolEntry(s, cid)
    && (cid in s.invocations ==>
          var i := s.invocations[cid];
          && i.since <= |s.log|
          && (i.phase == Roused ==> ToolEntry(s, cid).woken)
          && (i.phase.Done? ==>
                && i.since <= i.phase.upto <= |s.log|
                && LastSince(s.log[..i.phase.upto], i.since, Cid(cid)) == Some(i.phase.value)))
  }

  ghost predicate Inv(s: System) {
    (forall corr :: CallFits(s, corr)) && (forall cid :: ToolFits(s, cid))
  }

  lemma LogGrows(log: seq<Arrival>, a: Arrival, since: nat, key: Key)
    requires since <= |log|
    ensures LastSince(log + [a], since, key) == if a.key == key then Some(a.value) else LastSince(log, since, key)
    ensures forall n: nat :: n <= |log| ==> (log + [a])[..n] == log[..n]
  {
    assert (log + [a])[..|log|] == log;
  }

  // ---- one step, seen from one call -----------------------------------------

  /** A step that leaves the call, its table entry, the log and the reader alone. */
  lemma FrameFits(s: System, s': System, corr: nat)
    requires CallFits(s, corr) && Lookup(s'.bridge, corr) == Lookup(s.bridge, corr)
    requires s'.log == s.log && s'.reader == s.reader && s'.nextId >= s.nextId
    requires corr in s.calls <==> corr in s'.calls
    requires corr in s.calls ==> s'.calls[corr] == s.calls[corr]
    ensures CallFits(s', corr)
  {
    assert CallEntry(s', corr) == CallEntry(s, corr);
  }

  lemma DrawFits(s: System, kind: Kind, corr: nat)
    requires CallFits(s, corr) && CallFits(s, s.nextId)
    ensures CallFits(NewCall(s, kind), corr)
  {
    if corr == s.nextId {
      assert CallEntry(s, corr) == ABSENT;
      assert CallEntry(NewCall(s, kind), corr) == ABSENT;
    } else {
      FrameFits(s, NewCall(s, kind), corr);
    }
  }

  lemma RegisterFits(s: System, c: nat, rejects: Value -> bool, corr: nat)
    requires CallFits(s, corr) && Enabled(s, Register(c))
    ensures CallFits(Apply(s, Register(c), rejects), corr)
  {
    LookupAfter(s.bridge, c, None, corr);
    var s' := Apply(s, Register(c), rejects);
    if corr == c {
      assert CallEntry(s, corr) == ABSENT;
      assert CallEntry(s', corr) == Entry(true, false, None);
    } else {
      FrameFits(s, s', corr);
    }
  }

  lemma MoveFits(s: System, c: nat, phase: Phase, corr: nat)
    requires CallFits(s, corr) && c in s.calls
    requires Holds(s.calls[c]) && Holds(s.calls[c].(phase := phase)) && !phase.Returned?
    requires phase == Woken ==> CallEntry(s, c).woken
    ensures CallFits(Move(s, c, phase), corr)
  {
    var s' := Move(s, c, phase);
    if corr == c {
      assert CallEntry(s', corr) == CallEntry(s, corr);
    } else {
      FrameFits(s, s', corr);
    }
  }

  lemma SendFits(s: System, c: nat, ok: bool, drew: bool, rejects: Value -> bool, corr: nat)
    requires CallFits(s, corr) && Enabled(s, Send(c, ok, drew))
    ensures CallFits(Apply(s, Send(c, ok, drew), rejects), corr)
  {
    var counted := if drew then DrawId(s) else s;
    FrameFits(s, counted, corr);
    MoveFits(counted, c, if ok then Sent else Unsent, corr);
  }

  lemma ArriveFits(s: System, a: Arrival, rejects: Value -> bool, corr: nat)
    requires CallFits(s, corr) && s.reader == Running
    ensures CallFits(Apply(s, Arrive(a), rejects), corr)
  {
    if corr in s.calls {
      LogGrows(s.log, a, s.calls[corr].since, Corr(corr));
    }
    if a.key.Corr? {
      LookupAfter(s.bridge, a.key.corr, a.value, corr);
    }
  }

  lemma ExitFits(s: System, rejects: Value -> bool, corr: nat)
    requires CallFits(s, corr) && s.reader == Running
    ensures CallFits(Apply(s, Exit, rejects), corr)
  {
    LookupAfter(s.bridge, corr, None, corr);
  }

  lemma DieFits(s: System, rejects: Value -> bool, corr: nat)
    requires CallFits(s, corr) && s.reader == Running
    ensures CallFits(Apply(s, Die, rejects), corr)
  {
    assert CallEntry(Apply(s, Die, rejects), corr) == CallEntry(s, corr);
  }

  lemma CollectKeepsOthers(s: System, c: nat, corr: nat)
    requires CallFits(s, corr) && (In(s, c, Woken) || In(s, c, Expired)) && c != corr
    ensures CallFits(Collected(s, c), corr)
  {
    LookupAfter(s.bridge, c, None, corr);
    FrameFits(s, Collected(s, c), corr);
  }

  lemma CollectOwn(s: System, corr: nat)
    requires CallFits(s, corr) && (In(s, corr, Woken) || In(s, corr, Expired))
    ensures CallFits(Collected(s, corr), corr)
  {
    LookupAfter(s.bridge, corr, None, corr);
    assert s.log[..|s.log|] == s.log;
    assert CallEntry(s, corr).waits;
    if s.calls[corr].phase == Woken {
      assert CallEntry(Collected(s, corr), corr) == ABSENT;
    } else if s.calls[corr].kind == HostCall {
      assert CallEntry(Collected(s, corr), corr) == ABSENT;
    } else {
      MoveFits(s, corr, Raised, corr);
    }
  }

  /** The steps of a call; a step of an invocation that is no step of a call leaves calls alone. */
  lemma CallStepFits(s: System, step: Step, rejects: Value -> bool, corr: nat)
    requires CallFits(s, corr) && CallFits(s, s.nextId) && Enabled(s, step)
    requires step.Wake? ==> CallFits(s, step.corr)
    ensures CallFits(Apply(s, step, rejects), corr)
  {
    match step {
      case Draw(kind) => DrawFits(s, kind, corr);
      case Register(c) => RegisterFits(s, c, rejects, corr);
      case Send(c, ok, drew) => SendFits(s, c, ok, drew, rejects, corr);
      case Arrive(a) => ArriveFits(s, a, rejects, corr);
      case Exit => ExitFits(s, rejects, corr);
      case Die => DieFits(s, rejects, corr);
      case Wake(c) => MoveFits(s, c, Woken, corr);
      case Expire(c) => MoveFits(s, c, Expired, corr);
      case Collect(c) =>
        if c == corr {
          CollectOwn(s, corr);
        } else {
          CollectKeepsOthers(s, c, corr);
        }
      case Dial(_) =>
        DrawFits(s, HostCall, corr);
        FrameFits(NewCall(s, HostCall), Apply(s, step, rejects), corr);
      case _ => FrameFits(s, Apply(s, step, rejects), corr);
    }
  }

  // ---- one step, seen from one invocation -----------------------------------

  lemma ToolFrameFits(s: System, s': System, cid: string)
    requires ToolFits(s, cid) && Lookup(s'.tools, cid) == Lookup(s.tools, cid) && s'.log == s.log
    requires cid in s.invocations <==> cid in s'.invocations
    requires cid in s.invocations ==> s'.invocations[cid] == s.invocations[cid]
    ensures ToolFits(s', cid)
  {
    assert ToolEntry(s', cid) == ToolEntry(s, cid);
  }

  /** An invocation that stays in the table changes phase. */
  lemma ToolMoveFits(s: System, c: string, phase: ToolPhase, cid: string)
    requires ToolFits(s, cid) && c in s.invocations
    requires ToolHolds(s.invocations[c]) && ToolHolds(s.invocations[c].(phase := phase))
    requires phase == Roused ==> ToolEntry(s, c).woken
    ensures ToolFits(MoveTool(s, c, phase), cid)
  {
    var s' := MoveTool(s, c, phase);
    if c == cid {
      assert ToolEntry(s', cid) == ToolEntry(s, cid);
    } else {
      ToolFrameFits(s, s', cid);
    }
  }

  lemma PostFits(s: System, c: string, rejects: Value -> bool, cid: string)
    requires ToolFits(s, cid) && Enabled(s, Post(c))
    ensures ToolFits(Apply(s, Post(c), rejects), cid)
  {
    LookupAfter(s.tools, c, None, cid);
    var s' := Apply(s, Post(c), rejects);
    if c == cid {
      assert ToolEntry(s, cid) == ABSENT;
      assert ToolEntry(s', cid) == Entry(true, false, None);
    } else {
      ToolFrameFits(s, s', cid);
    }
  }

  lemma DialFits(s: System, c: string, rejects: Value -> bool, cid: string)
    requires ToolFits(s, cid) && Enabled(s, Dial(c))
    ensures ToolFits(Apply(s, Dial(c), rejects), cid)
  {
    var s' := Apply(s, Dial(c), rejects);
    if c == cid {
      assert ToolEntry(s', cid) == ToolEntry(s, cid);
    } else {
      ToolFrameFits(s, s', cid);
    }
  }

  lemma ToolArriveFits(s: System, a: Arrival, rejects: Value -> bool, cid: string)
    requires ToolFits(s, cid) && s.reader == Running
    ensures ToolFits(Apply(s, Arrive(a), rejects), cid)
  {
    if cid in s.invocations {
      LogGrows(s.log, a, s.invocations[cid].since, Cid(cid));
    }
    if a.key.Cid? {
      LookupAfter(s.tools, a.key.cid, a.value, cid);
    }
  }

  lemma ReapFits(s: System, c: string, rejects: Value -> bool, cid: string)
    requires ToolFits(s, cid) && Enabled(s, Reap(c))
    ensures ToolFits(Apply(s, Reap(c), rejects), cid)
  {
    LookupAfter(s.tools, c, None, cid);
    var s' := Apply(s, Reap(c), rejects);
    if c == cid {
      assert s.log[..|s.log|] == s.log;
      assert ToolEntry(s, cid).waits && ToolEntry(s', cid) == ABSENT;
    } else {
      ToolFrameFits(s, s', cid);
    }
  }

  lemma ToolStepFits(s: System, step: Step, rejects: Value -> bool, cid: string)
    requires ToolFits(s, cid) && Enabled(s, step)
    requires step.Rouse? ==> ToolFits(s, step.cid)
    ensures ToolFits(Apply(s, step, rejects), cid)
  {
    match step {
      case Arrive(a) => ToolArriveFits(s, a, rejects, cid);
      case Post(c) => PostFits(s, c, rejects, cid);
      case Dial(c) => DialFits(s, c, rejects, cid);
      case HangUp(c) => ToolMoveFits(s, c, Apply(s, step, rejects).invocations[c].phase, cid);
      case Rouse(c) => ToolMoveFits(s, c, Roused, cid);
      case Lapse(c) => ToolMoveFits(s, c, Lapsed, cid);
      case Reap(c) => ReapFits(s, c, rejects, cid);
      case _ => ToolFrameFits(s, Apply(s, step, rejects), cid);
    }
  }

  /** Over every schedule, both tables hold exactly what the arrivals so far call for. */
  lemma {:induction false} TablesMirrorHistory(steps: seq<Step>, rejects: Value -> bool)
    ensures Inv(Execute(steps, rejects))
  {
    if steps != [] {
      var s, step := Execute(steps[..|steps| - 1], rejects), steps[|steps| - 1];
      TablesMirrorHistory(steps[..|steps| - 1], rejects);
      if Enabled(s, step) {
        StepKeepsInv(s, step, rejects);
      }
    }
  }

  lemma StepKeepsInv(s: System, step: Step, rejects: Value -> bool)
    requires Inv(s) && Enabled(s, step)
    ensures Inv(Apply(s, step, rejects))
  {
    forall corr
      ensures CallFits(Apply(s, step, rejects), corr)
    {
      assert CallFits(s, corr) && CallFits(s, s.nextId) && (step.Wake? ==> CallFits(s, step.corr));
      CallStepFits(s, step, rejects, corr);
    }
    forall cid
      ensures ToolFits(Apply(s, step, rejects), cid)
    {
      assert ToolFits(s, cid) && (step.Rouse? ==> ToolFits(s, step.cid));
      ToolStepFits(s, step, rejects, cid);
    }
  }

  // ---- what became of the host call -----------------------------------------

  /** The host call has come to an end. */
  predicate Over(phase: Phase) {
    phase.Returned? || phase == Unsent || phase == Raised
  }

  /** Where an invocation stands fits what became of the host call that signals its tool. */
  ghost predicate Told(s: System, cid: string, rejects: Value -> bool) {
    cid in s.invocations ==>
      var i := s.invocations[cid];
      match i.phase
      case Posted => i.call == None
      case Signalling(corr) => i.call == Some(corr) && corr in s.calls
      case Unsignalled => Called(s, i) && (CallPhase(s, i) == Unsent || CallPhase(s, i) == Raised)
      case Rejected => Called(s, i) && CallPhase(s, i).Returned? && rejects(CallPhase(s, i).value)
      case _ => Called(s, i) && CallPhase(s, i).Returned? && !rejects(CallPhase(s, i).value)
  }

  ghost predicate Called(s: System, i: Invocation) {
    i.call.Some? && i.call.value in s.calls
  }

  ghost function CallPhase(s: System, i: Invocation): Phase
    requires Called(s, i)
  {
    s.calls[i.call.value].phase
  }

  lemma CallsStay(s: System, step: Step, rejects: Value -> bool, corr: nat)
    requires Counted(s) && Enabled(s, step) && corr in s.calls
    ensures var s' := Apply(s, step, rejects);
            corr in s'.calls && (Over(s.calls[corr].phase) ==> s'.calls[corr].phase == s.calls[corr].phase)
  {
  }

  lemma HangUpTold(s: System, c: string, rejects: Value -> bool)
    requires Told(s, c, rejects) && Enabled(s, HangUp(c))
    ensures Told(Apply(s, HangUp(c), rejects), c, rejects)
  {
  }

  lemma StepTold(s: System, step: Step, rejects: Value -> bool, cid: string)
    requires Counted(s) && Told(s, cid, rejects) && Enabled(s, step)
    ensures Told(Apply(s, step, rejects), cid, rejects)
  {
    if cid in s.invocations && s.invocations[cid].call.Some? {
      CallsStay(s, step, rejects, s.invocations[cid].call.value);
    }
    if step == HangUp(cid) {
      HangUpTold(s, cid, rejects);
    }
  }

  lemma {:induction false} EveryoneIsTold(steps: seq<Step>, rejects: Value -> bool)
    ensures forall cid :: Told(Execute(steps, rejects), cid, rejects)
  {
    if steps != [] {
      var s, step := Execute(steps[..|steps| - 1], rejects), steps[|steps| - 1];
      EveryoneIsTold(steps[..|steps| - 1], rejects);
      IdsAreCounted(steps[..|steps| - 1], rejects);
      if Enabled(s, step) {
        forall cid
          ensures Told(Apply(s, step, rejects), cid, rejects)
        {
          StepTold(s, step, rejects, cid);
        }
      }
    }
  }

  /**
    Over every schedule: an invocation that has hung up goes on to its wait exactly when its host call
    returned something other than a rejection, is rejected exactly when it returned one, and is unsignalled
    exactly when the host call raised. And it can hang up as soon as the host call is over.
   */
  lemma WhoGetsToWait(steps: seq<Step>, rejects: Value -> bool, cid: string)
    requires var s := Execute(steps, rejects); cid in s.invocations && s.invocations[cid].phase != Posted
    ensures var s := Execute(steps, rejects);
            var i := s.invocations[cid];
            && i.call.Some? && i.call.value in s.calls
            && var phase := s.calls[i.call.value].phase;
               if i.phase.Signalling? then Over(phase) ==> Enabled(s, HangUp(cid))
               else
                 && (i.phase == Waiting || i.phase == Roused || i.phase == Lapsed || i.phase.Done? || i.phase == GaveUp
                     <==> phase.Returned? && !rejects(phase.value))
                 && (i.phase == Rejected <==> phase.Returned? && rejects(phase.value))
                 && (i.phase == Unsignalled <==> phase == Unsent || phase == Raised)
  {
    EveryoneIsTold(steps, rejects);
    assert Told(Execute(steps, rejects), cid, rejects);
  }

  // ---- what callers can rely on ---------------------------------------------

  /** A call returns the last reply that arrived under its own id between its registration and its
      return, or None when there was none and the reader's leaving its loop woke it. */
  lemma CallReturnsItsOwnAnswer(steps: seq<Step>, rejects: Value -> bool, corr: nat)
    requires var s := Execute(steps, rejects); corr in s.calls && s.calls[corr].phase.Returned?
    ensures var s := Execute(steps, rejects);
            var Call(_, Returned(value, upto), since, late) := s.calls[corr];
            && since <= upto <= |s.log|
            && var last := LastSince(s.log[..upto], since, Corr(corr));
               if last.Some? then value == last.value else value == None && s.reader == Exited && !late
  {
    TablesMirrorHistory(steps, rejects);
    assert CallFits(Execute(steps, rejects), corr);
  }

  /** The same for a tool invocation and the signals that carry its correlation id; its host call was
      acknowledged and not rejected. */
  lemma InvocationGetsItsOwnResult(steps: seq<Step>, rejects: Value -> bool, cid: string)
    requires var s := Execute(steps, rejects); cid in s.invocations && s.invocations[cid].phase.Done?
    ensures var s := Execute(steps, rejects);
            var Invocation(Done(value, upto), since, call) := s.invocations[cid];
            && since <= upto <= |s.log|
            && LastSince(s.log[..upto], since, Cid(cid)) == Some(value)
            && call.Some? && call.value in s.calls
            && s.calls[call.value].phase.Returned? && !rejects(s.calls[call.value].phase.value)
  {
    TablesMirrorHistory(steps, rejects);
    assert ToolFits(Execute(steps, rejects), cid);
    WhoGetsToWait(steps, rejects, cid);
  }

  lemma {:induction false} LastSinceArrived(log: seq<Arrival>, since: nat, key: Key)
    requires LastSince(log, since, key).Some?
    ensures exists i :: since <= i < |log| && log[i] == Arrival(key, LastSince(log, since, key).value)
  {
    if log[|log| - 1].key != key {
      LastSinceArrived(log[..|log| - 1], since, key);
    } else {
      assert log[|log| - 1] == Arrival(key, LastSince(log, since, key).value);
    }
  }

  /** Exactly which ids are still in the tables: those still working, calls whose send failed, timed-out
      handshakes, and invocations that gave up before the wait. */
  lemma WhoIsLeftBehind(steps: seq<Step>, rejects: Value -> bool)
    ensures var s := Execute(steps, rejects);
            && (forall corr :: corr in s.bridge.pending <==> corr in s.calls && Holds(s.calls[corr]))
            && (forall cid :: cid in s.tools.pending <==> cid in s.invocations && ToolHolds(s.invocations[cid]))
            && Coherent(s.bridge) && Coherent(s.tools)
  {
    TablesMirrorHistory(steps, rejects);
    var s := Execute(steps, rejects);
    forall corr
      ensures corr in s.bridge.pending <==> corr in s.calls && Holds(s.calls[corr])
      ensures corr in s.bridge.results <==> corr in s.bridge.pending && s.bridge.pending[corr]
    {
      assert CallFits(s, corr);
    }
    forall cid
      ensures cid in s.tools.pending <==> cid in s.invocations && ToolHolds(s.invocations[cid])
      ensures cid in s.tools.results <==> cid in s.tools.pending && s.tools.pending[cid]
    {
      assert ToolFits(s, cid);
    }
  }

  /** Once the reader no longer runs, a waiter without a reply sleeps on exactly when the reader was killed,
      or had left its loop before the waiter registered. */
  lemma WhoSleepsAfterExit(steps: seq<Step>, rejects: Value -> bool, corr: nat)
    requires var s := Execute(steps, rejects); s.reader != Running && In(s, corr, Sent)
    ensures var s := Execute(steps, rejects);
            !Lookup(s.bridge, corr).woken <==>
            (s.reader == Died || s.calls[corr].late) && LastSince(s.log, s.calls[corr].since, Corr(corr)).None?
  {
    TablesMirrorHistory(steps, rejects);
    assert CallFits(Execute(steps, rejects), corr);
  }

  /** A reply nobody waits for, such as one to a timed-out call, changes nothing but the log. */
  lemma StrayArrivalsChangeNothing(s: System, a: Arrival, rejects: Value -> bool)
    requires s.reader == Running
    requires a.key.Corr? ==> a.key.corr !in s.bridge.pending
    requires a.key.Cid? ==> a.key.cid !in s.tools.pending
    ensures Apply(s, Arrive(a), rejects) == s.(log := s.log + [a])
  {
  }

  // ---- no reply is lost -----------------------------------------------------

  lemma {:induction false} LastSinceWidens(log: seq<Arrival>, a: nat, b: nat, key: Key)
    requires a <= b
    ensures LastSince(log, b, key).Some? ==> LastSince(log, a, key) == LastSince(log, b, key)
  {
    if b < |log| && log[|log| - 1].key != key {
      LastSinceWidens(log[..|log| - 1], a, b, key);
    }
  }

  /** A reply to this call arrived at position `n` of the log, while the call waited or was about to send. */
  ghost predicate Answered(s: System, corr: nat, n: nat) {
    && corr in s.calls && s.calls[corr].since <= n < |s.log| && s.log[n].key == Corr(corr)
    && LastSince(s.log, n, Corr(corr)).Some?
    && s.calls[corr].phase !in {Drawn, Expired, Raised}
    && (s.calls[corr].phase.Returned? ==>
          n < s.calls[corr].phase.upto <= |s.log| &&
          LastSince(s.log[..s.calls[corr].phase.upto], n, Corr(corr)) == Some(s.calls[corr].phase.value))
  }

  lemma AnsweredIsWoken(s: System, corr: nat, n: nat)
    requires Inv(s) && Answered(s, corr, n) && Holds(s.calls[corr])
    ensures Lookup(s.bridge, corr) == Entry(true, true, LastSince(s.log, n, Corr(corr)))
  {
    assert CallFits(s, corr);
    LastSinceWidens(s.log, s.calls[corr].since, n, Corr(corr));
  }

  lemma CollectStaysAnswered(s: System, corr: nat, n: nat)
    requires Inv(s) && Answered(s, corr, n) && In(s, corr, Woken)
    ensures Answered(Collected(s, corr), corr, n)
  {
    AnsweredIsWoken(s, corr, n);
    assert s.log[..|s.log|] == s.log;
  }

  lemma ArriveStaysAnswered(s: System, a: Arrival, rejects: Value -> bool, corr: nat, n: nat)
    requires Answered(s, corr, n) && s.reader == Running
    ensures Answered(Apply(s, Arrive(a), rejects), corr, n)
  {
    LogGrows(s.log, a, n, Corr(corr));
  }

  /** A step that leaves the log alone and takes the call at most one phase on. */
  lemma PhaseStaysAnswered(s: System, s': System, corr: nat, n: nat)
    requires Answered(s, corr, n) && s'.log == s.log && corr in s'.calls
    requires s'.calls[corr] == s.calls[corr] ||
             (s'.calls[corr].since == s.calls[corr].since && s'.calls[corr].phase in {Sent, Unsent, Woken})
    ensures Answered(s', corr, n)
  {
  }

  lemma StepStaysAnswered(s: System, step: Step, rejects: Value -> bool, corr: nat, n: nat)
    requires Inv(s) && Answered(s, corr, n) && Enabled(s, step)
    ensures Answered(Apply(s, step, rejects), corr, n)
  {
    assert CallFits(s, corr);
    match step {
      case Arrive(a) => ArriveStaysAnswered(s, a, rejects, corr, n);
      case Collect(c) =>
        if c == corr {
          CollectStaysAnswered(s, corr, n);
        } else {
          PhaseStaysAnswered(s, Apply(s, step, rejects), corr, n);
        }
      case Expire(c) =>
        if c == corr {
          AnsweredIsWoken(s, corr, n);
        } else {
          PhaseStaysAnswered(s, Apply(s, step, rejects), corr, n);
        }
      case _ => PhaseStaysAnswered(s, Apply(s, step, rejects), corr, n);
    }
  }

  lemma ExecuteOneMore(steps: seq<Step>, step: Step, rejects: Value -> bool)
    ensures var s := Execute(steps, rejects);
            Execute(steps + [step], rejects) == if Enabled(s, step) then Apply(s, step, rejects) else s
  {
    assert (steps + [step])[..|steps|] == steps;
  }

  lemma {:induction false} StaysAnswered(before: seq<Step>, more: seq<Step>, rejects: Value -> bool, corr: nat, n: nat)
    requires Answered(Execute(before, rejects), corr, n)
    ensures Answered(Execute(before + more, rejects), corr, n)
  {
    if more == [] {
      assert before + more == before;
    } else {
      var front, step := more[..|more| - 1], more[|more| - 1];
      StaysAnswered(before, front, rejects, corr, n);
      TablesMirrorHistory(before + front, rejects);
      ExecuteOneMore(before + front, step, rejects);
      assert before + more == before + front + [step];
      if Enabled(Execute(before + front, rejects), step) {
        StepStaysAnswered(Execute(before + front, rejects), step, rejects, corr, n);
      }
    }
  }

  /**
    No reply is lost, because registering comes before sending. Once a reply has arrived for a registered
    call, even before its send returns, then whatever happens next the call never times out: while it waits
    it can wake and cannot expire, and what it returns is that reply or a newer one of its own.
   */
  lemma NoReplyIsLost(steps: seq<Step>, more: seq<Step>, rejects: Value -> bool, corr: nat, value: Value)
    requires var s := Execute(steps, rejects);
             s.reader == Running && (In(s, corr, Registered) || In(s, corr, Sent))
    ensures var n := |Execute(steps, rejects).log|;
            var t := Execute(steps + [Arrive(Arrival(Corr(corr), value))] + more, rejects);
            && corr in t.calls && t.calls[corr].phase !in {Expired, Raised}
            && (t.calls[corr].phase == Sent ==> Enabled(t, Wake(corr)) && !Enabled(t, Expire(corr)))
            && (t.calls[corr].phase.Returned? ==>
                  var Returned(v, upto) := t.calls[corr].phase;
                  n < upto <= |t.log| && LastSince(t.log[..upto], n, Corr(corr)) == Some(v))
  {
    var s, a := Execute(steps, rejects), Arrival(Corr(corr), value);
    var before := steps + [Arrive(a)];
    TablesMirrorHistory(steps, rejects);
    assert CallFits(s, corr);
    ExecuteOneMore(steps, Arrive(a), rejects);
    StaysAnswered(before, more, rejects, corr, |s.log|);
    TablesMirrorHistory(before + more, rejects);
    var t := Execute(before + more, rejects);
    if t.calls[corr].phase == Sent {
      AnsweredIsWoken(t, corr, |s.log|);
    }
  }

  /** The same for an invocation and a result signalled to it at position `n` of the log. */
  ghost predicate Signalled(s: System, cid: string, n: nat) {
    && cid in s.invocations && s.invocations[cid].since <= n < |s.log| && s.log[n].key == Cid(cid)
    && LastSince(s.log, n, Cid(cid)).Some?
    && s.invocations[cid].phase !in {Lapsed, GaveUp}
    && (s.invocations[cid].phase.Done? ==>
          n < s.invocations[cid].phase.upto <= |s.log| &&
          LastSince(s.log[..s.invocations[cid].phase.upto], n, Cid(cid)) == Some(s.invocations[cid].phase.value))
  }

  lemma SignalledIsWoken(s: System, cid: string, n: nat)
    requires Inv(s) && Signalled(s, cid, n) && ToolHolds(s.invocations[cid])
    ensures Lookup(s.tools, cid) == Entry(true, true, LastSince(s.log, n, Cid(cid)))
  {
    assert ToolFits(s, cid);
    LastSinceWidens(s.log, s.invocations[cid].since, n, Cid(cid));
  }

  lemma ReapStaysSignalled(s: System, rejects: Value -> bool, cid: string, n: nat)
    requires Inv(s) && Signalled(s, cid, n) && Enabled(s, Reap(cid))
    ensures Signalled(Apply(s, Reap(cid), rejects), cid, n)
  {
    SignalledIsWoken(s, cid, n);
    assert s.log[..|s.log|] == s.log;
  }

  lemma ArriveStaysSignalled(s: System, a: Arrival, rejects: Value -> bool, cid: string, n: nat)
    requires Signalled(s, cid, n) && s.reader == Running
    ensures Signalled(Apply(s, Arrive(a), rejects), cid, n)
  {
    LogGrows(s.log, a, n, Cid(cid));
  }

  lemma ToolPhaseStaysSignalled(s: System, s': System, cid: string, n: nat)
    requires Signalled(s, cid, n) && s'.log == s.log && cid in s'.invocations
    requires s'.invocations[cid] == s.invocations[cid] ||
             (s'.invocations[cid].since == s.invocations[cid].since &&
              s'.invocations[cid].phase !in {Lapsed, GaveUp} && !s'.invocations[cid].phase.Done?)
    ensures Signalled(s', cid, n)
  {
  }

  lemma StepStaysSignalled(s: System, step: Step, rejects: Value -> bool, cid: string, n: nat)
    requires Inv(s) && Signalled(s, cid, n) && Enabled(s, step)
    ensures Signalled(Apply(s, step, rejects), cid, n)
  {
    match step {
      case Arrive(a) => ArriveStaysSignalled(s, a, rejects, cid, n);
      case Reap(c) =>
        if c == cid {
          ReapStaysSignalled(s, rejects, cid, n);
        } else {
          ToolPhaseStaysSignalled(s, Apply(s, step, rejects), cid, n);
        }
      case Lapse(c) =>
        if c == cid {
          SignalledIsWoken(s, cid, n);
        } else {
          ToolPhaseStaysSignalled(s, Apply(s, step, rejects), cid, n);
        }
      case _ => ToolPhaseStaysSignalled(s, Apply(s, step, rejects), cid, n);
    }
  }

  lemma {:induction false} StaysSignalled(before: seq<Step>, more: seq<Step>, rejects: Value -> bool, cid: string,
                                          n: nat)
    requires Signalled(Execute(before, rejects), cid, n)
    ensures Signalled(Execute(before + more, rejects), cid, n)
  {
    if more == [] {
      assert before + more == before;
    } else {
      var front, step := more[..|more| - 1], more[|more| - 1];
      StaysSignalled(before, front, rejects, cid, n);
      TablesMirrorHistory(before + front, rejects);
      ExecuteOneMore(before + front, step, rejects);
      assert before + more == before + front + [step];
      if Enabled(Execute(before + front, rejects), step) {
        StepStaysSignalled(Execute(before + front, rejects), step, rejects, cid, n);
      }
    }
  }

  /**
    No result is lost either, because the waiter is posted before the tool is signalled. Once a result has
    been signalled to an invocation between its `Post` and its wait, even before the host call returns, it
    never times out, and what it returns is that result or a newer one of its own. It is given up only if the
    host call raised or was rejected.
   */
  lemma NoResultIsLost(steps: seq<Step>, more: seq<Step>, rejects: Value -> bool, cid: string, value: Value)
    requires var s := Execute(steps, rejects);
             s.reader == Running && cid in s.invocations &&
             (s.invocations[cid].phase in {Posted, Waiting} || s.invocations[cid].phase.Signalling?)
    ensures var n := |Execute(steps, rejects).log|;
            var t := Execute(steps + [Arrive(Arrival(Cid(cid), value))] + more, rejects);
            && cid in t.invocations && t.invocations[cid].phase !in {Lapsed, GaveUp}
            && (t.invocations[cid].phase == Waiting ==> Enabled(t, Rouse(cid)) && !Enabled(t, Lapse(cid)))
            && (t.invocations[cid].phase.Done? ==>
                  var Done(v, upto) := t.invocations[cid].phase;
                  n < upto <= |t.log| && LastSince(t.log[..upto], n, Cid(cid)) == Some(v))
            && (t.invocations[cid].phase == Rejected || t.invocations[cid].phase == Unsignalled ==>
                  var call := t.invocations[cid].call;
                  call.Some? && call.value in t.calls &&
                  (t.calls[call.value].phase.Returned? ==> rejects(t.calls[call.value].phase.value)))
  {
    var s, a := Execute(steps, rejects), Arrival(Cid(cid), value);
    var before := steps + [Arrive(a)];
    TablesMirrorHistory(steps, rejects);
    assert ToolFits(s, cid);
    ExecuteOneMore(steps, Arrive(a), rejects);
    StaysSignalled(before, more, rejects, cid, |s.log|);
    TablesMirrorHistory(before + more, rejects);
    EveryoneIsTold(before + more, rejects);
    assert Told(Execute(before + more, rejects), cid, rejects);
    var t := Execute(before + more, rejects);
    if t.invocations[cid].phase == Waiting {
      SignalledIsWoken(t, cid, |s.log|);
    }
  }

  // ---- ids ------------------------------------------------------------------

  /** The counter gave out one, two, three and so on. */
  ghost predicate Counted(s: System) {
    && s.nextId == |s.drawn| + 1 && (forall i :: 0 <= i < |s.drawn| ==> s.drawn[i] == i + 1)
    && forall corr :: corr in s.calls ==> 1 <= corr < s.nextId
  }

  lemma {:induction false} IdsAreCounted(steps: seq<Step>, rejects: Value -> bool)
    ensures Counted(Execute(steps, rejects))
  {
    if steps != [] {
      IdsAreCounted(steps[..|steps| - 1], rejects);
    }
  }

  /** Ids are never reused: no id was given out twice, be it to a call or to a message, every call has one
      that was given out, and the next one is new. */
  lemma IdsAreFresh(steps: seq<Step>, rejects: Value -> bool)
    ensures var s := Execute(steps, rejects);
            && NoDup(s.drawn) && s.nextId !in s.drawn
            && forall corr :: corr in s.calls ==> corr in s.drawn
  {
    IdsAreCounted(steps, rejects);
    var s := Execute(steps, rejects);
    forall corr | corr in s.calls
      ensures corr in s.drawn
    {
      assert s.drawn[corr - 1] == corr;
    }
  }

  // ---- who is left behind, at concrete schedules ----------------------------

  lemma LateCallRegisters(rejects: Value -> bool)
    ensures var s := Execute([Exit, Draw(HostCall), Register(1)], rejects);
            In(s, 1, Registered) && s.reader == Exited && s.calls[1].late && !Lookup(s.bridge, 1).woken
  {
    var p1, p2 := [Exit], [Exit, Draw(HostCall)];
    assert [] + [Exit] == p1 && p1 + [Draw(HostCall)] == p2;
    ExecuteOneMore([], Exit, rejects);
    ExecuteOneMore(p1, Draw(HostCall), rejects);
    ExecuteOneMore(p2, Register(1), rejects);
    assert p2 + [Register(1)] == [Exit, Draw(HostCall), Register(1)];
  }

  /** A call that comes after the reader has left its loop is sent, and sleeps on. */
  lemma LateCallSleeps(rejects: Value -> bool)
    ensures var s := Execute([Exit, Draw(HostCall), Register(1), Send(1, true, true)], rejects);
            In(s, 1, Sent) && s.reader == Exited && s.calls[1].late && !Lookup(s.bridge, 1).woken
  {
    var p3 := [Exit, Draw(HostCall), Register(1)];
    LateCallRegisters(rejects);
    ExecuteOneMore(p3, Send(1, true, true), rejects);
    assert p3 + [Send(1, true, true)] == [Exit, Draw(HostCall), Register(1), Send(1, true, true)];
  }

  /** A handshake that has been sent. */
  lemma HandshakeIsSent(rejects: Value -> bool)
    ensures var s := Execute([Draw(Handshake), Register(1), Send(1, true, true)], rejects);
            In(s, 1, Sent) && s.calls[1].kind == Handshake && Lookup(s.bridge, 1) == Entry(true, false, None)
  {
    var p1, p2 := [Draw(Handshake)], [Draw(Handshake), Register(1)];
    assert [] + [Draw(Handshake)] == p1 && p1 + [Register(1)] == p2;
    ExecuteOneMore([], Draw(Handshake), rejects);
    ExecuteOneMore(p1, Register(1), rejects);
    ExecuteOneMore(p2, Send(1, true, true), rejects);
    assert p2 + [Send(1, true, true)] == [Draw(Handshake), Register(1), Send(1, true, true)];
  }

  /** A handshake that times out leaves its entry behind. */
  lemma TimedOutHandshakeStays(rejects: Value -> bool)
    ensures var s := Execute([Draw(Handshake), Register(1), Send(1, true, true), Expire(1), Collect(1)], rejects);
            In(s, 1, Raised) && 1 in s.bridge.pending
  {
    var p3 := [Draw(Handshake), Register(1), Send(1, true, true)];
    var p4 := [Draw(Handshake), Register(1), Send(1, true, true), Expire(1)];
    HandshakeIsSent(rejects);
    ExecuteOneMore(p3, Expire(1), rejects);
    assert p3 + [Expire(1)] == p4;
    ExecuteOneMore(p4, Collect(1), rejects);
    assert p4 + [Collect(1)] == [Draw(Handshake), Register(1), Send(1, true, true), Expire(1), Collect(1)];
  }

  lemma InvocationDials(rejects: Value -> bool)
    ensures var s := Execute([Post("a"), Dial("a"), Register(1)], rejects);
            && ToolIn(s, "a", Signalling(1)) && In(s, 1, Registered) && "a" in s.tools.pending && 1 in s.bridge.pending
            && s.reader == Running && s.log == []
  {
    var p1, p2 := [Post("a")], [Post("a"), Dial("a")];
    assert [] + [Post("a")] == p1 && p1 + [Dial("a")] == p2;
    ExecuteOneMore([], Post("a"), rejects);
    ExecuteOneMore(p1, Dial("a"), rejects);
    ExecuteOneMore(p2, Register(1), rejects);
    assert p2 + [Register(1)] == [Post("a"), Dial("a"), Register(1)];
  }

  /** An invocation whose signal cannot be sent leaves its waiter behind, and so does its host call. */
  lemma UnsignalledInvocationStays(rejects: Value -> bool)
    ensures var s := Execute([Post("a"), Dial("a"), Register(1), Send(1, false, false), HangUp("a")], rejects);
            ToolIn(s, "a", Unsignalled) && "a" in s.tools.pending && In(s, 1, Unsent) && 1 in s.bridge.pending
  {
    var p3 := [Post("a"), Dial("a"), Register(1)];
    var p4 := [Post("a"), Dial("a"), Register(1), Send(1, false, false)];
    InvocationDials(rejects);
    ExecuteOneMore(p3, Send(1, false, false), rejects);
    assert p3 + [Send(1, false, false)] == p4;
    ExecuteOneMore(p4, HangUp("a"), rejects);
    assert p4 + [HangUp("a")] == [Post("a"), Dial("a"), Register(1), Send(1, false, false), HangUp("a")];
  }

  lemma CallIsRegistered(rejects: Value -> bool)
    ensures var s := Execute([Draw(HostCall), Register(1)], rejects);
            s.reader == Running && In(s, 1, Registered) && s.log == [] && s.drawn == [1] && s.nextId == 2
  {
    var p1 := [Draw(HostCall)];
    assert [] + [Draw(HostCall)] == p1 && p1 + [Register(1)] == [Draw(HostCall), Register(1)];
    ExecuteOneMore([], Draw(HostCall), rejects);
    ExecuteOneMore(p1, Register(1), rejects);
  }

  lemma CallIsSent(rejects: Value -> bool)
    ensures var s := Execute([Draw(HostCall), Register(1), Send(1, true, true)], rejects);
            s.reader == Running && In(s, 1, Sent) && s.log == [] && s.drawn == [1, 2]
  {
    var p2 := [Draw(HostCall), Register(1)];
    CallIsRegistered(rejects);
    assert p2 + [Send(1, true, true)] == [Draw(HostCall), Register(1), Send(1, true, true)];
    ExecuteOneMore(p2, Send(1, true, true), rejects);
  }

  /** A host call that is sent and answered. */
  lemma CallIsAnswered(rejects: Value -> bool, v: Value)
    ensures var s := Execute([Draw(HostCall), Register(1), Send(1, true, true), Arrive(Arrival(Corr(1), v)), Wake(1),
                              Collect(1)], rejects);
            In(s, 1, Returned(v, 1)) && 1 !in s.bridge.pending && s.drawn == [1, 2]
  {
    var p3 := [Draw(HostCall), Register(1), Send(1, true, true)];
    CallIsSent(rejects);
    SentIsAnswered(p3, rejects, 1, v);
    assert p3 + Answering(1, v) == [Draw(HostCall), Register(1), Send(1, true, true), Arrive(Arrival(Corr(1), v)),
                                    Wake(1), Collect(1)];
  }

  function Answering(corr: nat, v: Value): seq<Step> {
    [Arrive(Arrival(Corr(corr), v)), Wake(corr), Collect(corr)]
  }

  /** Whatever came before, a sent call whose reply comes while it waits takes it. */
  lemma SentIsAnswered(steps: seq<Step>, rejects: Value -> bool, corr: nat, v: Value)
    requires var s := Execute(steps, rejects); s.reader == Running && In(s, corr, Sent)
    ensures var (s, t) := (Execute(steps, rejects), Execute(steps + Answering(corr, v), rejects));
            && In(t, corr, Returned(v, |s.log| + 1)) && corr !in t.bridge.pending
            && t.reader == s.reader && t.drawn == s.drawn && t.tools == s.tools && t.invocations == s.invocations
            && t.log == s.log + [Arrival(Corr(corr), v)]
  {
    var a := Arrive(Arrival(Corr(corr), v));
    TablesMirrorHistory(steps, rejects);
    assert CallFits(Execute(steps, rejects), corr);
    ExecuteOneMore(steps, a, rejects);
    ExecuteOneMore(steps + [a], Wake(corr), rejects);
    ExecuteOneMore(steps + [a] + [Wake(corr)], Collect(corr), rejects);
    assert steps + Answering(corr, v) == steps + [a] + [Wake(corr)] + [Collect(corr)];
  }

  function Delivering(cid: string, v: Value): seq<Step> {
    [HangUp(cid), Arrive(Arrival(Cid(cid), v)), Rouse(cid), Reap(cid)]
  }

  /** Whatever came before, an invocation whose host call returned no rejection hangs up and waits. */
  lemma AcknowledgedWaits(steps: seq<Step>, rejects: Value -> bool, cid: string, corr: nat, v: Value)
    requires var s := Execute(steps, rejects);
             && s.reader == Running && ToolIn(s, cid, Signalling(corr)) && corr in s.calls
             && s.calls[corr].phase.Returned? && !rejects(s.calls[corr].phase.value)
    ensures var (s, t) := (Execute(steps, rejects),
                           Execute(steps + [HangUp(cid)] + [Arrive(Arrival(Cid(cid), v))], rejects));
            ToolIn(t, cid, Waiting) && |t.log| == |s.log| + 1 && Lookup(t.tools, cid) == Entry(true, true, Some(v))
  {
    TablesMirrorHistory(steps, rejects);
    assert ToolFits(Execute(steps, rejects), cid);
    ExecuteOneMore(steps, HangUp(cid), rejects);
    ExecuteOneMore(steps + [HangUp(cid)], Arrive(Arrival(Cid(cid), v)), rejects);
  }

  lemma WaitingRouses(s: System, rejects: Value -> bool, cid: string)
    requires ToolIn(s, cid, Waiting) && Lookup(s.tools, cid).woken
    ensures Enabled(s, Rouse(cid))
    ensures var t := Apply(s, Rouse(cid), rejects); ToolIn(t, cid, Roused) && t.tools == s.tools && t.log == s.log
  {
  }

  lemma RousedReaps(s: System, rejects: Value -> bool, cid: string, v: Value)
    requires ToolIn(s, cid, Roused) && Lookup(s.tools, cid) == Entry(true, true, Some(v))
    ensures Enabled(s, Reap(cid))
    ensures var t := Apply(s, Reap(cid), rejects); ToolIn(t, cid, Done(v, |s.log|)) && cid !in t.tools.pending
  {
  }

  lemma WokenReaps(steps: seq<Step>, rejects: Value -> bool, cid: string, v: Value)
    requires var s := Execute(steps, rejects);
             ToolIn(s, cid, Waiting) && Lookup(s.tools, cid) == Entry(true, true, Some(v))
    ensures var (s, t) := (Execute(steps, rejects), Execute(steps + [Rouse(cid)] + [Reap(cid)], rejects));
            ToolIn(t, cid, Done(v, |s.log|)) && cid !in t.tools.pending
  {
    var s := Execute(steps, rejects);
    WaitingRouses(s, rejects, cid);
    ExecuteOneMore(steps, Rouse(cid), rejects);
    RousedReaps(Apply(s, Rouse(cid), rejects), rejects, cid, v);
    ExecuteOneMore(steps + [Rouse(cid)], Reap(cid), rejects);
  }

  /** And then takes the result that comes while it waits. */
  lemma AcknowledgedIsDelivered(steps: seq<Step>, rejects: Value -> bool, cid: string, corr: nat, v: Value)
    requires var s := Execute(steps, rejects);
             && s.reader == Running && ToolIn(s, cid, Signalling(corr)) && corr in s.calls
             && s.calls[corr].phase.Returned? && !rejects(s.calls[corr].phase.value)
    ensures var (s, t) := (Execute(steps, rejects), Execute(steps + Delivering(cid, v), rejects));
            ToolIn(t, cid, Done(v, |s.log| + 1)) && cid !in t.tools.pending
  {
    var mid := steps + [HangUp(cid)] + [Arrive(Arrival(Cid(cid), v))];
    AcknowledgedWaits(steps, rejects, cid, corr, v);
    WokenReaps(mid, rejects, cid, v);
    assert steps + Delivering(cid, v) == mid + [Rouse(cid)] + [Reap(cid)];
  }

  lemma InvocationSignals(rejects: Value -> bool)
    ensures var s := Execute([Post("a"), Dial("a"), Register(1), Send(1, true, true)], rejects);
            s.reader == Running && ToolIn(s, "a", Signalling(1)) && In(s, 1, Sent) && s.log == []
  {
    var p3 := [Post("a"), Dial("a"), Register(1)];
    InvocationDials(rejects);
    assert p3 + [Send(1, true, true)] == [Post("a"), Dial("a"), Register(1), Send(1, true, true)];
    ExecuteOneMore(p3, Send(1, true, true), rejects);
  }

  /** An invocation from start to end. */
  lemma InvocationIsDelivered(rejects: Value -> bool, ack: Value, v: Value)
    requires !rejects(ack)
    ensures var s := Execute([Post("a"), Dial("a"), Register(1), Send(1, true, true), Arrive(Arrival(Corr(1), ack)),
                              Wake(1), Collect(1), HangUp("a"), Arrive(Arrival(Cid("a"), v)), Rouse("a"), Reap("a")],
                             rejects);
            ToolIn(s, "a", Done(v, 2)) && "a" !in s.tools.pending
  {
    var p4 := [Post("a"), Dial("a"), Register(1), Send(1, true, true)];
    InvocationSignals(rejects);
    SentIsAnswered(p4, rejects, 1, ack);
    AcknowledgedIsDelivered(p4 + Answering(1, ack), rejects, "a", 1, v);
    assert p4 + Answering(1, ack) + Delivering("a", v) ==
           [Post("a"), Dial("a"), Register(1), Send(1, true, true), Arrive(Arrival(Corr(1), ack)), Wake(1),
            Collect(1), HangUp("a"), Arrive(Arrival(Cid("a"), v)), Rouse("a"), Reap("a")];
  }

  /** Whatever came before, a sent host call that times out raises and leaves nothing in the table. */
  lemma SentMayTimeOut(steps: seq<Step>, rejects: Value -> bool, corr: nat)
    requires var s := Execute(steps, rejects);
             In(s, corr, Sent) && s.calls[corr].kind == HostCall && !Lookup(s.bridge, corr).woken
    ensures var t := Execute(steps + [Expire(corr), Collect(corr)], rejects);
            In(t, corr, Raised) && corr !in t.bridge.pending && corr !in t.bridge.results
  {
    ExecuteOneMore(steps, Expire(corr), rejects);
    ExecuteOneMore(steps + [Expire(corr)], Collect(corr), rejects);
    assert steps + [Expire(corr), Collect(corr)] == steps + [Expire(corr)] + [Collect(corr)];
  }

  /** So does an invocation that waits in vain: it gives up, and leaves nothing in the tables. */
  lemma WaitingMayGiveUp(steps: seq<Step>, rejects: Value -> bool, cid: string)
    requires var s := Execute(steps, rejects); ToolIn(s, cid, Waiting) && !Lookup(s.tools, cid).woken
    ensures var t := Execute(steps + [Lapse(cid)] + [Reap(cid)], rejects);
            ToolIn(t, cid, GaveUp) && cid !in t.tools.pending && cid !in t.tools.results
  {
    ExecuteOneMore(steps, Lapse(cid), rejects);
    ExecuteOneMore(steps + [Lapse(cid)], Reap(cid), rejects);
  }

  /** Whatever came before, a reader that is killed wakes nobody, and one that leaves its loop wakes every
      waiter and takes away no answer. */
  lemma ReaderMayGo(steps: seq<Step>, rejects: Value -> bool, corr: nat)
    requires Execute(steps, rejects).reader == Running
    ensures var (s, dead, gone) :=
              (Execute(steps, rejects), Execute(steps + [Die], rejects), Execute(steps + [Exit], rejects));
            && dead.reader == Died && Lookup(dead.bridge, corr) == Lookup(s.bridge, corr)
            && gone.reader == Exited && Lookup(gone.bridge, corr).woken == Lookup(s.bridge, corr).waits
            && (Lookup(s.bridge, corr).answer.Some? ==>
                  Lookup(gone.bridge, corr).answer == Lookup(s.bridge, corr).answer)
  {
    ExecuteOneMore(steps, Die, rejects);
    ExecuteOneMore(steps, Exit, rejects);
    LookupAfter(Execute(steps, rejects).bridge, corr, None, corr);
  }
}
