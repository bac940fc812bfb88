/** `SessionMemory` as it changes its ordered dictionary in place. */
module SessionStore {
  import opened Common
  import opened Sessions
  import opened TextTools

  class SessionMemory {
    const maxMessages: int
    const maxSessions: nat
    var order: seq<Id>
    var msgs: map<Id, seq<Turn>>

    constructor (maxMessages: int, maxSessions: nat)
      ensures this.maxMessages == maxMessages && this.maxSessions == maxSessions && State() == NOTHING
    {
      this.maxMessages, this.maxSessions := maxMessages, maxSessions;
      order, msgs := [], map[];
    }

    ghost function State(): Store
      reads this
    {
      Store(order, msgs)
    }

    /** `_sessions.pop(id, None)`. */
    method Pop(id: Id) returns (was: Option<seq<Turn>>)
      requires Valid(State())
      modifies this
      ensures State() == Forget(old(State()), id) && Valid(State())
      ensures was == if id in old(msgs) then Some(old(msgs)[id]) else None
    {
      ForgetStaysValid(State(), id);
      was := if id in msgs then Some(msgs[id]) else None;
      order := Drop(order, id);
      msgs := msgs - {id};
    }

    /** `popitem(last=False)` while there are too many. */
    method EvictOldest()
      requires Valid(State())
      modifies this
      ensures State() == Evict(old(State()), maxSessions)
    {
      ghost var start := State();
      ghost var d := 0;
      assert start.msgs == Entries(start.msgs, start.order);
      while |order| > maxSessions
        invariant d <= |start.order| && order == start.order[d..] && (|order| >= maxSessions || d == 0)
        invariant msgs == Entries(start.msgs, order)
      {
        Oldest(start, d);
        d := d + 1;
        msgs := msgs - {order[0]};
        order := order[1..];
      }
    }

    /** Stores these messages at the young end, and evicts. */
    method Insert(id: Id, turns: seq<Turn>)
      requires Valid(State())
      modifies this
      ensures State() == Put(old(State()), id, turns, maxSessions)
    {
      ghost var start := State();
      var _ := Pop(id);
      ForgetStaysValid(start, id);
      order := order + [id];
      msgs := msgs[id := turns];
      EvictOldest();
    }

    method Append(id: Id, role: string, content: string, agentName: string)
      requires Valid(State())
      modifies this
      ensures State() == Apply(old(State()), Op.Append(id, role, content, agentName), maxSessions, maxMessages)
      ensures Blank(content) ==> State() == old(State())
      ensures !Blank(content) && maxSessions >= 1 && maxMessages >= 1 ==>
                Extended(Messages(old(State()), id), Messages(State(), id), role, content, agentName, maxMessages)
    {
      AppendMeans(State(), id, role, content, agentName, maxSessions, maxMessages);
      var text := Strip(content);
      if text == "" {
        return;
      }
      ghost var op := Op.Append(id, role, content, agentName);
      var turns := if id in msgs then msgs[id] else [];
      var turn := Turn(role, text, if agentName == "" then None else Some(agentName));
      ExtendedStore(State(), op, turns, Bound(turns + [turn], maxMessages), maxSessions, maxMessages);
      Insert(id, turns);  // `_touch`
      Extend(id, turn, turns);
    }

    /** The rest of `append`: extends the list that `_touch` returned, which the dictionary may still hold. */
    method Extend(id: Id, turn: Turn, turns: seq<Turn>)
      modifies `msgs
      ensures State() == Overwritten(old(State()), id, Bound(turns + [turn], maxMessages))
    {
      var longer := Trim(turns + [turn]);
      msgs := if id in msgs then msgs[id := longer] else msgs;
    }

    /** Deletes from the front while there are more than `max_messages`. */
    method Trim(turns: seq<Turn>) returns (kept: seq<Turn>)
      ensures kept == Bound(turns, maxMessages)
    {
      kept := turns;
      if |kept| > maxMessages {
        kept := kept[|kept| - (if maxMessages < 0 then 0 else maxMessages)..];
      }
    }

    /** `at` lists the positions of the given turns that have any text. */
    method Replace(id: Id, history: seq<Turn>) returns (ghost at: seq<nat>)
      requires Valid(State())
      modifies this
      ensures State() == Apply(old(State()), Op.Replace(id, history), maxSessions, maxMessages)
      ensures maxSessions >= 1 && maxMessages >= 1 ==>
                PicksText(history, at) && Picked(history, LastN(at, maxMessages), Messages(State(), id))
    {
      at := [];
      if maxSessions >= 1 && maxMessages >= 1 {
        at := ReplaceMeans(State(), id, history, maxSessions, maxMessages);
      }
      var cleaned := Clean(history);
      Insert(id, SliceFromEnd(cleaned, maxMessages));
    }

    method MessagesOf(id: Id) returns (turns: seq<Turn>)
      ensures turns == Messages(State(), id)
    {
      turns := if id in msgs then msgs[id] else [];
    }

    method Clear(id: Id)
      requires Valid(State())
      modifies this
      ensures State() == Apply(old(State()), Op.Clear(id), maxSessions, maxMessages)
    {
      var _ := Pop(id);
    }
  }

  /** The loop of `replace` over the given history. */
  method Clean(history: seq<Turn>) returns (cleaned: seq<Turn>)
    ensures cleaned == Cleaned(history)
  {
    cleaned := [];
    for i := 0 to |history|
      invariant cleaned == Cleaned(history[..i])
    {
      CleanedGrows(history, i);
      if Strip(history[i].content) != "" {
        cleaned := cleaned + [history[i]];
      }
    }
    assert history[..|history|] == history;
  }

  lemma CleanedGrows(history: seq<Turn>, i: nat)
    requires i < |history|
    ensures Cleaned(history[..i + 1]) ==
            if Strip(history[i].content) != "" then Cleaned(history[..i]) + [history[i]] else Cleaned(history[..i])
  {
    var (front, last) := (history[..i], history[i]);
    assert history[..i + 1] == front + [last];
    CleanedSnoc(front, last);
  }

  lemma AppendIsPut(s: Store, op: Op, cap: nat, maxMessages: int)
    requires op.Append? && Strip(op.content) != ""
    ensures Apply(s, op, cap, maxMessages) ==
            Put(s, op.id, Bound(Messages(s, op.id) + [TurnOf(op)], maxMessages), cap)
  {
  }

  lemma ExtendedStore(start: Store, op: Op, turns: seq<Turn>, longer: seq<Turn>, cap: nat, maxMessages: int)
    requires op.Append? && Strip(op.content) != "" && turns == Messages(start, op.id)
    requires longer == Bound(turns + [TurnOf(op)], maxMessages)
    ensures Apply(start, op, cap, maxMessages) == Overwritten(Put(start, op.id, turns, cap), op.id, longer)
  {
    PutOverwrites(start, op.id, turns, longer, cap);
    AppendIsPut(start, op, cap, maxMessages);
  }

  /** Putting other messages in the same place changes that entry only, if the store still has it. */
  lemma PutOverwrites(s: Store, id: Id, before: seq<Turn>, after: seq<Turn>, cap: nat)
    ensures Put(s, id, after, cap) == Overwritten(Put(s, id, before, cap), id, after)
  {
    PutIs(s, id, before, cap);
    PutIs(s, id, after, cap);
    OverwriteEntries(Refreshed(s.order, id, cap), s.msgs - {id}, id, before, after);
  }

  lemma OverwriteEntries(order: seq<Id>, rest: map<Id, seq<Turn>>, id: Id, before: seq<Turn>, after: seq<Turn>)
    ensures Store(order, Entries(rest[id := after], order)) ==
            Overwritten(Store(order, Entries(rest[id := before], order)), id, after)
  {
    EntriesOverwrite(rest[id := before], order, id, after);
    assert rest[id := before][id := after] == rest[id := after];
  }

  function Overwritten(s: Store, id: Id, msgs: seq<Turn>): Store {
    s.(msgs := if id in s.msgs then s.msgs[id := msgs] else s.msgs)
  }

  lemma EntriesOverwrite(m: map<Id, seq<Turn>>, order: seq<Id>, id: Id, after: seq<Turn>)
    requires id in m
    ensures Entries(m[id := after], order) ==
            if id in order then Entries(m, order)[id := after] else Entries(m, order)
  {
  }

  /** Dropping the oldest remaining key leaves the entries of the rest. */
  lemma Oldest(s: Store, i: nat)
    requires Valid(s) && i < |s.order|
    ensures s.order[i..][0] == s.order[i] && s.order[i..][1..] == s.order[i + 1..]
    ensures Entries(s.msgs, s.order[i..]) - {s.order[i]} == Entries(s.msgs, s.order[i + 1..])
  {
    var (young, younger) := (s.order[i..], s.order[i + 1..]);
    assert young == [s.order[i]] + younger;
    assert s.order[i] !in younger;
  }
}
