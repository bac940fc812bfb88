/** `SessionMemory`: a least-recently-written store of bounded conversations. */
module Sessions {
  import opened Common
  import opened TextTools

  datatype Id = Id(name: string)

  datatype Turn = Turn(role: string, content: string, agentName: Option<string>)

  /** An insertion-ordered dictionary: its keys, oldest first, and their values. */
  datatype Store = Store(order: seq<Id>, msgs: map<Id, seq<Turn>>)

  const NOTHING := Store([], map[])

  datatype Op =
    | Append(id: Id, role: string, content: string, agentName: string)
    | Replace(id: Id, history: seq<Turn>)
    | Read(id: Id)
    | Clear(id: Id)

  function Drop(order: seq<Id>, id: Id): seq<Id> {
    if order == [] then []
    else
      var last := order[|order| - 1];
      Drop(order[..|order| - 1], id) + if last == id then [] else [last]
  }

  function Forget(s: Store, id: Id): Store {
    Store(Drop(s.order, id), s.msgs - {id})
  }

  /** Evicts the oldest sessions until no more than `cap` are left. */
  function Evict(s: Store, cap: nat): Store {
    var order := LastN(s.order, cap);
    Store(order, Entries(s.msgs, order))
  }

  function Entries(m: map<Id, seq<Turn>>, order: seq<Id>): map<Id, seq<Turn>> {
    map id | id in m && id in order :: m[id]
  }

  /** Moves the session to the young end, with these messages, and evicts. */
  function Put(s: Store, id: Id, msgs: seq<Turn>, cap: nat): Store {
    var out := Forget(s, id);
    Evict(Store(out.order + [id], out.msgs[id := msgs]), cap)
  }

  function Messages(s: Store, id: Id): seq<Turn> {
    if id in s.msgs then s.msgs[id] else []
  }

  function TurnOf(op: Op): Turn
    requires op.Append?
  {
    Turn(op.role, Strip(op.content), if op.agentName == "" then None else Some(op.agentName))
  }

  function Texts(): Turn -> Option<Turn> {
    (turn: Turn) => if Strip(turn.content) == "" then None else Some(turn)
  }

  /** The turns of an authoritative history that have any text. */
  function Cleaned(history: seq<Turn>): seq<Turn> {
    Collect(Texts(), history)
  }

  /** `del msgs[: len(msgs) - max]` once there are more than `max`. */
  function Bound(msgs: seq<Turn>, maxMessages: int): seq<Turn> {
    if |msgs| > maxMessages then LastN(msgs, if maxMessages < 0 then 0 else maxMessages) else msgs
  }

  function Apply(s: Store, op: Op, cap: nat, maxMessages: int): Store {
    match op
    case Append(id, _, content, _) =>
      if Strip(content) == "" then s
      else
        var msgs := Messages(s, id) + [TurnOf(op)];
        Put(s, id, Bound(msgs, maxMessages), cap)
    case Replace(id, history) => Put(s, id, SliceFromEnd(Cleaned(history), maxMessages), cap)
    case Read(_) => s
    case Clear(id) => Forget(s, id)
  }

  function Stepper(cap: nat, maxMessages: int): (Store, Op) -> Store {
    (s, op) => Apply(s, op, cap, maxMessages)
  }

  function Run(ops: seq<Op>, cap: nat, maxMessages: int): Store {
    Fold(Stepper(cap, maxMessages), NOTHING, ops)
  }

  // ---- the specification, told from the operations alone --------------------

  predicate Writes(op: Op) {
    op.Replace? || (op.Append? && Strip(op.content) != "")
  }

  predicate Written(ops: seq<Op>, id: Id) {
    exists i :: 0 <= i < |ops| && Writes(ops[i]) && ops[i].id == id
  }

  /** The other sessions written since `id` was last written, and not cleared since. */
  function OthersSince(ops: seq<Op>, id: Id): set<Id> {
    if ops == [] then {}
    else
      var (front, last) := (ops[..|ops| - 1], ops[|ops| - 1]);
      if last.Clear? then OthersSince(front, id) - {last.id}
      else if !Writes(last) then OthersSince(front, id)
      else if last.id == id then {}
      else OthersSince(front, id) + {last.id}
  }

  /**
    A session is kept from its last write on until it is cleared, or until as many as `cap` others,
    written since and not cleared since, stand behind it.
   */
  predicate Kept(ops: seq<Op>, id: Id, cap: nat) {
    ops != [] &&
    var (front, last) := (ops[..|ops| - 1], ops[|ops| - 1]);
    if last.Clear? then last.id != id && Kept(front, id, cap)
    else if !Writes(last) then Kept(front, id, cap)
    else if last.id == id then cap > 0
    else Kept(front, id, cap) && |OthersSince(ops, id)| < cap
  }

  /** All its messages since its last replacement, or since it came back after an eviction. */
  function Log(ops: seq<Op>, id: Id, cap: nat): seq<Turn> {
    if ops == [] then []
    else
      var (front, last) := (ops[..|ops| - 1], ops[|ops| - 1]);
      if !Writes(last) || last.id != id then Log(front, id, cap)
      else if last.Replace? then Cleaned(last.history)
      else (if Kept(front, id, cap) then Log(front, id, cap) else []) + [TurnOf(last)]
  }

  // ---- order ----------------------------------------------------------------

  ghost predicate Valid(s: Store) {
    NoDup(s.order) && forall id :: id in s.msgs <==> id in s.order
  }

  lemma {:induction false} DropMeans(order: seq<Id>, id: Id)
    ensures forall x :: x in Drop(order, id) <==> x in order && x != id
    ensures id !in order ==> Drop(order, id) == order
  {
    if order != [] {
      var front, last := order[..|order| - 1], order[|order| - 1];
      DropMeans(front, id);
      assert order == front + [last];
    }
  }

  lemma {:induction false} DropStaysDistinct(order: seq<Id>, id: Id)
    requires NoDup(order)
    ensures NoDup(Drop(order, id) + [id])
    ensures |Drop(order, id)| == |order| - if id in order then 1 else 0
  {
    DropMeans(order, id);
    NoDupSnoc(Drop(order, id), id);
    if order != [] {
      var front, last := order[..|order| - 1], order[|order| - 1];
      assert order == front + [last];
      NoDupSnoc(front, last);
      DropStaysDistinct(front, id);
      NoDupSnoc(Drop(front, id), id);
      DropMeans(front, id);
      NoDupSnoc(Drop(front, id), last);
    }
  }

  lemma {:induction false} DropAppends(a: seq<Id>, b: seq<Id>, id: Id)
    ensures Drop(a + b, id) == Drop(a, id) + Drop(b, id)
  {
    if b == [] {
      assert a + b == a;
    } else {
      assert (a + b)[..|a + b| - 1] == a + b[..|b| - 1];
      DropAppends(a, b[..|b| - 1], id);
    }
  }

  lemma EvictStaysValid(s: Store, cap: nat)
    requires Valid(s)
    ensures Valid(Evict(s, cap))
  {
    forall x | x in LastN(s.order, cap)
      ensures x in s.order
    {
    }
  }

  lemma ForgetStaysValid(s: Store, id: Id)
    requires Valid(s)
    ensures Valid(Forget(s, id)) && NoDup(Forget(s, id).order + [id])
  {
    DropMeans(s.order, id);
    DropStaysDistinct(s.order, id);
    NoDupSnoc(Drop(s.order, id), id);
  }

  lemma PutStaysValid(s: Store, id: Id, msgs: seq<Turn>, cap: nat)
    requires Valid(s)
    ensures Valid(Put(s, id, msgs, cap))
  {
    ForgetStaysValid(s, id);
    var out := Forget(s, id);
    EvictStaysValid(Store(out.order + [id], out.msgs[id := msgs]), cap);
  }

  lemma ApplyStaysValid(s: Store, op: Op, cap: nat, maxMessages: int)
    requires Valid(s)
    ensures Valid(Apply(s, op, cap, maxMessages))
  {
    match op {
      case Append(id, _, _, _) => PutStaysValid(s, id, Bound(Messages(s, id) + [TurnOf(op)], maxMessages), cap);
      case Replace(id, history) => PutStaysValid(s, id, SliceFromEnd(Cleaned(history), maxMessages), cap);
      case Read(_) =>
      case Clear(id) => ForgetStaysValid(s, id);
    }
  }

  lemma RunIsValid(ops: seq<Op>, cap: nat, maxMessages: int)
    ensures Valid(Run(ops, cap, maxMessages))
  {
    var valid := (s: Store, front: seq<Op>) => Valid(s);
    forall s, front, op | valid(s, front)
      ensures valid(Stepper(cap, maxMessages)(s, op), front + [op])
    {
      ApplyStaysValid(s, op, cap, maxMessages);
    }
    FoldKeeps(Stepper(cap, maxMessages), NOTHING, ops, valid);
  }

  /** The ids after `id`, when it is in `order`. */
  function After(order: seq<Id>, id: Id): seq<Id> {
    if order == [] || order[|order| - 1] == id then []
    else After(order[..|order| - 1], id) + [order[|order| - 1]]
  }

  lemma {:induction false} AfterMeans(order: seq<Id>, id: Id) returns (i: nat)
    requires NoDup(order) && id in order
    ensures i < |order| && order[i] == id && After(order, id) == order[i + 1..]
  {
    var front, last := order[..|order| - 1], order[|order| - 1];
    if last == id {
      i := |order| - 1;
    } else {
      assert order == front + [last];
      i := AfterMeans(front, id);
      SliceSnoc(front, last, i + 1);
    }
  }

  lemma AfterSnoc(order: seq<Id>, last: Id, id: Id)
    ensures After(order + [last], id) == if last == id then [] else After(order, id) + [last]
    ensures Drop(order + [last], id) == Drop(order, id) + if last == id then [] else [last]
  {
    assert (order + [last])[..|order|] == order;
  }

  lemma {:induction false} AfterDrop(order: seq<Id>, id: Id, x: Id)
    requires x != id
    ensures After(Drop(order, x), id) == Drop(After(order, id), x)
  {
    if order != [] {
      var front, last := order[..|order| - 1], order[|order| - 1];
      assert order == front + [last];
      AfterDrop(front, id, x);
      AfterSnoc(front, last, id);
      AfterSnoc(front, last, x);
      AfterSnoc(Drop(front, x), last, id);
      AfterSnoc(After(front, id), last, x);
      if last == x {
        assert Drop(order, x) == Drop(front, x);
      } else if last == id {
        assert After(order, id) == [] && Drop(order, x) == Drop(front, x) + [id];
      } else {
        assert Drop(order, x) == Drop(front, x) + [last];
      }
    }
  }

  ghost function Elements(order: seq<Id>): set<Id> {
    set x | x in order
  }

  lemma ElementsSnoc(order: seq<Id>, x: Id)
    ensures Elements(order + [x]) == Elements(order) + {x}
    ensures Elements(Drop(order, x) + [x]) == Elements(order) + {x}
  {
    DropMeans(order, x);
  }

  lemma {:induction false} CountElements(order: seq<Id>)
    requires NoDup(order)
    ensures |Elements(order)| == |order|
  {
    if order != [] {
      var front, last := order[..|order| - 1], order[|order| - 1];
      CountElements(front);
      assert order == front + [last];
      assert Elements(order) == Elements(front) + {last};
    }
  }

  lemma InLastN(order: seq<Id>, i: nat, cap: nat)
    requires NoDup(order) && i < |order|
    ensures order[i] in LastN(order, cap) <==> |order| - i <= cap
  {
    var young := LastN(order, cap);
    var d := |order| - |young|;
    if i >= d {
      assert young[i - d] == order[i];
    } else {
      forall k | 0 <= k < |young|
        ensures young[k] != order[i]
      {
        assert young[k] == order[d + k];
      }
    }
  }

  lemma {:induction false} AfterOfAppend(a: seq<Id>, b: seq<Id>, id: Id)
    requires id in b
    ensures After(a + b, id) == After(b, id)
  {
    var front, last := b[..|b| - 1], b[|b| - 1];
    assert b == front + [last] && (a + b)[..|a + b| - 1] == a + front;
    if last != id {
      AfterOfAppend(a, front, id);
    }
  }

  lemma AfterLastN(order: seq<Id>, cap: nat, id: Id)
    requires id in LastN(order, cap)
    ensures After(LastN(order, cap), id) == After(order, id)
  {
    var young := LastN(order, cap);
    assert order == order[..|order| - |young|] + young;
    AfterOfAppend(order[..|order| - |young|], young, id);
  }

  /** With `others` behind it, `id` is among the last `cap` exactly when they are fewer than `cap`. */
  lemma AmongTheYoungest(order: seq<Id>, id: Id, cap: nat)
    requires NoDup(order) && id in order
    ensures id in LastN(order, cap) <==> |Elements(After(order, id))| < cap
  {
    var i := AfterMeans(order, id);
    CountElements(order[i + 1..]);
    InLastN(order, i, cap);
  }

  /** The order after a write. */
  function Refreshed(order: seq<Id>, id: Id, cap: nat): seq<Id> {
    LastN(Drop(order, id) + [id], cap)
  }

  /** What the store's order says of one session is what the operations say of it. */
  ghost predicate Fits(order: seq<Id>, ops: seq<Op>, id: Id, cap: nat) {
    && (id in order <==> Kept(ops, id, cap))
    && (id in order ==> Elements(After(order, id)) == OthersSince(ops, id))
  }

  lemma OthersSnoc(front: seq<Op>, op: Op, id: Id, cap: nat)
    ensures OthersSince(front + [op], id) ==
            if op.Clear? then OthersSince(front, id) - {op.id}
            else if !Writes(op) then OthersSince(front, id)
            else if op.id == id then {} else OthersSince(front, id) + {op.id}
    ensures Kept(front + [op], id, cap) <==>
            if op.Clear? then op.id != id && Kept(front, id, cap)
            else if !Writes(op) then Kept(front, id, cap)
            else if op.id == id then cap > 0
            else Kept(front, id, cap) && |OthersSince(front, id) + {op.id}| < cap
  {
    assert (front + [op])[..|front|] == front;
  }

  lemma OwnWriteFits(order: seq<Id>, front: seq<Op>, op: Op, cap: nat)
    requires Writes(op)
    ensures Fits(Refreshed(order, op.id, cap), front + [op], op.id, cap)
  {
    OthersSnoc(front, op, op.id, cap);
    var full, young := Drop(order, op.id) + [op.id], Refreshed(order, op.id, cap);
    AfterSnoc(Drop(order, op.id), op.id, op.id);
    if cap > 0 {
      assert young[|young| - 1] == op.id;
      AfterLastN(full, cap, op.id);
    }
  }

  lemma OtherWriteFits(order: seq<Id>, front: seq<Op>, op: Op, id: Id, cap: nat)
    requires NoDup(order) && Fits(order, front, id, cap) && Writes(op) && id != op.id
    ensures Fits(Refreshed(order, op.id, cap), front + [op], id, cap)
  {
    OthersSnoc(front, op, id, cap);
    DropMeans(order, op.id);
    DropStaysDistinct(order, op.id);
    var full := Drop(order, op.id) + [op.id];
    if id in order {
      assert id in full;
      AfterSnoc(Drop(order, op.id), op.id, id);
      AfterDrop(order, id, op.id);
      ElementsSnoc(After(order, id), op.id);
      AmongTheYoungest(full, id, cap);
      if id in LastN(full, cap) {
        AfterLastN(full, cap, id);
      }
    }
  }

  lemma ClearFits(order: seq<Id>, front: seq<Op>, op: Op, id: Id, cap: nat)
    requires NoDup(order) && Fits(order, front, id, cap) && op.Clear?
    ensures Fits(Drop(order, op.id), front + [op], id, cap)
  {
    OthersSnoc(front, op, id, cap);
    DropMeans(order, op.id);
    if id in order && id != op.id {
      AfterDrop(order, id, op.id);
      DropMeans(After(order, id), op.id);
    }
  }

  lemma StepFits(order: seq<Id>, front: seq<Op>, op: Op, id: Id, cap: nat)
    requires NoDup(order) && Fits(order, front, id, cap)
    ensures Fits(if op.Clear? then Drop(order, op.id) else if Writes(op) then Refreshed(order, op.id, cap) else order,
                 front + [op], id, cap)
  {
    OthersSnoc(front, op, id, cap);
    if op.Clear? {
      ClearFits(order, front, op, id, cap);
    } else if Writes(op) {
      if op.id == id {
        OwnWriteFits(order, front, op, cap);
      } else {
        OtherWriteFits(order, front, op, id, cap);
      }
    }
  }

  lemma ApplyOrder(s: Store, op: Op, cap: nat, maxMessages: int)
    ensures Apply(s, op, cap, maxMessages).order ==
            if op.Clear? then Drop(s.order, op.id) else if Writes(op) then Refreshed(s.order, op.id, cap) else s.order
  {
  }

  lemma OrderStep(s: Store, front: seq<Op>, op: Op, cap: nat, maxMessages: int, id: Id)
    requires Valid(s) && Fits(s.order, front, id, cap)
    ensures Fits(Apply(s, op, cap, maxMessages).order, front + [op], id, cap)
  {
    StepFits(s.order, front, op, id, cap);
    ApplyOrder(s, op, cap, maxMessages);
  }

  lemma NothingFits(id: Id, cap: nat)
    ensures Valid(NOTHING) && Fits(NOTHING.order, [], id, cap)
  {
    assert id !in NOTHING.order && !Kept([], id, cap);
  }

  /** After any run, clears included, the sessions in the store are exactly those the operations keep,
      each with exactly the others written since behind it. */
  lemma OrderFits(ops: seq<Op>, cap: nat, maxMessages: int, id: Id)
    ensures Fits(Run(ops, cap, maxMessages).order, ops, id, cap)
  {
    var fits := (s: Store, front: seq<Op>) => Valid(s) && Fits(s.order, front, id, cap);
    forall s, front, op | fits(s, front)
      ensures fits(Stepper(cap, maxMessages)(s, op), front + [op])
    {
      ApplyStaysValid(s, op, cap, maxMessages);
      OrderStep(s, front, op, cap, maxMessages, id);
    }
    NothingFits(id, cap);
    FoldKeeps(Stepper(cap, maxMessages), NOTHING, ops, fits);
  }

  // ---- messages -------------------------------------------------------------

  lemma PutIs(s: Store, id: Id, ms: seq<Turn>, cap: nat)
    ensures Put(s, id, ms, cap) ==
            Store(Refreshed(s.order, id, cap), Entries((s.msgs - {id})[id := ms], Refreshed(s.order, id, cap)))
  {
  }

  lemma EntryIs(m: map<Id, seq<Turn>>, order: seq<Id>, x: Id)
    ensures x in Entries(m, order) <==> x in m && x in order
    ensures x in Entries(m, order) ==> Entries(m, order)[x] == m[x]
  {
  }

  lemma PutMessages(s: Store, id: Id, msgs: seq<Turn>, cap: nat, x: Id)
    requires x in Put(s, id, msgs, cap).msgs
    ensures Put(s, id, msgs, cap).msgs[x] == if x == id then msgs else Messages(s, x)
    ensures x != id ==> x in s.msgs
  {
    PutIs(s, id, msgs, cap);
    EntryIs((s.msgs - {id})[id := msgs], Refreshed(s.order, id, cap), x);
  }

  /** The messages a write stores. */
  function Given(s: Store, op: Op, maxMessages: int): seq<Turn>
    requires Writes(op)
  {
    if op.Replace? then SliceFromEnd(Cleaned(op.history), maxMessages)
    else Bound(Messages(s, op.id) + [TurnOf(op)], maxMessages)
  }

  lemma ApplyIsPut(s: Store, op: Op, cap: nat, maxMessages: int)
    requires Writes(op)
    ensures Apply(s, op, cap, maxMessages) == Put(s, op.id, Given(s, op, maxMessages), cap)
  {
  }

  lemma ApplyReads(s: Store, op: Op, cap: nat, maxMessages: int, id: Id)
    requires !Writes(op) && id in Apply(s, op, cap, maxMessages).msgs
    ensures id in s.msgs && Apply(s, op, cap, maxMessages).msgs[id] == s.msgs[id]
  {
  }

  /** The messages of a stored session are those its last write gave it. */
  lemma StoredMessages(s: Store, op: Op, cap: nat, maxMessages: int, id: Id)
    requires id in Apply(s, op, cap, maxMessages).msgs
    ensures Apply(s, op, cap, maxMessages).msgs[id] ==
            if Writes(op) && op.id == id then Given(s, op, maxMessages) else Messages(s, id)
    ensures !(Writes(op) && op.id == id) ==> id in s.msgs
  {
    if Writes(op) {
      ApplyIsPut(s, op, cap, maxMessages);
      PutMessages(s, op.id, Given(s, op, maxMessages), cap, id);
    } else {
      ApplyReads(s, op, cap, maxMessages, id);
    }
  }

  // ---- what one write leaves ------------------------------------------------

  /** The turn an append stores: the role as given, the content without its outer white space, and the name
      if there is one. */
  ghost predicate IsTurnOf(t: Turn, role: string, content: string, agentName: string) {
    && t.role == role && IsStripped(content, t.content)
    && (t.agentName.None? <==> agentName == "") && (t.agentName.Some? ==> t.agentName.value == agentName)
  }

  /** After an append the session shows one more turn at the end, and before it what it showed, bounded. */
  ghost predicate Extended(was: seq<Turn>, now: seq<Turn>, role: string, content: string, agentName: string,
                           maxMessages: int)
  {
    && |now| == (if |was| < maxMessages then |was| + 1 else maxMessages) && now != []
    && IsTurnOf(now[|now| - 1], role, content, agentName)
    && Suffix(now[..|now| - 1], was)
  }

  lemma TurnOfMeans(op: Op)
    requires op.Append? && !Blank(op.content)
    ensures IsTurnOf(TurnOf(op), op.role, op.content, op.agentName)
  {
    StripTrims(op.content);
  }

  lemma BoundExtends(was: seq<Turn>, turn: Turn, role: string, content: string, agentName: string, n: int)
    requires n >= 1 && IsTurnOf(turn, role, content, agentName)
    ensures Extended(was, Bound(was + [turn], n), role, content, agentName, n)
  {
  }

  lemma WriteIsStored(s: Store, op: Op, cap: nat, maxMessages: int)
    requires Writes(op) && cap >= 1
    ensures Messages(Apply(s, op, cap, maxMessages), op.id) == Given(s, op, maxMessages)
  {
    ApplyOrder(s, op, cap, maxMessages);
    ApplyIsPut(s, op, cap, maxMessages);
    var order := Refreshed(s.order, op.id, cap);
    assert order[|order| - 1] == op.id;
    PutIs(s, op.id, Given(s, op, maxMessages), cap);
    EntryIs((s.msgs - {op.id})[op.id := Given(s, op, maxMessages)], order, op.id);
    StoredMessages(s, op, cap, maxMessages, op.id);
  }

  /** An append of blank text changes nothing; any other extends its session, if the bounds leave any room. */
  lemma AppendMeans(s: Store, id: Id, role: string, content: string, agentName: string, cap: nat, maxMessages: int)
    ensures var t := Apply(s, Append(id, role, content, agentName), cap, maxMessages);
            && (Blank(content) ==> t == s)
            && (!Blank(content) && cap >= 1 && maxMessages >= 1 ==>
                  Extended(Messages(s, id), Messages(t, id), role, content, agentName, maxMessages))
  {
    StripTrims(content);
    if !Blank(content) && cap >= 1 && maxMessages >= 1 {
      var op := Append(id, role, content, agentName);
      TurnOfMeans(op);
      WriteIsStored(s, op, cap, maxMessages);
      BoundExtends(Messages(s, id), TurnOf(op), role, content, agentName, maxMessages);
    }
  }

  /** `at` lists, in order, the positions of the turns that have any text. */
  ghost predicate PicksText(history: seq<Turn>, at: seq<nat>) {
    && (forall i :: 0 <= i < |at| ==> at[i] < |history|)
    && (forall i, j :: 0 <= i < j < |at| ==> at[i] < at[j])
    && (forall k :: 0 <= k < |history| ==> (k in at <==> !Blank(history[k].content)))
  }

  ghost predicate Picked(history: seq<Turn>, at: seq<nat>, turns: seq<Turn>) {
    |turns| == |at| && forall i :: 0 <= i < |at| ==> at[i] < |history| && turns[i] == history[at[i]]
  }

  lemma CleanedSnoc(front: seq<Turn>, last: Turn)
    ensures Cleaned(front + [last]) == if Strip(last.content) == "" then Cleaned(front) else Cleaned(front) + [last]
  {
    CollectSnoc(Texts(), front, last);
  }

  lemma CleanedOne(turn: Turn)
    ensures Cleaned([turn]) == if Strip(turn.content) == "" then [] else [turn]
  {
    CleanedSnoc([], turn);
    assert [] + [turn] == [turn];
  }

  lemma CleanedPicks(history: seq<Turn>) returns (at: seq<nat>)
    ensures PicksText(history, at) && Picked(history, at, Cleaned(history))
  {
    at := CollectPicks(Texts(), history);
    forall k | 0 <= k < |history|
      ensures k in at <==> !Blank(history[k].content)
    {
      StripTrims(history[k].content);
      assert Texts()(history[k]).Some? <==> !Blank(history[k].content);
    }
    KeptAsGiven(history, at, Cleaned(history));
  }

  lemma KeptAsGiven(history: seq<Turn>, at: seq<nat>, turns: seq<Turn>)
    requires PickedAs(Texts(), history, at, turns)
    ensures Picked(history, at, turns)
  {
  }

  lemma LastPicked(history: seq<Turn>, at: seq<nat>, turns: seq<Turn>, n: nat)
    requires Picked(history, at, turns)
    ensures Picked(history, LastN(at, n), LastN(turns, n))
  {
  }

  /** A replaced session shows the last of the given turns that have any text, in order and unchanged. */
  lemma ReplaceMeans(s: Store, id: Id, history: seq<Turn>, cap: nat, maxMessages: int) returns (at: seq<nat>)
    requires cap >= 1 && maxMessages >= 1
    ensures PicksText(history, at)
    ensures Picked(history, LastN(at, maxMessages), Messages(Apply(s, Replace(id, history), cap, maxMessages), id))
  {
    at := CleanedPicks(history);
    LastPicked(history, at, Cleaned(history), maxMessages);
    WriteIsStored(s, Replace(id, history), cap, maxMessages);
    assert SliceFromEnd(Cleaned(history), maxMessages) == LastN(Cleaned(history), maxMessages);
  }

  lemma BoundLog(log: seq<Turn>, turn: Turn, n: int)
    requires n >= 1
    ensures Bound(LastN(log, n) + [turn], n) == LastN(log + [turn], n)
    ensures SliceFromEnd(log, n) == LastN(log, n)
  {
  }

  lemma StoredIsKept(ops: seq<Op>, cap: nat, maxMessages: int, id: Id)
    ensures id in Run(ops, cap, maxMessages).msgs <==> Kept(ops, id, cap)
  {
    RunIsValid(ops, cap, maxMessages);
    OrderFits(ops, cap, maxMessages, id);
  }

  function LastWrite(ops: seq<Op>, id: Id): Option<Op> {
    if ops == [] then None
    else if Writes(ops[|ops| - 1]) && ops[|ops| - 1].id == id then Some(ops[|ops| - 1])
    else LastWrite(ops[..|ops| - 1], id)
  }

  /** What a kept session shows: the last `max_messages` of its log. With a bound of zero or less an append
      leaves nothing, and a replacement what the slice `[-max_messages:]` gives. */
  function Shown(ops: seq<Op>, id: Id, cap: nat, maxMessages: int): seq<Turn> {
    if maxMessages >= 1 then LastN(Log(ops, id, cap), maxMessages)
    else
      var last := LastWrite(ops, id);
      if last.Some? && last.value.Replace? then SliceFromEnd(Cleaned(last.value.history), maxMessages) else []
  }

  lemma LogSnoc(front: seq<Op>, op: Op, id: Id, cap: nat)
    ensures Log(front + [op], id, cap) ==
            if !Writes(op) || op.id != id then Log(front, id, cap)
            else if op.Replace? then Cleaned(op.history)
            else (if Kept(front, id, cap) then Log(front, id, cap) else []) + [TurnOf(op)]
    ensures LastWrite(front + [op], id) == if Writes(op) && op.id == id then Some(op) else LastWrite(front, id)
  {
    assert (front + [op])[..|front|] == front;
  }

  lemma BoundToNothing(msgs: seq<Turn>, turn: Turn, n: int)
    requires n < 1
    ensures Bound(msgs + [turn], n) == []
  {
  }

  /** A write gives its session what it then shows. */
  lemma GivenIsShown(s: Store, front: seq<Op>, op: Op, cap: nat, maxMessages: int)
    requires Writes(op)
    requires Messages(s, op.id) == if Kept(front, op.id, cap) then Shown(front, op.id, cap, maxMessages) else []
    ensures Given(s, op, maxMessages) == Shown(front + [op], op.id, cap, maxMessages)
  {
    LogSnoc(front, op, op.id, cap);
    if maxMessages < 1 {
      if op.Append? {
        BoundToNothing(Messages(s, op.id), TurnOf(op), maxMessages);
      }
    } else if op.Replace? {
      BoundLog(Cleaned(op.history), Turn("", "", None), maxMessages);
    } else {
      BoundLog(if Kept(front, op.id, cap) then Log(front, op.id, cap) else [], TurnOf(op), maxMessages);
    }
  }

  /** The store holds this session iff it is kept, and shows what it should. */
  ghost predicate Shows(s: Store, ops: seq<Op>, id: Id, cap: nat, maxMessages: int) {
    && Valid(s) && Fits(s.order, ops, id, cap)
    && (id in s.msgs ==> s.msgs[id] == Shown(ops, id, cap, maxMessages))
  }

  lemma SameLogShowsTheSame(a: seq<Op>, b: seq<Op>, id: Id, cap: nat, maxMessages: int)
    requires Log(a, id, cap) == Log(b, id, cap) && LastWrite(a, id) == LastWrite(b, id)
    ensures Shown(a, id, cap, maxMessages) == Shown(b, id, cap, maxMessages)
  {
  }

  lemma OthersShowTheSame(front: seq<Op>, op: Op, id: Id, cap: nat, maxMessages: int)
    requires !(Writes(op) && op.id == id)
    ensures Shown(front + [op], id, cap, maxMessages) == Shown(front, id, cap, maxMessages)
  {
    LogSnoc(front, op, id, cap);
    SameLogShowsTheSame(front + [op], front, id, cap, maxMessages);
  }

  lemma StepShows(s: Store, front: seq<Op>, op: Op, cap: nat, maxMessages: int, id: Id)
    requires Shows(s, front, id, cap, maxMessages) && id in Apply(s, op, cap, maxMessages).msgs
    ensures Apply(s, op, cap, maxMessages).msgs[id] == Shown(front + [op], id, cap, maxMessages)
  {
    StoredMessages(s, op, cap, maxMessages, id);
    if Writes(op) && op.id == id {
      GivenIsShown(s, front, op, cap, maxMessages);
    } else {
      OthersShowTheSame(front, op, id, cap, maxMessages);
    }
  }

  lemma RunShows(ops: seq<Op>, cap: nat, maxMessages: int, id: Id)
    ensures Shows(Run(ops, cap, maxMessages), ops, id, cap, maxMessages)
  {
    var shows := (s: Store, front: seq<Op>) => Shows(s, front, id, cap, maxMessages);
    forall s, front, op | shows(s, front)
      ensures shows(Stepper(cap, maxMessages)(s, op), front + [op])
    {
      ApplyStaysValid(s, op, cap, maxMessages);
      OrderStep(s, front, op, cap, maxMessages, id);
      if id in Apply(s, op, cap, maxMessages).msgs {
        StepShows(s, front, op, cap, maxMessages, id);
      }
    }
    NothingFits(id, cap);
    FoldKeeps(Stepper(cap, maxMessages), NOTHING, ops, shows);
  }

  /**
    The bounded store, over any run of its operations and for any bounds: it holds exactly the sessions
    that are kept, and each shows the end of its log.
   */
  lemma StoreMeans(ops: seq<Op>, cap: nat, maxMessages: int, id: Id)
    ensures var s := Run(ops, cap, maxMessages);
            && (id in s.msgs <==> Kept(ops, id, cap))
            && Messages(s, id) == if Kept(ops, id, cap) then Shown(ops, id, cap, maxMessages) else []
  {
    StoredIsKept(ops, cap, maxMessages, id);
    RunShows(ops, cap, maxMessages, id);
  }

  ghost predicate NoClear(ops: seq<Op>) {
    forall i :: 0 <= i < |ops| ==> !ops[i].Clear?
  }

  lemma WrittenGrows(front: seq<Op>, last: Op, id: Id)
    ensures Written(front + [last], id) <==> Written(front, id) || (Writes(last) && last.id == id)
  {
    var ops := front + [last];
    if Written(front, id) {
      var i :| 0 <= i < |front| && Writes(front[i]) && front[i].id == id;
      assert ops[i] == front[i];
    }
    assert ops[|front|] == last;
    assert forall i :: 0 <= i < |front| ==> ops[i] == front[i];
  }

  lemma SubsetIsSmaller(a: set<Id>, x: Id)
    ensures |a| <= |a + {x}|
  {
    assert a + {x} == a + ({x} - a);
  }

  /** Without clears this is plain least-recently-written: a session is kept while fewer than `cap`
      others have been written since its last write. */
  lemma {:induction false} KeptWithoutClears(ops: seq<Op>, id: Id, cap: nat)
    requires NoClear(ops)
    ensures Kept(ops, id, cap) <==> Written(ops, id) && |OthersSince(ops, id)| < cap
  {
    if ops != [] {
      var front, last := ops[..|ops| - 1], ops[|ops| - 1];
      assert ops == front + [last] && last == ops[|ops| - 1];
      KeptWithoutClears(front, id, cap);
      WrittenGrows(front, last, id);
      SubsetIsSmaller(OthersSince(front, id), last.id);
    }
  }

  // ---- capacities -----------------------------------------------------------

  /** What the smaller store knows is the young end of what the larger one knows. */
  ghost predicate Within(small: Store, large: Store) {
    Suffix(small.order, large.order) && EntriesWithin(small.msgs, large.msgs)
  }

  ghost predicate EntriesWithin(a: map<Id, seq<Turn>>, b: map<Id, seq<Turn>>) {
    forall id :: id in a ==> id in b && Suffix(a[id], b[id])
  }

  lemma SuffixOfLast<T>(a: seq<T>, b: seq<T>, k: nat, k': nat)
    requires Suffix(a, b) && k <= k'
    ensures Suffix(LastN(a, k), LastN(b, k'))
  {
  }

  lemma SuffixSnoc<T>(a: seq<T>, b: seq<T>, x: T)
    requires Suffix(a, b)
    ensures Suffix(a + [x], b + [x])
  {
  }

  lemma DropSuffix(a: seq<Id>, b: seq<Id>, id: Id)
    requires Suffix(a, b)
    ensures Suffix(Drop(a, id), Drop(b, id))
  {
    assert b == b[..|b| - |a|] + a;
    DropAppends(b[..|b| - |a|], a, id);
  }

  lemma RefreshedWithin(a: seq<Id>, b: seq<Id>, id: Id, k: nat, k': nat)
    requires Suffix(a, b) && k <= k'
    ensures Suffix(Refreshed(a, id, k), Refreshed(b, id, k'))
  {
    DropSuffix(a, b, id);
    SuffixSnoc(Drop(a, id), Drop(b, id), id);
    SuffixOfLast(Drop(a, id) + [id], Drop(b, id) + [id], k, k');
  }

  lemma EntriesStayWithin(a: map<Id, seq<Turn>>, b: map<Id, seq<Turn>>, young: seq<Id>, younger: seq<Id>)
    requires EntriesWithin(a, b) && Suffix(young, younger)
    ensures EntriesWithin(Entries(a, young), Entries(b, younger))
  {
    forall x | x in young
      ensures x in younger
    {
    }
  }

  lemma WriteStaysWithin(a: map<Id, seq<Turn>>, b: map<Id, seq<Turn>>, id: Id, ms: seq<Turn>, ms': seq<Turn>)
    requires EntriesWithin(a, b) && Suffix(ms, ms')
    ensures EntriesWithin((a - {id})[id := ms], (b - {id})[id := ms'])
  {
  }

  lemma PutStaysWithin(small: Store, large: Store, id: Id, ms: seq<Turn>, ms': seq<Turn>, k: nat, k': nat)
    requires Within(small, large) && Suffix(ms, ms') && k <= k'
    ensures Within(Put(small, id, ms, k), Put(large, id, ms', k'))
  {
    RefreshedWithin(small.order, large.order, id, k, k');
    WriteStaysWithin(small.msgs, large.msgs, id, ms, ms');
    EntriesStayWithin((small.msgs - {id})[id := ms], (large.msgs - {id})[id := ms'],
                      Refreshed(small.order, id, k), Refreshed(large.order, id, k'));
    PutIs(small, id, ms, k);
    PutIs(large, id, ms', k');
  }

  lemma BoundStaysWithin(a: seq<Turn>, b: seq<Turn>, turn: Turn, maxMessages: int)
    requires Suffix(a, b)
    ensures Suffix(Bound(a + [turn], maxMessages), Bound(b + [turn], maxMessages))
  {
    SuffixSnoc(a, b, turn);
    var n := if maxMessages < 0 then 0 else maxMessages;
    SuffixOfLast(a + [turn], b + [turn], n, n);
  }

  lemma MessagesWithin(small: Store, large: Store, id: Id)
    requires Within(small, large)
    ensures Suffix(Messages(small, id), Messages(large, id))
  {
  }

  lemma ForgetStaysWithin(small: Store, large: Store, id: Id)
    requires Within(small, large)
    ensures Within(Forget(small, id), Forget(large, id))
  {
    DropSuffix(small.order, large.order, id);
  }

  lemma ApplyStaysWithin(small: Store, large: Store, op: Op, k: nat, k': nat, maxMessages: int)
    requires Within(small, large) && k <= k'
    ensures Within(Apply(small, op, k, maxMessages), Apply(large, op, k', maxMessages))
  {
    match op {
      case Append(id, _, _, _) =>
        var a, b, turn := Messages(small, id), Messages(large, id), TurnOf(op);
        MessagesWithin(small, large, id);
        BoundStaysWithin(a, b, turn, maxMessages);
        PutStaysWithin(small, large, id, Bound(a + [turn], maxMessages), Bound(b + [turn], maxMessages), k, k');
      case Replace(id, history) =>
        var ms := SliceFromEnd(Cleaned(history), maxMessages);
        PutStaysWithin(small, large, id, ms, ms, k, k');
      case Read(_) =>
      case Clear(id) => ForgetStaysWithin(small, large, id);
    }
  }

  /** Inclusion: of two stores given the same operations, clears included, the one with room for fewer
      sessions holds the young end of the other's order, and an end of each session's messages. */
  lemma {:induction false} SmallerIsWithinLarger(ops: seq<Op>, k: nat, k': nat, maxMessages: int)
    requires k <= k'
    ensures Within(Run(ops, k, maxMessages), Run(ops, k', maxMessages))
  {
    if ops != [] {
      var front, op := ops[..|ops| - 1], ops[|ops| - 1];
      SmallerIsWithinLarger(front, k, k', maxMessages);
      ApplyStaysWithin(Run(front, k, maxMessages), Run(front, k', maxMessages), op, k, k', maxMessages);
    }
  }

  ghost predicate ReplaceFits(history: seq<Turn>, maxMessages: int) {
    |SliceFromEnd(Cleaned(history), maxMessages)| <= maxMessages
  }

  lemma OneTurnOverflows(t: Turn, maxMessages: int)
    requires maxMessages < 1 && Trimmed(t.content)
    ensures !ReplaceFits([t], maxMessages)
  {
    StripKeepsTrimmed(t.content);
    CleanedOne(t);
    assert |Cleaned([t])| == 1;
  }

  /** A replaced history is cut to `max_messages` exactly when that is at least one: `[-0:]` is all. */
  lemma ReplaceIsBoundedIff(maxMessages: int)
    ensures (forall history :: ReplaceFits(history, maxMessages)) <==> maxMessages >= 1
  {
    if maxMessages < 1 {
      OneTurnOverflows(Turn("user", "x", None), maxMessages);
    }
  }
}
