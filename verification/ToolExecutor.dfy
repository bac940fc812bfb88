/** The bridge executor: its critical sections, and what reaches them from the bridge. */
module ToolExecutor {
  import opened BigEndian
  import opened BridgeClient
  import opened Common
  import opened Matcher
  import opened Reassembly
  import opened Wire

  /** A pushed signal's data, as far as the executor reads it. */
  datatype Data = NotObject | Object(kind: string, correlationId: string, result: Option<string>)

  /** The waiter a pushed signal is meant for, and what it brings; None for any other signal. */
  function ResultIn(key: string, data: Data): Option<(string, Option<string>)> {
    if key == "creatures/signal" && data.Object? && data.kind == "tools/result"
    then Some((data.correlationId, data.result)) else None
  }

  type Results = Table<string, Option<string>>

  /** `handle_signal`: only a result that someone waits for changes anything. */
  function HandleOne(t: Results, key: string, data: Data): Results {
    match ResultIn(key, data)
    case Some((cid, value)) => Matcher.Complete(t, cid, value)
    case None => t
  }

  /** The object a signal's payload decodes to. */
  datatype Pushed = Pushed(key: string, data: Data)

  type Decode = seq<byte> -> Pushed

  function HandleAll(t: Results, payloads: seq<seq<byte>>, decode: Decode): Results {
    if payloads == [] then t
    else
      var last := decode(payloads[|payloads| - 1]);
      HandleOne(HandleAll(t, payloads[..|payloads| - 1], decode), last.key, last.data)
  }

  /** The payload is a tool's result for this correlation id. */
  predicate Brings(payload: seq<byte>, cid: string, decode: Decode) {
    var Pushed(key, data) := decode(payload);
    key == "creatures/signal" && data.Object? && data.kind == "tools/result" && data.correlationId == cid
  }

  /** The last payload that brings a result for `cid`. */
  ghost function Bringer(payloads: seq<seq<byte>>, cid: string, decode: Decode): (r: Option<seq<byte>>)
    ensures r.None? <==> forall p :: p in payloads ==> !Brings(p, cid, decode)
    ensures r.Some? ==> r.value in payloads && Brings(r.value, cid, decode)
  {
    if payloads == [] then None
    else if Brings(payloads[|payloads| - 1], cid, decode) then Some(payloads[|payloads| - 1])
    else
      assert payloads == payloads[..|payloads| - 1] + [payloads[|payloads| - 1]];
      Bringer(payloads[..|payloads| - 1], cid, decode)
  }

  function ResultOf(payload: seq<byte>, cid: string, decode: Decode): Option<string>
    requires Brings(payload, cid, decode)
  {
    decode(payload).data.result
  }

  /** A waiting invocation ends with the last result under its own id; nothing else touches it. */
  lemma {:induction false} HandleAllDelivers(t: Results, payloads: seq<seq<byte>>, cid: string, decode: Decode)
    ensures var (was, bringer) := (Lookup(t, cid), Bringer(payloads, cid, decode));
            Lookup(HandleAll(t, payloads, decode), cid) ==
            if was.waits && bringer.Some? then Entry(true, true, Some(ResultOf(bringer.value, cid, decode))) else was
  {
    if payloads != [] {
      var last := decode(payloads[|payloads| - 1]);
      var mid := HandleAll(t, payloads[..|payloads| - 1], decode);
      HandleAllDelivers(t, payloads[..|payloads| - 1], cid, decode);
      var result := ResultIn(last.key, last.data);
      if result.Some? {
        LookupAfter(mid, result.value.0, result.value.1, cid);
      }
    }
  }

  /** A message of the peer's that brings a result for `cid`. */
  ghost predicate Signalled(d: Decoder, msgs: map<nat, Post>, id: nat, cid: string, decode: Decode) {
    && id in msgs && msgs[id].op == OP_SIGNAL && d.handled && msgs[id].payload != [] && d.isObject(msgs[id].payload)
    && Brings(msgs[id].payload, cid, decode)
  }

  /**
    From the peer's bytes to the invocations, whatever the interleaving of chunks, the keep-alives and the
    reads: if every payload can be decoded, a waiting invocation holds the result of a signal under its own
    id and is woken, or goes on waiting when there was none.
   */
  lemma ResultsReachTheirInvocations(d: Decoder, t: Table<nat, Value>, tools: Results, msgs: map<nat, Post>,
                                     items: seq<Item>, cid: string, decode: Decode)
    returns (end: Reader, id: Option<nat>)
    requires AllTransmissible(items) && Traffic(msgs, FramesIn(items))
    requires forall f :: Belongs(msgs, f) ==> f in FramesIn(items)
    requires !AnyUnreadable(d, msgs) && Lookup(tools, cid) == Entry(true, false, None)
    ensures end == ReadFrames(d, Reader(FRESH, t, []), ParseStream(Stream(items)))
    ensures id.Some? <==> exists i :: Signalled(d, msgs, i, cid, decode)
    ensures id.Some? ==> Signalled(d, msgs, id.value, cid, decode)
    ensures Lookup(HandleAll(tools, end.signalled, decode), cid) ==
            if id.Some? then Entry(true, true, Some(ResultOf(msgs[id.value].payload, cid, decode)))
            else Entry(true, false, None)
  {
    end := MessagesAreRead(d, t, msgs, items);
    var ms, bringer := end.rx.out, Bringer(end.signalled, cid, decode);
    HandleAllDelivers(tools, end.signalled, cid, decode);
    if bringer.Some? {
      SignalsMean(ms, d, bringer.value);
      var m :| m in ms && m.op == OP_SIGNAL && m.payload == bringer.value;
      id := Some(m.msgId);
      assert Signalled(d, msgs, m.msgId, cid, decode);
    } else {
      id := None;
      forall i | i in msgs
        ensures !Signalled(d, msgs, i, cid, decode)
      {
        assert Whole(msgs, i) in ms;
        SignalsMean(ms, d, msgs[i].payload);
      }
    }
  }

  datatype ToolResult = Ok(response: Option<string>) | NotDelivered

  class BridgeCreatureExecutor {
    var waiters: map<string, bool>
    var results: map<string, Option<string>>

    constructor ()
      ensures State() == Table(map[], map[])
    {
      waiters, results := map[], map[];
    }

    ghost function State(): Results
      reads this
    {
      Table(waiters, results)
    }

    method HandleSignal(key: string, data: Data)
      modifies this
      ensures State() == HandleOne(old(State()), key, data)
      ensures if key == "creatures/signal" && data.Object? && data.kind == "tools/result" &&
                 data.correlationId in old(waiters)
              then waiters == old(waiters)[data.correlationId := true] &&
                   results == old(results)[data.correlationId := data.result]
              else waiters == old(waiters) && results == old(results)
    {
      if key != "creatures/signal" || !data.Object? {
        return;
      }
      if data.kind != "tools/result" {
        return;
      }
      var cid := data.correlationId;
      if cid in waiters {
        results := results[cid := data.result];
        waiters := waiters[cid := true];
      }
    }

    /** `execute` up to the point where it signals the tool. */
    method Post(cid: string)
      modifies this
      ensures State() == Matcher.Register(old(State()), cid)
    {
      waiters := waiters[cid := false];
    }

    /** `execute` after the wait, whose outcome was `delivered`. */
    method Reap(cid: string, delivered: bool) returns (r: ToolResult)
      modifies this
      ensures State() == Matcher.Take(old(State()), cid)
      ensures r == if delivered then Ok(if cid in old(results) then old(results)[cid] else None) else NotDelivered
    {
      var result := if cid in results then results[cid] else None;
      waiters := waiters - {cid};
      results := results - {cid};
      r := if delivered then Ok(result) else NotDelivered;
    }
  }
}
